/** The queues drain: apart from crashes only finitely many steps follow each ingested event, and as long as
    anything is waiting some step can be taken. */
module Draining {
  import opened Wrappers
  import opened Kafka
  import opened Delivery
  import opened DeliverySafety
  import opened Conservation
  import opened Termination

  /** Steps of the loops and of the producers. */
  predicate Own(l: Label) {
    !l.Ingest? && !l.Crash?
  }

  function OwnSteps(ls: seq<Label>): nat {
    if ls == [] then 0 else (if Own(ls[0]) then 1 else 0) + OwnSteps(ls[1..])
  }

  // ---------------------------------------------------------------- how many steps a read can cause

  /** Own steps the message in hand can still cause, the delivery of its re-publication included. */
  function MainRest(pc: Pc): nat {
    match pc
    case Read(_) => 4
    case Ready(_) => 4
    case Failed(_, _) => 3
    case Disposed(_) => 1
    case _ => 0
  }

  function RetryRest(pc: Pc): nat {
    if pc.Read? then 5 else MainRest(pc)
  }

  function Rest(st: State): nat {
    MainRest(st.main.pc) + RetryRest(st.retry.pc) + |st.pipe.inflight|
  }

  lemma RestStep(cfg: Config, st: State, l: Label)
    requires Enabled(cfg, st, l) && !l.Crash?
    ensures Rest(Next(cfg, st, l)) + (if Own(l) then 1 else 0) <= Rest(st) + 6 * Reads(l)
  {
    OpsFit(cfg, st, l);
  }

  lemma {:induction false} RestAlways(cfg: Config, st: State, ls: seq<Label>, st': State)
    requires Runs(cfg, st, ls, st') && forall k :: 0 <= k < |ls| ==> !ls[k].Crash?
    ensures Rest(st') + OwnSteps(ls) <= Rest(st) + 6 * TotalReads(ls)
    decreases |ls|
  {
    if ls != [] {
      RestStep(cfg, st, ls[0]);
      RestAlways(cfg, Next(cfg, st, ls[0]), ls[1..], st');
    }
  }

  /** N ingested events cause at most 6 * N * (limit + 2) steps in all, whatever the handler does. */
  lemma StepsAreBounded(cfg: Config, st: State, ls: seq<Label>, st': State)
    requires ValidConfig(cfg) && Init(st) && Runs(cfg, st, ls, st')
    requires forall k :: 0 <= k < |ls| ==> !ls[k].Crash?
    ensures OwnSteps(ls) <= 6 * ((Budget(cfg) + 2) * TotalIngests(ls))
  {
    ReadsAreBounded(cfg, st, ls, st');
    RestAlways(cfg, st, ls, st');
  }

  // ---------------------------------------------------------------- until nothing is left

  ghost predicate NothingUnread(t: Topic) {
    forall p :: 0 <= p < |t| ==> t[p].pos >= |t[p].log|
  }

  ghost predicate Drained(st: State) {
    && st.main.pc.Idle? && st.retry.pc.Idle? && st.pipe.inflight == []
    && NothingUnread(st.main.topic) && NothingUnread(st.retry.topic)
  }

  /** A step that is possible as long as something is left, unless the retry loop was cancelled. */
  lemma Progress(cfg: Config, st: State) returns (l: Label)
    requires Inv(cfg, st) && !Drained(st) && !st.retry.pc.Stopped?
    ensures Own(l) && Enabled(cfg, st, l)
  {
    if !st.main.pc.Idle? {
      l := MainMove(cfg, st);
    } else if !st.retry.pc.Idle? {
      l := RetryMove(cfg, st);
    } else if st.pipe.inflight != [] {
      l := if |st.retry.topic| > 0 then Deliver(0, 0) else DeliveryFails(0);
    } else if !NothingUnread(st.main.topic) {
      var p: nat :| p < |st.main.topic| && st.main.topic[p].pos < |st.main.topic[p].log|;
      l := MainRead(p);
    } else {
      var p: nat :| p < |st.retry.topic| && st.retry.topic[p].pos < |st.retry.topic[p].log|;
      l := RetryRead(p);
    }
  }

  lemma MainMove(cfg: Config, st: State) returns (l: Label)
    requires Placed(st.main) && MainStage(cfg, st.main) && !st.main.pc.Idle?
    ensures Own(l) && Enabled(cfg, st, l)
  {
    match st.main.pc
    case Read(_) => l := if Parses(cfg, InHand(st.main)) then MainOk else MainSkip;
    case Failed(_, _) => l := MainPublish(true, "");
    case _ => l := MainCommit(true);
  }

  lemma RetryMove(cfg: Config, st: State) returns (l: Label)
    requires Placed(st.retry) && !st.retry.pc.Idle? && !st.retry.pc.Stopped?
    ensures Own(l) && Enabled(cfg, st, l)
  {
    match st.retry.pc
    case Read(_) => l := if RetryCount(InHand(st.retry)) >= cfg.maxRetry then RetryGiveUp else RetryWaited;
    case Ready(_) => l := if Parses(cfg, InHand(st.retry)) then RetryOk else RetryDiscard;
    case Failed(_, _) => l := RetryPublish(true, "");
    case _ => l := RetryCommit(true);
  }

  lemma {:induction false} NoneUnreadCounts(t: Topic, s: Slot)
    requires Ordered(t) && NothingUnread(t)
    ensures TopicCount(t, Unread, s) == 0
  {
    if t != [] {
      assert Slice(t[0], Unread) == [];
      NoneUnreadCounts(t[1..], s);
    }
  }

  lemma DrainedMeansNoneWaiting(cfg: Config, st: State, s: Slot)
    requires Inv(cfg, st) && Drained(st)
    ensures Waiting(st, s) == 0
  {
    NoneUnreadCounts(st.main.topic, s);
    NoneUnreadCounts(st.retry.topic, s);
  }

  /** A crash-free run that can go no further, its retry loop not cancelled, has dealt with everything: each
      message of the events topic was finished once, or lost to a refused or undelivered write. */
  lemma EventsDrain(cfg: Config, st: State, ls: seq<Label>, st': State, s: Slot)
    requires ValidConfig(cfg) && Init(st) && Runs(cfg, st, ls, st')
    requires forall k :: 0 <= k < |ls| ==> !ls[k].Crash?
    requires !st'.retry.pc.Stopped? && forall l :: Own(l) ==> !Enabled(cfg, st', l)
    ensures Waiting(st', s) == 0
    ensures ValidSlot(st'.main.topic, s) ==>
      Finished(st', s) + st'.pipe.rejected[s] + st'.pipe.undelivered[s] == 1
  {
    InitInv(cfg, st);
    InvAlways(cfg, st, ls, st');
    if !Drained(st') {
      var l := Progress(cfg, st');
    }
    DrainedMeansNoneWaiting(cfg, st', s);
    Conserved(cfg, st, ls, st', s);
    NoCrashes(cfg, st, ls, st');
    NoRereadsAlways(cfg, st, ls, st');
  }

  lemma {:induction false} NoCrashes(cfg: Config, st: State, ls: seq<Label>, st': State)
    requires Runs(cfg, st, ls, st') && forall k :: 0 <= k < |ls| ==> !ls[k].Crash?
    ensures st'.crashes == st.crashes
    decreases |ls|
  {
    if ls != [] {
      NoCrashes(cfg, Next(cfg, st, ls[0]), ls[1..], st');
    }
  }
}
