/** The two consume loops as the worker runs them (`Consumer.Run`, `DLQWorker.Run`), each proved to
    take exactly the atomic steps of the delivery protocol.

    What the outside answers in one iteration (which partition has a message, what the handler
    returns, whether the producer and the commit succeed) is a `Turn` of a script; the context is
    cancelled when the script ends. */
module Loops {
  import opened Wrappers
  import opened Headers
  import opened Backoff
  import opened Kafka
  import opened Delivery
  import opened DeliverySafety

  datatype Turn =
    | Timeout
    | Message(part: nat, cancelled: bool, handlerError: Option<string>, accepted: bool, now: string, stored: bool)

  // ---------------------------------------------------------------- specification

  /** How the main loop deals with a message it has read. */
  function MainDecision(cfg: Config, r: Record, turn: Turn): seq<Label>
    requires turn.Message?
  {
    if !Parses(cfg, r) then [MainSkip]
    else if turn.handlerError.None? then [MainOk]
    else [MainErr(turn.handlerError.value), MainPublish(turn.accepted, turn.now)]
  }

  /** The protocol steps of one iteration of the main loop. */
  function MainLabels(cfg: Config, st: State, turn: Turn): seq<Label> {
    if turn.Timeout? || !HasUnread(st.main.topic, turn.part) then []
    else
      [MainRead(turn.part)] + MainDecision(cfg, NextUnread(st.main.topic, turn.part), turn) + [MainCommit(turn.stored)]
  }

  /** How the retry loop deals with a message once its backoff is over. */
  function RetryDecision(cfg: Config, r: Record, turn: Turn): seq<Label>
    requires turn.Message?
  {
    if !Parses(cfg, r) then [RetryDiscard]
    else if turn.handlerError.None? then [RetryOk]
    else [RetryErr(turn.handlerError.value), RetryPublish(turn.accepted, turn.now)]
  }

  /** Give up, or wait and call the handler again. */
  function RetryAttempt(cfg: Config, r: Record, turn: Turn): seq<Label>
    requires turn.Message?
  {
    if RetryCount(r) >= cfg.maxRetry then [RetryGiveUp] else [RetryWaited] + RetryDecision(cfg, r, turn)
  }

  /** The protocol steps of one iteration of the retry loop. */
  function RetryLabels(cfg: Config, st: State, turn: Turn): seq<Label> {
    if turn.Timeout? || !HasUnread(st.retry.topic, turn.part) then []
    else
      var r := NextUnread(st.retry.topic, turn.part);
      if turn.cancelled && RetryCount(r) < cfg.maxRetry then [RetryRead(turn.part), RetryCancel]
      else [RetryRead(turn.part)] + RetryAttempt(cfg, r, turn) + [RetryCommit(turn.stored)]
  }

  function NextUnread(t: Topic, part: nat): Record
    requires HasUnread(t, part)
  {
    t[part].log[t[part].pos]
  }

  function AfterMain(cfg: Config, st: State, script: seq<Turn>): Option<State>
    decreases |script|
  {
    if script == [] then Some(st)
    else match Execute(cfg, st, MainLabels(cfg, st, script[0]))
      case None => None
      case Some(st') => AfterMain(cfg, st', script[1..])
  }

  function AfterRetry(cfg: Config, st: State, script: seq<Turn>): Option<State>
    decreases |script|
  {
    if script == [] || !st.retry.pc.Idle? then Some(st)
    else match Execute(cfg, st, RetryLabels(cfg, st, script[0]))
      case None => None
      case Some(st') => AfterRetry(cfg, st', script[1..])
  }

  lemma {:induction false} MainIsARun(cfg: Config, st: State, script: seq<Turn>, st': State) returns (ls: seq<Label>)
    requires AfterMain(cfg, st, script) == Some(st')
    ensures Runs(cfg, st, ls, st')
    decreases |script|
  {
    if script == [] {
      ls := [];
    } else {
      var first := MainLabels(cfg, st, script[0]);
      var mid := Execute(cfg, st, first).value;
      var rest := MainIsARun(cfg, mid, script[1..], st');
      ls := first + rest;
      RunsConcat(cfg, st, first, mid, rest, st');
    }
  }

  lemma {:induction false} RetryIsARun(cfg: Config, st: State, script: seq<Turn>, st': State) returns (ls: seq<Label>)
    requires AfterRetry(cfg, st, script) == Some(st')
    ensures Runs(cfg, st, ls, st')
    decreases |script|
  {
    if script == [] || !st.retry.pc.Idle? {
      ls := [];
    } else {
      var first := RetryLabels(cfg, st, script[0]);
      var mid := Execute(cfg, st, first).value;
      var rest := RetryIsARun(cfg, mid, script[1..], st');
      ls := first + rest;
      RunsConcat(cfg, st, first, mid, rest, st');
    }
  }

  // ---------------------------------------------------------------- waiting

  /** Nanoseconds one iteration of the retry loop sleeps to the end. */
  function TurnWait(cfg: Config, baseMs: int, st: State, turn: Turn): nat {
    if turn.Timeout? || !HasUnread(st.retry.topic, turn.part) then 0
    else
      var n := RetryCount(NextUnread(st.retry.topic, turn.part));
      if 0 <= n < cfg.maxRetry && !turn.cancelled then SleepNs(baseMs, n) else 0
  }

  function ScriptWait(cfg: Config, baseMs: int, st: State, script: seq<Turn>): nat
    decreases |script|
  {
    if script == [] || !st.retry.pc.Idle? then 0
    else
      var after := Execute(cfg, st, RetryLabels(cfg, st, script[0]));
      TurnWait(cfg, baseMs, st, script[0]) + (if after.Some? then ScriptWait(cfg, baseMs, after.value, script[1..]) else 0)
  }

  /** Under the bound a deployment can check, every wait in every run is the documented one: base * 2^count,
      at most 30 s, and not cut by 64-bit arithmetic on the way to a Duration. */
  lemma WaitsAsDocumented(cfg: Config, baseMs: nat, s: State, ls: seq<Label>, s': State)
    requires ValidConfig(cfg) && Init(s) && Runs(cfg, s, ls, s') && Enabled(cfg, s', RetryWaited)
    requires cfg.maxRetry > 0 && baseMs * Pow2(cfg.maxRetry - 1) < TWO_63
    ensures var n := RetryCount(InHand(s'.retry));
      0 <= n < cfg.maxRetry && DelayNs(baseMs, n) == Promised(baseMs, n) * 1_000_000
  {
    InitInv(cfg, s);
    InvAlways(cfg, s, ls, s');
    RetryBranches(cfg, s');
    BoundedConfigIsExact(baseMs, cfg.maxRetry, RetryCount(InHand(s'.retry)));
  }

  /** Under the same bound the loop sleeps at most 30 s per message read. */
  lemma {:induction false} ScriptWaitBounded(cfg: Config, baseMs: nat, st: State, script: seq<Turn>)
    requires ValidConfig(cfg) && Inv(cfg, st)
    requires cfg.maxRetry > 0 ==> baseMs * Pow2(cfg.maxRetry - 1) < TWO_63
    ensures ScriptWait(cfg, baseMs, st, script) <= CAP_NS * |script|
    decreases |script|
  {
    if script != [] && st.retry.pc.Idle? {
      TurnWaitBounded(cfg, baseMs, st, script[0]);
      var ls := RetryLabels(cfg, st, script[0]);
      if Execute(cfg, st, ls).Some? {
        InvAlways(cfg, st, ls, Execute(cfg, st, ls).value);
        ScriptWaitBounded(cfg, baseMs, Execute(cfg, st, ls).value, script[1..]);
        assert |script| == |script[1..]| + 1;
      }
    }
  }

  lemma TurnWaitBounded(cfg: Config, baseMs: nat, st: State, turn: Turn)
    requires cfg.maxRetry > 0 ==> baseMs * Pow2(cfg.maxRetry - 1) < TWO_63
    ensures TurnWait(cfg, baseMs, st, turn) <= CAP_NS
  {
    if turn.Message? && HasUnread(st.retry.topic, turn.part) {
      var n := RetryCount(NextUnread(st.retry.topic, turn.part));
      if 0 <= n < cfg.maxRetry {
        BoundedConfigIsExact(baseMs, cfg.maxRetry, n);
      }
    }
  }

  // ---------------------------------------------------------------- what one turn does

  /** A failed message is published: one more record in the buffer, or one more refusal. */
  predicate PublishedIf(failed: bool, accepted: bool, src: Slot, p: Pipe, p': Pipe) {
    && |p'.inflight| == |p.inflight| + (if failed && accepted then 1 else 0)
    && p.inflight <= p'.inflight
    && p'.rejected == p.rejected + (if failed && !accepted then multiset{src} else multiset{})
    && p'.undelivered == p.undelivered && p'.crashLost == p.crashLost
  }

  /** One turn of the main loop with a message to read: the position moves by one; a message that is an event
      is handled once; a failure is published to the dead-letter topic; whatever became of it, the offset is
      committed, if the broker stores it. */
  ghost predicate MainTurnDone(cfg: Config, st: State, turn: Turn, st': State)
    requires turn.Message? && HasUnread(st.main.topic, turn.part)
  {
    var p := st.main.topic[turn.part];
    var at, r := Slot(turn.part, p.pos), p.log[p.pos];
    var parses := cfg.parse(r.msg.value).Some?;
    var failed := parses && turn.handlerError.Some?;
    && st'.main.topic
       == st.main.topic[turn.part := Partition(p.log, p.pos + 1, if turn.stored then p.pos + 1 else p.committed)]
    && st'.main.pc.Idle?
    && st'.calls == st.calls + (if parses then [Call(r.src, turn.handlerError.None?)] else [])
    && st'.main.book.fates
       == st.main.book.fates[at := if !parses then Unparseable else if failed then Published(turn.accepted) else Handled]
    && PublishedIf(failed, turn.accepted, r.src, st.pipe, st'.pipe)
    && (failed && turn.accepted ==>
          Handover(cfg, r, turn.handlerError.value, turn.now, st'.pipe.inflight[|st.pipe.inflight|]))
    && st'.retry == st.retry && st'.crashes == st.crashes
  }

  ghost predicate MainTurn(cfg: Config, st: State, turn: Turn, st': State) {
    if turn.Message? && HasUnread(st.main.topic, turn.part) then MainTurnDone(cfg, st, turn, st') else st' == st
  }

  /** One turn of the retry loop with a message to read. Cancelled before the limit, it stops with the message
      uncommitted. Otherwise the message is given up at the limit, and handled once below it; a failure is
      published with a count one higher; and the offset is committed, if the broker stores it. */
  ghost predicate RetryTurnDone(cfg: Config, st: State, turn: Turn, st': State)
    requires turn.Message? && HasUnread(st.retry.topic, turn.part)
  {
    var p := st.retry.topic[turn.part];
    var at, r := Slot(turn.part, p.pos), p.log[p.pos];
    var gaveUp := RetryCount(r) >= cfg.maxRetry;
    var stops := turn.cancelled && !gaveUp;
    var called := !gaveUp && !stops && cfg.parse(r.msg.value).Some?;
    var failed := called && turn.handlerError.Some?;
    && st'.retry.topic == st.retry.topic[turn.part :=
         Partition(p.log, p.pos + 1, if turn.stored && !stops then p.pos + 1 else p.committed)]
    && st'.retry.pc == (if stops then Stopped(at) else Idle)
    && st'.calls == st.calls + (if called then [Call(r.src, turn.handlerError.None?)] else [])
    && st'.retry.book.fates
       == (if stops then st.retry.book.fates
           else st.retry.book.fates[at :=
             if gaveUp then GaveUp else if !called then Unparseable else if failed then Published(turn.accepted) else Handled])
    && PublishedIf(failed, turn.accepted, r.src, st.pipe, st'.pipe)
    && (failed && turn.accepted ==>
          Requeue(r, turn.handlerError.value, turn.now, st'.pipe.inflight[|st.pipe.inflight|]))
    && st'.main == st.main && st'.crashes == st.crashes
  }

  ghost predicate RetryTurn(cfg: Config, st: State, turn: Turn, st': State) {
    if turn.Message? && HasUnread(st.retry.topic, turn.part) then RetryTurnDone(cfg, st, turn, st') else st' == st
  }

  // ---------------------------------------------------------------- the running worker

  /** What the two loops share: the Kafka cluster and the producers' buffers. The ghost fields record
      where each loop stands and what it has done. */
  class Cluster {
    var events: Topic
    var dlq: Topic
    var inflight: seq<Record>
    ghost var mainPc: Pc
    ghost var retryPc: Pc
    ghost var mainBook: Book
    ghost var retryBook: Book
    ghost var rejected: multiset<Slot>
    ghost var undelivered: multiset<Slot>
    ghost var crashLost: multiset<Slot>
    ghost var calls: seq<Call>
    ghost var crashes: nat

    ghost function View(): State
      reads this
    {
      State(Side(events, mainPc, mainBook), Side(dlq, retryPc, retryBook),
        Pipe(inflight, rejected, undelivered, crashLost), calls, crashes)
    }

    /** An empty cluster with the given numbers of partitions. */
    constructor (eventParts: nat, dlqParts: nat)
      ensures Init(View()) && |events| == eventParts && |dlq| == dlqParts
    {
      events := seq(eventParts, _ => Partition([], 0, 0));
      dlq := seq(dlqParts, _ => Partition([], 0, 0));
      inflight := [];
      mainPc, retryPc, mainBook, retryBook := Idle, Idle, BLANK, BLANK;
      rejected, undelivered, crashLost, calls, crashes := multiset{}, multiset{}, multiset{}, [], 0;
    }

    /** publishRaw: queue the message, or report that the client refused it. */
    method Produce(r: Record, accepted: bool) returns (ok: bool)
      modifies this`inflight, this`rejected
      ensures ok == accepted
      ensures inflight == if accepted then old(inflight) + [r] else old(inflight)
      ensures rejected == if accepted then old(rejected) else old(rejected) + multiset{r.src}
    {
      if accepted {
        inflight := inflight + [r];
      } else {
        rejected := rejected + multiset{r.src};
      }
      ok := accepted;
    }
  }

  // ---------------------------------------------------------------- Consumer

  lemma HandoverStep(cfg: Config, s: State, accepted: bool, now: string, s': State)
    requires s.main.pc.Failed? && Holding(s.main)
    requires s' == s.(
      main := Apply(s.main, Dispose(Published(accepted))),
      pipe := Delivery.Produce(s.pipe, ToDlq(cfg, InHand(s.main), s.main.pc.error, now), accepted))
    ensures Step(cfg, s, MainPublish(accepted, now)) == Some(s')
  {
  }

  class Consumer {
    const cluster: Cluster
    const cfg: Config

    constructor (cluster: Cluster, cfg: Config)
      ensures this.cluster == cluster && this.cfg == cfg
    {
      this.cluster, this.cfg := cluster, cfg;
    }

    method ReadMessage(part: nat) returns (at: Slot, r: Record)
      requires cluster.mainPc.Idle? && HasUnread(cluster.events, part)
      modifies cluster`events, cluster`mainPc
      ensures Step(cfg, old(cluster.View()), MainRead(part)) == Some(cluster.View())
      ensures cluster.mainPc == Pc.Read(at) && Holding(cluster.View().main) && InHand(cluster.View().main) == r
      ensures r == old(NextUnread(cluster.events, part))
      ensures at == Slot(part, old(cluster.events[part].pos))
      ensures cluster.events == old(cluster.events)[part := old(cluster.events[part]).(pos := at.offset + 1)]
    {
      var p := cluster.events[part];
      at, r := Slot(part, p.pos), p.log[p.pos];
      cluster.events := cluster.events[part := p.(pos := p.pos + 1)];
      cluster.mainPc := Pc.Read(at);
    }

    method ToDlq(at: Slot, r: Record, error: string, accepted: bool, now: string) returns (ok: bool)
      requires cluster.mainPc == Failed(at, error) && Holding(cluster.View().main) && InHand(cluster.View().main) == r
      modifies cluster`inflight, cluster`rejected, cluster`mainPc, cluster`mainBook
      ensures ok == accepted
      ensures Step(cfg, old(cluster.View()), MainPublish(accepted, now)) == Some(cluster.View())
      ensures cluster.mainPc == Disposed(at)
      ensures cluster.mainBook.fates == old(cluster.mainBook.fates)[at := Published(accepted)]
      ensures PublishedIf(true, accepted, r.src, old(cluster.View().pipe), cluster.View().pipe)
      ensures accepted ==> Handover(cfg, r, error, now, cluster.inflight[|old(cluster.inflight)|])
    {
      ghost var s0 := cluster.View();
      HandoverIs(cfg, r, error, now);
      var headers := [
        Header("retry-count", "0"),
        Header("error", error),
        Header("original-topic", cfg.eventsTopic),
        Header("failed-at", now)];
      cluster.mainBook := Entered(cluster.mainBook, at, r.src, Published(accepted));
      cluster.mainPc := Disposed(at);
      ok := cluster.Produce(r.(msg := r.msg.(headers := headers)), accepted);
      HandoverStep(cfg, s0, accepted, now, cluster.View());
    }

    method Commit(at: Slot, stored: bool)
      requires cluster.mainPc == Disposed(at) && Holding(cluster.View().main)
      modifies cluster`events, cluster`mainPc
      ensures Step(cfg, old(cluster.View()), MainCommit(stored)) == Some(cluster.View())
      ensures cluster.mainPc.Idle?
      ensures cluster.events == if stored then old(cluster.events)[at.part :=
        old(cluster.events[at.part]).(committed := at.offset + 1)] else old(cluster.events)
    {
      if stored {
        var p := cluster.events[at.part];
        cluster.events := cluster.events[at.part := p.(committed := at.offset + 1)];
      }
      cluster.mainPc := Idle;
    }

    method Skip(at: Slot, r: Record)
      requires cluster.mainPc == Pc.Read(at) && Holding(cluster.View().main) && InHand(cluster.View().main) == r
      requires !Parses(cfg, r)
      modifies cluster`mainPc, cluster`mainBook
      ensures Step(cfg, old(cluster.View()), MainSkip) == Some(cluster.View())
      ensures cluster.mainPc == Disposed(at)
      ensures cluster.mainBook.fates == old(cluster.mainBook.fates)[at := Unparseable]
    {
      cluster.mainBook := Entered(cluster.mainBook, at, r.src, Unparseable);
      cluster.mainPc := Disposed(at);
    }

    /** The handler returned. */
    method Returned(at: Slot, r: Record, error: Option<string>)
      requires cluster.mainPc == Pc.Read(at) && Holding(cluster.View().main) && InHand(cluster.View().main) == r
      requires Parses(cfg, r)
      modifies cluster`mainPc, cluster`mainBook, cluster`calls
      ensures Step(cfg, old(cluster.View()), if error.Some? then MainErr(error.value) else MainOk) == Some(cluster.View())
      ensures cluster.mainPc == if error.Some? then Failed(at, error.value) else Disposed(at)
      ensures cluster.calls == old(cluster.calls) + [Call(r.src, error.None?)]
      ensures cluster.mainBook.fates
        == if error.Some? then old(cluster.mainBook.fates) else old(cluster.mainBook.fates)[at := Handled]
    {
      cluster.calls := cluster.calls + [Call(r.src, error.None?)];
      if error.Some? {
        cluster.mainPc := Failed(at, error.value);
      } else {
        cluster.mainBook := Entered(cluster.mainBook, at, r.src, Handled);
        cluster.mainPc := Disposed(at);
      }
    }

    method Decide(at: Slot, r: Record, turn: Turn)
      requires turn.Message?
      requires cluster.mainPc == Pc.Read(at) && Holding(cluster.View().main) && InHand(cluster.View().main) == r
      modifies cluster`inflight, cluster`rejected, cluster`mainPc, cluster`mainBook, cluster`calls
      ensures Runs(cfg, old(cluster.View()), MainDecision(cfg, r, turn), cluster.View())
      ensures cluster.mainPc == Disposed(at)
      ensures var parses := cfg.parse(r.msg.value).Some?;
        var failed := parses && turn.handlerError.Some?;
        && cluster.calls == old(cluster.calls) + (if parses then [Call(r.src, turn.handlerError.None?)] else [])
        && cluster.mainBook.fates == old(cluster.mainBook.fates)[at :=
             if !parses then Unparseable else if failed then Published(turn.accepted) else Handled]
        && PublishedIf(failed, turn.accepted, r.src, old(cluster.View().pipe), cluster.View().pipe)
        && (failed && turn.accepted ==>
              Handover(cfg, r, turn.handlerError.value, turn.now, cluster.inflight[|old(cluster.inflight)|]))
    {
      ghost var s0 := cluster.View();
      if cfg.parse(r.msg.value).None? {
        Skip(at, r);
        OneStep(cfg, s0, MainSkip, cluster.View());
      } else if turn.handlerError.None? {
        Returned(at, r, None);
        OneStep(cfg, s0, MainOk, cluster.View());
      } else {
        var error := turn.handlerError.value;
        Returned(at, r, Some(error));
        ghost var s1 := cluster.View();
        var _ := ToDlq(at, r, error, turn.accepted, turn.now);
        TwoSteps(cfg, s0, MainErr(error), s1, MainPublish(turn.accepted, turn.now), cluster.View());
      }
    }

    /** One pass of the loop after a message arrived. */
    method Handle(turn: Turn)
      requires turn.Message? && cluster.mainPc.Idle? && HasUnread(cluster.events, turn.part)
      modifies cluster
      ensures Runs(cfg, old(cluster.View()), MainLabels(cfg, old(cluster.View()), turn), cluster.View())
      ensures MainTurnDone(cfg, old(cluster.View()), turn, cluster.View())
    {
      ghost var s0 := cluster.View();
      var at, r := ReadMessage(turn.part);
      ghost var s1 := cluster.View();
      Decide(at, r, turn);
      ghost var s2 := cluster.View();
      Commit(at, turn.stored);
      Enclosed(cfg, s0, MainRead(turn.part), s1, MainDecision(cfg, r, turn), s2, MainCommit(turn.stored), cluster.View());
    }

    /** `ss` lists the states between the turns. */
    method Run(script: seq<Turn>) returns (ghost ss: seq<State>)
      requires cluster.mainPc.Idle?
      modifies cluster
      ensures AfterMain(cfg, old(cluster.View()), script) == Some(cluster.View())
      ensures cluster.mainPc.Idle?
      ensures |ss| == |script| + 1 && ss[0] == old(cluster.View()) && ss[|script|] == cluster.View()
      ensures forall i :: 0 <= i < |script| ==> MainTurn(cfg, ss[i], script[i], ss[i + 1])
    {
      ss := [cluster.View()];
      for i := 0 to |script|
        invariant cluster.mainPc.Idle?
        invariant AfterMain(cfg, old(cluster.View()), script) == AfterMain(cfg, cluster.View(), script[i..])
        invariant |ss| == i + 1 && ss[0] == old(cluster.View()) && ss[i] == cluster.View()
        invariant forall k :: 0 <= k < i ==> MainTurn(cfg, ss[k], script[k], ss[k + 1])
      {
        assert script[i..][1..] == script[i + 1..];
        if script[i].Timeout? || !HasUnread(cluster.events, script[i].part) {
          assert MainLabels(cfg, cluster.View(), script[i]) == [];
          ss := ss + [cluster.View()];
          continue;
        }
        Handle(script[i]);
        ss := ss + [cluster.View()];
      }
    }
  }

  // ---------------------------------------------------------------- DLQWorker

  lemma RequeueStep(cfg: Config, s: State, accepted: bool, now: string, s': State)
    requires s.retry.pc.Failed? && Holding(s.retry)
    requires s' == s.(
      retry := Apply(s.retry, Dispose(Published(accepted))),
      pipe := Produce(s.pipe, Requeued(InHand(s.retry), s.retry.pc.error, now), accepted))
    ensures Step(cfg, s, RetryPublish(accepted, now)) == Some(s')
  {
  }

  lemma ReturnStep(cfg: Config, s: State, error: Option<string>, s': State)
    requires s.retry.pc.Ready? && Holding(s.retry) && Parses(cfg, InHand(s.retry))
    requires s' == s.(
      retry := Apply(s.retry, if error.Some? then Fail(error.value) else Dispose(Handled)),
      calls := s.calls + [Call(InHand(s.retry).src, error.None?)])
    ensures Step(cfg, s, if error.Some? then RetryErr(error.value) else RetryOk) == Some(s')
  {
  }

  lemma CountNotNegative(cfg: Config, st: State, part: nat)
    requires Inv(cfg, st) && HasUnread(st.retry.topic, part)
    ensures RetryCount(NextUnread(st.retry.topic, part)) >= 0
  {
    assert Provenance(cfg, st.main.topic, NextUnread(st.retry.topic, part));
  }

  /** A cancelled turn, put together from its field-wise effects. */
  lemma StoppedTurn(cfg: Config, st: State, turn: Turn, at: Slot, st': State)
    requires turn.Message? && HasUnread(st.retry.topic, turn.part) && turn.cancelled
    requires RetryCount(NextUnread(st.retry.topic, turn.part)) < cfg.maxRetry
    requires at == Slot(turn.part, st.retry.topic[turn.part].pos)
    requires st' == st.(retry := st.retry.(topic := Advanced(st.retry.topic, turn.part), pc := Stopped(at)))
    ensures RetryTurnDone(cfg, st, turn, st')
  {
  }

  /** What a turn that is not cancelled did with the message. */
  ghost predicate Attempted(cfg: Config, at: Slot, r: Record, turn: Turn, st: State, st': State)
    requires turn.Message?
  {
    var called := RetryCount(r) < cfg.maxRetry && cfg.parse(r.msg.value).Some?;
    var failed := called && turn.handlerError.Some?;
    && st'.calls == st.calls + (if called then [Call(r.src, turn.handlerError.None?)] else [])
    && st'.retry.book.fates == st.retry.book.fates[at :=
         if RetryCount(r) >= cfg.maxRetry then GaveUp
         else if !called then Unparseable else if failed then Published(turn.accepted) else Handled]
    && PublishedIf(failed, turn.accepted, r.src, st.pipe, st'.pipe)
    && (failed && turn.accepted ==> Requeue(r, turn.handlerError.value, turn.now, st'.pipe.inflight[|st.pipe.inflight|]))
    && st'.main == st.main && st'.crashes == st.crashes
  }

  /** Committing does not touch that. */
  lemma AttemptedStays(cfg: Config, at: Slot, r: Record, turn: Turn, st: State, st': State, topic: Topic)
    requires turn.Message? && Attempted(cfg, at, r, turn, st, st')
    ensures Attempted(cfg, at, r, turn, st, st'.(retry := st'.retry.(topic := topic, pc := Idle)))
  {
  }

  lemma FinishedTurn(cfg: Config, st: State, turn: Turn, at: Slot, st': State)
    requires turn.Message? && HasUnread(st.retry.topic, turn.part)
    requires var r := NextUnread(st.retry.topic, turn.part);
      (turn.cancelled ==> RetryCount(r) >= cfg.maxRetry) && Attempted(cfg, at, r, turn, st, st')
    requires at == Slot(turn.part, st.retry.topic[turn.part].pos)
    requires st'.retry.pc.Idle?
    requires var read := Advanced(st.retry.topic, turn.part);
      st'.retry.topic == if turn.stored then CommittedPast(read, at) else read
    ensures RetryTurnDone(cfg, st, turn, st')
  {
  }

  /** One turn of a script, and the rest. */
  lemma OneTurn(cfg: Config, baseMs: int, st: State, script: seq<Turn>, st': State)
    requires script != [] && st.retry.pc.Idle? && Runs(cfg, st, RetryLabels(cfg, st, script[0]), st')
    ensures AfterRetry(cfg, st, script) == AfterRetry(cfg, st', script[1..])
    ensures ScriptWait(cfg, baseMs, st, script)
      == TurnWait(cfg, baseMs, st, script[0]) + ScriptWait(cfg, baseMs, st', script[1..])
    ensures st'.retry.pc.Stopped? ==>
      AfterRetry(cfg, st', script[1..]) == Some(st') && ScriptWait(cfg, baseMs, st', script[1..]) == 0
  {
  }

  lemma Prepended(cfg: Config, s0: State, l0: Label, s1: State, ls: seq<Label>, ls': seq<Label>, s2: State)
    requires Step(cfg, s0, l0) == Some(s1) && Runs(cfg, s1, ls + ls', s2)
    ensures Runs(cfg, s0, [l0] + ls + ls', s2)
  {
    OneStep(cfg, s0, l0, s1);
    RunsConcat(cfg, s0, [l0], s1, ls + ls', s2);
    assert [l0] + (ls + ls') == [l0] + ls + ls';
  }

  /** `ss` are the states between the first turns of a script ... */
  ghost predicate RetryTurns(cfg: Config, ss: seq<State>, script: seq<Turn>)
    decreases |ss|
  {
    && 0 < |ss| <= |script| + 1
    && (|ss| > 1 ==>
          RetryTurns(cfg, ss[..|ss| - 1], script)
          && RetryTurn(cfg, ss[|ss| - 2], script[|ss| - 2], ss[|ss| - 1]))
  }

  lemma OneMoreTurn(cfg: Config, ss: seq<State>, script: seq<Turn>, st': State)
    requires RetryTurns(cfg, ss, script) && |ss| <= |script|
    requires RetryTurn(cfg, ss[|ss| - 1], script[|ss| - 1], st')
    ensures RetryTurns(cfg, ss + [st'], script)
  {
    assert (ss + [st'])[..|ss|] == ss;
  }

  /** ... one after the other, each as its turn of the script says. */
  lemma {:induction false} EveryTurn(cfg: Config, ss: seq<State>, script: seq<Turn>)
    requires RetryTurns(cfg, ss, script)
    ensures forall i :: 0 <= i < |ss| - 1 ==> RetryTurn(cfg, ss[i], script[i], ss[i + 1])
    decreases |ss|
  {
    if |ss| > 1 {
      var front := ss[..|ss| - 1];
      EveryTurn(cfg, front, script);
      forall i | 0 <= i < |ss| - 1 ensures RetryTurn(cfg, ss[i], script[i], ss[i + 1]) {
        if i < |ss| - 2 {
          assert front[i] == ss[i] && front[i + 1] == ss[i + 1];
          assert RetryTurn(cfg, front[i], script[i], front[i + 1]);
        }
      }
    }
  }

  class DLQWorker {
    const cluster: Cluster
    const cfg: Config
    const baseMs: int
    var waitedNs: nat   // time slept so far

    constructor (cluster: Cluster, cfg: Config, baseMs: int)
      ensures this.cluster == cluster && this.cfg == cfg && this.baseMs == baseMs && waitedNs == 0
    {
      this.cluster, this.cfg, this.baseMs, this.waitedNs := cluster, cfg, baseMs, 0;
    }

    method ReadMessage(part: nat) returns (at: Slot, r: Record)
      requires cluster.retryPc.Idle? && HasUnread(cluster.dlq, part)
      modifies cluster`dlq, cluster`retryPc
      ensures Step(cfg, old(cluster.View()), RetryRead(part)) == Some(cluster.View())
      ensures cluster.retryPc == Pc.Read(at) && Holding(cluster.View().retry) && InHand(cluster.View().retry) == r
      ensures r == old(NextUnread(cluster.dlq, part))
      ensures at == Slot(part, old(cluster.dlq[part].pos))
      ensures cluster.dlq == old(cluster.dlq)[part := old(cluster.dlq[part]).(pos := at.offset + 1)]
    {
      var p := cluster.dlq[part];
      at, r := Slot(part, p.pos), p.log[p.pos];
      cluster.dlq := cluster.dlq[part := p.(pos := p.pos + 1)];
      cluster.retryPc := Pc.Read(at);
    }

    /** publishRaw of a failed message. */
    method Republish(at: Slot, r: Record, q: Record, accepted: bool)
      requires cluster.retryPc.Failed? && cluster.retryPc.at == at && q.src == r.src
      requires Holding(cluster.View().retry) && InHand(cluster.View().retry) == r
      modifies cluster`inflight, cluster`rejected, cluster`retryPc, cluster`retryBook
      ensures cluster.View() == old(cluster.View()).(
        retry := Apply(old(cluster.View()).retry, Dispose(Published(accepted))),
        pipe := Delivery.Produce(old(cluster.View()).pipe, q, accepted))
    {
      cluster.retryBook := Entered(cluster.retryBook, at, r.src, Published(accepted));
      cluster.retryPc := Disposed(at);
      var _ := cluster.Produce(q, accepted);
    }

    method Requeue(at: Slot, r: Record, retryCount: int, error: string, accepted: bool, now: string)
      requires cluster.retryPc == Failed(at, error) && Holding(cluster.View().retry) && InHand(cluster.View().retry) == r
      requires ValidConfig(cfg) && retryCount == RetryCount(r) < cfg.maxRetry
      modifies cluster`inflight, cluster`rejected, cluster`retryPc, cluster`retryBook
      ensures Step(cfg, old(cluster.View()), RetryPublish(accepted, now)) == Some(cluster.View())
      ensures cluster.retryPc == Disposed(at)
      ensures cluster.retryBook.fates == old(cluster.retryBook.fates)[at := Published(accepted)]
      ensures PublishedIf(true, accepted, r.src, old(cluster.View().pipe), cluster.View().pipe)
      ensures accepted ==> DeliverySafety.Requeue(r, error, now, cluster.inflight[|old(cluster.inflight)|])
    {
      ghost var s0 := cluster.View();
      var headers := RebuildHeaders(r.msg.headers, retryCount + 1, error, now);
      var q := r.(msg := r.msg.(headers := headers));
      assert q == Requeued(r, error, now);
      Republish(at, r, q, accepted);
      RequeueStep(cfg, s0, accepted, now, cluster.View());
      assert DeliverySafety.Requeue(r, error, now, q) by {
        RequeueIs(cfg, r, error, now);
      }
    }

    method Commit(at: Slot, stored: bool)
      requires cluster.retryPc == Disposed(at) && Holding(cluster.View().retry)
      modifies cluster`dlq, cluster`retryPc
      ensures Step(cfg, old(cluster.View()), RetryCommit(stored)) == Some(cluster.View())
      ensures cluster.retryPc.Idle?
      ensures cluster.dlq == if stored then old(cluster.dlq)[at.part :=
        old(cluster.dlq[at.part]).(committed := at.offset + 1)] else old(cluster.dlq)
    {
      if stored {
        var p := cluster.dlq[at.part];
        cluster.dlq := cluster.dlq[at.part := p.(committed := at.offset + 1)];
      }
      cluster.retryPc := Idle;
    }

    method GiveUp(at: Slot, r: Record)
      requires cluster.retryPc == Pc.Read(at) && Holding(cluster.View().retry) && InHand(cluster.View().retry) == r
      requires RetryCount(r) >= cfg.maxRetry
      modifies cluster`retryPc, cluster`retryBook
      ensures Step(cfg, old(cluster.View()), RetryGiveUp) == Some(cluster.View())
      ensures cluster.retryPc == Disposed(at)
      ensures cluster.retryBook.fates == old(cluster.retryBook.fates)[at := GaveUp]
    {
      cluster.retryBook := Entered(cluster.retryBook, at, r.src, GaveUp);
      cluster.retryPc := Disposed(at);
    }

    /** time.After against ctx.Done. */
    method Sleep(at: Slot, r: Record, delayNs: int, cancelled: bool)
      requires cluster.retryPc == Pc.Read(at) && Holding(cluster.View().retry) && InHand(cluster.View().retry) == r
      requires RetryCount(r) < cfg.maxRetry
      modifies this`waitedNs, cluster`retryPc
      ensures Step(cfg, old(cluster.View()), if cancelled then RetryCancel else RetryWaited) == Some(cluster.View())
      ensures cluster.retryPc == if cancelled then Stopped(at) else Ready(at)
      ensures waitedNs == old(waitedNs) + if cancelled || delayNs < 0 then 0 else delayNs
    {
      if cancelled {
        cluster.retryPc := Stopped(at);
      } else {
        waitedNs := waitedNs + if delayNs < 0 then 0 else delayNs;
        cluster.retryPc := Ready(at);
      }
    }

    method Discard(at: Slot, r: Record)
      requires cluster.retryPc == Ready(at) && Holding(cluster.View().retry) && InHand(cluster.View().retry) == r
      requires !Parses(cfg, r)
      modifies cluster`retryPc, cluster`retryBook
      ensures Step(cfg, old(cluster.View()), RetryDiscard) == Some(cluster.View())
      ensures cluster.retryPc == Disposed(at)
      ensures cluster.retryBook.fates == old(cluster.retryBook.fates)[at := Unparseable]
    {
      cluster.retryBook := Entered(cluster.retryBook, at, r.src, Unparseable);
      cluster.retryPc := Disposed(at);
    }

    /** The handler returned. */
    method Returned(at: Slot, r: Record, error: Option<string>)
      requires cluster.retryPc == Ready(at) && Holding(cluster.View().retry) && InHand(cluster.View().retry) == r
      requires Parses(cfg, r)
      modifies cluster`retryPc, cluster`retryBook, cluster`calls
      ensures Step(cfg, old(cluster.View()), if error.Some? then RetryErr(error.value) else RetryOk) == Some(cluster.View())
      ensures cluster.retryPc == if error.Some? then Failed(at, error.value) else Disposed(at)
      ensures cluster.calls == old(cluster.calls) + [Call(r.src, error.None?)]
      ensures cluster.retryBook.fates
        == if error.Some? then old(cluster.retryBook.fates) else old(cluster.retryBook.fates)[at := Handled]
    {
      ghost var s0 := cluster.View();
      cluster.calls := cluster.calls + [Call(r.src, error.None?)];
      if error.Some? {
        cluster.retryPc := Failed(at, error.value);
      } else {
        cluster.retryBook := Entered(cluster.retryBook, at, r.src, Handled);
        cluster.retryPc := Disposed(at);
      }
      ReturnStep(cfg, s0, error, cluster.View());
    }

    method Decide(at: Slot, r: Record, retryCount: int, turn: Turn)
      requires turn.Message? && ValidConfig(cfg) && retryCount == RetryCount(r) < cfg.maxRetry
      requires cluster.retryPc == Ready(at) && Holding(cluster.View().retry) && InHand(cluster.View().retry) == r
      modifies cluster`inflight, cluster`rejected, cluster`retryPc, cluster`retryBook, cluster`calls
      ensures Runs(cfg, old(cluster.View()), RetryDecision(cfg, r, turn), cluster.View())
      ensures cluster.retryPc == Disposed(at)
      ensures var called := cfg.parse(r.msg.value).Some?;
        var failed := called && turn.handlerError.Some?;
        && cluster.calls == old(cluster.calls) + (if called then [Call(r.src, turn.handlerError.None?)] else [])
        && cluster.retryBook.fates == old(cluster.retryBook.fates)[at :=
             if !called then Unparseable else if failed then Published(turn.accepted) else Handled]
        && PublishedIf(failed, turn.accepted, r.src, old(cluster.View().pipe), cluster.View().pipe)
        && (failed && turn.accepted ==>
              DeliverySafety.Requeue(r, turn.handlerError.value, turn.now, cluster.inflight[|old(cluster.inflight)|]))
    {
      ghost var s0 := cluster.View();
      if cfg.parse(r.msg.value).None? {
        Discard(at, r);
        OneStep(cfg, s0, RetryDiscard, cluster.View());
      } else if turn.handlerError.None? {
        Returned(at, r, None);
        OneStep(cfg, s0, RetryOk, cluster.View());
      } else {
        var error := turn.handlerError.value;
        Returned(at, r, Some(error));
        ghost var s1 := cluster.View();
        Requeue(at, r, retryCount, error, turn.accepted, turn.now);
        TwoSteps(cfg, s0, RetryErr(error), s1, RetryPublish(turn.accepted, turn.now), cluster.View());
      }
    }

    /** Backoff, then the handler again; or the permanent-failure callback. The shift in the backoff
        needs a count that is not negative. */
    method Attempt(at: Slot, r: Record, retryCount: int, turn: Turn)
      requires turn.Message? && ValidConfig(cfg) && 0 <= retryCount == RetryCount(r)
      requires retryCount < cfg.maxRetry ==> !turn.cancelled
      requires cluster.retryPc == Pc.Read(at) && Holding(cluster.View().retry) && InHand(cluster.View().retry) == r
      modifies this`waitedNs
      modifies cluster`inflight, cluster`rejected, cluster`retryPc, cluster`retryBook, cluster`calls
      ensures Runs(cfg, old(cluster.View()), RetryAttempt(cfg, r, turn), cluster.View())
      ensures cluster.retryPc == Disposed(at)
      ensures Attempted(cfg, at, r, turn, old(cluster.View()), cluster.View())
      ensures waitedNs == old(waitedNs) + if retryCount < cfg.maxRetry then SleepNs(baseMs, retryCount) else 0
    {
      ghost var s0 := cluster.View();
      if retryCount >= cfg.maxRetry {
        GiveUp(at, r);
        OneStep(cfg, s0, RetryGiveUp, cluster.View());
      } else {
        Sleep(at, r, DelayNs(baseMs, retryCount), false);
        ghost var s1 := cluster.View();
        OneStep(cfg, s0, RetryWaited, s1);
        Decide(at, r, retryCount, turn);
        RunsConcat(cfg, s0, [RetryWaited], s1, RetryDecision(cfg, r, turn), cluster.View());
      }
    }

    /** The context is cancelled while the loop sleeps: Run returns with the message uncommitted. */
    method Interrupted(at: Slot, r: Record, retryCount: int, turn: Turn, ghost s0: State)
      requires turn.Message? && turn.cancelled && 0 <= retryCount == RetryCount(r) < cfg.maxRetry
      requires cluster.retryPc == Pc.Read(at) && Holding(cluster.View().retry) && InHand(cluster.View().retry) == r
      requires Step(cfg, s0, RetryRead(turn.part)) == Some(cluster.View())
      modifies this`waitedNs, cluster`retryPc
      ensures Runs(cfg, s0, [RetryRead(turn.part), RetryCancel], cluster.View())
      ensures cluster.retryPc == Stopped(at) && waitedNs == old(waitedNs)
    {
      ghost var s1 := cluster.View();
      Sleep(at, r, DelayNs(baseMs, retryCount), true);
      TwoSteps(cfg, s0, RetryRead(turn.part), s1, RetryCancel, cluster.View());
    }

    /** Handle the message in hand and commit it. */
    method Finish(at: Slot, r: Record, retryCount: int, turn: Turn)
      requires turn.Message? && ValidConfig(cfg) && 0 <= retryCount == RetryCount(r)
      requires retryCount < cfg.maxRetry ==> !turn.cancelled
      requires cluster.retryPc == Pc.Read(at) && Holding(cluster.View().retry) && InHand(cluster.View().retry) == r
      modifies this`waitedNs, cluster
      ensures Runs(cfg, old(cluster.View()), RetryAttempt(cfg, r, turn) + [RetryCommit(turn.stored)], cluster.View())
      ensures Attempted(cfg, at, r, turn, old(cluster.View()), cluster.View()) && cluster.retryPc.Idle?
      ensures cluster.dlq == if turn.stored then CommittedPast(old(cluster.dlq), at) else old(cluster.dlq)
      ensures waitedNs == old(waitedNs) + if retryCount < cfg.maxRetry then SleepNs(baseMs, retryCount) else 0
    {
      ghost var s1 := cluster.View();
      Attempt(at, r, retryCount, turn);
      ghost var s2 := cluster.View();
      Commit(at, turn.stored);
      AttemptedStays(cfg, at, r, turn, s1, s2, cluster.dlq);
      OneStep(cfg, s2, RetryCommit(turn.stored), cluster.View());
      RunsConcat(cfg, s1, RetryAttempt(cfg, r, turn), s2, [RetryCommit(turn.stored)], cluster.View());
    }

    /** One pass of the loop after a message arrived. */
    method Handle(turn: Turn) returns (stopped: bool)
      requires turn.Message? && ValidConfig(cfg) && cluster.retryPc.Idle? && HasUnread(cluster.dlq, turn.part)
      requires RetryCount(NextUnread(cluster.dlq, turn.part)) >= 0
      modifies this`waitedNs, cluster
      ensures Runs(cfg, old(cluster.View()), RetryLabels(cfg, old(cluster.View()), turn), cluster.View())
      ensures stopped == cluster.retryPc.Stopped? && (!stopped ==> cluster.retryPc.Idle?)
      ensures RetryTurnDone(cfg, old(cluster.View()), turn, cluster.View())
      ensures waitedNs == old(waitedNs) + TurnWait(cfg, baseMs, old(cluster.View()), turn)
    {
      ghost var s0 := cluster.View();
      var at, r := ReadMessage(turn.part);
      ghost var s1 := cluster.View();
      var retryCount := ReadHeaderInt(r.msg.headers, "retry-count");
      stopped := turn.cancelled && retryCount < cfg.maxRetry;
      if stopped {
        Interrupted(at, r, retryCount, turn, s0);
        StoppedTurn(cfg, s0, turn, at, cluster.View());
      } else {
        Finish(at, r, retryCount, turn);
        FinishedTurn(cfg, s0, turn, at, cluster.View());
        Prepended(cfg, s0, RetryRead(turn.part), s1, RetryAttempt(cfg, r, turn), [RetryCommit(turn.stored)], cluster.View());
      }
    }

    /** One iteration of the loop. */
    method Iterate(turn: Turn) returns (stopped: bool)
      requires ValidConfig(cfg) && Inv(cfg, cluster.View()) && cluster.retryPc.Idle?
      modifies this`waitedNs, cluster
      ensures Runs(cfg, old(cluster.View()), RetryLabels(cfg, old(cluster.View()), turn), cluster.View())
      ensures RetryTurn(cfg, old(cluster.View()), turn, cluster.View()) && Inv(cfg, cluster.View())
      ensures stopped == cluster.retryPc.Stopped? && (!stopped ==> cluster.retryPc.Idle?)
      ensures waitedNs == old(waitedNs) + TurnWait(cfg, baseMs, old(cluster.View()), turn)
    {
      if turn.Timeout? || !HasUnread(cluster.dlq, turn.part) {
        return false;
      }
      ghost var before := cluster.View();
      CountNotNegative(cfg, before, turn.part);
      stopped := Handle(turn);
      InvAlways(cfg, before, RetryLabels(cfg, before, turn), cluster.View());
    }

    /** `ss` lists the states between the turns; the loop ends early only when it is cancelled in a wait. */
    method Run(script: seq<Turn>) returns (ghost ss: seq<State>)
      requires ValidConfig(cfg) && Inv(cfg, cluster.View()) && cluster.retryPc.Idle?
      modifies this`waitedNs, cluster
      ensures AfterRetry(cfg, old(cluster.View()), script) == Some(cluster.View())
      ensures waitedNs == old(waitedNs) + ScriptWait(cfg, baseMs, old(cluster.View()), script)
      ensures Inv(cfg, cluster.View())
      ensures 0 < |ss| <= |script| + 1 && ss[0] == old(cluster.View()) && ss[|ss| - 1] == cluster.View()
      ensures RetryTurns(cfg, ss, script)
      ensures |ss| <= |script| ==> cluster.retryPc.Stopped?
    {
      ss := [cluster.View()];
      for i := 0 to |script|
        invariant cluster.retryPc.Idle? && Inv(cfg, cluster.View())
        invariant AfterRetry(cfg, old(cluster.View()), script) == AfterRetry(cfg, cluster.View(), script[i..])
        invariant old(waitedNs) + ScriptWait(cfg, baseMs, old(cluster.View()), script)
          == waitedNs + ScriptWait(cfg, baseMs, cluster.View(), script[i..])
        invariant |ss| == i + 1 && ss[0] == old(cluster.View()) && ss[i] == cluster.View()
        invariant RetryTurns(cfg, ss, script)
      {
        assert script[i..][0] == script[i] && script[i..][1..] == script[i + 1..];
        ghost var before := cluster.View();
        var stopped := Iterate(script[i]);
        OneTurn(cfg, baseMs, before, script[i..], cluster.View());
        OneMoreTurn(cfg, ss, script, cluster.View());
        ss := ss + [cluster.View()];
        if stopped {
          break;
        }
      }
    }
  }
}
