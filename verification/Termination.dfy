/** Without crashes, N events drain in at most N * (budget + 2) message reads, whatever the handler,
    the producers and the commits do. */
module Termination {
  import opened Wrappers
  import opened Headers
  import opened Kafka
  import opened Delivery
  import opened DeliverySafety

  /** Reads a dead-letter message can still cause, its own included. */
  function Togo(cfg: Config, r: Record): int {
    Budget(cfg) + 1 - RetryCount(r)
  }

  function LogTogo(cfg: Config, rs: seq<Record>): int {
    if rs == [] then 0 else Togo(cfg, rs[0]) + LogTogo(cfg, rs[1..])
  }

  function TopicTogo(cfg: Config, t: Topic): int {
    if t == [] then 0 else LogTogo(cfg, Slice(t[0], Unread)) + TopicTogo(cfg, t[1..])
  }

  function UnreadTotal(t: Topic): nat {
    if t == [] then 0 else |Slice(t[0], Unread)| + UnreadTotal(t[1..])
  }

  /** Reads the message in hand can still cause. */
  function MainHandTogo(cfg: Config, sd: Side): int {
    if sd.pc.Idle? || sd.pc.Disposed? then 0 else Budget(cfg) + 1
  }

  function RetryHandTogo(cfg: Config, sd: Side): int {
    if !Holding(sd) || sd.pc.Disposed? then 0 else Togo(cfg, InHand(sd)) - 1
  }

  /** The reads n unread events may cause. */
  function Allowance(cfg: Config, n: nat): int {
    if n == 0 then 0 else Budget(cfg) + 2 + Allowance(cfg, n - 1)
  }

  lemma {:induction false} AllowanceIs(cfg: Config, n: nat)
    ensures Allowance(cfg, n) == (Budget(cfg) + 2) * n
  {
    if n > 0 {
      AllowanceIs(cfg, n - 1);
      Distribute(Budget(cfg) + 2, n, n - 1);
    }
  }

  lemma Distribute(k: int, a: int, b: int)
    requires a == b + 1
    ensures k * a == k * b + k
  {
  }

  lemma {:induction false} AllowanceNonNegative(cfg: Config, n: nat)
    ensures Allowance(cfg, n) >= 0
  {
    if n > 0 {
      AllowanceNonNegative(cfg, n - 1);
    }
  }

  /** The work left: each unread event may be read once and then once per attempt of its chain. */
  function Work(cfg: Config, st: State): int {
    Allowance(cfg, UnreadTotal(st.main.topic)) + MainHandTogo(cfg, st.main)
    + LogTogo(cfg, st.pipe.inflight) + TopicTogo(cfg, st.retry.topic) + RetryHandTogo(cfg, st.retry)
  }

  // ---------------------------------------------------------------- sums

  lemma {:induction false} LogTogoConcat(cfg: Config, a: seq<Record>, b: seq<Record>)
    ensures LogTogo(cfg, a + b) == LogTogo(cfg, a) + LogTogo(cfg, b)
  {
    if a == [] {
      assert a + b == b;
    } else {
      assert (a + b)[1..] == a[1..] + b;
      LogTogoConcat(cfg, a[1..], b);
    }
  }

  lemma LogTogoOne(cfg: Config, r: Record)
    ensures LogTogo(cfg, [r]) == Togo(cfg, r)
  {
    assert [r][1..] == [];
  }

  lemma LogTogoRemove(cfg: Config, rs: seq<Record>, i: nat)
    requires i < |rs|
    ensures LogTogo(cfg, Without(rs, i)) == LogTogo(cfg, rs) - Togo(cfg, rs[i])
  {
    assert rs == rs[..i] + ([rs[i]] + rs[i + 1..]);
    LogTogoConcat(cfg, rs[..i], [rs[i]] + rs[i + 1..]);
    LogTogoConcat(cfg, [rs[i]], rs[i + 1..]);
    LogTogoConcat(cfg, rs[..i], rs[i + 1..]);
    LogTogoOne(cfg, rs[i]);
  }

  lemma {:induction false} TotalsUpdate(cfg: Config, t: Topic, i: nat, x: Partition)
    requires i < |t|
    ensures TopicTogo(cfg, t[i := x])
      == TopicTogo(cfg, t) - LogTogo(cfg, Slice(t[i], Unread)) + LogTogo(cfg, Slice(x, Unread))
    ensures UnreadTotal(t[i := x]) + |Slice(t[i], Unread)| == UnreadTotal(t) + |Slice(x, Unread)|
  {
    if i == 0 {
      assert t[i := x][1..] == t[1..];
    } else {
      assert t[i := x][1..] == t[1..][i - 1 := x];
      TotalsUpdate(cfg, t[1..], i - 1, x);
    }
  }

  lemma StoredTotals(cfg: Config, t: Topic, part: nat, r: Record)
    requires Ordered(t) && part < |t|
    ensures TopicTogo(cfg, Stored(t, part, r)) == TopicTogo(cfg, t) + Togo(cfg, r)
    ensures UnreadTotal(Stored(t, part, r)) == UnreadTotal(t) + 1
  {
    var p := t[part];
    var p' := p.(log := p.log + [r]);
    TotalsUpdate(cfg, t, part, p');
    assert p'.log[p.pos..] == p.log[p.pos..] + [r];
    LogTogoConcat(cfg, p.log[p.pos..], [r]);
    LogTogoOne(cfg, r);
  }

  lemma AdvancedTotals(cfg: Config, t: Topic, part: nat)
    requires Ordered(t) && HasUnread(t, part)
    ensures TopicTogo(cfg, Advanced(t, part)) == TopicTogo(cfg, t) - Togo(cfg, t[part].log[t[part].pos])
    ensures UnreadTotal(Advanced(t, part)) + 1 == UnreadTotal(t)
  {
    var p := t[part];
    TotalsUpdate(cfg, t, part, p.(pos := p.pos + 1));
    assert p.log[p.pos..] == [p.log[p.pos]] + p.log[p.pos + 1..];
    LogTogoConcat(cfg, [p.log[p.pos]], p.log[p.pos + 1..]);
    LogTogoOne(cfg, p.log[p.pos]);
  }

  lemma CommittedTotals(cfg: Config, t: Topic, at: Slot)
    requires at.part < |t|
    ensures TopicTogo(cfg, CommittedPast(t, at)) == TopicTogo(cfg, t)
    ensures UnreadTotal(CommittedPast(t, at)) == UnreadTotal(t)
  {
    TotalsUpdate(cfg, t, at.part, t[at.part].(committed := at.offset + 1));
  }

  // ---------------------------------------------------------------- one step

  function MainShare(cfg: Config, sd: Side): int {
    Allowance(cfg, UnreadTotal(sd.topic)) + MainHandTogo(cfg, sd)
  }

  function RetryShare(cfg: Config, sd: Side): int {
    TopicTogo(cfg, sd.topic) + RetryHandTogo(cfg, sd)
  }

  lemma MainShareStep(cfg: Config, sd: Side, op: Op)
    requires Placed(sd) && Fits(sd, op) && !op.Reset?
    ensures MainShare(cfg, Apply(sd, op)) == MainShare(cfg, sd)
      + (if op.Append? then Budget(cfg) + 2 else if op.Fetch? then -1 else if op.Dispose? then -(Budget(cfg) + 1) else 0)
  {
    match op
    case Append(part, r) => StoredTotals(cfg, sd.topic, part, r);
    case Fetch(part) => AdvancedTotals(cfg, sd.topic, part);
    case Commit(_) => CommittedTotals(cfg, sd.topic, sd.pc.at);
    case _ =>
  }

  lemma RetryStores(cfg: Config, sd: Side, part: nat, r: Record)
    requires Placed(sd) && part < |sd.topic|
    ensures RetryShare(cfg, Apply(sd, Append(part, r))) == RetryShare(cfg, sd) + Togo(cfg, r)
  {
    StoredTotals(cfg, sd.topic, part, r);
    if !sd.pc.Idle? {
      assert InHand(Apply(sd, Append(part, r))) == InHand(sd);
    }
  }

  lemma RetryFetches(cfg: Config, sd: Side, part: nat)
    requires Placed(sd) && sd.pc.Idle? && HasUnread(sd.topic, part)
    ensures RetryShare(cfg, Apply(sd, Fetch(part))) == RetryShare(cfg, sd) - 1
  {
    AdvancedTotals(cfg, sd.topic, part);
    assert InHand(Apply(sd, Fetch(part))) == sd.topic[part].log[sd.topic[part].pos];
  }

  lemma RetryShareStep(cfg: Config, sd: Side, op: Op)
    requires Placed(sd) && Fits(sd, op) && !op.Reset?
    ensures RetryShare(cfg, Apply(sd, op)) == RetryShare(cfg, sd)
      + (if op.Append? then Togo(cfg, op.r) else if op.Fetch? then -1
         else if op.Dispose? then 1 - Togo(cfg, InHand(sd)) else 0)
  {
    match op
    case Append(part, r) => RetryStores(cfg, sd, part, r);
    case Fetch(part) => RetryFetches(cfg, sd, part);
    case Commit(_) => CommittedTotals(cfg, sd.topic, sd.pc.at);
    case _ =>
  }

  /** Work a label adds to the producers' buffers. */
  lemma PipeShareStep(cfg: Config, st: State, l: Label)
    requires Enabled(cfg, st, l) && !l.Crash?
    requires forall i :: 0 <= i < |st.pipe.inflight| ==> Togo(cfg, st.pipe.inflight[i]) >= 1
    ensures LogTogo(cfg, NextPipe(cfg, st, l).inflight) <= LogTogo(cfg, st.pipe.inflight)
      + (if l.Deliver? then -Togo(cfg, st.pipe.inflight[l.i])
         else if Outgoing(cfg, st, l).Some? && l.accepted then Togo(cfg, Outgoing(cfg, st, l).value) else 0)
  {
    match l
    case MainPublish(_, _) =>
      LogTogoConcat(cfg, st.pipe.inflight, [Outgoing(cfg, st, l).value]);
      LogTogoOne(cfg, Outgoing(cfg, st, l).value);
    case RetryPublish(_, _) =>
      LogTogoConcat(cfg, st.pipe.inflight, [Outgoing(cfg, st, l).value]);
      LogTogoOne(cfg, Outgoing(cfg, st, l).value);
    case Deliver(i, _) => LogTogoRemove(cfg, st.pipe.inflight, i);
    case DeliveryFails(i) => LogTogoRemove(cfg, st.pipe.inflight, i);
    case _ =>
  }

  function Reads(l: Label): nat {
    if l.MainRead? || l.RetryRead? then 1 else 0
  }

  function Ingests(l: Label): nat {
    if l.Ingest? then 1 else 0
  }

  lemma TogoInFlight(cfg: Config, st: State)
    requires Inv(cfg, st)
    ensures forall i :: 0 <= i < |st.pipe.inflight| ==> Togo(cfg, st.pipe.inflight[i]) >= 1
  {
    forall i | 0 <= i < |st.pipe.inflight| ensures Togo(cfg, st.pipe.inflight[i]) >= 1 {
      assert Provenance(cfg, st.main.topic, st.pipe.inflight[i]);
    }
  }

  lemma TogoInHand(cfg: Config, st: State)
    requires Inv(cfg, st) && Holding(st.retry)
    ensures Togo(cfg, InHand(st.retry)) >= 1
  {
    assert Provenance(cfg, st.main.topic, InHand(st.retry));
  }

  lemma MainLabelShare(cfg: Config, st: State, l: Label)
    requires Placed(st.main) && Enabled(cfg, st, l) && !l.Crash?
    ensures MainShare(cfg, Next(cfg, st, l).main) == MainShare(cfg, st.main)
      + (if l.Ingest? then Budget(cfg) + 2 else if l.MainRead? then -1
         else if l.MainSkip? || l.MainOk? || l.MainPublish? then -(Budget(cfg) + 1) else 0)
  {
    OpsFit(cfg, st, l);
    if MainOp(st, l).Some? {
      MainShareStep(cfg, st.main, MainOp(st, l).value);
    }
  }

  lemma RetryLabelShare(cfg: Config, st: State, l: Label)
    requires Placed(st.retry) && Enabled(cfg, st, l) && !l.Crash?
    ensures RetryShare(cfg, Next(cfg, st, l).retry) == RetryShare(cfg, st.retry)
      + (if l.Deliver? then Togo(cfg, st.pipe.inflight[l.i]) else if l.RetryRead? then -1
         else if l.RetryGiveUp? || l.RetryDiscard? || l.RetryOk? || l.RetryPublish? then 1 - Togo(cfg, InHand(st.retry)) else 0)
  {
    OpsFit(cfg, st, l);
    if RetryOp(st, l).Some? {
      RetryShareStep(cfg, st.retry, RetryOp(st, l).value);
    }
  }

  /** Each read uses up one unit of work; only new events add any. */
  lemma WorkStep(cfg: Config, st: State, l: Label)
    requires ValidConfig(cfg) && Inv(cfg, st) && Enabled(cfg, st, l) && !l.Crash?
    ensures Work(cfg, Next(cfg, st, l)) + Reads(l) <= Work(cfg, st) + (if l.Ingest? then Budget(cfg) + 2 else 0)
  {
    TogoInFlight(cfg, st);
    if Holding(st.retry) {
      TogoInHand(cfg, st);
    }
    PipeShareStep(cfg, st, l);
    MainLabelShare(cfg, st, l);
    RetryLabelShare(cfg, st, l);
    if Outgoing(cfg, st, l).Some? {
      OutgoingProvenance(cfg, st, l);
    }
    SharesAddUp(cfg, st, Next(cfg, st, l), l);
  }

  lemma SharesAddUp(cfg: Config, st: State, st': State, l: Label)
    ensures Work(cfg, st) == MainShare(cfg, st.main) + LogTogo(cfg, st.pipe.inflight) + RetryShare(cfg, st.retry)
    ensures Work(cfg, st') == MainShare(cfg, st'.main) + LogTogo(cfg, st'.pipe.inflight) + RetryShare(cfg, st'.retry)
  {
  }

  // ---------------------------------------------------------------- whole runs

  function TotalReads(ls: seq<Label>): nat {
    if ls == [] then 0 else Reads(ls[0]) + TotalReads(ls[1..])
  }

  function TotalIngests(ls: seq<Label>): nat {
    if ls == [] then 0 else Ingests(ls[0]) + TotalIngests(ls[1..])
  }

  lemma {:induction false} WorkAlways(cfg: Config, st: State, ls: seq<Label>, st': State)
    requires ValidConfig(cfg) && Inv(cfg, st) && Runs(cfg, st, ls, st')
    requires forall k :: 0 <= k < |ls| ==> !ls[k].Crash?
    ensures Inv(cfg, st')
    ensures Work(cfg, st') + TotalReads(ls) <= Work(cfg, st) + Allowed(cfg, ls)
    decreases |ls|
  {
    if ls != [] {
      InvStep(cfg, st, ls[0]);
      WorkStep(cfg, st, ls[0]);
      WorkAlways(cfg, Step(cfg, st, ls[0]).value, ls[1..], st');
    }
  }

  /** The reads the events ingested by a run may cause. */
  function Allowed(cfg: Config, ls: seq<Label>): int {
    if ls == [] then 0 else (if ls[0].Ingest? then Budget(cfg) + 2 else 0) + Allowed(cfg, ls[1..])
  }

  lemma {:induction false} AllowedIs(cfg: Config, ls: seq<Label>)
    ensures Allowed(cfg, ls) == Allowance(cfg, TotalIngests(ls))
  {
    if ls != [] {
      AllowedIs(cfg, ls[1..]);
    }
  }

  lemma {:induction false} NonNegative(cfg: Config, events: Topic, t: Topic)
    requires Ordered(t) && TopicProvenance(cfg, events, t)
    ensures TopicTogo(cfg, t) >= 0
  {
    if t != [] {
      var rs := Slice(t[0], Unread);
      forall i | 0 <= i < |rs| ensures Togo(cfg, rs[i]) >= 1 {
        assert Provenance(cfg, events, t[0].log[t[0].pos + i]);
      }
      LogNonNegative(cfg, rs);
      assert TopicProvenance(cfg, events, t[1..]) by {
        forall p, o | 0 <= p < |t[1..]| && 0 <= o < |t[1..][p].log| ensures Provenance(cfg, events, t[1..][p].log[o]) {
          assert Provenance(cfg, events, t[p + 1].log[o]);
        }
      }
      NonNegative(cfg, events, t[1..]);
    }
  }

  lemma {:induction false} LogNonNegative(cfg: Config, rs: seq<Record>)
    requires forall i :: 0 <= i < |rs| ==> Togo(cfg, rs[i]) >= 1
    ensures LogTogo(cfg, rs) >= 0
  {
    if rs != [] {
      LogNonNegative(cfg, rs[1..]);
    }
  }

  lemma WorkNonNegative(cfg: Config, st: State)
    requires Inv(cfg, st)
    ensures Work(cfg, st) >= 0
  {
    NonNegative(cfg, st.main.topic, st.retry.topic);
    TogoInFlight(cfg, st);
    LogNonNegative(cfg, st.pipe.inflight);
    if Holding(st.retry) {
      TogoInHand(cfg, st);
    }
    AllowanceNonNegative(cfg, UnreadTotal(st.main.topic));
  }

  lemma {:induction false} EmptyTotals(cfg: Config, t: Topic)
    requires EmptyTopic(t)
    ensures UnreadTotal(t) == 0 && TopicTogo(cfg, t) == 0
  {
    if t != [] {
      EmptyTotals(cfg, t[1..]);
    }
  }

  /** N ingested events cause at most N * (budget + 2) reads, over both loops together. */
  lemma ReadsAreBounded(cfg: Config, st: State, ls: seq<Label>, st': State)
    requires ValidConfig(cfg) && Init(st) && Runs(cfg, st, ls, st')
    requires forall k :: 0 <= k < |ls| ==> !ls[k].Crash?
    ensures TotalReads(ls) <= (Budget(cfg) + 2) * TotalIngests(ls)
  {
    InitInv(cfg, st);
    EmptyTotals(cfg, st.main.topic);
    EmptyTotals(cfg, st.retry.topic);
    WorkAlways(cfg, st, ls, st');
    WorkNonNegative(cfg, st');
    AllowedIs(cfg, ls);
    AllowanceIs(cfg, TotalIngests(ls));
  }
}
