/** The retry loop over a log does what a simple sequential retry would: in crash-free runs, with any
    interleaving, every message is called with attempts 0, 1, 2, ... in order until one succeeds or
    the budget is used up, and the permanent-failure callback runs exactly in the second case. */
module RetryChains {
  import opened Wrappers
  import opened Headers
  import opened Kafka
  import opened Delivery
  import opened DeliverySafety
  import opened Conservation

  // ---------------------------------------------------------------- the simple form

  datatype Verdict = Verdict(calls: nat, ok: bool)

  /** Call; on failure call again, at most `budget` more times. */
  function Sequential(handler: nat -> bool, budget: nat, attempt: nat): Verdict
    decreases budget - attempt
  {
    if handler(attempt) then Verdict(attempt + 1, true)
    else if attempt >= budget then Verdict(attempt + 1, false)
    else Sequential(handler, budget, attempt + 1)
  }

  /** It stops at the first success, or after budget + 1 failures. */
  lemma {:induction false} SequentialStops(handler: nat -> bool, budget: nat, attempt: nat, last: nat)
    requires attempt <= last <= budget
    requires forall i: nat :: attempt <= i < last ==> !handler(i)
    requires handler(last) || last == budget
    ensures Sequential(handler, budget, attempt) == Verdict(last + 1, handler(last))
    decreases last - attempt
  {
    if attempt < last {
      SequentialStops(handler, budget, attempt + 1, last);
    }
  }

  // ---------------------------------------------------------------- what a message has been through

  /** Results of the handler calls for `s`, oldest first. */
  function Outcomes(calls: seq<Call>, s: Slot): seq<bool> {
    if calls == [] then []
    else
      var last := calls[|calls| - 1];
      Outcomes(calls[..|calls| - 1], s) + (if last.src == s then [last.ok] else [])
  }

  predicate AllFail(o: seq<bool>, n: int) {
    |o| == n && forall i :: 0 <= i < |o| ==> !o[i]
  }

  predicate FailsThenOk(o: seq<bool>) {
    |o| > 0 && o[|o| - 1] && forall i :: 0 <= i < |o| - 1 ==> !o[i]
  }

  /** How the calls made for `s` fit the place it is in, on the events side ... */
  ghost predicate MainChain(sd: Side, o: seq<bool>, s: Slot) {
    && (!ValidSlot(sd.topic, s) ==> o == [])
    && (TopicCount(sd.topic, Unread, s) > 0 ==> o == [])
    && (InHandCount(sd, s) > 0 ==> AllFail(o, if sd.pc.Failed? then 1 else 0))
    && (sd.book.unparseable[s] > 0 ==> o == [])
    && (sd.book.handled[s] > 0 ==> o == [true])
  }

  /** ... on its way to the dead-letter topic ... */
  ghost predicate PipeChain(cfg: Config, pipe: Pipe, o: seq<bool>, s: Slot) {
    && (forall i :: 0 <= i < |pipe.inflight| && pipe.inflight[i].src == s
          ==> AllFail(o, RetryCount(pipe.inflight[i]) + 1))
    && (pipe.rejected[s] + pipe.undelivered[s] > 0 ==> AllFail(o, |o|) && 1 <= |o| <= Budget(cfg) + 1)
  }

  /** ... and on the dead-letter side. */
  ghost predicate RetryChain(cfg: Config, sd: Side, o: seq<bool>, s: Slot) {
    && (forall p, i :: 0 <= p < |sd.topic| && sd.topic[p].pos <= i < |sd.topic[p].log| && sd.topic[p].log[i].src == s
          ==> AllFail(o, RetryCount(sd.topic[p].log[i]) + 1))
    && (InHandCount(sd, s) > 0 ==> AllFail(o, RetryCount(InHand(sd)) + (if sd.pc.Failed? then 2 else 1)))
    && (sd.book.handled[s] > 0 ==> FailsThenOk(o) && 2 <= |o| <= Budget(cfg) + 1)
    && (sd.book.gaveUp[s] > 0 ==> AllFail(o, Budget(cfg) + 1))
  }

  ghost predicate Chain(cfg: Config, st: State, s: Slot) {
    var o := Outcomes(st.calls, s);
    MainChain(st.main, o, s) && PipeChain(cfg, st.pipe, o, s) && RetryChain(cfg, st.retry, o, s)
  }

  // ---------------------------------------------------------------- steps that complete no call for s

  lemma MainStores(sd: Side, r: Record, part: nat, o: seq<bool>, s: Slot)
    requires Placed(sd) && part < |sd.topic| && MainChain(sd, o, s)
    requires r.src == Slot(part, |sd.topic[part].log|)
    ensures MainChain(Apply(sd, Append(part, r)), o, s)
  {
    ValidSlotsStep(sd, Append(part, r), s);
    AppendCounts(sd.topic, part, r, s);
    AppendKeepsHand(sd, part, r, s);
  }

  lemma MainFetches(sd: Side, part: nat, o: seq<bool>, s: Slot)
    requires Placed(sd) && sd.pc.Idle? && HasUnread(sd.topic, part) && MainChain(sd, o, s)
    ensures MainChain(Apply(sd, Fetch(part)), o, s)
  {
    FetchCounts(sd.topic, part, s);
    assert InHand(Apply(sd, Fetch(part))) == sd.topic[part].log[sd.topic[part].pos];
  }

  lemma MainMoves(sd: Side, op: Op, o: seq<bool>, s: Slot)
    requires Placed(sd) && Fits(sd, op) && MainChain(sd, o, s) && !op.Reset?
    requires op.Append? ==> op.r.src == Slot(op.part, |sd.topic[op.part].log|)
    requires op == Dispose(Unparseable) ==> sd.pc.Read?
    requires op == Dispose(Handled) || op.Fail? ==> InHandCount(sd, s) == 0
    ensures MainChain(Apply(sd, op), o, s)
  {
    match op
    case Append(part, r) => MainStores(sd, r, part, o, s);
    case Fetch(part) => MainFetches(sd, part, o, s);
    case Commit(_) => CommitCounts(sd.topic, sd.pc.at, s);
    case _ =>
  }

  lemma RetryMoves(cfg: Config, sd: Side, op: Op, o: seq<bool>, s: Slot)
    requires Placed(sd) && Fits(sd, op) && RetryChain(cfg, sd, o, s) && !op.Reset?
    requires op.Append? && op.r.src == s ==> AllFail(o, RetryCount(op.r) + 1)
    requires op == Dispose(GaveUp) ==> !sd.pc.Failed? && RetryCount(InHand(sd)) == Budget(cfg)
    requires op == Dispose(Handled) || op.Fail? ==> InHandCount(sd, s) == 0
    ensures RetryChain(cfg, Apply(sd, op), o, s)
  {
    var sd' := Apply(sd, op);
    match op
    case Append(part, r) =>
      if !sd.pc.Idle? {
        assert InHand(sd') == InHand(sd);
      }
    case Fetch(part) =>
      assert InHand(sd') == sd.topic[part].log[sd.topic[part].pos];
    case _ =>
  }

  lemma PublishMoves(cfg: Config, pipe: Pipe, r: Record, accepted: bool, o: seq<bool>, s: Slot)
    requires PipeChain(cfg, pipe, o, s)
    requires r.src == s ==> AllFail(o, RetryCount(r) + 1) && 0 <= RetryCount(r) <= Budget(cfg)
    ensures PipeChain(cfg, Produce(pipe, r, accepted), o, s)
  {
  }

  lemma PipeMoves(cfg: Config, st: State, l: Label, o: seq<bool>, s: Slot)
    requires Enabled(cfg, st, l) && !l.Crash? && Outgoing(cfg, st, l).None?
    requires PipeChain(cfg, st.pipe, o, s)
    requires forall i :: 0 <= i < |st.pipe.inflight| ==> 0 <= RetryCount(st.pipe.inflight[i]) <= Budget(cfg)
    ensures PipeChain(cfg, NextPipe(cfg, st, l), o, s)
  {
  }

  /** The message handed to a producer carries as many failures as its count says. */
  lemma OutgoingChain(cfg: Config, st: State, l: Label, s: Slot)
    requires ValidConfig(cfg) && Inv(cfg, st) && Chain(cfg, st, s)
    requires Enabled(cfg, st, l) && Outgoing(cfg, st, l).Some? && Outgoing(cfg, st, l).value.src == s
    ensures var r := Outgoing(cfg, st, l).value;
      AllFail(Outcomes(st.calls, s), RetryCount(r) + 1) && 0 <= RetryCount(r) <= Budget(cfg)
  {
    OutgoingProvenance(cfg, st, l);
  }

  lemma GiveUpAtBudget(cfg: Config, st: State)
    requires Inv(cfg, st) && Enabled(cfg, st, RetryGiveUp)
    ensures RetryCount(InHand(st.retry)) == Budget(cfg)
  {
    assert Provenance(cfg, st.main.topic, InHand(st.retry));
  }

  /** The source a label completes a call for. */
  predicate CallsFor(st: State, l: Label, s: Slot) {
    CallOf(st, l).Some? && CallOf(st, l).value.src == s
  }

  lemma QuietPipe(cfg: Config, st: State, l: Label, s: Slot)
    requires ValidConfig(cfg) && Inv(cfg, st) && Chain(cfg, st, s) && Enabled(cfg, st, l) && !l.Crash?
    ensures PipeChain(cfg, NextPipe(cfg, st, l), Outcomes(st.calls, s), s)
  {
    var o := Outcomes(st.calls, s);
    if Outgoing(cfg, st, l).Some? {
      if Outgoing(cfg, st, l).value.src == s {
        OutgoingChain(cfg, st, l, s);
      }
      PublishMoves(cfg, st.pipe, Outgoing(cfg, st, l).value, l.accepted, o, s);
    } else {
      forall i | 0 <= i < |st.pipe.inflight| ensures 0 <= RetryCount(st.pipe.inflight[i]) <= Budget(cfg) {
        assert Provenance(cfg, st.main.topic, st.pipe.inflight[i]);
      }
      PipeMoves(cfg, st, l, o, s);
    }
  }

  lemma QuietSides(cfg: Config, st: State, l: Label, s: Slot)
    requires ValidConfig(cfg) && Inv(cfg, st) && Chain(cfg, st, s) && Enabled(cfg, st, l) && !l.Crash?
    requires !CallsFor(st, l, s)
    ensures MainChain(Next(cfg, st, l).main, Outcomes(st.calls, s), s)
    ensures RetryChain(cfg, Next(cfg, st, l).retry, Outcomes(st.calls, s), s)
  {
    OpsFit(cfg, st, l);
    var o := Outcomes(st.calls, s);
    if MainOp(st, l).Some? {
      MainMoves(st.main, MainOp(st, l).value, o, s);
    }
    if RetryOp(st, l).Some? {
      if l.RetryGiveUp? {
        GiveUpAtBudget(cfg, st);
      }
      RetryMoves(cfg, st.retry, RetryOp(st, l).value, o, s);
    }
  }

  lemma OutcomesStep(cfg: Config, st: State, l: Label, s: Slot)
    requires Enabled(cfg, st, l)
    ensures Outcomes(Next(cfg, st, l).calls, s)
      == Outcomes(st.calls, s) + (if CallsFor(st, l, s) then [CallOf(st, l).value.ok] else [])
  {
    if CallOf(st, l).Some? {
      var calls := st.calls + [CallOf(st, l).value];
      assert calls[..|calls| - 1] == st.calls;
    }
  }

  // ---------------------------------------------------------------- steps that complete a call for s

  /** Without crashes a message is in one place only. */
  lemma OnePlace(cfg: Config, st: State, s: Slot)
    requires Ledger(st, s) && NoRereads(st) && st.crashes == 0
    ensures Waiting(st, s) + Finished(st, s) + Lost(st, s) == if ValidSlot(st.main.topic, s) then 1 else 0
  {
  }

  lemma NoneInFlight(rs: seq<Record>, s: Slot)
    requires CountIn(rs, s) == 0
    ensures forall i :: 0 <= i < |rs| ==> rs[i].src != s
  {
    forall i | 0 <= i < |rs| ensures rs[i].src != s {
      CountMember(rs, i);
    }
  }

  lemma NoneUnread(t: Topic, s: Slot)
    requires Ordered(t) && TopicCount(t, Unread, s) == 0
    ensures forall p, i :: 0 <= p < |t| && t[p].pos <= i < |t[p].log| ==> t[p].log[i].src != s
  {
    forall p, i | 0 <= p < |t| && t[p].pos <= i < |t[p].log| ensures t[p].log[i].src != s {
      assert Slice(t[p], Unread)[i - t[p].pos] == t[p].log[i];
      TopicMember(t, p, i - t[p].pos, Unread);
    }
  }

  ghost predicate AbsentFromRetry(sd: Side, s: Slot) {
    TopicCount(sd.topic, Unread, s) + InHandCount(sd, s) + sd.book.handled[s] + sd.book.gaveUp[s] == 0
  }

  /** Everything a chain claims about a place `s` is not in holds for any outcomes. */
  lemma Elsewhere(cfg: Config, st: State, o: seq<bool>, s: Slot)
    requires Placed(st.retry)
    ensures CountIn(st.pipe.inflight, s) == 0 && Lost(st, s) == 0 ==> PipeChain(cfg, st.pipe, o, s)
    ensures AbsentFromRetry(st.retry, s) ==> RetryChain(cfg, st.retry, o, s)
  {
    if CountIn(st.pipe.inflight, s) == 0 {
      NoneInFlight(st.pipe.inflight, s);
    }
    if TopicCount(st.retry.topic, Unread, s) == 0 {
      NoneUnread(st.retry.topic, s);
    }
  }

  /** A call adds its result to the outcomes of the message in hand. */
  lemma CallMovesMain(sd: Side, op: Op, o: seq<bool>, ok: bool, s: Slot)
    requires Placed(sd) && Fits(sd, op) && MainChain(sd, o, s) && ValidSlot(sd.topic, s)
    requires sd.pc.Read? && InHand(sd).src == s && (if ok then op == Dispose(Handled) else op.Fail?)
    requires TopicCount(sd.topic, Unread, s) == 0 && sd.book.unparseable[s] == 0
    requires sd.book.handled[s] == 0
    ensures MainChain(Apply(sd, op), o + [ok], s)
  {
  }

  lemma MainCallKeepsMain(cfg: Config, st: State, l: Label, s: Slot)
    requires Inv(cfg, st) && MainChain(st.main, Outcomes(st.calls, s), s) && Enabled(cfg, st, l)
    requires (l.MainOk? || l.MainErr?) && CallsFor(st, l, s)
    requires var st' := Next(cfg, st, l); Waiting(st', s) + Finished(st', s) + Lost(st', s) == 1
    ensures var st' := Next(cfg, st, l); MainChain(st'.main, Outcomes(st'.calls, s), s)
  {
    OpsFit(cfg, st, l);
    OutcomesStep(cfg, st, l, s);
    assert InHand(st.main).src == st.main.pc.at;
    CallMovesMain(st.main, MainOp(st, l).value, Outcomes(st.calls, s), l.MainOk?, s);
  }

  lemma RetryCallKeepsRetry(cfg: Config, st: State, l: Label, s: Slot)
    requires Placed(st.retry) && RetryStage(cfg, st.retry) && RetryChain(cfg, st.retry, Outcomes(st.calls, s), s) && Enabled(cfg, st, l)
    requires (l.RetryOk? || l.RetryErr?) && CallsFor(st, l, s)
    requires 0 <= RetryCount(InHand(st.retry)) <= Budget(cfg)
    requires var st' := Next(cfg, st, l); Placed(st'.retry) && Waiting(st', s) + Finished(st', s) + Lost(st', s) == 1
    requires var st' := Next(cfg, st, l); InHandCount(st'.retry, s) + st'.retry.book.handled[s] >= 1
    ensures var st' := Next(cfg, st, l); RetryChain(cfg, st'.retry, Outcomes(st'.calls, s), s)
  {
    OpsFit(cfg, st, l);
    OutcomesStep(cfg, st, l, s);
    var st' := Next(cfg, st, l);
    assert TopicCount(st'.retry.topic, Unread, s) == 0;
    NoneUnread(st'.retry.topic, s);
  }

  lemma MainCallChain(cfg: Config, st: State, l: Label, s: Slot)
    requires Inv(cfg, st) && Chain(cfg, st, s) && Enabled(cfg, st, l)
    requires (l.MainOk? || l.MainErr?) && CallsFor(st, l, s)
    requires var st' := Next(cfg, st, l);
      Placed(st'.retry) && Waiting(st', s) + Finished(st', s) + Lost(st', s) == 1
      && InHandCount(st'.main, s) + st'.main.book.handled[s] >= 1
    ensures Chain(cfg, Next(cfg, st, l), s)
  {
    var st' := Next(cfg, st, l);
    MainCallKeepsMain(cfg, st, l, s);
    Elsewhere(cfg, st', Outcomes(st'.calls, s), s);
  }

  lemma RetryCallChain(cfg: Config, st: State, l: Label, s: Slot)
    requires Inv(cfg, st) && Chain(cfg, st, s) && Enabled(cfg, st, l)
    requires (l.RetryOk? || l.RetryErr?) && CallsFor(st, l, s)
    requires var st' := Next(cfg, st, l);
      Placed(st'.retry) && Waiting(st', s) + Finished(st', s) + Lost(st', s) == 1
      && ValidSlot(st'.main.topic, s)
      && InHandCount(st'.retry, s) + st'.retry.book.handled[s] >= 1
    ensures Chain(cfg, Next(cfg, st, l), s)
  {
    var st' := Next(cfg, st, l);
    assert Provenance(cfg, st.main.topic, InHand(st.retry));
    RetryCallKeepsRetry(cfg, st, l, s);
    Elsewhere(cfg, st', Outcomes(st'.calls, s), s);
    assert MainChain(st'.main, Outcomes(st'.calls, s), s);
  }

  lemma ChainStep(cfg: Config, st: State, l: Label, s: Slot)
    requires ValidConfig(cfg) && Inv(cfg, st) && Chain(cfg, st, s) && Enabled(cfg, st, l) && !l.Crash?
    requires var st' := Next(cfg, st, l); Placed(st'.retry) && Ledger(st', s) && NoRereads(st') && st'.crashes == 0
    ensures Chain(cfg, Next(cfg, st, l), s)
  {
    if !CallsFor(st, l, s) {
      QuietChain(cfg, st, l, s);
    } else {
      CallPlace(cfg, st, l, s);
      OnePlace(cfg, Next(cfg, st, l), s);
      if l.MainOk? || l.MainErr? {
        MainCallChain(cfg, st, l, s);
      } else {
        RetryCallChain(cfg, st, l, s);
      }
    }
  }

  lemma QuietChain(cfg: Config, st: State, l: Label, s: Slot)
    requires ValidConfig(cfg) && Inv(cfg, st) && Chain(cfg, st, s) && Enabled(cfg, st, l) && !l.Crash?
    requires !CallsFor(st, l, s)
    ensures Chain(cfg, Next(cfg, st, l), s)
  {
    OutcomesStep(cfg, st, l, s);
    QuietSides(cfg, st, l, s);
    QuietPipe(cfg, st, l, s);
  }

  /** A call leaves its message in hand, or finished, on the side that made it. */
  lemma CallPlace(cfg: Config, st: State, l: Label, s: Slot)
    requires Inv(cfg, st) && Enabled(cfg, st, l) && CallsFor(st, l, s)
    ensures var st' := Next(cfg, st, l);
      && ValidSlot(st'.main.topic, s)
      && (l.MainOk? || l.MainErr? ==> InHandCount(st'.main, s) + st'.main.book.handled[s] >= 1)
      && (l.RetryOk? || l.RetryErr? ==> InHandCount(st'.retry, s) + st'.retry.book.handled[s] >= 1)
  {
    OpsFit(cfg, st, l);
    if l.MainOk? || l.MainErr? {
      assert InHand(st.main).src == st.main.pc.at;
    } else {
      assert Provenance(cfg, st.main.topic, InHand(st.retry));
    }
  }

  lemma InitChain(cfg: Config, st: State, s: Slot)
    requires Init(st)
    ensures Chain(cfg, st, s)
  {
    EmptyCounts(st.main.topic, Unread, s);
  }

  lemma CrashesOnlyGrow(cfg: Config, st: State, l: Label)
    requires Enabled(cfg, st, l)
    ensures Next(cfg, st, l).crashes == st.crashes + (if l.Crash? then 1 else 0)
  {
  }

  lemma {:induction false} ChainAlways(cfg: Config, st: State, ls: seq<Label>, st': State, s: Slot)
    requires ValidConfig(cfg) && Inv(cfg, st) && Ledger(st, s) && NoRereads(st) && Chain(cfg, st, s)
    requires Runs(cfg, st, ls, st') && st.crashes == 0
    requires forall k :: 0 <= k < |ls| ==> !ls[k].Crash?
    ensures Inv(cfg, st') && Ledger(st', s) && NoRereads(st') && Chain(cfg, st', s) && st'.crashes == 0
    decreases |ls|
  {
    if ls != [] {
      var l := ls[0];
      InvStep(cfg, st, l);
      LedgerStep(cfg, st, l, s);
      NoRereadsStep(cfg, st, l);
      CrashesOnlyGrow(cfg, st, l);
      ChainStep(cfg, st, l, s);
      ChainAlways(cfg, Step(cfg, st, l).value, ls[1..], st', s);
    }
  }

  // ---------------------------------------------------------------- refinement

  /** At any time the calls made for a message are a beginning of what the sequential retry would do. */
  lemma ChainIsOnTrack(cfg: Config, st: State, ls: seq<Label>, st': State, s: Slot, handler: nat -> bool)
    requires ValidConfig(cfg) && Init(st) && Runs(cfg, st, ls, st')
    requires forall k :: 0 <= k < |ls| ==> !ls[k].Crash?
    requires forall i: nat :: i < |Outcomes(st'.calls, s)| ==> Outcomes(st'.calls, s)[i] == handler(i)
    ensures |Outcomes(st'.calls, s)| <= Sequential(handler, Budget(cfg), 0).calls
    ensures st'.retry.book.gaveUp[s] <= 1
  {
    InitInv(cfg, st);
    InitLedger(st, s);
    InitChain(cfg, st, s);
    ChainAlways(cfg, st, ls, st', s);
    OnePlace(cfg, st', s);
    var o := Outcomes(st'.calls, s);
    ChainShape(cfg, st', s);
    if o != [] {
      TrackedSoFar(handler, Budget(cfg), 0, |o|);
    }
  }

  /** A chain visits the counts 0, 1, 2, ... in order: the copy of a message waiting in the dead-letter topic,
      or on its way there, carries the number of calls made so far less one, and all of them failed. */
  lemma CountIsCallsSoFar(cfg: Config, st: State, ls: seq<Label>, st': State, r: Record)
    requires ValidConfig(cfg) && Init(st) && Runs(cfg, st, ls, st')
    requires forall k :: 0 <= k < |ls| ==> !ls[k].Crash?
    requires r in st'.pipe.inflight || WaitsUnread(st'.retry.topic, r)
    ensures AllFail(Outcomes(st'.calls, r.src), RetryCount(r) + 1)
  {
    InitInv(cfg, st);
    InitLedger(st, r.src);
    InitChain(cfg, st, r.src);
    ChainAlways(cfg, st, ls, st', r.src);
  }

  predicate WaitsUnread(t: Topic, r: Record) {
    exists p, i :: 0 <= p < |t| && t[p].pos <= i < |t[p].log| && t[p].log[i] == r
  }

  predicate GoodShape(cfg: Config, o: seq<bool>) {
    (AllFail(o, |o|) || FailsThenOk(o)) && |o| <= Budget(cfg) + 1
  }

  /** Every chain is all failures so far, or ends with its only success; never over budget. */
  lemma ChainShape(cfg: Config, st: State, s: Slot)
    requires Inv(cfg, st) && Ledger(st, s) && NoRereads(st) && Chain(cfg, st, s) && st.crashes == 0
    ensures GoodShape(cfg, Outcomes(st.calls, s))
  {
    OnePlace(cfg, st, s);
    if CountIn(st.pipe.inflight, s) > 0 {
      InFlightShape(cfg, st, s);
    } else if TopicCount(st.retry.topic, Unread, s) > 0 {
      UnreadShape(cfg, st, s);
    } else if InHandCount(st.retry, s) > 0 {
      InHandShape(cfg, st, s);
    } else {
      RestShape(cfg, st, s);
    }
  }

  lemma InFlightShape(cfg: Config, st: State, s: Slot)
    requires PipeProvenance(cfg, st.main.topic, st.pipe.inflight) && CountIn(st.pipe.inflight, s) > 0
    requires PipeChain(cfg, st.pipe, Outcomes(st.calls, s), s)
    ensures GoodShape(cfg, Outcomes(st.calls, s))
  {
    var i := SomeInFlight(st.pipe.inflight, s);
    assert Provenance(cfg, st.main.topic, st.pipe.inflight[i]);
  }

  lemma UnreadShape(cfg: Config, st: State, s: Slot)
    requires Placed(st.retry) && TopicProvenance(cfg, st.main.topic, st.retry.topic)
    requires TopicCount(st.retry.topic, Unread, s) > 0 && RetryChain(cfg, st.retry, Outcomes(st.calls, s), s)
    ensures GoodShape(cfg, Outcomes(st.calls, s))
  {
    var p, i := SomeUnread(st.retry.topic, s);
    assert Provenance(cfg, st.main.topic, st.retry.topic[p].log[i]);
  }

  lemma InHandShape(cfg: Config, st: State, s: Slot)
    requires TopicProvenance(cfg, st.main.topic, st.retry.topic) && RetryStage(cfg, st.retry)
    requires InHandCount(st.retry, s) > 0 && RetryChain(cfg, st.retry, Outcomes(st.calls, s), s)
    ensures GoodShape(cfg, Outcomes(st.calls, s))
  {
    assert Provenance(cfg, st.main.topic, InHand(st.retry));
  }

  lemma RestShape(cfg: Config, st: State, s: Slot)
    requires Ledger(st, s) && NoRereads(st) && st.crashes == 0 && Chain(cfg, st, s)
    requires CountIn(st.pipe.inflight, s) == 0 && TopicCount(st.retry.topic, Unread, s) == 0 && InHandCount(st.retry, s) == 0
    ensures GoodShape(cfg, Outcomes(st.calls, s))
  {
    OnePlace(cfg, st, s);
  }

  lemma {:induction false} SomeInFlight(rs: seq<Record>, s: Slot) returns (i: nat)
    requires CountIn(rs, s) > 0
    ensures i < |rs| && rs[i].src == s
  {
    if rs[0].src == s {
      i := 0;
    } else {
      i := SomeInFlight(rs[1..], s);
      i := i + 1;
    }
  }

  lemma {:induction false} SomeUnread(t: Topic, s: Slot) returns (p: nat, i: nat)
    requires Ordered(t) && TopicCount(t, Unread, s) > 0
    ensures p < |t| && t[p].pos <= i < |t[p].log| && t[p].log[i].src == s
  {
    if CountIn(Slice(t[0], Unread), s) > 0 {
      var k := SomeInFlight(Slice(t[0], Unread), s);
      p, i := 0, t[0].pos + k;
    } else {
      p, i := SomeUnread(t[1..], s);
      p := p + 1;
    }
  }

  lemma {:induction false} TrackedSoFar(handler: nat -> bool, budget: nat, attempt: nat, n: nat)
    requires attempt < n <= budget + 1
    requires forall i: nat :: attempt <= i < n - 1 ==> !handler(i)
    ensures n <= Sequential(handler, budget, attempt).calls
    decreases n - attempt
  {
    if attempt + 1 < n {
      TrackedSoFar(handler, budget, attempt + 1, n);
    } else {
      AtLeastOneMore(handler, budget, attempt);
    }
  }

  lemma {:induction false} AtLeastOneMore(handler: nat -> bool, budget: nat, attempt: nat)
    ensures Sequential(handler, budget, attempt).calls >= attempt + 1
    decreases budget - attempt
  {
    if !handler(attempt) && attempt < budget {
      AtLeastOneMore(handler, budget, attempt + 1);
    }
  }

  /** Refinement: once a message that is an event is no longer waiting, and no write of it was lost,
      the calls made for it and its verdict are those of the sequential retry with the same handler;
      the permanent-failure callback ran once if every call failed, and never otherwise. */
  lemma ChainRefinesSequential(cfg: Config, st: State, ls: seq<Label>, st': State, s: Slot, handler: nat -> bool)
    requires ValidConfig(cfg) && Init(st) && Runs(cfg, st, ls, st')
    requires forall k :: 0 <= k < |ls| ==> !ls[k].Crash?
    requires ValidSlot(st'.main.topic, s) && Parses(cfg, RecordAt(st'.main.topic, s))
    requires Waiting(st', s) == 0 && Lost(st', s) == 0
    requires forall i: nat :: i < |Outcomes(st'.calls, s)| ==> Outcomes(st'.calls, s)[i] == handler(i)
    ensures var v := Sequential(handler, Budget(cfg), 0);
      && |Outcomes(st'.calls, s)| == v.calls
      && st'.retry.book.gaveUp[s] == (if v.ok then 0 else 1)
      && st'.main.book.handled[s] + st'.retry.book.handled[s] == (if v.ok then 1 else 0)
  {
    InitInv(cfg, st);
    InitLedger(st, s);
    InitChain(cfg, st, s);
    ChainAlways(cfg, st, ls, st', s);
    OnePlace(cfg, st', s);
    InitSkips(cfg, st, s);
    SkippedAlways(cfg, st, ls, st', s);
    VerdictOf(cfg, st', s, handler);
  }

  lemma VerdictOf(cfg: Config, st: State, s: Slot, handler: nat -> bool)
    requires Ledger(st, s) && NoRereads(st) && st.crashes == 0 && Chain(cfg, st, s)
    requires ValidSlot(st.main.topic, s) && Waiting(st, s) == 0 && Lost(st, s) == 0 && st.main.book.unparseable[s] == 0
    requires forall i: nat :: i < |Outcomes(st.calls, s)| ==> Outcomes(st.calls, s)[i] == handler(i)
    ensures var v := Sequential(handler, Budget(cfg), 0);
      && |Outcomes(st.calls, s)| == v.calls
      && st.retry.book.gaveUp[s] == (if v.ok then 0 else 1)
      && st.main.book.handled[s] + st.retry.book.handled[s] == (if v.ok then 1 else 0)
  {
    OnePlace(cfg, st, s);
    var o := Outcomes(st.calls, s);
    SequentialStops(handler, Budget(cfg), 0, |o| - 1);
  }

  /** Only messages that are no events are skipped. */
  ghost predicate SkipsAreNoEvents(cfg: Config, st: State, s: Slot) {
    st.main.book.unparseable[s] > 0 ==> ValidSlot(st.main.topic, s) && !Parses(cfg, RecordAt(st.main.topic, s))
  }

  lemma InitSkips(cfg: Config, st: State, s: Slot)
    requires Init(st)
    ensures SkipsAreNoEvents(cfg, st, s)
  {
  }

  lemma SkipsStep(cfg: Config, st: State, l: Label, s: Slot)
    requires Inv(cfg, st) && SkipsAreNoEvents(cfg, st, s) && Enabled(cfg, st, l)
    ensures SkipsAreNoEvents(cfg, Next(cfg, st, l), s)
  {
    SidesStep(cfg, st, l);
    OpsFit(cfg, st, l);
    assert l.MainSkip? ==> InHand(st.main).src == st.main.pc.at;
    if ValidSlot(st.main.topic, s) {
      assert st.main.topic[s.part].log <= Next(cfg, st, l).main.topic[s.part].log;
    }
  }

  lemma {:induction false} SkippedAlways(cfg: Config, st: State, ls: seq<Label>, st': State, s: Slot)
    requires ValidConfig(cfg) && Inv(cfg, st) && SkipsAreNoEvents(cfg, st, s) && Runs(cfg, st, ls, st')
    ensures SkipsAreNoEvents(cfg, st', s)
    decreases |ls|
  {
    if ls != [] {
      InvStep(cfg, st, ls[0]);
      SkipsStep(cfg, st, ls[0], s);
      SkippedAlways(cfg, Step(cfg, st, ls[0]).value, ls[1..], st', s);
    }
  }
}
