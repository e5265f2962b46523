/** No message disappears unnoticed: for every events-topic slot, what is waiting, what is finished
    and what a named fault took always add up, in every run with any faults. */
module Conservation {
  import opened Wrappers
  import opened Headers
  import opened Kafka
  import opened Delivery
  import opened DeliverySafety

  /** Copies of `s` still to be dealt with. */
  function Waiting(st: State, s: Slot): nat {
    TopicCount(st.main.topic, Unread, s) + InHandCount(st.main, s) + CountIn(st.pipe.inflight, s)
    + TopicCount(st.retry.topic, Unread, s) + InHandCount(st.retry, s)
  }

  /** Copies of `s` that were skipped as no event, handled, recovered by a retry, or given up on. */
  function Finished(st: State, s: Slot): nat {
    st.main.book.unparseable[s] + st.main.book.handled[s] + st.retry.book.handled[s] + st.retry.book.gaveUp[s]
  }

  /** Copies of `s` lost on the way to the dead-letter topic. */
  function Lost(st: State, s: Slot): nat {
    st.pipe.rejected[s] + st.pipe.undelivered[s] + st.pipe.crashLost[s]
  }

  /** Copies of `s` a restart added: handed out again although already decided. */
  function Duplicated(st: State, s: Slot): int {
    st.main.book.reread[s] as int - st.main.book.cut[s] + st.retry.book.reread[s] - st.retry.book.cut[s]
  }

  /** Whatever was handed to a producer is in its buffer, in the topic, or lost to a fault. */
  ghost predicate PipeBalanced(st: State, s: Slot) {
    st.main.book.published[s] + st.retry.book.published[s]
      == Lost(st, s) + CountIn(st.pipe.inflight, s) + TopicCount(st.retry.topic, Whole, s)
  }

  /** A slot is in the events topic at most once, and nothing comes from elsewhere. */
  ghost predicate OncePerSlot(st: State, s: Slot) {
    TopicCount(st.main.topic, Whole, s) == if ValidSlot(st.main.topic, s) then 1 else 0
  }

  /** Buckets no reachable run fills. */
  predicate NeverUsed(st: State) {
    st.main.book.gaveUp == multiset{} && st.retry.book.unparseable == multiset{}
  }

  ghost predicate Ledger(st: State, s: Slot) {
    && Balanced(st.main, s) && Balanced(st.retry, s)
    && PipeBalanced(st, s)
    && OncePerSlot(st, s)
    && NeverUsed(st)
  }

  // ---------------------------------------------------------------- preservation

  lemma WholeStep(sd: Side, op: Op, s: Slot)
    requires Placed(sd) && Fits(sd, op)
    ensures TopicCount(Apply(sd, op).topic, Whole, s)
      == TopicCount(sd.topic, Whole, s) + (if op.Append? then From(op.r, s) else 0)
  {
    match op
    case Append(part, r) => AppendCounts(sd.topic, part, r, s);
    case Fetch(part) => FetchCounts(sd.topic, part, s);
    case Commit(_) => CommitCounts(sd.topic, sd.pc.at, s);
    case Reset => RewindCounts(sd.topic, Rewound(sd.topic), s);
    case _ =>
  }

  lemma ValidSlotsStep(sd: Side, op: Op, s: Slot)
    requires Placed(sd) && Fits(sd, op)
    ensures ValidSlot(Apply(sd, op).topic, s)
      <==> ValidSlot(sd.topic, s) || (op.Append? && s == Slot(op.part, |sd.topic[op.part].log|))
  {
  }

  lemma OncePerSlotStep(cfg: Config, st: State, l: Label, s: Slot)
    requires Placed(st.main) && OncePerSlot(st, s) && Enabled(cfg, st, l)
    ensures OncePerSlot(Next(cfg, st, l), s)
  {
    OpsFit(cfg, st, l);
    if MainOp(st, l).Some? {
      WholeStep(st.main, MainOp(st, l).value, s);
      ValidSlotsStep(st.main, MainOp(st, l).value, s);
    }
  }

  /** How much a label adds to a side's published count. */
  function PublishedBy(sd: Side, op: Option<Op>, s: Slot): nat {
    if op.Some? && op.value.Dispose? && op.value.fate.Published? && Holding(sd) then From(InHand(sd), s) else 0
  }

  lemma PublishedStep(sd: Side, op: Option<Op>, s: Slot)
    requires op.Some? ==> Fits(sd, op.value)
    ensures ApplyMaybe(sd, op).book.published[s] == sd.book.published[s] + PublishedBy(sd, op, s)
  {
  }

  lemma PipeCounts(cfg: Config, st: State, l: Label, s: Slot)
    requires Enabled(cfg, st, l)
    ensures var p, p' := st.pipe, NextPipe(cfg, st, l);
      p'.rejected[s] + p'.undelivered[s] + p'.crashLost[s] + CountIn(p'.inflight, s)
      == p.rejected[s] + p.undelivered[s] + p.crashLost[s] + CountIn(p.inflight, s)
         + PublishedBy(st.main, MainOp(st, l), s) + PublishedBy(st.retry, RetryOp(st, l), s)
         - (if l.Deliver? then From(st.pipe.inflight[l.i], s) else 0)
  {
    match l
    case MainPublish(accepted, now) => ProduceCounts(st.pipe, Outgoing(cfg, st, l).value, accepted, s);
    case RetryPublish(accepted, now) => ProduceCounts(st.pipe, Outgoing(cfg, st, l).value, accepted, s);
    case _ => BackgroundCounts(cfg, st, l, s);
  }

  lemma BackgroundCounts(cfg: Config, st: State, l: Label, s: Slot)
    requires Enabled(cfg, st, l) && !l.MainPublish? && !l.RetryPublish?
    ensures var p, p' := st.pipe, NextPipe(cfg, st, l);
      p'.rejected[s] + p'.undelivered[s] + p'.crashLost[s] + CountIn(p'.inflight, s)
        + (if l.Deliver? then From(st.pipe.inflight[l.i], s) else 0)
      == p.rejected[s] + p.undelivered[s] + p.crashLost[s] + CountIn(p.inflight, s)
  {
    match l
    case Deliver(i, _) => CountRemove(st.pipe.inflight, i, s);
    case DeliveryFails(i) => CountRemove(st.pipe.inflight, i, s);
    case Crash => SrcsCount(st.pipe.inflight, s);
    case _ =>
  }

  lemma ProduceCounts(pipe: Pipe, r: Record, accepted: bool, s: Slot)
    ensures var p' := Produce(pipe, r, accepted);
      && p'.rejected[s] + CountIn(p'.inflight, s) == pipe.rejected[s] + CountIn(pipe.inflight, s) + From(r, s)
      && p'.undelivered == pipe.undelivered && p'.crashLost == pipe.crashLost
  {
    CountConcat(pipe.inflight, [r], s);
    CountOne(r, s);
  }

  lemma PipeBalancedStep(cfg: Config, st: State, l: Label, s: Slot)
    requires Placed(st.retry) && PipeBalanced(st, s) && Enabled(cfg, st, l)
    ensures PipeBalanced(Next(cfg, st, l), s)
  {
    OpsFit(cfg, st, l);
    PipeCounts(cfg, st, l, s);
    PublishedStep(st.main, MainOp(st, l), s);
    PublishedStep(st.retry, RetryOp(st, l), s);
    if RetryOp(st, l).Some? {
      WholeStep(st.retry, RetryOp(st, l).value, s);
    }
  }

  lemma NeverUsedStep(cfg: Config, st: State, l: Label)
    requires Inv(cfg, st) && NeverUsed(st) && Enabled(cfg, st, l)
    ensures NeverUsed(Next(cfg, st, l))
  {
    OpsFit(cfg, st, l);
    RetryBranches(cfg, st);
  }

  lemma LedgerStep(cfg: Config, st: State, l: Label, s: Slot)
    requires Inv(cfg, st) && Ledger(st, s) && Enabled(cfg, st, l)
    ensures Ledger(Next(cfg, st, l), s)
  {
    OpsFit(cfg, st, l);
    OncePerSlotStep(cfg, st, l, s);
    PipeBalancedStep(cfg, st, l, s);
    NeverUsedStep(cfg, st, l);
    if MainOp(st, l).Some? {
      BalancedStep(st.main, MainOp(st, l).value, s);
    }
    if RetryOp(st, l).Some? {
      BalancedStep(st.retry, RetryOp(st, l).value, s);
    }
  }

  lemma {:induction false} EmptyCounts(t: Topic, span: Span, s: Slot)
    requires EmptyTopic(t)
    ensures TopicCount(t, span, s) == 0
  {
    if t != [] {
      EmptyCounts(t[1..], span, s);
    }
  }

  lemma InitLedger(st: State, s: Slot)
    requires Init(st)
    ensures Ledger(st, s)
  {
    EmptyCounts(st.main.topic, Whole, s);
    EmptyCounts(st.main.topic, Unread, s);
    EmptyCounts(st.retry.topic, Whole, s);
    EmptyCounts(st.retry.topic, Unread, s);
  }

  lemma {:induction false} LedgerAlways(cfg: Config, st: State, ls: seq<Label>, st': State, s: Slot)
    requires ValidConfig(cfg) && Inv(cfg, st) && Ledger(st, s) && Runs(cfg, st, ls, st')
    ensures Inv(cfg, st') && Ledger(st', s)
    decreases |ls|
  {
    if ls != [] {
      InvStep(cfg, st, ls[0]);
      LedgerStep(cfg, st, ls[0], s);
      LedgerAlways(cfg, Step(cfg, st, ls[0]).value, ls[1..], st', s);
    }
  }

  // ---------------------------------------------------------------- the law

  /** Conservation. In every run, with crashes, failed commits, refused and undelivered writes:
      each message of the events topic, plus the duplicates restarts added, is waiting somewhere,
      finished, or lost to a named fault; and duplicates are never negative. */
  lemma Conserved(cfg: Config, st: State, ls: seq<Label>, st': State, s: Slot)
    requires ValidConfig(cfg) && Init(st) && Runs(cfg, st, ls, st')
    ensures Duplicated(st', s) >= 0
    ensures (if ValidSlot(st'.main.topic, s) then 1 else 0) + Duplicated(st', s)
      == Waiting(st', s) + Finished(st', s) + Lost(st', s)
  {
    InitInv(cfg, st);
    InitLedger(st, s);
    LedgerAlways(cfg, st, ls, st', s);
  }

  /** Conservation of failures alone: what the main loop handed to the dead-letter queue, plus the
      retry loop's duplicates, equals what is in the pipe, pending, in hand, recovered, given up on
      or lost. */
  lemma FailuresConserved(cfg: Config, st: State, ls: seq<Label>, st': State, s: Slot)
    requires ValidConfig(cfg) && Init(st) && Runs(cfg, st, ls, st')
    ensures st'.main.book.published[s] as int + st'.retry.book.reread[s] - st'.retry.book.cut[s]
      == CountIn(st'.pipe.inflight, s) + TopicCount(st'.retry.topic, Unread, s) + InHandCount(st'.retry, s)
         + st'.retry.book.handled[s] + st'.retry.book.gaveUp[s] + Lost(st', s)
  {
    InitInv(cfg, st);
    InitLedger(st, s);
    LedgerAlways(cfg, st, ls, st', s);
  }

  /** "We never lose the message", exactly, in every run. Once nothing of a message is waiting any more, it was
      dealt with if and only if fewer copies of it were lost than there were, the message itself and those
      restarts added: lost by a refused write, by an undelivered one, or in the buffer of a process that died.
      Every surviving copy was dealt with once. */
  lemma DealtWithIffACopySurvived(cfg: Config, st: State, ls: seq<Label>, st': State, s: Slot)
    requires ValidConfig(cfg) && Init(st) && Runs(cfg, st, ls, st')
    requires ValidSlot(st'.main.topic, s) && Waiting(st', s) == 0
    ensures Finished(st', s) > 0 <==> Lost(st', s) < 1 + Duplicated(st', s)
    ensures Finished(st', s) == 1 + Duplicated(st', s) - Lost(st', s)
  {
    Conserved(cfg, st, ls, st', s);
  }

  // ---------------------------------------------------------------- crash-free runs

  /** Without a crash nothing is ever read twice. */
  predicate NoRereads(st: State) {
    st.crashes == 0 ==>
      && st.main.book.reread == multiset{} && st.main.book.cut == multiset{}
      && st.retry.book.reread == multiset{} && st.retry.book.cut == multiset{}
      && st.pipe.crashLost == multiset{}
  }

  lemma NoRereadsStep(cfg: Config, st: State, l: Label)
    requires NoRereads(st) && Enabled(cfg, st, l)
    ensures NoRereads(Next(cfg, st, l))
  {
    OpsFit(cfg, st, l);
  }

  lemma {:induction false} NoRereadsAlways(cfg: Config, st: State, ls: seq<Label>, st': State)
    requires NoRereads(st) && Runs(cfg, st, ls, st')
    ensures NoRereads(st')
    decreases |ls|
  {
    if ls != [] {
      NoRereadsStep(cfg, st, ls[0]);
      NoRereadsAlways(cfg, Step(cfg, st, ls[0]).value, ls[1..], st');
    }
  }

  /** ... so "never lose" comes down to the writes: in a crash-free run a message that waits nowhere any more
      was dealt with, once, if and only if no write of it to the dead-letter topic was refused or reported
      undelivered. */
  lemma DealtWithIffNoFaultyWrite(cfg: Config, st: State, ls: seq<Label>, st': State, s: Slot)
    requires ValidConfig(cfg) && Init(st) && Runs(cfg, st, ls, st') && st'.crashes == 0
    requires ValidSlot(st'.main.topic, s) && Waiting(st', s) == 0
    ensures Finished(st', s) == 1 <==> st'.pipe.rejected[s] == 0 && st'.pipe.undelivered[s] == 0
    ensures Finished(st', s) <= 1
  {
    Conserved(cfg, st, ls, st', s);
    NoRereadsAlways(cfg, st, ls, st');
  }

  // ---------------------------------------------------------------- a lost message

  const FIRST := Slot(0, 0)
  const EMPTY_SIDE := Side([Partition([], 0, 0)], Idle, BLANK)
  const EMPTY_PIPE := Pipe([], multiset{}, multiset{}, multiset{})

  /** One message: written, read, failed by the handler, refused by the DLQ producer, committed. */
  function LossLabels(msg: Message): seq<Label> {
    [Ingest(0, msg), MainRead(0), MainErr("llm: down"), MainPublish(false, "now"), MainCommit(true)]
  }

  function LossStates(msg: Message): seq<State> {
    var r := Record(msg, FIRST);
    var calls := [Call(FIRST, false)];
    var book := Entered(BLANK, FIRST, FIRST, Published(false));
    var refused := EMPTY_PIPE.(rejected := multiset{FIRST});
    [State(EMPTY_SIDE, EMPTY_SIDE, EMPTY_PIPE, [], 0),
     State(Side([Partition([r], 0, 0)], Idle, BLANK), EMPTY_SIDE, EMPTY_PIPE, [], 0),
     State(Side([Partition([r], 1, 0)], Pc.Read(FIRST), BLANK), EMPTY_SIDE, EMPTY_PIPE, [], 0),
     State(Side([Partition([r], 1, 0)], Failed(FIRST, "llm: down"), BLANK), EMPTY_SIDE, EMPTY_PIPE, calls, 0),
     State(Side([Partition([r], 1, 0)], Disposed(FIRST), book), EMPTY_SIDE, refused, calls, 0),
     State(Side([Partition([r], 1, 1)], Idle, book), EMPTY_SIDE, refused, calls, 0)]
  }

  lemma LossStep(cfg: Config, msg: Message, k: nat)
    requires k < 5 && cfg.parse(msg.value).Some?
    ensures Step(cfg, LossStates(msg)[k], LossLabels(msg)[k]) == Some(LossStates(msg)[k + 1])
  {
    var r := Record(msg, FIRST);
    assert [] + [r] == [r] && [] + [Call(FIRST, false)] == [Call(FIRST, false)];
    match k
    case 0 => assert Stored(EMPTY_SIDE.topic, 0, r) == [Partition([r], 0, 0)];
    case 1 => assert Advanced([Partition([r], 0, 0)], 0) == [Partition([r], 1, 0)];
    case 2 =>
    case 3 => assert multiset{} + multiset{FIRST} == multiset{FIRST};
    case 4 => assert CommittedPast([Partition([r], 1, 0)], FIRST) == [Partition([r], 1, 1)];
  }

  /** The documented promise fails: one refused write, and the message is committed, nowhere to be
      found, and never dealt with. */
  lemma RefusedWriteLosesMessage(cfg: Config, msg: Message)
    requires ValidConfig(cfg) && cfg.parse(msg.value).Some?
    ensures var st, st' := LossStates(msg)[0], LossStates(msg)[5];
      && Init(st) && Runs(cfg, st, LossLabels(msg), st') && st'.crashes == 0
      && ValidSlot(st'.main.topic, FIRST) && st'.main.topic[0].committed == 1
      && Waiting(st', FIRST) == 0 && Finished(st', FIRST) == 0 && Lost(st', FIRST) == 1
  {
    var st, st' := LossStates(msg)[0], LossStates(msg)[5];
    forall k: nat | k < 5 ensures Step(cfg, LossStates(msg)[k], LossLabels(msg)[k]) == Some(LossStates(msg)[k + 1]) {
      LossStep(cfg, msg, k);
    }
    RunsAlong(cfg, LossStates(msg), LossLabels(msg));
    LossCounts(msg);
  }

  lemma LossCounts(msg: Message)
    ensures var st' := LossStates(msg)[5]; Waiting(st', FIRST) == 0 && Finished(st', FIRST) == 0 && Lost(st', FIRST) == 1
  {
    var st' := LossStates(msg)[5];
    assert TopicCount(st'.main.topic, Unread, FIRST) == 0 by {
      assert Slice(st'.main.topic[0], Unread) == [] && st'.main.topic[1..] == [];
    }
    assert TopicCount(st'.retry.topic, Unread, FIRST) == 0 by {
      assert Slice(st'.retry.topic[0], Unread) == [] && st'.retry.topic[1..] == [];
    }
  }

  // ---------------------------------------------------------------- lost by a crash

  /** The same message, but the DLQ producer takes it, and the process dies before it is delivered. */
  function CrashLossLabels(msg: Message): seq<Label> {
    [Ingest(0, msg), MainRead(0), MainErr("llm: down"), MainPublish(true, "now"), MainCommit(true), Crash]
  }

  function CrashLossStates(cfg: Config, msg: Message): seq<State> {
    var r := Record(msg, FIRST);
    var calls, book := [Call(FIRST, false)], Entered(BLANK, FIRST, FIRST, Published(true));
    var queued := EMPTY_PIPE.(inflight := [ToDlq(cfg, r, "llm: down", "now")]);
    LossStates(msg)[..4] +
    [State(Side([Partition([r], 1, 0)], Disposed(FIRST), book), EMPTY_SIDE, queued, calls, 0),
     State(Side([Partition([r], 1, 1)], Idle, book), EMPTY_SIDE, queued, calls, 0),
     State(Side([Partition([r], 1, 1)], Idle, book), EMPTY_SIDE, EMPTY_PIPE.(crashLost := multiset{FIRST}), calls, 1)]
  }

  lemma QueuedAndCommitted(cfg: Config, msg: Message, k: nat)
    requires 3 <= k < 5 && cfg.parse(msg.value).Some?
    ensures Step(cfg, CrashLossStates(cfg, msg)[k], CrashLossLabels(msg)[k]) == Some(CrashLossStates(cfg, msg)[k + 1])
  {
    var r := Record(msg, FIRST);
    var q := ToDlq(cfg, r, "llm: down", "now");
    assert [] + [q] == [q];
    assert CommittedPast([Partition([r], 1, 0)], FIRST) == [Partition([r], 1, 1)];
  }

  /** Where everything read is committed a restart rewinds nothing. */
  lemma NothingRewound(p: Partition, book: Book)
    requires p.pos == p.committed
    ensures Apply(Side([p], Idle, book), Reset) == Side([p], Idle, book)
  {
    assert Rewound([p]) == [p];
    assert TopicSrcs([p], Uncommitted) == multiset{} by {
      assert [p][1..] == [] && Slice(p, Uncommitted) == [];
    }
    assert book.reread + multiset{} == book.reread && book.cut + multiset{} == book.cut;
  }

  lemma BufferDies(cfg: Config, msg: Message)
    ensures Step(cfg, CrashLossStates(cfg, msg)[5], Crash) == Some(CrashLossStates(cfg, msg)[6])
  {
    var r := Record(msg, FIRST);
    var q := ToDlq(cfg, r, "llm: down", "now");
    NothingRewound(Partition([r], 1, 1), Entered(BLANK, FIRST, FIRST, Published(true)));
    NothingRewound(Partition([], 0, 0), BLANK);
    assert SrcsOf([q]) == multiset{FIRST} by {
      assert [q][1..] == [];
    }
    assert multiset{} + multiset{FIRST} == multiset{FIRST};
    CrashIs(cfg, CrashLossStates(cfg, msg)[5]);
  }

  /** The promise fails without any faulty write, too: the write was accepted, the offset committed, and the
      message died in the producer's buffer. */
  lemma CrashLosesMessage(cfg: Config, msg: Message)
    requires ValidConfig(cfg) && cfg.parse(msg.value).Some?
    ensures var st, st' := CrashLossStates(cfg, msg)[0], CrashLossStates(cfg, msg)[6];
      && Init(st) && Runs(cfg, st, CrashLossLabels(msg), st') && st'.main.topic[0].committed == 1
      && st'.pipe.rejected == multiset{} && st'.pipe.undelivered == multiset{}
      && ValidSlot(st'.main.topic, FIRST) && Waiting(st', FIRST) == 0 && Finished(st', FIRST) == 0
      && Lost(st', FIRST) == 1 && Duplicated(st', FIRST) == 0
  {
    var ss, ls := CrashLossStates(cfg, msg), CrashLossLabels(msg);
    forall k: nat | k < 6 ensures Step(cfg, ss[k], ls[k]) == Some(ss[k + 1]) {
      if k < 3 {
        LossStep(cfg, msg, k);
      } else if k < 5 {
        QueuedAndCommitted(cfg, msg, k);
      } else {
        BufferDies(cfg, msg);
      }
    }
    RunsAlong(cfg, ss, ls);
    CrashLossCounts(cfg, msg);
  }

  lemma CrashLossCounts(cfg: Config, msg: Message)
    ensures var st' := CrashLossStates(cfg, msg)[6];
      Waiting(st', FIRST) == 0 && Finished(st', FIRST) == 0 && Lost(st', FIRST) == 1 && Duplicated(st', FIRST) == 0
  {
    var r, book := Record(msg, FIRST), Entered(BLANK, FIRST, FIRST, Published(true));
    var st' := State(Side([Partition([r], 1, 1)], Idle, book), EMPTY_SIDE, EMPTY_PIPE.(crashLost := multiset{FIRST}),
      [Call(FIRST, false)], 1);
    assert CrashLossStates(cfg, msg)[6] == st';
    assert TopicCount(st'.main.topic, Unread, FIRST) == 0 by {
      assert Slice(st'.main.topic[0], Unread) == [] && st'.main.topic[1..] == [];
    }
    assert TopicCount(st'.retry.topic, Unread, FIRST) == 0 by {
      assert Slice(st'.retry.topic[0], Unread) == [] && st'.retry.topic[1..] == [];
    }
  }
}
