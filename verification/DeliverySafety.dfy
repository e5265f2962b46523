/** What every reachable state of the delivery protocol satisfies, under every interleaving and
    every fault: offsets stay ordered, DLQ messages keep their provenance, and nothing below a
    committed offset was left undecided. */
module DeliverySafety {
  import opened Wrappers
  import opened Headers
  import opened Kafka
  import opened Delivery

  // ---------------------------------------------------------------- provenance

  /** The record's source is an events-topic message with the same key and value, and the headers
      are ones this worker wrote. */
  predicate Provenance(cfg: Config, events: Topic, r: Record) {
    && ValidSlot(events, r.src)
    && r.msg.key == RecordAt(events, r.src).msg.key
    && r.msg.value == RecordAt(events, r.src).msg.value
    && Parses(cfg, r)
    && 0 <= RetryCount(r) <= Budget(cfg)
    && Lookup(r.msg.headers, ORIGINAL_TOPIC) == Some(cfg.eventsTopic)
    && Lookup(r.msg.headers, FAILED_AT).Some?
    && Occurrences(r.msg.headers, RETRY_COUNT) == 1
  }

  ghost predicate SelfSourced(t: Topic) {
    forall p, o :: 0 <= p < |t| && 0 <= o < |t[p].log| ==> t[p].log[o].src == Slot(p, o)
  }

  ghost predicate TopicProvenance(cfg: Config, events: Topic, t: Topic) {
    forall p, o :: 0 <= p < |t| && 0 <= o < |t[p].log| ==> Provenance(cfg, events, t[p].log[o])
  }

  ghost predicate PipeProvenance(cfg: Config, events: Topic, rs: seq<Record>) {
    forall i :: 0 <= i < |rs| ==> Provenance(cfg, events, rs[i])
  }

  /** A loop only reaches its later stages with a message that earned it. */
  predicate MainStage(cfg: Config, sd: Side) {
    && !sd.pc.Ready? && !sd.pc.Stopped?
    && (sd.pc.Failed? && Holding(sd) ==> Parses(cfg, InHand(sd)))
  }

  predicate RetryStage(cfg: Config, sd: Side) {
    (sd.pc.Ready? || sd.pc.Failed? || sd.pc.Stopped?) && Holding(sd) ==> RetryCount(InHand(sd)) < cfg.maxRetry
  }

  // ---------------------------------------------------------------- truthful fates

  /** The recorded fate agrees with the message it was given to. */
  predicate MainFateTrue(cfg: Config, r: Record, fate: Fate) {
    match fate
    case Unparseable => !Parses(cfg, r)
    case Handled => Parses(cfg, r)
    case Published(_) => Parses(cfg, r)
    case GaveUp => false
  }

  predicate RetryFateTrue(cfg: Config, r: Record, fate: Fate) {
    match fate
    case Unparseable => !Parses(cfg, r)
    case Handled => RetryCount(r) < cfg.maxRetry
    case Published(_) => RetryCount(r) < cfg.maxRetry
    case GaveUp => RetryCount(r) >= cfg.maxRetry
  }

  ghost predicate MainFatesTrue(cfg: Config, sd: Side) {
    forall at :: at in sd.book.fates ==>
      ValidSlot(sd.topic, at) && MainFateTrue(cfg, RecordAt(sd.topic, at), sd.book.fates[at])
  }

  ghost predicate RetryFatesTrue(cfg: Config, sd: Side) {
    forall at :: at in sd.book.fates ==>
      ValidSlot(sd.topic, at) && RetryFateTrue(cfg, RecordAt(sd.topic, at), sd.book.fates[at])
  }

  ghost predicate Inv(cfg: Config, st: State) {
    && Placed(st.main) && Placed(st.retry)
    && Settled(st.main) && Settled(st.retry)
    && SelfSourced(st.main.topic)
    && TopicProvenance(cfg, st.main.topic, st.retry.topic)
    && PipeProvenance(cfg, st.main.topic, st.pipe.inflight)
    && MainStage(cfg, st.main) && RetryStage(cfg, st.retry)
    && MainFatesTrue(cfg, st.main) && RetryFatesTrue(cfg, st.retry)
  }

  // ---------------------------------------------------------------- preservation

  /** Provenance survives anything that happens to the events topic. */
  lemma ProvenanceStays(cfg: Config, events: Topic, events': Topic, r: Record)
    requires Extends(events, events') && Provenance(cfg, events, r)
    ensures Provenance(cfg, events', r)
  {
    assert events[r.src.part].log <= events'[r.src.part].log;
  }

  /** q is r on its way to the dead-letter topic for the first time: same key, value and source; count 0, the
      error, the topic it came from and the time, each under its own name. */
  predicate Handover(cfg: Config, r: Record, error: string, now: string, q: Record) {
    && q.src == r.src && q.msg.key == r.msg.key && q.msg.value == r.msg.value
    && RetryCount(q) == 0
    && Lookup(q.msg.headers, "error") == Some(error)
    && Lookup(q.msg.headers, "original-topic") == Some(cfg.eventsTopic)
    && Lookup(q.msg.headers, "failed-at") == Some(now)
    && |q.msg.headers| == 4
  }

  /** q is r put back after another failure: one more in the count, the new error and time, every other
      header as it was. */
  predicate Requeue(r: Record, error: string, now: string, q: Record) {
    && q.src == r.src && q.msg.key == r.msg.key && q.msg.value == r.msg.value
    && RetryCount(q) == RetryCount(r) + 1
    && Lookup(q.msg.headers, "error") == Some(error)
    && Lookup(q.msg.headers, "last-retry-at") == Some(now)
    && Kept(q.msg.headers) == Kept(r.msg.headers)
  }

  lemma HandoverIs(cfg: Config, r: Record, error: string, now: string)
    ensures Handover(cfg, r, error, now, ToDlq(cfg, r, error, now))
  {
    var hs := DlqHeaders(cfg, error, now);
    assert FormatInt(0) == "0";
    ScanUndoesFormat(0);
    assert hs[1..] == [hs[1], hs[2], hs[3]] && hs[1..][1..] == [hs[2], hs[3]] && hs[1..][1..][1..] == [hs[3]];
    assert Lookup([hs[3]], FAILED_AT) == Some(now);
    assert Lookup([hs[2], hs[3]], FAILED_AT) == Lookup([hs[3]], FAILED_AT);
    assert Lookup(hs[1..], FAILED_AT) == Lookup([hs[2], hs[3]], FAILED_AT);
    assert Lookup([hs[2], hs[3]], ORIGINAL_TOPIC) == Some(cfg.eventsTopic);
    assert Lookup(hs[1..], ORIGINAL_TOPIC) == Lookup([hs[2], hs[3]], ORIGINAL_TOPIC);
    assert Lookup(hs[1..], ERROR) == Some(error);
  }

  lemma RequeueIs(cfg: Config, r: Record, error: string, now: string)
    requires ValidConfig(cfg) && RetryCount(r) < cfg.maxRetry
    ensures Requeue(r, error, now, Requeued(r, error, now))
  {
    var n := RetryCount(r) + 1;
    RetryCountRange(r.msg.headers, RETRY_COUNT);
    RetryCountRoundTrip(r.msg.headers, n, error, now);
    MergeRecords(r.msg.headers, n, error, now);
    MergeShape(r.msg.headers, n, error, now, RETRY_COUNT);
  }

  lemma RetryCountRange(hs: seq<Header>, key: string)
    ensures MIN_INT <= HeaderInt(hs, key) <= MAX_INT
  {
  }

  /** A message the main loop hands over starts its chain at count 0. */
  lemma HandoverProvenance(cfg: Config, sd: Side, error: string, now: string)
    requires SelfSourced(sd.topic) && Holding(sd) && Parses(cfg, InHand(sd))
    ensures var r := ToDlq(cfg, InHand(sd), error, now);
      Provenance(cfg, sd.topic, r) && RetryCount(r) == 0
    ensures Handover(cfg, InHand(sd), error, now, ToDlq(cfg, InHand(sd), error, now))
  {
    HandoverIs(cfg, InHand(sd), error, now);
    var hs := DlqHeaders(cfg, error, now);
    assert FormatInt(0) == "0";
    ScanUndoesFormat(0);
    assert hs[1..][1..][1..] == [hs[3]] && hs[1..][1..] == [hs[2], hs[3]] && hs[1..] == [hs[1], hs[2], hs[3]];
    assert Lookup([hs[3]], FAILED_AT).Some?;
    assert Lookup(hs[1..], FAILED_AT) == Lookup([hs[2], hs[3]], FAILED_AT);
    assert Lookup(hs[1..], ORIGINAL_TOPIC) == Lookup([hs[2], hs[3]], ORIGINAL_TOPIC);
    assert Occurrences([hs[3]], RETRY_COUNT) == 0;
    assert Occurrences([hs[2], hs[3]], RETRY_COUNT) == 0;
    assert Occurrences(hs[1..], RETRY_COUNT) == 0;
  }

  /** A re-queued message keeps its provenance and counts one more. */
  lemma RequeueProvenance(cfg: Config, events: Topic, r: Record, error: string, now: string)
    requires ValidConfig(cfg) && Provenance(cfg, events, r) && RetryCount(r) < cfg.maxRetry
    ensures Provenance(cfg, events, Requeued(r, error, now))
    ensures RetryCount(Requeued(r, error, now)) == RetryCount(r) + 1
    ensures Requeue(r, error, now, Requeued(r, error, now))
    ensures Kept(Requeued(r, error, now).msg.headers) == Kept(r.msg.headers)
  {
    RequeueIs(cfg, r, error, now);
    var hs, n := r.msg.headers, RetryCount(r) + 1;
    RetryCountRoundTrip(hs, n, error, now);
    MergeShape(hs, n, error, now, ORIGINAL_TOPIC);
    MergeShape(hs, n, error, now, FAILED_AT);
    MergeShape(hs, n, error, now, RETRY_COUNT);
  }

  lemma SidesStep(cfg: Config, st: State, l: Label)
    requires Placed(st.main) && Placed(st.retry) && Settled(st.main) && Settled(st.retry) && Enabled(cfg, st, l)
    ensures var st' := Next(cfg, st, l);
      && Placed(st'.main) && Placed(st'.retry) && Settled(st'.main) && Settled(st'.retry)
      && Extends(st.main.topic, st'.main.topic) && Extends(st.retry.topic, st'.retry.topic)
      && CommitsForward(st.main.topic, st'.main.topic) && CommitsForward(st.retry.topic, st'.retry.topic)
  {
    OpsFit(cfg, st, l);
    if MainOp(st, l).Some? {
      PlacedStep(st.main, MainOp(st, l).value);
      SettledStep(st.main, MainOp(st, l).value);
    }
    if RetryOp(st, l).Some? {
      PlacedStep(st.retry, RetryOp(st, l).value);
      SettledStep(st.retry, RetryOp(st, l).value);
    }
  }

  lemma SelfSourcedStep(cfg: Config, st: State, l: Label)
    requires SelfSourced(st.main.topic) && Enabled(cfg, st, l)
    ensures SelfSourced(Next(cfg, st, l).main.topic)
  {
    OpsFit(cfg, st, l);
  }

  /** The message a producer is handed has provenance. */
  lemma OutgoingProvenance(cfg: Config, st: State, l: Label)
    requires ValidConfig(cfg) && Enabled(cfg, st, l) && Outgoing(cfg, st, l).Some?
    requires SelfSourced(st.main.topic) && TopicProvenance(cfg, st.main.topic, st.retry.topic)
    requires MainStage(cfg, st.main) && RetryStage(cfg, st.retry)
    ensures Provenance(cfg, st.main.topic, Outgoing(cfg, st, l).value)
    ensures RetryCount(Outgoing(cfg, st, l).value) == if l.MainPublish? then 0 else RetryCount(InHand(st.retry)) + 1
  {
    if l.MainPublish? {
      HandoverProvenance(cfg, st.main, st.main.pc.error, l.now);
    } else {
      RequeueProvenance(cfg, st.main.topic, InHand(st.retry), st.retry.pc.error, l.now);
    }
  }

  lemma PipeStep(cfg: Config, st: State, l: Label, events': Topic)
    requires Enabled(cfg, st, l) && PipeProvenance(cfg, st.main.topic, st.pipe.inflight)
    requires Extends(st.main.topic, events')
    requires Outgoing(cfg, st, l).Some? ==> Provenance(cfg, st.main.topic, Outgoing(cfg, st, l).value)
    ensures PipeProvenance(cfg, events', NextPipe(cfg, st, l).inflight)
  {
    var rs := NextPipe(cfg, st, l).inflight;
    forall i | 0 <= i < |rs| ensures Provenance(cfg, events', rs[i]) {
      assert rs[i] in st.pipe.inflight || (Outgoing(cfg, st, l).Some? && rs[i] == Outgoing(cfg, st, l).value);
      ProvenanceStays(cfg, st.main.topic, events', rs[i]);
    }
  }

  /** Records only enter the DLQ topic through a producer. */
  lemma DlqGrowth(cfg: Config, st: State, l: Label)
    requires Enabled(cfg, st, l)
    ensures var t, t' := st.retry.topic, Next(cfg, st, l).retry.topic;
      |t'| == |t| && forall p :: 0 <= p < |t| ==>
        t'[p].log == t[p].log || (l.Deliver? && t'[p].log == t[p].log + [st.pipe.inflight[l.i]])
  {
    OpsFit(cfg, st, l);
  }

  lemma DlqStep(cfg: Config, st: State, l: Label, events': Topic)
    requires Enabled(cfg, st, l) && Extends(st.main.topic, events')
    requires PipeProvenance(cfg, st.main.topic, st.pipe.inflight)
    requires TopicProvenance(cfg, st.main.topic, st.retry.topic)
    ensures TopicProvenance(cfg, events', Next(cfg, st, l).retry.topic)
  {
    DlqGrowth(cfg, st, l);
    var t, t' := st.retry.topic, Next(cfg, st, l).retry.topic;
    forall p, o | 0 <= p < |t'| && 0 <= o < |t'[p].log| ensures Provenance(cfg, events', t'[p].log[o]) {
      assert o < |t[p].log| ==> t'[p].log[o] == t[p].log[o];
      ProvenanceStays(cfg, st.main.topic, events', t'[p].log[o]);
    }
  }

  lemma MainStageStep(cfg: Config, st: State, l: Label)
    requires Placed(st.main) && MainStage(cfg, st.main) && Enabled(cfg, st, l)
    ensures MainStage(cfg, Next(cfg, st, l).main)
  {
    OpsFit(cfg, st, l);
  }

  lemma RetryStageStep(cfg: Config, st: State, l: Label)
    requires Placed(st.retry) && RetryStage(cfg, st.retry) && Enabled(cfg, st, l)
    ensures RetryStage(cfg, Next(cfg, st, l).retry)
  {
    OpsFit(cfg, st, l);
  }

  /** A step adds at most one fate, for the message in hand. */
  lemma FateAdded(sd: Side, op: Op)
    requires Fits(sd, op)
    ensures Apply(sd, op).book.fates == if op.Dispose? then sd.book.fates[sd.pc.at := op.fate] else sd.book.fates
  {
  }

  lemma MainFatesStep(cfg: Config, st: State, l: Label)
    requires Placed(st.main) && MainStage(cfg, st.main) && MainFatesTrue(cfg, st.main) && Enabled(cfg, st, l)
    ensures MainFatesTrue(cfg, Next(cfg, st, l).main)
  {
    OpsFit(cfg, st, l);
    var sd := st.main;
    if MainOp(st, l).Some? {
      var op := MainOp(st, l).value;
      var sd' := Apply(sd, op);
      PlacedStep(sd, op);
      FateAdded(sd, op);
      assert op.Dispose? ==> MainFateTrue(cfg, InHand(sd), op.fate);
      forall at | at in sd'.book.fates
        ensures ValidSlot(sd'.topic, at) && MainFateTrue(cfg, RecordAt(sd'.topic, at), sd'.book.fates[at])
      {
        assert sd.topic[at.part].log <= sd'.topic[at.part].log;
      }
    }
  }

  lemma RetryFatesStep(cfg: Config, st: State, l: Label)
    requires Placed(st.retry) && RetryStage(cfg, st.retry) && RetryFatesTrue(cfg, st.retry) && Enabled(cfg, st, l)
    ensures RetryFatesTrue(cfg, Next(cfg, st, l).retry)
  {
    OpsFit(cfg, st, l);
    var sd := st.retry;
    if RetryOp(st, l).Some? {
      var op := RetryOp(st, l).value;
      var sd' := Apply(sd, op);
      PlacedStep(sd, op);
      FateAdded(sd, op);
      assert op.Dispose? ==> RetryFateTrue(cfg, InHand(sd), op.fate);
      forall at | at in sd'.book.fates
        ensures ValidSlot(sd'.topic, at) && RetryFateTrue(cfg, RecordAt(sd'.topic, at), sd'.book.fates[at])
      {
        assert sd.topic[at.part].log <= sd'.topic[at.part].log;
      }
    }
  }

  lemma InitInv(cfg: Config, st: State)
    requires Init(st)
    ensures Inv(cfg, st)
  {
  }

  lemma InvStep(cfg: Config, st: State, l: Label)
    requires ValidConfig(cfg) && Inv(cfg, st) && Enabled(cfg, st, l)
    ensures Inv(cfg, Next(cfg, st, l))
  {
    var st' := Next(cfg, st, l);
    SidesStep(cfg, st, l);
    SelfSourcedStep(cfg, st, l);
    if Outgoing(cfg, st, l).Some? {
      OutgoingProvenance(cfg, st, l);
    }
    PipeStep(cfg, st, l, st'.main.topic);
    DlqStep(cfg, st, l, st'.main.topic);
    MainStageStep(cfg, st, l);
    RetryStageStep(cfg, st, l);
    MainFatesStep(cfg, st, l);
    RetryFatesStep(cfg, st, l);
  }

  /** The invariant holds along every run, under every interleaving and every fault. */
  lemma {:induction false} InvAlways(cfg: Config, s: State, ls: seq<Label>, s': State)
    requires ValidConfig(cfg) && Inv(cfg, s) && Runs(cfg, s, ls, s')
    ensures Inv(cfg, s')
    ensures CommitsForward(s.main.topic, s'.main.topic) && CommitsForward(s.retry.topic, s'.retry.topic)
    decreases |ls|
  {
    if ls != [] {
      InvStep(cfg, s, ls[0]);
      SidesStep(cfg, s, ls[0]);
      InvAlways(cfg, Next(cfg, s, ls[0]), ls[1..], s');
    }
  }

  // ---------------------------------------------------------------- consequences

  /** Committed-prefix safety: whatever lies below a committed offset was dealt with, and dealt
      with truthfully; the committed offset never passes the read position. */
  lemma CommittedWasDisposed(cfg: Config, s: State, ls: seq<Label>, s': State, at: Slot)
    requires ValidConfig(cfg) && Init(s) && Runs(cfg, s, ls, s')
    ensures at.part < |s'.main.topic| && at.offset < s'.main.topic[at.part].committed ==>
      && s'.main.topic[at.part].committed <= s'.main.topic[at.part].pos
      && ValidSlot(s'.main.topic, at) && at in s'.main.book.fates
      && MainFateTrue(cfg, RecordAt(s'.main.topic, at), s'.main.book.fates[at])
    ensures at.part < |s'.retry.topic| && at.offset < s'.retry.topic[at.part].committed ==>
      && s'.retry.topic[at.part].committed <= s'.retry.topic[at.part].pos
      && ValidSlot(s'.retry.topic, at) && at in s'.retry.book.fates
      && RetryFateTrue(cfg, RecordAt(s'.retry.topic, at), s'.retry.book.fates[at])
  {
    InitInv(cfg, s);
    InvAlways(cfg, s, ls, s');
  }

  /** In a reachable state the retry loop never meets a message it cannot parse, and never shifts
      by a negative count. */
  lemma RetryBranches(cfg: Config, st: State)
    requires Inv(cfg, st)
    ensures !Enabled(cfg, st, RetryDiscard)
    ensures Enabled(cfg, st, RetryWaited) ==> 0 <= RetryCount(InHand(st.retry)) < cfg.maxRetry
  {
    if Holding(st.retry) {
      assert Provenance(cfg, st.main.topic, InHand(st.retry));
    }
  }

  /** Every message in the dead-letter topic descends from an events-topic message, unchanged in key
      and value, with a retry count in range; so the retry loop's discard branch is never taken and
      the count it shifts by is never negative. */
  lemma DlqProvenance(cfg: Config, s: State, ls: seq<Label>, s': State, at: Slot)
    requires ValidConfig(cfg) && Init(s) && Runs(cfg, s, ls, s')
    ensures ValidSlot(s'.retry.topic, at) ==> Provenance(cfg, s'.main.topic, RecordAt(s'.retry.topic, at))
    ensures !Enabled(cfg, s', RetryDiscard)
    ensures Enabled(cfg, s', RetryWaited) ==> 0 <= RetryCount(InHand(s'.retry)) < cfg.maxRetry
  {
    InitInv(cfg, s);
    InvAlways(cfg, s, ls, s');
    RetryBranches(cfg, s');
    if ValidSlot(s'.retry.topic, at) {
      DlqRecord(cfg, s', at);
    }
  }

  lemma DlqRecord(cfg: Config, st: State, at: Slot)
    requires Inv(cfg, st) && ValidSlot(st.retry.topic, at)
    ensures Provenance(cfg, st.main.topic, RecordAt(st.retry.topic, at))
  {
  }
}
