/** The delivery protocol of the worker: the main loop over the events topic and the retry loop over
    the dead-letter topic, for an arbitrary handler
    (internal/messaging/consumer.go, internal/messaging/dlq.go).

    Every label is one atomic step of a loop, of the producers' background delivery or of the
    outside world, or a fault. Runs interleave them in any order. */
module Delivery {
  import opened Wrappers
  import opened Headers
  import opened Events
  import opened Kafka

  datatype Config = Config(parse: string -> Option<Event>, maxRetry: int, eventsTopic: string)

  predicate ValidConfig(cfg: Config) {
    MIN_INT <= cfg.maxRetry <= MAX_INT
  }

  /** Retries a message can get; a negative limit gives none. */
  function Budget(cfg: Config): nat {
    if cfg.maxRetry < 0 then 0 else cfg.maxRetry
  }

  predicate Parses(cfg: Config, r: Record) {
    cfg.parse(r.msg.value).Some?
  }

  function RetryCount(r: Record): int {
    HeaderInt(r.msg.headers, RETRY_COUNT)
  }

  // ---------------------------------------------------------------- state

  /** What the producers did with the messages handed to them. */
  datatype Pipe = Pipe(
    inflight: seq<Record>,         // accepted, not in the DLQ topic yet
    rejected: multiset<Slot>,      // Produce returned an error
    undelivered: multiset<Slot>,   // accepted, then a negative delivery report
    crashLost: multiset<Slot>)     // still buffered when the process died

  /** A handler call that returned. */
  datatype Call = Call(src: Slot, ok: bool)

  datatype State = State(main: Side, retry: Side, pipe: Pipe, calls: seq<Call>, crashes: nat)

  predicate Init(st: State) {
    && EmptyTopic(st.main.topic) && st.main.pc == Idle && st.main.book == BLANK
    && EmptyTopic(st.retry.topic) && st.retry.pc == Idle && st.retry.book == BLANK
    && st.pipe == Pipe([], multiset{}, multiset{}, multiset{})
    && st.calls == [] && st.crashes == 0
  }

  // ---------------------------------------------------------------- steps

  datatype Label =
    | Ingest(part: nat, msg: Message)   // the outside world writes to the events topic
    | MainRead(part: nat)
    | MainSkip                          // not an event
    | MainOk
    | MainErr(error: string)
    | MainPublish(accepted: bool, now: string)
    | MainCommit(stored: bool)
    | RetryRead(part: nat)
    | RetryGiveUp                       // retry budget used up: permanent-failure callback
    | RetryWaited
    | RetryCancel
    | RetryDiscard                      // not an event
    | RetryOk
    | RetryErr(error: string)
    | RetryPublish(accepted: bool, now: string)
    | RetryCommit(stored: bool)
    | Deliver(i: nat, part: nat)
    | DeliveryFails(i: nat)
    | Crash

  predicate Enabled(cfg: Config, st: State, l: Label) {
    var m, r := st.main, st.retry;
    match l
    case Ingest(part, _) => part < |m.topic|
    case MainRead(part) => m.pc.Idle? && HasUnread(m.topic, part)
    case MainSkip => m.pc.Read? && Holding(m) && !Parses(cfg, InHand(m))
    case MainOk => m.pc.Read? && Holding(m) && Parses(cfg, InHand(m))
    case MainErr(_) => m.pc.Read? && Holding(m) && Parses(cfg, InHand(m))
    case MainPublish(_, _) => m.pc.Failed? && Holding(m)
    case MainCommit(_) => m.pc.Disposed? && Holding(m)
    case RetryRead(part) => r.pc.Idle? && HasUnread(r.topic, part)
    case RetryGiveUp => r.pc.Read? && Holding(r) && RetryCount(InHand(r)) >= cfg.maxRetry
    case RetryWaited => r.pc.Read? && Holding(r) && RetryCount(InHand(r)) < cfg.maxRetry
    case RetryCancel => r.pc.Read? && Holding(r) && RetryCount(InHand(r)) < cfg.maxRetry
    case RetryDiscard => r.pc.Ready? && Holding(r) && !Parses(cfg, InHand(r))
    case RetryOk => r.pc.Ready? && Holding(r) && Parses(cfg, InHand(r))
    case RetryErr(_) => r.pc.Ready? && Holding(r) && Parses(cfg, InHand(r))
    case RetryPublish(_, _) => r.pc.Failed? && Holding(r)
    case RetryCommit(_) => r.pc.Disposed? && Holding(r)
    case Deliver(i, part) => i < |st.pipe.inflight| && part < |r.topic|
    case DeliveryFails(i) => i < |st.pipe.inflight|
    case Crash => true
  }

  /** What a label does to the events side. */
  function MainOp(st: State, l: Label): Option<Op> {
    match l
    case Ingest(part, msg) =>
      if part < |st.main.topic| then Some(Append(part, Record(msg, Slot(part, |st.main.topic[part].log|)))) else None
    case MainRead(part) => Some(Fetch(part))
    case MainSkip => Some(Dispose(Unparseable))
    case MainOk => Some(Dispose(Handled))
    case MainErr(error) => Some(Fail(error))
    case MainPublish(accepted, _) => Some(Dispose(Published(accepted)))
    case MainCommit(stored) => Some(Commit(stored))
    case Crash => Some(Reset)
    case _ => None
  }

  /** What a label does to the dead-letter side. */
  function RetryOp(st: State, l: Label): Option<Op> {
    match l
    case RetryRead(part) => Some(Fetch(part))
    case RetryGiveUp => Some(Dispose(GaveUp))
    case RetryWaited => Some(Wait)
    case RetryCancel => Some(Cancel)
    case RetryDiscard => Some(Dispose(Unparseable))
    case RetryOk => Some(Dispose(Handled))
    case RetryErr(error) => Some(Fail(error))
    case RetryPublish(accepted, _) => Some(Dispose(Published(accepted)))
    case RetryCommit(stored) => Some(Commit(stored))
    case Deliver(i, part) => if i < |st.pipe.inflight| then Some(Append(part, st.pipe.inflight[i])) else None
    case Crash => Some(Reset)
    case _ => None
  }

  function ApplyMaybe(sd: Side, op: Option<Op>): Side
    requires op.Some? ==> Fits(sd, op.value)
  {
    if op.Some? then Apply(sd, op.value) else sd
  }

  /** The headers the main loop attaches to a message it hands to the DLQ. */
  function DlqHeaders(cfg: Config, error: string, now: string): seq<Header> {
    [Header(RETRY_COUNT, "0"), Header(ERROR, error), Header(ORIGINAL_TOPIC, cfg.eventsTopic), Header(FAILED_AT, now)]
  }

  function ToDlq(cfg: Config, r: Record, error: string, now: string): Record {
    r.(msg := r.msg.(headers := DlqHeaders(cfg, error, now)))
  }

  function Requeued(r: Record, error: string, now: string): Record {
    r.(msg := r.msg.(headers := MergeHeaders(r.msg.headers, RetryCount(r) + 1, error, now)))
  }

  /** Produce: queued in the client's buffer, or refused on the spot. */
  function Produce(pipe: Pipe, r: Record, accepted: bool): Pipe {
    if accepted then pipe.(inflight := pipe.inflight + [r])
    else pipe.(rejected := pipe.rejected + multiset{r.src})
  }

  function Without(rs: seq<Record>, i: nat): seq<Record>
    requires i < |rs|
  {
    rs[..i] + rs[i + 1..]
  }

  /** The message a publish label hands to a producer. */
  function Outgoing(cfg: Config, st: State, l: Label): Option<Record>
    requires Enabled(cfg, st, l)
  {
    match l
    case MainPublish(_, now) => Some(ToDlq(cfg, InHand(st.main), st.main.pc.error, now))
    case RetryPublish(_, now) => Some(Requeued(InHand(st.retry), st.retry.pc.error, now))
    case _ => None
  }

  function NextPipe(cfg: Config, st: State, l: Label): Pipe
    requires Enabled(cfg, st, l)
  {
    var pipe := st.pipe;
    match l
    case MainPublish(accepted, _) => Produce(pipe, Outgoing(cfg, st, l).value, accepted)
    case RetryPublish(accepted, _) => Produce(pipe, Outgoing(cfg, st, l).value, accepted)
    case Deliver(i, _) => pipe.(inflight := Without(pipe.inflight, i))
    case DeliveryFails(i) =>
      pipe.(inflight := Without(pipe.inflight, i), undelivered := pipe.undelivered + multiset{pipe.inflight[i].src})
    case Crash => pipe.(inflight := [], crashLost := pipe.crashLost + SrcsOf(pipe.inflight))
    case _ => pipe
  }

  /** The handler call a label completes. */
  function CallOf(st: State, l: Label): Option<Call> {
    match l
    case MainOk => if Holding(st.main) then Some(Call(InHand(st.main).src, true)) else None
    case MainErr(_) => if Holding(st.main) then Some(Call(InHand(st.main).src, false)) else None
    case RetryOk => if Holding(st.retry) then Some(Call(InHand(st.retry).src, true)) else None
    case RetryErr(_) => if Holding(st.retry) then Some(Call(InHand(st.retry).src, false)) else None
    case _ => None
  }

  lemma OpsFit(cfg: Config, st: State, l: Label)
    requires Enabled(cfg, st, l)
    ensures MainOp(st, l).Some? ==> Fits(st.main, MainOp(st, l).value)
    ensures RetryOp(st, l).Some? ==> Fits(st.retry, RetryOp(st, l).value)
  {
  }

  function Next(cfg: Config, st: State, l: Label): State
    requires Enabled(cfg, st, l)
  {
    OpsFit(cfg, st, l);
    State(
      ApplyMaybe(st.main, MainOp(st, l)),
      ApplyMaybe(st.retry, RetryOp(st, l)),
      NextPipe(cfg, st, l),
      if CallOf(st, l).Some? then st.calls + [CallOf(st, l).value] else st.calls,
      if l.Crash? then st.crashes + 1 else st.crashes)
  }

  function Step(cfg: Config, st: State, l: Label): Option<State> {
    if Enabled(cfg, st, l) then Some(Next(cfg, st, l)) else None
  }

  lemma CrashIs(cfg: Config, st: State)
    ensures Step(cfg, st, Crash) == Some(State(Apply(st.main, Reset), Apply(st.retry, Reset),
      st.pipe.(inflight := [], crashLost := st.pipe.crashLost + SrcsOf(st.pipe.inflight)), st.calls, st.crashes + 1))
  {
  }

  /** Takes the steps of `ls` one after the other; None if one of them is not enabled. */
  function Execute(cfg: Config, st: State, ls: seq<Label>): Option<State>
    decreases |ls|
  {
    if ls == [] then Some(st)
    else match Step(cfg, st, ls[0])
      case None => None
      case Some(st') => Execute(cfg, st', ls[1..])
  }

  /** `ls` is a run of the protocol from s to s'. */
  ghost predicate Runs(cfg: Config, s: State, ls: seq<Label>, s': State) {
    Execute(cfg, s, ls) == Some(s')
  }

  lemma {:induction false} RunsConcat(cfg: Config, s: State, ls: seq<Label>, mid: State, ls': seq<Label>, s': State)
    requires Runs(cfg, s, ls, mid) && Runs(cfg, mid, ls', s')
    ensures Runs(cfg, s, ls + ls', s')
    decreases |ls|
  {
    if ls == [] {
      assert ls + ls' == ls';
    } else {
      assert (ls + ls')[0] == ls[0] && (ls + ls')[1..] == ls[1..] + ls';
      RunsConcat(cfg, Step(cfg, s, ls[0]).value, ls[1..], mid, ls', s');
    }
  }

  /** A list of states, each one step after the other, is a run. */
  lemma {:induction false} RunsAlong(cfg: Config, ss: seq<State>, ls: seq<Label>)
    requires |ss| == |ls| + 1
    requires forall k :: 0 <= k < |ls| ==> Step(cfg, ss[k], ls[k]) == Some(ss[k + 1])
    ensures Runs(cfg, ss[0], ls, ss[|ls|])
  {
    if ls != [] {
      RunsAlong(cfg, ss[1..], ls[1..]);
    }
  }

  lemma OneStep(cfg: Config, s0: State, l0: Label, s1: State)
    requires Step(cfg, s0, l0) == Some(s1)
    ensures Runs(cfg, s0, [l0], s1)
  {
    RunsAlong(cfg, [s0, s1], [l0]);
  }

  lemma TwoSteps(cfg: Config, s0: State, l0: Label, s1: State, l1: Label, s2: State)
    requires Step(cfg, s0, l0) == Some(s1) && Step(cfg, s1, l1) == Some(s2)
    ensures Runs(cfg, s0, [l0, l1], s2)
  {
    RunsAlong(cfg, [s0, s1, s2], [l0, l1]);
  }

  /** A run between two more steps. */
  lemma Enclosed(cfg: Config, s0: State, l0: Label, s1: State, ls: seq<Label>, s2: State, l2: Label, s3: State)
    requires Step(cfg, s0, l0) == Some(s1) && Runs(cfg, s1, ls, s2) && Step(cfg, s2, l2) == Some(s3)
    ensures Runs(cfg, s0, [l0] + ls + [l2], s3)
  {
    OneStep(cfg, s0, l0, s1);
    OneStep(cfg, s2, l2, s3);
    RunsConcat(cfg, s0, [l0], s1, ls, s2);
    RunsConcat(cfg, s0, [l0] + ls, s2, [l2], s3);
  }
}
