/** Short runs of the worker that the documentation rules out, and one that it promises. All start from an
    empty cluster with one partition per topic; the message comes from a program other than the endpoints. */
module WorkerExamples {
  import opened Wrappers
  import opened Headers
  import opened Events
  import opened Kafka
  import opened Agent
  import opened Storage
  import opened Worker
  import C = Conservation
  import D = Delivery
  import DS = DeliverySafety
  import H = EventHandler
  import W = WorkerSafety

  const FIRST := Slot(0, 0)
  const NO_SHARED := H.Shared(Tables(map[], map[]), {}, H.ZERO, H.NO_TALLY)
  const START := World(D.State(C.EMPTY_SIDE, C.EMPTY_SIDE, C.EMPTY_PIPE, [], 0), H.Away, H.Away, NO_SHARED, [], false)

  /** The message is in the topic, read up to `pos` and committed up to `committed`. */
  function One(r: Record, pos: nat, committed: nat): Topic {
    [Partition([r], pos, committed)]
  }

  /** No call under way. */
  function Calm(d: D.State, sh: H.Shared): World {
    World(d, H.Away, H.Away, sh, [], true)
  }

  /** The message has not left the events topic. */
  function MainState(msg: Message, committed: nat, pc: Pc, book: Book, calls: seq<D.Call>, crashes: nat): D.State {
    D.State(Side(One(Record(msg, FIRST), 1, committed), pc, book), C.EMPTY_SIDE, C.EMPTY_PIPE, calls, crashes)
  }

  function Taken(msg: Message): World {
    Calm(MainState(msg, 0, Pc.Read(FIRST), BLANK, [], 0), NO_SHARED)
  }

  // ---------------------------------------------------------------- single steps

  /** A step of a loop moves the protocol state alone. */
  lemma ProtocolMoves(cfg: Config, w: World, dl: D.Label, d': D.State)
    requires Internal(dl) && D.Step(cfg.d, w.d, dl) == Some(d')
    ensures Step(cfg, w, Protocol(dl)) == Some(w.(d := d'))
  {
  }

  lemma MainReturns(cfg: Config, w: World, d': D.State)
    requires w.main.Returning? && D.Step(cfg.d, w.d, ReturnLabel(MainLoop, w.main.err)) == Some(d')
    ensures Step(cfg, w, Return(MainLoop)) == Some(w.(d := d', main := H.Away))
  {
  }

  lemma RetryReturns(cfg: Config, w: World, d': D.State)
    requires w.retry.Returning? && D.Step(cfg.d, w.d, ReturnLabel(RetryLoop, w.retry.err)) == Some(d')
    ensures Step(cfg, w, Return(RetryLoop)) == Some(w.(d := d', retry := H.Away))
  {
  }

  function Intake(msg: Message): seq<Label> {
    [External(0, msg), Protocol(D.MainRead(0))]
  }

  lemma IntakeRuns(cfg: Config, msg: Message)
    ensures Runs(cfg, START, Intake(msg), Taken(msg))
  {
    var r := Record(msg, FIRST);
    var d1 := D.State(Side(One(r, 0, 0), Idle, BLANK), C.EMPTY_SIDE, C.EMPTY_PIPE, [], 0);
    assert Kafka.Stored(C.EMPTY_SIDE.topic, 0, r) == One(r, 0, 0) by {
      assert [] + [r] == [r];
    }
    assert Step(cfg, START, External(0, msg)) == Some(Calm(d1, NO_SHARED));
    Rereads(cfg, msg, BLANK, 0);
    ProtocolMoves(cfg, Calm(d1, NO_SHARED), D.MainRead(0), Taken(msg).d);
    RunsAlong(cfg, [START, Calm(d1, NO_SHARED), Taken(msg)], Intake(msg));
  }

  lemma Rereads(cfg: Config, msg: Message, book: Book, crashes: nat)
    ensures var d := D.State(Side(One(Record(msg, FIRST), 0, 0), Idle, book), C.EMPTY_SIDE, C.EMPTY_PIPE, [], crashes);
      D.Step(cfg.d, d, D.MainRead(0)) == Some(MainState(msg, 0, Pc.Read(FIRST), book, [], crashes))
  {
    assert Advanced(One(Record(msg, FIRST), 0, 0), 0) == One(Record(msg, FIRST), 1, 0);
  }

  const SETTLE := [Return(MainLoop), Protocol(D.MainCommit(true))]

  function Settled(msg: Message, book: Book, crashes: nat): D.State {
    MainState(msg, 1, Idle, Entered(book, FIRST, FIRST, Handled), [D.Call(FIRST, true)], crashes)
  }

  /** The handler returns nil: the main loop commits. */
  lemma SettleRuns(cfg: Config, ev: Event, msg: Message, book: Book, crashes: nat, sh: H.Shared)
    requires cfg.d.parse(msg.value) == Some(ev)
    ensures Runs(cfg, Calm(MainState(msg, 0, Pc.Read(FIRST), book, [], crashes), sh).(main := H.Returning(ev, None)),
                 SETTLE, Calm(Settled(msg, book, crashes), sh))
  {
    var d := MainState(msg, 0, Pc.Read(FIRST), book, [], crashes);
    var d1 := MainState(msg, 0, Disposed(FIRST), Entered(book, FIRST, FIRST, Handled), [D.Call(FIRST, true)], crashes);
    var d2 := Settled(msg, book, crashes);
    var w := Calm(d, sh).(main := H.Returning(ev, None));
    assert [] + [D.Call(FIRST, true)] == [D.Call(FIRST, true)];
    assert CommittedPast(One(Record(msg, FIRST), 1, 0), FIRST) == One(Record(msg, FIRST), 1, 1);
    MainReturns(cfg, w, d1);
    ProtocolMoves(cfg, Calm(d1, sh), D.MainCommit(true), d2);
    RunsAlong(cfg, [w, Calm(d1, sh), Calm(d2, sh)], SETTLE);
  }

  // ---------------------------------------------------------------- a check that blocks itself

  /** The reply to the idempotency check is lost and the Redis client asks again on its own: the event is
      turned away by the key its own check has just set. Committed, never processed, no error and no crash. */
  lemma LostReplySkipsEvent(cfg: Config, ev: Event, msg: Message, a: H.Answers)
    requires cfg.d.parse(msg.value) == Some(ev) && a.fault.ReplyLost?
    ensures var sh := H.CallResult(cfg.codec, NO_SHARED, ev, a).0;
      var w' := Calm(Settled(msg, BLANK, 0), sh);
      && Init(START)
      && Runs(cfg, START, Intake(msg) + Lifted(MainLoop, H.HandlerLabels(NO_SHARED, ev, a)) + SETTLE, w')
      && w'.d.main.topic[0].committed == 1 && w'.d.main.book.handled[FIRST] == 1
      && sh.tally.claimed == multiset{} && sh.tally.blocked[ev.id] == 1 && !W.Attended(w', ev.id)
  {
    var sh := H.CallResult(cfg.codec, NO_SHARED, ev, a).0;
    var ls := Lifted(MainLoop, H.HandlerLabels(NO_SHARED, ev, a));
    var back := Taken(msg).(main := H.Returning(ev, None), sh := sh);
    IntakeRuns(cfg, msg);
    WholeCallRuns(cfg, Taken(msg), MainLoop, ev, a);
    SettleRuns(cfg, ev, msg, BLANK, 0, sh);
    RunsConcat(cfg, START, Intake(msg), Taken(msg), ls, back);
    RunsConcat(cfg, START, Intake(msg) + ls, back, SETTLE, Calm(Settled(msg, BLANK, 0), sh));
  }

  // ---------------------------------------------------------------- a crash after the guard

  const REREAD := BLANK.(reread := multiset{FIRST}, cut := multiset{FIRST})

  /** The keys and tallies once the first call is let through, and after it is killed. */
  function Claimed(ev: Event): H.Shared {
    NO_SHARED.(seen := {ev.id}, tally := H.NO_TALLY.(claimed := multiset{ev.id}))
  }

  function Killed(ev: Event): H.Shared {
    NO_SHARED.(seen := {ev.id}, tally := H.NO_TALLY.(claimed := multiset{ev.id}, interrupted := multiset{ev.id}))
  }

  function CrashedState(r: Record): D.State {
    D.State(Side(One(r, 0, 0), Idle, REREAD), C.EMPTY_SIDE, C.EMPTY_PIPE, [], 1)
  }

  lemma Rewinds(r: Record)
    requires r.src == FIRST
    ensures Apply(Side(One(r, 1, 0), Pc.Read(FIRST), BLANK), Reset) == Side(One(r, 0, 0), Idle, REREAD)
    ensures Apply(C.EMPTY_SIDE, Reset) == C.EMPTY_SIDE
    ensures C.EMPTY_PIPE.(inflight := [], crashLost := C.EMPTY_PIPE.crashLost + SrcsOf([])) == C.EMPTY_PIPE
  {
    assert Slice(Partition([r], 1, 0), Uncommitted) == [r] && [r][1..] == [];
    assert SrcsOf([r]) == multiset{FIRST};
    assert TopicSrcs(One(r, 1, 0), Uncommitted) == multiset{FIRST} by {
      assert One(r, 1, 0)[0] == Partition([r], 1, 0) && One(r, 1, 0)[1..] == [];
    }
    assert TopicSrcs(C.EMPTY_SIDE.topic, Uncommitted) == multiset{} by {
      assert C.EMPTY_SIDE.topic[1..] == [];
    }
    assert Rewound(One(r, 1, 0)) == One(r, 0, 0);
    assert Rewound(C.EMPTY_SIDE.topic) == C.EMPTY_SIDE.topic;
    assert BLANK.reread + multiset{FIRST} == multiset{FIRST};
  }

  lemma StateCrashes(cfg: Config, msg: Message)
    ensures D.Step(cfg.d, Taken(msg).d, D.Crash) == Some(CrashedState(Record(msg, FIRST)))
  {
    Rewinds(Record(msg, FIRST));
    D.CrashIs(cfg.d, Taken(msg).d);
  }

  lemma Crashes(cfg: Config, w: World, d': D.State)
    requires D.Step(cfg.d, w.d, D.Crash) == Some(d')
    ensures Step(cfg, w, Crash) == Some(AfterCrash(w).(d := d'))
  {
  }

  lemma CallKilled(w: World, ev: Event)
    requires w.main == H.Guarded(ev) && w.retry.Away? && w.sh == Claimed(ev)
    ensures AfterCrash(w) == w.(main := H.Away, sh := Killed(ev))
  {
    assert H.NO_TALLY.interrupted + Interrupted(w.main) + Interrupted(w.retry) == multiset{ev.id};
  }

  function CrashLabels(ev: Event): seq<Label> {
    [Handler(MainLoop, H.Guard(ev, NoFault)), Crash, Protocol(D.MainRead(0))]
  }

  lemma CrashRuns(cfg: Config, ev: Event, msg: Message)
    requires cfg.d.parse(msg.value) == Some(ev)
    ensures Runs(cfg, Taken(msg), CrashLabels(ev), Calm(MainState(msg, 0, Pc.Read(FIRST), REREAD, [], 1), Killed(ev)))
  {
    var w1 := Taken(msg).(main := H.Guarded(ev), sh := Claimed(ev));
    var w2 := Calm(CrashedState(Record(msg, FIRST)), Killed(ev));
    var w3 := Calm(MainState(msg, 0, Pc.Read(FIRST), REREAD, [], 1), Killed(ev));
    GuardClaims(cfg, ev, msg);
    StateCrashes(cfg, msg);
    Crashes(cfg, w1, w2.d);
    CallKilled(w1, ev);
    Rereads(cfg, msg, REREAD, 1);
    ProtocolMoves(cfg, w2, D.MainRead(0), w3.d);
    RunsAlong(cfg, [Taken(msg), w1, w2, w3], CrashLabels(ev));
  }

  lemma GuardClaims(cfg: Config, ev: Event, msg: Message)
    requires cfg.d.parse(msg.value) == Some(ev)
    ensures Step(cfg, Taken(msg), Handler(MainLoop, H.Guard(ev, NoFault)))
      == Some(Taken(msg).(main := H.Guarded(ev), sh := Claimed(ev)))
  {
    assert H.Checked(NO_SHARED, ev.id, NoFault) == Claimed(ev) by {
      assert {} + {ev.id} == {ev.id} && multiset{} + multiset{ev.id} == multiset{ev.id};
    }
  }

  /** A crash after the idempotency check and before the decision: the redelivered message is skipped as a
      duplicate and committed, although Process never ran for its event. */
  lemma CrashAfterGuardSkipsEvent(cfg: Config, ev: Event, msg: Message, a: H.Answers)
    requires cfg.d.parse(msg.value) == Some(ev) && a.fault.NoFault?
    ensures var w' := Calm(Settled(msg, REREAD, 1), Killed(ev));
      && Init(START)
      && Runs(cfg, START,
              Intake(msg) + CrashLabels(ev) + Lifted(MainLoop, H.HandlerLabels(Killed(ev), ev, a)) + SETTLE, w')
      && w'.d.main.topic[0].committed == 1 && w'.d.main.book.handled[FIRST] == 1
      && w'.sh.tally.interrupted[ev.id] == w'.sh.tally.claimed[ev.id] == 1 && !W.Attended(w', ev.id)
  {
    var w3 := Calm(MainState(msg, 0, Pc.Read(FIRST), REREAD, [], 1), Killed(ev));
    var back := w3.(main := H.Returning(ev, None));
    var ls := Lifted(MainLoop, H.HandlerLabels(Killed(ev), ev, a));
    IntakeRuns(cfg, msg);
    CrashRuns(cfg, ev, msg);
    WholeCallRuns(cfg, w3, MainLoop, ev, a);
    SettleRuns(cfg, ev, msg, REREAD, 1, Killed(ev));
    RunsConcat(cfg, START, Intake(msg), Taken(msg), CrashLabels(ev), w3);
    RunsConcat(cfg, START, Intake(msg) + CrashLabels(ev), w3, ls, back);
    RunsConcat(cfg, START, Intake(msg) + CrashLabels(ev) + ls, back, SETTLE, Calm(Settled(msg, REREAD, 1), Killed(ev)));
  }

  // ---------------------------------------------------------------- a first attempt that fails

  const DOWN := Unavailable("down")
  const ERR := "llm: " + DOWN.message

  /** The model is down at the first attempt. */
  function FirstAnswers(stamp: Stamp): H.Answers {
    H.Answers(NoFault, DOWN, stamp, true)
  }

  function AfterFirst(cfg: Config, ev: Event, stamp: Stamp): H.Shared {
    H.CallResult(cfg.codec, NO_SHARED, ev, FirstAnswers(stamp)).0
  }

  /** The event has no row, so its failed decision is refused. */
  lemma FirstFails(cfg: Config, ev: Event, stamp: Stamp)
    ensures var sh := AfterFirst(cfg, ev, stamp);
      && H.CallResult(cfg.codec, NO_SHARED, ev, FirstAnswers(stamp)).1 == Some(ERR)
      && sh.seen == {ev.id} && sh.tables == NO_SHARED.tables
      && sh.tally.begun == sh.tally.failed == multiset{ev.id} && sh.tally.succeeded == multiset{}
      && sh.tally.expired == sh.tally.guardErrors == multiset{} && sh.tally.fkViolations == 1
  {
  }

  /** The record in the dead-letter topic. */
  function Handed(cfg: Config, msg: Message, now: string): Record {
    D.ToDlq(cfg.d, Record(msg, FIRST), ERR, now)
  }

  /** The protocol states from the failed call to the end of the retry. */
  function States(cfg: Config, msg: Message, now: string): seq<D.State> {
    var r, q := Record(msg, FIRST), Handed(cfg, msg, now);
    var book, book', one := Entered(BLANK, FIRST, FIRST, Published(true)), Entered(BLANK, FIRST, FIRST, Handled),
      [D.Call(FIRST, false)];
    var queue := C.EMPTY_PIPE.(inflight := [q]);
    var main := Side(One(r, 1, 1), Idle, book);
    [D.State(Side(One(r, 1, 0), Pc.Read(FIRST), BLANK), C.EMPTY_SIDE, C.EMPTY_PIPE, [], 0),
     D.State(Side(One(r, 1, 0), Pc.Failed(FIRST, ERR), BLANK), C.EMPTY_SIDE, C.EMPTY_PIPE, one, 0),
     D.State(Side(One(r, 1, 0), Disposed(FIRST), book), C.EMPTY_SIDE, queue, one, 0),
     D.State(main, C.EMPTY_SIDE, queue, one, 0),
     D.State(main, Side(One(q, 0, 0), Idle, BLANK), C.EMPTY_PIPE, one, 0),
     D.State(main, Side(One(q, 1, 0), Pc.Read(FIRST), BLANK), C.EMPTY_PIPE, one, 0),
     D.State(main, Side(One(q, 1, 0), Ready(FIRST), BLANK), C.EMPTY_PIPE, one, 0),
     D.State(main, Side(One(q, 1, 0), Disposed(FIRST), book'), C.EMPTY_PIPE, one + [D.Call(FIRST, true)], 0),
     D.State(main, Side(One(q, 1, 1), Idle, book'), C.EMPTY_PIPE, one + [D.Call(FIRST, true)], 0)]
  }

  function ProtocolLabels(now: string): seq<D.Label> {
    [D.MainErr(ERR), D.MainPublish(true, now), D.MainCommit(true), D.Deliver(0, 0),
     D.RetryRead(0), D.RetryWaited, D.RetryOk, D.RetryCommit(true)]
  }

  lemma FailMoves(cfg: Config, ev: Event, msg: Message, now: string)
    requires cfg.d.parse(msg.value) == Some(ev)
    ensures var ss := States(cfg, msg, now); D.Step(cfg.d, ss[0], ProtocolLabels(now)[0]) == Some(ss[1])
  {
    assert [] + [D.Call(FIRST, false)] == [D.Call(FIRST, false)];
  }

  lemma PublishMoves(cfg: Config, ev: Event, msg: Message, now: string)
    requires cfg.d.parse(msg.value) == Some(ev)
    ensures var ss := States(cfg, msg, now); D.Step(cfg.d, ss[1], ProtocolLabels(now)[1]) == Some(ss[2])
  {
    assert [] + [Handed(cfg, msg, now)] == [Handed(cfg, msg, now)];
  }

  lemma DeliverMoves(cfg: Config, ev: Event, msg: Message, now: string, k: nat)
    requires 2 <= k < 4 && cfg.d.parse(msg.value) == Some(ev)
    ensures var ss := States(cfg, msg, now); D.Step(cfg.d, ss[k], ProtocolLabels(now)[k]) == Some(ss[k + 1])
  {
    var r, q := Record(msg, FIRST), Handed(cfg, msg, now);
    if k == 2 {
      assert CommittedPast(One(r, 1, 0), FIRST) == One(r, 1, 1);
    } else {
      assert [] + [q] == [q] && D.Without([q], 0) == [];
      assert Kafka.Stored(C.EMPTY_SIDE.topic, 0, q) == One(q, 0, 0);
    }
  }

  lemma RereadMoves(cfg: Config, ev: Event, msg: Message, now: string, k: nat)
    requires 4 <= k < 6 && cfg.d.parse(msg.value) == Some(ev) && cfg.d.maxRetry > 0
    ensures var ss := States(cfg, msg, now); D.Step(cfg.d, ss[k], ProtocolLabels(now)[k]) == Some(ss[k + 1])
  {
    var q := Handed(cfg, msg, now);
    assert Advanced(One(q, 0, 0), 0) == One(q, 1, 0);
    DS.HandoverProvenance(cfg.d, Side(One(Record(msg, FIRST), 1, 0), Pc.Read(FIRST), BLANK), ERR, now);
  }

  lemma SettleMoves(cfg: Config, ev: Event, msg: Message, now: string, k: nat)
    requires 6 <= k < 8 && cfg.d.parse(msg.value) == Some(ev)
    ensures var ss := States(cfg, msg, now); D.Step(cfg.d, ss[k], ProtocolLabels(now)[k]) == Some(ss[k + 1])
  {
    var q := Handed(cfg, msg, now);
    assert CommittedPast(One(q, 1, 0), FIRST) == One(q, 1, 1);
  }

  lemma Moves(cfg: Config, ev: Event, msg: Message, now: string, k: nat)
    requires k < 8 && cfg.d.parse(msg.value) == Some(ev) && cfg.d.maxRetry > 0
    ensures var ss := States(cfg, msg, now); D.Step(cfg.d, ss[k], ProtocolLabels(now)[k]) == Some(ss[k + 1])
  {
    if k == 0 {
      FailMoves(cfg, ev, msg, now);
    } else if k == 1 {
      PublishMoves(cfg, ev, msg, now);
    } else if k < 4 {
      DeliverMoves(cfg, ev, msg, now, k);
    } else if k < 6 {
      RereadMoves(cfg, ev, msg, now, k);
    } else {
      SettleMoves(cfg, ev, msg, now, k);
    }
  }

  function HandoverLabels(now: string): seq<Label> {
    var ls := ProtocolLabels(now);
    [Return(MainLoop), Protocol(ls[1]), Protocol(ls[2]), Protocol(ls[3]), Protocol(ls[4]), Protocol(ls[5])]
  }

  /** Failed, handed over, delivered, read again, waited for: the retry loop is about to call the handler. */
  lemma HandoverRuns(cfg: Config, ev: Event, msg: Message, now: string, sh: H.Shared)
    requires cfg.d.parse(msg.value) == Some(ev) && cfg.d.maxRetry > 0
    ensures Runs(cfg, Taken(msg).(main := H.Returning(ev, Some(ERR)), sh := sh), HandoverLabels(now),
                 Calm(States(cfg, msg, now)[6], sh))
  {
    var ss, ls := States(cfg, msg, now), HandoverLabels(now);
    var ws := [Taken(msg).(main := H.Returning(ev, Some(ERR)), sh := sh), Calm(ss[1], sh), Calm(ss[2], sh),
               Calm(ss[3], sh), Calm(ss[4], sh), Calm(ss[5], sh), Calm(ss[6], sh)];
    forall k: nat | k < 6 ensures Step(cfg, ws[k], ls[k]) == Some(ws[k + 1]) {
      Moves(cfg, ev, msg, now, k);
      if k == 0 {
        MainReturns(cfg, ws[0], ss[1]);
      } else {
        ProtocolMoves(cfg, ws[k], ls[k].l, ss[k + 1]);
      }
    }
    RunsAlong(cfg, ws, ls);
  }

  /** Everything up to the moment before the retry. */
  function UpToRetry(cfg: Config, ev: Event, msg: Message, stamp: Stamp, now: string): seq<Label> {
    Intake(msg) + Lifted(MainLoop, H.HandlerLabels(NO_SHARED, ev, FirstAnswers(stamp))) + HandoverLabels(now)
  }

  function BeforeRetry(cfg: Config, ev: Event, msg: Message, stamp: Stamp, now: string): World {
    Calm(States(cfg, msg, now)[6], AfterFirst(cfg, ev, stamp))
  }

  lemma UpToRetryRuns(cfg: Config, ev: Event, msg: Message, stamp: Stamp, now: string)
    requires cfg.d.parse(msg.value) == Some(ev) && cfg.d.maxRetry > 0
    ensures Runs(cfg, START, UpToRetry(cfg, ev, msg, stamp, now), BeforeRetry(cfg, ev, msg, stamp, now))
  {
    var sh, ls := AfterFirst(cfg, ev, stamp), Lifted(MainLoop, H.HandlerLabels(NO_SHARED, ev, FirstAnswers(stamp)));
    var back := Taken(msg).(main := H.Returning(ev, Some(ERR)), sh := sh);
    FirstFails(cfg, ev, stamp);
    IntakeRuns(cfg, msg);
    WholeCallRuns(cfg, Taken(msg), MainLoop, ev, FirstAnswers(stamp));
    HandoverRuns(cfg, ev, msg, now, sh);
    RunsConcat(cfg, START, Intake(msg), Taken(msg), ls, back);
    RunsConcat(cfg, START, Intake(msg) + ls, back, HandoverLabels(now), Calm(States(cfg, msg, now)[6], sh));
  }

  function RetryLabels(ev: Event, sh: H.Shared, a: H.Answers): seq<Label> {
    Lifted(RetryLoop, H.HandlerLabels(sh, ev, a)) + [Return(RetryLoop), Protocol(D.RetryCommit(true))]
  }

  /** A retry whose call returns nil. */
  lemma RetryRuns(cfg: Config, ev: Event, msg: Message, now: string, sh: H.Shared, a: H.Answers)
    requires cfg.d.parse(msg.value) == Some(ev) && cfg.d.maxRetry > 0 && H.CallResult(cfg.codec, sh, ev, a).1.None?
    ensures Runs(cfg, Calm(States(cfg, msg, now)[6], sh), RetryLabels(ev, sh, a),
                 Calm(States(cfg, msg, now)[8], H.CallResult(cfg.codec, sh, ev, a).0))
  {
    var ss, sh' := States(cfg, msg, now), H.CallResult(cfg.codec, sh, ev, a).0;
    var w := Calm(ss[6], sh);
    var back := w.(retry := H.Returning(ev, None), sh := sh');
    var ls, rest := Lifted(RetryLoop, H.HandlerLabels(sh, ev, a)), [Return(RetryLoop), Protocol(D.RetryCommit(true))];
    WholeCallRuns(cfg, w, RetryLoop, ev, a);
    Moves(cfg, ev, msg, now, 6);
    RetryReturns(cfg, back, ss[7]);
    Moves(cfg, ev, msg, now, 7);
    ProtocolMoves(cfg, Calm(ss[7], sh'), D.RetryCommit(true), ss[8]);
    RunsAlong(cfg, [back, Calm(ss[7], sh'), Calm(ss[8], sh')], rest);
    RunsConcat(cfg, w, ls, back, rest, Calm(ss[8], sh'));
  }

  // ---------------------------------------------------------------- two ways for the retry to end

  /** README.md promises that the dead-letter worker runs failed events again. It does not: the model is down
      once, the message is retried, whatever the model would answer now, and the retry is turned away by the
      key its own first attempt left, reported as a success and committed. Nothing was recorded for the event,
      which came in past the ingest endpoints: the foreign key refused its failed decision. */
  lemma RetryReportsFalseSuccess(cfg: Config, ev: Event, msg: Message, stamp: Stamp, now: string, a: H.Answers)
    requires cfg.d.parse(msg.value) == Some(ev) && cfg.d.maxRetry > 0 && a.fault.NoFault?
    ensures var sh := AfterFirst(cfg, ev, stamp);
      var w' := Calm(States(cfg, msg, now)[8], H.CallResult(cfg.codec, sh, ev, a).0);
      && Init(START)
      && Runs(cfg, START, UpToRetry(cfg, ev, msg, stamp, now) + RetryLabels(ev, sh, a), w')
      && w'.d.retry.book.handled[FIRST] == 1 && w'.d.retry.topic[0].committed == 1
      && w'.d.calls == [D.Call(FIRST, false), D.Call(FIRST, true)]
      && w'.sh.tally.succeeded == multiset{} && w'.sh.tally.begun == multiset{ev.id}
      && w'.sh.tables.decisions == map[] && w'.sh.tally.fkViolations == 1 && w'.external
  {
    var w := BeforeRetry(cfg, ev, msg, stamp, now);
    var sh := AfterFirst(cfg, ev, stamp);
    FirstFails(cfg, ev, stamp);
    UpToRetryRuns(cfg, ev, msg, stamp, now);
    TurnedAway(cfg, ev, sh, a);
    RetryRuns(cfg, ev, msg, now, sh, a);
    RunsConcat(cfg, START, UpToRetry(cfg, ev, msg, stamp, now), w, RetryLabels(ev, sh, a),
      Calm(States(cfg, msg, now)[8], H.CallResult(cfg.codec, sh, ev, a).0));
  }

  lemma TurnedAway(cfg: Config, ev: Event, sh: H.Shared, a: H.Answers)
    requires ev.id in sh.seen && a.fault.NoFault?
    ensures H.CallResult(cfg.codec, sh, ev, a) == (sh, None)
  {
  }

  lemma ExpiredRetryRuns(cfg: Config, ev: Event, msg: Message, stamp: Stamp, now: string, a: H.Answers)
    requires cfg.d.parse(msg.value) == Some(ev) && cfg.d.maxRetry > 0
    requires var sh := W.Expired(AfterFirst(cfg, ev, stamp), ev.id); H.CallResult(cfg.codec, sh, ev, a).1.None?
    ensures var sh := W.Expired(AfterFirst(cfg, ev, stamp), ev.id);
      Runs(cfg, START, UpToRetry(cfg, ev, msg, stamp, now) + [Expire(ev.id)] + RetryLabels(ev, sh, a),
           Calm(States(cfg, msg, now)[8], H.CallResult(cfg.codec, sh, ev, a).0))
  {
    var w := BeforeRetry(cfg, ev, msg, stamp, now);
    var sh := W.Expired(AfterFirst(cfg, ev, stamp), ev.id);
    var ls := UpToRetry(cfg, ev, msg, stamp, now);
    FirstFails(cfg, ev, stamp);
    UpToRetryRuns(cfg, ev, msg, stamp, now);
    assert Step(cfg, w, Expire(ev.id)) == Some(w.(sh := sh));
    RunsAlong(cfg, [w, w.(sh := sh)], [Expire(ev.id)]);
    RunsConcat(cfg, START, ls, w, [Expire(ev.id)], w.(sh := sh));
    RetryRuns(cfg, ev, msg, now, sh, a);
    RunsConcat(cfg, START, ls + [Expire(ev.id)], w.(sh := sh), RetryLabels(ev, sh, a),
      Calm(States(cfg, msg, now)[8], H.CallResult(cfg.codec, sh, ev, a).0));
  }

  /** The other side: the key expires while the message waits, the model is up again, and the retry processes
      the event and succeeds. */
  lemma ExpiryLetsRetrySucceed(cfg: Config, ev: Event, msg: Message, stamp: Stamp, now: string, a: H.Answers)
    requires cfg.d.parse(msg.value) == Some(ev) && cfg.d.maxRetry > 0 && a.fault.NoFault?
    requires Chosen(cfg.codec, a.completion).Some? && ValidAction(Chosen(cfg.codec, a.completion).value.action)
    ensures var sh := W.Expired(AfterFirst(cfg, ev, stamp), ev.id);
      var w' := Calm(States(cfg, msg, now)[8], H.CallResult(cfg.codec, sh, ev, a).0);
      && Init(START)
      && Runs(cfg, START, UpToRetry(cfg, ev, msg, stamp, now) + [Expire(ev.id)] + RetryLabels(ev, sh, a), w')
      && w'.d.retry.book.handled[FIRST] == 1 && w'.d.retry.topic[0].committed == 1
      && w'.sh.tally.begun == multiset{ev.id, ev.id}
      && w'.sh.tally.failed == w'.sh.tally.succeeded == multiset{ev.id}
  {
    var sh := W.Expired(AfterFirst(cfg, ev, stamp), ev.id);
    FirstFails(cfg, ev, stamp);
    LetIn(cfg, ev, sh, a);
    ExpiredRetryRuns(cfg, ev, msg, stamp, now, a);
  }

  lemma LetIn(cfg: Config, ev: Event, sh: H.Shared, a: H.Answers)
    requires ev.id !in sh.seen && a.fault.NoFault?
    requires Chosen(cfg.codec, a.completion).Some? && ValidAction(Chosen(cfg.codec, a.completion).value.action)
    ensures var (sh', err) := H.CallResult(cfg.codec, sh, ev, a);
      && err == None && sh'.tally.begun == sh.tally.begun + multiset{ev.id}
      && sh'.tally.succeeded == sh.tally.succeeded + multiset{ev.id} && sh'.tally.failed == sh.tally.failed
  {
  }
}
