/** The handler both loops call (the closure in cmd/worker/main.go): idempotency guard, agent, decision
    record, counters. First as atomic steps, so that two calls can interleave; then as the sequential
    method, proved to take exactly those steps. */
module EventHandler {
  import opened Wrappers
  import opened Events
  import opened Agent
  import opened Storage

  /** Prometheus counters of this process, as the label values they were incremented with. */
  datatype Counters = Counters(
    processedOk: multiset<string>,     // events processed, status success, by event type
    processedFail: multiset<string>,   // events processed, status failure, by event type
    actions: multiset<string>,         // actions taken, by action
    dlqEvents: multiset<string>,       // DLQ events, by event type
    permanent: nat)                    // permanent failures

  const ZERO := Counters(multiset{}, multiset{}, multiset{}, multiset{}, 0)

  /** What the Process calls since the process started came to: event types of successes and of failures, and
      the actions chosen. */
  datatype Made = Made(oks: multiset<string>, fails: multiset<string>, chosen: multiset<string>)

  const NONE_MADE := Made(multiset{}, multiset{}, multiset{})

  /** History, by event ID. No step reads it. */
  datatype Tally = Tally(
    claimed: multiset<string>,      // calls the idempotency check let through
    blocked: multiset<string>,      // calls turned away by a key their own check had just set
    begun: multiset<string>,        // Process calls begun
    succeeded: multiset<string>,    // ... that returned nil
    failed: multiset<string>,       // ... that returned an error
    expired: multiset<string>,      // idempotency keys that expired
    guardErrors: multiset<string>,  // idempotency checks that returned an error
    interrupted: multiset<string>,  // calls killed between the guard and the decision
    gaveUp: multiset<string>,       // permanent-failure callbacks
    returned: nat,                  // Process calls that returned since the process started
    made: Made,                     // ... and what they came to
    fkViolations: nat)              // decision inserts refused by the foreign key

  const NO_TALLY :=
    Tally(multiset{}, multiset{}, multiset{}, multiset{}, multiset{}, multiset{}, multiset{}, multiset{}, multiset{}, 0, NONE_MADE, 0)

  datatype Shared = Shared(tables: Tables, seen: set<string>, counters: Counters, tally: Tally)

  /** How far a handler call has got. */
  datatype Pc =
    | Away
    | Guarded(ev: Event)    // may process
    | Calling(ev: Event)    // waiting for the model
    | Decided(ev: Event, d: Decision, err: Option<string>)
    | Saved(ev: Event, d: Decision, err: Option<string>)
    | Counted(ev: Event, d: Decision, err: Option<string>)
    | Recorded(ev: Event, d: Decision, err: Option<string>)
    | Returning(ev: Event, err: Option<string>)

  datatype Label =
    | Guard(ev: Event, fault: CheckFault)
    | Begin
    | Complete(completion: Completion, stamp: Stamp)
    | Save(up: bool)
    | CountProcessed
    | CountAction
    | Report

  /** After the idempotency check. */
  function Checked(sh: Shared, id: string, fault: CheckFault): Shared {
    var t := if LetsThrough(sh.seen, id, fault) then sh.tally.(claimed := sh.tally.claimed + multiset{id}) else sh.tally;
    sh.(seen := KeysAfter(sh.seen, id, fault),
        tally := match fault
          case NoFault => t
          case CheckFails(_) => t.(guardErrors := t.guardErrors + multiset{id})
          case ReplyLost => if id in sh.seen then t else t.(blocked := t.blocked + multiset{id}))
  }

  /** A Process call returned. */
  function WithOutcome(t: Tally, ev: Event, d: Decision, ok: bool): Tally {
    var t' := t.(returned := t.returned + 1);
    var m := t.made;
    if ok then
      t'.(succeeded := t.succeeded + multiset{ev.id},
          made := m.(oks := m.oks + multiset{ev.kind}, chosen := m.chosen + multiset{d.action}))
    else t'.(failed := t.failed + multiset{ev.id}, made := m.(fails := m.fails + multiset{ev.kind}))
  }

  function WithProcessed(k: Counters, ok: bool, kind: string): Counters {
    if ok then k.(processedOk := k.processedOk + multiset{kind}) else k.(processedFail := k.processedFail + multiset{kind})
  }

  function WithAction(k: Counters, d: Decision): Counters {
    if d.success then k.(actions := k.actions + multiset{d.action}) else k
  }

  function WithReport(k: Counters, err: Option<string>, kind: string): Counters {
    if err.Some? then k.(dlqEvents := k.dlqEvents + multiset{kind}) else k
  }

  function Step(c: Codec, sh: Shared, pc: Pc, l: Label): Option<(Shared, Pc)> {
    var t, k := sh.tally, sh.counters;
    match (l, pc)
    case (Guard(ev, fault), Away) =>
      Some((Checked(sh, ev.id, fault), if LetsThrough(sh.seen, ev.id, fault) then Guarded(ev) else Returning(ev, None)))
    case (Begin, Guarded(ev)) =>
      Some((sh.(tally := t.(begun := t.begun + multiset{ev.id})), Calling(ev)))
    case (Complete(completion, stamp), Calling(ev)) =>
      var (d, err) := Outcome(c, ev, completion, stamp);
      Some((sh.(tally := WithOutcome(t, ev, d, err.None?)), Decided(ev, d, err)))
    case (Save(up), Decided(ev, d, err)) =>
      Some((WithSaved(sh, d, up), Saved(ev, d, err)))
    case (CountProcessed, Saved(ev, d, err)) =>
      Some((sh.(counters := WithProcessed(k, d.success, ev.kind)), Counted(ev, d, err)))
    case (CountAction, Counted(ev, d, err)) =>
      Some((sh.(counters := WithAction(k, d)), Recorded(ev, d, err)))
    case (Report, Recorded(ev, d, err)) =>
      Some((sh.(counters := WithReport(k, err, ev.kind)), Returning(ev, err)))
    case _ => None
  }

  function PermanentFailure(ev: Event, stamp: Stamp): Decision {
    Decision(stamp.id, ev.id, ev.kind, "", "", "", "", false, "max retries exceeded", 0, 0, 0, PERMANENTLY_FAILED, stamp.now)
  }

  /** The permanent-failure callback: record the failure of the message's event and count it. */
  function GivenUp(parse: string -> Option<Event>, sh: Shared, raw: string, stamp: Stamp, up: bool): Shared {
    match parse(raw)
    case None => sh
    case Some(ev) =>
      var d := PermanentFailure(ev, stamp);
      var t := sh.tally.(gaveUp := sh.tally.gaveUp + multiset{ev.id});
      sh.(tables := WithDecision(sh.tables, d, up),
          counters := sh.counters.(permanent := sh.counters.permanent + 1),
          tally := if SaveOutcome(sh.tables, d, up).ForeignKeyViolation? then t.(fkViolations := t.fkViolations + 1) else t)
  }

  /** What the callback does, field by field: for text that is an event it counts one permanent failure, and
      stores a decision that says so if the database is up, the ID unused and the event row there. */
  ghost predicate GivenUpDone(parsed: Option<Event>, sh: Shared, stamp: Stamp, up: bool, sh': Shared) {
    match parsed
    case None => sh' == sh
    case Some(ev) =>
      var t, t' := sh.tables, sh'.tables;
      && sh'.counters == sh.counters.(permanent := sh.counters.permanent + 1)
      && sh'.seen == sh.seen && t'.events == t.events
      && sh'.tally.gaveUp == sh.tally.gaveUp + multiset{ev.id}
      && (if up && stamp.id !in t.decisions && ev.id in t.events then
            && stamp.id in t'.decisions && t'.decisions == t.decisions[stamp.id := t'.decisions[stamp.id]]
            && FailureRow(t'.decisions[stamp.id], ev, stamp)
          else t'.decisions == t.decisions)
  }

  predicate FailureRow(d: Decision, ev: Event, stamp: Stamp) {
    && d.id == stamp.id && d.eventId == ev.id && d.eventType == ev.kind && d.processedAt == stamp.now
    && !d.success && d.status == "permanently_failed" && d.error == "max retries exceeded" && d.action == ""
  }

  lemma GivenUpDoes(parse: string -> Option<Event>, sh: Shared, raw: string, stamp: Stamp, up: bool)
    ensures GivenUpDone(parse(raw), sh, stamp, up, GivenUp(parse, sh, raw, stamp, up))
  {
  }

  // ---------------------------------------------------------------- invariants

  // Two calls can be under way at once, one per loop. Each invariant speaks of the shared state and of
  // how far both calls have got, and is symmetric in them.

  function Waits(pc: Pc, x: string): nat {
    if pc.Guarded? && pc.ev.id == x then 1 else 0
  }

  function Calls(pc: Pc, x: string): nat {
    if pc.Calling? && pc.ev.id == x then 1 else 0
  }

  function Faults(t: Tally, x: string): nat {
    t.expired[x] + t.guardErrors[x]
  }

  /** A call of Process for x needs the key of x, an expiry of that key, or a failed check. */
  predicate GuardHolds(sh: Shared, pc: Pc, other: Pc, x: string) {
    && sh.tally.begun[x] + Waits(pc, x) + Waits(other, x) <= (if x in sh.seen then 1 else 0) + Faults(sh.tally, x)
    && sh.tally.succeeded[x] + sh.tally.failed[x] + Calls(pc, x) + Calls(other, x) <= sh.tally.begun[x]
  }

  lemma GuardHoldsStep(c: Codec, sh: Shared, pc: Pc, other: Pc, l: Label, x: string)
    requires GuardHolds(sh, pc, other, x) && Step(c, sh, pc, l).Some?
    ensures var (sh', pc') := Step(c, sh, pc, l).value; GuardHolds(sh', pc', other, x)
  {
  }

  predicate Busy(pc: Pc, x: string) {
    (pc.Guarded? || pc.Calling?) && pc.ev.id == x
  }

  /** How often Process returned for x. */
  function Processed(t: Tally, x: string): nat {
    t.succeeded[x] + t.failed[x]
  }

  /** x has been processed, is being processed, was cut off while being processed, or was turned away by a
      key its own check had just set. */
  predicate Accounted(sh: Shared, pc: Pc, other: Pc, x: string) {
    || Processed(sh.tally, x) > 0 || Busy(pc, x) || Busy(other, x)
    || sh.tally.interrupted[x] > 0 || sh.tally.blocked[x] > 0
  }

  function BusyCount(pc: Pc, x: string): nat {
    if Busy(pc, x) then 1 else 0
  }

  /** Every call let through has returned from Process, was cut off, or is under way. */
  predicate ClaimsBalance(sh: Shared, pc: Pc, other: Pc, x: string) {
    sh.tally.claimed[x]
      == Processed(sh.tally, x) + sh.tally.interrupted[x] + BusyCount(pc, x) + BusyCount(other, x)
  }

  lemma ClaimsBalanceStep(c: Codec, sh: Shared, pc: Pc, other: Pc, l: Label, x: string)
    requires ClaimsBalance(sh, pc, other, x) && Step(c, sh, pc, l).Some?
    ensures var (sh', pc') := Step(c, sh, pc, l).value; ClaimsBalance(sh', pc', other, x)
  {
    match l
    case Guard(ev, fault) => CheckClaims(sh, ev.id, fault, x);
    case Complete(completion, stamp) =>
      var (d, err) := Outcome(c, pc.ev, completion, stamp);
      OutcomeCounts(sh.tally, pc.ev, d, err.None?, x);
    case _ => TalliesKept(c, sh, pc, l);
  }

  lemma CheckClaims(sh: Shared, id: string, fault: CheckFault, x: string)
    ensures var t, t' := sh.tally, Checked(sh, id, fault).tally;
      && t'.claimed[x] == t.claimed[x] + (if x == id && LetsThrough(sh.seen, id, fault) then 1 else 0)
      && t'.blocked[x] >= t.blocked[x]
      && t'.succeeded == t.succeeded && t'.failed == t.failed && t'.interrupted == t.interrupted
  {
  }

  lemma OutcomeCounts(t: Tally, ev: Event, d: Decision, ok: bool, x: string)
    ensures var t' := WithOutcome(t, ev, d, ok);
      && Processed(t', x) == Processed(t, x) + (if x == ev.id then 1 else 0)
      && t'.claimed == t.claimed && t'.interrupted == t.interrupted && t'.blocked == t.blocked
  {
  }

  lemma TalliesKept(c: Codec, sh: Shared, pc: Pc, l: Label)
    requires Step(c, sh, pc, l).Some? && !l.Guard? && !l.Complete?
    ensures var t, t' := sh.tally, Step(c, sh, pc, l).value.0.tally;
      && t'.claimed == t.claimed && t'.interrupted == t.interrupted && t'.blocked == t.blocked
      && t'.succeeded == t.succeeded && t'.failed == t.failed
  {
  }

  /** A call that got this far for x implies x is accounted for. */
  predicate Vouches(pc: Pc, x: string) {
    (AfterDecision(pc) || pc.Returning?) && pc.ev.id == x
  }

  predicate AfterDecision(pc: Pc) {
    pc.Decided? || pc.Saved? || pc.Counted? || pc.Recorded?
  }

  /** The key of x is only there because some call for x set it. */
  predicate KeysAccounted(sh: Shared, pc: Pc, other: Pc, x: string) {
    x in sh.seen || Vouches(pc, x) || Vouches(other, x) ==> Accounted(sh, pc, other, x)
  }

  /** What is accounted for stays so. */
  lemma AccountedStays(c: Codec, sh: Shared, pc: Pc, other: Pc, l: Label, x: string)
    requires Accounted(sh, pc, other, x) && Step(c, sh, pc, l).Some?
    ensures var (sh', pc') := Step(c, sh, pc, l).value; Accounted(sh', pc', other, x)
  {
    match l
    case Guard(ev, fault) => CheckClaims(sh, ev.id, fault, x);
    case Complete(completion, stamp) =>
      var (d, err) := Outcome(c, pc.ev, completion, stamp);
      OutcomeCounts(sh.tally, pc.ev, d, err.None?, x);
    case _ => TalliesKept(c, sh, pc, l);
  }

  lemma KeysAccountedStep(c: Codec, sh: Shared, pc: Pc, other: Pc, l: Label, x: string)
    requires KeysAccounted(sh, pc, other, x) && Step(c, sh, pc, l).Some?
    ensures var (sh', pc') := Step(c, sh, pc, l).value; KeysAccounted(sh', pc', other, x)
  {
    if Accounted(sh, pc, other, x) {
      AccountedStays(c, sh, pc, other, l, x);
    }
  }

  /** A decision and its error agree. */
  predicate Consistent(pc: Pc) {
    AfterDecision(pc) ==> (pc.d.success <==> pc.err.None?) && pc.d.eventId == pc.ev.id
  }

  lemma ConsistentStep(c: Codec, sh: Shared, pc: Pc, l: Label)
    requires Consistent(pc) && Step(c, sh, pc, l).Some?
    ensures var (sh', pc') := Step(c, sh, pc, l).value; Consistent(pc')
  {
    if l.Complete? && pc.Calling? {
      Classified(c, pc.ev, l.completion, l.stamp);
    }
  }

  // What a call under way has put in one counter and not in its partner yet.

  function FailLag(pc: Pc, kind: string): nat {
    if (pc.Counted? || pc.Recorded?) && pc.err.Some? && pc.ev.kind == kind then 1 else 0
  }

  function ActionLag(pc: Pc): nat {
    if pc.Counted? && pc.d.success then 1 else 0
  }

  function CountLag(pc: Pc): nat {
    if pc.Decided? || pc.Saved? then 1 else 0
  }

  /** Counter conservation, up to what the calls under way still owe: failures against DLQ events, by
      event type ... */
  predicate FailuresAgree(sh: Shared, pc: Pc, other: Pc, kind: string) {
    sh.counters.processedFail[kind] == sh.counters.dlqEvents[kind] + FailLag(pc, kind) + FailLag(other, kind)
  }

  /** ... and totals: successes against actions, everything against the Process calls that returned. */
  predicate TotalsAgree(sh: Shared, pc: Pc, other: Pc) {
    var k := sh.counters;
    && |k.processedOk| == |k.actions| + ActionLag(pc) + ActionLag(other)
    && |k.processedOk| + |k.processedFail| + CountLag(pc) + CountLag(other) == sh.tally.returned
  }

  lemma FailuresAgreeStep(c: Codec, sh: Shared, pc: Pc, other: Pc, l: Label, kind: string)
    requires FailuresAgree(sh, pc, other, kind) && Consistent(pc) && Step(c, sh, pc, l).Some?
    ensures var (sh', pc') := Step(c, sh, pc, l).value; FailuresAgree(sh', pc', other, kind)
  {
  }

  lemma TotalsAgreeStep(c: Codec, sh: Shared, pc: Pc, other: Pc, l: Label)
    requires TotalsAgree(sh, pc, other) && Step(c, sh, pc, l).Some?
    ensures var (sh', pc') := Step(c, sh, pc, l).value; TotalsAgree(sh', pc', other)
  {
    if pc.Saved? {
      ProcessedSizes(sh.counters, pc.d.success, pc.ev.kind);
    } else if pc.Counted? {
      ActionSizes(sh.counters, pc.d);
    }
  }

  // ... and label by label: what a call under way has made and not counted yet.

  function OkLag(pc: Pc, kind: string): nat {
    if (pc.Decided? || pc.Saved?) && pc.err.None? && pc.ev.kind == kind then 1 else 0
  }

  function BadLag(pc: Pc, kind: string): nat {
    if (pc.Decided? || pc.Saved?) && pc.err.Some? && pc.ev.kind == kind then 1 else 0
  }

  function ChosenLag(pc: Pc, action: string): nat {
    if (pc.Decided? || pc.Saved? || pc.Counted?) && pc.err.None? && pc.d.action == action then 1 else 0
  }

  /** Every counter says of every label what the Process calls came to. */
  predicate LabelsAgree(sh: Shared, pc: Pc, other: Pc, name: string) {
    var k, m := sh.counters, sh.tally.made;
    && m.oks[name] == k.processedOk[name] + OkLag(pc, name) + OkLag(other, name)
    && m.fails[name] == k.processedFail[name] + BadLag(pc, name) + BadLag(other, name)
    && m.chosen[name] == k.actions[name] + ChosenLag(pc, name) + ChosenLag(other, name)
  }

  lemma LabelsAgreeStep(c: Codec, sh: Shared, pc: Pc, other: Pc, l: Label, name: string)
    requires LabelsAgree(sh, pc, other, name) && Consistent(pc) && Step(c, sh, pc, l).Some?
    ensures var (sh', pc') := Step(c, sh, pc, l).value; LabelsAgree(sh', pc', other, name)
  {
    match l
    case Complete(completion, stamp) => MadeCounts(c, sh, pc, completion, stamp, name);
    case CountProcessed => CountingCounts(c, sh, pc, l, name);
    case CountAction => CountingCounts(c, sh, pc, l, name);
    case Report => CountingCounts(c, sh, pc, l, name);
    case _ => NothingCounted(c, sh, pc, l, name);
  }

  lemma NothingCounted(c: Codec, sh: Shared, pc: Pc, l: Label, name: string)
    requires Step(c, sh, pc, l).Some? && (l.Guard? || l.Begin? || l.Save?)
    ensures var (sh', pc') := Step(c, sh, pc, l).value;
      && sh'.counters == sh.counters && sh'.tally.made == sh.tally.made
      && OkLag(pc', name) == OkLag(pc, name) && BadLag(pc', name) == BadLag(pc, name)
      && ChosenLag(pc', name) == ChosenLag(pc, name)
  {
    match l
    case Guard(ev, fault) => CheckMakesNothing(sh, ev.id, fault);
    case Save(up) => SaveMakesNothing(sh, pc.d, up);
    case _ =>
  }

  lemma CheckMakesNothing(sh: Shared, id: string, fault: CheckFault)
    ensures Checked(sh, id, fault).counters == sh.counters && Checked(sh, id, fault).tally.made == sh.tally.made
  {
  }

  lemma SaveMakesNothing(sh: Shared, d: Decision, up: bool)
    ensures WithSaved(sh, d, up).counters == sh.counters && WithSaved(sh, d, up).tally.made == sh.tally.made
  {
  }

  lemma MadeCounts(c: Codec, sh: Shared, pc: Pc, completion: Completion, stamp: Stamp, name: string)
    requires pc.Calling?
    ensures var (sh', pc') := Step(c, sh, pc, Complete(completion, stamp)).value;
      && sh'.counters == sh.counters
      && sh'.tally.made.oks[name] == sh.tally.made.oks[name] + OkLag(pc', name)
      && sh'.tally.made.fails[name] == sh.tally.made.fails[name] + BadLag(pc', name)
      && sh'.tally.made.chosen[name] == sh.tally.made.chosen[name] + ChosenLag(pc', name)
  {
  }

  lemma CountingCounts(c: Codec, sh: Shared, pc: Pc, l: Label, name: string)
    requires Consistent(pc) && Step(c, sh, pc, l).Some? && (l.CountProcessed? || l.CountAction? || l.Report?)
    ensures var (sh', pc') := Step(c, sh, pc, l).value; var k, k' := sh.counters, sh'.counters;
      && sh'.tally == sh.tally
      && k'.processedOk[name] + OkLag(pc', name) == k.processedOk[name] + OkLag(pc, name)
      && k'.processedFail[name] + BadLag(pc', name) == k.processedFail[name] + BadLag(pc, name)
      && k'.actions[name] + ChosenLag(pc', name) == k.actions[name] + ChosenLag(pc, name)
  {
  }

  lemma ProcessedSizes(k: Counters, ok: bool, kind: string)
    ensures var k' := WithProcessed(k, ok, kind);
      && |k'.processedOk| == |k.processedOk| + (if ok then 1 else 0)
      && |k'.processedFail| == |k.processedFail| + (if ok then 0 else 1)
      && k'.actions == k.actions
  {
  }

  lemma ActionSizes(k: Counters, d: Decision)
    ensures var k' := WithAction(k, d);
      && |k'.actions| == |k.actions| + (if d.success then 1 else 0)
      && k'.processedOk == k.processedOk && k'.processedFail == k.processedFail
  {
  }

  /** With the event row in place, saving a decision cannot violate the foreign key. */
  lemma RowsPreventViolation(c: Codec, sh: Shared, pc: Pc, l: Label)
    requires Consistent(pc) && Step(c, sh, pc, l).Some? && (!pc.Away? ==> pc.ev.id in sh.tables.events)
    ensures var (sh', pc') := Step(c, sh, pc, l).value;
      sh'.tally.fkViolations == sh.tally.fkViolations && sh'.tables.events == sh.tables.events
  {
  }

  // ---------------------------------------------------------------- the sequential handler

  /** What the outside answers during one call. */
  datatype Answers = Answers(fault: CheckFault, completion: Completion, stamp: Stamp, dbUp: bool)

  /** The steps of one uninterrupted call. */
  function HandlerLabels(sh: Shared, ev: Event, a: Answers): seq<Label> {
    if !LetsThrough(sh.seen, ev.id, a.fault) then [Guard(ev, a.fault)]
    else [Guard(ev, a.fault), Begin, Complete(a.completion, a.stamp), Save(a.dbUp), CountProcessed, CountAction, Report]
  }

  /** What one uninterrupted call leaves behind, and what it returns. */
  function CallResult(c: Codec, sh: Shared, ev: Event, a: Answers): (Shared, Option<string>) {
    var sh1 := Checked(sh, ev.id, a.fault);
    if !LetsThrough(sh.seen, ev.id, a.fault) then (sh1, None)
    else
      var (d, err) := Outcome(c, ev, a.completion, a.stamp);
      (Reported(WithSaved(WithProcess(sh1, ev, d, err.None?), d, a.dbUp), ev.kind, d, err), err)
  }

  function WithProcess(sh: Shared, ev: Event, d: Decision, ok: bool): Shared {
    sh.(tally := WithOutcome(sh.tally.(begun := sh.tally.begun + multiset{ev.id}), ev, d, ok))
  }

  function WithSaved(sh: Shared, d: Decision, up: bool): Shared {
    var t := sh.tally;
    sh.(tables := WithDecision(sh.tables, d, up),
        tally := if SaveOutcome(sh.tables, d, up).ForeignKeyViolation? then t.(fkViolations := t.fkViolations + 1) else t)
  }

  function Reported(sh: Shared, kind: string, d: Decision, err: Option<string>): Shared {
    sh.(counters := WithReport(WithAction(WithProcessed(sh.counters, d.success, kind), d), err, kind))
  }

  /** What a caller gets from one call, field by field. A call turned away changes nothing but the key. A call
      let through fails or succeeds by the model's answer, sets the key, stores one decision if the database is
      up, the ID unused and the event row there, and counts the outcome under its own labels. */
  ghost predicate CallDone(c: Codec, sh: Shared, ev: Event, a: Answers, sh': Shared, err: Option<string>) {
    var reply := Chosen(c, a.completion);
    var named := reply.Some? && ValidAction(reply.value.action);
    && sh'.tables.events == sh.tables.events && sh'.counters.permanent == sh.counters.permanent
    && sh'.seen == (if a.fault == CheckFails(false) || ev.id in sh.seen then sh.seen else sh.seen + {ev.id})
    && (if a.fault.CheckFails? || (a.fault.NoFault? && ev.id !in sh.seen) then
          && (err.None? <==> named)
          && DecisionStored(sh.tables, ev, a, Outcome(c, ev, a.completion, a.stamp).0, err, sh'.tables)
          && OutcomeCounted(sh.counters, ev, if named then Some(reply.value.action) else None, sh'.counters)
        else err == None && sh'.tables == sh.tables && sh'.counters == sh.counters)
  }

  /** One row more, the decision Process returned, or none. */
  ghost predicate DecisionStored(t: Tables, ev: Event, a: Answers, made: Decision, err: Option<string>, t': Tables) {
    var id := a.stamp.id;
    if a.dbUp && id !in t.decisions && ev.id in t.events then
      && id in t'.decisions && t'.decisions == t.decisions[id := t'.decisions[id]]
      && var d := t'.decisions[id];
        && d == made && d.id == id && d.eventId == ev.id && d.eventType == ev.kind && d.processedAt == a.stamp.now
        && (d.success <==> err.None?)
        && d.status == (if err.None? then "completed" else "failed")
        && (d.error == "" || err.Some?)
    else t'.decisions == t.decisions
  }

  /** `action` is the action taken, if one was. */
  predicate OutcomeCounted(k: Counters, ev: Event, action: Option<string>, k': Counters) {
    && k'.processedOk == k.processedOk + (if action.Some? then multiset{ev.kind} else multiset{})
    && k'.processedFail == k.processedFail + (if action.Some? then multiset{} else multiset{ev.kind})
    && k'.actions == k.actions + (if action.Some? then multiset{action.value} else multiset{})
    && k'.dlqEvents == k.dlqEvents + (if action.Some? then multiset{} else multiset{ev.kind})
  }

  lemma CallDoes(c: Codec, sh: Shared, ev: Event, a: Answers)
    ensures CallDone(c, sh, ev, a, CallResult(c, sh, ev, a).0, CallResult(c, sh, ev, a).1)
  {
    if LetsThrough(sh.seen, ev.id, a.fault) {
      var (d, err) := Outcome(c, ev, a.completion, a.stamp);
      Classified(c, ev, a.completion, a.stamp);
      SavedDoes(WithProcess(Checked(sh, ev.id, a.fault), ev, d, err.None?), ev, a, d, err);
      ReportedDoes(WithSaved(WithProcess(Checked(sh, ev.id, a.fault), ev, d, err.None?), d, a.dbUp), ev, d, err);
    }
  }

  lemma SavedDoes(sh: Shared, ev: Event, a: Answers, d: Decision, err: Option<string>)
    requires d.id == a.stamp.id && d.eventId == ev.id && d.eventType == ev.kind && d.processedAt == a.stamp.now
    requires (d.success <==> err.None?) && d.status == (if err.None? then "completed" else "failed")
    requires d.error == "" || err.Some?
    ensures DecisionStored(sh.tables, ev, a, d, err, WithSaved(sh, d, a.dbUp).tables)
    ensures WithSaved(sh, d, a.dbUp).counters == sh.counters && WithSaved(sh, d, a.dbUp).seen == sh.seen
    ensures WithSaved(sh, d, a.dbUp).tables.events == sh.tables.events
  {
  }

  lemma ReportedDoes(sh: Shared, ev: Event, d: Decision, err: Option<string>)
    requires d.success <==> err.None?
    ensures var sh' := Reported(sh, ev.kind, d, err);
      && OutcomeCounted(sh.counters, ev, if err.None? then Some(d.action) else None, sh'.counters)
      && sh'.counters.permanent == sh.counters.permanent && sh'.tables == sh.tables && sh'.seen == sh.seen
  {
  }

  function Execute(c: Codec, sh: Shared, pc: Pc, ls: seq<Label>): Option<(Shared, Pc)>
    decreases |ls|
  {
    if ls == [] then Some((sh, pc))
    else match Step(c, sh, pc, ls[0])
      case None => None
      case Some((sh', pc')) => Execute(c, sh', pc', ls[1..])
  }

  class Handler {
    const db: PGStore
    const rdb: Cache
    const ag: Agent
    var processedOk: multiset<string>
    var processedFail: multiset<string>
    var actions: multiset<string>
    var dlqEvents: multiset<string>
    var permanent: nat
    ghost var tally: Tally

    ghost function View(): Shared
      reads this, db, rdb
    {
      Shared(db.View(), rdb.seen, Counters(processedOk, processedFail, actions, dlqEvents, permanent), tally)
    }

    constructor (db: PGStore, rdb: Cache, ag: Agent)
      ensures this.db == db && this.rdb == rdb && this.ag == ag
      ensures View().counters == ZERO
    {
      this.db, this.rdb, this.ag := db, rdb, ag;
      processedOk, processedFail, actions, dlqEvents, permanent := multiset{}, multiset{}, multiset{}, multiset{}, 0;
      tally := NO_TALLY;
    }

    method CheckSeen(ev: Event, fault: CheckFault) returns (proceed: bool)
      modifies this`tally, rdb`seen
      ensures Step(ag.codec, old(View()), Away, Guard(ev, fault))
        == Some((View(), if proceed then Guarded(ev) else Returning(ev, None)))
    {
      ghost var s0 := View();
      var answer := rdb.Seen(ev.id, fault);
      proceed := !answer.AlreadySeen?;
      tally := Checked(s0, ev.id, fault).tally;
    }

    method RunAgent(ev: Event, completion: Completion, stamp: Stamp) returns (d: Decision, err: Option<string>)
      modifies this`tally, ag`llmCalls
      ensures Execute(ag.codec, old(View()), Guarded(ev), [Begin, Complete(completion, stamp)])
        == Some((View(), Decided(ev, d, err)))
    {
      ghost var s0 := View();
      tally := tally.(begun := tally.begun + multiset{ev.id});
      ghost var s1 := View();
      d, err := ag.Process(ev, completion, stamp);
      tally := WithOutcome(tally, ev, d, err.None?);
      AgentRuns(ag.codec, s0, s1, View(), ev, completion, stamp, d, err);
    }

    method Persist(ev: Event, d: Decision, err: Option<string>, up: bool)
      modifies this`tally, db`decisions
      ensures Step(ag.codec, old(View()), Decided(ev, d, err), Save(up)) == Some((View(), Saved(ev, d, err)))
    {
      var saved := db.SaveDecision(d, up);
      if saved.ForeignKeyViolation? {
        tally := tally.(fkViolations := tally.fkViolations + 1);
      }
    }

    method CountOutcome(ev: Event, d: Decision, err: Option<string>)
      modifies this`processedOk, this`processedFail, this`actions
      ensures Execute(ag.codec, old(View()), Saved(ev, d, err), [CountProcessed, CountAction])
        == Some((View(), Recorded(ev, d, err)))
    {
      ghost var s0 := View();
      if d.success {
        processedOk := processedOk + multiset{ev.kind};
      } else {
        processedFail := processedFail + multiset{ev.kind};
      }
      ghost var s1 := View();
      if d.success {
        actions := actions + multiset{d.action};
      }
      Two(ag.codec, s0, Saved(ev, d, err), CountProcessed, s1, Counted(ev, d, err), CountAction, View(), Recorded(ev, d, err));
    }

    method CountDlq(ev: Event, d: Decision, err: Option<string>)
      modifies this`dlqEvents
      ensures Step(ag.codec, old(View()), Recorded(ev, d, err), Report) == Some((View(), Returning(ev, err)))
    {
      if err.Some? {
        dlqEvents := dlqEvents + multiset{ev.kind};
      }
    }

    /** Handles one event; nil means done or duplicate, an error sends the message to the DLQ. */
    method Handle(ev: Event, a: Answers) returns (err: Option<string>)
      modifies this, db`decisions, rdb`seen, ag`llmCalls
      ensures Execute(ag.codec, old(View()), Away, HandlerLabels(old(View()), ev, a)) == Some((View(), Returning(ev, err)))
      ensures (View(), err) == CallResult(ag.codec, old(View()), ev, a)
      ensures CallDone(ag.codec, old(View()), ev, a, View(), err)
    {
      CallDoes(ag.codec, View(), ev, a);
      UninterruptedCall(ag.codec, View(), ev, a);
      ghost var s0 := View();
      var proceed := CheckSeen(ev, a.fault);
      ghost var s1 := View();
      if !proceed {
        One(ag.codec, s0, Away, Guard(ev, a.fault), s1, Returning(ev, None));
        return None;
      }
      var d, procErr := RunAgent(ev, a.completion, a.stamp);
      ghost var s2 := View();
      Persist(ev, d, procErr, a.dbUp);
      ghost var s3 := View();
      CountOutcome(ev, d, procErr);
      ghost var s4 := View();
      CountDlq(ev, d, procErr);
      err := procErr;
      Whole(ag.codec, ev, d, err, a, s0, s1, s2, s3, s4, View());
    }

    /** Runs when the retry budget of a message is used up. */
    method PermanentlyFailed(parse: string -> Option<Event>, raw: string, stamp: Stamp, up: bool)
      modifies this`permanent, this`tally, db`decisions
      ensures View() == GivenUp(parse, old(View()), raw, stamp, up)
      ensures GivenUpDone(parse(raw), old(View()), stamp, up, View())
    {
      GivenUpDoes(parse, View(), raw, stamp, up);
      var ev := parse(raw);
      if ev.None? {
        return;
      }
      tally := tally.(gaveUp := tally.gaveUp + multiset{ev.value.id});
      var d := Decision(stamp.id, ev.value.id, ev.value.kind, "", "", "", "", false, "max retries exceeded", 0, 0, 0,
        "permanently_failed", stamp.now);
      var saved := db.SaveDecision(d, up);
      if saved.ForeignKeyViolation? {
        tally := tally.(fkViolations := tally.fkViolations + 1);
      }
      permanent := permanent + 1;
    }
  }

  lemma AgentRuns(c: Codec, s0: Shared, s1: Shared, s2: Shared, ev: Event, completion: Completion, stamp: Stamp,
                  d: Decision, err: Option<string>)
    requires s1 == s0.(tally := s0.tally.(begun := s0.tally.begun + multiset{ev.id}))
    requires (d, err) == Outcome(c, ev, completion, stamp)
    requires s2 == s1.(tally := WithOutcome(s1.tally, ev, d, err.None?))
    ensures Execute(c, s0, Guarded(ev), [Begin, Complete(completion, stamp)]) == Some((s2, Decided(ev, d, err)))
  {
    assert Step(c, s0, Guarded(ev), Begin) == Some((s1, Calling(ev)));
    assert Step(c, s1, Calling(ev), Complete(completion, stamp)) == Some((s2, Decided(ev, d, err)));
    Two(c, s0, Guarded(ev), Begin, s1, Calling(ev), Complete(completion, stamp), s2, Decided(ev, d, err));
  }

  lemma One(c: Codec, sh: Shared, pc: Pc, l: Label, sh': Shared, pc': Pc)
    requires Step(c, sh, pc, l) == Some((sh', pc'))
    ensures Execute(c, sh, pc, [l]) == Some((sh', pc'))
  {
    assert [l][1..] == [];
  }

  lemma Two(c: Codec, s0: Shared, p0: Pc, l0: Label, s1: Shared, p1: Pc, l1: Label, s2: Shared, p2: Pc)
    requires Step(c, s0, p0, l0) == Some((s1, p1)) && Step(c, s1, p1, l1) == Some((s2, p2))
    ensures Execute(c, s0, p0, [l0, l1]) == Some((s2, p2))
  {
    One(c, s1, p1, l1, s2, p2);
    assert [l0, l1][1..] == [l1];
  }

  lemma {:induction false} ExecuteConcat(c: Codec, sh: Shared, pc: Pc, ls: seq<Label>, ls': seq<Label>)
    ensures Execute(c, sh, pc, ls + ls')
      == match Execute(c, sh, pc, ls) case None => None case Some(r) => Execute(c, r.0, r.1, ls')
    decreases |ls|
  {
    if ls == [] {
      assert ls + ls' == ls';
    } else {
      assert (ls + ls')[0] == ls[0] && (ls + ls')[1..] == ls[1..] + ls';
      match Step(c, sh, pc, ls[0])
      case None =>
      case Some(r) => ExecuteConcat(c, r.0, r.1, ls[1..], ls');
    }
  }

  lemma Whole(c: Codec, ev: Event, d: Decision, err: Option<string>, a: Answers,
              s0: Shared, s1: Shared, s2: Shared, s3: Shared, s4: Shared, s5: Shared)
    requires Step(c, s0, Away, Guard(ev, a.fault)) == Some((s1, Guarded(ev)))
    requires Execute(c, s1, Guarded(ev), [Begin, Complete(a.completion, a.stamp)]) == Some((s2, Decided(ev, d, err)))
    requires Step(c, s2, Decided(ev, d, err), Save(a.dbUp)) == Some((s3, Saved(ev, d, err)))
    requires Execute(c, s3, Saved(ev, d, err), [CountProcessed, CountAction]) == Some((s4, Recorded(ev, d, err)))
    requires Step(c, s4, Recorded(ev, d, err), Report) == Some((s5, Returning(ev, err)))
    ensures Execute(c, s0, Away, HandlerLabels(s0, ev, a)) == Some((s5, Returning(ev, err)))
  {
    var g, p, v, k, r := [Guard(ev, a.fault)], [Begin, Complete(a.completion, a.stamp)], [Save(a.dbUp)],
      [CountProcessed, CountAction], [Report];
    One(c, s0, Away, g[0], s1, Guarded(ev));
    One(c, s2, Decided(ev, d, err), v[0], s3, Saved(ev, d, err));
    One(c, s4, Recorded(ev, d, err), r[0], s5, Returning(ev, err));
    ExecuteConcat(c, s0, Away, g, p);
    ExecuteConcat(c, s0, Away, g + p, v);
    ExecuteConcat(c, s0, Away, g + p + v, k);
    ExecuteConcat(c, s0, Away, g + p + v + k, r);
    GuardedMeansFresh(c, s0, ev, a);
    assert HandlerLabels(s0, ev, a) == g + p + v + k + r;
  }

  lemma CountingRuns(c: Codec, sh: Shared, ev: Event, d: Decision, err: Option<string>)
    ensures var k := WithAction(WithProcessed(sh.counters, d.success, ev.kind), d);
      Execute(c, sh, Saved(ev, d, err), [CountProcessed, CountAction]) == Some((sh.(counters := k), Recorded(ev, d, err)))
  {
    var k := WithProcessed(sh.counters, d.success, ev.kind);
    Two(c, sh, Saved(ev, d, err), CountProcessed, sh.(counters := k), Counted(ev, d, err), CountAction,
      sh.(counters := WithAction(k, d)), Recorded(ev, d, err));
  }

  lemma ProcessRuns(c: Codec, sh: Shared, ev: Event, completion: Completion, stamp: Stamp)
    ensures var (d, err) := Outcome(c, ev, completion, stamp);
      Execute(c, sh, Guarded(ev), [Begin, Complete(completion, stamp)])
        == Some((WithProcess(sh, ev, d, err.None?), Decided(ev, d, err)))
  {
    var (d, err) := Outcome(c, ev, completion, stamp);
    AgentRuns(c, sh, sh.(tally := sh.tally.(begun := sh.tally.begun + multiset{ev.id})), WithProcess(sh, ev, d, err.None?),
      ev, completion, stamp, d, err);
  }

  lemma ReportRuns(c: Codec, sh: Shared, ev: Event, d: Decision, err: Option<string>)
    ensures Step(c, sh, Recorded(ev, d, err), Report)
      == Some((sh.(counters := WithReport(sh.counters, err, ev.kind)), Returning(ev, err)))
  {
  }

  /** The steps of an uninterrupted call, taken one after the other, give its result. */
  lemma UninterruptedCall(c: Codec, sh: Shared, ev: Event, a: Answers)
    ensures var (sh', err) := CallResult(c, sh, ev, a);
      Execute(c, sh, Away, HandlerLabels(sh, ev, a)) == Some((sh', Returning(ev, err)))
  {
    var s1 := Checked(sh, ev.id, a.fault);
    if !LetsThrough(sh.seen, ev.id, a.fault) {
      One(c, sh, Away, Guard(ev, a.fault), s1, Returning(ev, None));
    } else {
      var (d, err) := Outcome(c, ev, a.completion, a.stamp);
      var s2 := WithProcess(s1, ev, d, err.None?);
      var s3 := WithSaved(s2, d, a.dbUp);
      var s4 := s3.(counters := WithAction(WithProcessed(s3.counters, d.success, ev.kind), d));
      ProcessRuns(c, s1, ev, a.completion, a.stamp);
      CountingRuns(c, s3, ev, d, err);
      ReportRuns(c, s4, ev, d, err);
      Whole(c, ev, d, err, a, sh, s1, s2, s3, s4, Reported(s3, ev.kind, d, err));
    }
  }

  lemma GuardedMeansFresh(c: Codec, sh: Shared, ev: Event, a: Answers)
    requires Step(c, sh, Away, Guard(ev, a.fault)).Some? && Step(c, sh, Away, Guard(ev, a.fault)).value.1.Guarded?
    ensures LetsThrough(sh.seen, ev.id, a.fault)
  {
  }
}
