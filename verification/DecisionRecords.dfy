/** What the decisions table says at the end of a run: one row for each save that could be made, and no row
    that tells an untruth about its event. */
module DecisionRecords {
  import opened Wrappers
  import opened Events
  import opened Kafka
  import opened Agent
  import opened Storage
  import opened Worker
  import opened WorkerSafety
  import D = Delivery
  import H = EventHandler

  // ---------------------------------------------------------------- one row per good save

  /** IDs of the decision rows of event x. */
  function RowsOf(t: Tables, x: string): set<string> {
    set id | id in t.decisions && t.decisions[id].eventId == x
  }

  /** The event whose decision a label saves: a handler call with its decision made, or the failure callback,
      when the database is up, the ID unused and the event row there. */
  function SavesFor(cfg: Config, w: World, l: Label): Option<string> {
    var t := w.sh.tables;
    match l
    case Handler(loop, Save(up)) =>
      var pc := PcOf(w, loop);
      if pc.Decided? && up && pc.d.id !in t.decisions && pc.ev.id in t.events then Some(pc.ev.id) else None
    case GiveUp(stamp, up) =>
      var ev := if Holding(w.d.retry) then cfg.d.parse(InHand(w.d.retry).msg.value) else None;
      if ev.Some? && up && stamp.id !in t.decisions && ev.value.id in t.events then Some(ev.value.id) else None
    case _ => None
  }

  /** Good saves for x along a run. */
  function Saves(cfg: Config, w: World, ls: seq<Label>, x: string): nat
    decreases |ls|
  {
    if ls == [] || Step(cfg, w, ls[0]).None? then 0
    else (if SavesFor(cfg, w, ls[0]) == Some(x) then 1 else 0) + Saves(cfg, Step(cfg, w, ls[0]).value, ls[1..], x)
  }

  /** Saving a decision adds its row, if it can be saved. */
  lemma RowsAfterSave(t: Tables, d: Decision, up: bool, x: string)
    ensures |RowsOf(WithDecision(t, d, up), x)| == |RowsOf(t, x)|
      + (if up && d.id !in t.decisions && d.eventId in t.events && d.eventId == x then 1 else 0)
  {
    var t' := WithDecision(t, d, up);
    if up && d.id !in t.decisions && d.eventId in t.events && d.eventId == x {
      assert RowsOf(t', x) == RowsOf(t, x) + {d.id};
    } else {
      assert RowsOf(t', x) == RowsOf(t, x);
    }
  }

  /** What a label does to the decisions: a handler call saves the decision it has made ... */
  lemma HandlerSaves(cfg: Config, w: World, l: Label)
    requires l.Handler? && Step(cfg, w, l).Some?
    ensures var pc, t' := PcOf(w, l.loop), Step(cfg, w, l).value.sh.tables;
      if l.h.Save? then pc.Decided? && t' == WithDecision(w.sh.tables, pc.d, l.h.up) else t' == w.sh.tables
  {
    HandlerSteps(cfg, w, l);
  }

  /** ... the callback saves a permanent failure, and nothing else touches them. */
  lemma OthersSave(cfg: Config, w: World, l: Label)
    requires !l.Handler? && Step(cfg, w, l).Some?
    ensures var t' := Step(cfg, w, l).value.sh.tables;
      if l.GiveUp? then
        Holding(w.d.retry) && match cfg.d.parse(InHand(w.d.retry).msg.value)
          case None => t' == w.sh.tables
          case Some(ev) => t' == WithDecision(w.sh.tables, H.PermanentFailure(ev, l.stamp), l.up)
      else t'.decisions == w.sh.tables.decisions
  {
    LocalPart(cfg, w, l);
  }

  lemma RowsStep(cfg: Config, w: World, l: Label, x: string)
    requires H.Consistent(w.main) && H.Consistent(w.retry) && Step(cfg, w, l).Some?
    ensures |RowsOf(Step(cfg, w, l).value.sh.tables, x)|
      == |RowsOf(w.sh.tables, x)| + (if SavesFor(cfg, w, l) == Some(x) then 1 else 0)
  {
    var t := w.sh.tables;
    if l.Handler? {
      HandlerSaves(cfg, w, l);
      if l.h.Save? {
        RowsAfterSave(t, PcOf(w, l.loop).d, l.h.up, x);
      }
    } else {
      OthersSave(cfg, w, l);
      if l.GiveUp? {
        var ev := cfg.d.parse(InHand(w.d.retry).msg.value);
        if ev.Some? {
          RowsAfterSave(t, H.PermanentFailure(ev.value, l.stamp), l.up, x);
        }
      } else {
        assert RowsOf(Step(cfg, w, l).value.sh.tables, x) == RowsOf(t, x);
      }
    }
  }

  lemma {:induction false} RowsAlong(cfg: Config, w: World, ls: seq<Label>, w': World, x: string)
    requires D.ValidConfig(cfg.d) && WInv(cfg, w) && Runs(cfg, w, ls, w')
    ensures |RowsOf(w'.sh.tables, x)| == |RowsOf(w.sh.tables, x)| + Saves(cfg, w, ls, x)
    decreases |ls|
  {
    if ls != [] {
      RowsStep(cfg, w, ls[0], x);
      WInvStep(cfg, w, ls[0]);
      RowsAlong(cfg, Step(cfg, w, ls[0]).value, ls[1..], w', x);
    }
  }

  /** No decision is dropped and none is written twice: in every run the decision rows of an event are exactly
      as many as its saves that met no outage, no used ID and no missing event row. */
  lemma RowsAreSaves(cfg: Config, w: World, ls: seq<Label>, w': World, x: string)
    requires D.ValidConfig(cfg.d) && Init(w) && Runs(cfg, w, ls, w')
    ensures |RowsOf(w'.sh.tables, x)| == Saves(cfg, w, ls, x)
  {
    InitWInv(cfg, w);
    assert RowsOf(w.sh.tables, x) == {};
    RowsAlong(cfg, w, ls, w', x);
  }

  // ---------------------------------------------------------------- true rows

  /** A decision says what happened to its event. */
  predicate TrueOf(t: H.Tally, d: Decision) {
    || (d.status == "completed" && d.success && d.error == "" && ValidAction(d.action) && t.succeeded[d.eventId] > 0)
    || (d.status == "failed" && !d.success && d.action == "" && t.failed[d.eventId] > 0)
    || (d.status == "permanently_failed" && !d.success && d.error == "max retries exceeded" && d.action == ""
        && t.gaveUp[d.eventId] > 0)
  }

  predicate CallTrue(t: H.Tally, pc: H.Pc) {
    pc.Decided? ==> TrueOf(t, pc.d)
  }

  ghost predicate Truthful(w: World) {
    && (forall id :: id in w.sh.tables.decisions ==> TrueOf(w.sh.tally, w.sh.tables.decisions[id]))
    && CallTrue(w.sh.tally, w.main) && CallTrue(w.sh.tally, w.retry)
  }

  /** Successes, failures and give-ups only add up. */
  ghost predicate TallyGrows(t: H.Tally, t': H.Tally) {
    forall x :: t.succeeded[x] <= t'.succeeded[x] && t.failed[x] <= t'.failed[x] && t.gaveUp[x] <= t'.gaveUp[x]
  }

  lemma TallyStep(cfg: Config, w: World, l: Label)
    requires Step(cfg, w, l).Some?
    ensures TallyGrows(w.sh.tally, Step(cfg, w, l).value.sh.tally)
  {
    if l.Handler? {
      HandlerSteps(cfg, w, l);
    } else {
      LocalPart(cfg, w, l);
    }
  }

  lemma DecisionTrue(c: Codec, t: H.Tally, ev: Event, completion: Completion, stamp: Stamp)
    ensures var (d, err) := Outcome(c, ev, completion, stamp); TrueOf(H.WithOutcome(t, ev, d, err.None?), d)
  {
    if Outcome(c, ev, completion, stamp).1.None? {
      SuccessesRecorded(c, ev, completion, stamp);
    } else {
      FailuresRecorded(c, ev, completion, stamp);
    }
  }

  /** A call that has just decided holds a true decision. */
  lemma CallsStayTrue(cfg: Config, w: World, l: Label, loop: Loop)
    requires CallTrue(w.sh.tally, PcOf(w, loop)) && Step(cfg, w, l).Some?
    ensures CallTrue(Step(cfg, w, l).value.sh.tally, PcOf(Step(cfg, w, l).value, loop))
  {
    TallyStep(cfg, w, l);
    CallsAfter(cfg, w, l, loop);
    if l.Handler? && l.loop == loop && l.h.Complete? {
      HandlerSteps(cfg, w, l);
      DecisionTrue(cfg.codec, w.sh.tally, PcOf(w, loop).ev, l.h.completion, l.h.stamp);
    } else {
      StaysOrLeaves(cfg, w, l, loop);
    }
  }

  lemma StaysOrLeaves(cfg: Config, w: World, l: Label, loop: Loop)
    requires Step(cfg, w, l).Some? && !(l.Handler? && l.loop == loop && l.h.Complete?)
    ensures var pc, pc' := PcOf(w, loop), PcOf(Step(cfg, w, l).value, loop); pc'.Decided? ==> pc' == pc
  {
    CallsAfter(cfg, w, l, loop);
  }

  lemma RowsStayTrue(cfg: Config, w: World, l: Label, id: string)
    requires Truthful(w) && Step(cfg, w, l).Some? && id in Step(cfg, w, l).value.sh.tables.decisions
    ensures TrueOf(Step(cfg, w, l).value.sh.tally, Step(cfg, w, l).value.sh.tables.decisions[id])
  {
    TallyStep(cfg, w, l);
    if l.Handler? {
      HandlerSaves(cfg, w, l);
    } else {
      OthersSave(cfg, w, l);
      if l.GiveUp? && id !in w.sh.tables.decisions {
        FailureTrue(cfg, w, l);
      }
    }
  }

  /** The row the callback writes is true: it has just counted the failure. */
  lemma FailureTrue(cfg: Config, w: World, l: Label)
    requires l.GiveUp? && Step(cfg, w, l).Some? && Holding(w.d.retry)
    ensures match cfg.d.parse(InHand(w.d.retry).msg.value)
      case None => true
      case Some(ev) => TrueOf(Step(cfg, w, l).value.sh.tally, H.PermanentFailure(ev, l.stamp))
  {
    LocalPart(cfg, w, l);
  }

  lemma TruthfulStep(cfg: Config, w: World, l: Label)
    requires Truthful(w) && Step(cfg, w, l).Some?
    ensures Truthful(Step(cfg, w, l).value)
  {
    CallsStayTrue(cfg, w, l, MainLoop);
    CallsStayTrue(cfg, w, l, RetryLoop);
    var w' := Step(cfg, w, l).value;
    forall id | id in w'.sh.tables.decisions ensures TrueOf(w'.sh.tally, w'.sh.tables.decisions[id]) {
      RowsStayTrue(cfg, w, l, id);
    }
  }

  lemma {:induction false} TruthfulAlways(cfg: Config, w: World, ls: seq<Label>, w': World)
    requires Truthful(w) && Runs(cfg, w, ls, w')
    ensures Truthful(w')
    decreases |ls|
  {
    if ls != [] {
      TruthfulStep(cfg, w, ls[0]);
      TruthfulAlways(cfg, Step(cfg, w, ls[0]).value, ls[1..], w');
    }
  }

  /** In every run every row tells the truth: "completed" rows are successes with a valid action and belong to
      events Process succeeded on, "failed" rows to events it failed on, "permanently_failed" rows to events
      that were given up on; and there is no other kind. */
  lemma RowsAreTrue(cfg: Config, w: World, ls: seq<Label>, w': World, id: string)
    requires Init(w) && Runs(cfg, w, ls, w') && id in w'.sh.tables.decisions
    ensures TrueOf(w'.sh.tally, w'.sh.tables.decisions[id])
  {
    TruthfulAlways(cfg, w, ls, w');
  }
}
