/** What the worker can be held to at the end of the day: every committed event was processed unless a
    crash cut it off, the counters agree with each other, and every message has its event row. */
module WorkerAccounts {
  import opened Wrappers
  import opened Events
  import opened Kafka
  import opened Agent
  import opened Storage
  import opened Worker
  import opened WorkerSafety
  import D = Delivery
  import DS = DeliverySafety
  import H = EventHandler

  // ---------------------------------------------------------------- at least once, and what it takes

  /** No decision was taken on a message of event x. */
  ghost predicate Untouched(cfg: Config, sd: Side, x: string) {
    forall at :: at in sd.book.fates && !sd.book.fates[at].Unparseable? ==>
      ValidSlot(sd.topic, at) && IdOf(cfg, RecordAt(sd.topic, at)) != x
  }

  predicate AccountedIn(w: World, x: string) {
    H.Accounted(w.sh, w.main, w.retry, x)
  }

  /** A decision on a message of x, or a key for it, is there only because x is accounted for. */
  ghost predicate Accounts(cfg: Config, w: World, x: string) {
    && H.KeysAccounted(w.sh, w.main, w.retry, x)
    && (!AccountedIn(w, x) ==> Untouched(cfg, w.d.main, x) && Untouched(cfg, w.d.retry, x))
  }

  /** A crash turns what was being processed into what was cut off. */
  lemma AccountedAfterCrash(w: World, x: string)
    requires H.KeysAccounted(w.sh, w.main, w.retry, x)
    ensures AccountedIn(w, x) ==> AccountedIn(AfterCrash(w), x)
    ensures H.KeysAccounted(AfterCrash(w).sh, H.Away, H.Away, x)
  {
  }

  lemma AccountedOutside(cfg: Config, w: World, l: Label, x: string)
    requires Step(cfg, w, l).Some? && !l.Handler?
    requires H.KeysAccounted(w.sh, w.main, w.retry, x)
    ensures var w' := Step(cfg, w, l).value;
      && (AccountedIn(w, x) ==> AccountedIn(w', x))
      && H.KeysAccounted(w'.sh, w'.main, w'.retry, x)
  {
    if l.Crash? {
      CrashStep(cfg, w);
      AccountedAfterCrash(w, x);
    } else if l.Expire? {
      ExpireStep(cfg, w, l);
    } else {
      QuietOutside(cfg, w, l);
    }
  }

  lemma AccountedStep(cfg: Config, w: World, l: Label, x: string)
    requires H.KeysAccounted(w.sh, w.main, w.retry, x) && Step(cfg, w, l).Some?
    ensures var w' := Step(cfg, w, l).value;
      && (AccountedIn(w, x) ==> AccountedIn(w', x))
      && H.KeysAccounted(w'.sh, w'.main, w'.retry, x)
  {
    if l.Handler? {
      HandlerSteps(cfg, w, l);
      var pc, other := PcOf(w, l.loop), if l.loop.MainLoop? then w.retry else w.main;
      H.KeysAccountedStep(cfg.codec, w.sh, pc, other, l.h, x);
      if H.Accounted(w.sh, pc, other, x) {
        H.AccountedStays(cfg.codec, w.sh, pc, other, l.h, x);
      }
    } else {
      AccountedOutside(cfg, w, l, x);
    }
  }

  /** A decision on a message of another event leaves x untouched. */
  lemma UntouchedStep(cfg: Config, sd: Side, op: Op, x: string)
    requires Placed(sd) && Fits(sd, op) && Untouched(cfg, sd, x)
    requires op.Dispose? && !op.fate.Unparseable? ==> IdOf(cfg, InHand(sd)) != x
    ensures Untouched(cfg, Apply(sd, op), x)
  {
    PlacedStep(sd, op);
    DS.FateAdded(sd, op);
    var sd' := Apply(sd, op);
    forall at | at in sd'.book.fates && !sd'.book.fates[at].Unparseable?
      ensures ValidSlot(sd'.topic, at) && IdOf(cfg, RecordAt(sd'.topic, at)) != x
    {
      if op.Dispose? && at == sd.pc.at {
        assert RecordAt(sd'.topic, at) == InHand(sd);
      } else {
        assert sd.topic[at.part].log <= sd'.topic[at.part].log;
      }
    }
  }

  /** The event of a message the main loop decides on is accounted for. */
  lemma MainDecisionAccounted(cfg: Config, w: World, l: Label)
    requires WInv(cfg, w) && Backed(cfg, w) && Step(cfg, w, l).Some?
    requires DeliveryLabel(w, l).Some? && (DeliveryLabel(w, l).value.MainOk? || DeliveryLabel(w, l).value.MainPublish?)
    requires H.KeysAccounted(w.sh, w.main, w.retry, IdOf(cfg, InHand(w.d.main)))
    ensures AccountedIn(w, IdOf(cfg, InHand(w.d.main)))
  {
    LocalPart(cfg, w, l);
    ProtocolPart(cfg, w, l);
    if DeliveryLabel(w, l).value.MainOk? {
      assert l.Return? && l.loop.MainLoop?;
      assert H.Vouches(w.main, IdOf(cfg, InHand(w.d.main)));
    }
  }

  lemma RetryDecisionAccounted(cfg: Config, w: World, l: Label)
    requires WInv(cfg, w) && Backed(cfg, w) && Step(cfg, w, l).Some?
    requires DeliveryLabel(w, l).Some? && D.RetryOp(w.d, DeliveryLabel(w, l).value).Some?
    requires D.RetryOp(w.d, DeliveryLabel(w, l).value).value.Dispose?
    requires Holding(w.d.retry)
    ensures AccountedIn(w, IdOf(cfg, InHand(w.d.retry)))
  {
    assert Backs(cfg, w.sh.tally.failed, InHand(w.d.retry), 0);
    assert DS.Provenance(cfg.d, w.d.main.topic, InHand(w.d.retry));
  }

  lemma UntouchedMain(cfg: Config, w: World, l: Label, x: string)
    requires WInv(cfg, w) && Backed(cfg, w) && Accounts(cfg, w, x) && Step(cfg, w, l).Some? && !AccountedIn(w, x)
    ensures Untouched(cfg, Step(cfg, w, l).value.d.main, x)
  {
    LocalPart(cfg, w, l);
    ProtocolPart(cfg, w, l);
    if DeliveryLabel(w, l).Some? {
      var dl := DeliveryLabel(w, l).value;
      D.OpsFit(cfg.d, w.d, dl);
      if D.MainOp(w.d, dl).Some? {
        var op := D.MainOp(w.d, dl).value;
        if op.Dispose? && !op.fate.Unparseable? && IdOf(cfg, InHand(w.d.main)) == x {
          MainDecisionAccounted(cfg, w, l);
        }
        UntouchedStep(cfg, w.d.main, op, x);
      }
    }
  }

  lemma UntouchedRetry(cfg: Config, w: World, l: Label, x: string)
    requires WInv(cfg, w) && Backed(cfg, w) && Accounts(cfg, w, x) && Step(cfg, w, l).Some? && !AccountedIn(w, x)
    ensures Untouched(cfg, Step(cfg, w, l).value.d.retry, x)
  {
    LocalPart(cfg, w, l);
    ProtocolPart(cfg, w, l);
    if DeliveryLabel(w, l).Some? {
      var dl := DeliveryLabel(w, l).value;
      D.OpsFit(cfg.d, w.d, dl);
      if D.RetryOp(w.d, dl).Some? {
        var op := D.RetryOp(w.d, dl).value;
        if op.Dispose? {
          RetryDecisionAccounted(cfg, w, l);
        }
        UntouchedStep(cfg, w.d.retry, op, x);
      }
    }
  }

  lemma AccountsStep(cfg: Config, w: World, l: Label, x: string)
    requires WInv(cfg, w) && Backed(cfg, w) && Accounts(cfg, w, x) && Step(cfg, w, l).Some?
    ensures Accounts(cfg, Step(cfg, w, l).value, x)
  {
    AccountedStep(cfg, w, l, x);
    if !AccountedIn(Step(cfg, w, l).value, x) {
      UntouchedMain(cfg, w, l, x);
      UntouchedRetry(cfg, w, l, x);
    }
  }

  lemma {:induction false} AccountsAlways(cfg: Config, w: World, ls: seq<Label>, w': World, x: string)
    requires D.ValidConfig(cfg.d) && WInv(cfg, w) && Backed(cfg, w) && Accounts(cfg, w, x) && Runs(cfg, w, ls, w')
    ensures WInv(cfg, w') && Accounts(cfg, w', x)
    decreases |ls|
  {
    if ls != [] {
      WInvStep(cfg, w, ls[0]);
      BackedStep(cfg, w, ls[0]);
      AccountsStep(cfg, w, ls[0], x);
      AccountsAlways(cfg, Step(cfg, w, ls[0]).value, ls[1..], w', x);
    }
  }

  predicate ClaimsBalanced(w: World, x: string) {
    H.ClaimsBalance(w.sh, w.main, w.retry, x)
  }

  lemma ClaimsAfterCrash(w: World, x: string)
    requires ClaimsBalanced(w, x)
    ensures H.ClaimsBalance(AfterCrash(w).sh, H.Away, H.Away, x)
  {
  }

  lemma ClaimsStep(cfg: Config, w: World, l: Label, x: string)
    requires ClaimsBalanced(w, x) && Step(cfg, w, l).Some?
    ensures ClaimsBalanced(Step(cfg, w, l).value, x)
  {
    if l.Handler? {
      HandlerSteps(cfg, w, l);
      var pc, other := PcOf(w, l.loop), if l.loop.MainLoop? then w.retry else w.main;
      H.ClaimsBalanceStep(cfg.codec, w.sh, pc, other, l.h, x);
    } else if l.Crash? {
      CrashStep(cfg, w);
      ClaimsAfterCrash(w, x);
    } else if l.Expire? {
      ExpireStep(cfg, w, l);
    } else {
      QuietOutside(cfg, w, l);
    }
  }

  lemma {:induction false} ClaimsAlways(cfg: Config, w: World, ls: seq<Label>, w': World, x: string)
    requires ClaimsBalanced(w, x) && Runs(cfg, w, ls, w')
    ensures ClaimsBalanced(w', x)
    decreases |ls|
  {
    if ls != [] {
      ClaimsStep(cfg, w, ls[0], x);
      ClaimsAlways(cfg, Step(cfg, w, ls[0]).value, ls[1..], w', x);
    }
  }

  /** At least once, exactly. An event whose message was committed had a call let through by the idempotency
      check, or turned away by a key that call itself had just set; and it was processed, or is being
      processed, if and only if not every call let through for it was cut off by a crash. Failed commits,
      redelivery, expiring keys and failing stores make no other exception. */
  lemma CommittedWasProcessed(cfg: Config, w: World, ls: seq<Label>, w': World, at: Slot)
    requires D.ValidConfig(cfg.d) && Init(w) && Runs(cfg, w, ls, w')
    requires ValidSlot(w'.d.main.topic, at) && at.offset < w'.d.main.topic[at.part].committed
    requires D.Parses(cfg.d, RecordAt(w'.d.main.topic, at))
    ensures var x, t := IdOf(cfg, RecordAt(w'.d.main.topic, at)), w'.sh.tally;
      && AccountedIn(w', x)
      && t.claimed[x] + t.blocked[x] >= 1
      && (Attended(w', x) <==> t.interrupted[x] < t.claimed[x])
      && (t.interrupted[x] == 0 && t.blocked[x] == 0 ==> Attended(w', x))
  {
    var x := IdOf(cfg, RecordAt(w'.d.main.topic, at));
    InitWInv(cfg, w);
    InitBacked(cfg, w);
    AccountsAlways(cfg, w, ls, w', x);
    ClaimsAlways(cfg, w, ls, w', x);
    assert Slot(at.part, at.offset) in w'.d.main.book.fates;
    assert DS.MainFateTrue(cfg.d, RecordAt(w'.d.main.topic, at), w'.d.main.book.fates[at]);
  }

  // ---------------------------------------------------------------- counters

  ghost predicate LabelsAgree(w: World) {
    forall name :: H.LabelsAgree(w.sh, w.main, w.retry, name)
  }

  ghost predicate CountersAgree(w: World) {
    && (forall kind :: H.FailuresAgree(w.sh, w.main, w.retry, kind))
    && H.TotalsAgree(w.sh, w.main, w.retry)
  }

  /** Outside the handler only a crash touches these counters, and it takes them all. */
  predicate CountersKept(w: World, w': World, crash: bool) {
    if crash then
      && w'.sh.counters == H.ZERO && w'.sh.tally.returned == 0 && w'.sh.tally.made == H.NONE_MADE
      && w'.main.Away? && w'.retry.Away?
    else
      && w'.sh.counters == w.sh.counters.(permanent := w'.sh.counters.permanent)
      && w'.sh.tally.returned == w.sh.tally.returned && w'.sh.tally.made == w.sh.tally.made
      && (w'.main == w.main || (w.main.Returning? && w'.main.Away?))
      && (w'.retry == w.retry || (w.retry.Returning? && w'.retry.Away?))
  }

  lemma CountersUntouched(cfg: Config, w: World, l: Label)
    requires Step(cfg, w, l).Some? && !l.Handler?
    ensures CountersKept(w, Step(cfg, w, l).value, l.Crash?)
  {
    LocalPart(cfg, w, l);
  }

  lemma CountersOutside(w: World, w': World, crash: bool)
    requires CountersAgree(w) && CountersKept(w, w', crash)
    ensures CountersAgree(w')
  {
    forall kind ensures H.FailuresAgree(w'.sh, w'.main, w'.retry, kind) {
      assert H.FailuresAgree(w.sh, w.main, w.retry, kind);
    }
  }

  lemma CountersStep(cfg: Config, w: World, l: Label)
    requires H.Consistent(w.main) && H.Consistent(w.retry) && CountersAgree(w) && Step(cfg, w, l).Some?
    ensures CountersAgree(Step(cfg, w, l).value)
  {
    if l.Handler? {
      HandlerSteps(cfg, w, l);
      var w' := Step(cfg, w, l).value;
      var pc, other := PcOf(w, l.loop), if l.loop.MainLoop? then w.retry else w.main;
      H.TotalsAgreeStep(cfg.codec, w.sh, pc, other, l.h);
      forall kind ensures H.FailuresAgree(w'.sh, w'.main, w'.retry, kind) {
        assert H.FailuresAgree(w.sh, w.main, w.retry, kind);
        H.FailuresAgreeStep(cfg.codec, w.sh, pc, other, l.h, kind);
      }
    } else {
      CountersUntouched(cfg, w, l);
      CountersOutside(w, Step(cfg, w, l).value, l.Crash?);
    }
  }

  lemma LabelsOutside(w: World, w': World, crash: bool)
    requires LabelsAgree(w) && CountersKept(w, w', crash)
    ensures LabelsAgree(w')
  {
    forall name ensures H.LabelsAgree(w'.sh, w'.main, w'.retry, name) {
      assert H.LabelsAgree(w.sh, w.main, w.retry, name);
    }
  }

  lemma LabelsStep(cfg: Config, w: World, l: Label)
    requires H.Consistent(w.main) && H.Consistent(w.retry) && LabelsAgree(w) && Step(cfg, w, l).Some?
    ensures LabelsAgree(Step(cfg, w, l).value)
  {
    if l.Handler? {
      HandlerSteps(cfg, w, l);
      var w' := Step(cfg, w, l).value;
      var pc, other := PcOf(w, l.loop), if l.loop.MainLoop? then w.retry else w.main;
      forall name ensures H.LabelsAgree(w'.sh, w'.main, w'.retry, name) {
        assert H.LabelsAgree(w.sh, w.main, w.retry, name);
        H.LabelsAgreeStep(cfg.codec, w.sh, pc, other, l.h, name);
      }
    } else {
      CountersUntouched(cfg, w, l);
      LabelsOutside(w, Step(cfg, w, l).value, l.Crash?);
    }
  }

  lemma {:induction false} CountersAlways(cfg: Config, w: World, ls: seq<Label>, w': World)
    requires D.ValidConfig(cfg.d) && WInv(cfg, w) && CountersAgree(w) && LabelsAgree(w) && Runs(cfg, w, ls, w')
    ensures CountersAgree(w') && LabelsAgree(w')
    decreases |ls|
  {
    if ls != [] {
      WInvStep(cfg, w, ls[0]);
      CountersStep(cfg, w, ls[0]);
      LabelsStep(cfg, w, ls[0]);
      CountersAlways(cfg, Step(cfg, w, ls[0]).value, ls[1..], w');
    }
  }

  /** Counter conservation, whenever no handler call is under way. Label by label: the success and failure
      counters are the Process calls that succeeded and failed for events of that type since the process
      started, the action counter the actions they chose, and DLQ events equal failures. In all: successes
      equal actions taken, and successes and failures together the Process calls that returned. */
  lemma CountersConserved(cfg: Config, w: World, ls: seq<Label>, w': World, name: string)
    requires D.ValidConfig(cfg.d) && Init(w) && Runs(cfg, w, ls, w') && w'.main.Away? && w'.retry.Away?
    ensures var k, m := w'.sh.counters, w'.sh.tally.made;
      && k.processedOk[name] == m.oks[name] && k.actions[name] == m.chosen[name]
      && k.processedFail[name] == m.fails[name] == k.dlqEvents[name]
      && |k.processedOk| == |k.actions|
      && |k.processedOk| + |k.processedFail| == w'.sh.tally.returned
  {
    InitWInv(cfg, w);
    CountersAlways(cfg, w, ls, w');
    assert H.FailuresAgree(w'.sh, w'.main, w'.retry, name);
    assert H.LabelsAgree(w'.sh, w'.main, w'.retry, name);
  }

  // ---------------------------------------------------------------- referential integrity

  /** The message's event has its row. */
  predicate HasRow(cfg: Config, t: Tables, value: string) {
    match cfg.d.parse(value)
    case None => true
    case Some(ev) => ev.id in t.events
  }

  ghost predicate TopicHasRows(cfg: Config, t: Tables, topic: Topic) {
    forall p, o :: 0 <= p < |topic| && 0 <= o < |topic[p].log| ==> HasRow(cfg, t, topic[p].log[o].msg.value)
  }

  predicate RequestHasRow(cfg: Config, t: Tables, q: Request) {
    match q
    case Stored(ev) => ValidType(ev.kind) && ev.id in t.events
    case Sent(msg) => HasRow(cfg, t, msg.value)
  }

  ghost predicate Rows(cfg: Config, w: World) {
    && ReferencesHold(w.sh.tables)
    && (!w.external ==>
          && TopicHasRows(cfg, w.sh.tables, w.d.main.topic)
          && (forall i :: 0 <= i < |w.api| ==> RequestHasRow(cfg, w.sh.tables, w.api[i]))
          && w.sh.tally.fkViolations == 0)
  }

  lemma HandlerTables(cfg: Config, w: World, l: Label)
    requires l.Handler? && Step(cfg, w, l).Some?
    ensures var t, t' := w.sh.tables, Step(cfg, w, l).value.sh.tables;
      Grows(t, t') && (ReferencesHold(t) ==> ReferencesHold(t'))
  {
    HandlerSteps(cfg, w, l);
    var pc := PcOf(w, l.loop);
    if l.h.Save? && pc.Decided? {
      DecisionGrows(w.sh.tables, pc.d, l.h.up);
    }
  }

  lemma OtherTables(cfg: Config, w: World, l: Label)
    requires !l.Handler? && Step(cfg, w, l).Some?
    ensures var t, t' := w.sh.tables, Step(cfg, w, l).value.sh.tables;
      || t' == t
      || (l.GiveUp? && exists d, up :: t' == WithDecision(t, d, up))
      || (l.ApiSave? && t' == WithEvent(t, l.ev))
  {
    LocalPart(cfg, w, l);
    if l.GiveUp? {
      var ev := cfg.d.parse(InHand(w.d.retry).msg.value);
      if ev.Some? {
        var t' := WithDecision(w.sh.tables, H.PermanentFailure(ev.value, l.stamp), l.up);
        assert Step(cfg, w, l).value.sh.tables == t';
      }
    }
  }

  /** Tables only grow, and keep their references, whatever happens. */
  lemma TablesStep(cfg: Config, w: World, l: Label)
    requires Step(cfg, w, l).Some?
    ensures var t, t' := w.sh.tables, Step(cfg, w, l).value.sh.tables;
      Grows(t, t') && (ReferencesHold(t) ==> ReferencesHold(t'))
  {
    if l.Handler? {
      HandlerTables(cfg, w, l);
    } else {
      var t, t' := w.sh.tables, Step(cfg, w, l).value.sh.tables;
      OtherTables(cfg, w, l);
      if l.GiveUp? && t' != t {
        var d, up :| t' == WithDecision(t, d, up);
        DecisionGrows(t, d, up);
      } else if l.ApiSave? {
        EventGrows(t, l.ev);
      }
    }
  }

  /** The events topic grows only by what the API processes or other programs write. */
  lemma EventsGrowth(cfg: Config, d: D.State, dl: D.Label)
    requires D.Enabled(cfg.d, d, dl)
    ensures var t, t' := d.main.topic, D.Next(cfg.d, d, dl).main.topic;
      |t'| == |t| && forall p :: 0 <= p < |t| ==>
        t'[p].log == t[p].log || (dl.Ingest? && p == dl.part && |t'[p].log| == |t[p].log| + 1
          && t'[p].log[..|t[p].log|] == t[p].log && t'[p].log[|t[p].log|].msg == dl.msg)
  {
    D.OpsFit(cfg.d, d, dl);
  }

  lemma TopicRowsStep(cfg: Config, d: D.State, dl: D.Label, t: Tables)
    requires D.Enabled(cfg.d, d, dl) && TopicHasRows(cfg, t, d.main.topic)
    requires dl.Ingest? ==> HasRow(cfg, t, dl.msg.value)
    ensures TopicHasRows(cfg, t, D.Next(cfg.d, d, dl).main.topic)
  {
    EventsGrowth(cfg, d, dl);
    var topic, topic' := d.main.topic, D.Next(cfg.d, d, dl).main.topic;
    forall p, o | 0 <= p < |topic'| && 0 <= o < |topic'[p].log|
      ensures HasRow(cfg, t, topic'[p].log[o].msg.value)
    {
      assert o < |topic[p].log| ==> topic'[p].log[o] == topic[p].log[o];
    }
  }

  lemma RowsGrow(cfg: Config, t: Tables, t': Tables, topic: Topic)
    requires Grows(t, t') && TopicHasRows(cfg, t, topic)
    ensures TopicHasRows(cfg, t', topic)
  {
  }

  lemma ApiStep(cfg: Config, w: World, l: Label)
    requires RoundTrips(cfg) && Rows(cfg, w) && !w.external && Step(cfg, w, l).Some?
    ensures var w' := Step(cfg, w, l).value;
      forall i :: 0 <= i < |w'.api| ==> RequestHasRow(cfg, w'.sh.tables, w'.api[i])
  {
    LocalPart(cfg, w, l);
    TablesStep(cfg, w, l);
  }

  /** The event a call works on has its row, in either loop. */
  lemma CallHasRow(cfg: Config, w: World, loop: Loop)
    requires WInv(cfg, w) && Rows(cfg, w) && !w.external && !PcOf(w, loop).Away?
    ensures PcOf(w, loop).ev.id in w.sh.tables.events
  {
    match loop
    case MainLoop => assert HasRow(cfg, w.sh.tables, InHand(w.d.main).msg.value);
    case RetryLoop =>
      assert DS.Provenance(cfg.d, w.d.main.topic, InHand(w.d.retry));
      assert HasRow(cfg, w.sh.tables, RecordAt(w.d.main.topic, InHand(w.d.retry).src).msg.value);
  }

  lemma NoViolationStep(cfg: Config, w: World, l: Label)
    requires WInv(cfg, w) && Rows(cfg, w) && !w.external && Step(cfg, w, l).Some?
    ensures Step(cfg, w, l).value.sh.tally.fkViolations == 0
  {
    LocalPart(cfg, w, l);
    if l.Handler? {
      HandlerSteps(cfg, w, l);
      if !PcOf(w, l.loop).Away? {
        CallHasRow(cfg, w, l.loop);
      }
      H.RowsPreventViolation(cfg.codec, w.sh, PcOf(w, l.loop), l.h);
    } else if l.GiveUp? {
      assert DS.Provenance(cfg.d, w.d.main.topic, InHand(w.d.retry));
      assert HasRow(cfg, w.sh.tables, RecordAt(w.d.main.topic, InHand(w.d.retry).src).msg.value);
    }
  }

  lemma TopicKeepsRows(cfg: Config, w: World, l: Label)
    requires Rows(cfg, w) && Step(cfg, w, l).Some? && !Step(cfg, w, l).value.external
    ensures TopicHasRows(cfg, Step(cfg, w, l).value.sh.tables, Step(cfg, w, l).value.d.main.topic)
  {
    var w' := Step(cfg, w, l).value;
    NotExternal(cfg, w, l);
    ProtocolPart(cfg, w, l);
    TablesStep(cfg, w, l);
    if DeliveryLabel(w, l).Some? {
      if DeliveryLabel(w, l).value.Ingest? {
        IngestedHasRow(cfg, w, l);
      }
      TopicRowsStep(cfg, w.d, DeliveryLabel(w, l).value, w.sh.tables);
    }
    RowsGrow(cfg, w.sh.tables, w'.sh.tables, w'.d.main.topic);
  }

  lemma NotExternal(cfg: Config, w: World, l: Label)
    requires Step(cfg, w, l).Some? && !Step(cfg, w, l).value.external
    ensures !w.external && !l.External?
  {
    LocalPart(cfg, w, l);
  }

  /** What enters the events topic from an endpoint has its row. */
  lemma IngestedHasRow(cfg: Config, w: World, l: Label)
    requires Rows(cfg, w) && !w.external && !l.External? && Step(cfg, w, l).Some?
    requires DeliveryLabel(w, l).Some? && DeliveryLabel(w, l).value.Ingest?
    ensures HasRow(cfg, w.sh.tables, DeliveryLabel(w, l).value.msg.value)
  {
    LocalPart(cfg, w, l);
  }

  lemma RowsStep(cfg: Config, w: World, l: Label)
    requires RoundTrips(cfg) && WInv(cfg, w) && Rows(cfg, w) && Step(cfg, w, l).Some?
    ensures Rows(cfg, Step(cfg, w, l).value)
  {
    TablesStep(cfg, w, l);
    if !Step(cfg, w, l).value.external {
      NotExternal(cfg, w, l);
      ApiStep(cfg, w, l);
      NoViolationStep(cfg, w, l);
      TopicKeepsRows(cfg, w, l);
    }
  }

  lemma {:induction false} RowsAlways(cfg: Config, w: World, ls: seq<Label>, w': World)
    requires D.ValidConfig(cfg.d) && RoundTrips(cfg) && WInv(cfg, w) && Rows(cfg, w) && Runs(cfg, w, ls, w')
    ensures WInv(cfg, w') && Rows(cfg, w')
    decreases |ls|
  {
    if ls != [] {
      WInvStep(cfg, w, ls[0]);
      RowsStep(cfg, w, ls[0]);
      RowsAlways(cfg, Step(cfg, w, ls[0]).value, ls[1..], w');
    }
  }

  /** Referential integrity across the processes: if every message entered through the ingest endpoints,
      every message in either topic has its event row, and the foreign key never refused a decision of the
      handler or of the permanent-failure callback. */
  lemma NoForeignKeyViolation(cfg: Config, w: World, ls: seq<Label>, w': World, at: Slot)
    requires D.ValidConfig(cfg.d) && RoundTrips(cfg) && Init(w) && Runs(cfg, w, ls, w') && !w'.external
    ensures w'.sh.tally.fkViolations == 0 && ReferencesHold(w'.sh.tables)
    ensures ValidSlot(w'.d.main.topic, at) ==> HasRow(cfg, w'.sh.tables, RecordAt(w'.d.main.topic, at).msg.value)
    ensures ValidSlot(w'.d.retry.topic, at) ==> HasRow(cfg, w'.sh.tables, RecordAt(w'.d.retry.topic, at).msg.value)
  {
    InitWInv(cfg, w);
    RowsAlways(cfg, w, ls, w');
    if ValidSlot(w'.d.retry.topic, at) {
      var r := RecordAt(w'.d.retry.topic, at);
      assert DS.Provenance(cfg.d, w'.d.main.topic, r);
      assert HasRow(cfg, w'.sh.tables, RecordAt(w'.d.main.topic, r.src).msg.value);
    }
  }
}
