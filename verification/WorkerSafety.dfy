/** What the real handler makes of the delivery protocol: how often an event is processed, what a retry can
    achieve, and when a message is given up on. All statements hold in every run, with both loops interleaved,
    redelivery, crashes, expiring keys and failing stores. */
module WorkerSafety {
  import opened Wrappers
  import opened Events
  import opened Kafka
  import opened Agent
  import opened Storage
  import opened Worker
  import D = Delivery
  import DS = DeliverySafety
  import H = EventHandler

  // ---------------------------------------------------------------- calls belong to messages

  predicate LocatedIn(cfg: Config, d: D.State, pc: H.Pc, loop: Loop) {
    !pc.Away? ==> CurrentEvent(cfg, d, loop) == Some(pc.ev)
  }

  ghost predicate WInv(cfg: Config, w: World) {
    && DS.Inv(cfg.d, w.d)
    && LocatedIn(cfg, w.d, w.main, MainLoop) && LocatedIn(cfg, w.d, w.retry, RetryLoop)
    && H.Consistent(w.main) && H.Consistent(w.retry)
  }

  /** The protocol step that takes a handler call away from its message. */
  predicate EndsCall(dl: D.Label, loop: Loop) {
    dl.Crash? || (if loop.MainLoop? then dl.MainOk? || dl.MainErr? else dl.RetryOk? || dl.RetryErr?)
  }

  lemma CurrentEventStays(cfg: Config, d: D.State, dl: D.Label, loop: Loop)
    requires Placed(d.main) && Placed(d.retry) && D.Enabled(cfg.d, d, dl)
    requires CurrentEvent(cfg, d, loop).Some? && !EndsCall(dl, loop)
    ensures CurrentEvent(cfg, D.Next(cfg.d, d, dl), loop) == CurrentEvent(cfg, d, loop)
  {
    D.OpsFit(cfg.d, d, dl);
    var d' := D.Next(cfg.d, d, dl);
    match loop
    case MainLoop =>
      if D.MainOp(d, dl).Some? {
        HandStays(d.main, D.MainOp(d, dl).value);
      }
    case RetryLoop =>
      if D.RetryOp(d, dl).Some? {
        HandStays(d.retry, D.RetryOp(d, dl).value);
      }
  }

  lemma HandStays(sd: Side, op: Op)
    requires Placed(sd) && Fits(sd, op) && !sd.pc.Idle?
    ensures op.Append? ==> Apply(sd, op).pc == sd.pc && Holding(Apply(sd, op)) && InHand(Apply(sd, op)) == InHand(sd)
  {
  }

  /** A label changes everything but the protocol state by its local effect ... */
  lemma LocalPart(cfg: Config, w: World, l: Label)
    requires Step(cfg, w, l).Some?
    ensures Local(cfg, w, l).Some?
    ensures var w', local := Step(cfg, w, l).value, Local(cfg, w, l).value;
      && w'.main == local.main && w'.retry == local.retry && w'.sh == local.sh
      && w'.api == local.api && w'.external == local.external
  {
  }

  /** ... and the protocol state by its protocol step. */
  lemma ProtocolPart(cfg: Config, w: World, l: Label)
    requires Step(cfg, w, l).Some?
    ensures var w' := Step(cfg, w, l).value;
      if DeliveryLabel(w, l).Some? then D.Step(cfg.d, w.d, DeliveryLabel(w, l).value) == Some(w'.d) else w'.d == w.d
  {
    LocalKeepsDelivery(cfg, w, l);
  }

  lemma DeliveryInvStep(cfg: Config, w: World, l: Label)
    requires D.ValidConfig(cfg.d) && DS.Inv(cfg.d, w.d) && Step(cfg, w, l).Some?
    ensures DS.Inv(cfg.d, Step(cfg, w, l).value.d)
  {
    LocalPart(cfg, w, l);
    ProtocolPart(cfg, w, l);
    if DeliveryLabel(w, l).Some? {
      DS.InvStep(cfg.d, w.d, DeliveryLabel(w, l).value);
    }
  }

  lemma HandlerStepLocates(cfg: Config, w: World, loop: Loop, h: H.Label)
    requires LocatedIn(cfg, w.d, PcOf(w, loop), loop) && HandlerStep(cfg, w, loop, h).Some?
    ensures var w' := HandlerStep(cfg, w, loop, h).value; LocatedIn(cfg, w.d, PcOf(w', loop), loop)
    ensures H.Consistent(PcOf(w, loop)) ==> H.Consistent(PcOf(HandlerStep(cfg, w, loop, h).value, loop))
  {
    if H.Consistent(PcOf(w, loop)) {
      H.ConsistentStep(cfg.codec, w.sh, PcOf(w, loop), h);
    }
  }

  /** The calls after a step: unchanged, one further, returned, or gone. */
  lemma CallsAfter(cfg: Config, w: World, l: Label, loop: Loop)
    requires Step(cfg, w, l).Some?
    ensures var pc, pc' := PcOf(w, loop), PcOf(Step(cfg, w, l).value, loop);
      if l.Handler? && l.loop == loop then HandlerStep(cfg, w, loop, l.h).Some? && pc' == PcOf(HandlerStep(cfg, w, loop, l.h).value, loop)
      else if (l.Return? && l.loop == loop) || l.Crash? then pc'.Away?
      else pc' == pc
  {
    LocalPart(cfg, w, l);
  }

  /** Only a return or a crash takes a call away from its message. */
  lemma CallsEndThere(cfg: Config, w: World, l: Label, loop: Loop)
    requires Step(cfg, w, l).Some? && DeliveryLabel(w, l).Some? && EndsCall(DeliveryLabel(w, l).value, loop)
    ensures l.Crash? || (l.Return? && l.loop == loop)
  {
    LocalPart(cfg, w, l);
    ProtocolPart(cfg, w, l);
  }

  /** A message with a call under way stays put while that call is not touched. */
  lemma UntouchedStays(cfg: Config, w: World, l: Label, loop: Loop)
    requires Placed(w.d.main) && Placed(w.d.retry) && Step(cfg, w, l).Some?
    requires CurrentEvent(cfg, w.d, loop).Some? && !l.Crash? && !(l.Return? && l.loop == loop)
    ensures CurrentEvent(cfg, Step(cfg, w, l).value.d, loop) == CurrentEvent(cfg, w.d, loop)
  {
    LocalPart(cfg, w, l);
    ProtocolPart(cfg, w, l);
    if DeliveryLabel(w, l).Some? {
      if EndsCall(DeliveryLabel(w, l).value, loop) {
        CallsEndThere(cfg, w, l, loop);
      } else {
        CurrentEventStays(cfg, w.d, DeliveryLabel(w, l).value, loop);
      }
    }
  }

  lemma LocatedStep(cfg: Config, w: World, l: Label, loop: Loop)
    requires Placed(w.d.main) && Placed(w.d.retry) && LocatedIn(cfg, w.d, PcOf(w, loop), loop)
    requires H.Consistent(PcOf(w, loop)) && Step(cfg, w, l).Some?
    ensures var w' := Step(cfg, w, l).value; LocatedIn(cfg, w'.d, PcOf(w', loop), loop) && H.Consistent(PcOf(w', loop))
  {
    CallsAfter(cfg, w, l, loop);
    if l.Handler? && l.loop == loop {
      LocalPart(cfg, w, l);
    ProtocolPart(cfg, w, l);
      HandlerStepLocates(cfg, w, loop, l.h);
    } else if !PcOf(w, loop).Away? && !(l.Return? && l.loop == loop) && !l.Crash? {
      UntouchedStays(cfg, w, l, loop);
    }
  }

  lemma WInvStep(cfg: Config, w: World, l: Label)
    requires D.ValidConfig(cfg.d) && WInv(cfg, w) && Step(cfg, w, l).Some?
    ensures WInv(cfg, Step(cfg, w, l).value)
  {
    DeliveryInvStep(cfg, w, l);
    LocatedStep(cfg, w, l, MainLoop);
    LocatedStep(cfg, w, l, RetryLoop);
  }

  lemma InitWInv(cfg: Config, w: World)
    requires Init(w)
    ensures WInv(cfg, w)
  {
    DS.InitInv(cfg.d, w.d);
  }

  // ---------------------------------------------------------------- how often an event is processed

  lemma GuardStep(cfg: Config, w: World, l: Label, x: string)
    requires H.GuardHolds(w.sh, w.main, w.retry, x) && Step(cfg, w, l).Some?
    ensures var w' := Step(cfg, w, l).value; H.GuardHolds(w'.sh, w'.main, w'.retry, x)
  {
    if l.Handler? {
      HandlerSteps(cfg, w, l);
      if l.loop.MainLoop? {
        H.GuardHoldsStep(cfg.codec, w.sh, w.main, w.retry, l.h, x);
      } else {
        H.GuardHoldsStep(cfg.codec, w.sh, w.retry, w.main, l.h, x);
      }
    } else {
      GuardStepOutside(cfg, w, l, x);
    }
  }

  /** A handler label is a step of that loop's call; the other call does not move. */
  lemma HandlerSteps(cfg: Config, w: World, l: Label)
    requires l.Handler? && Step(cfg, w, l).Some?
    ensures var w' := Step(cfg, w, l).value;
      && w'.d == w.d && w'.api == w.api && w'.external == w.external
      && H.Step(cfg.codec, w.sh, PcOf(w, l.loop), l.h) == Some((w'.sh, PcOf(w', l.loop)))
      && (l.h.Guard? ==> CurrentEvent(cfg, w.d, l.loop) == Some(l.h.ev))
      && (if l.loop.MainLoop? then w'.retry == w.retry else w'.main == w.main)
  {
    LocalPart(cfg, w, l);
    ProtocolPart(cfg, w, l);
    assert HandlerStep(cfg, w, l.loop, l.h).Some?;
  }

  /** Outside the handler, expiry and crashes apart, keys and the history of calls stay, and calls only
      return. */
  lemma QuietOutside(cfg: Config, w: World, l: Label)
    requires Step(cfg, w, l).Some? && !l.Handler? && !l.Crash? && !l.Expire?
    ensures Quiet(w, Step(cfg, w, l).value)
  {
    LocalPart(cfg, w, l);
  }

  predicate Quiet(w: World, w': World) {
    var t, t' := w.sh.tally, w'.sh.tally;
    && w'.sh.seen == w.sh.seen
    && t'.claimed == t.claimed && t'.blocked == t.blocked && t'.interrupted == t.interrupted
    && t'.begun == t.begun && t'.succeeded == t.succeeded && t'.failed == t.failed
    && t'.expired == t.expired && t'.guardErrors == t.guardErrors
    && (w'.main == w.main || (w.main.Returning? && w'.main.Away?))
    && (w'.retry == w.retry || (w.retry.Returning? && w'.retry.Away?))
  }

  /** A key that expires. */
  function Expired(sh: H.Shared, id: string): H.Shared {
    sh.(seen := sh.seen - {id}, tally := sh.tally.(expired := sh.tally.expired + multiset{id}))
  }

  lemma ExpireStep(cfg: Config, w: World, l: Label)
    requires l.Expire? && Step(cfg, w, l).Some?
    ensures l.id in w.sh.seen && Step(cfg, w, l).value == w.(sh := Expired(w.sh, l.id))
  {
  }

  lemma CrashStep(cfg: Config, w: World)
    requires Step(cfg, w, Crash).Some?
    ensures var w' := Step(cfg, w, Crash).value; w'.sh == AfterCrash(w).sh && w'.main.Away? && w'.retry.Away?
  {
    LocalPart(cfg, w, Crash);
  }

  lemma GuardExpires(sh: H.Shared, pc: H.Pc, other: H.Pc, id: string, x: string)
    requires H.GuardHolds(sh, pc, other, x) && id in sh.seen
    ensures H.GuardHolds(Expired(sh, id), pc, other, x)
  {
  }

  lemma GuardStepOutside(cfg: Config, w: World, l: Label, x: string)
    requires H.GuardHolds(w.sh, w.main, w.retry, x) && Step(cfg, w, l).Some? && !l.Handler?
    ensures var w' := Step(cfg, w, l).value; H.GuardHolds(w'.sh, w'.main, w'.retry, x)
  {
    if l.Expire? {
      ExpireStep(cfg, w, l);
      GuardExpires(w.sh, w.main, w.retry, l.id, x);
    } else if l.Crash? {
      CrashStep(cfg, w);
    } else {
      QuietOutside(cfg, w, l);
    }
  }

  lemma {:induction false} GuardAlways(cfg: Config, w: World, ls: seq<Label>, w': World, x: string)
    requires H.GuardHolds(w.sh, w.main, w.retry, x) && Runs(cfg, w, ls, w')
    ensures H.GuardHolds(w'.sh, w'.main, w'.retry, x)
    decreases |ls|
  {
    if ls != [] {
      GuardStep(cfg, w, ls[0], x);
      GuardAlways(cfg, Step(cfg, w, ls[0]).value, ls[1..], w', x);
    }
  }

  /** Calls of Process for one event, over both loops, redeliveries and duplicate messages: at most one,
      plus one for each time its idempotency key expired or could not be checked. */
  lemma ProcessingIsBounded(cfg: Config, w: World, ls: seq<Label>, w': World, x: string)
    requires Init(w) && Runs(cfg, w, ls, w')
    ensures w'.sh.tally.begun[x] <= 1 + H.Faults(w'.sh.tally, x)
  {
    GuardAlways(cfg, w, ls, w', x);
  }

  /** Process returned for x, or is under way for it. */
  predicate Attended(w: World, x: string) {
    H.Processed(w.sh.tally, x) > 0 || H.Busy(w.main, x) || H.Busy(w.retry, x)
  }

  // ---------------------------------------------------------------- what a dead-letter message proves

  function IdOf(cfg: Config, r: Record): string {
    match cfg.d.parse(r.msg.value)
    case None => ""
    case Some(ev) => ev.id
  }

  /** A dead-letter message with count c stands for c + 1 failed Process calls of its event. */
  predicate Backs(cfg: Config, failed: multiset<string>, r: Record, extra: nat) {
    failed[IdOf(cfg, r)] >= D.RetryCount(r) + 1 + extra
  }

  ghost predicate BackedDelivery(cfg: Config, d: D.State, failed: multiset<string>) {
    && (forall p, o :: 0 <= p < |d.retry.topic| && 0 <= o < |d.retry.topic[p].log| ==>
          Backs(cfg, failed, d.retry.topic[p].log[o], 0))
    && (forall i :: 0 <= i < |d.pipe.inflight| ==> Backs(cfg, failed, d.pipe.inflight[i], 0))
    && (d.main.pc.Failed? && Holding(d.main) ==> failed[IdOf(cfg, InHand(d.main))] >= 1)
    && (d.retry.pc.Failed? && Holding(d.retry) ==> Backs(cfg, failed, InHand(d.retry), 1))
  }

  predicate Errs(pc: H.Pc) {
    (H.AfterDecision(pc) || pc.Returning?) && pc.err.Some?
  }

  ghost predicate Backed(cfg: Config, w: World) {
    var failed := w.sh.tally.failed;
    && BackedDelivery(cfg, w.d, failed)
    && (Errs(w.main) ==> failed[w.main.ev.id] >= 1)
    && (Errs(w.retry) && Holding(w.d.retry) ==> Backs(cfg, failed, InHand(w.d.retry), 1))
    && (D.Budget(cfg.d) == cfg.d.maxRetry ==>
          forall x :: w.sh.tally.gaveUp[x] > 0 ==> failed[x] >= cfg.d.maxRetry + 1)
  }

  lemma OutgoingBacked(cfg: Config, d: D.State, dl: D.Label, failed: multiset<string>)
    requires D.ValidConfig(cfg.d) && DS.Inv(cfg.d, d) && BackedDelivery(cfg, d, failed)
    requires D.Enabled(cfg.d, d, dl) && D.Outgoing(cfg.d, d, dl).Some?
    ensures Backs(cfg, failed, D.Outgoing(cfg.d, d, dl).value, 0)
  {
    DS.OutgoingProvenance(cfg.d, d, dl);
  }

  lemma PipeBacked(cfg: Config, d: D.State, dl: D.Label, failed: multiset<string>)
    requires D.Enabled(cfg.d, d, dl) && BackedDelivery(cfg, d, failed)
    requires D.Outgoing(cfg.d, d, dl).Some? ==> Backs(cfg, failed, D.Outgoing(cfg.d, d, dl).value, 0)
    ensures forall r :: r in D.NextPipe(cfg.d, d, dl).inflight ==> Backs(cfg, failed, r, 0)
  {
    forall r | r in D.NextPipe(cfg.d, d, dl).inflight ensures Backs(cfg, failed, r, 0) {
      assert r in d.pipe.inflight || (D.Outgoing(cfg.d, d, dl).Some? && r == D.Outgoing(cfg.d, d, dl).value);
    }
  }

  lemma TopicBacked(cfg: Config, d: D.State, dl: D.Label, failed: multiset<string>)
    requires D.Enabled(cfg.d, d, dl) && BackedDelivery(cfg, d, failed)
    ensures var t' := D.Next(cfg.d, d, dl).retry.topic;
      forall p, o :: 0 <= p < |t'| && 0 <= o < |t'[p].log| ==> Backs(cfg, failed, t'[p].log[o], 0)
  {
    DS.DlqGrowth(cfg.d, d, dl);
    var t, t' := d.retry.topic, D.Next(cfg.d, d, dl).retry.topic;
    forall p, o | 0 <= p < |t'| && 0 <= o < |t'[p].log| ensures Backs(cfg, failed, t'[p].log[o], 0) {
      assert o < |t[p].log| ==> t'[p].log[o] == t[p].log[o];
    }
  }

  /** When a loop enters its failed stage, or stays there. */
  lemma FailedStages(cfg: Config, d: D.State, dl: D.Label)
    requires Placed(d.main) && Placed(d.retry) && D.Enabled(cfg.d, d, dl)
    ensures var d' := D.Next(cfg.d, d, dl);
      && (d'.main.pc.Failed? && Holding(d'.main) ==>
            Holding(d.main) && InHand(d'.main) == InHand(d.main) && (d.main.pc.Failed? || dl.MainErr?))
      && (d'.retry.pc.Failed? && Holding(d'.retry) ==>
            Holding(d.retry) && InHand(d'.retry) == InHand(d.retry) && (d.retry.pc.Failed? || dl.RetryErr?))
  {
    D.OpsFit(cfg.d, d, dl);
  }

  lemma BackedDeliveryStep(cfg: Config, d: D.State, dl: D.Label, failed: multiset<string>)
    requires D.ValidConfig(cfg.d) && DS.Inv(cfg.d, d) && BackedDelivery(cfg, d, failed) && D.Enabled(cfg.d, d, dl)
    requires dl.MainErr? ==> failed[IdOf(cfg, InHand(d.main))] >= 1
    requires dl.RetryErr? ==> Backs(cfg, failed, InHand(d.retry), 1)
    ensures BackedDelivery(cfg, D.Next(cfg.d, d, dl), failed)
  {
    if D.Outgoing(cfg.d, d, dl).Some? {
      OutgoingBacked(cfg, d, dl, failed);
    }
    PipeBacked(cfg, d, dl, failed);
    TopicBacked(cfg, d, dl, failed);
    FailedStages(cfg, d, dl);
  }

  lemma BackedGrows(cfg: Config, d: D.State, failed: multiset<string>, failed': multiset<string>)
    requires BackedDelivery(cfg, d, failed) && forall x :: failed[x] <= failed'[x]
    ensures BackedDelivery(cfg, d, failed')
  {
  }

  /** The tally of failures moves only when a Process call returns an error. */
  lemma FailedAfter(cfg: Config, w: World, l: Label)
    requires Step(cfg, w, l).Some?
    ensures var failed, failed' := w.sh.tally.failed, Step(cfg, w, l).value.sh.tally.failed;
      && (forall x :: failed[x] <= failed'[x])
      && (!(l.Handler? && l.h.Complete?) ==> failed' == failed)
  {
    LocalPart(cfg, w, l);
  }

  /** A call that starts to fail has just added to the tally. */
  lemma ErrsAfter(cfg: Config, w: World, l: Label, loop: Loop)
    requires Step(cfg, w, l).Some?
    ensures var w' := Step(cfg, w, l).value;
      var pc, pc' := PcOf(w, loop), PcOf(w', loop);
      Errs(pc') ==>
        && !pc.Away? && pc'.ev == pc.ev
        && (Errs(pc) || w'.sh.tally.failed[pc.ev.id] == w.sh.tally.failed[pc.ev.id] + 1)
  {
    LocalPart(cfg, w, l);
    CallsAfter(cfg, w, l, loop);
  }

  lemma BackedDeliveryAfter(cfg: Config, w: World, l: Label)
    requires D.ValidConfig(cfg.d) && WInv(cfg, w) && Backed(cfg, w) && Step(cfg, w, l).Some?
    ensures BackedDelivery(cfg, Step(cfg, w, l).value.d, Step(cfg, w, l).value.sh.tally.failed)
  {
    LocalPart(cfg, w, l);
    ProtocolPart(cfg, w, l);
    FailedAfter(cfg, w, l);
    var w' := Step(cfg, w, l).value;
    if DeliveryLabel(w, l).Some? {
      BackedDeliveryStep(cfg, w.d, DeliveryLabel(w, l).value, w.sh.tally.failed);
    } else {
      BackedGrows(cfg, w.d, w.sh.tally.failed, w'.sh.tally.failed);
    }
  }

  lemma MainCallBacked(cfg: Config, w: World, l: Label)
    requires Backed(cfg, w) && Step(cfg, w, l).Some?
    ensures var w' := Step(cfg, w, l).value; Errs(w'.main) ==> w'.sh.tally.failed[w'.main.ev.id] >= 1
  {
    FailedAfter(cfg, w, l);
    ErrsAfter(cfg, w, l, MainLoop);
  }

  lemma RetryCallBacked(cfg: Config, w: World, l: Label)
    requires WInv(cfg, w) && Backed(cfg, w) && Step(cfg, w, l).Some?
    ensures var w' := Step(cfg, w, l).value;
      Errs(w'.retry) && Holding(w'.d.retry) ==> Backs(cfg, w'.sh.tally.failed, InHand(w'.d.retry), 1)
  {
    FailedAfter(cfg, w, l);
    ErrsAfter(cfg, w, l, RetryLoop);
    if Errs(Step(cfg, w, l).value.retry) {
      SameMessage(cfg, w, l);
      assert Backs(cfg, w.sh.tally.failed, InHand(w.d.retry), 0);
    }
  }

  /** While a call of the retry loop is under way its message stays in hand. */
  lemma SameMessage(cfg: Config, w: World, l: Label)
    requires WInv(cfg, w) && Step(cfg, w, l).Some? && !w.retry.Away? && !Step(cfg, w, l).value.retry.Away?
    ensures var w' := Step(cfg, w, l).value;
      Holding(w.d.retry) && Holding(w'.d.retry) && InHand(w'.d.retry) == InHand(w.d.retry)
  {
    LocalPart(cfg, w, l);
    ProtocolPart(cfg, w, l);
    CallsAfter(cfg, w, l, RetryLoop);
    if DeliveryLabel(w, l).Some? {
      ReadyStays(cfg, w.d, DeliveryLabel(w, l).value);
    }
  }

  lemma ReadyStays(cfg: Config, d: D.State, dl: D.Label)
    requires Placed(d.retry) && D.Enabled(cfg.d, d, dl) && d.retry.pc.Ready? && !dl.Crash?
    ensures var d' := D.Next(cfg.d, d, dl); Holding(d'.retry) && InHand(d'.retry) == InHand(d.retry)
  {
    D.OpsFit(cfg.d, d, dl);
    if D.RetryOp(d, dl).Some? && D.RetryOp(d, dl).value.Append? {
      HandStays(d.retry, D.RetryOp(d, dl).value);
    }
  }

  /** The callback runs for the message in hand, whose count has reached the limit. */
  lemma GiveUpCounts(cfg: Config, w: World, l: Label)
    requires Placed(w.d.retry) && DS.TopicProvenance(cfg.d, w.d.main.topic, w.d.retry.topic)
    requires l.GiveUp? && Step(cfg, w, l).Some?
    ensures Holding(w.d.retry) && D.RetryCount(InHand(w.d.retry)) >= cfg.d.maxRetry
    ensures Step(cfg, w, l).value.sh.tally.gaveUp == w.sh.tally.gaveUp + multiset{IdOf(cfg, InHand(w.d.retry))}
  {
    LocalPart(cfg, w, l);
    ProtocolPart(cfg, w, l);
    assert DS.Provenance(cfg.d, w.d.main.topic, InHand(w.d.retry));
  }

  lemma GaveUpAfter(cfg: Config, w: World, l: Label)
    requires WInv(cfg, w) && Backed(cfg, w) && Step(cfg, w, l).Some?
    requires D.Budget(cfg.d) == cfg.d.maxRetry
    ensures var w' := Step(cfg, w, l).value;
      forall x :: w'.sh.tally.gaveUp[x] > 0 ==> w'.sh.tally.failed[x] >= cfg.d.maxRetry + 1
  {
    FailedAfter(cfg, w, l);
    if l.GiveUp? {
      GiveUpCounts(cfg, w, l);
      assert Backs(cfg, w.sh.tally.failed, InHand(w.d.retry), 0);
    } else {
      GaveUpOnlyThere(cfg, w, l);
    }
  }

  lemma GaveUpOnlyThere(cfg: Config, w: World, l: Label)
    requires Step(cfg, w, l).Some? && !l.GiveUp?
    ensures Step(cfg, w, l).value.sh.tally.gaveUp == w.sh.tally.gaveUp
  {
    LocalPart(cfg, w, l);
  }

  lemma BackedStep(cfg: Config, w: World, l: Label)
    requires D.ValidConfig(cfg.d) && WInv(cfg, w) && Backed(cfg, w) && Step(cfg, w, l).Some?
    ensures Backed(cfg, Step(cfg, w, l).value)
  {
    BackedDeliveryAfter(cfg, w, l);
    MainCallBacked(cfg, w, l);
    RetryCallBacked(cfg, w, l);
    if D.Budget(cfg.d) == cfg.d.maxRetry {
      GaveUpAfter(cfg, w, l);
    }
  }

  lemma InitBacked(cfg: Config, w: World)
    requires Init(w)
    ensures Backed(cfg, w)
  {
  }

  lemma {:induction false} BackedAlways(cfg: Config, w: World, ls: seq<Label>, w': World)
    requires D.ValidConfig(cfg.d) && WInv(cfg, w) && Backed(cfg, w) && Runs(cfg, w, ls, w')
    ensures WInv(cfg, w') && Backed(cfg, w')
    decreases |ls|
  {
    if ls != [] {
      WInvStep(cfg, w, ls[0]);
      BackedStep(cfg, w, ls[0]);
      BackedAlways(cfg, Step(cfg, w, ls[0]).value, ls[1..], w');
    }
  }

  /** Retries are bounded by faults, not by the configured budget alone: a dead-letter message of event x
      has a retry count of at most the number of times the key of x expired or could not be checked.
      Without such a fault no message is ever re-queued with count 1 or more. */
  lemma RetryCountBoundedByFaults(cfg: Config, w: World, ls: seq<Label>, w': World, at: Slot)
    requires D.ValidConfig(cfg.d) && Init(w) && Runs(cfg, w, ls, w') && ValidSlot(w'.d.retry.topic, at)
    ensures var r := RecordAt(w'.d.retry.topic, at); D.RetryCount(r) <= H.Faults(w'.sh.tally, IdOf(cfg, r))
  {
    InitWInv(cfg, w);
    InitBacked(cfg, w);
    BackedAlways(cfg, w, ls, w');
    GuardAlways(cfg, w, ls, w', IdOf(cfg, RecordAt(w'.d.retry.topic, at)));
    assert Backs(cfg, w'.sh.tally.failed, RecordAt(w'.d.retry.topic, at), 0);
  }

  /** Giving up on x takes at least maxRetry faults of its key. */
  lemma GivingUpNeedsFaults(cfg: Config, w: World, ls: seq<Label>, w': World, x: string)
    requires D.ValidConfig(cfg.d) && Init(w) && Runs(cfg, w, ls, w') && w'.sh.tally.gaveUp[x] > 0
    ensures H.Faults(w'.sh.tally, x) >= cfg.d.maxRetry
  {
    InitWInv(cfg, w);
    InitBacked(cfg, w);
    BackedAlways(cfg, w, ls, w');
    GuardAlways(cfg, w, ls, w', x);
  }

  /** An event that has a message in the dead-letter topic succeeds only after a fault of its key: as long
      as the key lives, every retry is turned away as a duplicate and reported as a success. */
  lemma RetrySucceedsOnlyAfterFault(cfg: Config, w: World, ls: seq<Label>, w': World, at: Slot)
    requires D.ValidConfig(cfg.d) && Init(w) && Runs(cfg, w, ls, w') && ValidSlot(w'.d.retry.topic, at)
    ensures var x := IdOf(cfg, RecordAt(w'.d.retry.topic, at));
      && w'.sh.tally.failed[x] >= 1
      && (w'.sh.tally.succeeded[x] >= 1 ==> H.Faults(w'.sh.tally, x) >= 1)
  {
    var x := IdOf(cfg, RecordAt(w'.d.retry.topic, at));
    InitWInv(cfg, w);
    InitBacked(cfg, w);
    BackedAlways(cfg, w, ls, w');
    GuardAlways(cfg, w, ls, w', x);
    assert Backs(cfg, w'.sh.tally.failed, RecordAt(w'.d.retry.topic, at), 0);
    assert DS.Provenance(cfg.d, w'.d.main.topic, RecordAt(w'.d.retry.topic, at));
  }

  /** While the key of x lives unharmed, an event with a message in the dead-letter topic can never be
      processed again: every further call for it, from either loop, is turned away as a duplicate. */
  lemma RetryTurnedAway(cfg: Config, w: World, ls: seq<Label>, w': World, at: Slot, ev: Event)
    requires D.ValidConfig(cfg.d) && Init(w) && Runs(cfg, w, ls, w') && ValidSlot(w'.d.retry.topic, at)
    requires cfg.d.parse(RecordAt(w'.d.retry.topic, at).msg.value) == Some(ev) && H.Faults(w'.sh.tally, ev.id) == 0
    ensures w'.sh.tally.begun[ev.id] == w'.sh.tally.failed[ev.id] == 1
    ensures cfg.d.maxRetry > 0 ==> w'.sh.tally.gaveUp[ev.id] == 0
    ensures D.RetryCount(RecordAt(w'.d.retry.topic, at)) == 0
    ensures H.Step(cfg.codec, w'.sh, H.Away, H.Guard(ev, NoFault)) == Some((w'.sh, H.Returning(ev, None)))
  {
    InitWInv(cfg, w);
    InitBacked(cfg, w);
    BackedAlways(cfg, w, ls, w');
    GuardAlways(cfg, w, ls, w', ev.id);
    assert Backs(cfg, w'.sh.tally.failed, RecordAt(w'.d.retry.topic, at), 0);
    assert DS.Provenance(cfg.d, w'.d.main.topic, RecordAt(w'.d.retry.topic, at));
  }

  /** The dead-letter message in the retry loop's hand stands for a failure, so without faults its key is
      still there. */
  lemma KeyOfRetryLives(cfg: Config, w: World, ev: Event)
    requires WInv(cfg, w) && Backed(cfg, w) && H.GuardHolds(w.sh, w.main, w.retry, ev.id)
    requires CurrentEvent(cfg, w.d, RetryLoop) == Some(ev) && H.Faults(w.sh.tally, ev.id) == 0
    ensures ev.id in w.sh.seen
  {
    assert Backs(cfg, w.sh.tally.failed, InHand(w.d.retry), 0);
    assert DS.Provenance(cfg.d, w.d.main.topic, InHand(w.d.retry));
  }

  /** A call that returned nil is reported by the retry loop as a success. */
  lemma NilIsSuccess(cfg: Config, w: World)
    requires w.retry.Returning? && w.retry.err.None? && CurrentEvent(cfg, w.d, RetryLoop).Some?
    ensures var back := Step(cfg, w, Return(RetryLoop));
      && back.Some? && back.value.sh == w.sh && back.value.d.retry.pc.Disposed?
      && back.value.d.retry.book.handled == w.d.retry.book.handled + multiset{InHand(w.d.retry).src}
  {
    assert D.Step(cfg.d, w.d, D.RetryOk).Some?;
  }

  /** What a loop makes of a call that returned: nil deals with the message as handled, an error sends it, with
      that error, on its way to the dead-letter topic. The handler's own state does not move. */
  lemma ReturnReports(cfg: Config, w: World, loop: Loop)
    requires PcOf(w, loop).Returning? && CurrentEvent(cfg, w.d, loop).Some?
    ensures var back := Step(cfg, w, Return(loop));
      && back.Some? && PcOf(back.value, loop).Away? && back.value.sh == w.sh
      && var sd, sd' := SideOf(w.d, loop), SideOf(back.value.d, loop);
        && sd'.topic == sd.topic
        && match PcOf(w, loop).err
           case None => sd'.pc == Disposed(sd.pc.at) && sd'.book.fates == sd.book.fates[sd.pc.at := Fate.Handled]
           case Some(e) => sd'.pc == Pc.Failed(sd.pc.at, e) && sd'.book == sd.book
  {
    assert D.Step(cfg.d, w.d, ReturnLabel(loop, PcOf(w, loop).err)).Some?;
  }

  function SideOf(d: D.State, loop: Loop): Side {
    if loop.MainLoop? then d.main else d.retry
  }

  lemma CallCounts(cfg: Config, sh: H.Shared, ev: Event, a: H.Answers)
    ensures var (sh', err) := H.CallResult(cfg.codec, sh, ev, a);
      if LetsThrough(sh.seen, ev.id, a.fault) then
        && sh'.tally.begun == sh.tally.begun + multiset{ev.id}
        && H.Processed(sh'.tally, ev.id) == H.Processed(sh.tally, ev.id) + 1
      else
        err == None && sh'.tally.begun == sh.tally.begun && sh'.tables == sh.tables && sh'.counters == sh.counters
  {
  }

  /** Exactly when a retry is one. In every reachable state in which the retry loop is about to call the
      handler, whatever the outside answers: the call processes the event if and only if its check fails, or
      goes well and finds no key. Otherwise nothing is done and the retry is reported as a success. And
      without an expiry or a failed check in the past the key is there. */
  lemma RetryProcessesIff(cfg: Config, w: World, ls: seq<Label>, w': World, ev: Event, a: H.Answers)
    requires D.ValidConfig(cfg.d) && Init(w) && Runs(cfg, w, ls, w')
    requires w'.retry.Away? && CurrentEvent(cfg, w'.d, RetryLoop) == Some(ev)
    ensures var (sh', err) := H.CallResult(cfg.codec, w'.sh, ev, a);
      var called := w'.(retry := H.Returning(ev, err), sh := sh');
      && Runs(cfg, w', Lifted(RetryLoop, H.HandlerLabels(w'.sh, ev, a)), called)
      && (H.Processed(sh'.tally, ev.id) == H.Processed(w'.sh.tally, ev.id) + 1
          <==> a.fault.CheckFails? || (a.fault.NoFault? && ev.id !in w'.sh.seen))
      && (!a.fault.CheckFails? && (a.fault.ReplyLost? || ev.id in w'.sh.seen) ==> ReportedDone(cfg, w', called))
    ensures H.Faults(w'.sh.tally, ev.id) == 0 ==> ev.id in w'.sh.seen
  {
    InitWInv(cfg, w);
    InitBacked(cfg, w);
    BackedAlways(cfg, w, ls, w');
    GuardAlways(cfg, w, ls, w', ev.id);
    if H.Faults(w'.sh.tally, ev.id) == 0 {
      KeyOfRetryLives(cfg, w', ev);
    }
    CallCounts(cfg, w'.sh, ev, a);
    WholeCallRuns(cfg, w', RetryLoop, ev, a);
    var (sh', err) := H.CallResult(cfg.codec, w'.sh, ev, a);
    if !LetsThrough(w'.sh.seen, ev.id, a.fault) {
      NilIsSuccess(cfg, w'.(retry := H.Returning(ev, err), sh := sh'));
    }
  }

  /** The call did nothing, and its retry loop goes on as after a success. */
  ghost predicate ReportedDone(cfg: Config, before: World, called: World) {
    var back := Step(cfg, called, Return(RetryLoop));
    && called.sh.tally.begun == before.sh.tally.begun && called.sh.tables == before.sh.tables
    && called.sh.counters == before.sh.counters
    && Holding(before.d.retry) && back.Some? && back.value.d.retry.pc.Disposed?
    && back.value.d.retry.book.handled == before.d.retry.book.handled + multiset{InHand(before.d.retry).src}
  }
}
