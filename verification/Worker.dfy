/** The whole worker: the delivery protocol with the real handler called from both loops at once, the
    permanent-failure callback, expiring idempotency keys, crashes, and the API processes that feed the
    events topic (cmd/worker/main.go, api/rest/handlers.go, api/graphql/schema.resolvers.go). */
module Worker {
  import opened Wrappers
  import opened Events
  import opened Kafka
  import opened Agent
  import opened Storage
  import D = Delivery
  import H = EventHandler

  datatype Config = Config(d: D.Config, codec: Codec, encode: Event -> string)

  /** What is assumed of JSON: an accepted event, written and read back, is an event with the same ID. */
  ghost predicate RoundTrips(cfg: Config) {
    forall ev: Event :: ValidType(ev.kind) ==>
      cfg.d.parse(cfg.encode(ev)).Some? && cfg.d.parse(cfg.encode(ev)).value.id == ev.id
  }

  datatype Loop = MainLoop | RetryLoop

  /** An ingest request: event row saved, or on its way to the events topic. */
  datatype Request = Stored(ev: Event) | Sent(msg: Message)

  datatype World = World(
    d: D.State,
    main: H.Pc,          // handler call of the main loop
    retry: H.Pc,         // handler call of the retry loop
    sh: H.Shared,
    api: seq<Request>,
    external: bool)      // some message was written to the events topic by another program

  predicate Init(w: World) {
    && D.Init(w.d) && w.main.Away? && w.retry.Away?
    && w.sh == H.Shared(Tables(map[], map[]), {}, H.ZERO, H.NO_TALLY)
    && w.api == [] && !w.external
  }

  datatype Label =
    | Protocol(l: D.Label)                  // a step of the loops that does not involve the handler
    | Handler(loop: Loop, h: H.Label)
    | Return(loop: Loop)                    // the handler hands its result to the loop
    | GiveUp(stamp: Stamp, up: bool)        // permanent-failure callback
    | Expire(id: string)
    | External(part: nat, msg: Message)
    | ApiSave(ev: Event, up: bool)
    | ApiPublish(i: nat, accepted: bool)
    | ApiDeliver(i: nat, part: nat)
    | ApiDrop(i: nat)                       // undelivered, or the API process died
    | Crash

  /** Steps the loops take on their own. */
  predicate Internal(l: D.Label) {
    !(l.Ingest? || l.MainOk? || l.MainErr? || l.RetryOk? || l.RetryErr? || l.RetryGiveUp? || l.Crash?)
  }

  function PcOf(w: World, loop: Loop): H.Pc {
    if loop.MainLoop? then w.main else w.retry
  }

  function WithPc(w: World, loop: Loop, pc: H.Pc): World {
    if loop.MainLoop? then w.(main := pc) else w.(retry := pc)
  }

  /** The event a loop may call the handler with. */
  function CurrentEvent(cfg: Config, d: D.State, loop: Loop): Option<Event> {
    match loop
    case MainLoop => if d.main.pc.Read? && Holding(d.main) then cfg.d.parse(InHand(d.main).msg.value) else None
    case RetryLoop => if d.retry.pc.Ready? && Holding(d.retry) then cfg.d.parse(InHand(d.retry).msg.value) else None
  }

  function ReturnLabel(loop: Loop, err: Option<string>): D.Label {
    match loop
    case MainLoop => if err.None? then D.MainOk else D.MainErr(err.value)
    case RetryLoop => if err.None? then D.RetryOk else D.RetryErr(err.value)
  }

  /** The protocol step behind a label. */
  function DeliveryLabel(w: World, l: Label): Option<D.Label> {
    match l
    case Protocol(dl) => Some(dl)
    case Return(loop) => if PcOf(w, loop).Returning? then Some(ReturnLabel(loop, PcOf(w, loop).err)) else None
    case GiveUp(_, _) => Some(D.RetryGiveUp)
    case External(part, msg) => Some(D.Ingest(part, msg))
    case ApiDeliver(i, part) => if i < |w.api| && w.api[i].Sent? then Some(D.Ingest(part, w.api[i].msg)) else None
    case Crash => Some(D.Crash)
    case _ => None
  }

  /** IDs of calls killed between the guard and the decision. */
  function Interrupted(pc: H.Pc): multiset<string> {
    if pc.Guarded? || pc.Calling? then multiset{pc.ev.id} else multiset{}
  }

  /** The process dies: counters and calls are gone; Redis and Postgres stay. */
  function AfterCrash(w: World): World {
    var t := w.sh.tally;
    w.(main := H.Away, retry := H.Away,
       sh := w.sh.(counters := H.ZERO,
         tally := t.(interrupted := t.interrupted + Interrupted(w.main) + Interrupted(w.retry), returned := 0, made := H.NONE_MADE)))
  }

  function HandlerStep(cfg: Config, w: World, loop: Loop, h: H.Label): Option<World> {
    if h.Guard? && CurrentEvent(cfg, w.d, loop) != Some(h.ev) then None
    else match H.Step(cfg.codec, w.sh, PcOf(w, loop), h)
      case None => None
      case Some(r) => Some(WithPc(w, loop, r.1).(sh := r.0))
  }

  /** What a label does outside the delivery protocol. */
  function Local(cfg: Config, w: World, l: Label): Option<World> {
    match l
    case Protocol(dl) => if Internal(dl) then Some(w) else None
    case Handler(loop, h) => HandlerStep(cfg, w, loop, h)
    case Return(loop) => if PcOf(w, loop).Returning? then Some(WithPc(w, loop, H.Away)) else None
    case GiveUp(stamp, up) =>
      if Holding(w.d.retry) then Some(w.(sh := H.GivenUp(cfg.d.parse, w.sh, InHand(w.d.retry).msg.value, stamp, up))) else None
    case Expire(id) =>
      var t := w.sh.tally;
      if id in w.sh.seen
      then Some(w.(sh := w.sh.(seen := w.sh.seen - {id}, tally := t.(expired := t.expired + multiset{id}))))
      else None
    case External(_, _) => Some(w.(external := true))
    case ApiSave(ev, up) =>
      if !ValidType(ev.kind) || !up then Some(w)
      else Some(w.(sh := w.sh.(tables := WithEvent(w.sh.tables, ev)), api := w.api + [Stored(ev)]))
    case ApiPublish(i, accepted) =>
      if i < |w.api| && w.api[i].Stored? then
        var ev := w.api[i].ev;
        Some(w.(api := if accepted then w.api[i := Sent(Message(ev.id, cfg.encode(ev), []))] else Removed(w.api, i)))
      else None
    case ApiDeliver(i, _) => if i < |w.api| && w.api[i].Sent? then Some(w.(api := Removed(w.api, i))) else None
    case ApiDrop(i) => if i < |w.api| then Some(w.(api := Removed(w.api, i))) else None
    case Crash => Some(AfterCrash(w))
  }

  function Removed(rs: seq<Request>, i: nat): seq<Request>
    requires i < |rs|
  {
    rs[..i] + rs[i + 1..]
  }

  function Step(cfg: Config, w: World, l: Label): Option<World> {
    match Local(cfg, w, l)
    case None => None
    case Some(w') =>
      match DeliveryLabel(w, l)
      case None => Some(w')
      case Some(dl) =>
        match D.Step(cfg.d, w.d, dl)
        case None => None
        case Some(d') => Some(w'.(d := d'))
  }

  function Execute(cfg: Config, w: World, ls: seq<Label>): Option<World>
    decreases |ls|
  {
    if ls == [] then Some(w)
    else match Step(cfg, w, ls[0])
      case None => None
      case Some(w') => Execute(cfg, w', ls[1..])
  }

  ghost predicate Runs(cfg: Config, w: World, ls: seq<Label>, w': World) {
    Execute(cfg, w, ls) == Some(w')
  }

  lemma {:induction false} RunsConcat(cfg: Config, w: World, ls: seq<Label>, mid: World, ls': seq<Label>, w': World)
    requires Runs(cfg, w, ls, mid) && Runs(cfg, mid, ls', w')
    ensures Runs(cfg, w, ls + ls', w')
    decreases |ls|
  {
    if ls == [] {
      assert ls + ls' == ls';
    } else {
      assert (ls + ls')[0] == ls[0] && (ls + ls')[1..] == ls[1..] + ls';
      RunsConcat(cfg, Step(cfg, w, ls[0]).value, ls[1..], mid, ls', w');
    }
  }

  lemma {:induction false} RunsAlong(cfg: Config, ws: seq<World>, ls: seq<Label>)
    requires |ws| == |ls| + 1
    requires forall k :: 0 <= k < |ls| ==> Step(cfg, ws[k], ls[k]) == Some(ws[k + 1])
    ensures Runs(cfg, ws[0], ls, ws[|ls|])
  {
    if ls != [] {
      RunsAlong(cfg, ws[1..], ls[1..]);
    }
  }

  /** The steps of a call, as steps of the worker. */
  function Lifted(loop: Loop, hs: seq<H.Label>): seq<Label> {
    if hs == [] then [] else [Handler(loop, hs[0])] + Lifted(loop, hs[1..])
  }

  /** What a call does on its own it does in the worker, as long as it is about the loop's message. */
  lemma {:induction false} CallRuns(cfg: Config, w: World, loop: Loop, hs: seq<H.Label>, sh': H.Shared, pc': H.Pc)
    requires H.Execute(cfg.codec, w.sh, PcOf(w, loop), hs) == Some((sh', pc'))
    requires forall h :: h in hs && h.Guard? ==> CurrentEvent(cfg, w.d, loop) == Some(h.ev)
    ensures Runs(cfg, w, Lifted(loop, hs), WithPc(w, loop, pc').(sh := sh'))
    decreases |hs|
  {
    if hs != [] {
      assert hs[0] in hs;
      var mid := HandlerStep(cfg, w, loop, hs[0]).value;
      assert Step(cfg, w, Handler(loop, hs[0])) == Some(mid);
      CallRuns(cfg, mid, loop, hs[1..], sh', pc');
      assert Lifted(loop, hs)[1..] == Lifted(loop, hs[1..]);
    }
  }

  /** One uninterrupted call from a loop that is ready for it. */
  lemma WholeCallRuns(cfg: Config, w: World, loop: Loop, ev: Event, a: H.Answers)
    requires CurrentEvent(cfg, w.d, loop) == Some(ev) && PcOf(w, loop).Away?
    ensures var (sh', err) := H.CallResult(cfg.codec, w.sh, ev, a);
      Runs(cfg, w, Lifted(loop, H.HandlerLabels(w.sh, ev, a)), WithPc(w, loop, H.Returning(ev, err)).(sh := sh'))
  {
    var (sh', err) := H.CallResult(cfg.codec, w.sh, ev, a);
    H.UninterruptedCall(cfg.codec, w.sh, ev, a);
    CallRuns(cfg, w, loop, H.HandlerLabels(w.sh, ev, a), sh', H.Returning(ev, err));
  }

  /** Local leaves the protocol state alone. */
  lemma LocalKeepsDelivery(cfg: Config, w: World, l: Label)
    requires Local(cfg, w, l).Some?
    ensures Local(cfg, w, l).value.d == w.d
  {
  }

  /** Every run of the worker is a run of the delivery protocol: whatever holds for an arbitrary handler
      holds for the real one. */
  lemma {:induction false} Projects(cfg: Config, w: World, ls: seq<Label>, w': World) returns (dls: seq<D.Label>)
    requires Runs(cfg, w, ls, w')
    ensures D.Runs(cfg.d, w.d, dls, w'.d)
    decreases |ls|
  {
    if ls == [] {
      dls := [];
    } else {
      var mid := Step(cfg, w, ls[0]).value;
      LocalKeepsDelivery(cfg, w, ls[0]);
      dls := Projects(cfg, mid, ls[1..], w');
      match DeliveryLabel(w, ls[0])
      case None =>
      case Some(dl) =>
        D.OneStep(cfg.d, w.d, dl, mid.d);
        D.RunsConcat(cfg.d, w.d, [dl], mid.d, dls, w'.d);
        dls := [dl] + dls;
    }
  }
}
