/** The two ingest endpoints (ingestEvent in api/rest/handlers.go, IngestEvent in
    api/graphql/schema.resolvers.go): check, save, publish. A failed publish is not an error. */
module Ingest {
  import opened Wrappers
  import opened Events
  import opened Kafka
  import opened Storage
  import opened Worker
  import D = Delivery

  datatype Response = UnknownType | BadPayload | SaveFailed | Created(ev: Event)

  /** The worker-model steps of one request. */
  function IngestLabels(ev: Event, payloadValid: bool, waiting: nat, dbUp: bool, accepted: bool): seq<Label> {
    if !ValidType(ev.kind) || !payloadValid then []
    else if !dbUp then [ApiSave(ev, false)]
    else [ApiSave(ev, true), ApiPublish(waiting, accepted)]
  }

  class Endpoint {
    const cfg: Config
    const db: PGStore
    var requests: seq<Request>   // saved or sent, not in the topic yet

    /** The world w with this process and its database put in. */
    ghost function Around(w: World): World
      reads this, db
    {
      w.(sh := w.sh.(tables := db.View()), api := requests)
    }

    constructor (cfg: Config, db: PGStore)
      ensures this.cfg == cfg && this.db == db && requests == []
    {
      this.cfg, this.db, requests := cfg, db, [];
    }

    /** `ev` carries the fresh ID and time. */
    method IngestEvent(ev: Event, payloadValid: bool, dbUp: bool, accepted: bool, ghost w: World) returns (resp: Response)
      modifies this`requests, db`events
      ensures Runs(cfg, old(Around(w)), IngestLabels(ev, payloadValid, |old(requests)|, dbUp, accepted), Around(w))
      ensures resp.UnknownType? <==> !ValidType(ev.kind)
      ensures resp.BadPayload? <==> ValidType(ev.kind) && !payloadValid
      ensures resp.Created? ==> ev.id in db.events && resp.ev == ev
      ensures db.events == if resp.Created? && ev.id !in old(db.events) then old(db.events)[ev.id := ev] else old(db.events)
      ensures resp.Created? <==> ValidType(ev.kind) && payloadValid && dbUp
      ensures requests == old(requests) + if resp.Created? && accepted then [Sent(Message(ev.id, cfg.encode(ev), []))] else []
    {
      if !ValidType(ev.kind) {
        return UnknownType;
      }
      if !payloadValid {
        return BadPayload;
      }
      ghost var w0 := Around(w);
      var saved := db.SaveEvent(ev, dbUp);
      if !saved {
        OnlyTried(cfg, w0, ev);
        return SaveFailed;
      }
      if accepted {
        requests := requests + [Sent(Message(ev.id, cfg.encode(ev), []))];
      }
      SavedAndSent(cfg, w0, ev, accepted);
      assert requests == w0.api + if accepted then [Sent(Message(ev.id, cfg.encode(ev), []))] else [];
      resp := Created(ev);
    }
  }

  lemma OnlyTried(cfg: Config, w: World, ev: Event)
    requires ValidType(ev.kind)
    ensures Runs(cfg, w, [ApiSave(ev, false)], w)
  {
    assert [ApiSave(ev, false)][1..] == [];
  }

  lemma SavedAndSent(cfg: Config, w: World, ev: Event, accepted: bool)
    requires ValidType(ev.kind)
    ensures var sent := if accepted then [Sent(Message(ev.id, cfg.encode(ev), []))] else [];
      Runs(cfg, w, [ApiSave(ev, true), ApiPublish(|w.api|, accepted)],
           w.(sh := w.sh.(tables := WithEvent(w.sh.tables, ev)), api := w.api + sent))
  {
    var mid := w.(sh := w.sh.(tables := WithEvent(w.sh.tables, ev)), api := w.api + [Worker.Stored(ev)]);
    var sent := if accepted then [Sent(Message(ev.id, cfg.encode(ev), []))] else [];
    var w' := mid.(api := w.api + sent);
    var ls := [ApiSave(ev, true), ApiPublish(|w.api|, accepted)];
    assert Step(cfg, w, ls[0]) == Some(mid);
    assert Step(cfg, mid, ls[1]) == Some(w') by {
      assert mid.api[|w.api| := Sent(Message(ev.id, cfg.encode(ev), []))] == w.api + [Sent(Message(ev.id, cfg.encode(ev), []))];
      assert Removed(mid.api, |w.api|) == w.api + [];
    }
    assert ls[1..] == [ls[1]] && [ls[1]][1..] == [];
    assert Execute(cfg, mid, [ls[1]]) == Some(w');
  }

  /** Delivery moves a sent message out of the producer and to the end of the events topic, once. */
  lemma DeliveredOnce(cfg: Config, w: World, i: nat, part: nat)
    requires i < |w.api| && w.api[i].Sent? && part < |w.d.main.topic|
    ensures Step(cfg, w, ApiDeliver(i, part)).Some?
    ensures var w' := Step(cfg, w, ApiDeliver(i, part)).value;
      var log, log' := w.d.main.topic[part].log, w'.d.main.topic[part].log;
      && w'.api == w.api[..i] + w.api[i + 1..] && w'.sh == w.sh
      && |log'| == |log| + 1 && log <= log' && log'[|log|].msg == w.api[i].msg
      && forall p :: 0 <= p < |w.d.main.topic| && p != part ==> w'.d.main.topic[p] == w.d.main.topic[p]
  {
    assert D.Step(cfg.d, w.d, D.Ingest(part, w.api[i].msg)).Some?;
  }
}
