/** The stores the services share, as far as their contracts go: two Postgres tables with a foreign key
    (internal/storage/postgres.go) and the Redis keys (internal/cache/redis.go). */
module Storage {
  import opened Wrappers
  import opened Events
  import opened Agent

  datatype Tables = Tables(events: map<string, Event>, decisions: map<string, Decision>)

  datatype SaveResult = Inserted | ForeignKeyViolation | DuplicateId | Down

  /** INSERT INTO events ... ON CONFLICT (id) DO NOTHING. */
  function WithEvent(t: Tables, ev: Event): Tables {
    if ev.id in t.events then t else t.(events := t.events[ev.id := ev])
  }

  /** INSERT INTO decisions ..., whose event_id references events(id). The key is checked while inserting,
      the reference at the end of the statement. */
  function SaveOutcome(t: Tables, d: Decision, up: bool): SaveResult {
    if !up then Down
    else if d.id in t.decisions then DuplicateId
    else if d.eventId !in t.events then ForeignKeyViolation
    else Inserted
  }

  function WithDecision(t: Tables, d: Decision, up: bool): Tables {
    if SaveOutcome(t, d, up).Inserted? then t.(decisions := t.decisions[d.id := d]) else t
  }

  /** Every decision row has its event row. */
  predicate ReferencesHold(t: Tables) {
    forall id :: id in t.decisions ==> t.decisions[id].eventId in t.events
  }

  /** Rows are only ever added, never changed. */
  ghost predicate Grows(t: Tables, t': Tables) {
    && (forall id :: id in t.events ==> id in t'.events && t'.events[id] == t.events[id])
    && (forall id :: id in t.decisions ==> id in t'.decisions && t'.decisions[id] == t.decisions[id])
  }

  lemma EventGrows(t: Tables, ev: Event)
    ensures Grows(t, WithEvent(t, ev)) && (ReferencesHold(t) ==> ReferencesHold(WithEvent(t, ev)))
  {
  }

  lemma DecisionGrows(t: Tables, d: Decision, up: bool)
    ensures Grows(t, WithDecision(t, d, up)) && (ReferencesHold(t) ==> ReferencesHold(WithDecision(t, d, up)))
  {
  }

  /** A new event is stored as it is, a known one keeps its first form, and nothing else changes. */
  lemma EventsSeeWrites(t: Tables, ev: Event, id: string)
    ensures var t' := WithEvent(t, ev);
      && ev.id in t'.events
      && (ev.id !in t.events ==> t'.events[ev.id] == ev)
      && (id in t.events ==> id in t'.events && t'.events[id] == t.events[id])
      && (id != ev.id && id !in t.events ==> id !in t'.events)
      && t'.decisions == t.decisions
  {
  }

  /** A decision is inserted if and only if the database is up, its ID unused and its event row present. */
  lemma InsertedIff(t: Tables, d: Decision, up: bool)
    ensures SaveOutcome(t, d, up).Inserted? <==> up && d.id !in t.decisions && d.eventId in t.events
    ensures WithDecision(t, d, up)
      == if up && d.id !in t.decisions && d.eventId in t.events then t.(decisions := t.decisions[d.id := d]) else t
  {
  }

  /** The row behind a decision ID. */
  function Row(t: Tables, id: string): Option<Decision> {
    if id in t.decisions then Some(t.decisions[id]) else None
  }

  /** What a reader can rely on: a decision that was inserted is found, a refused one leaves no trace, no
      insert changes what another ID shows, and a row once seen is seen unchanged ever after. */
  lemma ReadsSeeWrites(t: Tables, d: Decision, up: bool, id: string, later: Tables)
    requires Grows(WithDecision(t, d, up), later)
    ensures Row(WithDecision(t, d, up), id)
      == if id == d.id && SaveOutcome(t, d, up).Inserted? then Some(d) else Row(t, id)
    ensures Row(t, id).Some? ==> Row(later, id) == Row(t, id)
    ensures SaveOutcome(t, d, up).Inserted? ==> Row(later, d.id) == Some(d)
  {
    DecisionGrows(t, d, up);
  }

  class PGStore {
    var events: map<string, Event>
    var decisions: map<string, Decision>

    function View(): Tables
      reads this
    {
      Tables(events, decisions)
    }

    constructor ()
      ensures View() == Tables(map[], map[])
    {
      events, decisions := map[], map[];
    }

    method SaveEvent(ev: Event, up: bool) returns (ok: bool)
      modifies this`events
      ensures ok == up
      ensures View() == if up then WithEvent(old(View()), ev) else old(View())
      ensures events == if up && ev.id !in old(events) then old(events)[ev.id := ev] else old(events)
    {
      if up && ev.id !in events {
        events := events[ev.id := ev];
      }
      ok := up;
    }

    method SaveDecision(d: Decision, up: bool) returns (result: SaveResult)
      modifies this`decisions
      ensures result == SaveOutcome(old(View()), d, up)
      ensures View() == WithDecision(old(View()), d, up)
      ensures result.Inserted? <==> up && d.id !in old(decisions) && d.eventId in events
      ensures decisions == if result.Inserted? then old(decisions)[d.id := d] else old(decisions)
    {
      if !up {
        return Down;
      }
      if d.id in decisions {
        return DuplicateId;
      }
      if d.eventId !in events {
        return ForeignKeyViolation;
      }
      decisions := decisions[d.id := d];
      result := Inserted;
    }

    method GetDecision(id: string) returns (d: Option<Decision>)
      ensures d == Row(View(), id)
    {
      d := if id in decisions then Some(decisions[id]) else None;
    }
  }

  // ---------------------------------------------------------------- Redis

  /** An answer of the idempotency check. After an error the key may have been set or not. */
  datatype GuardAnswer = NotSeen | AlreadySeen | Failed(applied: bool)

  /** What can go wrong with a check: an error, with the write applied or not; or the client loses the
      reply of an applied write, sends it again on its own, and finds the key it has just set. */
  datatype CheckFault = NoFault | CheckFails(applied: bool) | ReplyLost

  /** The keys after a check. */
  function KeysAfter(seen: set<string>, id: string, fault: CheckFault): set<string> {
    if id in seen || fault == CheckFails(false) then seen else seen + {id}
  }

  /** Whether a check lets the event through: it does after an error, and otherwise only the first time. */
  predicate LetsThrough(seen: set<string>, id: string, fault: CheckFault) {
    fault.CheckFails? || (fault.NoFault? && id !in seen)
  }

  /** The blob a reader of the cache finds: "" on a miss, None when Redis is down. */
  function Cached(blobs: map<string, string>, id: string, up: bool): Option<string> {
    if !up then None else if id in blobs then Some(blobs[id]) else Some("")
  }

  /** What a reader of the cache can rely on: it finds the last blob written under its ID or, once that
      expired, a miss; writes and expiries of other IDs do not matter. */
  lemma BlobsSeeWrites(blobs: map<string, string>, id: string, blob: string, other: string)
    ensures Cached(blobs[id := blob], id, true) == Some(blob)
    ensures Cached(blobs - {id}, id, true) == Some("")
    ensures other != id ==>
      Cached(blobs[id := blob], other, true) == Cached(blobs, other, true) == Cached(blobs - {id}, other, true)
  {
  }

  class Cache {
    var seen: set<string>            // live em:seen keys
    var blobs: map<string, string>   // live em:dec keys

    constructor ()
      ensures seen == {} && blobs == map[]
    {
      seen, blobs := {}, map[];
    }

    /** SET NX: the first caller wins. */
    method Seen(eventId: string, fault: CheckFault) returns (answer: GuardAnswer)
      modifies this`seen
      ensures seen == KeysAfter(old(seen), eventId, fault)
      ensures answer == if fault.CheckFails? then Failed(fault.applied)
                        else if LetsThrough(old(seen), eventId, fault) then NotSeen else AlreadySeen
    {
      match fault
      case CheckFails(applied) =>
        if applied && eventId !in seen {
          seen := seen + {eventId};
        }
        answer := Failed(applied);
      case ReplyLost =>
        if eventId !in seen {
          seen := seen + {eventId};
        }
        answer := AlreadySeen;
      case NoFault =>
        answer := if eventId in seen then AlreadySeen else NotSeen;
        if eventId !in seen {
          seen := seen + {eventId};
        }
    }

    method CacheDecision(id: string, blob: string, up: bool) returns (ok: bool)
      modifies this`blobs
      ensures ok == up && blobs == if up then old(blobs)[id := blob] else old(blobs)
    {
      if up {
        blobs := blobs[id := blob];
      }
      ok := up;
    }

    /** "" on a miss. */
    method GetDecision(id: string, up: bool) returns (blob: Option<string>)
      ensures blob == Cached(blobs, id, up)
    {
      blob := if !up then None else if id in blobs then Some(blobs[id]) else Some("");
    }
  }
}
