/** Reading one decision through the Redis cache, from both front ends
    (getDecision in api/rest/handlers.go, Decision in api/graphql/schema.resolvers.go). The two share the
    keys of the cache but not the encoding of what they put there. */
module DecisionCache {
  import opened Wrappers
  import opened Agent
  import opened Storage

  datatype Front = Rest | GraphQL

  /** The GraphQL model of a decision. */
  datatype Model = Model(
    id: string, eventId: string, eventType: string, action: string, reasoning: string,
    success: bool, error: Option<string>, durationMs: int, processedAt: string)

  /** What encoding/json and the time format do, left open. */
  datatype Encoding = Encoding(
    row: Decision -> string,              // a whole row, as REST answers it
    model: Model -> string,
    unmodel: string -> Option<Model>,
    rfc3339: string -> string)

  function ToModel(c: Encoding, d: Decision): Model {
    Model(d.id, d.eventId, d.eventType, d.action, d.reasoning, d.success,
      if d.error != "" then Some(d.error) else None, d.durationMs, c.rfc3339(d.processedAt))
  }

  /** What is assumed of JSON: text is never empty, and a model that was written can be read back. */
  ghost predicate ReadsBack(c: Encoding) {
    && (forall d :: c.row(d) != "")
    && (forall m :: c.model(m) != "" && c.unmodel(c.model(m)) == Some(m))
  }

  datatype Reply = Text(blob: string) | Object(model: Model) | NotFound | DatabaseDown

  /** What a front end puts in the cache for a row, and what it answers. */
  function Blob(c: Encoding, front: Front, d: Decision): string {
    if front.Rest? then c.row(d) else c.model(ToModel(c, d))
  }

  function Shown(c: Encoding, front: Front, d: Decision): Reply {
    if front.Rest? then Text(c.row(d)) else Object(ToModel(c, d))
  }

  /** What a front end makes of a cached blob; None sends it to the database. */
  function FromBlob(c: Encoding, front: Front, blob: string): Option<Reply> {
    if blob == "" then None
    else if front.Rest? then Some(Text(blob))
    else match c.unmodel(blob)
      case None => None
      case Some(m) => Some(Object(m))
  }

  /** The lookup without a cache. */
  function Uncached(c: Encoding, rows: map<string, Decision>, front: Front, id: string): Reply {
    if id in rows then Shown(c, front, rows[id]) else NotFound
  }

  // ---------------------------------------------------------------- concurrent readers

  datatype Reader =
    | Asking(front: Front, id: string)
    | Missed(front: Front, id: string)
    | Loaded(front: Front, id: string, row: Decision)

  /** An answer, and the lookup it stands for at the moment it was given. */
  datatype Answer = Given(front: Front, id: string, reply: Reply, uncached: Reply)

  datatype State = State(rows: map<string, Decision>, blobs: map<string, string>, readers: seq<Reader>, answers: seq<Answer>)

  predicate Init(s: State) {
    s == State(map[], map[], [], [])
  }

  datatype Label =
    | Insert(d: Decision)
    | Ask(front: Front, id: string)
    | LookInCache(i: nat, up: bool)
    | LookInTable(i: nat, up: bool)
    | Fill(i: nat, up: bool)
    | Forget(id: string)     // the key expires, or Redis loses it
    | Abandon(i: nat)        // the request or its process dies

  function Gone(rs: seq<Reader>, i: nat): seq<Reader>
    requires i < |rs|
  {
    rs[..i] + rs[i + 1..]
  }

  function Answered(c: Encoding, s: State, i: nat, reply: Reply): State
    requires i < |s.readers|
  {
    var r := s.readers[i];
    s.(readers := Gone(s.readers, i), answers := s.answers + [Given(r.front, r.id, reply, Uncached(c, s.rows, r.front, r.id))])
  }

  /** What a look in the cache gives a reader; None when Redis is down, misses, or has a blob it cannot use. */
  function Hit(c: Encoding, s: State, front: Front, id: string, cacheUp: bool): Option<Reply> {
    if cacheUp && id in s.blobs then FromBlob(c, front, s.blobs[id]) else None
  }

  function CacheLooked(c: Encoding, s: State, i: nat, up: bool): State
    requires i < |s.readers|
  {
    var r := s.readers[i];
    match Hit(c, s, r.front, r.id, up)
    case Some(reply) => Answered(c, s, i, reply)
    case None => s.(readers := s.readers[i := Missed(r.front, r.id)])
  }

  function TableLooked(c: Encoding, s: State, i: nat, up: bool): State
    requires i < |s.readers|
  {
    var r := s.readers[i];
    if !up then Answered(c, s, i, DatabaseDown)
    else if r.id !in s.rows then Answered(c, s, i, NotFound)
    else s.(readers := s.readers[i := Loaded(r.front, r.id, s.rows[r.id])])
  }

  function Filled(c: Encoding, s: State, i: nat, up: bool): State
    requires i < |s.readers| && s.readers[i].Loaded?
  {
    var r := s.readers[i];
    var s' := if up then s.(blobs := s.blobs[r.id := Blob(c, r.front, r.row)]) else s;
    Answered(c, s', i, Shown(c, r.front, r.row))
  }

  function Step(c: Encoding, s: State, l: Label): Option<State> {
    match l
    case Insert(d) => Some(if d.id in s.rows then s else s.(rows := s.rows[d.id := d]))
    case Ask(front, id) => Some(s.(readers := s.readers + [Asking(front, id)]))
    case LookInCache(i, up) => if i < |s.readers| && s.readers[i].Asking? then Some(CacheLooked(c, s, i, up)) else None
    case LookInTable(i, up) => if i < |s.readers| && s.readers[i].Missed? then Some(TableLooked(c, s, i, up)) else None
    case Fill(i, up) => if i < |s.readers| && s.readers[i].Loaded? then Some(Filled(c, s, i, up)) else None
    case Forget(id) => Some(s.(blobs := s.blobs - {id}))
    case Abandon(i) => if i < |s.readers| then Some(s.(readers := Gone(s.readers, i))) else None
  }

  function Execute(c: Encoding, s: State, ls: seq<Label>): Option<State>
    decreases |ls|
  {
    if ls == [] then Some(s)
    else match Step(c, s, ls[0])
      case None => None
      case Some(s') => Execute(c, s', ls[1..])
  }

  ghost predicate Runs(c: Encoding, s: State, ls: seq<Label>, s': State) {
    Execute(c, s, ls) == Some(s')
  }

  // ---------------------------------------------------------------- the invariant

  /** A blob is an encoding of the one row with that ID, by a front end in use. */
  ghost predicate BlobTrue(c: Encoding, rows: map<string, Decision>, fronts: set<Front>, id: string, blob: string) {
    id in rows && exists front :: front in fronts && blob == Blob(c, front, rows[id])
  }

  /** A reply the front ends in use can lead to. */
  ghost predicate ReplyTrue(c: Encoding, rows: map<string, Decision>, fronts: set<Front>, a: Answer) {
    match a.reply
    case DatabaseDown => true
    case NotFound => a.uncached == NotFound
    case _ => a.id in rows && a.uncached == Shown(c, a.front, rows[a.id]) && FromRow(c, rows[a.id], fronts, a)
  }

  ghost predicate FromRow(c: Encoding, d: Decision, fronts: set<Front>, a: Answer) {
    || a.reply == a.uncached
    || exists front :: front in fronts && FromBlob(c, a.front, Blob(c, front, d)) == Some(a.reply)
  }

  predicate ReaderTrue(rows: map<string, Decision>, fronts: set<Front>, r: Reader) {
    r.front in fronts && (r.Loaded? ==> r.id in rows && rows[r.id] == r.row)
  }

  ghost predicate Inv(c: Encoding, fronts: set<Front>, s: State) {
    && (forall id :: id in s.blobs ==> BlobTrue(c, s.rows, fronts, id, s.blobs[id]))
    && (forall i :: 0 <= i < |s.readers| ==> ReaderTrue(s.rows, fronts, s.readers[i]))
    && (forall k :: 0 <= k < |s.answers| ==> s.answers[k].front in fronts && ReplyTrue(c, s.rows, fronts, s.answers[k]))
  }

  predicate AsksFrom(fronts: set<Front>, l: Label) {
    l.Ask? ==> l.front in fronts
  }

  const BOTH := {Rest, GraphQL}

  lemma AllAskFromBoth(ls: seq<Label>)
    ensures forall l :: l in ls ==> AsksFrom(BOTH, l)
  {
    forall l | l in ls ensures AsksFrom(BOTH, l) {
      assert l.Ask? ==> l.front.Rest? || l.front.GraphQL?;
    }
  }

  lemma AnsweredInv(c: Encoding, fronts: set<Front>, s: State, i: nat, reply: Reply)
    requires Inv(c, fronts, s) && i < |s.readers|
    requires var r := s.readers[i]; ReplyTrue(c, s.rows, fronts, Given(r.front, r.id, reply, Uncached(c, s.rows, r.front, r.id)))
    ensures Inv(c, fronts, Answered(c, s, i, reply))
  {
  }

  lemma CacheLookedInv(c: Encoding, fronts: set<Front>, s: State, i: nat, up: bool)
    requires Inv(c, fronts, s) && i < |s.readers| && s.readers[i].Asking?
    ensures Inv(c, fronts, CacheLooked(c, s, i, up))
  {
    var r := s.readers[i];
    if up && r.id in s.blobs && FromBlob(c, r.front, s.blobs[r.id]).Some? {
      assert BlobTrue(c, s.rows, fronts, r.id, s.blobs[r.id]);
      AnsweredInv(c, fronts, s, i, FromBlob(c, r.front, s.blobs[r.id]).value);
    }
  }

  lemma TableLookedInv(c: Encoding, fronts: set<Front>, s: State, i: nat, up: bool)
    requires Inv(c, fronts, s) && i < |s.readers| && s.readers[i].Missed?
    ensures Inv(c, fronts, TableLooked(c, s, i, up))
  {
    if !up {
      AnsweredInv(c, fronts, s, i, DatabaseDown);
    } else if s.readers[i].id !in s.rows {
      AnsweredInv(c, fronts, s, i, NotFound);
    }
  }

  lemma FilledInv(c: Encoding, fronts: set<Front>, s: State, i: nat, up: bool)
    requires Inv(c, fronts, s) && i < |s.readers| && s.readers[i].Loaded?
    ensures Inv(c, fronts, Filled(c, s, i, up))
  {
    var r := s.readers[i];
    assert ReaderTrue(s.rows, fronts, r);
    var s' := if up then s.(blobs := s.blobs[r.id := Blob(c, r.front, r.row)]) else s;
    assert BlobTrue(c, s.rows, fronts, r.id, Blob(c, r.front, r.row));
    AnsweredInv(c, fronts, s', i, Shown(c, r.front, r.row));
  }

  /** A row that appears later contradicts nothing that was cached or answered before. */
  lemma InsertInv(c: Encoding, fronts: set<Front>, s: State, d: Decision)
    requires Inv(c, fronts, s) && d.id !in s.rows
    ensures Inv(c, fronts, s.(rows := s.rows[d.id := d]))
  {
    var s' := s.(rows := s.rows[d.id := d]);
    forall id | id in s'.blobs ensures BlobTrue(c, s'.rows, fronts, id, s'.blobs[id]) {
      assert BlobTrue(c, s.rows, fronts, id, s.blobs[id]);
    }
    forall k | 0 <= k < |s'.answers| ensures ReplyTrue(c, s'.rows, fronts, s'.answers[k]) {
      assert ReplyTrue(c, s.rows, fronts, s.answers[k]);
    }
  }

  lemma InvStep(c: Encoding, fronts: set<Front>, s: State, l: Label)
    requires Inv(c, fronts, s) && AsksFrom(fronts, l) && Step(c, s, l).Some?
    ensures Inv(c, fronts, Step(c, s, l).value)
  {
    match l
    case Insert(d) =>
      if d.id !in s.rows {
        InsertInv(c, fronts, s, d);
      }
    case LookInCache(i, up) => CacheLookedInv(c, fronts, s, i, up);
    case LookInTable(i, up) => TableLookedInv(c, fronts, s, i, up);
    case Fill(i, up) => FilledInv(c, fronts, s, i, up);
    case _ =>
  }

  lemma {:induction false} InvAlways(c: Encoding, fronts: set<Front>, s: State, ls: seq<Label>, s': State)
    requires Inv(c, fronts, s) && Runs(c, s, ls, s') && forall l :: l in ls ==> AsksFrom(fronts, l)
    ensures Inv(c, fronts, s')
    decreases |ls|
  {
    if ls != [] {
      InvStep(c, fronts, s, ls[0]);
      InvAlways(c, fronts, Step(c, s, ls[0]).value, ls[1..], s');
    }
  }

  // ---------------------------------------------------------------- what readers are told

  /** The answer is what the lookup without a cache would have given at that moment, unless the database
      itself was down. */
  predicate Right(a: Answer) {
    a.reply == a.uncached || a.reply == DatabaseDown
  }

  ghost predicate AllRight(s: State) {
    forall k :: 0 <= k < |s.answers| ==> Right(s.answers[k])
  }

  /** One front end: the cache cannot be told from the database. */
  lemma OneFrontEndSeesTheDatabase(c: Encoding, front: Front, s: State, ls: seq<Label>, s': State)
    requires ReadsBack(c) && Init(s) && Runs(c, s, ls, s') && forall l :: l in ls ==> AsksFrom({front}, l)
    ensures AllRight(s')
    ensures forall id :: id in s'.blobs ==> id in s'.rows && s'.blobs[id] == Blob(c, front, s'.rows[id])
  {
    InvAlways(c, {front}, s, ls, s');
    forall k | 0 <= k < |s'.answers| ensures Right(s'.answers[k]) {
      assert ReplyTrue(c, s'.rows, {front}, s'.answers[k]);
    }
    forall id | id in s'.blobs ensures id in s'.rows && s'.blobs[id] == Blob(c, front, s'.rows[id]) {
      assert BlobTrue(c, s'.rows, {front}, id, s'.blobs[id]);
    }
  }

  /** The GraphQL answer, field by field: the row's own values, the error only if there is one, the time in
      RFC 3339. */
  predicate Shows(c: Encoding, m: Model, d: Decision) {
    && m.id == d.id && m.eventId == d.eventId && m.eventType == d.eventType
    && m.action == d.action && m.reasoning == d.reasoning && m.success == d.success
    && (m.error.None? <==> d.error == "") && (m.error.Some? ==> m.error.value == d.error)
    && m.durationMs == d.durationMs && m.processedAt == c.rfc3339(d.processedAt)
  }

  lemma ModelShows(c: Encoding, d: Decision)
    ensures Shows(c, ToModel(c, d), d)
  {
  }

  /** With one front end every answer with content, cached or not, shows the fields of the row asked for. */
  lemma AnswersShowRows(c: Encoding, front: Front, s: State, ls: seq<Label>, s': State, k: nat)
    requires ReadsBack(c) && Init(s) && Runs(c, s, ls, s') && forall l :: l in ls ==> AsksFrom({front}, l)
    requires k < |s'.answers| && (s'.answers[k].reply.Text? || s'.answers[k].reply.Object?)
    ensures var a := s'.answers[k];
      && a.id in s'.rows
      && (front.Rest? ==> a.reply == Text(c.row(s'.rows[a.id])))
      && (front.GraphQL? ==> a.reply.Object? && Shows(c, a.reply.model, s'.rows[a.id]))
  {
    OneFrontEndSeesTheDatabase(c, front, s, ls, s');
    InvAlways(c, {front}, s, ls, s');
    assert ReplyTrue(c, s'.rows, {front}, s'.answers[k]) && Right(s'.answers[k]);
  }

  /** Both front ends: every answer still comes from the one row with that ID, but it may come in the other
      front end's encoding. */
  lemma MixedAnswers(c: Encoding, s: State, ls: seq<Label>, s': State, k: nat)
    requires ReadsBack(c) && Init(s) && Runs(c, s, ls, s') && k < |s'.answers|
    ensures var a := s'.answers[k];
      || Right(a)
      || (a.id in s'.rows && a.front.Rest? && a.reply == Text(c.model(ToModel(c, s'.rows[a.id]))))
      || (a.id in s'.rows && a.front.GraphQL? && a.reply.Object?
          && c.unmodel(c.row(s'.rows[a.id])) == Some(a.reply.model))
  {
    AllAskFromBoth(ls);
    InvAlways(c, BOTH, s, ls, s');
    assert ReplyTrue(c, s'.rows, BOTH, s'.answers[k]);
  }

  // ---------------------------------------------------------------- when sharing the keys is harmless

  /** Each front end reads the other's encoding of this row as its own. */
  predicate Compatible(c: Encoding, d: Decision) {
    c.model(ToModel(c, d)) == c.row(d)
    && (c.unmodel(c.row(d)).None? || c.unmodel(c.row(d)) == Some(ToModel(c, d)))
  }

  /** A front end reads and fills the cache, then the other one reads. */
  function Exposing(d: Decision, first: Front, second: Front): seq<Label> {
    [Insert(d), Ask(first, d.id), LookInCache(0, true), LookInTable(0, true), Fill(0, true),
     Ask(second, d.id), LookInCache(0, true)]
  }

  /** Steps of a lone reader. */
  lemma Lone(r: Reader, r': Reader)
    ensures [] + [r] == [r] && [r][0 := r'] == [r'] && Gone([r], 0) == []
    ensures forall a: Answer :: [] + [a] == [a]
  {
  }

  function Warmed(c: Encoding, d: Decision, first: Front): State {
    State(map[d.id := d], map[d.id := Blob(c, first, d)], [],
      [Given(first, d.id, Shown(c, first, d), Shown(c, first, d))])
  }

  lemma Warms(c: Encoding, d: Decision, first: Front)
    ensures Runs(c, State(map[], map[], [], []), Exposing(d, first, first)[..5], Warmed(c, d, first))
  {
    var rows := map[d.id := d];
    var s1 := State(rows, map[], [], []);
    var s2 := State(rows, map[], [Asking(first, d.id)], []);
    var s3 := State(rows, map[], [Missed(first, d.id)], []);
    var s4 := State(rows, map[], [Loaded(first, d.id, d)], []);
    var ls := Exposing(d, first, first)[..5];
    Lone(Asking(first, d.id), Missed(first, d.id));
    Lone(Missed(first, d.id), Loaded(first, d.id, d));
    Lone(Loaded(first, d.id, d), Loaded(first, d.id, d));
    assert Step(c, State(map[], map[], [], []), ls[0]) == Some(s1);
    assert Step(c, s1, ls[1]) == Some(s2);
    assert Step(c, s2, ls[2]) == Some(s3);
    assert Step(c, s3, ls[3]) == Some(s4);
    assert Step(c, s4, ls[4]) == Some(Warmed(c, d, first));
    Along(c, [State(map[], map[], [], []), s1, s2, s3, s4, Warmed(c, d, first)], ls);
  }

  lemma {:induction false} Along(c: Encoding, ss: seq<State>, ls: seq<Label>)
    requires |ss| == |ls| + 1
    requires forall k :: 0 <= k < |ls| ==> Step(c, ss[k], ls[k]) == Some(ss[k + 1])
    ensures Runs(c, ss[0], ls, ss[|ls|])
  {
    if ls != [] {
      Along(c, ss[1..], ls[1..]);
    }
  }

  lemma {:induction false} Concat(c: Encoding, s: State, ls: seq<Label>, mid: State, ls': seq<Label>, s': State)
    requires Runs(c, s, ls, mid) && Runs(c, mid, ls', s')
    ensures Runs(c, s, ls + ls', s')
    decreases |ls|
  {
    if ls == [] {
      assert ls + ls' == ls';
    } else {
      assert (ls + ls')[0] == ls[0] && (ls + ls')[1..] == ls[1..] + ls';
      Concat(c, Step(c, s, ls[0]).value, ls[1..], mid, ls', s');
    }
  }

  /** With the cache warmed by `first`, the next read by `second` is answered from its blob. */
  lemma Exposed(c: Encoding, d: Decision, first: Front, second: Front) returns (s': State)
    requires FromBlob(c, second, Blob(c, first, d)).Some?
    ensures Runs(c, State(map[], map[], [], []), Exposing(d, first, second), s')
    ensures |s'.answers| == 2
    ensures s'.answers[1]
      == Given(second, d.id, FromBlob(c, second, Blob(c, first, d)).value, Shown(c, second, d))
  {
    var w := Warmed(c, d, first);
    var w' := w.(readers := [Asking(second, d.id)]);
    var rest := [Ask(second, d.id), LookInCache(0, true)];
    Warms(c, d, first);
    Lone(Asking(second, d.id), Asking(second, d.id));
    assert Step(c, w, rest[0]) == Some(w');
    s' := Answered(c, w', 0, FromBlob(c, second, Blob(c, first, d)).value);
    assert Step(c, w', rest[1]) == Some(s');
    Along(c, [w, w', s'], rest);
    Concat(c, State(map[], map[], [], []), Exposing(d, first, first)[..5], w, rest, s');
    assert Exposing(d, first, first)[..5] + rest == Exposing(d, first, second);
  }

  /** The run that shows an incompatible row to the wrong reader. */
  lemma IncompatibleRowShows(c: Encoding, d: Decision) returns (ls: seq<Label>, s': State)
    requires ReadsBack(c) && !Compatible(c, d)
    ensures Runs(c, State(map[], map[], [], []), ls, s') && !AllRight(s')
  {
    var first := if c.model(ToModel(c, d)) != c.row(d) then GraphQL else Rest;
    var second := if first.Rest? then GraphQL else Rest;
    ls := Exposing(d, first, second);
    s' := Exposed(c, d, first, second);
    assert !Right(s'.answers[1]);
  }

  /** The texts encoding/json makes of the two types: the row type carries no field tags, so its first key is
      the Go field name; the generated model type is tagged with the names of the GraphQL schema. */
  ghost predicate RepositoryTexts(c: Encoding) {
    && (forall d :: "{\"ID\":" <= c.row(d))
    && (forall m :: "{\"id\":" <= c.model(m))
  }

  /** So in this repository no decision is safe: once GraphQL has filled the cache for it, REST answers with
      the GraphQL text. */
  lemma RepositoryTextsClash(c: Encoding, d: Decision) returns (s': State)
    requires ReadsBack(c) && RepositoryTexts(c)
    ensures !Compatible(c, d)
    ensures Runs(c, State(map[], map[], [], []), Exposing(d, GraphQL, Rest), s') && |s'.answers| == 2
    ensures s'.answers[1] == Given(Rest, d.id, Text(c.model(ToModel(c, d))), Text(c.row(d))) && !Right(s'.answers[1])
  {
    assert c.row(d)[2] == 'I' && c.model(ToModel(c, d))[2] == 'i';
    s' := Exposed(c, d, GraphQL, Rest);
  }

  /** Sharing the keys between the front ends is harmless exactly when their encodings of every decision
      agree. As soon as one row is encoded differently, some run gives a reader a wrong answer. */
  lemma SharedKeysHarmlessIff(c: Encoding)
    requires ReadsBack(c)
    ensures (forall d :: Compatible(c, d)) <==> (forall s, ls, s' :: Init(s) && Runs(c, s, ls, s') ==> AllRight(s'))
  {
    if forall d :: Compatible(c, d) {
      forall s, ls, s' | Init(s) && Runs(c, s, ls, s') ensures AllRight(s') {
        forall k | 0 <= k < |s'.answers| ensures Right(s'.answers[k]) {
          var a := s'.answers[k];
          MixedAnswers(c, s, ls, s', k);
          AllAskFromBoth(ls);
          InvAlways(c, BOTH, s, ls, s');
          assert ReplyTrue(c, s'.rows, BOTH, a);
          if a.id in s'.rows {
            assert Compatible(c, s'.rows[a.id]);
          }
        }
      }
    } else {
      var d :| !Compatible(c, d);
      var ls, s' := IncompatibleRowShows(c, d);
      assert Init(State(map[], map[], [], []));
    }
  }

  // ---------------------------------------------------------------- the reads as the front ends do them

  /** The steps of one read without interference. */
  function ReadThrough(c: Encoding, s: State, front: Front, id: string, cacheUp: bool, dbUp: bool, fillUp: bool): seq<Label> {
    var n := |s.readers|;
    [Ask(front, id), LookInCache(n, cacheUp)]
    + (if Hit(c, s, front, id, cacheUp).Some? then []
       else [LookInTable(n, dbUp)] + (if dbUp && id in s.rows then [Fill(n, fillUp)] else []))
  }

  class FrontEnds {
    const db: PGStore
    const rdb: Cache
    const c: Encoding

    /** The shared state, seen by a process with no other request under way. */
    ghost function View(): State
      reads db, rdb
    {
      State(db.decisions, rdb.blobs, [], [])
    }

    constructor (db: PGStore, rdb: Cache, c: Encoding)
      ensures this.db == db && this.rdb == rdb && this.c == c
    {
      this.db, this.rdb, this.c := db, rdb, c;
    }

    /** GET /api/v1/decisions/:id. */
    method GetDecision(id: string, cacheUp: bool, dbUp: bool, fillUp: bool) returns (reply: Reply)
      modifies rdb`blobs
      ensures Runs(c, old(View()), ReadThrough(c, old(View()), Rest, id, cacheUp, dbUp, fillUp),
                   View().(answers := [Given(Rest, id, reply, Uncached(c, db.decisions, Rest, id))]))
      ensures if cacheUp && id in old(rdb.blobs) && old(rdb.blobs)[id] != "" then
          reply == Text(old(rdb.blobs)[id]) && rdb.blobs == old(rdb.blobs)
        else if !dbUp then reply == DatabaseDown && rdb.blobs == old(rdb.blobs)
        else if id !in db.decisions then reply == NotFound && rdb.blobs == old(rdb.blobs)
        else
          && reply == Text(c.row(db.decisions[id]))
          && rdb.blobs == if fillUp then old(rdb.blobs)[id := c.row(db.decisions[id])] else old(rdb.blobs)
    {
      ghost var s0 := View();
      var cached := rdb.GetDecision(id, cacheUp);
      if cached.Some? && cached.value != "" {
        reply := Text(cached.value);
        HitRuns(c, s0, Rest, id, cacheUp, dbUp, fillUp, reply);
        return;
      }
      if !dbUp {
        DownRuns(c, s0, Rest, id, cacheUp, fillUp);
        return DatabaseDown;
      }
      var d := db.GetDecision(id);
      if d.None? {
        AbsentRuns(c, s0, Rest, id, cacheUp, fillUp);
        return NotFound;
      }
      var data := c.row(d.value);
      var _ := rdb.CacheDecision(id, data, fillUp);
      FillRuns(c, s0, Rest, id, cacheUp, fillUp);
      reply := Text(data);
    }

    /** The decision field of the GraphQL query type. */
    method Decision(id: string, cacheUp: bool, dbUp: bool, fillUp: bool) returns (reply: Reply)
      modifies rdb`blobs
      ensures Runs(c, old(View()), ReadThrough(c, old(View()), GraphQL, id, cacheUp, dbUp, fillUp),
                   View().(answers := [Given(GraphQL, id, reply, Uncached(c, db.decisions, GraphQL, id))]))
      ensures if cacheUp && id in old(rdb.blobs) && old(rdb.blobs)[id] != "" && c.unmodel(old(rdb.blobs)[id]).Some? then
          reply == Object(c.unmodel(old(rdb.blobs)[id]).value) && rdb.blobs == old(rdb.blobs)
        else if !dbUp then reply == DatabaseDown && rdb.blobs == old(rdb.blobs)
        else if id !in db.decisions then reply == NotFound && rdb.blobs == old(rdb.blobs)
        else
          && reply.Object? && Shows(c, reply.model, db.decisions[id])
          && rdb.blobs == if fillUp then old(rdb.blobs)[id := c.model(reply.model)] else old(rdb.blobs)
    {
      ghost var s0 := View();
      var cached := rdb.GetDecision(id, cacheUp);
      if cached.Some? && cached.value != "" {
        var m := c.unmodel(cached.value);
        if m.Some? {
          reply := Object(m.value);
          HitRuns(c, s0, GraphQL, id, cacheUp, dbUp, fillUp, reply);
          return;
        }
      }
      if !dbUp {
        DownRuns(c, s0, GraphQL, id, cacheUp, fillUp);
        return DatabaseDown;
      }
      var d := db.GetDecision(id);
      if d.None? {
        AbsentRuns(c, s0, GraphQL, id, cacheUp, fillUp);
        return NotFound;
      }
      var md := ToModel(c, d.value);
      var data := c.model(md);
      var _ := rdb.CacheDecision(id, data, fillUp);
      FillRuns(c, s0, GraphQL, id, cacheUp, fillUp);
      reply := Object(md);
    }
  }

  function Told(c: Encoding, s: State, front: Front, id: string, reply: Reply): State {
    s.(answers := [Given(front, id, reply, Uncached(c, s.rows, front, id))])
  }

  lemma HitRuns(c: Encoding, s: State, front: Front, id: string, cacheUp: bool, dbUp: bool, fillUp: bool, reply: Reply)
    requires s.readers == [] && s.answers == [] && Hit(c, s, front, id, cacheUp) == Some(reply)
    ensures Runs(c, s, ReadThrough(c, s, front, id, cacheUp, dbUp, fillUp), Told(c, s, front, id, reply))
  {
    var s1 := s.(readers := [Asking(front, id)]);
    Lone(Asking(front, id), Asking(front, id));
    Along(c, [s, s1, Told(c, s, front, id, reply)], [Ask(front, id), LookInCache(0, cacheUp)]);
    assert ReadThrough(c, s, front, id, cacheUp, dbUp, fillUp) == [Ask(front, id), LookInCache(0, cacheUp)];
  }

  lemma DownRuns(c: Encoding, s: State, front: Front, id: string, cacheUp: bool, fillUp: bool)
    requires s.readers == [] && s.answers == [] && Hit(c, s, front, id, cacheUp).None?
    ensures Runs(c, s, ReadThrough(c, s, front, id, cacheUp, false, fillUp), Told(c, s, front, id, DatabaseDown))
  {
    var s1, s2 := s.(readers := [Asking(front, id)]), s.(readers := [Missed(front, id)]);
    Lone(Asking(front, id), Missed(front, id));
    Lone(Missed(front, id), Missed(front, id));
    var ls := [Ask(front, id), LookInCache(0, cacheUp), LookInTable(0, false)];
    Along(c, [s, s1, s2, Told(c, s, front, id, DatabaseDown)], ls);
    assert ReadThrough(c, s, front, id, cacheUp, false, fillUp) == ls;
  }

  lemma AbsentRuns(c: Encoding, s: State, front: Front, id: string, cacheUp: bool, fillUp: bool)
    requires s.readers == [] && s.answers == [] && Hit(c, s, front, id, cacheUp).None? && id !in s.rows
    ensures Runs(c, s, ReadThrough(c, s, front, id, cacheUp, true, fillUp), Told(c, s, front, id, NotFound))
  {
    var s1, s2 := s.(readers := [Asking(front, id)]), s.(readers := [Missed(front, id)]);
    Lone(Asking(front, id), Missed(front, id));
    Lone(Missed(front, id), Missed(front, id));
    var ls := [Ask(front, id), LookInCache(0, cacheUp), LookInTable(0, true)];
    Along(c, [s, s1, s2, Told(c, s, front, id, NotFound)], ls);
    assert ReadThrough(c, s, front, id, cacheUp, true, fillUp) == ls;
  }

  lemma FillRuns(c: Encoding, s: State, front: Front, id: string, cacheUp: bool, fillUp: bool)
    requires s.readers == [] && s.answers == [] && Hit(c, s, front, id, cacheUp).None? && id in s.rows
    ensures var s' := if fillUp then s.(blobs := s.blobs[id := Blob(c, front, s.rows[id])]) else s;
      Runs(c, s, ReadThrough(c, s, front, id, cacheUp, true, fillUp), Told(c, s', front, id, Shown(c, front, s.rows[id])))
  {
    var s1, s2 := s.(readers := [Asking(front, id)]), s.(readers := [Missed(front, id)]);
    var s3 := s.(readers := [Loaded(front, id, s.rows[id])]);
    var s4 := Filled(c, s3, 0, fillUp);
    var ls := [Ask(front, id), LookInCache(0, cacheUp), LookInTable(0, true), Fill(0, fillUp)];
    Lone(Asking(front, id), Missed(front, id));
    Lone(Missed(front, id), s3.readers[0]);
    Along(c, [s, s1, s2, s3, s4], ls);
    assert ReadThrough(c, s, front, id, cacheUp, true, fillUp) == ls;
    FilledTold(c, s, front, id, fillUp);
  }

  lemma FilledTold(c: Encoding, s: State, front: Front, id: string, fillUp: bool)
    requires s.readers == [] && s.answers == [] && id in s.rows
    ensures var s' := if fillUp then s.(blobs := s.blobs[id := Blob(c, front, s.rows[id])]) else s;
      Filled(c, s.(readers := [Loaded(front, id, s.rows[id])]), 0, fillUp) == Told(c, s', front, id, Shown(c, front, s.rows[id]))
  {
    Lone(Loaded(front, id, s.rows[id]), Loaded(front, id, s.rows[id]));
  }
}
