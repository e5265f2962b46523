/** Live decisions: the broker that fans values out to subscribers (api/graphql/resolver.go) and the
    goroutine that forwards them to one client (OnDecision in api/graphql/schema.resolvers.go).

    Publishers, subscribers, forwarders and clients interleave. Publishers share a read lock and visit the
    channels one by one, in any order; subscribing and unsubscribing take the lock alone. */
module Subscriptions {
  import opened Wrappers

  /** What travels on a channel: a decision, or a value of another type. */
  datatype Value = Decision(text: string) | Other(text: string)

  // ---------------------------------------------------------------- buffered channels

  const CAP := 16

  datatype Event = Took(v: Value) | Skipped(v: Value) | Got(v: Value)

  /** A buffered channel. `log` is history: sends, skipped sends and receives in order. */
  datatype Channel = Channel(buf: seq<Value>, closed: bool, log: seq<Event>)

  const EMPTY := Channel([], false, [])

  /** select { case ch <- v: default: } */
  function Offered(ch: Channel, v: Value): Channel {
    if |ch.buf| < CAP then ch.(buf := ch.buf + [v], log := ch.log + [Took(v)])
    else ch.(log := ch.log + [Skipped(v)])
  }

  function Received(ch: Channel): Channel
    requires ch.buf != []
  {
    ch.(buf := ch.buf[1..], log := ch.log + [Got(ch.buf[0])])
  }

  /** The reference: what a FIFO queue of 16 places holds after such a history, None if it could not have
      come about. A send is skipped exactly when the queue is full. */
  function Replay(log: seq<Event>): Option<seq<Value>> {
    if log == [] then Some([])
    else match Replay(log[..|log| - 1])
      case None => None
      case Some(q) => Replayed(q, log[|log| - 1])
  }

  function Replayed(q: seq<Value>, e: Event): Option<seq<Value>> {
    match e
    case Took(v) => if |q| < CAP then Some(q + [v]) else None
    case Skipped(v) => if |q| == CAP then Some(q) else None
    case Got(v) => if q != [] && q[0] == v then Some(q[1..]) else None
  }

  function Takes(log: seq<Event>): seq<Value> {
    if log == [] then []
    else Takes(log[..|log| - 1]) + (if log[|log| - 1].Took? then [log[|log| - 1].v] else [])
  }

  function Gots(log: seq<Event>): seq<Value> {
    if log == [] then []
    else Gots(log[..|log| - 1]) + (if log[|log| - 1].Got? then [log[|log| - 1].v] else [])
  }

  /** The sends offered, taken or not. */
  function Offers(log: seq<Event>): seq<Value> {
    if log == [] then []
    else Offers(log[..|log| - 1]) + (if log[|log| - 1].Got? then [] else [log[|log| - 1].v])
  }

  function Decisions(vs: seq<Value>): seq<Value> {
    if vs == [] then []
    else Decisions(vs[..|vs| - 1]) + (if vs[|vs| - 1].Decision? then [vs[|vs| - 1]] else [])
  }

  predicate Fifo(ch: Channel) {
    Replay(ch.log) == Some(ch.buf) && |ch.buf| <= CAP
  }

  lemma Snoc(log: seq<Event>, e: Event)
    ensures var log' := log + [e];
      && Replay(log') == (if Replay(log).None? then None else Replayed(Replay(log).value, e))
      && Takes(log') == Takes(log) + (if e.Took? then [e.v] else [])
      && Gots(log') == Gots(log) + (if e.Got? then [e.v] else [])
      && Offers(log') == Offers(log) + (if e.Got? then [] else [e.v])
  {
    assert (log + [e])[..|log|] == log;
  }

  lemma OfferedIsFifo(ch: Channel, v: Value)
    requires Fifo(ch)
    ensures Fifo(Offered(ch, v))
    ensures Offers(Offered(ch, v).log) == Offers(ch.log) + [v]
    ensures Gots(Offered(ch, v).log) == Gots(ch.log)
    ensures Takes(Offered(ch, v).log) == Takes(ch.log) + (if |ch.buf| < CAP then [v] else [])
  {
    Snoc(ch.log, if |ch.buf| < CAP then Took(v) else Skipped(v));
  }

  lemma ReceivedIsFifo(ch: Channel)
    requires Fifo(ch) && ch.buf != []
    ensures Fifo(Received(ch))
    ensures Offers(Received(ch).log) == Offers(ch.log)
    ensures Takes(Received(ch).log) == Takes(ch.log)
    ensures Gots(Received(ch).log) == Gots(ch.log) + [ch.buf[0]]
  {
    Snoc(ch.log, Got(ch.buf[0]));
  }

  /** A channel hands out what it took in, in order, and holds the rest. */
  lemma {:induction false} FifoOrder(log: seq<Event>, q: seq<Value>)
    requires Replay(log) == Some(q)
    ensures Takes(log) == Gots(log) + q
    decreases |log|
  {
    if log != [] {
      var before, e := log[..|log| - 1], log[|log| - 1];
      var q' := Replay(before).value;
      FifoOrder(before, q');
      assert Takes(before) + [] == Takes(before) && Gots(before) + [] == Gots(before);
      if e.Took? {
        assert Gots(before) + q' + [e.v] == Gots(before) + (q' + [e.v]);
      } else if e.Got? {
        assert Gots(before) + q' == Gots(before) + [e.v] + q'[1..];
      }
    }
  }

  lemma {:induction false} DecisionsConcat(a: seq<Value>, b: seq<Value>)
    ensures Decisions(a + b) == Decisions(a) + Decisions(b)
    decreases |b|
  {
    if b == [] {
      assert a + b == a;
    } else {
      var b', v := b[..|b| - 1], b[|b| - 1];
      assert (a + b)[..|a + b| - 1] == a + b';
      DecisionsConcat(a, b');
      var last := if v.Decision? then [v] else [];
      assert Decisions(a) + Decisions(b') + last == Decisions(a) + (Decisions(b') + last);
    }
  }

  lemma {:induction false} DecisionsShrink(vs: seq<Value>)
    ensures |Decisions(vs)| <= |vs|
    decreases |vs|
  {
    if vs != [] {
      DecisionsShrink(vs[..|vs| - 1]);
    }
  }

  lemma DecisionsOne(v: Value)
    ensures Decisions([v]) == if v.Decision? then [v] else []
  {
    assert [v][..0] == [];
  }

  // ---------------------------------------------------------------- subsequences

  /** a is b with some elements left out. */
  predicate Subsequence(a: seq<Value>, b: seq<Value>) {
    a == []
    || (b != [] && (Subsequence(a, b[..|b| - 1])
                    || (a[|a| - 1] == b[|b| - 1] && Subsequence(a[..|a| - 1], b[..|b| - 1]))))
  }

  lemma {:induction false} TakesAreOffered(log: seq<Event>)
    ensures Subsequence(Takes(log), Offers(log))
    decreases |log|
  {
    if log != [] {
      var before, e := log[..|log| - 1], log[|log| - 1];
      TakesAreOffered(before);
      Extended(Takes(before), Offers(before), e.v);
      assert Takes(before) + [] == Takes(before) && Offers(before) + [] == Offers(before);
    }
  }

  lemma Extended(a: seq<Value>, b: seq<Value>, v: Value)
    requires Subsequence(a, b)
    ensures Subsequence(a, b + [v]) && Subsequence(a + [v], b + [v])
  {
    assert (b + [v])[..|b|] == b && (a + [v])[..|a|] == a;
  }

  lemma {:induction false} DecisionsAmong(a: seq<Value>, b: seq<Value>)
    requires Subsequence(a, b)
    ensures Subsequence(Decisions(a), b)
    decreases |b|
  {
    if a != [] {
      var b', v := b[..|b| - 1], b[|b| - 1];
      assert b == b' + [v];
      if Subsequence(a, b') {
        DecisionsAmong(a, b');
        Extended(Decisions(a), b', v);
      } else {
        DecisionsAmong(a[..|a| - 1], b');
        Extended(Decisions(a[..|a| - 1]), b', v);
        assert Decisions(a[..|a| - 1]) + [] == Decisions(a[..|a| - 1]);
      }
    }
  }

  lemma {:induction false} PrefixAmong(a: seq<Value>, a': seq<Value>, b: seq<Value>)
    requires Subsequence(a + a', b)
    ensures Subsequence(a, b)
    decreases |b|
  {
    if a' == [] {
      assert a + a' == a;
    } else if a != [] {
      var c := a + a';
      var b', v := b[..|b| - 1], b[|b| - 1];
      assert b == b' + [v];
      if Subsequence(c, b') {
        PrefixAmong(a, a', b');
      } else {
        assert c[..|c| - 1] == a + a'[..|a'| - 1];
        PrefixAmong(a, a'[..|a'| - 1], b');
      }
      Extended(a, b', v);
    }
  }

  // ---------------------------------------------------------------- the system

  /** Where a forwarder stands. */
  datatype Stage =
    | Waiting               // in select
    | Handing(d: Value)     // blocked in out <- d, or about to send
    | OutClosed             // out is closed, not unsubscribed yet
    | Finished

  datatype Client = Client(raw: Channel, out: Channel, stage: Stage, cancelled: bool, since: multiset<Value>)

  const NEWCOMER := Client(EMPTY, EMPTY, Waiting, false, multiset{})

  /** A Publish call under way, with the channels it has not visited yet. */
  datatype Publisher = Publisher(v: Value, rest: set<string>)

  /** `subs` is the broker's map. `panics` counts sends on a closed channel and second closes. */
  datatype State = State(clients: map<string, Client>, subs: set<string>, pubs: seq<Publisher>, panics: nat)

  predicate Init(s: State) {
    s == State(map[], {}, [], 0)
  }

  datatype Label =
    | Subscribe(id: string)
    | Cancel(id: string)
    | Publish(v: Value)
    | Visit(p: nat, id: string)
    | EndPublish(p: nat)
    | Take(id: string)
    | Hand(id: string)
    | Leave(id: string)         // ctx.Done
    | RawClosed(id: string)     // the !ok branch
    | Unsubscribe(id: string)
    | Read(id: string)          // the client

  function With(s: State, id: string, c: Client): State {
    s.(clients := s.clients[id := c])
  }

  function Panic(s: State): State {
    s.(panics := s.panics + 1)
  }

  function Visited(s: State, p: nat, id: string): State
    requires p < |s.pubs|
  {
    s.(pubs := s.pubs[p := s.pubs[p].(rest := s.pubs[p].rest - {id})])
  }

  /** Everybody subscribed is owed the value. */
  function Begun(s: State, v: Value): State {
    State(map id | id in s.clients ::
            if id in s.subs then s.clients[id].(since := s.clients[id].since + multiset{v}) else s.clients[id],
          s.subs, s.pubs + [Publisher(v, s.subs)], s.panics)
  }

  function AfterTake(c: Client): Client
    requires c.raw.buf != []
  {
    var v := c.raw.buf[0];
    c.(raw := Received(c.raw), stage := if v.Decision? then Handing(v) else Waiting)
  }

  function CloseOut(s: State, id: string): State
    requires id in s.clients
  {
    var c := s.clients[id];
    if c.out.closed then Panic(s) else With(s, id, c.(out := c.out.(closed := true), stage := OutClosed))
  }

  function Removed(s: State, id: string): State
    requires id in s.clients
  {
    var c := s.clients[id];
    if id !in s.subs then With(s, id, c.(stage := Finished))
    else if c.raw.closed then Panic(s)
    else With(s, id, c.(raw := c.raw.(closed := true), stage := Finished)).(subs := s.subs - {id})
  }

  predicate Enabled(s: State, l: Label) {
    match l
    case Subscribe(id) => s.pubs == [] && id !in s.clients
    case Publish(_) => true
    case Visit(p, id) => p < |s.pubs| && id in s.pubs[p].rest && id in s.clients
    case EndPublish(p) => p < |s.pubs| && s.pubs[p].rest == {}
    case Cancel(id) => id in s.clients
    case Take(id) => id in s.clients && s.clients[id].stage.Waiting? && s.clients[id].raw.buf != []
    case Hand(id) => id in s.clients && s.clients[id].stage.Handing? && (s.clients[id].out.closed || |s.clients[id].out.buf| < CAP)
    case Leave(id) => id in s.clients && s.clients[id].stage.Waiting? && s.clients[id].cancelled
    case RawClosed(id) =>
      id in s.clients && s.clients[id].stage.Waiting? && s.clients[id].raw.closed && s.clients[id].raw.buf == []
    case Unsubscribe(id) => s.pubs == [] && id in s.clients && s.clients[id].stage.OutClosed?
    case Read(id) => id in s.clients && s.clients[id].out.buf != []
  }

  function Next(s: State, l: Label): State
    requires Enabled(s, l)
  {
    match l
    case Subscribe(id) => With(s, id, NEWCOMER).(subs := s.subs + {id})
    case Publish(v) => Begun(s, v)
    case Visit(p, id) =>
      var c := s.clients[id];
      Visited(if c.raw.closed then Panic(s) else With(s, id, c.(raw := Offered(c.raw, s.pubs[p].v))), p, id)
    case EndPublish(p) => s.(pubs := s.pubs[..p] + s.pubs[p + 1..])
    case Cancel(id) => With(s, id, s.clients[id].(cancelled := true))
    case Take(id) => With(s, id, AfterTake(s.clients[id]))
    case Hand(id) =>
      var c := s.clients[id];
      if c.out.closed then Panic(s) else With(s, id, c.(out := Offered(c.out, c.stage.d), stage := Waiting))
    case Leave(id) => CloseOut(s, id)
    case RawClosed(id) => CloseOut(s, id)
    case Unsubscribe(id) => Removed(s, id)
    case Read(id) => With(s, id, s.clients[id].(out := Received(s.clients[id].out)))
  }

  function Step(s: State, l: Label): Option<State> {
    if Enabled(s, l) then Some(Next(s, l)) else None
  }

  function Execute(s: State, ls: seq<Label>): Option<State>
    decreases |ls|
  {
    if ls == [] then Some(s)
    else match Step(s, ls[0])
      case None => None
      case Some(s') => Execute(s', ls[1..])
  }

  ghost predicate Runs(s: State, ls: seq<Label>, s': State) {
    Execute(s, ls) == Some(s')
  }

  // ---------------------------------------------------------------- invariants

  function InHand(stage: Stage): seq<Value> {
    if stage.Handing? then [stage.d] else []
  }

  /** One client's pipeline: two FIFO channels and at most one value between them. */
  predicate Pipeline(c: Client) {
    && Fifo(c.raw) && Fifo(c.out)
    && Decisions(Gots(c.raw.log)) == Takes(c.out.log) + InHand(c.stage)
    && (c.stage.Handing? ==> c.stage.d.Decision?)
  }

  predicate Closings(c: Client) {
    && (c.raw.closed <==> c.stage.Finished?)
    && (c.out.closed <==> c.stage.OutClosed? || c.stage.Finished?)
  }

  predicate Registered(s: State) {
    && s.subs <= s.clients.Keys
    && (forall id :: id in s.clients ==> (id in s.subs <==> !s.clients[id].stage.Finished?))
    && (forall p :: 0 <= p < |s.pubs| ==> s.pubs[p].rest <= s.subs)
  }

  predicate Inv(s: State) {
    && Registered(s)
    && (forall id :: id in s.clients ==> Pipeline(s.clients[id]) && Closings(s.clients[id]))
    && s.panics == 0
  }

  lemma PipelineOffered(c: Client, v: Value)
    requires Pipeline(c)
    ensures Pipeline(c.(raw := Offered(c.raw, v)))
  {
    OfferedIsFifo(c.raw, v);
  }

  lemma PipelineTake(c: Client)
    requires Pipeline(c) && c.raw.buf != [] && c.stage.Waiting?
    ensures Pipeline(AfterTake(c))
  {
    var v := c.raw.buf[0];
    ReceivedIsFifo(c.raw);
    DecisionsConcat(Gots(c.raw.log), [v]);
    DecisionsOne(v);
  }

  lemma PipelineHand(c: Client)
    requires Pipeline(c) && c.stage.Handing? && |c.out.buf| < CAP
    ensures Pipeline(c.(out := Offered(c.out, c.stage.d), stage := Waiting))
  {
    OfferedIsFifo(c.out, c.stage.d);
  }

  lemma PipelineRead(c: Client)
    requires Pipeline(c) && c.out.buf != []
    ensures Pipeline(c.(out := Received(c.out)))
  {
    ReceivedIsFifo(c.out);
  }

  /** A change to one client that keeps it registered as it was. */
  lemma WithInv(s: State, id: string, c: Client)
    requires Inv(s) && id in s.clients && Pipeline(c) && Closings(c)
    requires c.stage.Finished? <==> s.clients[id].stage.Finished?
    ensures Inv(With(s, id, c))
  {
  }

  lemma VisitInv(s: State, p: nat, id: string)
    requires Inv(s) && Enabled(s, Visit(p, id))
    ensures Inv(Next(s, Visit(p, id)))
    ensures !s.clients[id].raw.closed
  {
    var c := s.clients[id];
    assert id in s.subs;
    PipelineOffered(c, s.pubs[p].v);
    WithInv(s, id, c.(raw := Offered(c.raw, s.pubs[p].v)));
  }

  lemma PublishInv(s: State, v: Value)
    requires Inv(s)
    ensures Inv(Begun(s, v))
  {
    var s' := Begun(s, v);
    assert s'.clients.Keys == s.clients.Keys;
    forall id | id in s'.clients ensures Pipeline(s'.clients[id]) && Closings(s'.clients[id]) {
      assert Pipeline(s.clients[id]) && Closings(s.clients[id]);
    }
  }

  lemma ArrivalInv(s: State, id: string)
    requires Inv(s) && Enabled(s, Subscribe(id))
    ensures Inv(Next(s, Subscribe(id)))
  {
    assert Pipeline(NEWCOMER);
  }

  lemma DepartureInv(s: State, id: string)
    requires Inv(s) && Enabled(s, Unsubscribe(id))
    ensures Inv(Next(s, Unsubscribe(id)))
  {
  }

  lemma ForwarderInv(s: State, l: Label)
    requires Inv(s) && Enabled(s, l) && (l.Take? || l.Hand? || l.Leave? || l.RawClosed? || l.Read? || l.Cancel?)
    ensures Inv(Next(s, l))
  {
    var c := s.clients[l.id];
    match l
    case Take(id) =>
      PipelineTake(c);
      WithInv(s, id, AfterTake(c));
    case Hand(id) =>
      PipelineHand(c);
      WithInv(s, id, c.(out := Offered(c.out, c.stage.d), stage := Waiting));
    case Leave(id) => WithInv(s, id, c.(out := c.out.(closed := true), stage := OutClosed));
    case Read(id) =>
      PipelineRead(c);
      WithInv(s, id, c.(out := Received(c.out)));
    case Cancel(id) => WithInv(s, id, c.(cancelled := true));
    case RawClosed(_) =>
  }

  lemma InvStep(s: State, l: Label)
    requires Inv(s) && Enabled(s, l)
    ensures Inv(Next(s, l))
  {
    match l
    case Subscribe(id) => ArrivalInv(s, id);
    case Publish(v) => PublishInv(s, v);
    case Visit(p, id) => VisitInv(s, p, id);
    case EndPublish(_) =>
    case Unsubscribe(id) => DepartureInv(s, id);
    case _ => ForwarderInv(s, l);
  }

  lemma {:induction false} InvAlways(s: State, ls: seq<Label>, s': State)
    requires Inv(s) && Runs(s, ls, s')
    ensures Inv(s')
    decreases |ls|
  {
    if ls != [] {
      InvStep(s, ls[0]);
      InvAlways(Next(s, ls[0]), ls[1..], s');
    }
  }

  // ---------------------------------------------------------------- what is guaranteed

  /** Under every interleaving nothing is sent on a closed channel and no channel is closed twice; the
      forwarder never finds its channel closed by somebody else. */
  lemma NeverPanics(s: State, ls: seq<Label>, s': State, id: string)
    requires Init(s) && Runs(s, ls, s')
    ensures s'.panics == 0
    ensures !Enabled(s', RawClosed(id))
  {
    InvAlways(s, ls, s');
  }

  /** Each subscriber's channel is a FIFO queue of 16 places: what it gave out and what it holds are, in
      order, sends offered to it, and a send was skipped exactly when 16 values were waiting. */
  lemma ChannelsAreFifo(s: State, ls: seq<Label>, s': State, id: string)
    requires Init(s) && Runs(s, ls, s') && id in s'.clients
    ensures var ch := s'.clients[id].raw;
      && Replay(ch.log) == Some(ch.buf) && |ch.buf| <= CAP
      && Takes(ch.log) == Gots(ch.log) + ch.buf
      && Subsequence(Gots(ch.log) + ch.buf, Offers(ch.log))
  {
    InvAlways(s, ls, s');
    var ch := s'.clients[id].raw;
    FifoOrder(ch.log, ch.buf);
    TakesAreOffered(ch.log);
  }

  /** Decisions on their way to the client. */
  function Underway(c: Client): seq<Value> {
    c.out.buf + InHand(c.stage) + Decisions(c.raw.buf)
  }

  /** Nothing gets lost or out of order between the two channels. */
  lemma PipelineSums(c: Client)
    requires Pipeline(c)
    ensures Decisions(Takes(c.raw.log)) == Gots(c.out.log) + Underway(c)
    ensures |Underway(c)| <= 33
  {
    FifoOrder(c.raw.log, c.raw.buf);
    FifoOrder(c.out.log, c.out.buf);
    DecisionsConcat(Gots(c.raw.log), c.raw.buf);
    DecisionsShrink(c.raw.buf);
    assert Takes(c.out.log) + InHand(c.stage) + Decisions(c.raw.buf) == Gots(c.out.log) + Underway(c);
  }

  /** A client receives, in order, a part of the decisions offered to it since it subscribed. What its
      channel took and it has not received yet is never more than 16 + 1 + 16 decisions. */
  lemma ClientReceivesInOrder(s: State, ls: seq<Label>, s': State, id: string)
    requires Init(s) && Runs(s, ls, s') && id in s'.clients
    ensures var c := s'.clients[id];
      && Decisions(Takes(c.raw.log)) == Gots(c.out.log) + Underway(c)
      && |Underway(c)| <= 33
      && Subsequence(Gots(c.out.log), Offers(c.raw.log))
  {
    InvAlways(s, ls, s');
    var c := s'.clients[id];
    PipelineSums(c);
    TakesAreOffered(c.raw.log);
    DecisionsAmong(Takes(c.raw.log), Offers(c.raw.log));
    PrefixAmong(Gots(c.out.log), Underway(c), Offers(c.raw.log));
  }

  // ---------------------------------------------------------------- the bound of 33 is reached

  lemma {:induction false} RunsConcat(s: State, ls: seq<Label>, mid: State, ls': seq<Label>, s': State)
    requires Runs(s, ls, mid) && Runs(mid, ls', s')
    ensures Runs(s, ls + ls', s')
    decreases |ls|
  {
    if ls == [] {
      assert ls + ls' == ls';
    } else {
      assert (ls + ls')[0] == ls[0] && (ls + ls')[1..] == ls[1..] + ls';
      RunsConcat(Next(s, ls[0]), ls[1..], mid, ls', s');
    }
  }

  lemma ThreeSteps(s0: State, l0: Label, s1: State, l1: Label, s2: State, l2: Label, s3: State)
    requires Step(s0, l0) == Some(s1) && Step(s1, l1) == Some(s2) && Step(s2, l2) == Some(s3)
    ensures Runs(s0, [l0, l1, l2], s3)
  {
    assert [l0, l1, l2][1..] == [l1, l2] && [l1, l2][1..] == [l2] && [l2][1..] == [];
    assert Execute(s2, [l2]) == Some(s3);
    assert Execute(s1, [l1, l2]) == Some(s3);
  }

  /** One subscriber, nobody publishing, `out` holding m decisions and `raw` holding k. */
  predicate Stands(s: State, id: string, stage: Stage, m: nat, k: nat) {
    && Inv(s) && s.subs == {id} && s.pubs == [] && id in s.clients
    && s.clients[id].stage == stage && |s.clients[id].out.buf| == m && |s.clients[id].raw.buf| == k
    && (forall i :: 0 <= i < k ==> s.clients[id].raw.buf[i].Decision?)
  }

  function PublishLabels(id: string, d: Value): seq<Label> {
    [Publish(d), Visit(0, id), EndPublish(0)]
  }

  /** The one subscriber is owed the value ... */
  lemma BegunForOne(s: State, id: string, d: Value)
    requires Inv(s) && s.subs == {id} && s.pubs == []
    ensures var s1 := Begun(s, d);
      && Inv(s1) && id in s.clients && s1.clients == s.clients[id := s.clients[id].(since := s.clients[id].since + multiset{d})]
      && s1.subs == {id} && s1.pubs == [Publisher(d, {id})]
  {
    InvStep(s, Publish(d));
  }

  /** ... and gets it. */
  lemma VisitedOne(s: State, id: string, d: Value)
    requires Inv(s) && id in s.clients && s.subs == {id} && s.pubs == [Publisher(d, {id})]
    ensures Enabled(s, Visit(0, id)) && Inv(Next(s, Visit(0, id)))
    ensures var c := s.clients[id];
      Next(s, Visit(0, id)) == With(s, id, c.(raw := Offered(c.raw, d))).(pubs := [Publisher(d, {})])
  {
    VisitInv(s, 0, id);
    assert {id} - {id} == {};
    assert [Publisher(d, {id})][0 := Publisher(d, {})] == [Publisher(d, {})];
  }

  lemma EndedOne(s: State, d: Value)
    requires s.pubs == [Publisher(d, {})]
    ensures Step(s, EndPublish(0)) == Some(s.(pubs := []))
  {
    assert s.pubs[..0] + s.pubs[1..] == [];
  }

  lemma PublishRuns(s: State, id: string, d: Value) returns (s': State)
    requires Inv(s) && s.subs == {id} && s.pubs == []
    ensures Runs(s, PublishLabels(id, d), s') && Inv(s') && s'.subs == {id} && s'.pubs == []
    ensures id in s'.clients && id in s.clients
    ensures var c, c' := s.clients[id], s'.clients[id];
      c'.raw == Offered(c.raw, d) && c'.out == c.out && c'.stage == c.stage
  {
    BegunForOne(s, id, d);
    var s1 := Begun(s, d);
    VisitedOne(s1, id, d);
    var s2 := Next(s1, Visit(0, id));
    EndedOne(s2, d);
    s' := s2.(pubs := []);
    ThreeSteps(s, Publish(d), s1, Visit(0, id), s2, EndPublish(0), s');
  }

  lemma PublishOne(s: State, id: string, stage: Stage, m: nat, k: nat, d: Value) returns (ls: seq<Label>, s': State)
    requires Stands(s, id, stage, m, k) && k < CAP && d.Decision?
    ensures Runs(s, ls, s') && Stands(s', id, stage, m, k + 1)
  {
    ls := PublishLabels(id, d);
    s' := PublishRuns(s, id, d);
  }

  lemma TakeOne(s: State, id: string, m: nat) returns (d: Value, s': State)
    requires Stands(s, id, Waiting, m, 1)
    ensures d.Decision? && Runs(s, [Take(id)], s') && Stands(s', id, Handing(d), m, 0)
  {
    d := s.clients[id].raw.buf[0];
    s' := Next(s, Take(id));
    InvStep(s, Take(id));
    assert [Take(id)][1..] == [];
  }

  lemma HandOne(s: State, id: string, d: Value, m: nat) returns (s': State)
    requires Stands(s, id, Handing(d), m, 0) && m < CAP
    ensures Runs(s, [Hand(id)], s') && Stands(s', id, Waiting, m + 1, 0)
  {
    s' := Next(s, Hand(id));
    InvStep(s, Hand(id));
    assert [Hand(id)][1..] == [];
  }

  /** One decision published, taken and handed on. */
  lemma PassOne(s: State, id: string, d: Value, m: nat) returns (ls: seq<Label>, s': State)
    requires Stands(s, id, Waiting, m, 0) && m < CAP && d.Decision?
    ensures Runs(s, ls, s') && Stands(s', id, Waiting, m + 1, 0)
  {
    var ls1, s1 := PublishOne(s, id, Waiting, m, 0, d);
    var d', s2 := TakeOne(s1, id, m);
    s' := HandOne(s2, id, d', m);
    RunsConcat(s1, [Take(id)], s2, [Hand(id)], s');
    RunsConcat(s, ls1, s1, [Take(id)] + [Hand(id)], s');
    ls := ls1 + ([Take(id)] + [Hand(id)]);
  }

  lemma {:induction false} FillOut(id: string, d: Value, m: nat) returns (ls: seq<Label>, s': State)
    requires m <= CAP && d.Decision?
    ensures Runs(State(map[], {}, [], 0), ls, s') && Stands(s', id, Waiting, m, 0)
  {
    var s := State(map[], {}, [], 0);
    if m == 0 {
      ls, s' := [Subscribe(id)], Next(s, Subscribe(id));
      InvStep(s, Subscribe(id));
      assert ls[1..] == [];
    } else {
      var ls0, s0 := FillOut(id, d, m - 1);
      var ls1, s1 := PassOne(s0, id, d, m - 1);
      RunsConcat(s, ls0, s0, ls1, s1);
      ls, s' := ls0 + ls1, s1;
    }
  }

  lemma {:induction false} FillRaw(id: string, d: Value, k: nat) returns (ls: seq<Label>, d': Value, s': State)
    requires k <= CAP && d.Decision?
    ensures d'.Decision? && Runs(State(map[], {}, [], 0), ls, s') && Stands(s', id, Handing(d'), CAP, k)
  {
    var s := State(map[], {}, [], 0);
    if k == 0 {
      var ls0, s0 := FillOut(id, d, CAP);
      var ls1, s1 := PublishOne(s0, id, Waiting, CAP, 0, d);
      d', s' := TakeOne(s1, id, CAP);
      RunsConcat(s, ls0, s0, ls1, s1);
      RunsConcat(s, ls0 + ls1, s1, [Take(id)], s');
      ls := ls0 + ls1 + [Take(id)];
    } else {
      var ls0, d0, s0 := FillRaw(id, d, k - 1);
      var ls1, s1 := PublishOne(s0, id, Handing(d0), CAP, k - 1, d);
      RunsConcat(s, ls0, s0, ls1, s1);
      ls, d', s' := ls0 + ls1, d0, s1;
    }
  }

  lemma {:induction false} AllDecisions(vs: seq<Value>)
    requires forall i :: 0 <= i < |vs| ==> vs[i].Decision?
    ensures Decisions(vs) == vs
    decreases |vs|
  {
    if vs != [] {
      AllDecisions(vs[..|vs| - 1]);
    }
  }

  /** A client that reads nothing can have 33 decisions under way, and from then on loses decisions. */
  lemma ThirtyThreeAreReached(id: string, d: Value) returns (ls: seq<Label>, s': State)
    requires d.Decision?
    ensures Runs(State(map[], {}, [], 0), ls, s') && id in s'.clients && id in s'.subs
    ensures |Underway(s'.clients[id])| == 33
    ensures forall v :: Offered(s'.clients[id].raw, v).buf == s'.clients[id].raw.buf
  {
    var d';
    ls, d', s' := FillRaw(id, d, CAP);
    AllDecisions(s'.clients[id].raw.buf);
  }

  // ---------------------------------------------------------------- nobody is left out

  /** Publish calls that still owe v to this subscriber. */
  function Owed(pubs: seq<Publisher>, id: string, v: Value): nat {
    if pubs == [] then 0 else Owed(pubs[..|pubs| - 1], id, v) + Owes(pubs[|pubs| - 1], id, v)
  }

  function Owes(p: Publisher, id: string, v: Value): nat {
    if p.v == v && id in p.rest then 1 else 0
  }

  predicate Served(s: State, id: string, v: Value) {
    id in s.clients ==> multiset(Offers(s.clients[id].raw.log))[v] + Owed(s.pubs, id, v) == s.clients[id].since[v]
  }

  lemma OwedConcat(pubs: seq<Publisher>, p: Publisher, id: string, v: Value)
    ensures Owed(pubs + [p], id, v) == Owed(pubs, id, v) + Owes(p, id, v)
  {
    assert (pubs + [p])[..|pubs|] == pubs;
  }

  lemma {:induction false} OwedUpdate(pubs: seq<Publisher>, k: nat, p: Publisher, id: string, v: Value)
    requires k < |pubs|
    ensures Owed(pubs[k := p], id, v) + Owes(pubs[k], id, v) == Owed(pubs, id, v) + Owes(p, id, v)
    decreases |pubs|
  {
    var n := |pubs| - 1;
    if k == n {
      assert pubs[k := p][..n] == pubs[..n];
    } else {
      assert pubs[k := p][..n] == pubs[..n][k := p];
      OwedUpdate(pubs[..n], k, p, id, v);
    }
  }

  lemma {:induction false} OwedRemove(pubs: seq<Publisher>, k: nat, id: string, v: Value)
    requires k < |pubs|
    ensures Owed(pubs[..k] + pubs[k + 1..], id, v) + Owes(pubs[k], id, v) == Owed(pubs, id, v)
    decreases |pubs|
  {
    var n := |pubs| - 1;
    if k == n {
      assert pubs[..k] + pubs[k + 1..] == pubs[..n];
    } else {
      var rest := pubs[..k] + pubs[k + 1..];
      assert rest[..|rest| - 1] == pubs[..n][..k] + pubs[..n][k + 1..];
      OwedRemove(pubs[..n], k, id, v);
    }
  }

  lemma {:induction false} NothingOwed(pubs: seq<Publisher>, id: string, v: Value)
    requires forall p :: 0 <= p < |pubs| ==> id !in pubs[p].rest
    ensures Owed(pubs, id, v) == 0
    decreases |pubs|
  {
    if pubs != [] {
      NothingOwed(pubs[..|pubs| - 1], id, v);
    }
  }

  lemma CountSnoc(vs: seq<Value>, w: Value, v: Value)
    ensures multiset(vs + [w])[v] == multiset(vs)[v] + (if w == v then 1 else 0)
  {
  }

  lemma WithServes(s: State, id: string, c: Client, x: string, v: Value)
    requires id in s.clients && Served(s, x, v) && c.since == s.clients[id].since
    requires Offers(c.raw.log) == Offers(s.clients[id].raw.log)
    ensures Served(With(s, id, c), x, v)
  {
  }

  lemma VisitServes(s: State, p: nat, id: string, x: string, v: Value)
    requires Inv(s) && Served(s, x, v) && Enabled(s, Visit(p, id))
    ensures Served(Next(s, Visit(p, id)), x, v)
  {
    var pub, c := s.pubs[p], s.clients[id];
    VisitInv(s, p, id);
    OwedUpdate(s.pubs, p, pub.(rest := pub.rest - {id}), x, v);
    if x == id {
      OfferedIsFifo(c.raw, pub.v);
      CountSnoc(Offers(c.raw.log), pub.v, v);
    }
  }

  lemma ArrivalServes(s: State, id: string, x: string, v: Value)
    requires Served(s, x, v) && Enabled(s, Subscribe(id))
    ensures Served(Next(s, Subscribe(id)), x, v)
  {
    assert Offers([]) == [];
  }

  lemma PublishServes(s: State, value: Value, x: string, v: Value)
    requires Registered(s) && Served(s, x, v)
    ensures Served(Begun(s, value), x, v)
  {
    OwedConcat(s.pubs, Publisher(value, s.subs), x, v);
  }

  lemma ForwarderServes(s: State, l: Label, x: string, v: Value)
    requires Inv(s) && Served(s, x, v) && Enabled(s, l)
    requires l.Take? || l.Hand? || l.Leave? || l.RawClosed? || l.Read? || l.Cancel? || l.Unsubscribe?
    ensures Served(Next(s, l), x, v)
  {
    var c := s.clients[l.id];
    match l
    case Take(id) =>
      ReceivedIsFifo(c.raw);
      WithServes(s, id, AfterTake(c), x, v);
    case Hand(id) => WithServes(s, id, c.(out := Offered(c.out, c.stage.d), stage := Waiting), x, v);
    case Leave(id) => WithServes(s, id, c.(out := c.out.(closed := true), stage := OutClosed), x, v);
    case Read(id) => WithServes(s, id, c.(out := Received(c.out)), x, v);
    case Cancel(id) => WithServes(s, id, c.(cancelled := true), x, v);
    case Unsubscribe(id) => WithServes(s, id, c.(raw := c.raw.(closed := true), stage := Finished), x, v);
    case RawClosed(_) =>
  }

  lemma ServedStep(s: State, l: Label, x: string, v: Value)
    requires Inv(s) && Served(s, x, v) && Enabled(s, l)
    ensures Served(Next(s, l), x, v)
  {
    match l
    case Subscribe(id) => ArrivalServes(s, id, x, v);
    case Publish(value) => PublishServes(s, value, x, v);
    case Visit(p, id) => VisitServes(s, p, id, x, v);
    case EndPublish(p) => OwedRemove(s.pubs, p, x, v);
    case _ => ForwarderServes(s, l, x, v);
  }

  lemma {:induction false} ServedAlways(s: State, ls: seq<Label>, s': State, x: string, v: Value)
    requires Inv(s) && Served(s, x, v) && Runs(s, ls, s')
    ensures Inv(s') && Served(s', x, v)
    decreases |ls|
  {
    if ls != [] {
      InvStep(s, ls[0]);
      ServedStep(s, ls[0], x, v);
      ServedAlways(Next(s, ls[0]), ls[1..], s', x, v);
    }
  }

  /** Whenever no Publish call is under way, every subscriber was offered every value published while it
      was subscribed, as often as it was published. */
  lemma EveryPublishIsOffered(s: State, ls: seq<Label>, s': State, id: string)
    requires Init(s) && Runs(s, ls, s') && id in s'.clients && s'.pubs == []
    ensures multiset(Offers(s'.clients[id].raw.log)) == s'.clients[id].since
  {
    forall v: Value ensures multiset(Offers(s'.clients[id].raw.log))[v] == s'.clients[id].since[v] {
      ServedAlways(s, ls, s', id, v);
    }
  }

  // ---------------------------------------------------------------- broker and forwarder as objects

  class Chan {
    var buf: seq<Value>
    var closed: bool
    ghost var log: seq<Event>

    ghost function View(): Channel
      reads this
    {
      Channel(buf, closed, log)
    }

    constructor ()
      ensures View() == EMPTY
    {
      buf, closed, log := [], false, [];
    }

    /** A send that does not wait. Sending on a closed channel would panic. */
    method TrySend(v: Value)
      requires !closed
      modifies this
      ensures View() == Offered(old(View()), v)
      ensures buf == (if |old(buf)| < 16 then old(buf) + [v] else old(buf)) && closed == old(closed)
    {
      if |buf| < CAP {
        buf := buf + [v];
        log := log + [Took(v)];
      } else {
        log := log + [Skipped(v)];
      }
    }

    method Receive() returns (v: Value)
      requires buf != []
      modifies this
      ensures v == old(buf[0]) && View() == Received(old(View()))
    {
      v := buf[0];
      log := log + [Got(v)];
      buf := buf[1..];
    }

    /** Closing twice would panic. */
    method Close()
      requires !closed
      modifies this
      ensures View() == old(View()).(closed := true)
    {
      closed := true;
    }
  }

  class Broker {
    var subs: map<string, Chan>

    /** Every ID has a channel of its own, and it is open. */
    ghost predicate Valid()
      reads this, subs.Values
    {
      && (forall id :: id in subs ==> !subs[id].closed)
      && (forall id, id' :: id in subs && id' in subs && id != id' ==> subs[id] != subs[id'])
    }

    constructor ()
      ensures Valid() && subs == map[]
    {
      subs := map[];
    }

    /** `id` is a fresh UUID. */
    method Subscribe(id: string) returns (ch: Chan)
      requires Valid() && id !in subs
      modifies this
      ensures Valid() && fresh(ch) && ch.View() == EMPTY
      ensures subs == old(subs)[id := ch]
    {
      ch := new Chan();
      subs := subs[id := ch];
    }

    method Unsubscribe(id: string)
      requires Valid()
      modifies this, subs.Values
      ensures Valid() && subs == old(subs) - {id}
      ensures id in old(subs) ==> old(subs)[id].View() == old(subs[id].View()).(closed := true)
      ensures forall x :: x in old(subs) && x != id ==> subs[x].View() == old(subs[x].View())
    {
      if id in subs {
        subs[id].Close();
        subs := subs - {id};
      }
    }

    /** Visits every channel once, in an order of the map's choosing. */
    method Publish(v: Value)
      requires Valid()
      modifies subs.Values
      ensures Valid()
      ensures forall id :: id in subs ==> subs[id].View() == Offered(old(subs[id].View()), v)
      ensures forall id :: id in subs ==>
        subs[id].buf == if |old(subs[id].buf)| < 16 then old(subs[id].buf) + [v] else old(subs[id].buf)
    {
      var rest := subs.Keys;
      while rest != {}
        invariant rest <= subs.Keys && Valid()
        invariant forall id :: id in subs ==>
          subs[id].View() == if id in rest then old(subs[id].View()) else Offered(old(subs[id].View()), v)
        decreases |rest|
      {
        var id :| id in rest;
        subs[id].TrySend(v);
        rest := rest - {id};
      }
    }
  }

  /** A turn of the forwarder's loop that found a value and did not have to wait. */
  function Passed(c: Client): Client
    requires c.raw.buf != []
  {
    var taken := AfterTake(c);
    if taken.stage.Handing? then taken.(out := Offered(taken.out, taken.stage.d), stage := Waiting) else taken
  }

  class Forwarder {
    const id: string
    const broker: Broker
    const raw: Chan
    const out: Chan
    ghost var stage: Stage

    ghost function View(): Client
      reads this, raw, out
    {
      Client(raw.View(), out.View(), stage, false, multiset{})
    }

    ghost predicate Valid()
      reads this, broker, broker.subs.Values, raw, out
    {
      && broker.Valid() && id in broker.subs && broker.subs[id] == raw && out !in broker.subs.Values
      && stage.Waiting? && !out.closed
    }

    /** OnDecision: subscribe, and make the client's channel. */
    constructor (broker: Broker, id: string)
      requires broker.Valid() && id !in broker.subs
      modifies broker
      ensures Valid() && this.broker == broker && this.id == id && fresh(raw) && fresh(out)
      ensures View() == NEWCOMER && broker.subs == old(broker.subs)[id := raw]
    {
      var r := broker.Subscribe(id);
      var o := new Chan();
      this.id, this.broker, raw, out, stage := id, broker, r, o, Waiting;
    }

    method Pass()
      requires Valid() && raw.buf != [] && (raw.buf[0].Decision? ==> |out.buf| < CAP)
      modifies raw, out
      ensures Valid() && View() == Passed(old(View()))
      ensures raw.buf == old(raw.buf)[1..]
      ensures out.buf == old(out.buf) + if old(raw.buf)[0].Decision? then [old(raw.buf)[0]] else []
    {
      var v := raw.Receive();
      if v.Decision? {
        out.TrySend(v);
      }
    }

    /** The deferred calls, once the context is done: close `out`, then unsubscribe. */
    method Leave()
      requires Valid()
      modifies this`stage, out, broker, broker.subs.Values
      ensures View() == old(View()).(raw := old(raw.View()).(closed := true), out := old(out.View()).(closed := true),
                                     stage := Finished)
      ensures broker.Valid() && broker.subs == old(broker.subs) - {id}
    {
      out.Close();
      broker.Unsubscribe(id);
      stage := Finished;
    }
  }

  /** A pass is the forwarder's own steps, one after the other. */
  lemma PassIsSteps(s: State, id: string)
    requires Enabled(s, Take(id)) && !s.clients[id].out.closed
    requires s.clients[id].raw.buf[0].Decision? ==> |s.clients[id].out.buf| < CAP
    ensures var ls := if s.clients[id].raw.buf[0].Decision? then [Take(id), Hand(id)] else [Take(id)];
      Runs(s, ls, With(s, id, Passed(s.clients[id])))
  {
    var s1 := With(s, id, AfterTake(s.clients[id]));
    var s2 := With(s, id, Passed(s.clients[id]));
    if s.clients[id].raw.buf[0].Decision? {
      assert Next(s1, Hand(id)) == s2;
      assert Execute(s1, [Hand(id)]) == Some(s2) by {
        assert [Hand(id)][1..] == [];
      }
      assert [Take(id), Hand(id)][1..] == [Hand(id)];
    } else {
      assert [Take(id)][1..] == [];
    }
  }
}
