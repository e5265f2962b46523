/** The observable contract of a Kafka topic and of one consume loop over it.

    A `Side` is a topic as one consumer group sees it, the place its loop stands, and a book of
    what became of each message. The book and `Record.src` are history: no step reads them. */
module Kafka {
  import opened Headers

  datatype Message = Message(key: string, value: string, headers: seq<Header>)

  /** A place in a partitioned topic. */
  datatype Slot = Slot(part: nat, offset: nat)

  /** A message in a log. `src` is the events-topic slot it descends from. */
  datatype Record = Record(msg: Message, src: Slot)

  /** One partition as one consumer group sees it: append-only log, read position, committed offset. */
  datatype Partition = Partition(log: seq<Record>, pos: nat, committed: nat)

  type Topic = seq<Partition>

  predicate ValidSlot(t: Topic, at: Slot) {
    at.part < |t| && at.offset < |t[at.part].log|
  }

  function RecordAt(t: Topic, at: Slot): Record
    requires ValidSlot(t, at)
  {
    t[at.part].log[at.offset]
  }

  predicate HasUnread(t: Topic, part: nat) {
    part < |t| && t[part].pos < |t[part].log|
  }

  predicate EmptyTopic(t: Topic) {
    forall p :: 0 <= p < |t| ==> t[p] == Partition([], 0, 0)
  }

  /** The broker appends to a partition. */
  function Stored(t: Topic, part: nat, r: Record): Topic
    requires part < |t|
  {
    t[part := t[part].(log := t[part].log + [r])]
  }

  /** ReadMessage moves the position past the message it hands out. */
  function Advanced(t: Topic, part: nat): Topic
    requires part < |t|
  {
    t[part := t[part].(pos := t[part].pos + 1)]
  }

  /** CommitMessage stores the offset after the message. */
  function CommittedPast(t: Topic, at: Slot): Topic
    requires at.part < |t|
  {
    t[at.part := t[at.part].(committed := at.offset + 1)]
  }

  /** A restarted consumer resumes from the committed offsets. */
  function Rewound(t: Topic): Topic {
    seq(|t|, i requires 0 <= i < |t| => t[i].(pos := t[i].committed))
  }

  // ---------------------------------------------------------------- counting sources

  /** Sources of the records of a log, with multiplicity. */
  function SrcsOf(rs: seq<Record>): multiset<Slot> {
    if rs == [] then multiset{} else multiset{rs[0].src} + SrcsOf(rs[1..])
  }

  /** How many records of a log descend from `s`. */
  function CountIn(rs: seq<Record>, s: Slot): nat {
    if rs == [] then 0 else (if rs[0].src == s then 1 else 0) + CountIn(rs[1..], s)
  }

  datatype Span = Whole | Unread | Uncommitted

  /** A stretch of a partition's log. */
  function Slice(p: Partition, span: Span): seq<Record> {
    match span
    case Whole => p.log
    case Unread => if p.pos <= |p.log| then p.log[p.pos..] else []
    case Uncommitted => if p.committed <= p.pos <= |p.log| then p.log[p.committed..p.pos] else []
  }

  function TopicSrcs(t: Topic, span: Span): multiset<Slot> {
    if t == [] then multiset{} else SrcsOf(Slice(t[0], span)) + TopicSrcs(t[1..], span)
  }

  function TopicCount(t: Topic, span: Span, s: Slot): nat {
    if t == [] then 0 else CountIn(Slice(t[0], span), s) + TopicCount(t[1..], span, s)
  }

  // ---------------------------------------------------------------- a consume loop

  /** Where a loop stands with the message it holds. */
  datatype Pc =
    | Idle
    | Read(at: Slot)                    // message in hand, nothing decided
    | Ready(at: Slot)                   // retry loop only: backoff is over
    | Failed(at: Slot, error: string)   // handler failed, nothing published yet
    | Disposed(at: Slot)                // dealt with, offset not committed yet
    | Stopped(at: Slot)                 // retry loop only: context cancelled during backoff

  /** How a loop dealt with a message. */
  datatype Fate = Unparseable | Handled | Published(accepted: bool) | GaveUp

  datatype Book = Book(
    unparseable: multiset<Slot>,
    handled: multiset<Slot>,
    published: multiset<Slot>,
    gaveUp: multiset<Slot>,
    reread: multiset<Slot>,       // read before a restart but not committed: handed out again
    cut: multiset<Slot>,          // in hand and undecided when the process died
    fates: map<Slot, Fate>)       // last decision per slot

  const BLANK := Book(multiset{}, multiset{}, multiset{}, multiset{}, multiset{}, multiset{}, map[])

  datatype Side = Side(topic: Topic, pc: Pc, book: Book)

  predicate Holding(sd: Side) {
    !sd.pc.Idle? && ValidSlot(sd.topic, sd.pc.at)
  }

  function InHand(sd: Side): Record
    requires Holding(sd)
  {
    RecordAt(sd.topic, sd.pc.at)
  }

  /** The source of the message the loop holds and has not dealt with. */
  function HandSrc(sd: Side): multiset<Slot> {
    if Holding(sd) && !sd.pc.Disposed? then multiset{InHand(sd).src} else multiset{}
  }

  /** What can happen to one side. */
  datatype Op =
    | Append(part: nat, r: Record)   // the broker stores a message
    | Fetch(part: nat)               // ReadMessage: hand out the next message, move the position past it
    | Wait                           // backoff over
    | Cancel                         // context cancelled during backoff
    | Fail(error: string)            // handler error
    | Dispose(fate: Fate)
    | Commit(stored: bool)           // CommitMessage stores the offset after the message, or fails
    | Reset                          // the process dies and resumes from the committed offsets

  predicate Fits(sd: Side, op: Op) {
    match op
    case Append(part, _) => part < |sd.topic|
    case Fetch(part) => sd.pc.Idle? && HasUnread(sd.topic, part)
    case Wait => sd.pc.Read? && Holding(sd)
    case Cancel => sd.pc.Read? && Holding(sd)
    case Fail(_) => (sd.pc.Read? || sd.pc.Ready?) && Holding(sd)
    case Dispose(_) => (sd.pc.Read? || sd.pc.Ready? || sd.pc.Failed?) && Holding(sd)
    case Commit(_) => sd.pc.Disposed? && Holding(sd)
    case Reset => true
  }

  function Entered(b: Book, at: Slot, src: Slot, fate: Fate): Book {
    var b' := b.(fates := b.fates[at := fate]);
    match fate
    case Unparseable => b'.(unparseable := b.unparseable + multiset{src})
    case Handled => b'.(handled := b.handled + multiset{src})
    case Published(_) => b'.(published := b.published + multiset{src})
    case GaveUp => b'.(gaveUp := b.gaveUp + multiset{src})
  }

  function Apply(sd: Side, op: Op): Side
    requires Fits(sd, op)
  {
    match op
    case Append(part, r) => sd.(topic := Stored(sd.topic, part, r))
    case Fetch(part) => sd.(topic := Advanced(sd.topic, part), pc := Read(Slot(part, sd.topic[part].pos)))
    case Wait => sd.(pc := Ready(sd.pc.at))
    case Cancel => sd.(pc := Stopped(sd.pc.at))
    case Fail(error) => sd.(pc := Failed(sd.pc.at, error))
    case Dispose(fate) => sd.(pc := Disposed(sd.pc.at), book := Entered(sd.book, sd.pc.at, InHand(sd).src, fate))
    case Commit(stored) =>
      sd.(topic := if stored then CommittedPast(sd.topic, sd.pc.at) else sd.topic, pc := Idle)
    case Reset =>
      Side(Rewound(sd.topic), Idle,
        sd.book.(reread := sd.book.reread + TopicSrcs(sd.topic, Uncommitted), cut := sd.book.cut + HandSrc(sd)))
  }

  // ---------------------------------------------------------------- invariants of a side

  predicate Ordered(t: Topic) {
    forall p :: 0 <= p < |t| ==> t[p].committed <= t[p].pos <= |t[p].log|
  }

  /** Offsets are ordered, and the message in hand is the last one read of its partition
      and not committed. */
  predicate Placed(sd: Side) {
    && Ordered(sd.topic)
    && (!sd.pc.Idle? ==>
          && ValidSlot(sd.topic, sd.pc.at)
          && sd.topic[sd.pc.at.part].pos == sd.pc.at.offset + 1
          && sd.topic[sd.pc.at.part].committed <= sd.pc.at.offset)
  }

  /** The loop still owes this slot a decision. */
  predicate Undecided(pc: Pc, at: Slot) {
    !pc.Idle? && !pc.Disposed? && pc.at == at
  }

  /** Every slot below the read position was decided, except the one in hand. */
  ghost predicate Settled(sd: Side) {
    forall p, o :: 0 <= p < |sd.topic| && 0 <= o < sd.topic[p].pos && !Undecided(sd.pc, Slot(p, o))
      ==> Slot(p, o) in sd.book.fates
  }

  /** A log never changes below its end. */
  ghost predicate Extends(t: Topic, t': Topic) {
    |t'| == |t| && forall p :: 0 <= p < |t| ==> t[p].log <= t'[p].log
  }

  /** Committed offsets never move back. */
  ghost predicate CommitsForward(t: Topic, t': Topic) {
    |t'| == |t| && forall p :: 0 <= p < |t| ==> t[p].committed <= t'[p].committed
  }

  lemma PlacedStep(sd: Side, op: Op)
    requires Placed(sd) && Fits(sd, op)
    ensures Placed(Apply(sd, op))
    ensures Extends(sd.topic, Apply(sd, op).topic)
    ensures CommitsForward(sd.topic, Apply(sd, op).topic)
  {
  }

  lemma SettledStep(sd: Side, op: Op)
    requires Placed(sd) && Settled(sd) && Fits(sd, op)
    ensures Settled(Apply(sd, op))
  {
  }

  // ---------------------------------------------------------------- counting lemmas

  lemma {:induction false} SrcsCount(rs: seq<Record>, s: Slot)
    ensures SrcsOf(rs)[s] == CountIn(rs, s)
  {
    if rs != [] {
      SrcsCount(rs[1..], s);
    }
  }

  lemma {:induction false} TopicSrcsCount(t: Topic, span: Span, s: Slot)
    ensures TopicSrcs(t, span)[s] == TopicCount(t, span, s)
  {
    if t != [] {
      SrcsCount(Slice(t[0], span), s);
      TopicSrcsCount(t[1..], span, s);
    }
  }

  lemma {:induction false} CountConcat(a: seq<Record>, b: seq<Record>, s: Slot)
    ensures CountIn(a + b, s) == CountIn(a, s) + CountIn(b, s)
  {
    if a == [] {
      assert a + b == b;
    } else {
      assert (a + b)[1..] == a[1..] + b;
      CountConcat(a[1..], b, s);
    }
  }

  lemma CountOne(r: Record, s: Slot)
    ensures CountIn([r], s) == From(r, s)
  {
    assert [r][1..] == [];
  }

  /** 1 when `r` descends from `s`. */
  function From(r: Record, s: Slot): nat {
    if r.src == s then 1 else 0
  }

  lemma CountRemove(rs: seq<Record>, i: nat, s: Slot)
    requires i < |rs|
    ensures CountIn(rs, s) == CountIn(rs[..i] + rs[i + 1..], s) + From(rs[i], s)
  {
    assert rs == rs[..i] + ([rs[i]] + rs[i + 1..]);
    CountConcat(rs[..i], [rs[i]] + rs[i + 1..], s);
    CountConcat([rs[i]], rs[i + 1..], s);
    CountConcat(rs[..i], rs[i + 1..], s);
    CountOne(rs[i], s);
  }

  lemma CountMember(rs: seq<Record>, i: nat)
    requires i < |rs|
    ensures CountIn(rs, rs[i].src) >= 1
  {
    CountRemove(rs, i, rs[i].src);
  }

  /** Changing one partition changes a topic's count by that partition's change. */
  lemma {:induction false} TopicUpdate(t: Topic, i: nat, x: Partition, span: Span, s: Slot)
    requires i < |t|
    ensures TopicCount(t[i := x], span, s) + CountIn(Slice(t[i], span), s)
      == TopicCount(t, span, s) + CountIn(Slice(x, span), s)
  {
    if i == 0 {
      assert t[i := x][1..] == t[1..];
    } else {
      assert t[i := x][1..] == t[1..][i - 1 := x];
      TopicUpdate(t[1..], i - 1, x, span, s);
    }
  }

  lemma {:induction false} TopicMember(t: Topic, p: nat, k: nat, span: Span)
    requires p < |t| && k < |Slice(t[p], span)|
    ensures TopicCount(t, span, Slice(t[p], span)[k].src) >= 1
  {
    if p == 0 {
      CountMember(Slice(t[0], span), k);
    } else {
      TopicMember(t[1..], p - 1, k, span);
    }
  }

  /** Rewinding makes exactly the uncommitted messages unread again. */
  lemma {:induction false} RewindCounts(t: Topic, t': Topic, s: Slot)
    requires Ordered(t) && |t'| == |t|
    requires forall i :: 0 <= i < |t| ==> t'[i] == t[i].(pos := t[i].committed)
    ensures TopicCount(t', Unread, s) == TopicCount(t, Uncommitted, s) + TopicCount(t, Unread, s)
    ensures TopicCount(t', Whole, s) == TopicCount(t, Whole, s)
  {
    if t != [] {
      RewindCounts(t[1..], t'[1..], s);
      var p := t[0];
      assert p.log[p.committed..] == p.log[p.committed..p.pos] + p.log[p.pos..];
      CountConcat(p.log[p.committed..p.pos], p.log[p.pos..], s);
    }
  }

  // ---------------------------------------------------------------- bookkeeping of a side

  /** How often `s` was decided on this side. */
  function Decided(b: Book, s: Slot): nat {
    b.unparseable[s] + b.handled[s] + b.published[s] + b.gaveUp[s]
  }

  /** How often the message in hand, not dealt with yet, descends from `s`. */
  function InHandCount(sd: Side, s: Slot): nat {
    if Holding(sd) && !sd.pc.Disposed? then From(InHand(sd), s) else 0
  }

  /** Every message stored, and every repeated reading after a restart, is in exactly one place:
      unread, in hand, decided, or cut off by a crash; and a crash cuts off only what it repeats. */
  ghost predicate Balanced(sd: Side, s: Slot) {
    && TopicCount(sd.topic, Whole, s) + sd.book.reread[s]
       == TopicCount(sd.topic, Unread, s) + InHandCount(sd, s) + Decided(sd.book, s) + sd.book.cut[s]
    && sd.book.cut[s] <= sd.book.reread[s]
  }

  lemma AppendCounts(t: Topic, part: nat, r: Record, s: Slot)
    requires Ordered(t) && part < |t|
    ensures var t' := Stored(t, part, r);
      && TopicCount(t', Whole, s) == TopicCount(t, Whole, s) + From(r, s)
      && TopicCount(t', Unread, s) == TopicCount(t, Unread, s) + From(r, s)
  {
    var p := t[part];
    var p' := p.(log := p.log + [r]);
    TopicUpdate(t, part, p', Whole, s);
    TopicUpdate(t, part, p', Unread, s);
    CountConcat(p.log, [r], s);
    assert p'.log[p.pos..] == p.log[p.pos..] + [r];
    CountConcat(p.log[p.pos..], [r], s);
    CountOne(r, s);
  }

  lemma SliceFetched(p: Partition, s: Slot)
    requires p.pos < |p.log|
    ensures CountIn(Slice(p, Unread), s) == CountIn(Slice(p.(pos := p.pos + 1), Unread), s) + From(p.log[p.pos], s)
  {
    assert p.log[p.pos..] == [p.log[p.pos]] + p.log[p.pos + 1..];
    CountConcat([p.log[p.pos]], p.log[p.pos + 1..], s);
    CountOne(p.log[p.pos], s);
  }

  lemma FetchCounts(t: Topic, part: nat, s: Slot)
    requires Ordered(t) && HasUnread(t, part)
    ensures var t' := Advanced(t, part);
      && TopicCount(t', Whole, s) == TopicCount(t, Whole, s)
      && TopicCount(t, Unread, s) == TopicCount(t', Unread, s) + From(t[part].log[t[part].pos], s)
  {
    var p' := t[part].(pos := t[part].pos + 1);
    TopicUpdate(t, part, p', Whole, s);
    TopicUpdate(t, part, p', Unread, s);
    SliceFetched(t[part], s);
  }

  lemma CommitCounts(t: Topic, at: Slot, s: Slot)
    requires at.part < |t|
    ensures var t' := CommittedPast(t, at);
      && TopicCount(t', Whole, s) == TopicCount(t, Whole, s)
      && TopicCount(t', Unread, s) == TopicCount(t, Unread, s)
  {
    TopicUpdate(t, at.part, t[at.part].(committed := at.offset + 1), Whole, s);
    TopicUpdate(t, at.part, t[at.part].(committed := at.offset + 1), Unread, s);
  }

  /** A message in hand when the process dies is among those handed out again. */
  lemma HandIsUncommitted(sd: Side, s: Slot)
    requires Placed(sd)
    ensures InHandCount(sd, s) <= TopicCount(sd.topic, Uncommitted, s)
    ensures HandSrc(sd)[s] == InHandCount(sd, s)
  {
    if Holding(sd) && !sd.pc.Disposed? {
      var p := sd.topic[sd.pc.at.part];
      var k := sd.pc.at.offset - p.committed;
      assert Slice(p, Uncommitted)[k] == InHand(sd);
      TopicMember(sd.topic, sd.pc.at.part, k, Uncommitted);
    }
  }

  lemma BookCounts(b: Book, at: Slot, src: Slot, fate: Fate, s: Slot)
    ensures var b' := Entered(b, at, src, fate);
      && Decided(b', s) == Decided(b, s) + (if src == s then 1 else 0)
      && b'.reread == b.reread && b'.cut == b.cut
  {
  }

  /** Storing a message does not touch the one in hand. */
  lemma AppendKeepsHand(sd: Side, part: nat, r: Record, s: Slot)
    requires Placed(sd) && part < |sd.topic|
    ensures InHandCount(Apply(sd, Append(part, r)), s) == InHandCount(sd, s)
    ensures !sd.pc.Idle? ==> Holding(Apply(sd, Append(part, r))) && InHand(Apply(sd, Append(part, r))) == InHand(sd)
  {
  }

  lemma AppendBalanced(sd: Side, part: nat, r: Record, s: Slot)
    requires Placed(sd) && Balanced(sd, s) && part < |sd.topic|
    ensures Balanced(Apply(sd, Append(part, r)), s)
  {
    AppendCounts(sd.topic, part, r, s);
    AppendKeepsHand(sd, part, r, s);
  }

  lemma FetchBalanced(sd: Side, part: nat, s: Slot)
    requires Placed(sd) && Balanced(sd, s) && sd.pc.Idle? && HasUnread(sd.topic, part)
    ensures Balanced(Apply(sd, Fetch(part)), s)
  {
    FetchCounts(sd.topic, part, s);
    assert InHand(Apply(sd, Fetch(part))) == sd.topic[part].log[sd.topic[part].pos];
  }

  lemma LoopOpBalanced(sd: Side, op: Op, s: Slot)
    requires Placed(sd) && Balanced(sd, s) && Fits(sd, op)
    requires op.Wait? || op.Cancel? || op.Fail? || op.Dispose?
    ensures Balanced(Apply(sd, op), s)
  {
    if op.Dispose? {
      BookCounts(sd.book, sd.pc.at, InHand(sd).src, op.fate, s);
    } else {
      assert InHandCount(Apply(sd, op), s) == InHandCount(sd, s);
    }
  }

  lemma ResetBalanced(sd: Side, s: Slot)
    requires Placed(sd) && Balanced(sd, s)
    ensures Balanced(Apply(sd, Reset), s)
  {
    RewindCounts(sd.topic, Rewound(sd.topic), s);
    TopicSrcsCount(sd.topic, Uncommitted, s);
    HandIsUncommitted(sd, s);
  }

  lemma BalancedStep(sd: Side, op: Op, s: Slot)
    requires Placed(sd) && Balanced(sd, s) && Fits(sd, op)
    ensures Balanced(Apply(sd, op), s)
  {
    match op
    case Reset => ResetBalanced(sd, s);
    case Append(part, r) => AppendBalanced(sd, part, r, s);
    case Fetch(part) => FetchBalanced(sd, part, s);
    case Commit(_) => CommitCounts(sd.topic, sd.pc.at, s);
    case _ => LoopOpBalanced(sd, op, s);
  }
}
