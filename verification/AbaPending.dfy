/** The buffer of early messages: a deque of per-round stacks with a sliding base. It is shown
    to refine a map from rounds to stacks, to lose and duplicate nothing but what it discards
    with an older round, and its poll is shown to fail exactly on too short a deque. */
module AbaPending {
  import opened Quorums
  import opened AbaMessages

  datatype Pending = Pending(base: nat, buckets: seq<seq<Stored>>)

  function Pad(buckets: seq<seq<Stored>>, len: nat): (r: seq<seq<Stored>>)
    ensures |r| == if |buckets| < len then len else |buckets|
    ensures forall i :: 0 <= i < |r| ==> r[i] == if i < |buckets| then buckets[i] else []
  {
    if |buckets| < len then buckets + seq(len - |buckets|, _ => []) else buckets
  }

  function Add(p: Pending, round: nat, e: Stored): Pending {
    if round < p.base then p
    else
      var index := round - p.base;
      var padded := Pad(p.buckets, index + 1);
      p.(buckets := padded[index := padded[index] + [e]])
  }

  /** The deque is long enough for the rounds that a pop has to drain. */
  predicate CanPop(p: Pending, round: nat) {
    round > p.base ==> round - p.base <= |p.buckets|
  }

  function Drained(p: Pending, round: nat): Pending
    requires CanPop(p, round)
  {
    if round > p.base then Pending(round, p.buckets[round - p.base..]) else p
  }

  function Pop(p: Pending, round: nat): (Pending, Option<Stored>)
    requires CanPop(p, round)
  {
    var q := Drained(p, round);
    if q.buckets == [] || q.buckets[0] == [] then (q, None)
    else
      var top := |q.buckets[0]| - 1;
      (q.(buckets := q.buckets[0 := q.buckets[0][..top]]), Some(q.buckets[0][top]))
  }

  // ---------- Refinement of a map from rounds to stacks ----------

  function StackAt(p: Pending, round: nat): seq<Stored> {
    if p.base <= round < p.base + |p.buckets| then p.buckets[round - p.base] else []
  }

  type Stacks = map<nat, seq<Stored>>

  function Get(m: Stacks, round: nat): seq<Stored> {
    if round in m then m[round] else []
  }

  function Set(m: Stacks, round: nat, stack: seq<Stored>): (r: Stacks)
    ensures forall k: nat :: Get(r, k) == if k == round then stack else Get(m, k)
    ensures (forall k :: k in m ==> m[k] != []) ==> forall k :: k in r ==> r[k] != []
  {
    if stack == [] then m - {round} else m[round := stack]
  }

  /** The abstract buffer: the non-empty stacks, by round. */
  function Contents(p: Pending): (m: Stacks)
    ensures forall k: nat :: Get(m, k) == StackAt(p, k)
    ensures forall k :: k in m ==> m[k] != []
  {
    map k | p.base <= k < p.base + |p.buckets| && StackAt(p, k) != [] :: StackAt(p, k)
  }

  function From(m: Stacks, round: nat): Stacks {
    map k | k in m && k >= round :: m[k]
  }

  function MapAdd(m: Stacks, round: nat, e: Stored): Stacks {
    Set(m, round, Get(m, round) + [e])
  }

  function MapPop(m: Stacks, round: nat): (Stacks, Option<Stored>) {
    var kept := From(m, round);
    var stack := Get(kept, round);
    if stack == [] then (kept, None)
    else (Set(kept, round, stack[..|stack| - 1]), Some(stack[|stack| - 1]))
  }

  lemma SameStacks(m: Stacks, m': Stacks)
    requires forall k :: k in m ==> m[k] != []
    requires forall k :: k in m' ==> m'[k] != []
    requires forall k: nat :: Get(m, k) == Get(m', k)
    ensures m == m'
  {
    forall k: nat ensures k in m <==> k in m' {
      assert Get(m, k) == Get(m', k);
    }
    forall k | k in m ensures m[k] == m'[k] {
      assert Get(m, k) == Get(m', k);
    }
  }

  lemma AddStacks(p: Pending, round: nat, e: Stored)
    requires round >= p.base
    ensures forall k: nat :: StackAt(Add(p, round, e), k) == StackAt(p, k) + (if k == round then [e] else [])
  {
  }

  lemma PopStacks(p: Pending, round: nat)
    requires CanPop(p, round) && round >= p.base
    ensures var (q, e) := Pop(p, round);
      && (e.None? <==> StackAt(p, round) == [])
      && (e.Some? ==> StackAt(p, round) == StackAt(q, round) + [e.value])
      && (e.None? ==> StackAt(q, round) == [])
      && (forall k: nat :: k > round ==> StackAt(q, k) == StackAt(p, k))
      && (forall k: nat :: k < round ==> StackAt(q, k) == [])
  {
  }

  /** All that adding does, early or late: a message for a round before the base is dropped. */
  lemma AddMeaning(p: Pending, round: nat, e: Stored)
    ensures var q := Add(p, round, e);
      && q.base == p.base
      && (round < p.base ==> q == p)
      && (round >= p.base ==> |q.buckets| == if |p.buckets| > round - p.base then |p.buckets| else round - p.base + 1)
      && (forall k: nat :: StackAt(q, k) == StackAt(p, k) + (if k == round >= p.base then [e] else []))
  {
  }

  /** All that popping does, for any round: the older buckets are drained, the base moves to the round
      if that is later, and the top of the front bucket is taken. */
  lemma PopMeaning(p: Pending, round: nat)
    requires CanPop(p, round)
    ensures var (q, e) := Pop(p, round);
      && q.base == (if round > p.base then round else p.base)
      && q.base + |q.buckets| == p.base + |p.buckets|
      && (e.None? <==> StackAt(p, q.base) == [])
      && StackAt(p, q.base) == StackAt(q, q.base) + (if e.Some? then [e.value] else [])
      && (forall k: nat :: k > q.base ==> StackAt(q, k) == StackAt(p, k))
      && (forall k: nat :: k < q.base ==> StackAt(q, k) == [])
  {
  }

  /** What was added last for a round is popped first, and the round's stack is as before. */
  lemma LastInFirstOut(p: Pending, round: nat, e: Stored)
    requires round >= p.base
    ensures CanPop(Add(p, round, e), round)
    ensures var (q, x) := Pop(Add(p, round, e), round);
      x == Some(e) && forall k: nat :: k >= round ==> StackAt(q, k) == StackAt(p, k)
  {
    AddMeaning(p, round, e);
    PopMeaning(Add(p, round, e), round);
    hide Add, Pop, StackAt;
  }

  lemma AddRefines(p: Pending, round: nat, e: Stored)
    requires round >= p.base
    ensures Contents(Add(p, round, e)) == MapAdd(Contents(p), round, e)
  {
    AddStacks(p, round, e);
    SameStacks(Contents(Add(p, round, e)), MapAdd(Contents(p), round, e));
  }

  lemma MapPopStacks(m: Stacks, round: nat)
    requires forall k :: k in m ==> m[k] != []
    ensures var (m', e) := MapPop(m, round);
      && (e.None? <==> Get(m, round) == [])
      && (e.Some? ==> Get(m, round) == Get(m', round) + [e.value])
      && (e.None? ==> Get(m', round) == [])
      && (forall k: nat :: k > round ==> Get(m', k) == Get(m, k))
      && (forall k: nat :: k < round ==> Get(m', k) == [])
      && (forall k :: k in m' ==> m'[k] != [])
  {
  }

  lemma PopRefines(p: Pending, round: nat)
    requires CanPop(p, round) && round >= p.base
    ensures Contents(Pop(p, round).0) == MapPop(Contents(p), round).0
    ensures Pop(p, round).1 == MapPop(Contents(p), round).1
  {
    PopStacks(p, round);
    MapPopStacks(Contents(p), round);
    hide Pop, MapPop, StackAt, Contents, Get;
    var (q, e) := Pop(p, round);
    var (m', e') := MapPop(Contents(p), round);
    forall k: nat ensures Get(Contents(q), k) == Get(m', k) {
      assert Get(Contents(q), k) == StackAt(q, k) && Get(Contents(p), k) == StackAt(p, k);
      assert k < round || k == round || k > round;
    }
    SameStacks(Contents(q), m');
  }

  // ---------- Whole histories of a node's use of its buffer ----------

  /** What a node does with its buffer: queue a message for a later round, requeue one of its
      own round, enter the next round, or poll. */
  datatype Use = Early(e: Stored) | Requeue(e: Stored) | NextRound | Poll

  /** The node's round and buffer, the map that it should be, what was added and what polled. */
  datatype Buffer = Buffer(round: nat, pending: Pending, stacks: Stacks, added: multiset<Stored>, taken: multiset<Stored>)

  predicate Usable(s: Buffer, u: Use) {
    match u
    case Early(e) => e.msg.round > s.round
    case Requeue(e) => e.msg.round == s.round
    case NextRound => true
    case Poll => CanPop(s.pending, s.round)
  }

  function After(s: Buffer, u: Use): Buffer
    requires Usable(s, u)
  {
    match u
    case Early(e) => Queued(s, e)
    case Requeue(e) => Queued(s, e)
    case NextRound => s.(round := s.round + 1)
    case Poll =>
      var (p, e) := Pop(s.pending, s.round);
      s.(pending := p, stacks := MapPop(s.stacks, s.round).0,
         taken := s.taken + (if e.Some? then multiset{e.value} else multiset{}))
  }

  function Queued(s: Buffer, e: Stored): Buffer {
    s.(pending := Add(s.pending, e.msg.round, e), stacks := MapAdd(s.stacks, e.msg.round, e),
       added := s.added + multiset{e})
  }

  const FRESH := Buffer(0, Pending(0, []), map[], multiset{}, multiset{})

  /** The buffer after a history of uses, when the deque was long enough at every poll. */
  function History(us: seq<Use>): Option<Buffer> {
    if us == [] then Some(FRESH)
    else
      var s := History(us[..|us| - 1]);
      if s.Some? && Usable(s.value, us[|us| - 1]) then Some(After(s.value, us[|us| - 1])) else None
  }

  /** Every bucket holds messages of its own round. */
  ghost predicate Sorted(p: Pending) {
    forall k: nat, e :: e in StackAt(p, k) ==> e.msg.round == k
  }

  ghost predicate Conserved(s: Buffer, e: Stored) {
    && s.taken[e] <= s.added[e]
    && (e.msg.round >= s.pending.base ==>
          s.added[e] == s.taken[e] + multiset(StackAt(s.pending, e.msg.round))[e])
  }

  /** The deque ends with the latest round ever added, unless the base has passed it. */
  ghost predicate EndsAtLatest(s: Buffer) {
    && (forall e :: e in s.added ==> e.msg.round < s.pending.base + |s.pending.buckets|)
    && (|s.pending.buckets| > 0 ==> exists e :: e in s.added && e.msg.round + 1 == s.pending.base + |s.pending.buckets|)
  }

  ghost predicate BufferInv(s: Buffer) {
    && s.pending.base <= s.round
    && Sorted(s.pending)
    && Contents(s.pending) == s.stacks
    && EndsAtLatest(s)
    && forall e :: Conserved(s, e)
  }

  lemma QueuedEndsAtLatest(s: Buffer, e: Stored)
    requires BufferInv(s) && e.msg.round >= s.round
    ensures EndsAtLatest(Queued(s, e))
  {
    var s' := Queued(s, e);
    assert e in s'.added;
    if |s'.pending.buckets| == |s.pending.buckets| {
      var x :| x in s.added && x.msg.round + 1 == s.pending.base + |s.pending.buckets|;
      assert x in s'.added;
    }
  }

  lemma QueuedConserves(s: Buffer, e: Stored, x: Stored)
    requires Conserved(s, x) && e.msg.round >= s.pending.base
    ensures Conserved(Queued(s, e), x)
  {
    AddStacks(s.pending, e.msg.round, e);
  }

  lemma QueuedKeeps(s: Buffer, e: Stored)
    requires BufferInv(s) && e.msg.round >= s.round
    ensures BufferInv(Queued(s, e))
  {
    hide Contents, EndsAtLatest, Conserved, StackAt, MapAdd;
    AddStacks(s.pending, e.msg.round, e);
    AddRefines(s.pending, e.msg.round, e);
    QueuedEndsAtLatest(s, e);
    forall x ensures Conserved(Queued(s, e), x) {
      assert Conserved(s, x);
      QueuedConserves(s, e, x);
    }
  }

  lemma PollConserves(s: Buffer, x: Stored)
    requires Conserved(s, x) && Sorted(s.pending) && Usable(s, Poll) && s.pending.base <= s.round
    ensures Conserved(After(s, Poll), x)
  {
    PopStacks(s.pending, s.round);
  }

  lemma PollEndsAtLatest(s: Buffer)
    requires EndsAtLatest(s) && Usable(s, Poll) && s.pending.base <= s.round
    ensures EndsAtLatest(After(s, Poll))
  {
  }

  lemma PollKeeps(s: Buffer)
    requires BufferInv(s) && Usable(s, Poll)
    ensures BufferInv(After(s, Poll))
  {
    hide Contents, EndsAtLatest, Conserved, StackAt, MapPop;
    PopStacks(s.pending, s.round);
    PopRefines(s.pending, s.round);
    PollEndsAtLatest(s);
    forall x ensures Conserved(After(s, Poll), x) {
      assert Conserved(s, x);
      PollConserves(s, x);
    }
  }

  /** Over any history of uses the deque is the map it refines, each poll returns only a message
      of the node's round, and no message is lost or duplicated except with a discarded round. */
  lemma {:induction false} BufferRefinesMap(us: seq<Use>)
    requires History(us).Some?
    ensures BufferInv(History(us).value)
    ensures us != [] && us[|us| - 1] == Poll ==>
      var s := History(us[..|us| - 1]).value;
      var (m, e) := MapPop(Contents(s.pending), s.round);
      Pop(s.pending, s.round).1 == e && (e.Some? ==> e.value.msg.round == s.round)
  {
    if us != [] {
      var u := us[|us| - 1];
      BufferRefinesMap(us[..|us| - 1]);
      var s := History(us[..|us| - 1]).value;
      match u
      case Early(e) => QueuedKeeps(s, e);
      case Requeue(e) => QueuedKeeps(s, e);
      case NextRound =>
        forall x ensures Conserved(After(s, u), x) { assert Conserved(s, x); }
      case Poll =>
        PollKeeps(s);
        PopStacks(s.pending, s.round);
        PopRefines(s.pending, s.round);
    }
  }

  /** A poll can drain exactly when the base has reached the node's round or some message of
      the round before it, or a later one, was ever added. */
  lemma PollDrainsIff(us: seq<Use>)
    requires History(us).Some?
    ensures var s := History(us).value;
      Usable(s, Poll) <==> s.pending.base == s.round || exists e :: e in s.added && e.msg.round + 1 >= s.round
  {
    BufferRefinesMap(us);
  }

  /** A node that enters round 1 without ever having queued a message cannot poll. */
  lemma PollFailsUnbuffered()
    ensures History([NextRound]).Some? && !Usable(History([NextRound]).value, Poll)
  {
    assert [NextRound][..0] == [];
    assert History([NextRound][..0]) == Some(FRESH);
  }
}
