/** Any run of TAILQ operations, in any order, on any number of queues that share no cell. */
module TailqRuns {
  import opened Links
  import opened Tailq

  datatype Op =
    | InsertHead(q: nat, elm: Link)
    | InsertTail(q: nat, elm: Link)
    | InsertAfter(q: nat, listelm: Link, elm: Link)
    | InsertBefore(q: nat, listelm: Link, elm: Link)
    | Remove(q: nat, elm: Link)
    | Init(q: nat)
    | Concat(q: nat, other: nat)
    | Swap(q: nat, other: nat)
  {
    predicate Inserts() {
      InsertHead? || InsertTail? || InsertAfter? || InsertBefore?
    }

    predicate TwoQueues() {
      Concat? || Swap?
    }

    /** The element an operation links in. */
    function Added(): set<Link> {
      if Inserts() then {elm} else {}
    }
  }

  /** The abstract state: the elements of every queue. */
  type View = seq<seq<Link>>

  /** The position of a listed element. */
  ghost function Find(s: seq<Link>, x: Link): (i: nat)
    requires x in s
    ensures i < |s| && s[i] == x
  {
    var i :| 0 <= i < |s| && s[i] == x;
    i
  }

  /** The element an operation names must be listed. */
  ghost predicate Names(s: seq<Link>, op: Op) {
    match op
    case InsertAfter(_, listelm, _) => listelm in s
    case InsertBefore(_, listelm, _) => listelm in s
    case Remove(_, elm) => elm in s
    case _ => true
  }

  /** The operations on one queue, on sequences. */
  ghost function ApplyOne(s: seq<Link>, op: Op): seq<Link>
    requires Names(s, op) && !op.TwoQueues()
  {
    match op
    case InsertHead(_, elm) => [elm] + s
    case InsertTail(_, elm) => s + [elm]
    case InsertAfter(_, listelm, elm) => var at := Find(s, listelm); s[..at + 1] + [elm] + s[at + 1..]
    case InsertBefore(_, listelm, elm) => var at := Find(s, listelm); s[..at] + [elm] + s[at..]
    case Remove(_, elm) => var at := Find(s, elm); s[..at] + s[at + 1..]
    case Init(_) => []
  }

  /** What the macros demand of their callers: an inserted element is no head and in no queue, a
      named element is in the queue, and the two queues of CONCAT and SWAP differ. */
  ghost predicate Legal(heads: seq<Link>, v: View, op: Op) {
    && op.q < |v|
    && Names(v[op.q], op)
    && (op.Inserts() ==> op.elm !in heads && forall k :: 0 <= k < |v| ==> op.elm !in v[k])
    && (op.TwoQueues() ==> op.other < |v| && op.other != op.q)
  }

  /** Every operation, on sequences. */
  ghost function Apply(heads: seq<Link>, v: View, op: Op): View
    requires Legal(heads, v, op)
  {
    match op
    case Concat(q, other) => v[q := v[q] + v[other]][other := []]
    case Swap(q, other) => v[q := v[other]][other := v[q]]
    case _ => v[op.q := ApplyOne(v[op.q], op)]
  }

  ghost predicate LegalRun(heads: seq<Link>, v: View, ops: seq<Op>)
    decreases |ops|
  {
    ops == [] || (Legal(heads, v, ops[0]) && LegalRun(heads, Apply(heads, v, ops[0]), ops[1..]))
  }

  ghost function Replay(heads: seq<Link>, v: View, ops: seq<Op>): View
    requires LegalRun(heads, v, ops)
    decreases |ops|
  {
    if ops == [] then v else Replay(heads, Apply(heads, v, ops[0]), ops[1..])
  }

  function AddedBy(ops: seq<Op>): set<Link> {
    if ops == [] then {} else ops[0].Added() + AddedBy(ops[1..])
  }

  /** Insertion and removal commute with dropping the head. */
  lemma DropHead(r: seq<Link>, k: nat, elm: Link)
    requires 1 <= k <= |r|
    ensures (r[..k] + [elm] + r[k..])[1..] == r[1..][..k - 1] + [elm] + r[1..][k - 1..]
    ensures k < |r| ==> (r[..k] + r[k + 1..])[1..] == r[1..][..k - 1] + r[1..][k..]
  {
  }

  /** An operation brings in no element but the one it names. */
  lemma OnlyAdded(s: seq<Link>, op: Op, x: Link)
    requires Names(s, op) && !op.TwoQueues() && x in ApplyOne(s, op)
    ensures x in s || x in op.Added()
  {
  }

  method PerformInsert(q: TailQueue, op: Op)
    requires q.Valid() && Names(q.Elements(), op) && op.Inserts()
    requires op.elm !in q.ring
    modifies q, q.ring, op.Added()
    ensures q.Valid()
    ensures q.Elements() == ApplyOne(old(q.Elements()), op)
  {
    ghost var s := q.Elements();
    match op {
      case InsertHead(_, elm) =>
        q.InsertHead(elm);
        assert q.Elements() == [elm] + s;
      case InsertTail(_, elm) =>
        q.InsertTail(elm);
        assert q.Elements() == s + [elm];
      case InsertAfter(_, listelm, elm) =>
        DropHead(q.ring, Find(s, listelm) + 2, elm);
        q.InsertAfter(listelm, elm, Find(s, listelm) + 1);
      case InsertBefore(_, listelm, elm) =>
        DropHead(q.ring, Find(s, listelm) + 1, elm);
        q.InsertBefore(listelm, elm, Find(s, listelm) + 1);
    }
  }

  /** An operation on one queue does to its cells what it does to the sequence of its elements. */
  method PerformOne(q: TailQueue, op: Op)
    requires q.Valid() && Names(q.Elements(), op) && !op.TwoQueues()
    requires op.Inserts() ==> op.elm !in q.ring
    modifies q, q.ring, op.Added()
    ensures q.Valid()
    ensures q.Elements() == ApplyOne(old(q.Elements()), op)
  {
    ghost var s := q.Elements();
    if op.Remove? {
      DropHead(q.ring, Find(s, op.elm) + 1, op.elm);
      q.Remove(op.elm, Find(s, op.elm) + 1);
    } else if op.Init? {
      q.Init();
      assert q.Elements() == [];
    } else {
      PerformInsert(q, op);
    }
  }

  /** CONCAT and SWAP, on the sequences of two queues. */
  ghost function ApplyTwo(a: seq<Link>, b: seq<Link>, op: Op): (seq<Link>, seq<Link>)
    requires op.TwoQueues()
  {
    if op.Concat? then (a + b, []) else (b, a)
  }

  method PerformTwo(a: TailQueue, b: TailQueue, op: Op)
    requires a.Valid() && b.Valid() && Apart(a, b) && op.TwoQueues()
    modifies a, a.ring, b, b.ring
    ensures a.Valid() && b.Valid()
    ensures (a.Elements(), b.Elements()) == ApplyTwo(old(a.Elements()), old(b.Elements()), op)
  {
    ghost var r, t := a.ring, b.ring;
    if op.Concat? {
      a.Concat(b);
      assert a.Elements() == r[1..] + t[1..] && b.Elements() == [];
    } else {
      a.Swap(b);
      assert a.Elements() == t[1..] && b.Elements() == r[1..];
    }
  }

  /** Every queue but those in `skip` is well formed, and all its cells are its own. */
  ghost predicate Sound(qs: seq<TailQueue>, owner: map<Link, nat>, skip: set<nat>)
    reads set k | 0 <= k < |qs| && k !in skip :: qs[k]
    reads set x | x in owner.Keys && owner[x] !in skip
  {
    forall k :: 0 <= k < |qs| && k !in skip ==>
      && (forall i :: 0 <= i < |qs[k].ring| ==> qs[k].ring[i] in owner && owner[qs[k].ring[i]] == k)
      && qs[k].Valid()
  }

  /** Queues that share no cell: every cell in use belongs to one of them. */
  class QueueSet {
    const qs: seq<TailQueue>
    ghost var owner: map<Link, nat>

    ghost predicate Valid()
      reads this, qs, owner.Keys
    {
      && (forall k, l :: 0 <= k < l < |qs| ==> qs[k] != qs[l])
      && Sound(qs, owner, {})
    }

    constructor (n: nat)
      ensures Valid() && |qs| == n
      ensures forall k :: 0 <= k < n ==> Contents()[k] == []
    {
      var all: seq<TailQueue> := [];
      ghost var cells: map<Link, nat> := map[];
      while |all| < n
        invariant |all| <= n
        invariant forall k, l :: 0 <= k < l < |all| ==> all[k] != all[l]
        invariant forall k :: 0 <= k < |all| ==> all[k].Valid() && all[k].ring == [all[k].head]
        invariant forall k :: 0 <= k < |all| ==> all[k].head in cells && cells[all[k].head] == k
        invariant forall x :: x in cells ==> fresh(x)
      {
        var q := new TailQueue();
        cells := cells[q.head := |all|];
        all := all + [q];
      }
      qs := all;
      owner := cells;
    }

    ghost function Heads(): (h: seq<Link>)
      ensures |h| == |qs|
      ensures forall k :: 0 <= k < |qs| ==> h[k] == qs[k].head
    {
      seq(|qs|, k requires 0 <= k < |qs| => qs[k].head)
    }

    ghost function Contents(): (v: View)
      reads qs
      ensures |v| == |qs|
      ensures forall k :: 0 <= k < |qs| ==> v[k] == qs[k].Elements()
    {
      seq(|qs|, k reads qs requires 0 <= k < |qs| => qs[k].Elements())
    }

    lemma NotInRing(op: Op, k: nat)
      requires Valid() && Legal(Heads(), Contents(), op) && op.Inserts() && k < |qs|
      ensures op.elm !in qs[k].ring
    {
      var r := qs[k].ring;
      assert qs[k].Valid() && op.elm !in Contents()[k] && op.elm != Heads()[k];
      forall i | 0 <= i < |r|
        ensures r[i] != op.elm
      {
        assert i > 0 ==> r[i] == Contents()[k][i - 1];
      }
    }

    lemma ContentsSingle(op: Op, v: View)
      requires |v| == |qs| && Legal(Heads(), v, op) && !op.TwoQueues()
      requires qs[op.q].Elements() == ApplyOne(v[op.q], op)
      requires forall l :: 0 <= l < |qs| && l != op.q ==> qs[l].Elements() == v[l]
      ensures Contents() == Apply(Heads(), v, op)
    {
    }

    lemma ContentsPair(op: Op, v: View)
      requires |v| == |qs| && Legal(Heads(), v, op) && op.TwoQueues()
      requires (qs[op.q].Elements(), qs[op.other].Elements()) == ApplyTwo(v[op.q], v[op.other], op)
      requires forall l :: 0 <= l < |qs| && l != op.q && l != op.other ==> qs[l].Elements() == v[l]
      ensures Contents() == Apply(Heads(), v, op)
    {
    }

    /** The element an operation links in becomes a cell of the queue it names. */
    ghost method Claim(op: Op)
      requires Valid() && Legal(Heads(), Contents(), op)
      modifies this
      ensures Valid() && owner.Keys == old(owner.Keys) + op.Added()
      ensures op.Inserts() ==> owner[op.elm] == op.q && op.elm !in qs[op.q].ring
    {
      if op.Inserts() {
        forall l: nat | l < |qs|
          ensures op.elm !in qs[l].ring
        {
          NotInRing(op, l);
        }
        owner := owner[op.elm := op.q];
      }
    }

    /** Queue `k` is well formed and its cells are its own. */
    ghost predicate Whole(k: nat)
      requires k < |qs|
      reads this, qs[k], qs[k].ring
    {
      && (forall i :: 0 <= i < |qs[k].ring| ==> qs[k].ring[i] in owner && owner[qs[k].ring[i]] == k)
      && qs[k].Valid()
    }

    lemma ValidAgain(op: Op, s: seq<Link>)
      requires op.q < |qs| && Sound(qs, owner, {op.q}) && qs[op.q].Valid()
      requires forall k, l :: 0 <= k < l < |qs| ==> qs[k] != qs[l]
      requires Names(s, op) && !op.TwoQueues() && qs[op.q].Elements() == ApplyOne(s, op)
      requires forall x :: x in s || x in op.Added() || x == qs[op.q].head ==> x in owner && owner[x] == op.q
      ensures Valid()
    {
      var r := qs[op.q].ring;
      forall i | 0 <= i < |r|
        ensures r[i] in owner && owner[r[i]] == op.q
      {
        if i > 0 {
          assert r[i] == qs[op.q].Elements()[i - 1];
          OnlyAdded(s, op, r[i]);
        }
      }
    }

    /** The other queues do not notice an operation on queue `op.q`. */
    method PerformAside(op: Op)
      requires Valid() && op.q < |qs|
      requires Names(qs[op.q].Elements(), op) && !op.TwoQueues()
      requires op.Inserts() ==> op.elm !in qs[op.q].ring && op.elm in owner && owner[op.elm] == op.q
      modifies qs[op.q], qs[op.q].ring, op.Added()
      ensures Sound(qs, owner, {op.q}) && qs[op.q].Valid()
      ensures qs[op.q].Elements() == ApplyOne(old(qs[op.q].Elements()), op)
      ensures forall l :: 0 <= l < |qs| && l != op.q ==> qs[l].Elements() == old(qs[l].Elements())
    {
      hide ApplyOne, Names;
      assert Sound(qs, owner, {op.q});
      ghost var others := Sound(qs, owner, {op.q});
      assert Whole(op.q);
      PerformOne(qs[op.q], op);
      assert Sound(qs, owner, {op.q}) == others;
    }

    method PerformClaimed(op: Op)
      requires Valid() && op.q < |qs|
      requires Names(qs[op.q].Elements(), op) && !op.TwoQueues()
      requires op.Inserts() ==> op.elm !in qs[op.q].ring && op.elm in owner && owner[op.elm] == op.q
      modifies qs[op.q], qs[op.q].ring, op.Added()
      ensures Valid()
      ensures qs[op.q].Elements() == ApplyOne(old(qs[op.q].Elements()), op)
      ensures forall l :: 0 <= l < |qs| && l != op.q ==> qs[l].Elements() == old(qs[l].Elements())
    {
      ghost var s := qs[op.q].Elements();
      assert Whole(op.q);
      assert forall x :: x in s || x in op.Added() || x == qs[op.q].head ==> x in owner && owner[x] == op.q;
      PerformAside(op);
      ValidAgain(op, s);
    }

    lemma OwnedApart(k: nat, l: nat)
      requires Valid() && k < |qs| && l < |qs| && k != l
      ensures Apart(qs[k], qs[l])
    {
      assert qs[k] != qs[l];
    }

    /** Two queues trade elements; the other queues do not notice. */
    method PerformPair(op: Op)
      requires Valid() && op.TwoQueues() && op.q < |qs| && op.other < |qs| && op.q != op.other
      modifies qs[op.q], qs[op.q].ring, qs[op.other], qs[op.other].ring
      ensures Sound(qs, owner, {op.q, op.other}) && qs[op.q].Valid() && qs[op.other].Valid()
      ensures (qs[op.q].Elements(), qs[op.other].Elements()) ==
                ApplyTwo(old(qs[op.q].Elements()), old(qs[op.other].Elements()), op)
      ensures forall l :: 0 <= l < |qs| && l != op.q && l != op.other ==> qs[l].Elements() == old(qs[l].Elements())
    {
      ghost var pair := {op.q, op.other};
      assert Sound(qs, owner, pair);
      ghost var others := Sound(qs, owner, pair);
      OwnedApart(op.q, op.other);
      assert Whole(op.q) && Whole(op.other);
      PerformTwo(qs[op.q], qs[op.other], op);
      assert Sound(qs, owner, pair) == others;
    }

    method PerformSingle(op: Op)
      requires Valid() && Legal(Heads(), Contents(), op) && !op.TwoQueues()
      modifies this, qs, owner.Keys, op.Added()
      ensures Valid() && owner.Keys == old(owner.Keys) + op.Added()
      ensures Contents() == Apply(Heads(), old(Contents()), op)
    {
      ghost var v := Contents();
      Claim(op);
      assert Whole(op.q);
      PerformClaimed(op);
      ContentsSingle(op, v);
    }

    lemma ValidAfterPair(op: Op)
      requires op.TwoQueues() && op.q < |qs| && op.other < |qs|
      requires forall k, l :: 0 <= k < l < |qs| ==> qs[k] != qs[l]
      requires Sound(qs, owner, {op.q, op.other}) && Whole(op.q) && Whole(op.other)
      ensures Valid()
    {
    }

    /** The cells that changed queues change owners. */
    ghost method Reown(k: nat, l: nat)
      requires k < |qs| && l < |qs| && k != l && Sound(qs, owner, {k, l}) && qs[k].Valid() && qs[l].Valid()
      requires qs[k].head in owner && owner[qs[k].head] == k && qs[l].head in owner && owner[qs[l].head] == l
      requires forall x :: x in qs[k].Elements() || x in qs[l].Elements() ==> x in owner && owner[x] in {k, l}
      requires forall x :: x in qs[k].Elements() ==> x !in qs[l].Elements()
      modifies this
      ensures owner.Keys == old(owner.Keys)
      ensures Sound(qs, owner, {k, l}) && Whole(k) && Whole(l)
    {
      owner := map x | x in owner ::
                 if x in qs[k].Elements() then k else if x in qs[l].Elements() then l else owner[x];
      assert forall i :: 1 <= i < |qs[k].ring| ==> qs[k].ring[i] == qs[k].Elements()[i - 1];
      assert forall i :: 1 <= i < |qs[l].ring| ==> qs[l].ring[i] == qs[l].Elements()[i - 1];
    }

    lemma Traded(op: Op, a: seq<Link>, b: seq<Link>)
      requires op.TwoQueues() && op.q != op.other
      requires forall x :: x in a ==> x in owner && owner[x] == op.q
      requires forall x :: x in b ==> x in owner && owner[x] == op.other
      ensures var (c, d) := ApplyTwo(a, b, op);
              && (forall x :: x in c || x in d ==> x in owner && owner[x] in {op.q, op.other})
              && (forall x :: x in c ==> x !in d)
    {
    }

    lemma OwnElements(k: nat)
      requires Valid() && k < |qs|
      ensures qs[k].head in owner && owner[qs[k].head] == k
      ensures forall x :: x in qs[k].Elements() ==> x in owner && owner[x] == k
    {
      assert Whole(k);
    }

    method PerformTraded(op: Op)
      requires Valid() && op.TwoQueues() && op.q < |qs| && op.other < |qs| && op.q != op.other
      modifies qs[op.q], qs[op.q].ring, qs[op.other], qs[op.other].ring
      ensures Sound(qs, owner, {op.q, op.other}) && qs[op.q].Valid() && qs[op.other].Valid()
      ensures (qs[op.q].Elements(), qs[op.other].Elements()) ==
                ApplyTwo(old(qs[op.q].Elements()), old(qs[op.other].Elements()), op)
      ensures forall l :: 0 <= l < |qs| && l != op.q && l != op.other ==> qs[l].Elements() == old(qs[l].Elements())
      ensures forall x :: x in qs[op.q].Elements() || x in qs[op.other].Elements() ==>
                x in owner && owner[x] in {op.q, op.other}
      ensures forall x :: x in qs[op.q].Elements() ==> x !in qs[op.other].Elements()
    {
      OwnElements(op.q);
      OwnElements(op.other);
      Traded(op, qs[op.q].Elements(), qs[op.other].Elements());
      PerformPair(op);
    }

    method PerformOwned(op: Op)
      requires Valid() && op.TwoQueues() && op.q < |qs| && op.other < |qs| && op.q != op.other
      modifies this, qs[op.q], qs[op.q].ring, qs[op.other], qs[op.other].ring
      ensures Valid() && owner.Keys == old(owner.Keys)
      ensures (qs[op.q].Elements(), qs[op.other].Elements()) ==
                ApplyTwo(old(qs[op.q].Elements()), old(qs[op.other].Elements()), op)
      ensures forall l :: 0 <= l < |qs| && l != op.q && l != op.other ==> qs[l].Elements() == old(qs[l].Elements())
    {
      OwnElements(op.q);
      OwnElements(op.other);
      PerformTraded(op);
      Reown(op.q, op.other);
      ValidAfterPair(op);
    }

    method PerformDouble(op: Op)
      requires Valid() && Legal(Heads(), Contents(), op) && op.TwoQueues()
      modifies this, qs, owner.Keys
      ensures Valid() && owner.Keys == old(owner.Keys)
      ensures Contents() == Apply(Heads(), old(Contents()), op)
    {
      ghost var v := Contents();
      assert Whole(op.q) && Whole(op.other);
      PerformOwned(op);
      ContentsPair(op, v);
    }

    /** One operation, on whichever queues it names. */
    method Perform(op: Op)
      requires Valid() && Legal(Heads(), Contents(), op)
      modifies this, qs, owner.Keys, op.Added()
      ensures Valid() && owner.Keys == old(owner.Keys) + op.Added()
      ensures Contents() == Apply(Heads(), old(Contents()), op)
    {
      if op.TwoQueues() {
        PerformDouble(op);
      } else {
        PerformSingle(op);
      }
    }

    /** Every legal run leaves well-formed queues that hold what the run leaves on sequences. */
    method Run(ops: seq<Op>)
      requires Valid() && LegalRun(Heads(), Contents(), ops)
      modifies this, qs, owner.Keys, AddedBy(ops)
      ensures Valid()
      ensures Contents() == Replay(Heads(), old(Contents()), ops)
      decreases |ops|
    {
      if ops != [] {
        Perform(ops[0]);
        Run(ops[1..]);
      }
    }
  }
}
