/** Link cells shared by every queue of list/queue.h.

    The C macros store "the address of the previous next field". That field is either the first
    pointer of a head or the next pointer of an entry, and both structures start with it, so the
    address of a next field is modelled as a reference to the cell that contains it: reading or
    writing `*p` is reading or writing `p.next`. A head is a cell whose `next` is the first element
    and whose `prev` is the stored tail address. An element is identified with its entry. */
module Links {
  class Link {
    var next: Link?
    var prev: Link?
    const c: char // the payload of list/l.c; a head has no use for it

    constructor (c: char)
      ensures this.c == c
    {
      this.c := c;
    }
  }

  ghost predicate Distinct<T>(s: seq<T>) {
    forall i, j :: 0 <= i < j < |s| ==> s[i] != s[j]
  }

  /** Every cell of `r` leads to the next one, and the last one to null. */
  ghost predicate Chain(r: seq<Link>)
    reads r
  {
    && |r| > 0 && Distinct(r)
    && (forall i {:trigger r[i].next} :: 0 <= i < |r| - 1 ==> r[i].next == r[i + 1])
    && r[|r| - 1].next == null
  }

  /** The first cell of a chain that starts with a head leads to the first element. */
  lemma FirstOf(r: seq<Link>)
    requires Chain(r)
    ensures r[0].next == if |r| == 1 then null else r[1]
  {
  }

  ghost predicate Disjoint(a: seq<Link>, b: seq<Link>) {
    forall i, j :: 0 <= i < |a| && 0 <= j < |b| ==> a[i] != b[j]
  }

  /** A chain from its second cell on. */
  ghost predicate ChainTail(r: seq<Link>)
    reads r
  {
    && |r| > 0 && Distinct(r)
    && (forall i {:trigger r[i].next} :: 1 <= i < |r| - 1 ==> r[i].next == r[i + 1])
    && (|r| > 1 ==> r[|r| - 1].next == null)
  }

  lemma ChainHeaded(h: Link, t: seq<Link>)
    requires ChainTail(t) && h !in t
    requires h.next == if |t| == 1 then null else t[1]
    ensures Chain([h] + t[1..])
  {
    var r := [h] + t[1..];
    assert forall i :: 1 <= i < |r| ==> r[i] == t[i];
  }

  lemma ChainJoin(a: seq<Link>, b: seq<Link>)
    requires |a| > 0 && Distinct(a) && ChainTail(b) && Disjoint(a, b)
    requires forall i {:trigger a[i].next} :: 0 <= i < |a| - 1 ==> a[i].next == a[i + 1]
    requires a[|a| - 1].next == if |b| == 1 then null else b[1]
    ensures Chain(a + b[1..])
  {
    var r, n := a + b[1..], |a| - 1;
    assert forall i :: 0 <= i < |r| ==> r[i] == if i <= n then a[i] else b[i - n];
  }

  /** Every cell of the ring but the first stores the cell before it. */
  ghost predicate Doubly(ring: seq<Link>)
    reads ring
  {
    && Chain(ring)
    && forall i {:trigger ring[i].prev} :: 1 <= i < |ring| ==> ring[i].prev == ring[i - 1]
  }

  /** What a ring says about its elements alone. */
  ghost predicate Inner(ring: seq<Link>)
    reads ring
  {
    && |ring| > 0 && Distinct(ring)
    && (forall i {:trigger ring[i].next} :: 1 <= i < |ring| - 1 ==> ring[i].next == ring[i + 1])
    && (|ring| > 1 ==> ring[|ring| - 1].next == null)
    && (forall i {:trigger ring[i].prev} :: 2 <= i < |ring| ==> ring[i].prev == ring[i - 1])
  }

  lemma Headed(h: Link, t: seq<Link>)
    requires Inner(t) && h !in t
    requires h.next == if |t| == 1 then null else t[1]
    requires |t| == 1 || t[1].prev == h
    ensures Doubly([h] + t[1..])
  {
    var r := [h] + t[1..];
    assert forall i :: 1 <= i < |r| ==> r[i] == t[i];
  }

  lemma Joined(a: seq<Link>, b: seq<Link>)
    requires |a| > 0 && Distinct(a) && Inner(b)
    requires forall i, j :: 0 <= i < |a| && 0 <= j < |b| ==> a[i] != b[j]
    requires forall i {:trigger a[i].next} :: 0 <= i < |a| - 1 ==> a[i].next == a[i + 1]
    requires forall i {:trigger a[i].prev} :: 1 <= i < |a| ==> a[i].prev == a[i - 1]
    requires a[|a| - 1].next == if |b| == 1 then null else b[1]
    requires |b| == 1 || b[1].prev == a[|a| - 1]
    ensures Doubly(a + b[1..])
  {
    var r, n := a + b[1..], |a| - 1;
    assert forall i :: 0 <= i < |r| ==> r[i] == if i <= n then a[i] else b[i - n];
  }

  lemma Inserted(a: seq<Link>, k: nat, elm: Link, r: seq<Link>)
    requires k < |a| && Distinct(a) && elm !in a && r == a[..k + 1] + [elm] + a[k + 1..]
    requires forall i {:trigger a[i].next} :: 0 <= i < |a| - 1 && i != k ==> a[i].next == a[i + 1]
    requires k + 1 < |a| ==> a[|a| - 1].next == null
    requires a[k].next == elm && elm.next == if k + 1 < |a| then a[k + 1] else null
    requires forall i {:trigger a[i].prev} :: 1 <= i < |a| && i != k + 1 ==> a[i].prev == a[i - 1]
    requires elm.prev == a[k] && (k + 1 < |a| ==> a[k + 1].prev == elm)
    ensures Doubly(r)
  {
    assert forall i :: 0 <= i < |r| ==> r[i] == if i <= k then a[i] else if i == k + 1 then elm else a[i - 1];
  }

  /** The cell at position `k` of the ring `a` was unlinked. */
  lemma Removed(a: seq<Link>, k: nat)
    requires 1 <= k < |a| && Distinct(a)
    requires forall i {:trigger a[i].next} :: 0 <= i < |a| - 1 && i != k - 1 && i != k ==> a[i].next == a[i + 1]
    requires k + 1 < |a| ==> a[|a| - 1].next == null
    requires a[k - 1].next == if k + 1 < |a| then a[k + 1] else null
    requires forall i {:trigger a[i].prev} :: 1 <= i < |a| && i != k && i != k + 1 ==> a[i].prev == a[i - 1]
    requires k + 1 < |a| ==> a[k + 1].prev == a[k - 1]
    ensures Doubly(a[..k] + a[k + 1..])
  {
    var r := a[..k] + a[k + 1..];
    assert forall i :: 0 <= i < |r| ==> r[i] == if i < k then a[i] else a[i + 1];
  }

  function Payload(q: seq<Link>): (s: string)
    ensures |s| == |q|
    ensures forall i :: 0 <= i < |q| ==> s[i] == q[i].c
  {
    seq(|q|, i requires 0 <= i < |q| => q[i].c)
  }

  /** The other way round: a queue as the reverse traversal meets it. */
  function Reverse<T>(s: seq<T>): (r: seq<T>)
    ensures |r| == |s|
    ensures forall k :: 0 <= k < |s| ==> r[k] == s[|s| - 1 - k]
  {
    seq(|s|, k requires 0 <= k < |s| => s[|s| - 1 - k])
  }
}
