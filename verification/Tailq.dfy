/** The tail queue of list/queue.h: the TAILQ macros, as they rewrite link cells in place. */
module Tailq {
  import opened Links

  /** `ring[0]` is the head and the rest are the elements in order. Next pointers lead through the
      ring to null; each element stores the cell before it; the head stores the last cell. */
  ghost predicate Ring(ring: seq<Link>)
    reads ring
  {
    Doubly(ring) && ring[0].prev == ring[|ring| - 1]
  }

  class TailQueue {
    const head: Link
    ghost var ring: seq<Link>

    ghost predicate Valid()
      reads this, ring
    {
      Ring(ring) && head == ring[0]
    }

    /** The abstract value: the elements, first to last. Methods speak of `ring`, whose position
        `k + 1` holds element `k`. */
    ghost function Elements(): seq<Link>
      reads this
    {
      if ring == [] then [] else ring[1..]
    }

    constructor ()
      ensures Valid() && Elements() == [] && fresh(ring)
    {
      var h := new Link(' ');
      head := h;
      ring := [h];
      new;
      head.next := null;
      head.prev := head;
    }

    method Init()
      requires ring != [] && head == ring[0]
      modifies this, head
      ensures Valid() && ring == [head] && Elements() == []
    {
      head.next := null;
      head.prev := head;
      ring := [head];
    }

    method InsertHead(elm: Link)
      requires Valid() && elm !in ring
      modifies this, ring, elm
      ensures Valid() && ring == [head, elm] + old(ring)[1..]
    {
      elm.next := head.next;
      if elm.next != null {
        assert head.next == ring[1];
        head.next.prev := elm;
      } else {
        head.prev := elm;
      }
      head.next := elm;
      elm.prev := head;
      ring := [head, elm] + ring[1..];
    }

    method InsertTail(elm: Link)
      requires Valid() && elm !in ring
      modifies this, ring, elm
      ensures Valid() && ring == old(ring) + [elm]
    {
      elm.next := null;
      elm.prev := head.prev;
      head.prev.next := elm;
      head.prev := elm;
      ring := ring + [elm];
    }

    method InsertAfter(listelm: Link, elm: Link, ghost k: nat)
      requires Valid() && 1 <= k < |ring| && ring[k] == listelm && elm !in ring
      modifies this, ring, elm
      ensures Valid() && ring == old(ring)[..k + 1] + [elm] + old(ring)[k + 1..]
    {
      ghost var a := ring;
      assert listelm.next == if k + 1 < |a| then a[k + 1] else null;
      elm.next := listelm.next;
      if elm.next != null {
        elm.next.prev := elm;
      } else {
        head.prev := elm;
      }
      listelm.next := elm;
      elm.prev := listelm;
      ring := a[..k + 1] + [elm] + a[k + 1..];
      Inserted(a, k, elm, ring);
    }

    method InsertBefore(listelm: Link, elm: Link, ghost k: nat)
      requires Valid() && 1 <= k < |ring| && ring[k] == listelm && elm !in ring
      modifies this, ring, elm
      ensures Valid() && ring == old(ring)[..k] + [elm] + old(ring)[k..]
    {
      ghost var a := ring;
      elm.prev := listelm.prev;
      elm.next := listelm;
      listelm.prev.next := elm;
      listelm.prev := elm;
      ring := a[..k] + [elm] + a[k..];
      Inserted(a, k - 1, elm, ring);
    }

    method Remove(elm: Link, ghost k: nat)
      requires Valid() && 1 <= k < |ring| && ring[k] == elm
      modifies this, ring
      ensures Valid() && ring == old(ring)[..k] + old(ring)[k + 1..]
      ensures elm.next == old(elm.next)
    {
      ghost var a := ring;
      assert elm.next == if k + 1 < |a| then a[k + 1] else null;
      if elm.next != null {
        elm.next.prev := elm.prev;
      } else {
        head.prev := elm.prev;
      }
      elm.prev.next := elm.next;
      ring := a[..k] + a[k + 1..];
      Removed(a, k);
    }

    method Concat(other: TailQueue)
      requires Valid() && other.Valid() && Apart(this, other)
      modifies this, ring, other, other.ring
      ensures Valid() && other.Valid()
      ensures ring == old(ring) + old(other.ring)[1..] && other.ring == [other.head]
    {
      ghost var a, b := ring, other.ring;
      FirstOf(b);
      if other.head.next != null {
        head.prev.next := other.head.next;
        other.head.next.prev := head.prev;
        head.prev := other.head.prev;
        ring := a + b[1..];
        other.Init();
        Joined(a, b);
      } else {
        assert ring == ring + b[1..];
      }
    }

    method Swap(other: TailQueue)
      requires Valid() && other.Valid() && Apart(this, other)
      modifies this, ring, other, other.ring
      ensures Valid() && other.Valid()
      ensures ring == [head] + old(other.ring)[1..] && other.ring == [other.head] + old(ring)[1..]
    {
      ghost var a, b := ring, other.ring;
      FirstOf(a);
      FirstOf(b);
      var first, last := head.next, head.prev;
      head.next, head.prev := other.head.next, other.head.prev;
      other.head.next, other.head.prev := first, last;
      if head.next != null {
        head.next.prev := head;
      } else {
        head.prev := head;
      }
      if other.head.next != null {
        other.head.next.prev := other.head;
      } else {
        other.head.prev := other.head;
      }
      ring, other.ring := [head] + b[1..], [other.head] + a[1..];
      Headed(head, b);
      Headed(other.head, a);
    }

    /** TAILQ_LAST: the cell at the tail address is read as if it were a head. */
    function Last(): (e: Link?)
      requires Valid()
      reads this, ring
      ensures e == if Elements() == [] then null else Elements()[|Elements()| - 1]
    {
      head.prev.prev.next
    }

    /** TAILQ_PREV: the cell before `elm` is read as if it were a head. */
    function Prev(elm: Link, ghost k: nat): (e: Link?)
      requires Valid() && k < |Elements()| && Elements()[k] == elm
      reads this, ring
      ensures e == if k == 0 then null else Elements()[k - 1]
    {
      assert ring[k + 1] == elm;
      elm.prev.prev.next
    }

    /** TAILQ_FOREACH with a body that records the element. */
    method Traverse() returns (out: seq<Link>)
      requires Valid()
      ensures out == Elements()
    {
      out := [];
      var e := head.next;
      FirstOf(ring);
      while e != null
        invariant |out| < |ring| && out == ring[1..|out| + 1]
        invariant e == if |out| + 1 < |ring| then ring[|out| + 1] else null
        decreases |ring| - |out|
      {
        out := out + [e];
        e := e.next;
      }
    }

    /** TAILQ_FOREACH_REVERSE with a body that records the element. */
    method TraverseReverse() returns (out: seq<Link>)
      requires Valid()
      ensures out == Reverse(Elements())
    {
      out := [];
      var e := Last();
      ghost var q := Elements();
      ghost var k := |q|;
      while e != null
        invariant 0 <= k <= |q| && e == if k == 0 then null else q[k - 1]
        invariant |out| == |q| - k
        invariant forall i :: 0 <= i < |out| ==> out[i] == q[|q| - 1 - i]
        decreases k
      {
        out := out + [e];
        e := Prev(e, k - 1);
        k := k - 1;
      }
    }
  }

  /** Two queues that share no cell. */
  ghost predicate Apart(a: TailQueue, b: TailQueue)
    reads a, b
  {
    a != b && Disjoint(a.ring, b.ring)
  }
}
