/** The singly linked kinds of list/queue.h: SLIST, and STAILQ which also keeps a tail address. */
module SinglyLinked {
  import opened Links

  /** SLIST: `ring[0]` is the head, the rest are the elements. */
  class SList {
    const head: Link
    ghost var ring: seq<Link>

    ghost predicate Valid()
      reads this, ring
    {
      Chain(ring) && head == ring[0]
    }

    constructor ()
      ensures Valid() && ring == [head] && fresh(ring)
    {
      var h := new Link(' ');
      head := h;
      ring := [h];
      new;
      head.next := null;
    }

    method InsertHead(elm: Link)
      requires Valid() && elm !in ring
      modifies this, head, elm
      ensures Valid() && ring == [head, elm] + old(ring)[1..]
    {
      elm.next := head.next;
      head.next := elm;
      ring := [head, elm] + ring[1..];
    }

    method InsertAfter(slistelm: Link, elm: Link, ghost k: nat)
      requires Valid() && 1 <= k < |ring| && ring[k] == slistelm && elm !in ring
      modifies this, slistelm, elm
      ensures Valid() && ring == old(ring)[..k + 1] + [elm] + old(ring)[k + 1..]
    {
      elm.next := slistelm.next;
      slistelm.next := elm;
      ring := ring[..k + 1] + [elm] + ring[k + 1..];
    }

    method RemoveAfter(elm: Link, ghost k: nat)
      requires Valid() && k + 1 < |ring| && ring[k] == elm
      modifies this, elm
      ensures Valid() && ring == old(ring)[..k + 1] + old(ring)[k + 2..]
    {
      assert elm.next == ring[k + 1];
      elm.next := elm.next.next;
      ring := ring[..k + 1] + ring[k + 2..];
    }

    method RemoveHead()
      requires Valid() && |ring| > 1
      modifies this, head
      ensures Valid() && ring == [head] + old(ring)[2..]
    {
      RemoveAfter(head, 0);
    }

    method Remove(elm: Link, ghost k: nat)
      requires Valid() && 1 <= k < |ring| && ring[k] == elm
      modifies this, ring
      ensures Valid() && ring == old(ring)[..k] + old(ring)[k + 1..]
    {
      FirstOf(ring);
      if head.next == elm {
        assert k == 1;
        RemoveHead();
      } else {
        var curelm := head.next;
        ghost var i := 1;
        while curelm.next != elm
          invariant 1 <= i < k && curelm == ring[i]
          decreases k - i
        {
          curelm := curelm.next;
          i := i + 1;
        }
        assert curelm.next == ring[i + 1];
        RemoveAfter(curelm, i);
      }
    }

    method Concat(other: SList)
      requires Valid() && other.Valid() && this != other && Disjoint(ring, other.ring)
      modifies this, ring, other, other.head
      ensures Valid() && other.Valid()
      ensures ring == old(ring) + old(other.ring)[1..] && other.ring == [other.head]
    {
      ghost var a, b := ring, other.ring;
      FirstOf(a);
      FirstOf(b);
      var curelm := head.next;
      if curelm == null {
        head.next := other.head.next;
        if head.next != null {
          other.head.next := null;
        }
      } else if other.head.next != null {
        ghost var i := 1;
        while curelm.next != null
          invariant 1 <= i < |a| && curelm == a[i]
          invariant curelm.next == if i + 1 < |a| then a[i + 1] else null
          decreases |a| - i
        {
          curelm := curelm.next;
          i := i + 1;
        }
        curelm.next := other.head.next;
        other.head.next := null;
      }
      ring, other.ring := a + b[1..], [other.head];
      ChainJoin(a, b);
    }

    method Swap(other: SList)
      requires Valid() && other.Valid() && this != other && Disjoint(ring, other.ring)
      modifies this, head, other, other.head
      ensures Valid() && other.Valid()
      ensures ring == [head] + old(other.ring)[1..] && other.ring == [other.head] + old(ring)[1..]
    {
      ghost var a, b := ring, other.ring;
      FirstOf(a);
      FirstOf(b);
      var first := head.next;
      head.next := other.head.next;
      other.head.next := first;
      ring, other.ring := [head] + b[1..], [other.head] + a[1..];
      ChainHeaded(head, b);
      ChainHeaded(other.head, a);
    }
  }

  /** STAILQ: the head also stores the cell that holds the last next field. */
  class StailQueue {
    const head: Link
    ghost var ring: seq<Link>

    ghost predicate Valid()
      reads this, ring
    {
      Chain(ring) && head == ring[0] && head.prev == ring[|ring| - 1]
    }

    constructor ()
      ensures Valid() && ring == [head] && fresh(ring)
    {
      var h := new Link(' ');
      head := h;
      ring := [h];
      new;
      head.next := null;
      head.prev := head;
    }

    method Init()
      requires ring != [] && head == ring[0]
      modifies this, head
      ensures Valid() && ring == [head]
    {
      head.next := null;
      head.prev := head;
      ring := [head];
    }

    method InsertHead(elm: Link)
      requires Valid() && elm !in ring
      modifies this, head, elm
      ensures Valid() && ring == [head, elm] + old(ring)[1..]
    {
      FirstOf(ring);
      elm.next := head.next;
      if elm.next == null {
        head.prev := elm;
      }
      head.next := elm;
      ring := [head, elm] + ring[1..];
    }

    method InsertTail(elm: Link)
      requires Valid() && elm !in ring
      modifies this, head, ring[|ring| - 1], elm
      ensures Valid() && ring == old(ring) + [elm]
    {
      elm.next := null;
      head.prev.next := elm;
      head.prev := elm;
      ring := ring + [elm];
    }

    method InsertAfter(tqelm: Link, elm: Link, ghost k: nat)
      requires Valid() && 1 <= k < |ring| && ring[k] == tqelm && elm !in ring
      modifies this, head, tqelm, elm
      ensures Valid() && ring == old(ring)[..k + 1] + [elm] + old(ring)[k + 1..]
    {
      assert tqelm.next == if k + 1 < |ring| then ring[k + 1] else null;
      elm.next := tqelm.next;
      if elm.next == null {
        head.prev := elm;
      }
      tqelm.next := elm;
      ring := ring[..k + 1] + [elm] + ring[k + 1..];
    }

    /** STAILQ_REMOVE_AFTER; with the head for `elm` it is STAILQ_REMOVE_HEAD. */
    method RemoveAfter(elm: Link, ghost k: nat)
      requires Valid() && k + 1 < |ring| && ring[k] == elm
      modifies this, head, elm
      ensures Valid() && ring == old(ring)[..k + 1] + old(ring)[k + 2..]
    {
      assert elm.next == ring[k + 1];
      assert ring[k + 1].next == if k + 2 < |ring| then ring[k + 2] else null;
      elm.next := elm.next.next;
      if elm.next == null {
        head.prev := elm;
      }
      ring := ring[..k + 1] + ring[k + 2..];
    }

    method Remove(elm: Link, ghost k: nat)
      requires Valid() && 1 <= k < |ring| && ring[k] == elm
      modifies this, ring
      ensures Valid() && ring == old(ring)[..k] + old(ring)[k + 1..]
    {
      FirstOf(ring);
      if head.next == elm {
        assert k == 1;
        RemoveAfter(head, 0);
      } else {
        var curelm := head.next;
        ghost var i := 1;
        while curelm.next != elm
          invariant 1 <= i < k && curelm == ring[i]
          decreases k - i
        {
          curelm := curelm.next;
          i := i + 1;
        }
        assert curelm.next == ring[i + 1];
        RemoveAfter(curelm, i);
      }
    }

    method Concat(other: StailQueue)
      requires Valid() && other.Valid() && this != other && Disjoint(ring, other.ring)
      modifies this, ring, other, other.head
      ensures Valid() && other.Valid()
      ensures ring == old(ring) + old(other.ring)[1..] && other.ring == [other.head]
    {
      ghost var a, b := ring, other.ring;
      FirstOf(b);
      if other.head.next != null {
        head.prev.next := other.head.next;
        head.prev := other.head.prev;
        other.Init();
      }
      ring, other.ring := a + b[1..], [other.head];
      ChainJoin(a, b);
    }

    method Swap(other: StailQueue)
      requires Valid() && other.Valid() && this != other && Disjoint(ring, other.ring)
      modifies this, head, other, other.head
      ensures Valid() && other.Valid()
      ensures ring == [head] + old(other.ring)[1..] && other.ring == [other.head] + old(ring)[1..]
    {
      ghost var a, b := ring, other.ring;
      FirstOf(a);
      FirstOf(b);
      var first, last := head.next, head.prev;
      head.next, head.prev := other.head.next, other.head.prev;
      other.head.next, other.head.prev := first, last;
      if head.next == null {
        head.prev := head;
      }
      if other.head.next == null {
        other.head.prev := other.head;
      }
      ring, other.ring := [head] + b[1..], [other.head] + a[1..];
      ChainHeaded(head, b);
      ChainHeaded(other.head, a);
    }

    /** STAILQ_LAST: the container of the last next field. */
    function Last(): (e: Link?)
      requires Valid()
      reads this, ring
      ensures e == if |ring| == 1 then null else ring[|ring| - 1]
    {
      FirstOf(ring);
      if head.next == null then null else head.prev
    }
  }
}
