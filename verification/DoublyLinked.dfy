/** LIST of list/queue.h: elements store the cell before them, the head stores only the first. */
module DoublyLinked {
  import opened Links

  class List {
    const head: Link
    ghost var ring: seq<Link>

    ghost predicate Valid()
      reads this, ring
    {
      Doubly(ring) && head == ring[0]
    }

    constructor ()
      ensures Valid() && ring == [head] && fresh(ring)
    {
      var h := new Link(' ');
      head := h;
      ring := [h];
      new;
      head.next := null;
    }

    method InsertHead(elm: Link)
      requires Valid() && elm !in ring
      modifies this, ring, elm
      ensures Valid() && ring == [head, elm] + old(ring)[1..]
    {
      elm.next := head.next;
      if elm.next != null {
        assert head.next == ring[1];
        head.next.prev := elm;
      }
      head.next := elm;
      elm.prev := head;
      ring := [head, elm] + ring[1..];
    }

    method InsertAfter(listelm: Link, elm: Link, ghost k: nat)
      requires Valid() && 1 <= k < |ring| && ring[k] == listelm && elm !in ring
      modifies this, ring, elm
      ensures Valid() && ring == old(ring)[..k + 1] + [elm] + old(ring)[k + 1..]
    {
      ghost var a := ring;
      assert listelm.next == if k + 1 < |a| then a[k + 1] else null;
      elm.next := listelm.next;
      if elm.next != null {
        listelm.next.prev := elm;
      }
      listelm.next := elm;
      elm.prev := listelm;
      ring := a[..k + 1] + [elm] + a[k + 1..];
      Inserted(a, k, elm, ring);
    }

    method InsertBefore(listelm: Link, elm: Link, ghost k: nat)
      requires Valid() && 1 <= k < |ring| && ring[k] == listelm && elm !in ring
      modifies this, ring, elm
      ensures Valid() && ring == old(ring)[..k] + [elm] + old(ring)[k..]
    {
      ghost var a := ring;
      elm.prev := listelm.prev;
      elm.next := listelm;
      listelm.prev.next := elm;
      listelm.prev := elm;
      ring := a[..k] + [elm] + a[k..];
      Inserted(a, k - 1, elm, ring);
    }

    method Remove(elm: Link, ghost k: nat)
      requires Valid() && 1 <= k < |ring| && ring[k] == elm
      modifies this, ring
      ensures Valid() && ring == old(ring)[..k] + old(ring)[k + 1..]
    {
      ghost var a := ring;
      assert elm.next == if k + 1 < |a| then a[k + 1] else null;
      if elm.next != null {
        elm.next.prev := elm.prev;
      }
      elm.prev.next := elm.next;
      ring := a[..k] + a[k + 1..];
      Removed(a, k);
    }

    method Concat(other: List)
      requires Valid() && other.Valid() && this != other
      requires Disjoint(ring, other.ring)
      modifies this, ring, other, other.ring
      ensures Valid() && other.Valid()
      ensures ring == old(ring) + old(other.ring)[1..] && other.ring == [other.head]
    {
      ghost var a, b := ring, other.ring;
      FirstOf(a);
      FirstOf(b);
      var curelm := head.next;
      if curelm == null {
        head.next := other.head.next;
        if head.next != null {
          other.head.next.prev := head;
          other.head.next := null;
        }
      } else if other.head.next != null {
        ghost var i := 1;
        while curelm.next != null
          invariant 1 <= i < |a| && curelm == a[i]
          invariant curelm.next == if i + 1 < |a| then a[i + 1] else null
          decreases |a| - i
        {
          curelm := curelm.next;
          i := i + 1;
        }
        curelm.next := other.head.next;
        other.head.next.prev := curelm;
        other.head.next := null;
      }
      ring, other.ring := a + b[1..], [other.head];
      Joined(a, b);
    }

    method Swap(other: List)
      requires Valid() && other.Valid() && this != other
      requires Disjoint(ring, other.ring)
      modifies this, ring, other, other.ring
      ensures Valid() && other.Valid()
      ensures ring == [head] + old(other.ring)[1..] && other.ring == [other.head] + old(ring)[1..]
    {
      ghost var a, b := ring, other.ring;
      FirstOf(a);
      FirstOf(b);
      var tmp := head.next;
      head.next := other.head.next;
      other.head.next := tmp;
      tmp := head.next;
      if tmp != null {
        tmp.prev := head;
      }
      tmp := other.head.next;
      if tmp != null {
        tmp.prev := other.head;
      }
      ring, other.ring := [head] + b[1..], [other.head] + a[1..];
      Headed(head, b);
      Headed(other.head, a);
    }

    /** LIST_PREV: null at the head's own first field, else the container of the stored field. */
    function Prev(elm: Link, ghost k: nat): (e: Link?)
      requires Valid() && 1 <= k < |ring| && ring[k] == elm
      reads this, ring
      ensures e == if k == 1 then null else ring[k - 1]
    {
      if elm.prev == head then null else elm.prev
    }
  }
}
