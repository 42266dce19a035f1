/** The program of list/l.c: a string kept in a tail queue of characters. */
module TailqClients {
  import opened Links
  import opened Tailq

  predicate Vowel(c: char) {
    c in {'a', 'A', 'e', 'E', 'i', 'I', 'o', 'O', 'u', 'U'}
  }

  /** What is left of a list when the elements with a vowel are dropped, order kept. */
  function Consonants(q: seq<Link>): seq<Link> {
    if q == [] then []
    else if Vowel(q[0].c) then Consonants(q[1..])
    else [q[0]] + Consonants(q[1..])
  }

  function WithoutVowels(s: string): string {
    if s == [] then []
    else if Vowel(s[0]) then WithoutVowels(s[1..])
    else [s[0]] + WithoutVowels(s[1..])
  }

  lemma {:induction false} ConsonantsPayload(q: seq<Link>)
    ensures Payload(Consonants(q)) == WithoutVowels(Payload(q))
  {
    if q != [] {
      ConsonantsPayload(q[1..]);
      assert Payload(q)[1..] == Payload(q[1..]);
      assert Payload([q[0]] + Consonants(q[1..])) == [q[0].c] + Payload(Consonants(q[1..]));
    }
  }

  /** Exactly the ten letters go, wherever they stand, and the rest keeps its order. */
  lemma {:induction false} LettersGo(s: string, c: char)
    ensures multiset(WithoutVowels(s))[c] == if c in "aeiouAEIOU" then 0 else multiset(s)[c]
  {
    if s != [] {
      LettersGo(s[1..], c);
      assert s == [s[0]] + s[1..];
    }
  }

  lemma {:induction false} OrderStays(s: string, t: string)
    ensures WithoutVowels(s + t) == WithoutVowels(s) + WithoutVowels(t)
  {
    if s == [] {
      assert s + t == t;
    } else {
      assert (s + t)[1..] == s[1..] + t;
      OrderStays(s[1..], t);
    }
  }

  lemma ReversePayload(q: seq<Link>)
    ensures Payload(Reverse(q)) == Reverse(Payload(q))
  {
  }

  lemma PayloadJoin(r: seq<Link>, added: seq<Link>, s: string)
    requires r != [] && |added| == |s|
    requires forall i :: 0 <= i < |s| ==> added[i].c == s[i]
    ensures Payload((r + added)[1..]) == Payload(r[1..]) + s
  {
    assert (r + added)[1..] == r[1..] + added;
  }

  method FillQueue(head: TailQueue, s: string)
    requires head.Valid()
    modifies head, head.ring
    ensures head.Valid()
    ensures forall i :: 0 <= i < |head.ring| ==> head.ring[i] in old(head.ring) || fresh(head.ring[i])
    ensures Payload(head.Elements()) == old(Payload(head.Elements())) + s
  {
    ghost var r := head.ring;
    ghost var added: seq<Link> := [];
    var c := 0;
    assert head.ring == r + added;
    while c < |s|
      invariant 0 <= c <= |s|
      invariant head.Valid() && head.ring == r + added
      invariant forall i :: 0 <= i < |added| ==> fresh(added[i])
      invariant |added| == c && forall i :: 0 <= i < c ==> added[i].c == s[i]
    {
      var e := new Link(s[c]);
      head.InsertTail(e);
      added := added + [e];
      c := c + 1;
    }
    PayloadJoin(r, added, s);
  }

  method FreeQueue(head: TailQueue)
    requires head.Valid()
    modifies head, head.ring
    ensures head.Valid() && head.Elements() == []
  {
    FirstOf(head.ring);
    while head.head.next != null
      invariant head.Valid()
      invariant head.head.next == if |head.ring| == 1 then null else head.ring[1]
      invariant forall i :: 0 <= i < |head.ring| ==> head.ring[i] in old(head.ring)
      decreases |head.ring|
    {
      var e := head.head.next;
      head.Remove(e, 1);
      FirstOf(head.ring);
    }
  }

  /** The element after the ones already kept, and the ring without it. */
  lemma Visit(r: seq<Link>, kept: seq<Link>, rest: seq<Link>)
    requires |r| > 0 && rest != [] && r[1..] == kept + rest
    ensures var k := |kept| + 1;
            && r[k] == rest[0]
            && (r[..k] + r[k + 1..])[1..] == kept + rest[1..]
            && r[1..] == (kept + [rest[0]]) + rest[1..]
            && (|rest| == 1 <==> |r| == k + 1) && (|rest| > 1 ==> r[k + 1] == rest[1])
  {
    var k := |kept| + 1;
    assert forall i :: 0 <= i < |r| - 1 ==> r[i + 1] == r[1..][i];
    assert r[k] == r[1..][k - 1];
    assert |rest| > 1 ==> r[k + 1] == r[1..][k];
  }

  lemma KeepOrDrop(kept: seq<Link>, rest: seq<Link>)
    requires rest != []
    ensures kept + Consonants(rest) ==
              (if Vowel(rest[0].c) then kept else kept + [rest[0]]) + Consonants(rest[1..])
  {
  }

  /** One round of TAILQ_FOREACH_SAFE: the successor is read before the element is removed. */
  method VisitAndDrop(head: TailQueue, e: Link, ghost kept: seq<Link>, ghost rest: seq<Link>) returns (next: Link?)
    requires head.Valid() && head.Elements() == kept + rest && rest != [] && e == rest[0]
    modifies head, head.ring
    ensures head.Valid() && next == if |rest| == 1 then null else rest[1]
    ensures head.Elements() == (if Vowel(e.c) then kept else kept + [e]) + rest[1..]
    ensures forall i :: 0 <= i < |head.ring| ==> head.ring[i] in old(head.ring)
  {
    Visit(head.ring, kept, rest);
    ghost var k := |kept| + 1;
    next := e.next;
    assert next == if |rest| == 1 then null else head.ring[k + 1];
    if Vowel(e.c) {
      head.Remove(e, k);
    }
  }

  method RemoveVowels(head: TailQueue)
    requires head.Valid()
    modifies head, head.ring
    ensures head.Valid() && head.Elements() == Consonants(old(head.Elements()))
    ensures forall i :: 0 <= i < |head.ring| ==> head.ring[i] in old(head.ring)
  {
    hide Vowel;
    ghost var q := head.Elements();
    ghost var kept: seq<Link>, rest := [], q;
    FirstOf(head.ring);
    var e := head.head.next;
    while e != null
      invariant head.Valid() && head.Elements() == kept + rest
      invariant kept + Consonants(rest) == Consonants(q)
      invariant e == if rest == [] then null else rest[0]
      invariant forall i :: 0 <= i < |head.ring| ==> head.ring[i] in old(head.ring)
      decreases |rest|
    {
      KeepOrDrop(kept, rest);
      var next := VisitAndDrop(head, e, kept, rest);
      kept := if Vowel(rest[0].c) then kept else kept + [rest[0]];
      rest := rest[1..];
      e := next;
    }
  }

  method PrintQueue(head: TailQueue) returns (out: string)
    requires head.Valid()
    ensures out == Payload(head.Elements())
  {
    var es := head.Traverse();
    out := Payload(es);
  }

  method PrintQueueBackwards(head: TailQueue) returns (out: string)
    requires head.Valid()
    ensures out == Reverse(Payload(head.Elements()))
  {
    var es := head.TraverseReverse();
    ReversePayload(head.Elements());
    out := Payload(es);
  }

  /** The run of `main`, for any string. */
  method Program(s: string) returns (forward: string, backward: string, filtered: string, last: string)
    ensures forward == s && backward == Reverse(s) && filtered == WithoutVowels(s) && last == ""
  {
    var head := new TailQueue();
    assert Payload(head.Elements()) == "";
    FillQueue(head, s);
    assert forall i :: 0 <= i < |head.ring| ==> fresh(head.ring[i]);
    forward := PrintQueue(head);
    backward := PrintQueueBackwards(head);
    ConsonantsPayload(head.Elements());
    RemoveVowels(head);
    assert forall i :: 0 <= i < |head.ring| ==> fresh(head.ring[i]);
    filtered := PrintQueue(head);
    FreeQueue(head);
    last := PrintQueue(head);
  }
}
