/** When the allocation of RTX payload types returns, told from the offered list by counting. */
module RtxCount {
  import opened Options
  import opened Rtx

  predicate PayloadTypes(ptypes: seq<int>) {
    forall i :: 0 <= i < |ptypes| ==> 0 <= ptypes[i] <= 127
  }

  /** Payload types, each one below the dynamic range offered once. */
  predicate Offerable(ptypes: seq<int>) {
    && PayloadTypes(ptypes)
    && (forall i, j :: 0 <= i < j < |ptypes| && ptypes[i] < 96 ==> ptypes[i] != ptypes[j])
  }

  /** The types below the dynamic range and above `r` among the first `n`. */
  function LowAbove(ptypes: seq<int>, n: nat, r: int): set<int>
    requires n <= |ptypes|
  {
    set p | p in Offered(ptypes[..n]) && r < p < 96
  }

  /** The dynamic types among the first `n`. */
  function Dynamic(ptypes: seq<int>, n: nat): set<int>
    requires n <= |ptypes|
  {
    set p | p in Offered(ptypes[..n]) && 96 <= p
  }

  /** The values from `lo` to `hi` that are not offered. */
  function Spots(ptypes: seq<int>, lo: int, hi: int): set<int> {
    set v: int | lo <= v <= hi && v !in ptypes
  }

  /** By how many the types above `r` exceed the values above `r` below the dynamic range. */
  function Excess(ptypes: seq<int>, n: nat, r: int): int
    requires n <= |ptypes|
  {
    |LowAbove(ptypes, n, r)| - |Spots(ptypes, r + 1, 95)|
  }

  function Highest(ptypes: seq<int>, n: nat, r: int): (x: nat)
    requires n <= |ptypes| && -2 <= r
    ensures forall q :: -1 <= q <= r ==> Excess(ptypes, n, q) <= x
    ensures x == 0 || exists q :: -1 <= q <= r && Excess(ptypes, n, q) == x
    decreases r + 2
  {
    if r < -1 then 0
    else
      var x := Highest(ptypes, n, r - 1);
      if Excess(ptypes, n, r) > x then Excess(ptypes, n, r) else x
  }

  /** How many of the first `n` types find no value below the dynamic range. */
  function Overflow(ptypes: seq<int>, n: nat): nat
    requires n <= |ptypes|
  {
    Highest(ptypes, n, 95)
  }

  /** At the turn of a type below the dynamic range that finds no value below it, the earlier ones of its
      kind and the dynamic types have used the range up. */
  predicate Overloads(ptypes: seq<int>, n: nat)
    requires n < |ptypes|
  {
    && ptypes[n] < 96 && Overflow(ptypes, n + 1) > Overflow(ptypes, n)
    && Overflow(ptypes, n) + |Dynamic(ptypes, n)| >= |Spots(ptypes, 96, 127)|
  }

  // What the table is like after `n` types.

  predicate Fits(ptypes: seq<int>, n: nat, m: map<int, int>)
    requires n <= |ptypes|
  {
    && Good(ptypes, m)
    && m.Keys <= Offered(ptypes[..n])
    && (forall p :: p in ptypes[..n] && p < 96 ==> p in m)
    && (forall p, w :: p in m && p < 96 && p < w < m[p] && w < 96 ==> w in Taken(ptypes, m))
    && (Full(Taken(ptypes, m)) || forall p :: p in ptypes[..n] ==> p in m)
  }

  /** A type below the dynamic range gets the least value above it. */
  lemma PickLeast(ptype: int, taken: set<int>)
    requires 0 <= ptype < 96 && Pick(ptype, taken).Found?
    ensures var v := Pick(ptype, taken).v; ptype < v && forall w :: ptype < w < v ==> w in taken
  {
    var v := Scan(ptype + 1, 127, taken);
    forall w | ptype < w < v
      ensures w in taken
    {
      assert ptype + 1 <= w;
    }
  }

  lemma KeyOf(m: map<int, int>, v: int)
    requires v in m.Values
    ensures exists p :: p in m && m[p] == v
  {
    assert (forall p :: p in m ==> m[p] != v) ==> v !in m.Values;
  }

  lemma TakenMore(ptypes: seq<int>, m: map<int, int>, p: int, v: int)
    requires p !in m
    ensures Taken(ptypes, m[p := v]) == Taken(ptypes, m) + {v}
  {
    var q := m[p := v];
    assert q[p] == v && q.Values <= m.Values + {v};
    forall x | x in m.Values
      ensures x in q.Values
    {
      KeyOf(m, x);
      var k :| k in m && m[k] == x;
      assert q[k] == x;
    }
  }

  /** A type that is offered again gets another value; one of the dynamic range leaves one of that range. */
  lemma TakenAgain(ptypes: seq<int>, m: map<int, int>, p: int, v: int)
    requires p in m && 96 <= m[p]
    ensures forall w :: w < 96 && w in Taken(ptypes, m) ==> w in Taken(ptypes, m[p := v])
  {
    var q := m[p := v];
    forall x | x in m.Values && x < 96
      ensures x in q.Values
    {
      KeyOf(m, x);
      var k :| k in m && m[k] == x;
      assert q[k] == x;
    }
  }

  lemma {:induction false} AllocateFits(ptypes: seq<int>, n: nat)
    requires Offerable(ptypes) && n <= |ptypes| && Allocate(ptypes, n).Some?
    ensures Fits(ptypes, n, Allocate(ptypes, n).value)
  {
    hide Good, Fits, Offer;
    if n == 0 {
      EmptyFits(ptypes);
    } else {
      var m := Allocate(ptypes, n - 1).value;
      AllocateFits(ptypes, n - 1);
      AllocateGood(ptypes, n);
      OfferFits(ptypes, n - 1, m);
    }
  }

  lemma EmptyFits(ptypes: seq<int>)
    ensures Fits(ptypes, 0, map[])
  {
  }

  lemma OfferFits(ptypes: seq<int>, n: nat, m: map<int, int>)
    requires Offerable(ptypes) && n < |ptypes| && Fits(ptypes, n, m) && Offer(ptypes, m, ptypes[n]).Some?
    requires Good(ptypes, Offer(ptypes, m, ptypes[n]).value)
    ensures Fits(ptypes, n + 1, Offer(ptypes, m, ptypes[n]).value)
  {
    hide Fits, Good;
    var p := ptypes[n];
    var taken := Taken(ptypes, m);
    PickCases(p, taken);
    NotYet(ptypes, n, m);
    if !Pick(p, taken).Found? {
      OfferCases(ptypes, m, p);
      AddNothing(ptypes, n, m);
    } else if p in m {
      AddAgain(ptypes, n, m, Pick(p, taken).v);
    } else {
      if p < 96 {
        PickLeast(p, taken);
      }
      AddFirst(ptypes, n, m, Pick(p, taken).v);
    }
  }

  lemma AddNothing(ptypes: seq<int>, n: nat, m: map<int, int>)
    requires n < |ptypes| && Fits(ptypes, n, m) && 96 <= ptypes[n] && Full(Taken(ptypes, m))
    ensures Fits(ptypes, n + 1, m)
  {
    hide Good, Taken, Full;
    assert ptypes[..n + 1] == ptypes[..n] + [ptypes[n]];
  }

  lemma AddAgain(ptypes: seq<int>, n: nat, m: map<int, int>, v: int)
    requires n < |ptypes| && Fits(ptypes, n, m) && 96 <= ptypes[n] && ptypes[n] in m
    requires Good(ptypes, m[ptypes[n] := v]) && 96 <= v <= 127 && v !in Taken(ptypes, m)
    ensures Fits(ptypes, n + 1, m[ptypes[n] := v])
  {
    hide Taken;
    assert ptypes[..n + 1] == ptypes[..n] + [ptypes[n]];
    var p, q := ptypes[n], m[ptypes[n] := v];
    OfferedMore(ptypes, n + 1);
    assert q.Keys <= m.Keys + {p};
    TakenAgain(ptypes, m, p, v);
    forall k, w | k in q && k < 96 && k < w < q[k] && w < 96
      ensures w in Taken(ptypes, q)
    {
      assert q[k] == m[k] && w in Taken(ptypes, m);
    }
    assert !Full(Taken(ptypes, m));
  }

  lemma AddFirst(ptypes: seq<int>, n: nat, m: map<int, int>, v: int)
    requires n < |ptypes| && Fits(ptypes, n, m) && ptypes[n] !in m
    requires Good(ptypes, m[ptypes[n] := v])
    requires ptypes[n] < 96 ==> forall w :: ptypes[n] < w < v ==> w in Taken(ptypes, m)
    requires 96 <= ptypes[n] ==> 96 <= v <= 127 && v !in Taken(ptypes, m)
    ensures Fits(ptypes, n + 1, m[ptypes[n] := v])
  {
    hide Taken, Good;
    assert ptypes[..n + 1] == ptypes[..n] + [ptypes[n]];
    TakenMore(ptypes, m, ptypes[n], v);
  }

  lemma NotYet(ptypes: seq<int>, n: nat, m: map<int, int>)
    requires Offerable(ptypes) && n < |ptypes| && Fits(ptypes, n, m)
    ensures ptypes[n] < 96 ==> ptypes[n] !in m
  {
    hide Good, Full;
    assert forall p :: p in m ==> p in Offered(ptypes[..n]);
  }

  // Counting.

  function Image(m: map<int, int>, keys: set<int>): set<int>
    requires keys <= m.Keys
  {
    set k | k in keys :: m[k]
  }

  lemma Inhabited(s: set<int>)
    ensures s == {} || exists x :: x in s
  {
    assert (forall x :: x !in s) ==> s == {};
  }

  lemma {:induction false} ImageSize(m: map<int, int>, keys: set<int>)
    requires keys <= m.Keys && forall j, k :: j in keys && k in keys && j != k ==> m[j] != m[k]
    ensures |Image(m, keys)| == |keys|
  {
    if keys != {} {
      Inhabited(keys);
      var k :| k in keys;
      ImageSize(m, keys - {k});
      assert Image(m, keys) == Image(m, keys - {k}) + {m[k]};
    }
  }

  /** The types below the dynamic range with a value in it. */
  function Over(m: map<int, int>): set<int> {
    set p | p in m && p < 96 && 96 <= m[p]
  }

  /** Those above `r` with a value below it. */
  function Settled(m: map<int, int>, r: int): set<int> {
    set p | p in m && r < p < 96 && m[p] < 96
  }

  lemma OverBound(ptypes: seq<int>, n: nat, m: map<int, int>, r: int)
    requires n <= |ptypes| && Fits(ptypes, n, m) && -1 <= r <= 95
    ensures Excess(ptypes, n, r) <= |Over(m)|
  {
    var a := Settled(m, r);
    ImageSize(m, a);
    Smaller(Image(m, a), Spots(ptypes, r + 1, 95));
    assert LowAbove(ptypes, n, r) <= a + Over(m);
    Smaller(LowAbove(ptypes, n, r), a + Over(m));
  }

  /** The greatest value up to `hi` that is not taken, or -1. */
  function Gap(taken: set<int>, hi: int): (r: int)
    requires -1 <= hi
    ensures -1 <= r <= hi && (r >= 0 ==> r !in taken) && forall w :: r < w <= hi ==> w in taken
    decreases hi
  {
    if hi == -1 || hi !in taken then hi else Gap(taken, hi - 1)
  }

  lemma KeyOffered(ptypes: seq<int>, n: nat, m: map<int, int>, p: int)
    requires Offerable(ptypes) && n <= |ptypes| && Fits(ptypes, n, m) && p in m
    ensures 0 <= p && p in Taken(ptypes, m)
  {
    hide Good;
    assert p in Offered(ptypes[..n]);
  }

  /** A type that was given a value above a gap is above the gap itself. */
  lemma AboveGap(ptypes: seq<int>, n: nat, m: map<int, int>, p: int)
    requires Offerable(ptypes) && n <= |ptypes| && Fits(ptypes, n, m) && p in m
    requires p < 96 && m[p] > Gap(Taken(ptypes, m), 95)
    ensures p > Gap(Taken(ptypes, m), 95)
  {
    hide Gap, Good;
    var r := Gap(Taken(ptypes, m), 95);
    KeyOffered(ptypes, n, m, p);
    var v := m[p];
    assert p < r < v ==> r in Taken(ptypes, m);
  }

  /** What is taken above the gap and not offered was given to a type above it. */
  lemma SettledAll(ptypes: seq<int>, n: nat, m: map<int, int>, r: int)
    requires Offerable(ptypes) && n <= |ptypes| && Fits(ptypes, n, m) && r == Gap(Taken(ptypes, m), 95)
    ensures Image(m, Settled(m, r)) == Spots(ptypes, r + 1, 95)
  {
    var a := Settled(m, r);
    forall v | v in Spots(ptypes, r + 1, 95)
      ensures v in Image(m, a)
    {
      assert v in Taken(ptypes, m) && v in m.Values;
      KeyOf(m, v);
      var p :| p in m && m[p] == v;
      AboveGap(ptypes, n, m, p);
    }
  }

  lemma AllAbove(ptypes: seq<int>, n: nat, m: map<int, int>, r: int)
    requires Offerable(ptypes) && n <= |ptypes| && Fits(ptypes, n, m) && r == Gap(Taken(ptypes, m), 95)
    ensures LowAbove(ptypes, n, r) == Settled(m, r) + Over(m)
  {
    hide Good, Taken, Offerable;
    forall p | p in Over(m)
      ensures r < p
    {
      AboveGap(ptypes, n, m, p);
    }
    assert forall p :: p in LowAbove(ptypes, n, r) ==> p in m;
  }

  lemma SettledSize(ptypes: seq<int>, m: map<int, int>, r: int)
    requires Good(ptypes, m)
    ensures |Image(m, Settled(m, r))| == |Settled(m, r)|
    ensures |Settled(m, r) + Over(m)| == |Settled(m, r)| + |Over(m)|
  {
    ImageSize(m, Settled(m, r));
  }

  lemma OverReached(ptypes: seq<int>, n: nat, m: map<int, int>)
    requires Offerable(ptypes) && n <= |ptypes| && Fits(ptypes, n, m)
    ensures Excess(ptypes, n, Gap(Taken(ptypes, m), 95)) == |Over(m)|
  {
    hide Good, Over, Offerable, LowAbove, Spots;
    var r := Gap(Taken(ptypes, m), 95);
    SettledAll(ptypes, n, m, r);
    AllAbove(ptypes, n, m, r);
    SettledSize(ptypes, m, r);
  }

  lemma OverflowIsOver(ptypes: seq<int>, n: nat, m: map<int, int>)
    requires Offerable(ptypes) && n <= |ptypes| && Fits(ptypes, n, m)
    ensures Overflow(ptypes, n) == |Over(m)|
  {
    OverReached(ptypes, n, m);
    forall r | -1 <= r <= 95
      ensures Excess(ptypes, n, r) <= |Over(m)|
    {
      OverBound(ptypes, n, m, r);
    }
  }

  /** The types with a value in the dynamic range. */
  function Guests(m: map<int, int>): (s: set<int>)
    ensures s <= m.Keys
  {
    set p | p in m && 96 <= m[p]
  }

  function Served(m: map<int, int>): set<int> {
    set p | p in m && 96 <= p
  }

  lemma GuestsValues(m: map<int, int>, v: int)
    ensures v in Image(m, Guests(m)) <==> v in m.Values && 96 <= v
  {
    if v in m.Values && 96 <= v {
      KeyOf(m, v);
      var p :| p in m && m[p] == v;
      assert p in Guests(m);
    }
  }

  lemma GuestsSize(ptypes: seq<int>, m: map<int, int>)
    requires Good(ptypes, m)
    ensures |Image(m, Guests(m))| == |Over(m)| + |Served(m)|
  {
    ImageSize(m, Guests(m));
    assert Guests(m) == Over(m) + Served(m);
  }

  lemma GuestsImage(ptypes: seq<int>, m: map<int, int>)
    requires Good(ptypes, m)
    ensures Image(m, Guests(m)) <= Spots(ptypes, 96, 127)
    ensures Full(Taken(ptypes, m)) <==> Spots(ptypes, 96, 127) <= Image(m, Guests(m))
  {
    hide Image, Guests;
    forall v
      ensures v in Image(m, Guests(m)) <==> v in m.Values && 96 <= v
    {
      GuestsValues(m, v);
    }
    forall v | v in m.Values
      ensures v <= 127 && v !in ptypes
    {
      KeyOf(m, v);
    }
  }

  lemma Larger(a: set<int>, b: set<int>)
    requires a <= b
    ensures |a| <= |b| && (|a| == |b| <==> b <= a)
  {
    assert b == a + (b - a);
  }

  /** The dynamic range is used up exactly when as many types came for it as it has values to give. */
  lemma FullIff(ptypes: seq<int>, n: nat, m: map<int, int>)
    requires Offerable(ptypes) && n <= |ptypes| && Fits(ptypes, n, m)
    ensures Full(Taken(ptypes, m)) <==> |Over(m)| + |Dynamic(ptypes, n)| >= |Spots(ptypes, 96, 127)|
  {
    hide Good, Full, Taken, Image, Guests, Spots, Over;
    GuestsImage(ptypes, m);
    GuestsSize(ptypes, m);
    Larger(Image(m, Guests(m)), Spots(ptypes, 96, 127));
    Larger(Served(m), Dynamic(ptypes, n));
  }

  // One more type.

  lemma LowMore(ptypes: seq<int>, n: nat, r: int)
    requires Offerable(ptypes) && n < |ptypes|
    ensures Excess(ptypes, n + 1, r) == Excess(ptypes, n, r) + if r < ptypes[n] < 96 then 1 else 0
  {
    hide Spots;
    var p := ptypes[n];
    OfferedMore(ptypes, n + 1);
    if r < p < 96 {
      assert p !in Offered(ptypes[..n]);
      assert LowAbove(ptypes, n + 1, r) == LowAbove(ptypes, n, r) + {p};
    } else {
      assert LowAbove(ptypes, n + 1, r) == LowAbove(ptypes, n, r);
    }
  }

  lemma ExcessBelow(ptypes: seq<int>, n: nat, r: int)
    requires n <= |ptypes| && -1 <= r <= 95
    ensures Excess(ptypes, n, r) <= Overflow(ptypes, n)
  {
    hide Excess, Highest;
  }

  lemma Overflows(ptypes: seq<int>, n: nat, m: map<int, int>)
    requires Offerable(ptypes) && n < |ptypes| && Fits(ptypes, n, m) && ptypes[n] < 96
    requires forall w :: ptypes[n] < w <= 95 ==> w in Taken(ptypes, m)
    ensures Overflow(ptypes, n + 1) > Overflow(ptypes, n)
  {
    hide Excess, Good, Fits, Overflow, Over, Gap;
    var r := Gap(Taken(ptypes, m), 95);
    assert ptypes[n] in Taken(ptypes, m);
    OverflowIsOver(ptypes, n, m);
    OverReached(ptypes, n, m);
    LowMore(ptypes, n, r);
    ExcessBelow(ptypes, n + 1, r);
  }

  lemma OverSame(ptypes: seq<int>, n: nat, m: map<int, int>)
    requires n < |ptypes| && 0 <= ptypes[n] < 96 && ptypes[n] !in m
    requires exists w :: ptypes[n] < w <= 95 && w !in Taken(ptypes, m)
    ensures Offer(ptypes, m, ptypes[n]).Some? && Over(Offer(ptypes, m, ptypes[n]).value) == Over(m)
  {
    hide Pick, Taken;
    PickCases(ptypes[n], Taken(ptypes, m));
    if Pick(ptypes[n], Taken(ptypes, m)).Found? {
      PickLeast(ptypes[n], Taken(ptypes, m));
    }
  }

  lemma NoOverflow(ptypes: seq<int>, n: nat, m: map<int, int>)
    requires Offerable(ptypes) && n < |ptypes| && Fits(ptypes, n, m) && ptypes[n] < 96
    requires Offer(ptypes, m, ptypes[n]).Some? ==> Good(ptypes, Offer(ptypes, m, ptypes[n]).value)
    requires exists w :: ptypes[n] < w <= 95 && w !in Taken(ptypes, m)
    ensures Overflow(ptypes, n + 1) == Overflow(ptypes, n)
  {
    hide Good, Offer, Over, Overflow;
    NotYet(ptypes, n, m);
    OverSame(ptypes, n, m);
    OfferFits(ptypes, n, m);
    OverflowIsOver(ptypes, n, m);
    OverflowIsOver(ptypes, n + 1, Offer(ptypes, m, ptypes[n]).value);
  }

  lemma TurnHangsIff(ptypes: seq<int>, n: nat)
    requires Offerable(ptypes) && n < |ptypes| && Allocate(ptypes, n).Some?
    ensures Allocate(ptypes, n + 1) == None <==> Overloads(ptypes, n)
  {
    hide Overflow, Dynamic, Spots, Good, Fits;
    var m := Allocate(ptypes, n).value;
    AllocateFits(ptypes, n);
    OfferCases(ptypes, m, ptypes[n]);
    FullIff(ptypes, n, m);
    OverflowIsOver(ptypes, n, m);
    if ptypes[n] < 96 {
      if Allocate(ptypes, n + 1).Some? {
        AllocateGood(ptypes, n + 1);
      }
      if forall w :: ptypes[n] < w <= 95 ==> w in Taken(ptypes, m) {
        Overflows(ptypes, n, m);
      } else {
        NoOverflow(ptypes, n, m);
      }
    }
  }

  /** The call hangs exactly when some type below the dynamic range overloads it: a condition on the offered
      list alone. */
  lemma {:induction false} HangsIff(ptypes: seq<int>, n: nat)
    requires Offerable(ptypes) && n <= |ptypes|
    ensures Allocate(ptypes, n) == None <==> exists i :: 0 <= i < n && Overloads(ptypes, i)
  {
    hide Overloads, Offerable, Offer;
    if n > 0 {
      HangsIff(ptypes, n - 1);
      if Allocate(ptypes, n - 1).Some? {
        TurnHangsIff(ptypes, n - 1);
      }
    }
  }

  /** For any list: the call returns if above each type below the dynamic range more values are left than
      types are offered. */
  lemma {:induction false} RoomReturns(ptypes: seq<int>, n: nat)
    requires PayloadTypes(ptypes) && n <= |ptypes|
    requires forall t :: t in ptypes && t < 96 ==> |Spots(ptypes, t + 1, 127)| > |Offered(ptypes)|
    ensures Allocate(ptypes, n).Some?
  {
    hide Spots, Offer, Good;
    if n > 0 {
      RoomReturns(ptypes, n - 1);
      var m := Allocate(ptypes, n - 1).value;
      AllocateGood(ptypes, n - 1);
      OfferCases(ptypes, m, ptypes[n - 1]);
      if ptypes[n - 1] < 96 && forall w :: ptypes[n - 1] < w <= 127 ==> w in Taken(ptypes, m) {
        TakenBound(ptypes, m, ptypes[n - 1]);
        assert false;
      }
    }
  }

  /** Values that are taken and not offered are given to different types. */
  lemma TakenBound(ptypes: seq<int>, m: map<int, int>, t: int)
    requires Good(ptypes, m) && forall w :: t < w <= 127 ==> w in Taken(ptypes, m)
    ensures |Spots(ptypes, t + 1, 127)| <= |Offered(ptypes)|
  {
    ImageSize(m, m.Keys);
    Smaller(m.Keys, Offered(ptypes));
    forall v | v in Spots(ptypes, t + 1, 127)
      ensures v in Image(m, m.Keys)
    {
      assert v in Taken(ptypes, m) && v in m.Values;
      KeyOf(m, v);
    }
    Smaller(Spots(ptypes, t + 1, 127), Image(m, m.Keys));
  }

  // Without dynamic types.

  lemma OverflowMore(ptypes: seq<int>, n: nat)
    requires Offerable(ptypes) && n < |ptypes|
    ensures Overflow(ptypes, n) <= Overflow(ptypes, n + 1) <= Overflow(ptypes, n) + 1
  {
    hide Excess, Highest;
    var a, b := Overflow(ptypes, n), Overflow(ptypes, n + 1);
    if a > 0 {
      var q :| -1 <= q <= 95 && Excess(ptypes, n, q) == a;
      LowMore(ptypes, n, q);
    }
    if b > 0 {
      var q :| -1 <= q <= 95 && Excess(ptypes, n + 1, q) == b;
      LowMore(ptypes, n, q);
    }
  }

  lemma NoDynamic(ptypes: seq<int>, n: nat)
    requires n <= |ptypes| && forall p :: p in ptypes ==> p < 96
    ensures Dynamic(ptypes, n) == {}
  {
    Inhabited(Dynamic(ptypes, n));
    assert forall p :: p in Dynamic(ptypes, n) ==> p in ptypes;
  }

  lemma {:induction false} OverloadsIff(ptypes: seq<int>, n: nat)
    requires Offerable(ptypes) && n <= |ptypes| && forall p :: p in ptypes ==> p < 96
    ensures (exists i :: 0 <= i < n && Overloads(ptypes, i)) <==> Overflow(ptypes, n) > |Spots(ptypes, 96, 127)|
  {
    hide Highest, Offerable, Spots;
    if n > 0 {
      OverloadsIff(ptypes, n - 1);
      OverflowMore(ptypes, n - 1);
      NoDynamic(ptypes, n - 1);
      assert ptypes[n - 1] in ptypes;
      if Overflow(ptypes, n) > |Spots(ptypes, 96, 127)| {
        assert Overflow(ptypes, n - 1) > |Spots(ptypes, 96, 127)| || Overloads(ptypes, n - 1);
      }
    } else {
      NoneOver(ptypes);
    }
  }

  lemma NoneOver(ptypes: seq<int>)
    ensures Overflow(ptypes, 0) == 0
  {
    assert forall r :: LowAbove(ptypes, 0, r) == {};
  }

  lemma SpotsJoin(ptypes: seq<int>, r: int)
    requires -1 <= r <= 95
    ensures |Spots(ptypes, r + 1, 127)| == |Spots(ptypes, r + 1, 95)| + |Spots(ptypes, 96, 127)|
  {
    assert Spots(ptypes, r + 1, 127) == Spots(ptypes, r + 1, 95) + Spots(ptypes, 96, 127);
  }

  /** Without dynamic types the call hangs exactly when, for some value, more types above it are offered than
      values above it are left; their order does not matter. */
  lemma LowHangsIff(ptypes: seq<int>)
    requires Offerable(ptypes) && forall p :: p in ptypes ==> p < 96
    ensures Allocate(ptypes, |ptypes|) == None <==>
              exists r :: -1 <= r <= 95 && |LowAbove(ptypes, |ptypes|, r)| > |Spots(ptypes, r + 1, 127)|
  {
    hide Overloads, Offerable, Spots, LowAbove, Allocate;
    var n := |ptypes|;
    HangsIff(ptypes, n);
    OverloadsIff(ptypes, n);
    forall r | -1 <= r <= 95
      ensures |LowAbove(ptypes, n, r)| > |Spots(ptypes, r + 1, 127)| <==>
                Excess(ptypes, n, r) > |Spots(ptypes, 96, 127)|
    {
      SpotsJoin(ptypes, r);
    }
  }
}
