/** The allocation of RTX payload types in janus_plugin_handle_sdp (janus/src/pjanus.c). */
module Rtx {
  import opened Options

  /** How the search for one payload type ends, if it does. */
  datatype Outcome = Found(v: int) | GaveUp | Hangs

  function Offered(ptypes: seq<int>): set<int> {
    set p | p in ptypes
  }

  /** The values that cannot be handed out: offered by the peer, or already given to another type. */
  function Taken(ptypes: seq<int>, m: map<int, int>): set<int> {
    Offered(ptypes) + m.Values
  }

  /** The least value from `r` that is not taken, or `hi + 1`. */
  function Scan(r: int, hi: int, taken: set<int>): (v: int)
    requires r <= hi + 1
    ensures r <= v <= hi + 1 && (v <= hi ==> v !in taken) && forall w :: r <= w < v ==> w in taken
    decreases hi + 1 - r
  {
    if r == hi + 1 || r !in taken then r else Scan(r + 1, hi, taken)
  }

  /** The search in two passes: upwards to 127, then the dynamic range below the type itself. Outside
      the dynamic range the type itself is never met again, so there is no second chance to stop. */
  function Pick(ptype: int, taken: set<int>): Outcome {
    var start := if ptype + 1 > 127 then 96 else ptype + 1;
    var v := Scan(start, 127, taken);
    if v <= 127 && (v < ptype || start == ptype + 1) then Found(v)
    else if ptype < 96 || ptype > 127 then (if v <= 127 then Found(v) else Hangs)
    else
      var w := Scan(96, ptype - 1, taken);
      if w < ptype then Found(w) else GaveUp
  }

  /** The search gives up exactly on a type of the dynamic range when the rest of the range is taken,
      and it hangs exactly on a type outside it when every value it can reach is taken. */
  lemma {:induction false} PickCases(ptype: int, taken: set<int>)
    ensures Pick(ptype, taken).GaveUp? <==>
              96 <= ptype <= 127 && forall w :: 96 <= w <= 127 && w != ptype ==> w in taken
    ensures Pick(ptype, taken).Hangs? <==>
              || (ptype < 96 && forall w :: ptype < w <= 127 ==> w in taken)
              || (ptype > 127 && forall w :: 96 <= w <= 127 ==> w in taken)
    ensures Pick(ptype, taken).Found? ==>
              var v := Pick(ptype, taken).v;
              v !in taken && v <= 127 && v != ptype && (v > ptype || 96 <= v)
  {
    var start := if ptype + 1 > 127 then 96 else ptype + 1;
    var v := Scan(start, 127, taken);
    if v == 128 && 96 <= ptype <= 127 {
      var w := Scan(96, ptype - 1, taken);
    }
  }

  // The code's own candidates.

  function Bump(r: int): int {
    if r + 1 > 127 then 96 else r + 1
  }

  /** The `k`-th value the loop looks at. */
  function Candidate(ptype: int, k: nat): int {
    if k == 0 then Bump(ptype) else Bump(Candidate(ptype, k - 1))
  }

  /** When the search hangs it really does: every value the loop ever looks at is taken, and none is
      the type itself, which is what would make it give up. */
  lemma {:induction false} HangsForever(ptype: int, taken: set<int>, k: nat)
    requires Pick(ptype, taken) == Hangs
    ensures Candidate(ptype, k) in taken && Candidate(ptype, k) != ptype
    ensures Candidate(ptype, k) <= 127 && (Candidate(ptype, k) > ptype || (ptype > 127 && Candidate(ptype, k) >= 96))
  {
    PickCases(ptype, taken);
    if k > 0 {
      HangsForever(ptype, taken, k - 1);
    }
  }

  /** The same in closed form: from the type upwards to 127, then round and round from 96. */
  function Nth(ptype: int, k: nat): int {
    var first := if ptype < 127 then 127 - ptype else 0;
    if k < first then ptype + 1 + k else 96 + (k - first) % 32
  }

  lemma {:induction false} CandidateAt(ptype: int, k: nat)
    ensures Candidate(ptype, k) == Nth(ptype, k)
  {
    if k > 0 {
      CandidateAt(ptype, k - 1);
      var first := if ptype < 127 then 127 - ptype else 0;
      if k > first {
        RoundAgain(k - 1 - first);
      }
    }
  }

  lemma RoundAgain(x: nat)
    ensures (x + 1) % 32 == if x % 32 == 31 then 0 else x % 32 + 1
  {
  }

  /** The loop looks at `n` values, all taken and none the type itself, before it comes to `v`. */
  predicate ComesTo(ptype: int, taken: set<int>, n: nat, v: int) {
    && Candidate(ptype, n) == v
    && forall j: nat :: j < n ==> Candidate(ptype, j) in taken && Candidate(ptype, j) != ptype
  }

  /** What the search gives is the first value the loop looks at that is not taken, and it gives up where the
      loop first comes back to the type itself. */
  lemma SearchOrder(ptype: int, taken: set<int>)
    ensures match Pick(ptype, taken)
            case Found(v) => v !in taken && exists n: nat :: ComesTo(ptype, taken, n, v)
            case GaveUp => exists n: nat :: ComesTo(ptype, taken, n, ptype)
            case Hangs => forall n: nat :: Candidate(ptype, n) in taken && Candidate(ptype, n) != ptype
  {
    PickCases(ptype, taken);
    match Pick(ptype, taken)
    case Found(v) => ArrivesAt(ptype, taken, v);
    case GaveUp => ArrivesAt(ptype, taken, ptype);
    case Hangs =>
      forall n: nat
        ensures Candidate(ptype, n) in taken && Candidate(ptype, n) != ptype
      {
        HangsForever(ptype, taken, n);
      }
  }

  lemma ArrivesAt(ptype: int, taken: set<int>, v: int)
    requires Pick(ptype, taken) == Found(v) || (Pick(ptype, taken) == GaveUp && v == ptype)
    ensures exists n: nat :: ComesTo(ptype, taken, n, v)
  {
    hide Candidate;
    PickOrder(ptype, taken);
    PickCases(ptype, taken);
    var first := if ptype < 127 then 127 - ptype else 0;
    var n: nat := if v > ptype && ptype < 127 then v - ptype - 1 else first + (v - 96);
    forall j: nat | j <= n
      ensures Candidate(ptype, j) == if j < first then ptype + 1 + j else 96 + j - first
    {
      CandidateAt(ptype, j);
    }
    assert ComesTo(ptype, taken, n, v);
  }

  /** Everything in front of it is taken. */
  lemma PickOrder(ptype: int, taken: set<int>)
    ensures Pick(ptype, taken).Found? ==>
              var v := Pick(ptype, taken).v;
              if v > ptype && ptype < 127 then forall w :: ptype < w < v ==> w in taken
              else (forall w :: ptype < w <= 127 ==> w in taken) && forall w :: 96 <= w < v ==> w in taken
    ensures Pick(ptype, taken) == GaveUp ==> forall w :: 96 <= w <= 127 && w != ptype ==> w in taken
  {
    PickCases(ptype, taken);
    var start := if ptype + 1 > 127 then 96 else ptype + 1;
    var u := Scan(start, 127, taken);
    forall w | start <= w < u
      ensures w in taken
    {
    }
    if u == 128 && 96 <= ptype <= 127 {
      var x := Scan(96, ptype - 1, taken);
      forall w | 96 <= w < x
        ensures w in taken
      {
      }
    }
  }

  /** The distance from `r` to the value where the search stops, going round. */
  function Distance(r: int, stop: int): int {
    if r <= stop then stop - r else 32 + stop - r
  }

  /** The inner loop; None stands for a loop that does not end, which is told beforehand. */
  method Search(ptype: int, taken: set<int>) returns (result: Option<int>)
    ensures match Pick(ptype, taken)
            case Found(v) => result == Some(v)
            case GaveUp => result == Some(-1)
            case Hangs => result == None
  {
    if Pick(ptype, taken) == Hangs {
      return None;
    }
    ghost var pick := Pick(ptype, taken);
    ghost var stop := if pick.Found? then pick.v else ptype;
    PickCases(ptype, taken);
    var rtx := ptype + 1;
    if rtx > 127 {
      rtx := 96;
    }
    while rtx in taken
      invariant rtx <= 127 && (ptype < rtx || 96 <= rtx) && (rtx == ptype ==> pick == Found(rtx))
      invariant rtx > stop ==> 96 <= stop
      invariant pick.Found? && pick.v > ptype ==> ptype < rtx <= pick.v
      invariant pick.Found? && pick.v <= ptype && rtx <= ptype ==> rtx <= pick.v
      decreases Distance(rtx, stop)
    {
      rtx := rtx + 1;
      if rtx > 127 {
        rtx := 96;
      }
      if rtx == ptype {
        return Some(-1);
      }
    }
    return Some(rtx);
  }

  // The outer loop over the offered types.

  /** The table after one more type, or None when its search never ends. */
  function Offer(ptypes: seq<int>, m: map<int, int>, ptype: int): Option<map<int, int>> {
    match Pick(ptype, Taken(ptypes, m))
    case Found(v) => Some(if v > 0 then m[ptype := v] else m)
    case GaveUp => Some(m)
    case Hangs => None
  }

  /** The table after the first `n` types. */
  function Allocate(ptypes: seq<int>, n: nat): Option<map<int, int>>
    requires n <= |ptypes|
  {
    if n == 0 then Some(map[])
    else match Allocate(ptypes, n - 1)
      case None => None
      case Some(m) => Offer(ptypes, m, ptypes[n - 1])
  }

  lemma {:induction false} HungStaysHung(ptypes: seq<int>, k: nat, n: nat)
    requires k <= n <= |ptypes| && Allocate(ptypes, k) == None
    ensures Allocate(ptypes, n) == None
  {
    if k < n {
      HungStaysHung(ptypes, k, n - 1);
    }
  }

  /** The whole allocation; None stands for a call that does not return. */
  method AllocateRtx(ptypes: seq<int>) returns (r: Option<map<int, int>>)
    ensures r == Allocate(ptypes, |ptypes|)
  {
    var m: map<int, int> := map[];
    var used: set<int> := {};
    var i := 0;
    while i < |ptypes|
      invariant 0 <= i <= |ptypes| && used == m.Values
      invariant Allocate(ptypes, i) == Some(m)
    {
      var ptype := ptypes[i];
      var taken := Offered(ptypes) + used;
      var rtx := Search(ptype, taken);
      if rtx.None? {
        HungStaysHung(ptypes, i + 1, |ptypes|);
        return None;
      }
      if rtx.value > 0 {
        m := m[ptype := rtx.value];
      }
      used := m.Values;
      i := i + 1;
    }
    return Some(m);
  }

  /** No two types share an RTX type, and no RTX type is an offered one. */
  predicate Good(ptypes: seq<int>, m: map<int, int>) {
    && (forall k :: k in m ==> k in ptypes && m[k] !in ptypes && 0 < m[k] <= 127 && (m[k] > k || m[k] >= 96))
    && (forall j, k :: j in m && k in m && j != k ==> m[j] != m[k])
  }

  lemma {:induction false} AllocateGood(ptypes: seq<int>, n: nat)
    requires n <= |ptypes| && Allocate(ptypes, n).Some?
    ensures Good(ptypes, Allocate(ptypes, n).value)
  {
    if n > 0 {
      AllocateGood(ptypes, n - 1);
      var m := Allocate(ptypes, n - 1).value;
      PickCases(ptypes[n - 1], Taken(ptypes, m));
      assert forall k :: k in m ==> m[k] in m.Values;
    }
  }

  // When every offered type gets one.

  /** The dynamic range is used up. */
  predicate Full(taken: set<int>) {
    forall w :: 96 <= w <= 127 ==> w in taken
  }

  function Within(s: set<int>, lo: int, hi: int): set<int> {
    set v | v in s && lo <= v <= hi
  }

  lemma {:induction false} WithinSize(s: set<int>, lo: int, hi: int)
    requires lo <= hi + 1 && forall w :: lo <= w <= hi ==> w in s
    ensures |Within(s, lo, hi)| == hi + 1 - lo
    decreases hi + 1 - lo
  {
    if lo <= hi {
      WithinSize(s, lo, hi - 1);
      assert Within(s, lo, hi) == Within(s, lo, hi - 1) + {hi};
    } else {
      assert Within(s, lo, hi) == {};
    }
  }

  lemma Smaller(a: set<int>, b: set<int>)
    requires a <= b
    ensures |a| <= |b|
  {
    assert b == a + (b - a);
  }

  lemma UpdateValues(m: map<int, int>, k: int, v: int)
    ensures |m[k := v].Values| <= |m.Values| + 1
  {
    var n := m[k := v];
    assert n.Values <= m.Values + {v};
    Smaller(n.Values, m.Values + {v});
  }

  lemma OfferValues(ptypes: seq<int>, m: map<int, int>, ptype: int)
    requires Offer(ptypes, m, ptype).Some?
    ensures |Offer(ptypes, m, ptype).value.Values| <= |m.Values| + 1
  {
    var pick := Pick(ptype, Taken(ptypes, m));
    if pick.Found? {
      UpdateValues(m, ptype, pick.v);
    }
  }

  lemma {:induction false} ValuesBound(ptypes: seq<int>, n: nat)
    requires n <= |ptypes| && Allocate(ptypes, n).Some?
    ensures |Allocate(ptypes, n).value.Values| <= n
  {
    if n > 0 {
      ValuesBound(ptypes, n - 1);
      OfferValues(ptypes, Allocate(ptypes, n - 1).value, ptypes[n - 1]);
    }
  }

  /** If the offered dynamic types and one RTX type for each offered type fit the dynamic range, the
      dynamic range is never full before the last search. */
  lemma {:induction false} NotFull(ptypes: seq<int>, n: nat)
    requires n < |ptypes| && Allocate(ptypes, n).Some?
    requires |Within(Offered(ptypes), 96, 127)| + |ptypes| <= 32
    ensures !Full(Taken(ptypes, Allocate(ptypes, n).value))
  {
    var m := Allocate(ptypes, n).value;
    var taken := Taken(ptypes, m);
    ValuesBound(ptypes, n);
    if Full(taken) {
      WithinSize(taken, 96, 127);
      Smaller(Within(taken, 96, 127), Within(Offered(ptypes), 96, 127) + m.Values);
    }
  }

  /** A type is left out exactly when the dynamic range is full at its turn, and the call hangs exactly
      when a type below the range (or above it) finds everything it can reach taken. */
  lemma {:induction false} OfferCases(ptypes: seq<int>, m: map<int, int>, ptype: int)
    requires ptype in ptypes && 0 <= ptype <= 127
    ensures Offer(ptypes, m, ptype) == None <==>
              ptype < 96 && forall w :: ptype < w <= 127 ==> w in Taken(ptypes, m)
    ensures Offer(ptypes, m, ptype) == Some(m) && ptype !in m ==> 96 <= ptype && Full(Taken(ptypes, m))
    ensures 96 <= ptype && Full(Taken(ptypes, m)) ==> Offer(ptypes, m, ptype) == Some(m)
  {
    PickCases(ptype, Taken(ptypes, m));
    assert ptype in Taken(ptypes, m);
  }

  lemma {:induction false} Served(ptypes: seq<int>, m: map<int, int>, ptype: int)
    requires ptype in ptypes && 0 <= ptype <= 127 && !Full(Taken(ptypes, m))
    ensures Offer(ptypes, m, ptype).Some? && Offer(ptypes, m, ptype).value.Keys == m.Keys + {ptype}
  {
    OfferCases(ptypes, m, ptype);
    PickCases(ptype, Taken(ptypes, m));
  }

  lemma OfferedMore(ptypes: seq<int>, n: nat)
    requires 0 < n <= |ptypes|
    ensures Offered(ptypes[..n]) == Offered(ptypes[..n - 1]) + {ptypes[n - 1]}
  {
    assert ptypes[..n] == ptypes[..n - 1] + [ptypes[n - 1]];
  }

  /** Then the allocation returns, and gives every offered type an RTX type. */
  lemma {:induction false} EveryTypeServed(ptypes: seq<int>, n: nat)
    requires n <= |ptypes| && forall p :: p in ptypes ==> 0 <= p <= 127
    requires |Within(Offered(ptypes), 96, 127)| + |ptypes| <= 32
    ensures Allocate(ptypes, n).Some? && Allocate(ptypes, n).value.Keys == Offered(ptypes[..n])
  {
    if n > 0 {
      EveryTypeServed(ptypes, n - 1);
      NotFull(ptypes, n - 1);
      Served(ptypes, Allocate(ptypes, n - 1).value, ptypes[n - 1]);
      OfferedMore(ptypes, n);
    }
  }

  /** A list of dynamic types never hangs the call, however long. */
  lemma {:induction false} DynamicReturns(ptypes: seq<int>, n: nat)
    requires n <= |ptypes| && forall p :: p in ptypes ==> 96 <= p <= 127
    ensures Allocate(ptypes, n).Some?
  {
    if n > 0 {
      DynamicReturns(ptypes, n - 1);
      OfferCases(ptypes, Allocate(ptypes, n - 1).value, ptypes[n - 1]);
    }
  }

  /** One type below a full dynamic range hangs it. */
  lemma {:induction false} FullRangeHangs()
    ensures Allocate([95] + seq(32, i => 96 + i), 33) == None
  {
    var ptypes := [95] + seq(32, i => 96 + i);
    forall w | 95 < w <= 127
      ensures w in Taken(ptypes, map[])
    {
      assert ptypes[w - 95] == w;
    }
    OfferCases(ptypes, map[], 95);
    assert Allocate(ptypes, 0) == Some(map[]);
    assert Allocate(ptypes, 1) == None;
    HungStaysHung(ptypes, 1, 33);
  }
}
