/** rand32 and random_u32 of mediasoup/src/mediasoup.c: an unbiased value from a range by rejection. */
module Rand {

  const TWO_32: nat := 0x1_0000_0000

  /** `RAND_MAX + 1`, with the C library's RAND_MAX of 2^31 - 1. */
  const DRAWS: nat := 0x8000_0000

  type uint32 = n: int | 0 <= n < TWO_32

  /** What rand() returns. */
  type Draw = n: int | 0 <= n < DRAWS

  /** `(end - begin) + 1` in 32 bits; 0 for the full range. */
  function Range(begin: uint32, end: uint32): uint32 {
    (end - begin + 1) % TWO_32
  }

  function Limit(range: uint32): uint32
    requires range > 0
  {
    DRAWS - DRAWS % range
  }

  function Map(x: Draw, range: uint32, begin: uint32): uint32
    requires range > 0
  {
    (x % range + begin) % TWO_32
  }

  /** What a call does with the draws it gets: it returns a value, divides by zero, or is still drawing. */
  datatype Outcome = Value(v: uint32) | DivisionByZero | StillDrawing

  /** The hidden state of rand(): the draws it will make. */
  class Generator {
    const draws: seq<Draw>
    var at: nat

    constructor (draws: seq<Draw>)
      ensures this.draws == draws && at == 0
    {
      this.draws, at := draws, 0;
    }
  }

  /** The first accepted draw from position `i`. */
  function FirstBelow(draws: seq<Draw>, i: nat, limit: nat): (k: nat)
    requires i <= |draws|
    ensures i <= k <= |draws|
    ensures forall j :: i <= j < k ==> draws[j] >= limit
    ensures k < |draws| ==> draws[k] < limit
    decreases |draws| - i
  {
    if i == |draws| || draws[i] < limit then i else FirstBelow(draws, i + 1, limit)
  }

  method Rand32(g: Generator, begin: uint32, end: uint32) returns (r: Outcome)
    requires g.at <= |g.draws|
    modifies g
    ensures g.at <= |g.draws|
    ensures r == DivisionByZero <==> Range(begin, end) == 0
    ensures Range(begin, end) > 0 ==>
              var k := FirstBelow(g.draws, old(g.at), Limit(Range(begin, end)));
              if k < |g.draws| then r == Value(Map(g.draws[k], Range(begin, end), begin)) && g.at == k + 1
              else r == StillDrawing && g.at == k
  {
    var range := (end - begin + 1) % TWO_32;
    if range == 0 {
      return DivisionByZero;
    }
    var limit := DRAWS - DRAWS % range;
    while g.at < |g.draws|
      invariant old(g.at) <= g.at <= FirstBelow(g.draws, old(g.at), limit)
      decreases |g.draws| - g.at
    {
      var randVal := g.draws[g.at];
      g.at := g.at + 1;
      if randVal < limit {
        return Value((randVal % range + begin) % TWO_32);
      }
    }
    return StillDrawing;
  }

  // Range of the result.

  /** The range goes round 2^32 when `end` is below `begin`. */
  predicate Within(v: uint32, begin: uint32, end: uint32) {
    if begin <= end then begin <= v <= end else v <= end || begin <= v
  }

  /** How far a value is behind the begin of the range. */
  function Offset(v: uint32, begin: uint32): uint32 {
    (v - begin) % TWO_32
  }

  lemma OffsetAt(m: uint32, v: uint32, begin: uint32)
    ensures (m + begin) % TWO_32 == v <==> m == Offset(v, begin)
  {
    assert Offset(v, begin) == if begin <= v then v - begin else v - begin + TWO_32;
    assert (m + begin) % TWO_32 == if m + begin < TWO_32 then m + begin else m + begin - TWO_32;
  }

  lemma OffsetRange(v: uint32, begin: uint32, end: uint32)
    requires Range(begin, end) > 0
    ensures Within(v, begin, end) <==> Offset(v, begin) < Range(begin, end)
  {
    assert Offset(v, begin) == if begin <= v then v - begin else v - begin + TWO_32;
  }

  lemma InRange(x: Draw, begin: uint32, end: uint32)
    requires Range(begin, end) > 0
    ensures Within(Map(x, Range(begin, end), begin), begin, end)
  {
    var v := Map(x, Range(begin, end), begin);
    OffsetAt(x % Range(begin, end), v, begin);
    OffsetRange(v, begin, end);
  }

  // Division.

  lemma {:induction false} AtLeast(d: nat, k: nat)
    requires k >= 1
    ensures k * d >= d
  {
    if k > 1 {
      AtLeast(d, k - 1);
      assert k * d == (k - 1) * d + d;
    }
  }

  lemma DivUnique(x: nat, d: nat, q: nat, r: nat)
    requires r < d && x == q * d + r
    ensures x / d == q && x % d == r
  {
    var p, m := x / d, x % d;
    assert x == p * d + m;
    if p > q {
      AtLeast(d, p - q);
    } else if p < q {
      AtLeast(d, q - p);
    }
  }

  lemma DivAt(x: nat, d: nat, q: nat, r: nat)
    requires r < d
    ensures x == r + q * d <==> x / d == q && x % d == r
  {
    if x == r + q * d {
      DivUnique(x, d, q, r);
    }
  }

  // Which ranges can be served.

  lemma LimitFacts(range: uint32)
    requires range > 0
    ensures Limit(range) == Limit(range) / range * range
    ensures range <= DRAWS ==> 2 * Limit(range) > DRAWS
    ensures range > DRAWS ==> Limit(range) == 0
  {
    var q, m := DRAWS / range, DRAWS % range;
    assert DRAWS == q * range + m;
    DivUnique(Limit(range), range, q, 0);
    if range <= DRAWS {
      assert q >= 1;
      AtLeast(range, q);
    } else {
      DivUnique(DRAWS, range, 0, DRAWS);
    }
  }

  predicate Accepted(x: int, range: uint32)
    requires range > 0
  {
    0 <= x < Limit(range)
  }

  /** A range of at most RAND_MAX + 1 values accepts more than half of all draws; a greater one accepts
      none, so that the call never returns. */
  lemma ServedIff(range: uint32)
    requires range > 0
    ensures (exists x: Draw :: Accepted(x, range)) <==> range <= DRAWS
    ensures range <= DRAWS ==> 2 * Limit(range) > DRAWS
  {
    LimitFacts(range);
    if range <= DRAWS {
      assert Accepted(0 as Draw, range);
    }
  }

  // Every value is equally likely.

  /** The accepted draws that give a value. */
  function Preimage(v: uint32, range: uint32, begin: uint32): set<int>
    requires range > 0
  {
    set x: int | 0 <= x < Limit(range) && Gives(x, v, range, begin)
  }

  predicate Gives(x: int, v: uint32, range: uint32, begin: uint32)
    requires range > 0
  {
    (x % range + begin) % TWO_32 == v
  }

  /** `k`, `k + d`, ..., `n` of them. */
  function Progression(k: nat, d: nat, n: nat): set<int> {
    if n == 0 then {} else Progression(k, d, n - 1) + {k + (n - 1) * d}
  }

  lemma {:induction false} ProgressionSize(k: nat, d: nat, n: nat)
    requires k < d
    ensures |Progression(k, d, n)| == n
  {
    if n > 0 {
      ProgressionSize(k, d, n - 1);
      DivUnique(k + (n - 1) * d, d, n - 1, k);
      ProgressionHolds(k, d, n - 1, k + (n - 1) * d);
    }
  }

  lemma {:induction false} ProgressionHolds(k: nat, d: nat, n: nat, x: nat)
    requires k < d
    ensures x in Progression(k, d, n) <==> x / d < n && x % d == k
  {
    if n > 0 {
      ProgressionHolds(k, d, n - 1, x);
      DivAt(x, d, n - 1, k);
      assert x in Progression(k, d, n) <==> x in Progression(k, d, n - 1) || x == k + (n - 1) * d;
    }
  }

  lemma BelowMultiple(x: nat, d: nat, n: nat)
    requires d > 0
    ensures x < n * d <==> x / d < n
  {
    var q := x / d;
    assert x == q * d + x % d;
    if q < n {
      AtLeast(d, n - q);
      assert (n - q) * d == n * d - q * d;
    } else if q > n {
      AtLeast(d, q - n);
      assert (q - n) * d == q * d - n * d;
    }
  }

  lemma GivesIff(x: nat, v: uint32, range: uint32, begin: uint32)
    requires range > 0
    ensures Gives(x, v, range, begin) <==> x % range == Offset(v, begin)
  {
    OffsetAt(x % range, v, begin);
  }

  /** Every value of the range has exactly `Limit / range` accepted draws, and every other value none. */
  lemma Unbiased(v: uint32, begin: uint32, end: uint32)
    requires Range(begin, end) > 0
    ensures |Preimage(v, Range(begin, end), begin)| ==
              if Within(v, begin, end) then Limit(Range(begin, end)) / Range(begin, end) else 0
  {
    hide Within, Offset, Range, Limit;
    OffsetRange(v, begin, end);
    LimitFacts(Range(begin, end));
    PreimageSize(v, Range(begin, end), begin, Limit(Range(begin, end)) / Range(begin, end));
  }

  lemma PreimageSize(v: uint32, range: uint32, begin: uint32, q: nat)
    requires 0 < range && Limit(range) == q * range
    ensures |Preimage(v, range, begin)| == if Offset(v, begin) < range then q else 0
  {
    hide Gives, Limit, Offset, Progression;
    var k := Offset(v, begin);
    if k < range {
      ProgressionSize(k, range, q);
      forall x: nat
        ensures x in Preimage(v, range, begin) <==> x in Progression(k, range, q)
      {
        SameDraw(x, v, begin, range, q);
      }
      NoNegatives(k, range, q);
      assert Preimage(v, range, begin) == Progression(k, range, q);
    } else {
      forall x: nat
        ensures x !in Preimage(v, range, begin)
      {
        GivesIff(x, v, range, begin);
      }
      assert Preimage(v, range, begin) == {};
    }
  }

  lemma SameDraw(x: nat, v: uint32, begin: uint32, range: uint32, q: nat)
    requires 0 < range && Limit(range) == q * range && Offset(v, begin) < range
    ensures x in Preimage(v, range, begin) <==> x in Progression(Offset(v, begin), range, q)
  {
    hide Gives, Limit, Offset, Progression;
    ProgressionHolds(Offset(v, begin), range, q, x);
    BelowMultiple(x, range, q);
    GivesIff(x, v, range, begin);
  }

  lemma {:induction false} NoNegatives(k: nat, d: nat, n: nat)
    ensures forall x :: x in Progression(k, d, n) ==> x >= 0
  {
    if n > 0 {
      NoNegatives(k, d, n - 1);
    }
  }

  /** random_u32: eight decimal digits, never zero, from whatever draws. */
  method RandomU32(g: Generator) returns (r: Outcome)
    requires g.at <= |g.draws|
    modifies g
    ensures r.Value? <==> exists j :: old(g.at) <= j < |g.draws| && g.draws[j] < Limit(90000000)
    ensures r.Value? ==> 10000000 <= r.v <= 99999999
    ensures !r.DivisionByZero?
  {
    r := Rand32(g, 10000000, 99999999);
    if r.Value? {
      var k := FirstBelow(g.draws, old(g.at), Limit(90000000));
      InRange(g.draws[k], 10000000, 99999999);
    }
  }
}
