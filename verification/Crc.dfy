/** GetCRC32 of mediasoup/soup/Utils.hpp against the bit-serial CRC-32 of section 8 of RFC 1952. The
    reasoning is on words; only the small lemmas of the first part look at their bits. */
module Crc {
  import opened CrcTable

  datatype Word = Word(bits: bv32)

  const ONES := Word(0xFFFFFFFF)

  function Xor(a: Word, b: Word): Word {
    Word(a.bits ^ b.bits)
  }

  function Half(a: Word): Word {
    Word(a.bits >> 1)
  }

  predicate Odd(a: Word) {
    a.bits & 1 == 1
  }

  /** The register shifted by one place. */
  function Next(a: Word): Word {
    Word(Step(a.bits))
  }

  function Next8(a: Word): Word {
    Next(Next(Next(Next(Next(Next(Next(Next(a))))))))
  }

  /** The register takes in the lowest bit of `b`. */
  function Shift(crc: Word, b: Word): Word {
    if Odd(crc) != Odd(b) then Xor(Half(crc), Word(POLY)) else Half(crc)
  }

  function Low(a: Word): Word {
    Word(a.bits & 0xFF)
  }

  function High(a: Word): Word {
    Word(a.bits & 0xFFFFFF00)
  }

  /** `a >> 8` */
  function Up(a: Word): Word {
    Word(a.bits >> 8)
  }

  function Byte(b: bv8): Word {
    Word(b as bv32)
  }

  // Bits.

  lemma XorAssoc(a: Word, b: Word, c: Word)
    ensures Xor(Xor(a, b), c) == Xor(a, Xor(b, c))
  {
  }

  lemma XorComm(a: Word, b: Word)
    ensures Xor(a, b) == Xor(b, a)
  {
  }

  lemma XorTwice(a: Word, b: Word)
    ensures Xor(Xor(a, b), b) == a
  {
  }

  lemma HalfXor(a: Word, b: Word)
    ensures Half(Xor(a, b)) == Xor(Half(a), Half(b))
  {
  }

  lemma OddXor(a: Word, b: Word)
    ensures Odd(Xor(a, b)) <==> Odd(a) != Odd(b)
  {
  }

  lemma Split(a: Word)
    ensures Xor(Low(a), High(a)) == a
  {
  }

  lemma LowIsByte(a: Word)
    ensures Low(a).bits < 256
  {
  }

  lemma HighClear(a: Word)
    ensures High(a).bits & 0xFF == 0
  {
  }

  lemma UpOfHigh(a: Word)
    ensures Up(High(a)) == Up(a)
  {
  }

  lemma UpOfXor(a: Word, b: bv8)
    ensures Up(Xor(a, Byte(b))) == Up(a)
  {
  }

  /** A value clear of the low byte is even eight times over. */
  lemma HighEven(a: Word)
    requires a.bits & 0xFF == 0
    ensures !Odd(a) && !Odd(Half(a)) && !Odd(Half(Half(a))) && !Odd(Half(Half(Half(a))))
    ensures var b := Half(Half(Half(Half(a))));
            !Odd(b) && !Odd(Half(b)) && !Odd(Half(Half(b))) && !Odd(Half(Half(Half(b))))
  {
  }

  lemma HalfEight(a: Word)
    ensures Half(Half(Half(Half(Half(Half(Half(Half(a)))))))) == Up(a)
  {
  }

  lemma NextEven(a: Word)
    requires !Odd(a)
    ensures Next(a) == Half(a)
  {
  }

  lemma NextOdd(a: Word)
    requires Odd(a)
    ensures Next(a) == Xor(Half(a), Word(POLY))
  {
  }

  // Words.

  lemma NextCases(a: Word)
    ensures Next(a) == if Odd(a) then Xor(Half(a), Word(POLY)) else Half(a)
  {
    hide Xor, Half, Odd, Next;
    if Odd(a) {
      NextOdd(a);
    } else {
      NextEven(a);
    }
  }

  lemma NextXor(a: Word, b: Word)
    ensures Next(Xor(a, b)) == Xor(Next(a), Next(b))
  {
    hide Xor, Half, Odd, Next;
    var p := Word(POLY);
    NextCases(a);
    NextCases(b);
    NextCases(Xor(a, b));
    HalfXor(a, b);
    OddXor(a, b);
    XorAssoc(Half(a), Half(b), p);
    XorAssoc(Half(a), p, Half(b));
    XorComm(p, Half(b));
    XorAssoc(Xor(Half(a), p), Half(b), p);
    XorTwice(Xor(Half(a), Half(b)), p);
  }

  lemma NextShift(a: Word, b: Word)
    ensures Next(Xor(a, b)) == Xor(Shift(a, b), Half(b))
  {
    hide Xor, Half, Odd, Next;
    var p := Word(POLY);
    NextCases(Xor(a, b));
    HalfXor(a, b);
    OddXor(a, b);
    XorAssoc(Half(a), Half(b), p);
    XorAssoc(Half(a), p, Half(b));
    XorComm(p, Half(b));
  }

  /** What is above the low byte is only shifted. */
  lemma Next8High(a: Word)
    requires a.bits & 0xFF == 0
    ensures Next8(a) == Up(a)
  {
    hide Xor, Half, Odd, Next, Up;
    HighEven(a);
    HalfEight(a);
    var a1 := Half(a);
    var a2 := Half(a1);
    var a3 := Half(a2);
    var a4 := Half(a3);
    var a5 := Half(a4);
    var a6 := Half(a5);
    NextCases(a);
    NextCases(a1);
    NextCases(a2);
    NextCases(a3);
    NextCases(a4);
    NextCases(a5);
    NextCases(a6);
    NextCases(Half(a6));
  }

  lemma EntryIsNext8(a: Word)
    requires a.bits < 256
    ensures Word(Entry(a.bits)) == Next8(a)
  {
    hide Step, Entry;
    EntryIsRemainder(a.bits);
  }

  // The reference: one message bit at a time, least significant bit of each byte first.

  /** The register after the lowest `n` bits of a byte. */
  function Serial(crc: Word, b: Word, n: nat): Word
    decreases n
  {
    if n == 0 then crc else Serial(Shift(crc, b), Half(b), n - 1)
  }

  /** The register after a byte string. */
  function Register(crc: Word, data: seq<bv8>): Word {
    if data == [] then crc else Serial(Register(crc, data[..|data| - 1]), Byte(data[|data| - 1]), 8)
  }

  function Crc32(data: seq<bv8>): bv32 {
    Xor(Register(ONES, data), ONES).bits
  }

  // A whole byte at once.

  function Steps(a: Word, n: nat): Word
    decreases n
  {
    if n == 0 then a else Steps(Next(a), n - 1)
  }

  /** What is left of a byte after `n` bits. */
  function Rest(b: Word, n: nat): Word
    decreases n
  {
    if n == 0 then b else Rest(Half(b), n - 1)
  }

  lemma {:induction false} SerialIsSteps(crc: Word, b: Word, n: nat)
    ensures Xor(Serial(crc, b, n), Rest(b, n)) == Steps(Xor(crc, b), n)
    decreases n
  {
    hide Xor, Half, Odd, Next, Shift;
    if n > 0 {
      NextShift(crc, b);
      SerialIsSteps(Shift(crc, b), Half(b), n - 1);
    }
  }

  lemma RestOfByte(b: Word)
    requires b.bits < 256
    ensures Rest(b, 8) == Word(0)
  {
    hide Half;
    HalfEight(b);
    UpOfByte(b);
  }

  lemma UpOfByte(b: Word)
    requires b.bits < 256
    ensures Up(b) == Word(0)
  {
  }

  lemma XorZero(a: Word)
    ensures Xor(a, Word(0)) == a && Xor(Word(0), a) == a
  {
  }

  lemma SerialIsNext8(crc: Word, b: Word)
    requires b.bits < 256
    ensures Serial(crc, b, 8) == Next8(Xor(crc, b))
  {
    hide Xor, Half, Odd, Next, Shift, Serial, Rest;
    SerialIsSteps(crc, b, 8);
    RestOfByte(b);
    XorZero(Serial(crc, b, 8));
  }

  lemma Next8Xor(a: Word, b: Word)
    ensures Next8(Xor(a, b)) == Xor(Next8(a), Next8(b))
  {
    hide Xor, Half, Odd, Next;
    NextXor(a, b);
    var a1, b1 := Next(a), Next(b);
    NextXor(a1, b1);
    var a2, b2 := Next(a1), Next(b1);
    NextXor(a2, b2);
    var a3, b3 := Next(a2), Next(b2);
    NextXor(a3, b3);
    var a4, b4 := Next(a3), Next(b3);
    NextXor(a4, b4);
    var a5, b5 := Next(a4), Next(b4);
    NextXor(a5, b5);
    var a6, b6 := Next(a5), Next(b5);
    NextXor(a6, b6);
    NextXor(Next(a6), Next(b6));
  }

  /** One turn of the loop: a table entry for the low byte, the rest shifted. */
  function Update(crc: Word, b: bv8): Word {
    LowIsByte(Xor(crc, Byte(b)));
    Xor(Word(Entry(Low(Xor(crc, Byte(b))).bits)), Up(crc))
  }

  lemma ByteIsSmall(b: bv8)
    ensures Byte(b).bits < 256
  {
  }

  lemma UpdateIsSerial(crc: Word, b: bv8)
    ensures Update(crc, b) == Serial(crc, Byte(b), 8)
  {
    hide Xor, Up, Low, High, Byte, Next8, Serial, Entry;
    var x := Xor(crc, Byte(b));
    LowIsByte(x);
    EntryIsNext8(Low(x));
    Split(x);
    HighClear(x);
    Next8High(High(x));
    UpOfHigh(x);
    UpOfXor(crc, b);
    Next8Xor(Low(x), High(x));
    ByteIsSmall(b);
    SerialIsNext8(crc, Byte(b));
  }

  /** The checksums of the empty text and of a zero byte. */
  lemma KnownChecksums()
    ensures Crc32([]) == 0 && Crc32([0]) == 0xD202EF8D
  {
    UpdateIsSerial(ONES, 0);
    hide Serial;
    assert [0 as bv8][..0] == [];
    assert Register(ONES, []) == ONES;
    assert Register(ONES, [0]) == Update(ONES, 0);
    LastEntry();
  }

  lemma LastEntry()
    ensures Update(ONES, 0) == Word(0x2DFD1072)
  {
  }

  /** Crypto::GetCRC32 */
  method GetCRC32(data: array<bv8>, size: nat) returns (r: bv32)
    requires size <= data.Length
    ensures r == Crc32(data[..size])
  {
    hide Serial, Entry, Low, Up, Xor, Byte;
    var crc := ONES;
    var left := size;
    var p := 0;
    while left > 0
      invariant left + p == size
      invariant crc == Register(ONES, data[..p])
      decreases left
    {
      left := left - 1;
      assert data[..p + 1][..p] == data[..p];
      UpdateIsSerial(crc, data[p]);
      LowIsByte(Xor(crc, Byte(data[p])));
      crc := Xor(Word(Entry(Low(Xor(crc, Byte(data[p]))).bits)), Up(crc));
      p := p + 1;
    }
    r := Xor(crc, ONES).bits;
  }

  // Composition.

  lemma {:induction false} RegisterConcat(crc: Word, a: seq<bv8>, b: seq<bv8>)
    ensures Register(crc, a + b) == Register(Register(crc, a), b)
  {
    hide Serial, Byte;
    if b == [] {
      assert a + b == a;
    } else {
      var n := |b| - 1;
      assert (a + b)[..|a + b| - 1] == a + b[..n];
      RegisterConcat(crc, a, b[..n]);
    }
  }

  /** The checksum of a concatenation is found by going on from that of the first part. */
  lemma CrcConcat(a: seq<bv8>, b: seq<bv8>)
    ensures Word(Crc32(a + b)) == Xor(Register(Xor(Word(Crc32(a)), ONES), b), ONES)
  {
    hide Xor, Register;
    RegisterConcat(ONES, a, b);
    XorTwice(Register(ONES, a), ONES);
  }

  // Errors the checksum detects.

  lemma StepInjective(x: bv32, y: bv32)
    requires Step(x) == Step(y)
    ensures x == y
  {
  }

  lemma NextInjective(a: Word, b: Word)
    requires Next(a) == Next(b)
    ensures a == b
  {
    hide Step;
    StepInjective(a.bits, b.bits);
  }

  lemma Next8Injective(a: Word, b: Word)
    requires Next8(a) == Next8(b)
    ensures a == b
  {
    hide Next;
    var a1, b1 := Next(a), Next(b);
    var a2, b2 := Next(a1), Next(b1);
    var a3, b3 := Next(a2), Next(b2);
    var a4, b4 := Next(a3), Next(b3);
    var a5, b5 := Next(a4), Next(b4);
    var a6, b6 := Next(a5), Next(b5);
    NextInjective(Next(a6), Next(b6));
    NextInjective(a6, b6);
    NextInjective(a5, b5);
    NextInjective(a4, b4);
    NextInjective(a3, b3);
    NextInjective(a2, b2);
    NextInjective(a1, b1);
    NextInjective(a, b);
  }

  lemma XorInjective(a: Word, b: Word, c: Word)
    requires Xor(a, c) == Xor(b, c)
    ensures a == b
  {
    hide Xor;
    XorTwice(a, c);
    XorTwice(b, c);
  }

  lemma SerialInjective(a: Word, b: Word, c: Word)
    requires c.bits < 256 && Serial(a, c, 8) == Serial(b, c, 8)
    ensures a == b
  {
    hide Xor, Serial, Next8;
    SerialIsNext8(a, c);
    SerialIsNext8(b, c);
    Next8Injective(Xor(a, c), Xor(b, c));
    XorInjective(a, b, c);
  }

  lemma {:induction false} RegisterInjective(a: Word, b: Word, data: seq<bv8>)
    requires Register(a, data) == Register(b, data)
    ensures a == b
  {
    hide Serial, Byte;
    if data != [] {
      var n := |data| - 1;
      ByteIsSmall(data[n]);
      SerialInjective(Register(a, data[..n]), Register(b, data[..n]), Byte(data[n]));
      RegisterInjective(a, b, data[..n]);
    }
  }

  // A message of four bytes is one word.

  /** `a << 8` */
  function Down(a: Word): Word {
    Word(a.bits << 8)
  }

  predicate Room(a: Word) {
    a.bits < 0x0100_0000
  }

  lemma DownUp(a: Word)
    requires Room(a)
    ensures Up(Down(a)) == a && Down(a).bits & 0xFF == 0
  {
  }

  /** What is added after eight steps can be added before them, eight places down. */
  lemma Next8Delay(a: Word, b: Word, c: Word)
    requires Room(c)
    ensures Xor(Next8(Xor(a, b)), c) == Next8(Xor(a, Joined(b, c)))
  {
    hide Xor, Next8, Down, Up;
    DownUp(c);
    Next8Xor(Xor(a, b), Down(c));
    Next8High(Down(c));
    XorAssoc(a, b, Down(c));
  }

  /** `b` in the low byte, `c` above it. */
  function Joined(b: Word, c: Word): Word {
    Xor(b, Down(c))
  }

  lemma LowOfJoined(b: Word, c: Word)
    requires b.bits < 256
    ensures Low(Joined(b, c)) == b
  {
  }

  lemma UpOfJoined(b: Word, c: Word)
    requires b.bits < 256 && Room(c)
    ensures Up(Joined(b, c)) == c
  {
  }

  lemma JoinedInjective(b: Word, c: Word, d: Word, e: Word)
    requires b.bits < 256 && d.bits < 256 && Room(c) && Room(e) && Joined(b, c) == Joined(d, e)
    ensures b == d && c == e
  {
    hide Joined, Low, Up;
    LowOfJoined(b, c);
    LowOfJoined(d, e);
    UpOfJoined(b, c);
    UpOfJoined(d, e);
  }

  lemma ByteInjective(a: bv8, b: bv8)
    requires Byte(a) == Byte(b)
    ensures a == b
  {
  }

  lemma ByteRoom(b: Word)
    requires b.bits < 256
    ensures Room(b)
  {
  }

  lemma TwoRoom(a: Word, b: Word)
    requires a.bits < 256 && b.bits < 256
    ensures Joined(a, b).bits < 0x1_0000 && Room(Joined(a, b))
  {
  }

  lemma ThreeRoom(a: Word, b: Word)
    requires a.bits < 256 && b.bits < 0x1_0000
    ensures Room(Joined(a, b))
  {
  }

  /** The bytes as one word, the first lowest. */
  function Packed(b: seq<bv8>): Word
    requires |b| == 4
  {
    Joined(Byte(b[0]), Joined(Byte(b[1]), Joined(Byte(b[2]), Byte(b[3]))))
  }

  lemma Rooms(b: seq<bv8>)
    requires |b| == 4
    ensures Byte(b[0]).bits < 256 && Byte(b[1]).bits < 256 && Byte(b[2]).bits < 256
    ensures Room(Byte(b[3])) && Room(Joined(Byte(b[2]), Byte(b[3]))) && Room(Joined(Byte(b[1]), Joined(Byte(b[2]), Byte(b[3]))))
  {
    hide Joined, Byte, Room;
    ByteIsSmall(b[0]);
    ByteIsSmall(b[1]);
    ByteIsSmall(b[2]);
    ByteIsSmall(b[3]);
    ByteRoom(Byte(b[3]));
    TwoRoom(Byte(b[2]), Byte(b[3]));
    ThreeRoom(Byte(b[1]), Joined(Byte(b[2]), Byte(b[3])));
  }

  lemma PackedInjective(a: seq<bv8>, b: seq<bv8>)
    requires |a| == |b| == 4 && Packed(a) == Packed(b)
    ensures a == b
  {
    hide Joined, Byte, Room;
    Rooms(a);
    Rooms(b);
    var a2, b2 := Joined(Byte(a[2]), Byte(a[3])), Joined(Byte(b[2]), Byte(b[3]));
    JoinedInjective(Byte(a[0]), Joined(Byte(a[1]), a2), Byte(b[0]), Joined(Byte(b[1]), b2));
    JoinedInjective(Byte(a[1]), a2, Byte(b[1]), b2);
    JoinedInjective(Byte(a[2]), Byte(a[3]), Byte(b[2]), Byte(b[3]));
    ByteInjective(a[0], b[0]);
    ByteInjective(a[1], b[1]);
    ByteInjective(a[2], b[2]);
    ByteInjective(a[3], b[3]);
  }

  /** Feeding four bytes is adding their word and stepping 32 times. */
  lemma FourBytes(crc: Word, b: seq<bv8>)
    requires |b| == 4
    ensures Register(crc, b) == Next8(Next8(Next8(Next8(Xor(crc, Packed(b))))))
  {
    hide Xor, Joined, Register, Next8, Byte, Room;
    var b0, b1, b2, b3 := Byte(b[0]), Byte(b[1]), Byte(b[2]), Byte(b[3]);
    FourSerial(crc, b);
    Rooms(b);
    var x := Next8(Xor(crc, b0));
    Next8Delay(Next8(Xor(x, b1)), b2, b3);
    Next8Delay(x, b1, Joined(b2, b3));
    Next8Delay(crc, b0, Joined(b1, Joined(b2, b3)));
  }

  lemma RegisterSnoc(crc: Word, s: seq<bv8>, x: bv8)
    ensures Register(crc, s + [x]) == Serial(Register(crc, s), Byte(x), 8)
  {
    hide Serial, Byte;
    assert (s + [x])[..|s|] == s;
  }

  lemma FourSerial(crc: Word, b: seq<bv8>)
    requires |b| == 4
    ensures Register(crc, b) ==
            Next8(Xor(Next8(Xor(Next8(Xor(Next8(Xor(crc, Byte(b[0]))), Byte(b[1]))), Byte(b[2]))), Byte(b[3])))
  {
    hide Xor, Serial, Next8, Byte;
    ByteIsSmall(b[0]);
    ByteIsSmall(b[1]);
    ByteIsSmall(b[2]);
    ByteIsSmall(b[3]);
    var r1 := Register(crc, [b[0]]);
    var r2 := Register(crc, [b[0], b[1]]);
    var r3 := Register(crc, [b[0], b[1], b[2]]);
    RegisterSnoc(crc, [], b[0]);
    RegisterSnoc(crc, [b[0]], b[1]);
    RegisterSnoc(crc, [b[0], b[1]], b[2]);
    RegisterSnoc(crc, [b[0], b[1], b[2]], b[3]);
    assert [] + [b[0]] == [b[0]] && [b[0]] + [b[1]] == [b[0], b[1]];
    assert [b[0], b[1]] + [b[2]] == [b[0], b[1], b[2]] && [b[0], b[1], b[2]] + [b[3]] == b;
    SerialIsNext8(crc, Byte(b[0]));
    SerialIsNext8(r1, Byte(b[1]));
    SerialIsNext8(r2, Byte(b[2]));
    SerialIsNext8(r3, Byte(b[3]));
  }

  lemma SamePacked(crc: Word, a: seq<bv8>, b: seq<bv8>)
    requires |a| == |b| == 4 && Register(crc, a) == Register(crc, b)
    ensures a == b
  {
    hide Xor, Register, Next8, Packed;
    FourBytes(crc, a);
    FourBytes(crc, b);
    var x, y := Xor(crc, Packed(a)), Xor(crc, Packed(b));
    Next8Injective(Next8(Next8(Next8(x))), Next8(Next8(Next8(y))));
    Next8Injective(Next8(Next8(x)), Next8(Next8(y)));
    Next8Injective(Next8(x), Next8(y));
    Next8Injective(x, y);
    XorComm(crc, Packed(a));
    XorComm(crc, Packed(b));
    XorInjective(Packed(a), Packed(b), crc);
    PackedInjective(a, b);
  }

  /** Any change within four neighbouring bytes changes the checksum. */
  lemma DetectsBurst(before: seq<bv8>, a: seq<bv8>, b: seq<bv8>, after: seq<bv8>)
    requires |a| == |b| == 4 && a != b
    ensures Crc32(before + a + after) != Crc32(before + b + after)
  {
    hide Xor, Register;
    var r := Register(ONES, before);
    RegisterConcat(ONES, before + a, after);
    RegisterConcat(ONES, before + b, after);
    RegisterConcat(ONES, before, a);
    RegisterConcat(ONES, before, b);
    if Crc32(before + a + after) == Crc32(before + b + after) {
      XorInjective(Register(ONES, before + a + after), Register(ONES, before + b + after), ONES);
      RegisterInjective(Register(r, a), Register(r, b), after);
      SamePacked(r, a, b);
    }
  }
}
