/** Which lines mungeSdpForSimulcasting removes along with a FID group: it compares numbers as text. */
module SdpNumbers {
  import opened Options
  import opened Sdp

  predicate IsNumber(s: string) {
    s != [] && forall i :: 0 <= i < |s| ==> IsDigit(s[i])
  }

  /** The number behind `a=ssrc:`, empty if there is none. */
  function NumberOf(s: Line): string {
    if SSRC <= s then Sdp.Leading(s[|SSRC|..], IsDigit) else []
  }

  /** The lines of other SSRCs, and those of none. */
  function ForeignTo(section: seq<Line>, x: string, y: string): seq<Line> {
    if section == [] then []
    else (if section[0] != [] && NumberOf(section[0]) != x && NumberOf(section[0]) != y then [section[0]] else [])
         + ForeignTo(section[1..], x, y)
  }

  /** The line is of another SSRC, whose number begins with `x` or `y`. */
  predicate Longer(s: Line, x: string, y: string) {
    var n := NumberOf(s);
    n != x && n != y && (x <= n || y <= n)
  }

  lemma {:induction false} LeadingPrefix(s: string, x: string)
    requires forall i :: 0 <= i < |x| ==> IsDigit(x[i])
    ensures x <= s <==> x <= Sdp.Leading(s, IsDigit)
  {
    if x != [] && s != [] {
      LeadingPrefix(s[1..], x[1..]);
      assert x == [x[0]] + x[1..] && s == [s[0]] + s[1..];
      var l := Sdp.Leading(s, IsDigit);
      if x <= s {
        assert x[0] == s[0] && x[1..] <= s[1..];
      }
      if x <= l {
        assert x[0] == l[0] == s[0] && l[1..] == Sdp.Leading(s[1..], IsDigit) && x[1..] <= l[1..];
      }
    }
  }

  /** A line begins with `a=ssrc:` and a number exactly when its number begins with that number. */
  lemma StartsWith(s: Line, x: string)
    requires IsNumber(x)
    ensures SSRC + x <= s <==> x <= NumberOf(s)
  {
    if SSRC <= s {
      LeadingPrefix(s[|SSRC|..], x);
      assert s == SSRC + s[|SSRC|..];
      assert SSRC + x <= s <==> x <= s[|SSRC|..];
    } else {
      PrefixOf(SSRC, x, s);
    }
  }

  lemma {:induction false} OthersAndForeign(section: seq<Line>, f: Found)
    requires f.ssrc.Some? && f.fid.Some? && IsNumber(f.ssrc.value) && IsNumber(f.fid.value)
    ensures var (x, y) := (f.ssrc.value, f.fid.value);
            && |Others(section, f)| <= |ForeignTo(section, x, y)|
            && (Others(section, f) == ForeignTo(section, x, y) <==> forall s :: s in section ==> !Longer(s, x, y))
  {
    hide NumberOf;
    var (x, y) := (f.ssrc.value, f.fid.value);
    if section != [] {
      var s, rest := section[0], section[1..];
      OthersAndForeign(rest, f);
      StartsWith(s, x);
      StartsWith(s, y);
      assert section == [s] + rest;
      assert (forall t :: t in section ==> !Longer(t, x, y)) <==>
        !Longer(s, x, y) && forall t :: t in rest ==> !Longer(t, x, y);
      EmptyLine();
      SameHead(s, Others(rest, f), ForeignTo(rest, x, y));
      var keeps, foreign := s != [] && !Own(f, s), s != [] && NumberOf(s) != x && NumberOf(s) != y;
      assert foreign && !keeps <==> Longer(s, x, y);
      assert keeps ==> foreign;
      assert Others(section, f) == if keeps then [s] + Others(rest, f) else Others(rest, f);
      assert ForeignTo(section, x, y) == if foreign then [s] + ForeignTo(rest, x, y) else ForeignTo(rest, x, y);
    }
  }

  lemma EmptyLine()
    ensures NumberOf([]) == []
  {
  }

  lemma SameHead(s: Line, a: seq<Line>, b: seq<Line>)
    ensures [s] + a == [s] + b <==> a == b
  {
    assert ([s] + a)[1..] == a && ([s] + b)[1..] == b;
  }

  lemma {:induction false} LeadingDigits(s: string)
    ensures forall i :: 0 <= i < |Sdp.Leading(s, IsDigit)| ==> IsDigit(Sdp.Leading(s, IsDigit)[i])
  {
    if s != [] && IsDigit(s[0]) {
      LeadingDigits(s[1..]);
    }
  }

  lemma {:induction false} FidGroupNumbers(s: Line)
    ensures FidGroup(s).Some? ==> IsNumber(FidGroup(s).value.0) && IsNumber(FidGroup(s).value.1)
  {
    if s != [] {
      FidGroupNumbers(s[1..]);
      var x := if FID <= s then Sdp.Leading(s[|FID|..], IsDigit) else [];
      var rest := if FID <= s then s[|FID| + |x|..] else [];
      if FID <= s {
        LeadingDigits(s[|FID|..]);
      }
      if " " <= rest {
        LeadingDigits(rest[1..]);
      }
    }
  }

  /** Behind its one group, a section loses the lines of the group's two SSRCs, the empty ones, and no others,
      exactly when no line there is of an SSRC whose number is longer and begins with one of the two: the
      numbers are compared as text. */
  lemma {:induction false} OwnLinesOnlyIff(before: seq<Line>, group: Line, after: seq<Line>)
    requires NoFid(before) && NoFid(after) && FidGroup(group).Some?
    ensures var (x, y) := FidGroup(group).value;
            Kept(before + [group] + after, NOTHING) == Others(before, NOTHING) + ForeignTo(after, x, y) <==>
              forall s :: s in after ==> !Longer(s, x, y)
  {
    hide NoFid, FidGroup, Kept, Others, ForeignTo, Longer;
    var (x, y) := FidGroup(group).value;
    var f := NOTHING.(ssrc := Some(x), fid := Some(y));
    FidGroupNumbers(group);
    OneGroup(before, group, after);
    OthersAndForeign(after, f);
    SameTail(Others(before, NOTHING), Others(after, f), ForeignTo(after, x, y));
  }

  lemma SameTail(a: seq<Line>, b: seq<Line>, c: seq<Line>)
    ensures a + b == a + c <==> b == c
  {
    assert (a + b)[|a|..] == b && (a + c)[|a|..] == c;
  }

  // Where a group stands in a line.

  /** A FID group with these two numbers stands at place `i` of the line. */
  predicate GroupAt(s: Line, i: nat, x: string, y: string) {
    var g := "a=ssrc-group:FID " + x + " " + y;
    && IsNumber(x) && IsNumber(y) && i + |g| <= |s| && s[i..i + |g|] == g
    && (i + |g| < |s| ==> !IsDigit(s[i + |g|]))
  }

  lemma {:induction false} LeadingEnds(s: string)
    ensures var v := Sdp.Leading(s, IsDigit); v <= s && (|v| < |s| ==> !IsDigit(s[|v|]))
  {
    if s != [] && IsDigit(s[0]) {
      LeadingEnds(s[1..]);
    }
  }

  /** What the match takes at the front of a line, if it does, stands there. */
  lemma StandsHere(s: Line)
    requires FID <= s
    ensures var x := Sdp.Leading(s[|FID|..], IsDigit);
            var rest := s[|FID| + |x|..];
            var y := if " " <= rest then Sdp.Leading(rest[1..], IsDigit) else [];
            x != [] && y != [] ==> GroupAt(s, 0, x, y)
  {
    var x := Sdp.Leading(s[|FID|..], IsDigit);
    var rest := s[|FID| + |x|..];
    LeadingDigits(s[|FID|..]);
    LeadingEnds(s[|FID|..]);
    if " " <= rest {
      var y := Sdp.Leading(rest[1..], IsDigit);
      LeadingDigits(rest[1..]);
      LeadingEnds(rest[1..]);
      var g := "a=ssrc-group:FID " + x + " " + y;
      assert FID == "a=ssrc-group:FID ";
      assert s == FID + x + " " + rest[1..];
      assert s[..|g|] == g;
    }
  }

  lemma Shifted(s: Line, i: nat, x: string, y: string)
    requires s != []
    ensures GroupAt(s, i + 1, x, y) <==> GroupAt(s[1..], i, x, y)
  {
    var g := "a=ssrc-group:FID " + x + " " + y;
    if i + 1 + |g| <= |s| {
      assert s[1..][i..i + |g|] == s[i + 1..i + 1 + |g|];
    }
  }

  ghost predicate NoneBefore(s: Line, n: nat) {
    forall i: nat, x, y :: i < n ==> !GroupAt(s, i, x, y)
  }

  /** The numbers of a line are those of the first FID group that stands in it; it has none exactly if none does. */
  lemma {:induction false} FidGroupIs(s: Line)
    ensures match FidGroup(s)
            case Some((x, y)) => exists i: nat :: GroupAt(s, i, x, y) && NoneBefore(s, i)
            case None => NoneBefore(s, |s|)
  {
    hide GroupAt;
    if s != [] {
      var x := if FID <= s then Sdp.Leading(s[|FID|..], IsDigit) else [];
      var rest := if FID <= s then s[|FID| + |x|..] else [];
      var y := if " " <= rest then Sdp.Leading(rest[1..], IsDigit) else [];
      if x != [] && y != [] {
        StandsHere(s);
        var k: nat := 0;
        assert GroupAt(s, k, x, y) && NoneBefore(s, k);
      } else {
        FidGroupIs(s[1..]);
        NotInFront(s);
        match FidGroup(s[1..])
        case Some((u, v)) =>
          var i: nat :| GroupAt(s[1..], i, u, v) && NoneBefore(s[1..], i);
          Shifted(s, i, u, v);
          NoneShifted(s, i);
          var k: nat := i + 1;
          assert GroupAt(s, k, u, v) && NoneBefore(s, k);
        case None => NoneShifted(s, |s| - 1);
      }
    }
  }

  lemma NotInFront(s: Line)
    requires s != []
    requires var x := if FID <= s then Sdp.Leading(s[|FID|..], IsDigit) else [];
             var rest := if FID <= s then s[|FID| + |x|..] else [];
             x == [] || !(" " <= rest) || Sdp.Leading(rest[1..], IsDigit) == []
    ensures forall x, y :: !GroupAt(s, 0, x, y)
  {
    forall x, y
      ensures !GroupAt(s, 0, x, y)
    {
      if GroupAt(s, 0, x, y) {
        HereTaken(s, x, y);
      }
    }
  }

  lemma HereTaken(s: Line, x: string, y: string)
    requires GroupAt(s, 0, x, y)
    ensures FID <= s && Sdp.Leading(s[|FID|..], IsDigit) == x
    ensures " " <= s[|FID| + |x|..] && Sdp.Leading(s[|FID| + |x|..][1..], IsDigit) == y
  {
    var g := "a=ssrc-group:FID " + x + " " + y;
    var t := s[|g|..];
    assert s == g + t;
    assert t != [] ==> t[0] == s[|g|];
    Parts(x, y, t);
    hide IsNumber, FID;
    Cut(FID, x + (" " + (y + t)));
    Cut(x, " " + (y + t));
    Cut(" ", y + t);
    assert s[|FID| + |x|..] == s[|FID|..][|x|..];
  }

  lemma Cut(a: string, b: string)
    ensures a <= a + b && (a + b)[|a|..] == b
  {
  }

  lemma Parts(x: string, y: string, t: string)
    requires IsNumber(x) && IsNumber(y) && (t != [] ==> !IsDigit(t[0]))
    ensures "a=ssrc-group:FID " + x + " " + y + t == FID + (x + (" " + (y + t)))
    ensures Sdp.Leading(x + (" " + (y + t)), IsDigit) == x && Sdp.Leading(y + t, IsDigit) == y
  {
    LeadingWhole(x, IsDigit, " " + (y + t));
    LeadingWhole(y, IsDigit, t);
  }

  lemma NoneShifted(s: Line, n: nat)
    requires s != [] && NoneBefore(s[1..], n) && forall x, y :: !GroupAt(s, 0, x, y)
    ensures NoneBefore(s, n + 1)
  {
    hide GroupAt;
    forall i: nat, x, y | i < n + 1
      ensures !GroupAt(s, i, x, y)
    {
      if i > 0 {
        Shifted(s, i - 1, x, y);
      }
    }
  }
}
