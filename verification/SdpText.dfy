/** mungeSdpForSimulcasting on texts, and two small inputs on which it goes wrong. */
module SdpText {
  import opened Options
  import opened Sdp

  const CRLF := "\r\n"

  /** s.split("\r\n") */
  function Split(s: string): (r: seq<Line>)
    ensures |r| > 0 && r[0] <= s
  {
    if s == [] then [[]]
    else if CRLF <= s then [[]] + Split(s[2..])
    else
      var r := Split(s[1..]);
      [[s[0]] + r[0]] + r[1..]
  }

  /** lines.join("\r\n") */
  function Join(lines: seq<Line>): string {
    if lines == [] then [] else if |lines| == 1 then lines[0] else lines[0] + CRLF + Join(lines[1..])
  }

  predicate Ends(s: string) {
    |s| >= 2 && s[|s| - 2..] == CRLF
  }

  /** The whole function. */
  function MungedText(sdp: string, r: Numbers): string {
    match Munged(Split(sdp), r)
    case None => sdp
    case Some(lines) => var s := Join(lines); if Ends(s) then s else s + CRLF
  }

  /** mungeSdpForSimulcasting */
  method MungeSdp(sdp: string, r: Numbers) returns (result: string)
    ensures result == MungedText(sdp, r)
  {
    var lines := Munge(Split(sdp), r);
    if lines.None? {
      return sdp;
    }
    result := Join(lines.value);
    if !Ends(result) {
      result := result + CRLF;
    }
  }

  // Lines and texts.

  predicate Unbroken(s: Line) {
    forall i :: 0 <= i < |s| - 1 && s[i] == '\r' ==> s[i + 1] != '\n'
  }

  predicate AllUnbroken(lines: seq<Line>) {
    forall s :: s in lines ==> Unbroken(s)
  }

  lemma {:induction false} SplitUnbroken(s: string)
    ensures AllUnbroken(Split(s))
  {
    if s != [] {
      if CRLF <= s {
        SplitUnbroken(s[2..]);
      } else {
        var r := Split(s[1..]);
        SplitUnbroken(s[1..]);
        assert r[0] in r && Unbroken(r[0]);
        assert Unbroken([s[0]] + r[0]);
      }
    }
  }

  lemma {:induction false} JoinSplit(s: string)
    ensures Join(Split(s)) == s
  {
    if s != [] {
      if CRLF <= s {
        JoinSplit(s[2..]);
        assert ([[]] + Split(s[2..]))[1..] == Split(s[2..]);
        assert s == [] + CRLF + s[2..];
      } else {
        JoinSplit(s[1..]);
        var r := Split(s[1..]);
        assert ([[s[0]] + r[0]] + r[1..])[1..] == r[1..];
        assert s == [s[0]] + s[1..];
      }
    }
  }

  lemma {:induction false} SplitLine(x: Line, rest: string)
    requires Unbroken(x)
    ensures Split(x) == [x] && Split(x + CRLF + rest) == [x] + Split(rest)
  {
    var s := x + CRLF + rest;
    if x == [] {
      assert s == CRLF + rest && s[2..] == rest && s[..2] == CRLF;
      assert Split(x) == [[]];
    } else {
      assert x[1..] + CRLF + rest == s[1..] && s[0] == x[0];
      SplitLine(x[1..], rest);
      assert s[1] == if |x| > 1 then x[1] else '\r';
      assert [x[0]] + x[1..] == x;
      assert |x| > 1 ==> !(x[0] == '\r' && x[1] == '\n');
    }
  }

  lemma {:induction false} SplitJoin(lines: seq<Line>)
    requires lines != [] && AllUnbroken(lines)
    ensures Split(Join(lines)) == lines
  {
    assert lines[0] in lines;
    if |lines| == 1 {
      SplitLine(lines[0], []);
    } else {
      SplitLine(lines[0], Join(lines[1..]));
      SplitJoin(lines[1..]);
    }
  }

  lemma {:induction false} JoinSnoc(lines: seq<Line>, x: Line)
    requires lines != []
    ensures Join(lines + [x]) == Join(lines) + CRLF + x
  {
    if |lines| == 1 {
      assert (lines + [x])[1..] == [x];
    } else {
      assert (lines + [x])[1..] == lines[1..] + [x];
      JoinSnoc(lines[1..], x);
    }
  }

  lemma EndsIff(lines: seq<Line>, x: Line)
    requires lines != [] && Unbroken(x)
    ensures Ends(Join(lines + [x])) <==> x == []
  {
    JoinSnoc(lines, x);
    var s := Join(lines) + CRLF + x;
    assert |x| == 1 ==> s[|s| - 2] == '\n';
    assert |x| >= 2 ==> s[|s| - 2] == x[|x| - 2] && s[|s| - 1] == x[|x| - 1];
    assert x == [] ==> s[|s| - 2..] == CRLF;
  }

  // The new lines have no line break inside.

  predicate OneLine(s: string) {
    '\n' !in s
  }

  predicate OneLineIfAny(s: Option<string>) {
    s.Some? ==> OneLine(s.value)
  }

  predicate Clean(f: Found) {
    && OneLineIfAny(f.ssrc) && OneLineIfAny(f.fid)
    && OneLineIfAny(f.cname) && OneLineIfAny(f.msid) && OneLineIfAny(f.mslabel) && OneLineIfAny(f.labelText)
  }

  predicate CleanNumbers(r: Numbers) {
    OneLine(r.r0) && OneLine(r.r1) && OneLine(r.r2) && OneLine(r.r3)
  }

  lemma {:induction false} LeadingClean(s: string, inClass: char -> bool)
    requires !inClass('\n')
    ensures OneLine(Sdp.Leading(s, inClass))
  {
    if s != [] && inClass(s[0]) {
      LeadingClean(s[1..], inClass);
    }
  }

  lemma {:induction false} FidGroupClean(s: Line)
    ensures FidGroup(s).Some? ==> OneLine(FidGroup(s).value.0) && OneLine(FidGroup(s).value.1)
  {
    if s != [] {
      FidGroupClean(s[1..]);
      var x := if FID <= s then Sdp.Leading(s[|FID|..], IsDigit) else [];
      var rest := if FID <= s then s[|FID| + |x|..] else [];
      if FID <= s {
        LeadingClean(s[|FID|..], IsDigit);
      }
      if " " <= rest {
        LeadingClean(rest[1..], IsDigit);
      }
    }
  }

  lemma {:induction false} BehindClean(s: Line, p: string, inClass: char -> bool)
    requires !inClass('\n')
    ensures OneLineIfAny(Behind(s, p, inClass))
  {
    if s != [] {
      BehindClean(s[1..], p, inClass);
      if p <= s {
        LeadingClean(s[|p|..], inClass);
      }
    }
  }

  lemma LearnClean(f: Found, s: Line)
    requires Clean(f)
    ensures Clean(Learn(f, s))
  {
    hide Behind;
    var x := Text(f.ssrc);
    BehindClean(s, SSRC + x + " " + "cname" + ":", IsDot);
    BehindClean(s, SSRC + x + " " + "msid" + ":", IsDot);
    BehindClean(s, SSRC + x + " " + "mslabel" + ":", IsDot);
    BehindClean(s, SSRC + x + " " + "label" + ":", IsDot);
  }

  lemma LookClean(f: Found, s: Line, again: bool)
    requires Clean(f)
    ensures Clean(LookIn(f, s, again).0)
  {
    hide Learn, FidGroup, Behind;
    LearnClean(f, s);
    FidGroupClean(s);
    BehindClean(s, SSRC, IsDigit);
  }

  predicate Within(r: Passed, lines: seq<Line>) {
    (forall s :: s in r.kept ==> s in lines) && (forall s :: s in r.tail ==> s in lines)
  }

  lemma {:induction false} PassClean(lines: seq<Line>, video: bool, f: Found, again: bool)
    requires Clean(f)
    ensures Clean(Pass(lines, video, f, again).found) && Within(Pass(lines, video, f, again), lines)
  {
    hide Medium, LookIn, Clean;
    if lines != [] {
      var medium := Medium(lines[0]);
      if medium.Some? {
        if f.ssrc.None? {
          PassClean(lines[1..], video || medium.value == "video", f, again);
        }
      } else if video {
        LookClean(f, lines[0], again);
        PassClean(lines[1..], video, LookIn(f, lines[0], again).0, again);
      } else {
        PassClean(lines[1..], video, f, again);
      }
    }
  }

  lemma AttributeLinesClean(f: Found, ssrc: string)
    requires Clean(f) && OneLine(ssrc)
    ensures forall s :: s in AttributeLines(f, ssrc) ==> OneLine(s)
  {
    AttributeLineClean(ssrc, "cname", f.cname);
    AttributeLineClean(ssrc, "msid", f.msid);
    AttributeLineClean(ssrc, "mslabel", f.mslabel);
    AttributeLineClean(ssrc, "label", f.labelText);
  }

  lemma AttributeLineClean(ssrc: string, name: string, value: Option<string>)
    requires OneLine(ssrc) && OneLine(name) && OneLineIfAny(value)
    ensures forall s :: s in AttributeLine(ssrc, name, value) ==> OneLine(s)
  {
  }

  lemma {:induction false} PairsClean(f: Found, ssrcs: seq<string>, fids: seq<string>, n: nat)
    requires Clean(f) && n <= |ssrcs| && n <= |fids|
    requires forall i :: 0 <= i < n ==> OneLine(ssrcs[i]) && OneLine(fids[i])
    ensures forall s :: s in Pairs(f, ssrcs, fids, n) ==> OneLine(s)
  {
    hide AttributeLines, OneLine, Clean;
    if n > 0 {
      PairsClean(f, ssrcs, fids, n - 1);
      AttributeLinesClean(f, ssrcs[n - 1]);
      AttributeLinesClean(f, fids[n - 1]);
    }
  }

  lemma BlockClean(f: Found, r: Numbers)
    requires Clean(f) && CleanNumbers(r)
    ensures forall s :: s in Block(f, r) ==> OneLine(s)
  {
    hide Pairs;
    var s, t := Ssrcs(f, r), Fids(f, r);
    PairsClean(f, s, t, 3);
    assert forall i :: 0 <= i < 3 ==> OneLine(s[i]) && OneLine(t[i]);
    assert OneLine(SimLine(s)) && forall i :: 0 <= i < 3 ==> OneLine(FidLine(s[i], t[i]));
  }

  lemma MungedUnbroken(lines: seq<Line>, r: Numbers)
    requires AllUnbroken(lines) && CleanNumbers(r) && Munged(lines, r).Some?
    ensures |Munged(lines, r).value| >= 4 && AllUnbroken(Munged(lines, r).value)
  {
    hide Pass, Block, CleanNumbers;
    var p := Pass(lines, false, NOTHING, false);
    PassClean(lines, false, NOTHING, false);
    var q := if p.found.ssrc.Some? then p else Pass(p.kept + p.tail, false, p.found, true);
    if p.found.ssrc.None? {
      PassClean(p.kept + p.tail, false, p.found, true);
    }
    BlockClean(q.found, r);
    BlockShape(q.found, r);
  }

  /** A text that is not returned as it was reads back, split at CRLF, as exactly the lines of the result,
      each of them ended by a CRLF: no value put into a line breaks it. */
  lemma ReadsBack(sdp: string, r: Numbers)
    requires CleanNumbers(r) && Munged(Split(sdp), r).Some?
    ensures var lines := Munged(Split(sdp), r).value;
            && lines != []
            && Split(MungedText(sdp, r)) == if lines[|lines| - 1] == [] then lines else lines + [[]]
  {
    hide Munged;
    SplitUnbroken(sdp);
    MungedUnbroken(Split(sdp), r);
    var lines := Munged(Split(sdp), r).value;
    var n := |lines| - 1;
    assert lines == lines[..n] + [lines[n]];
    EndsIff(lines[..n], lines[n]);
    JoinSnoc(lines, []);
    assert Join(lines) + CRLF + [] == Join(lines) + CRLF;
    SplitJoin(lines);
    SplitJoin(lines + [[]]);
  }

  // Two small inputs.

  lemma PrefixHas(s: string, p: string, k: nat)
    requires k < |p|
    ensures p <= s ==> p[k] in s
  {
    if p <= s {
      assert s[k] == p[k];
    }
  }

  /** A line without one of the characters of `p` does not match. */
  lemma {:induction false} NoMatch(s: Line, p: string, k: nat, inClass: char -> bool)
    requires k < |p| && p[k] !in s
    ensures Behind(s, p, inClass) == None
  {
    if s != [] {
      PrefixHas(s, p, k);
      NoMatch(s[1..], p, k, inClass);
    }
  }

  lemma NoMedium(s: Line)
    requires 'm' !in s
    ensures Medium(s) == None
  {
    NoMatch(s, "m=", 0, IsWord);
  }

  lemma {:induction false} NoGroup(s: Line)
    requires ' ' !in s
    ensures FidGroup(s) == None
  {
    if s != [] {
      assert FID[16] == ' ';
      NoGroup(s[1..]);
    }
  }

  lemma NoSpace(s: Line, ssrc: string, name: string)
    requires ' ' !in s
    ensures Attribute(s, ssrc, name) == None
  {
    var p := SSRC + ssrc + " " + name + ":";
    assert p[|SSRC| + |ssrc|] == ' ';
    NoMatch(s, p, |SSRC| + |ssrc|, IsDot);
  }

  lemma LearnsNothing(f: Found, s: Line)
    requires ' ' !in s
    ensures Learn(f, s) == f && FidGroup(s) == None
  {
    NoGroup(s);
    NoSpace(s, Text(f.ssrc), "cname");
    NoSpace(s, Text(f.ssrc), "msid");
    NoSpace(s, Text(f.ssrc), "mslabel");
    NoSpace(s, Text(f.ssrc), "label");
  }

  lemma VideoLine()
    ensures Medium("m=video") == Some("video")
  {
    LeadingWhole("video", IsWord, []);
    assert "video" + [] == "video" && "m=video"[..2] == "m=" && "m=video"[2..] == "video";
  }

  const PAIR := NOTHING.(ssrc := Some("1"), fid := Some("2"))

  lemma GroupLine()
    ensures FidGroup(FidLine("1", "2")) == Some(("1", "2")) && Medium(FidLine("1", "2")) == None
  {
    hide Medium, Sdp.Leading;
    var s := FidLine("1", "2");
    assert s[..|FID|] == FID && s[|FID|..] == "1" + " 2" && s[|FID| + 1..] == " 2" && " 2"[1..] == "2" + [];
    assert " 2"[..1] == " ";
    LeadingWhole("1", IsDigit, " 2");
    LeadingWhole("2", IsDigit, []);
    NoMedium(s);
  }

  /** The numbers are compared as text: the line of SSRC 10, which is in no group, is removed with those of
      SSRC 1. */
  lemma LongerNumberRemoved(r: Numbers)
    ensures Munged(["m=video", FidLine("1", "2"), "a=ssrc:10"], r) == Some(["m=video"] + Block(PAIR, r))
  {
    hide Medium, FidGroup, Learn, Block;
    var lines := ["m=video", FidLine("1", "2"), "a=ssrc:10"];
    VideoLine();
    GroupLine();
    NoMedium("a=ssrc:10");
    LearnsNothing(PAIR, "a=ssrc:10");
    assert lines[1..] == [FidLine("1", "2"), "a=ssrc:10"] && lines[1..][1..] == ["a=ssrc:10"];
    assert Pass([], true, PAIR, false) == Passed([], PAIR, []);
    assert Pass(["a=ssrc:10"], true, PAIR, false) == Passed([], PAIR, []);
    assert Pass(lines[1..], true, NOTHING, false) == Passed([], PAIR, []);
    assert Pass(lines, false, NOTHING, false) == Passed(["m=video"], PAIR, []);
    assert ["m=video"] + Block(PAIR, r) + [] == ["m=video"] + Block(PAIR, r);
  }

  /** The only SSRC is in no group: its retransmission number is written as -1. */
  lemma MinusOneWritten(r: Numbers)
    ensures var f := NOTHING.(ssrc := Some("1"));
            && Munged(["m=video", "a=ssrc:1"], r) == Some(["m=video"] + Block(f, r))
            && FidLine("1", "-1") in Block(f, r)
  {
    hide Medium, FidGroup, Learn, Block;
    var lines := ["m=video", "a=ssrc:1"];
    var f := NOTHING.(ssrc := Some("1"));
    VideoLine();
    NoMedium("a=ssrc:1");
    LearnsNothing(NOTHING, "a=ssrc:1");
    assert lines[1..] == ["a=ssrc:1"];
    assert Pass(["a=ssrc:1"], true, NOTHING, false) == Passed(["a=ssrc:1"], NOTHING, []);
    assert Pass(lines, false, NOTHING, false) == Passed(lines, NOTHING, []);
    assert lines + [] == lines;
    assert "a=ssrc:1"[..|SSRC|] == SSRC && "a=ssrc:1"[|SSRC|..] == "1" + [];
    LeadingWhole("1", IsDigit, []);
    assert SsrcValue("a=ssrc:1") == Some("1");
    assert Pass(["a=ssrc:1"], true, NOTHING, true) == Passed([], f, []);
    assert Pass(lines, false, NOTHING, true) == Passed(["m=video"], f, []);
    assert ["m=video"] + Block(f, r) + [] == ["m=video"] + Block(f, r);
    BlockShape(f, r);
  }
}
