/** What mungeSdpForSimulcasting writes: which attributes it finds in the lines, and for which numbers it
    repeats them. */
module SdpAttributes {
  import opened Options
  import opened Sdp

  // One match in one line.

  /** `v` is the text behind the first `p` in the line that has any text behind it. */
  predicate Captures(s: Line, p: string, inClass: char -> bool, i: nat, v: string) {
    && i + |p| + |v| <= |s|
    && s[i..i + |p|] == p && s[i + |p|..i + |p| + |v|] == v
    && v != [] && (forall j :: 0 <= j < |v| ==> inClass(v[j]))
    && (i + |p| + |v| < |s| ==> !inClass(s[i + |p| + |v|]))
  }

  predicate Empty(s: Line, p: string, inClass: char -> bool, i: nat) {
    i + |p| <= |s| && s[i..i + |p|] == p ==> i + |p| == |s| || !inClass(s[i + |p|])
  }

  lemma {:induction false} LeadingRun(s: string, inClass: char -> bool)
    ensures var v := Sdp.Leading(s, inClass);
            && v <= s && (forall j :: 0 <= j < |v| ==> inClass(v[j]))
            && (|v| < |s| ==> !inClass(s[|v|]))
  {
    if s != [] && inClass(s[0]) {
      LeadingRun(s[1..], inClass);
    }
  }

  ghost predicate FirstCapture(s: Line, p: string, inClass: char -> bool, v: string) {
    exists i: nat :: Captures(s, p, inClass, i, v) && forall j: nat :: j < i ==> Empty(s, p, inClass, j)
  }

  ghost predicate NoCapture(s: Line, p: string, inClass: char -> bool) {
    forall j: nat :: Empty(s, p, inClass, j)
  }

  lemma LaterEmpty(s: Line, p: string, inClass: char -> bool, j: nat)
    requires s != [] && Empty(s[1..], p, inClass, j)
    ensures Empty(s, p, inClass, j + 1)
  {
    if j + 1 + |p| <= |s| {
      assert s[1..][j..j + |p|] == s[j + 1..j + 1 + |p|];
    }
  }

  lemma LaterCaptures(s: Line, p: string, inClass: char -> bool, i: nat, v: string)
    requires s != [] && Captures(s[1..], p, inClass, i, v)
    ensures Captures(s, p, inClass, i + 1, v)
  {
    assert s[1..][i..i + |p|] == s[i + 1..i + 1 + |p|];
    assert s[1..][i + |p|..i + |p| + |v|] == s[i + 1 + |p|..i + 1 + |p| + |v|];
  }

  lemma LaterFirst(s: Line, p: string, inClass: char -> bool, v: string)
    requires s != [] && Empty(s, p, inClass, 0) && FirstCapture(s[1..], p, inClass, v)
    ensures FirstCapture(s, p, inClass, v)
  {
    hide Captures, Empty;
    var i: nat :| Captures(s[1..], p, inClass, i, v) && forall j: nat :: j < i ==> Empty(s[1..], p, inClass, j);
    LaterCaptures(s, p, inClass, i, v);
    var k: nat := i + 1;
    forall j: nat | j < k
      ensures Empty(s, p, inClass, j)
    {
      if j > 0 {
        LaterEmpty(s, p, inClass, j - 1);
      }
    }
    assert Captures(s, p, inClass, k, v);
  }

  lemma LaterNone(s: Line, p: string, inClass: char -> bool)
    requires s != [] && Empty(s, p, inClass, 0) && NoCapture(s[1..], p, inClass)
    ensures NoCapture(s, p, inClass)
  {
    hide Empty;
    forall j: nat
      ensures Empty(s, p, inClass, j)
    {
      if j > 0 {
        LaterEmpty(s, p, inClass, j - 1);
      }
    }
  }

  lemma HereFirst(s: Line, p: string, inClass: char -> bool)
    requires p <= s && Sdp.Leading(s[|p|..], inClass) != []
    ensures FirstCapture(s, p, inClass, Sdp.Leading(s[|p|..], inClass))
  {
    LeadingRun(s[|p|..], inClass);
    var k: nat := 0;
    assert Captures(s, p, inClass, k, Sdp.Leading(s[|p|..], inClass));
  }

  lemma NotHere(s: Line, p: string, inClass: char -> bool)
    requires p <= s ==> Sdp.Leading(s[|p|..], inClass) == []
    ensures Empty(s, p, inClass, 0)
  {
    if p <= s {
      LeadingRun(s[|p|..], inClass);
    }
  }

  lemma NothingThere(p: string, inClass: char -> bool)
    requires p != []
    ensures NoCapture([], p, inClass)
  {
  }

  /** What a match gives is the text behind the first `p` in the line that has any, as far as it goes; there
      is no match exactly if no such place has. */
  lemma {:induction false} BehindIs(s: Line, p: string, inClass: char -> bool)
    requires p != []
    ensures match Behind(s, p, inClass)
            case Some(v) => FirstCapture(s, p, inClass, v)
            case None => NoCapture(s, p, inClass)
  {
    hide FirstCapture, NoCapture, Empty;
    if s == [] {
      NothingThere(p, inClass);
    } else if p <= s && Sdp.Leading(s[|p|..], inClass) != [] {
      HereFirst(s, p, inClass);
    } else {
      NotHere(s, p, inClass);
      BehindIs(s[1..], p, inClass);
      match Behind(s[1..], p, inClass)
      case Some(v) => LaterFirst(s, p, inClass, v);
      case None => LaterNone(s, p, inClass);
    }
  }

  predicate Digit(c: char) {
    c in "0123456789"
  }

  predicate Printable(c: char) {
    c !in "\n\r\U{2028}\U{2029}"
  }

  /** So it is for the three expressions with one group: the kind of an m-line, the number of an SSRC line, and
      the text of an attribute, wherever in the line they stand. */
  lemma MatchesAre(s: Line, ssrc: string, name: string)
    ensures match Medium(s)
            case Some(v) => FirstCapture(s, "m=", IsWord, v)
            case None => NoCapture(s, "m=", IsWord)
    ensures match SsrcValue(s)
            case Some(v) => FirstCapture(s, "a=ssrc:", IsDigit, v)
            case None => NoCapture(s, "a=ssrc:", IsDigit)
    ensures var p := "a=ssrc:" + ssrc + " " + name + ":";
            match Attribute(s, ssrc, name)
            case Some(v) => FirstCapture(s, p, IsDot, v)
            case None => NoCapture(s, p, IsDot)
    ensures forall c :: (IsDigit(c) <==> Digit(c)) && (IsDot(c) <==> Printable(c))
    ensures forall c :: IsWord(c) <==> Digit(c) || c == '_' || 'a' <= c <= 'z' || 'A' <= c <= 'Z'
  {
    hide FirstCapture, NoCapture;
    BehindIs(s, "m=", IsWord);
    BehindIs(s, "a=ssrc:", IsDigit);
    BehindIs(s, "a=ssrc:" + ssrc + " " + name + ":", IsDot);
    assert SSRC + ssrc + " " + name + ":" == "a=ssrc:" + ssrc + " " + name + ":";
    CharacterClasses();
  }

  lemma CharacterClasses()
    ensures forall c :: (IsDigit(c) <==> Digit(c)) && (IsDot(c) <==> Printable(c))
    ensures forall c :: IsWord(c) <==> Digit(c) || c == '_' || 'a' <= c <= 'z' || 'A' <= c <= 'Z'
  {
  }

  // The attributes of several lines.

  /** The attribute in the last line that has it. */
  function LastValue(lines: seq<Line>, ssrc: string, name: string): Option<string> {
    if lines == [] then None
    else match Attribute(lines[|lines| - 1], ssrc, name)
      case Some(v) => Some(v)
      case None => LastValue(lines[..|lines| - 1], ssrc, name)
  }

  /** What is found: in `lines` for `ssrc`, or else what was found before. */
  predicate Finds(lines: seq<Line>, ssrc: string, before: Found, found: Found) {
    && found.cname == Else(LastValue(lines, ssrc, "cname"), before.cname)
    && found.msid == Else(LastValue(lines, ssrc, "msid"), before.msid)
    && found.mslabel == Else(LastValue(lines, ssrc, "mslabel"), before.mslabel)
    && found.labelText == Else(LastValue(lines, ssrc, "label"), before.labelText)
  }

  lemma FindsOne(lines: seq<Line>, s: Line, ssrc: string, before: Found, f: Found, g: Found)
    requires Finds(lines, ssrc, before, f) && Text(f.ssrc) == ssrc && g == Learn(f, s)
    ensures Finds(lines + [s], ssrc, before, g)
  {
    hide Attribute;
    assert (lines + [s])[..|lines|] == lines;
  }

  /** Lines without a FID group leave the numbers alone. */
  lemma {:induction false} PlainFinds(section: seq<Line>, f: Found)
    requires NoFid(section)
    ensures After(section, f).ssrc == f.ssrc && After(section, f).fid == f.fid
    ensures Finds(section, Text(f.ssrc), f, After(section, f))
  {
    KeptPlain(section, f, f);
    if section != [] {
      var n := |section| - 1;
      var (a, s) := (section[..n], section[n]);
      assert section == a + [s] && s in section;
      PlainFinds(a, f);
      KeptJoin(a, [s], f);
      AfterOne(s, After(a, f));
      FindsOne(a, s, Text(f.ssrc), f, After(a, f), After(section, f));
    }
  }

  lemma AfterOne(s: Line, f: Found)
    requires FidGroup(s).None?
    ensures After([s], f) == Learn(f, s)
  {
    hide FidGroup, Learn;
    assert [s][1..] == [];
  }

  /** With one FID group: each attribute is that of the last line behind the group that has it for the first
      number of the group; or else, if there is none, of the last line before the group that has it for -1. */
  lemma {:induction false} GroupFinds(before: seq<Line>, group: Line, after: seq<Line>)
    requires NoFid(before) && NoFid(after) && FidGroup(group).Some?
    ensures var (x, y) := FidGroup(group).value;
            var found := After(before + [group] + after, NOTHING);
            && found.ssrc == Some(x) && found.fid == Some(y)
            && exists g :: Finds(before, "-1", NOTHING, g) && Finds(after, x, g, found)
  {
    hide FidGroup, NoFid, Finds, Kept;
    var (x, y) := FidGroup(group).value;
    OneGroup(before, group, after);
    KeptJoin(before + [group], after, NOTHING);
    KeptJoin(before, [group], NOTHING);
    PlainFinds(before, NOTHING);
    var g := After(before, NOTHING);
    GroupOnly(group, g);
    var h := After([group], g);
    PlainFinds(after, h);
    SameFinds(after, x, g, h, After(after, h));
    hide After;
  }

  lemma SameFinds(lines: seq<Line>, ssrc: string, a: Found, b: Found, found: Found)
    requires a.cname == b.cname && a.msid == b.msid && a.mslabel == b.mslabel && a.labelText == b.labelText
    ensures Finds(lines, ssrc, a, found) <==> Finds(lines, ssrc, b, found)
  {
  }

  lemma GroupOnly(group: Line, g: Found)
    requires FidGroup(group).Some?
    ensures After([group], g) ==
            g.(ssrc := Some(FidGroup(group).value.0), fid := Some(FidGroup(group).value.1))
  {
    hide FidGroup;
    assert [group][1..] == [];
  }

  // The block by position.

  /** The attributes that are there, with their names, in the order in which they are written. */
  function Present(f: Found): seq<(string, string)> {
    (if f.cname.Some? then [("cname", f.cname.value)] else []) +
    (if f.msid.Some? then [("msid", f.msid.value)] else []) +
    (if f.mslabel.Some? then [("mslabel", f.mslabel.value)] else []) +
    (if f.labelText.Some? then [("label", f.labelText.value)] else [])
  }

  /** The block repeats them for the six numbers in turn; then come the SIM group and the three FID groups. */
  predicate Repeats(b: seq<Line>, f: Found, r: Numbers) {
    var numbers := [Text(f.ssrc), Text(f.fid), r.r0, r.r2, r.r1, r.r3];
    var (p, k) := (Present(f), |Present(f)|);
    && |b| == 6 * k + 4
    && (forall j, t :: 0 <= j < 6 && 0 <= t < k ==>
          b[j * k + t] == "a=ssrc:" + numbers[j] + " " + p[t].0 + ":" + p[t].1)
    && b[6 * k] == "a=ssrc-group:SIM " + Text(f.ssrc) + " " + r.r0 + " " + r.r1
    && b[6 * k + 1] == "a=ssrc-group:FID " + Text(f.ssrc) + " " + Text(f.fid)
    && b[6 * k + 2] == "a=ssrc-group:FID " + r.r0 + " " + r.r2
    && b[6 * k + 3] == "a=ssrc-group:FID " + r.r1 + " " + r.r3
  }

  lemma LinesPresent(f: Found, ssrc: string)
    ensures |AttributeLines(f, ssrc)| == |Present(f)|
    ensures forall t :: 0 <= t < |Present(f)| ==>
              AttributeLines(f, ssrc)[t] == "a=ssrc:" + ssrc + " " + Present(f)[t].0 + ":" + Present(f)[t].1
  {
  }

  lemma SixJoined(l: seq<seq<Line>>, k: nat, b: seq<Line>)
    requires |l| == 6 && (forall j :: 0 <= j < 6 ==> |l[j]| == k)
    requires b == l[0] + l[1] + l[2] + l[3] + l[4] + l[5]
    ensures |b| == 6 * k && forall j, t :: 0 <= j < 6 && 0 <= t < k ==> b[j * k + t] == l[j][t]
  {
    forall j, t | 0 <= j < 6 && 0 <= t < k
      ensures b[j * k + t] == l[j][t]
    {
      assert j == 0 || j == 1 || j == 2 || j == 3 || j == 4 || j == 5;
    }
  }

  lemma PairsAre(f: Found, s: seq<string>, t: seq<string>)
    requires |s| == |t| == 3
    ensures Pairs(f, s, t, 3) == AttributeLines(f, s[0]) + AttributeLines(f, t[0]) + AttributeLines(f, s[1]) +
                                 AttributeLines(f, t[1]) + AttributeLines(f, s[2]) + AttributeLines(f, t[2])
  {
    hide AttributeLines;
    assert Pairs(f, s, t, 1) == AttributeLines(f, s[0]) + AttributeLines(f, t[0]);
    assert Pairs(f, s, t, 2) == Pairs(f, s, t, 1) + AttributeLines(f, s[1]) + AttributeLines(f, t[1]);
  }

  lemma PairsRepeat(f: Found, r: Numbers)
    ensures var numbers := [Text(f.ssrc), Text(f.fid), r.r0, r.r2, r.r1, r.r3];
            var (p, k, b) := (Present(f), |Present(f)|, Pairs(f, Ssrcs(f, r), Fids(f, r), 3));
            && |b| == 6 * k
            && forall j, t :: 0 <= j < 6 && 0 <= t < k ==>
                 b[j * k + t] == "a=ssrc:" + numbers[j] + " " + p[t].0 + ":" + p[t].1
  {
    hide AttributeLines, Present, Pairs;
    var numbers := [Text(f.ssrc), Text(f.fid), r.r0, r.r2, r.r1, r.r3];
    forall j | 0 <= j < 6
      ensures |AttributeLines(f, numbers[j])| == |Present(f)|
    {
      LinesPresent(f, numbers[j]);
    }
    var l := seq(6, j requires 0 <= j < 6 => AttributeLines(f, numbers[j]));
    PairsAre(f, Ssrcs(f, r), Fids(f, r));
    SixJoined(l, |Present(f)|, Pairs(f, Ssrcs(f, r), Fids(f, r), 3));
    forall j, t | 0 <= j < 6 && 0 <= t < |Present(f)|
      ensures l[j][t] == "a=ssrc:" + numbers[j] + " " + Present(f)[t].0 + ":" + Present(f)[t].1
    {
      LinesPresent(f, numbers[j]);
    }
  }

  lemma Inside(j: int, t: int, k: int)
    requires 0 <= j < 6 && 0 <= t < k
    ensures 0 <= j * k + t < 6 * k
  {
    assert j == 0 || j == 1 || j == 2 || j == 3 || j == 4 || j == 5;
  }

  lemma BlockRepeats(f: Found, r: Numbers)
    ensures Repeats(Block(f, r), f, r)
  {
    hide Present, Pairs;
    var numbers := [Text(f.ssrc), Text(f.fid), r.r0, r.r2, r.r1, r.r3];
    var (p, k) := (Present(f), |Present(f)|);
    var c := Pairs(f, Ssrcs(f, r), Fids(f, r), 3);
    var g := GroupLines(Ssrcs(f, r), Fids(f, r));
    var b := Block(f, r);
    PairsRepeat(f, r);
    assert b == c + g && |c| == 6 * k;
    forall j, t | 0 <= j < 6 && 0 <= t < k
      ensures b[j * k + t] == "a=ssrc:" + numbers[j] + " " + p[t].0 + ":" + p[t].1
    {
      Inside(j, t, k);
      assert b[j * k + t] == c[j * k + t];
    }
    assert b[6 * k] == g[0] && b[6 * k + 1] == g[1] && b[6 * k + 2] == g[2] && b[6 * k + 3] == g[3];
  }

  // The whole function.

  predicate NoMedia(lines: seq<Line>) {
    forall s :: s in lines ==> Medium(s).None?
  }

  /** A first video section with one FID group: what is before it and behind it is unchanged; it keeps the
      lines of others, and the block is written at its end, with the attributes found for the group. */
  lemma GroupMunged(head: seq<Line>, video: Line, before: seq<Line>, group: Line, after: seq<Line>, rest: seq<Line>,
                    r: Numbers)
    requires (forall s :: s in head ==> Medium(s) != Some("video")) && Medium(video) == Some("video")
    requires NoMedia(before + [group] + after) && NoFid(before) && NoFid(after) && FidGroup(group).Some?
    requires rest != [] ==> Medium(rest[0]).Some?
    ensures var (x, y) := FidGroup(group).value;
            exists found: Found, b: seq<Line>, g: Found ::
              && found.ssrc == Some(x) && found.fid == Some(y)
              && Finds(before, "-1", NOTHING, g) && Finds(after, x, g, found) && Repeats(b, found, r)
              && Munged(head + [video] + (before + [group] + after) + rest, r) ==
                 Some(head + [video] + (Others(before, NOTHING) + Others(after, found)) + b + rest)
  {
    hide Medium, FidGroup, NoFid, Finds, Kept, After, Others, Repeats, Block, Munged;
    var (x, y) := FidGroup(group).value;
    var section := before + [group] + after;
    var lines := head + [video] + section + rest;
    Places(head, video, section, rest);
    assert section[|before|] == group;
    FilterAndInsert(lines, r);
    OneGroup(before, group, after);
    GroupFinds(before, group, after);
    var found := After(section, NOTHING);
    SameOwn(after, found, NOTHING.(ssrc := Some(x), fid := Some(y)));
    BlockRepeats(found, r);
  }

  lemma {:induction false} SameOwn(section: seq<Line>, f: Found, g: Found)
    requires f.ssrc == g.ssrc && f.fid == g.fid
    ensures Others(section, f) == Others(section, g)
  {
    if section != [] {
      SameOwn(section[1..], f, g);
    }
  }

  lemma Places(head: seq<Line>, video: Line, section: seq<Line>, rest: seq<Line>)
    requires (forall s :: s in head ==> Medium(s) != Some("video")) && Medium(video) == Some("video")
    requires NoMedia(section) && (rest != [] ==> Medium(rest[0]).Some?)
    ensures var lines := head + [video] + section + rest;
            && FirstVideo(lines) == |head| < |lines|
            && lines[..|head| + 1] == head + [video] && lines[|head| + 1..] == section + rest
            && NextMedia(section + rest) == |section|
            && (section + rest)[..|section|] == section && (section + rest)[|section|..] == rest
  {
    hide Medium, FirstVideo, NextMedia;
    VideoAt(head, video, section + rest);
    MediaAt(section, rest);
    assert head + [video] + section + rest == head + [video] + (section + rest);
  }

  lemma {:induction false} VideoAt(head: seq<Line>, video: Line, tail: seq<Line>)
    requires (forall s :: s in head ==> Medium(s) != Some("video")) && Medium(video) == Some("video")
    ensures FirstVideo(head + [video] + tail) == |head|
  {
    hide Medium;
    var lines := head + [video] + tail;
    assert lines[|head|] == video;
    if head != [] {
      assert head[0] in head && lines[1..] == head[1..] + [video] + tail;
      VideoAt(head[1..], video, tail);
    }
  }

  lemma {:induction false} MediaAt(section: seq<Line>, rest: seq<Line>)
    requires NoMedia(section) && (rest != [] ==> Medium(rest[0]).Some?)
    ensures NextMedia(section + rest) == |section|
  {
    hide Medium;
    var lines := section + rest;
    if section != [] {
      assert section[0] in section && lines[1..] == section[1..] + rest;
      MediaAt(section[1..], rest);
    } else {
      assert lines == rest;
    }
  }

  // Without a FID group.

  lemma {:induction false} LastJoin(a: seq<Line>, b: seq<Line>, ssrc: string, name: string)
    ensures LastValue(a + b, ssrc, name) == Else(LastValue(b, ssrc, name), LastValue(a, ssrc, name))
  {
    hide Attribute;
    if b == [] {
      assert a + b == a;
    } else {
      var n := |b| - 1;
      assert (a + b)[..|a| + n] == a + b[..n] && (a + b)[|a| + n] == b[n];
      LastJoin(a, b[..n], ssrc, name);
    }
  }

  lemma FindsJoin(a: seq<Line>, b: seq<Line>, ssrc: string, f: Found, g: Found, h: Found)
    requires Finds(a, ssrc, f, g) && Finds(b, ssrc, g, h)
    ensures Finds(a + b, ssrc, f, h)
  {
    hide LastValue;
    LastJoin(a, b, ssrc, "cname");
    LastJoin(a, b, ssrc, "msid");
    LastJoin(a, b, ssrc, "mslabel");
    LastJoin(a, b, ssrc, "label");
  }

  lemma FindsHead(s: Line, rest: seq<Line>, f: Found, h: Found)
    requires Finds(rest, Text(f.ssrc), Learn(f, s), h)
    ensures Finds([s] + rest, Text(f.ssrc), f, h)
  {
    hide Attribute, LastValue;
    FindsNothing(Text(f.ssrc), f);
    FindsOne([], s, Text(f.ssrc), f, f, Learn(f, s));
    assert [] + [s] == [s];
    FindsJoin([s], rest, Text(f.ssrc), f, Learn(f, s), h);
  }

  lemma FindsNothing(ssrc: string, f: Found)
    ensures Finds([], ssrc, f, f)
  {
  }

  /** The lines the first loop leaves when there is no FID group: behind the first video m-line, even in later
      sections, the empty ones and those that start with `a=ssrc:-1` go. */
  function FirstFilter(lines: seq<Line>, video: bool): seq<Line> {
    if lines == [] then []
    else
      var s := lines[0];
      var goes := video && Medium(s).None? && (s == [] || "a=ssrc:-1" <= s);
      (if goes then [] else [s]) + FirstFilter(lines[1..], video || Medium(s) == Some("video"))
  }

  lemma LearnNumbers(f: Found, s: Line)
    ensures Learn(f, s).ssrc == f.ssrc && Learn(f, s).fid == f.fid
  {
  }

  lemma {:induction false} FirstLoopPlain(lines: seq<Line>, video: bool, f: Found)
    requires f.ssrc.None? && f.fid.None? && NoFid(VideoLines(lines, video))
    ensures var r := Pass(lines, video, f, false);
            && r.kept == FirstFilter(lines, video) && r.tail == [] && r.found.ssrc.None? && r.found.fid.None?
            && Finds(VideoLines(lines, video), "-1", f, r.found)
  {
    hide Medium, FidGroup, Learn, LookAgain, Finds;
    if lines == [] {
      FindsNothing("-1", f);
    } else {
      var (s, rest) := (lines[0], lines[1..]);
      var now := video || Medium(s) == Some("video");
      assert lines == [s] + rest;
      VideoHead(s, rest, video);
      if video && Medium(s).None? {
        NoFidHead(s, VideoLines(rest, video));
        LearnNumbers(f, s);
        assert SSRC + "-1" == "a=ssrc:-1";
        FirstLoopPlain(rest, video, Learn(f, s));
        FindsHead(s, VideoLines(rest, video), f, Pass(rest, video, Learn(f, s), false).found);
      } else {
        FirstLoopPlain(rest, now, f);
      }
    }
  }

  function NonEmpty(lines: seq<Line>): seq<Line> {
    if lines == [] then [] else (if lines[0] == [] then [] else [lines[0]]) + NonEmpty(lines[1..])
  }

  /** The second loop behind the line whose number it took. */
  lemma {:induction false} SecondSection(section: seq<Line>, rest: seq<Line>, f: Found)
    requires NoMedia(section) && f.ssrc.Some? && (rest != [] ==> Medium(rest[0]).Some?)
    ensures var r := Pass(section + rest, true, f, true);
            && r.kept == Others(section, f) && r.tail == rest
            && r.found.ssrc == f.ssrc && r.found.fid == f.fid && Finds(section, f.ssrc.value, f, r.found)
  {
    hide Medium, Learn, Look, Finds;
    var lines := section + rest;
    if section == [] {
      assert lines == rest;
      FindsNothing(f.ssrc.value, f);
    } else {
      var (s, more) := (section[0], section[1..]);
      assert s in section && lines[1..] == more + rest && section == [s] + more;
      LearnNumbers(f, s);
      var g := Learn(f, s);
      SecondSection(more, rest, g);
      SameOwn(more, g, f);
      FindsHead(s, more, f, Pass(more + rest, true, g, true).found);
      assert lines[0] == s;
    }
  }

  lemma {:induction false} SecondBefore(before: seq<Line>, first: Line, tail: seq<Line>, f: Found)
    requires NoMedia(before + [first]) && NoSsrc(before) && SsrcValue(first).Some? && f.ssrc.None?
    ensures var r := Pass(tail, true, f.(ssrc := SsrcValue(first)), true);
            Pass(before + [first] + tail, true, f, true) == Passed(NonEmpty(before) + r.kept, r.found, r.tail)
  {
    hide Medium, SsrcValue, Learn, Look;
    var lines := before + [first] + tail;
    if before == [] {
      assert first in [] + [first] && lines[0] == first && lines[1..] == tail;
    } else {
      var (s, more) := (before[0], before[1..]);
      assert lines[0] == s && lines[1..] == more + [first] + tail && before == [s] + more;
      assert s in before + [first] && before + [first] == [s] + (more + [first]);
      SecondBefore(more, first, tail, f);
    }
  }

  lemma {:induction false} SecondHead(head: seq<Line>, video: Line, tail: seq<Line>, f: Found)
    requires (forall s :: s in head ==> Medium(s) != Some("video")) && Medium(video) == Some("video") && f.ssrc.None?
    ensures var r := Pass(tail, true, f, true);
            Pass(head + [video] + tail, false, f, true) == Passed(head + [video] + r.kept, r.found, r.tail)
  {
    hide Medium, Learn, Look, LookAgain;
    var lines := head + [video] + tail;
    if head == [] {
      assert lines[0] == video && lines[1..] == tail;
    } else {
      assert head[0] in head && lines[0] == head[0] && lines[1..] == head[1..] + [video] + tail;
      SecondHead(head[1..], video, tail, f);
      assert head == [head[0]] + head[1..];
    }
  }

  /** Without a FID group: in the lines the first loop leaves, the number of the first line that has one is
      taken, and that line goes, its own attributes unread; each attribute is that of the last line behind it
      in the section that has it for this number, or else what the first loop found for -1. */
  lemma NoGroupMunged(lines: seq<Line>, head: seq<Line>, video: Line, before: seq<Line>, first: Line, after: seq<Line>,
                      rest: seq<Line>, r: Numbers)
    requires NoFid(VideoLines(lines, false))
    requires FirstFilter(lines, false) == head + [video] + (before + [first] + (after + rest))
    requires (forall s :: s in head ==> Medium(s) != Some("video")) && Medium(video) == Some("video")
    requires NoMedia(before + [first]) && NoMedia(after) && NoSsrc(before) && SsrcValue(first).Some?
    requires rest != [] ==> Medium(rest[0]).Some?
    ensures exists found: Found, b: seq<Line>, g: Found ::
              && found.ssrc == SsrcValue(first) && found.fid == None
              && Finds(VideoLines(lines, false), "-1", NOTHING, g)
              && Finds(after, SsrcValue(first).value, g, found) && Repeats(b, found, r)
              && Munged(lines, r) == Some(head + [video] + (NonEmpty(before) + Others(after, found)) + b + rest)
  {
    hide Medium, SsrcValue, VideoLines, NoFid, NoSsrc, NoMedia, Finds, Others, Repeats, Block, FirstFilter, NonEmpty, Pass;
    FirstLoopPlain(lines, false, NOTHING);
    var p := Pass(lines, false, NOTHING, false);
    var g := p.found;
    var x := SsrcValue(first);
    assert p.kept + p.tail == FirstFilter(lines, false);
    SecondHead(head, video, before + [first] + (after + rest), g);
    SecondBefore(before, first, after + rest, g);
    var f := g.(ssrc := x);
    SecondSection(after, rest, f);
    var found := Pass(after + rest, true, f, true).found;
    SameFinds(after, x.value, f, g, found);
    SameOwn(after, f, found);
    BlockRepeats(found, r);
    assert head + [video] + (NonEmpty(before) + Others(after, found)) ==
      head + [video] + NonEmpty(before) + Others(after, found);
  }
}
