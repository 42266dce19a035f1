/** mungeSdpForSimulcasting of janus/assets/janus.js on the lines of an SDP. */
module Sdp {
  import opened Options

  type Line = string

  // The regular expressions, none of them anchored.

  predicate IsDigit(c: char) {
    '0' <= c <= '9'
  }

  predicate IsWord(c: char) {
    IsDigit(c) || 'a' <= c <= 'z' || 'A' <= c <= 'Z' || c == '_'
  }

  /** What `.` matches. */
  predicate IsDot(c: char) {
    c != '\n' && c != '\r' && c != '\U{2028}' && c != '\U{2029}'
  }

  /** The longest prefix of characters of a class. */
  function Leading(s: string, inClass: char -> bool): (r: string)
    ensures |r| <= |s|
  {
    if s == [] || !inClass(s[0]) then [] else [s[0]] + Leading(s[1..], inClass)
  }

  lemma {:induction false} LeadingWhole(s: string, inClass: char -> bool, rest: string)
    requires forall i :: 0 <= i < |s| ==> inClass(s[i])
    requires rest != [] ==> !inClass(rest[0])
    ensures Leading(s + rest, inClass) == s
  {
    if s == [] {
      assert s + rest == rest;
    } else {
      assert (s + rest)[1..] == s[1..] + rest;
      LeadingWhole(s[1..], inClass, rest);
    }
  }

  /** The text of the leftmost match of `p` and one or more characters of a class. */
  function Behind(s: Line, p: string, inClass: char -> bool): Option<string> {
    if s == [] then None
    else if p <= s && Leading(s[|p|..], inClass) != [] then Some(Leading(s[|p|..], inClass))
    else Behind(s[1..], p, inClass)
  }

  /** The word of the leftmost match of `m=(\w+)`. */
  function Medium(s: Line): Option<string> {
    Behind(s, "m=", IsWord)
  }

  const FID := "a=ssrc-group:FID "

  /** The two numbers of the leftmost match of `a=ssrc-group:FID (\d+) (\d+)`. */
  function FidGroup(s: Line): Option<(string, string)> {
    if s == [] then None
    else
      var x := if FID <= s then Leading(s[|FID|..], IsDigit) else [];
      var rest := if FID <= s then s[|FID| + |x|..] else [];
      var y := if " " <= rest then Leading(rest[1..], IsDigit) else [];
      if x != [] && y != [] then Some((x, y)) else FidGroup(s[1..])
  }

  const SSRC := "a=ssrc:"

  /** The number of the leftmost match of `a=ssrc:(\d+)`. */
  function SsrcValue(s: Line): Option<string> {
    Behind(s, SSRC, IsDigit)
  }

  /** The text of the leftmost match of `a=ssrc:<ssrc> <name>:(.+)`. */
  function Attribute(s: Line, ssrc: string, name: string): Option<string> {
    Behind(s, SSRC + ssrc + " " + name + ":", IsDot)
  }

  // What the loops look for.

  /** `ssrc[0]`, `ssrc_fid[0]` (None stands for -1) and the four attributes. */
  datatype Found = Found(
    ssrc: Option<string>, fid: Option<string>,
    cname: Option<string>, msid: Option<string>, mslabel: Option<string>, labelText: Option<string>)

  const NOTHING := Found(None, None, None, None, None, None)

  function Text(number: Option<string>): string {
    if number.Some? then number.value else "-1"
  }

  function Else(a: Option<string>, b: Option<string>): Option<string> {
    if a.Some? then a else b
  }

  /** The attributes of a line are taken over, whether it is removed or not. */
  function Learn(f: Found, s: Line): Found {
    var x := Text(f.ssrc);
    f.(cname := Else(Attribute(s, x, "cname"), f.cname), msid := Else(Attribute(s, x, "msid"), f.msid),
       mslabel := Else(Attribute(s, x, "mslabel"), f.mslabel), labelText := Else(Attribute(s, x, "label"), f.labelText))
  }

  /** The line starts with `a=ssrc:` and one of the two numbers, as text. */
  predicate Own(f: Found, s: Line) {
    SSRC + Text(f.fid) <= s || SSRC + Text(f.ssrc) <= s
  }

  /** A line of the video section in the first loop: what is known after it, and whether it stays. */
  function Look(f: Found, s: Line): (Found, bool) {
    match FidGroup(s)
    case Some((x, y)) => (f.(ssrc := Some(x), fid := Some(y)), false)
    case None => (Learn(f, s), !Own(f, s) && s != [])
  }

  /** The same in the second loop, which takes the first SSRC there is. */
  function LookAgain(f: Found, s: Line): (Found, bool) {
    if f.ssrc.None? then
      match SsrcValue(s)
      case Some(x) => (f.(ssrc := Some(x)), false)
      case None => (f, s != [])
    else (Learn(f, s), !Own(f, s) && s != [])
  }

  function LookIn(f: Found, s: Line, again: bool): (Found, bool) {
    if again then LookAgain(f, s) else Look(f, s)
  }

  /** The lines in front of the place for the new ones, those behind it, and what was found. */
  datatype Passed = Passed(kept: seq<Line>, found: Found, tail: seq<Line>)

  function Prepend(s: Line, keep: bool, r: Passed): Passed {
    if keep then r.(kept := [s] + r.kept) else r
  }

  /** One loop: it ends at the first m-line after an SSRC was found. */
  function Pass(lines: seq<Line>, video: bool, f: Found, again: bool): Passed {
    if lines == [] then Passed([], f, [])
    else match Medium(lines[0])
      case Some(medium) =>
        if f.ssrc.Some? then Passed([], f, lines)
        else Prepend(lines[0], true, Pass(lines[1..], video || medium == "video", f, again))
      case None =>
        if !video then Prepend(lines[0], true, Pass(lines[1..], video, f, again))
        else
          var (g, keep) := LookIn(f, lines[0], again);
          Prepend(lines[0], keep, Pass(lines[1..], video, g, again))
  }

  // What is inserted.

  function AttributeLine(ssrc: string, name: string, value: Option<string>): (r: seq<Line>)
    ensures |r| == if value.Some? then 1 else 0
  {
    if value.Some? then [SSRC + ssrc + " " + name + ":" + value.value] else []
  }

  function AttributeLines(f: Found, ssrc: string): seq<Line> {
    AttributeLine(ssrc, "cname", f.cname) + AttributeLine(ssrc, "msid", f.msid) +
    AttributeLine(ssrc, "mslabel", f.mslabel) + AttributeLine(ssrc, "label", f.labelText)
  }

  /** The three SSRCs and the three retransmission SSRCs; `r` are the four random numbers. */
  datatype Numbers = Numbers(r0: string, r1: string, r2: string, r3: string)

  function Ssrcs(f: Found, r: Numbers): (s: seq<string>)
    ensures |s| == 3
  {
    [Text(f.ssrc), r.r0, r.r1]
  }

  function Fids(f: Found, r: Numbers): (s: seq<string>)
    ensures |s| == 3
  {
    [Text(f.fid), r.r2, r.r3]
  }

  function Pairs(f: Found, ssrcs: seq<string>, fids: seq<string>, n: nat): seq<Line>
    requires n <= |ssrcs| && n <= |fids|
  {
    if n == 0 then []
    else Pairs(f, ssrcs, fids, n - 1) + AttributeLines(f, ssrcs[n - 1]) + AttributeLines(f, fids[n - 1])
  }

  function SimLine(s: seq<string>): Line
    requires |s| == 3
  {
    "a=ssrc-group:SIM " + s[0] + " " + s[1] + " " + s[2]
  }

  function FidLine(ssrc: string, fid: string): Line {
    FID + ssrc + " " + fid
  }

  function GroupLines(s: seq<string>, t: seq<string>): (r: seq<Line>)
    requires |s| == 3 && |t| == 3
    ensures |r| == 4
  {
    [SimLine(s), FidLine(s[0], t[0]), FidLine(s[1], t[1]), FidLine(s[2], t[2])]
  }

  function Block(f: Found, r: Numbers): seq<Line> {
    Pairs(f, Ssrcs(f, r), Fids(f, r), 3) + GroupLines(Ssrcs(f, r), Fids(f, r))
  }

  /** The whole function on lines; None when the SDP is returned as it was. */
  function Munged(lines: seq<Line>, r: Numbers): Option<seq<Line>> {
    var p := Pass(lines, false, NOTHING, false);
    var q := if p.found.ssrc.Some? then p else Pass(p.kept + p.tail, false, p.found, true);
    if q.found.ssrc.None? then None else Some(q.kept + Block(q.found, r) + q.tail)
  }

  // The code.

  /** lines.splice(i, 1) */
  function Cut(lines: seq<Line>, i: nat): seq<Line>
    requires i < |lines|
  {
    lines[..i] + lines[i + 1..]
  }

  /** lines.splice(at, 0, s) */
  function Put(lines: seq<Line>, at: nat, s: Line): seq<Line>
    requires at <= |lines|
  {
    lines[..at] + [s] + lines[at..]
  }

  /** What is left of the array in the middle of a loop. */
  predicate Midway(lines: seq<Line>, i: int, video: bool, f: Found, again: bool, goal: Passed) {
    && 0 <= i <= |lines|
    && var r := Pass(lines[i..], video, f, again);
       Passed(lines[..i] + r.kept, r.found, r.tail) == goal
  }

  lemma Keeps(lines: seq<Line>, i: nat, video: bool, f: Found, again: bool, goal: Passed, now: bool, g: Found)
    requires i < |lines| && Midway(lines, i, video, f, again, goal)
    requires Pass(lines[i..], video, f, again) == Prepend(lines[i], true, Pass(lines[i + 1..], now, g, again))
    ensures Midway(lines, i + 1, now, g, again, goal)
  {
    assert lines[..i + 1] == lines[..i] + [lines[i]];
  }

  lemma Drops(lines: seq<Line>, i: nat, video: bool, f: Found, again: bool, goal: Passed, now: bool, g: Found)
    requires i < |lines| && Midway(lines, i, video, f, again, goal)
    requires Pass(lines[i..], video, f, again) == Prepend(lines[i], false, Pass(lines[i + 1..], now, g, again))
    ensures Midway(Cut(lines, i), i, now, g, again, goal)
  {
    assert Cut(lines, i)[..i] == lines[..i] && Cut(lines, i)[i..] == lines[i + 1..];
  }

  lemma Unfold(lines: seq<Line>, i: nat, video: bool, f: Found, again: bool)
    requires i < |lines|
    ensures lines[i..][0] == lines[i] && lines[i..][1..] == lines[i + 1..]
    ensures Pass(lines[i..], video, f, again) ==
            match Medium(lines[i])
            case Some(medium) =>
              if f.ssrc.Some? then Passed([], f, lines[i..])
              else Prepend(lines[i], true, Pass(lines[i + 1..], video || medium == "video", f, again))
            case None =>
              if !video then Prepend(lines[i], true, Pass(lines[i + 1..], video, f, again))
              else Prepend(lines[i], LookIn(f, lines[i], again).1,
                           Pass(lines[i + 1..], video, LookIn(f, lines[i], again).0, again))
  {
  }

  /** The body of a loop for one line of the video section. */
  method LookAt(f: Found, s: Line, again: bool) returns (g: Found, remove: bool)
    ensures g == LookIn(f, s, again).0 && remove == !LookIn(f, s, again).1
  {
    g := f;
    if !again {
      var group := FidGroup(s);
      if group.Some? {
        return f.(ssrc := Some(group.value.0), fid := Some(group.value.1)), true;
      }
    } else if f.ssrc.None? {
      var value := SsrcValue(s);
      if value.Some? {
        return f.(ssrc := value), true;
      }
      return f, s == [];
    }
    var x := Text(f.ssrc);
    var value := Attribute(s, x, "cname");
    if value.Some? {
      g := g.(cname := value);
    }
    value := Attribute(s, x, "msid");
    if value.Some? {
      g := g.(msid := value);
    }
    value := Attribute(s, x, "mslabel");
    if value.Some? {
      g := g.(mslabel := value);
    }
    value := Attribute(s, x, "label");
    if value.Some? {
      g := g.(labelText := value);
    }
    remove := SSRC + Text(f.fid) <= s || SSRC + x <= s || s == [];
  }

  /** One of the two loops over the array, removing lines as it goes; `insertAt` is -1 if it ran to the end. */
  method Loop(input: seq<Line>, start: Found, again: bool) returns (lines: seq<Line>, f: Found, insertAt: int)
    ensures var r := Pass(input, false, start, again);
            && lines == r.kept + r.tail && f == r.found
            && (if insertAt < 0 then r.tail == [] else insertAt == |r.kept|)
  {
    lines, f, insertAt := input, start, -1;
    var video := false;
    var i := 0;
    ghost var goal := Pass(input, false, start, again);
    assert input[0..] == input && [] + goal.kept == goal.kept;
    while i < |lines|
      invariant Midway(lines, i, video, f, again, goal)
      decreases |lines| - i
    {
      Unfold(lines, i, video, f, again);
      var medium := Medium(lines[i]);
      if medium.Some? {
        if f.ssrc.Some? {
          insertAt := i;
          assert lines == lines[..i] + lines[i..];
          return;
        }
        Keeps(lines, i, video, f, again, goal, video || medium.value == "video", f);
        if medium.value == "video" {
          video := true;
        }
        i := i + 1;
      } else if !video {
        Keeps(lines, i, video, f, again, goal, video, f);
        i := i + 1;
      } else {
        var g, remove := LookAt(f, lines[i], again);
        if remove {
          Drops(lines, i, video, f, again, goal, video, g);
          lines := Cut(lines, i);
        } else {
          Keeps(lines, i, video, f, again, goal, video, g);
          i := i + 1;
        }
        f := g;
      }
    }
    assert lines[..i] == lines;
  }

  lemma PutAfter(before: seq<Line>, done: seq<Line>, after: seq<Line>, s: Line)
    ensures Put(before + done + after, |before| + |done|, s) == before + (done + [s]) + after
  {
  }

  /** The array with some lines inserted, and the place behind them. */
  predicate Inserted(lines: seq<Line>, at: int, before: seq<Line>, done: seq<Line>, after: seq<Line>) {
    lines == before + done + after && at == |before| + |done|
  }

  /** One optional line at `at`. */
  method PutAttribute(lines: seq<Line>, at: nat, ssrc: string, name: string, value: Option<string>,
                      ghost before: seq<Line>, ghost done: seq<Line>, ghost after: seq<Line>)
    returns (more: seq<Line>, next: nat)
    requires Inserted(lines, at, before, done, after)
    ensures Inserted(more, next, before, done + AttributeLine(ssrc, name, value), after)
  {
    more, next := lines, at;
    if value.Some? {
      PutAfter(before, done, after, SSRC + ssrc + " " + name + ":" + value.value);
      more := Put(lines, at, SSRC + ssrc + " " + name + ":" + value.value);
      next := at + 1;
    } else {
      assert done + [] == done;
    }
  }

  method PutAttributes(lines: seq<Line>, at: nat, f: Found, ssrc: string,
                       ghost before: seq<Line>, ghost done: seq<Line>, ghost after: seq<Line>)
    returns (more: seq<Line>, next: nat)
    requires Inserted(lines, at, before, done, after)
    ensures Inserted(more, next, before, done + AttributeLines(f, ssrc), after)
  {
    ghost var a := AttributeLine(ssrc, "cname", f.cname);
    ghost var b := AttributeLine(ssrc, "msid", f.msid);
    ghost var c := AttributeLine(ssrc, "mslabel", f.mslabel);
    ghost var d := AttributeLine(ssrc, "label", f.labelText);
    more, next := PutAttribute(lines, at, ssrc, "cname", f.cname, before, done, after);
    more, next := PutAttribute(more, next, ssrc, "msid", f.msid, before, done + a, after);
    more, next := PutAttribute(more, next, ssrc, "mslabel", f.mslabel, before, done + a + b, after);
    more, next := PutAttribute(more, next, ssrc, "label", f.labelText, before, done + a + b + c, after);
    assert done + a + b + c + d == done + (a + b + c + d);
  }

  /** The four group lines, last one first. */
  method PutGroups(input: seq<Line>, at: nat, ssrcs: seq<string>, fids: seq<string>) returns (lines: seq<Line>)
    requires at <= |input| && |ssrcs| == |fids| == 3
    ensures lines == input[..at] + GroupLines(ssrcs, fids) + input[at..]
  {
    ghost var before, after := input[..at], input[at..];
    ghost var c, b, a := [FidLine(ssrcs[2], fids[2])], [FidLine(ssrcs[1], fids[1])], [FidLine(ssrcs[0], fids[0])];
    lines := Put(input, at, FidLine(ssrcs[2], fids[2]));
    PutFront(before, c, after, FidLine(ssrcs[1], fids[1]));
    lines := Put(lines, at, FidLine(ssrcs[1], fids[1]));
    PutFront(before, b + c, after, FidLine(ssrcs[0], fids[0]));
    lines := Put(lines, at, FidLine(ssrcs[0], fids[0]));
    PutFront(before, a + (b + c), after, SimLine(ssrcs));
    lines := Put(lines, at, SimLine(ssrcs));
    assert GroupLines(ssrcs, fids) == [SimLine(ssrcs)] + (a + (b + c));
  }

  lemma PutFront(before: seq<Line>, done: seq<Line>, after: seq<Line>, s: Line)
    ensures Put(before + done + after, |before|, s) == before + ([s] + done) + after
  {
  }

  /** The insertions at the end of the function. */
  method PutBlock(input: seq<Line>, at: nat, f: Found, r: Numbers) returns (lines: seq<Line>)
    requires at <= |input|
    ensures lines == input[..at] + Block(f, r) + input[at..]
  {
    var ssrcs, fids := Ssrcs(f, r), Fids(f, r);
    lines := input;
    var insertAt := at;
    var i := 0;
    ghost var before, done, after := input[..at], [], input[at..];
    assert input == before + done + after;
    while i < 3
      invariant 0 <= i <= 3 && done == Pairs(f, ssrcs, fids, i)
      invariant Inserted(lines, insertAt, before, done, after)
    {
      lines, insertAt := PutAttributes(lines, insertAt, f, ssrcs[i], before, done, after);
      lines, insertAt := PutAttributes(lines, insertAt, f, fids[i], before, done + AttributeLines(f, ssrcs[i]), after);
      i := i + 1;
      done := Pairs(f, ssrcs, fids, i);
    }
    Halves(before, done, after, GroupLines(ssrcs, fids));
    lines := PutGroups(lines, insertAt, ssrcs, fids);
  }

  lemma Halves(before: seq<Line>, done: seq<Line>, after: seq<Line>, more: seq<Line>)
    ensures var lines := before + done + after;
            var at := |before| + |done|;
            lines[..at] + more + lines[at..] == before + (done + more) + after
  {
    var lines := before + done + after;
    assert lines[..|before| + |done|] == before + done && lines[|before| + |done|..] == after;
  }

  /** mungeSdpForSimulcasting between the split and the join. */
  method Munge(input: seq<Line>, r: Numbers) returns (result: Option<seq<Line>>)
    ensures result == Munged(input, r)
  {
    var lines, f, insertAt := Loop(input, NOTHING, false);
    if f.ssrc.None? {
      lines, f, insertAt := Loop(lines, f, true);
    }
    if f.ssrc.None? {
      return None;
    }
    if insertAt < 0 {
      insertAt := |lines|;
    }
    lines := PutBlock(lines, insertAt, f, r);
    return Some(lines);
  }

  // What the result is, when the first video section has a FID group.

  function FirstVideo(lines: seq<Line>): (i: nat)
    ensures i <= |lines|
    ensures forall j :: 0 <= j < i ==> Medium(lines[j]) != Some("video")
    ensures i < |lines| ==> Medium(lines[i]) == Some("video")
  {
    if lines == [] || Medium(lines[0]) == Some("video") then 0 else 1 + FirstVideo(lines[1..])
  }

  /** The next m-line of any kind. */
  function NextMedia(lines: seq<Line>): (i: nat)
    ensures i <= |lines|
    ensures forall j :: 0 <= j < i ==> Medium(lines[j]).None?
    ensures i < |lines| ==> Medium(lines[i]).Some?
  {
    if lines == [] || Medium(lines[0]).Some? then 0 else 1 + NextMedia(lines[1..])
  }

  /** The lines of a section that stay, and what is known after it. */
  function Kept(section: seq<Line>, f: Found): seq<Line> {
    if section == [] then []
    else (if Look(f, section[0]).1 then [section[0]] else []) + Kept(section[1..], Look(f, section[0]).0)
  }

  function After(section: seq<Line>, f: Found): Found {
    if section == [] then f else After(section[1..], Look(f, section[0]).0)
  }

  predicate HasFid(section: seq<Line>) {
    exists i :: 0 <= i < |section| && FidGroup(section[i]).Some?
  }

  lemma {:induction false} FoundIff(section: seq<Line>, f: Found)
    ensures After(section, f).ssrc.Some? <==> f.ssrc.Some? || HasFid(section)
  {
    if section != [] {
      FoundIff(section[1..], Look(f, section[0]).0);
      if HasFid(section[1..]) {
        var i :| 0 <= i < |section| - 1 && FidGroup(section[1..][i]).Some?;
        assert FidGroup(section[i + 1]).Some?;
      }
      if HasFid(section) && FidGroup(section[0]).None? {
        var i :| 0 <= i < |section| && FidGroup(section[i]).Some?;
        assert FidGroup(section[1..][i - 1]).Some?;
      }
    }
  }

  lemma {:induction false} PassSection(lines: seq<Line>, f: Found)
    requires var b := NextMedia(lines); After(lines[..b], f).ssrc.Some?
    ensures var b := NextMedia(lines);
            Pass(lines, true, f, false) == Passed(Kept(lines[..b], f), After(lines[..b], f), lines[b..])
  {
    hide Look, Medium;
    var b := NextMedia(lines);
    if b > 0 {
      assert lines[..b][1..] == lines[1..][..b - 1] && lines[1..][b - 1..] == lines[b..];
      PassSection(lines[1..], Look(f, lines[0]).0);
    } else if lines != [] {
      assert lines[..0] == [] && lines[0..] == lines;
    }
  }

  lemma {:induction false} PassBefore(lines: seq<Line>)
    requires FirstVideo(lines) < |lines|
    ensures var a := FirstVideo(lines);
            var r := Pass(lines[a + 1..], true, NOTHING, false);
            Pass(lines, false, NOTHING, false) == Passed(lines[..a + 1] + r.kept, r.found, r.tail)
  {
    hide Medium, Look, LookAgain;
    var a := FirstVideo(lines);
    if a > 0 {
      PassBefore(lines[1..]);
      assert lines[1..][a..] == lines[a + 1..];
      assert lines[..a + 1] == [lines[0]] + lines[1..][..a];
    } else {
      assert lines[..1] == [lines[0]];
    }
  }

  /** The in-place edits are a filter of the first video section and one insertion behind it: what comes
      before the section and from the next m-line on is unchanged. */
  lemma {:induction false} FilterAndInsert(lines: seq<Line>, r: Numbers)
    requires FirstVideo(lines) < |lines|
    requires var a := FirstVideo(lines) + 1; HasFid(lines[a..][..NextMedia(lines[a..])])
    ensures var a := FirstVideo(lines) + 1;
            var b := NextMedia(lines[a..]);
            var section := lines[a..][..b];
            Munged(lines, r) ==
            Some(lines[..a] + Kept(section, NOTHING) + Block(After(section, NOTHING), r) + lines[a..][b..])
  {
    var a := FirstVideo(lines) + 1;
    var b := NextMedia(lines[a..]);
    hide Kept, After, Block, HasFid, Pass;
    FoundIff(lines[a..][..b], NOTHING);
    PassBefore(lines);
    PassSection(lines[a..], NOTHING);
  }

  // Which lines of the section stay.

  /** Neither empty nor an `a=ssrc:` line nor a FID group: nothing the edits are about. */
  predicate Foreign(s: Line) {
    s != [] && !(SSRC <= s) && FidGroup(s).None?
  }

  function ForeignLines(section: seq<Line>): seq<Line> {
    if section == [] then [] else (if Foreign(section[0]) then [section[0]] else []) + ForeignLines(section[1..])
  }

  lemma LookForeign(f: Found, s: Line)
    ensures Foreign(s) ==> Look(f, s).1
    ensures Look(f, s).1 ==> s != [] && FidGroup(s).None?
  {
    if Foreign(s) {
      PrefixOf(SSRC, Text(f.fid), s);
      PrefixOf(SSRC, Text(f.ssrc), s);
    }
  }

  lemma {:induction false} ForeignHead(s: Line, rest: seq<Line>)
    ensures ForeignLines([s] + rest) == (if Foreign(s) then [s] else []) + ForeignLines(rest)
  {
    hide Foreign;
    assert ([s] + rest)[1..] == rest;
  }

  /** Every other line stays, in order; and nothing is added. */
  lemma {:induction false} ForeignStay(section: seq<Line>, f: Found)
    ensures ForeignLines(Kept(section, f)) == ForeignLines(section)
    ensures forall s :: s in Kept(section, f) ==> s in section && s != [] && FidGroup(s).None?
    ensures |Kept(section, f)| <= |section|
  {
    hide Look, Foreign, FidGroup;
    if section != [] {
      var s := section[0];
      var g := Look(f, s).0;
      ForeignStay(section[1..], g);
      LookForeign(f, s);
      var rest := Kept(section[1..], g);
      ForeignHead(s, rest);
      assert Kept(section, f) == if Look(f, s).1 then [s] + rest else rest;
    }
  }

  lemma PrefixOf(p: string, q: string, s: string)
    ensures p + q <= s ==> p <= s
  {
    if p + q <= s {
      assert s[..|p|] == (p + q)[..|p|] == p;
    }
  }

  /** The lines that stay while the two numbers are those of `f`. */
  function Others(section: seq<Line>, f: Found): seq<Line> {
    if section == [] then []
    else (if section[0] != [] && !Own(f, section[0]) then [section[0]] else []) + Others(section[1..], f)
  }

  predicate NoFid(section: seq<Line>) {
    forall s :: s in section ==> FidGroup(s).None?
  }

  lemma {:induction false} KeptPlain(section: seq<Line>, f: Found, g: Found)
    requires NoFid(section) && f.ssrc == g.ssrc && f.fid == g.fid
    ensures Kept(section, f) == Others(section, g)
    ensures After(section, f).ssrc == f.ssrc && After(section, f).fid == f.fid
  {
    if section != [] {
      assert section[0] in section && NoFid(section[1..]);
      KeptPlain(section[1..], Look(f, section[0]).0, g);
    }
  }

  lemma {:induction false} KeptJoin(a: seq<Line>, b: seq<Line>, f: Found)
    ensures Kept(a + b, f) == Kept(a, f) + Kept(b, After(a, f))
    ensures After(a + b, f) == After(b, After(a, f))
  {
    hide Look;
    if a == [] {
      assert a + b == b;
    } else {
      assert (a + b)[1..] == a[1..] + b;
      KeptJoin(a[1..], b, Look(f, a[0]).0);
    }
  }

  /** With one FID group in the section: behind it all lines stay but the empty ones and those that start
      with one of its two numbers; before it, but the empty ones and those with -1. */
  lemma {:induction false} OneGroup(before: seq<Line>, group: Line, after: seq<Line>)
    requires NoFid(before) && NoFid(after) && FidGroup(group).Some?
    ensures var (x, y) := FidGroup(group).value;
            var f := NOTHING.(ssrc := Some(x), fid := Some(y));
            && Kept(before + [group] + after, NOTHING) == Others(before, NOTHING) + Others(after, f)
            && After(before + [group] + after, NOTHING).ssrc == Some(x)
            && After(before + [group] + after, NOTHING).fid == Some(y)
  {
    hide Look, FidGroup, Others, Own, NoFid, Kept, After;
    var (x, y) := FidGroup(group).value;
    var f := NOTHING.(ssrc := Some(x), fid := Some(y));
    var g := After(before, NOTHING);
    KeptJoin(before + [group], after, NOTHING);
    KeptJoin(before, [group], NOTHING);
    KeptPlain(before, NOTHING, NOTHING);
    GroupAlone(group, g);
    KeptPlain(after, After([group], g), f);
  }

  lemma {:induction false} GroupAlone(group: Line, g: Found)
    requires FidGroup(group).Some?
    ensures Kept([group], g) == []
    ensures After([group], g).ssrc == Some(FidGroup(group).value.0)
    ensures After([group], g).fid == Some(FidGroup(group).value.1)
  {
    hide FidGroup;
    assert [group][1..] == [];
  }

  // What is inserted.

  function Count(f: Found): nat {
    (if f.cname.Some? then 1 else 0) + (if f.msid.Some? then 1 else 0) +
    (if f.mslabel.Some? then 1 else 0) + (if f.labelText.Some? then 1 else 0)
  }

  lemma AttributeLinesSize(f: Found, ssrc: string)
    ensures |AttributeLines(f, ssrc)| == Count(f)
  {
  }

  lemma {:induction false} PairsSize(f: Found, s: seq<string>, t: seq<string>)
    requires |s| == |t| == 3
    ensures |Pairs(f, s, t, 3)| == 6 * Count(f)
  {
    hide AttributeLines, Count;
    AttributeLinesSize(f, s[0]);
    AttributeLinesSize(f, t[0]);
    AttributeLinesSize(f, s[1]);
    AttributeLinesSize(f, t[1]);
    AttributeLinesSize(f, s[2]);
    AttributeLinesSize(f, t[2]);
    assert |Pairs(f, s, t, 1)| == 2 * Count(f);
    assert |Pairs(f, s, t, 2)| == 4 * Count(f);
  }

  /** The block has 6k + 4 lines for k attributes, the last four being the SIM group and three FID groups. */
  lemma {:induction false} BlockShape(f: Found, r: Numbers)
    ensures var b := Block(f, r);
            && |b| == 6 * Count(f) + 4
            && b[|b| - 4] == SimLine(Ssrcs(f, r))
            && b[|b| - 3] == FidLine(Text(f.ssrc), Text(f.fid))
            && b[|b| - 2] == FidLine(r.r0, r.r2)
            && b[|b| - 1] == FidLine(r.r1, r.r3)
  {
    hide Pairs, Count;
    PairsSize(f, Ssrcs(f, r), Fids(f, r));
  }

  // Without a FID group.

  /** The lines other than m-lines behind the first video m-line; a later m-line does not end them. */
  function VideoLines(lines: seq<Line>, video: bool): seq<Line> {
    if lines == [] then []
    else if Medium(lines[0]).Some? then VideoLines(lines[1..], video || Medium(lines[0]) == Some("video"))
    else if video then [lines[0]] + VideoLines(lines[1..], video)
    else VideoLines(lines[1..], video)
  }

  /** The lines the first loop leaves while it has found nothing. */
  function Unmarked(lines: seq<Line>): seq<Line> {
    if lines == [] then []
    else if lines[0] != [] && !(SSRC + "-1" <= lines[0]) then [lines[0]] + Unmarked(lines[1..])
    else Unmarked(lines[1..])
  }

  predicate NoSsrc(lines: seq<Line>) {
    forall s :: s in lines ==> SsrcValue(s).None?
  }

  lemma {:induction false} NoFidHead(s: Line, rest: seq<Line>)
    ensures NoFid([s] + rest) <==> FidGroup(s).None? && NoFid(rest)
    ensures NoSsrc([s] + rest) <==> SsrcValue(s).None? && NoSsrc(rest)
  {
    assert forall x :: x in [s] + rest <==> x == s || x in rest;
  }

  lemma {:induction false} VideoHead(s: Line, rest: seq<Line>, video: bool)
    ensures VideoLines([s] + rest, video) ==
            if Medium(s).Some? then VideoLines(rest, video || Medium(s) == Some("video"))
            else if video then [s] + VideoLines(rest, video)
            else VideoLines(rest, video)
  {
    assert ([s] + rest)[1..] == rest;
  }

  lemma {:induction false} UnmarkedHead(s: Line, rest: seq<Line>)
    ensures Unmarked([s] + rest) == if s != [] && !(SSRC + "-1" <= s) then [s] + Unmarked(rest) else Unmarked(rest)
  {
    assert ([s] + rest)[1..] == rest;
  }

  lemma LookNothing(f: Found, s: Line)
    requires f.ssrc.None? && f.fid.None?
    ensures FidGroup(s).None? ==>
              Look(f, s).0.ssrc.None? && Look(f, s).0.fid.None? && (Look(f, s).1 <==> s != [] && !(SSRC + "-1" <= s))
    ensures FidGroup(s).Some? ==> Look(f, s).0.ssrc.Some? && Look(f, s).0.fid.Some? && !Look(f, s).1
  {
  }

  /** Both numbers are known or neither is. */
  lemma {:induction false} FirstPairs(lines: seq<Line>, video: bool, f: Found)
    requires f.ssrc.Some? <==> f.fid.Some?
    ensures var g := Pass(lines, video, f, false).found; g.ssrc.Some? <==> g.fid.Some?
    ensures f.ssrc.Some? ==> Pass(lines, video, f, false).found.ssrc.Some?
  {
    if lines != [] {
      if Medium(lines[0]).Some? {
        if f.ssrc.None? {
          FirstPairs(lines[1..], video || Medium(lines[0]) == Some("video"), f);
        }
      } else if video {
        FirstPairs(lines[1..], video, Look(f, lines[0]).0);
      } else {
        FirstPairs(lines[1..], video, f);
      }
    }
  }

  lemma {:induction false} FirstFindsNothingIff(lines: seq<Line>, video: bool, f: Found)
    requires f.ssrc.None? && f.fid.None?
    ensures var r := Pass(lines, video, f, false);
            && (r.found.ssrc.None? <==> NoFid(VideoLines(lines, video)))
            && (r.found.ssrc.None? ==> r.tail == [] && VideoLines(r.kept, video) == Unmarked(VideoLines(lines, video)))
  {
    hide Look, Medium, FidGroup, SsrcValue;
    if lines != [] {
      var s, rest := lines[0], lines[1..];
      assert lines == [s] + rest;
      VideoHead(s, rest, video);
      if Medium(s).Some? {
        var now := video || Medium(s) == Some("video");
        FirstFindsNothingIff(rest, now, f);
        VideoHead(s, Pass(rest, now, f, false).kept, video);
      } else if !video {
        FirstFindsNothingIff(rest, video, f);
        VideoHead(s, Pass(rest, video, f, false).kept, video);
      } else {
        LookNothing(f, s);
        NoFidHead(s, VideoLines(rest, video));
        UnmarkedHead(s, VideoLines(rest, video));
        var g := Look(f, s).0;
        if FidGroup(s).None? {
          FirstFindsNothingIff(rest, video, g);
          VideoHead(s, Pass(rest, video, g, false).kept, video);
        } else {
          FirstPairs(rest, video, g);
        }
      }
    }
  }

  lemma {:induction false} SecondKeepsFound(lines: seq<Line>, video: bool, f: Found)
    ensures Pass(lines, video, f, true).found.fid == f.fid
    ensures f.ssrc.Some? ==> Pass(lines, video, f, true).found.ssrc == f.ssrc
  {
    if lines != [] {
      if Medium(lines[0]).Some? {
        if f.ssrc.None? {
          SecondKeepsFound(lines[1..], video || Medium(lines[0]) == Some("video"), f);
        }
      } else if video {
        SecondKeepsFound(lines[1..], video, LookAgain(f, lines[0]).0);
      } else {
        SecondKeepsFound(lines[1..], video, f);
      }
    }
  }

  lemma {:induction false} SecondFindsNothingIff(lines: seq<Line>, video: bool, f: Found)
    requires f.ssrc.None?
    ensures Pass(lines, video, f, true).found.ssrc.None? <==> NoSsrc(VideoLines(lines, video))
  {
    hide Medium, FidGroup, SsrcValue;
    if lines != [] {
      var s, rest := lines[0], lines[1..];
      assert lines == [s] + rest;
      VideoHead(s, rest, video);
      if Medium(s).Some? {
        SecondFindsNothingIff(rest, video || Medium(s) == Some("video"), f);
      } else if !video {
        SecondFindsNothingIff(rest, video, f);
      } else {
        NoFidHead(s, VideoLines(rest, video));
        var g := LookAgain(f, s).0;
        if SsrcValue(s).None? {
          SecondFindsNothingIff(rest, video, g);
        } else {
          SecondKeepsFound(rest, video, g);
        }
      }
    }
  }

  /** The SDP is returned as it was exactly when no line behind the first video m-line has a FID group,
      nor any `a=ssrc:` number outside lines that start with `a=ssrc:-1`. */
  lemma {:induction false} ReturnedAsIsIff(lines: seq<Line>, r: Numbers)
    ensures Munged(lines, r) == None <==>
              NoFid(VideoLines(lines, false)) && NoSsrc(Unmarked(VideoLines(lines, false)))
  {
    hide VideoLines, Unmarked, NoFid, NoSsrc, Block;
    FirstFindsNothingIff(lines, false, NOTHING);
    var p := Pass(lines, false, NOTHING, false);
    if p.found.ssrc.None? {
      assert p.kept + p.tail == p.kept;
      SecondFindsNothingIff(p.kept, false, p.found);
    }
  }

  /** Without a FID group the retransmission number stays -1 and is written out: the first FID line of the
      result names it, exactly then. */
  lemma {:induction false} MinusOneIff(lines: seq<Line>, r: Numbers)
    requires Munged(lines, r).Some?
    ensures var p := Pass(lines, false, NOTHING, false);
            var q := if p.found.ssrc.Some? then p else Pass(p.kept + p.tail, false, p.found, true);
            var b := Block(q.found, r);
            && Munged(lines, r) == Some(q.kept + b + q.tail)
            && b[|b| - 3] == FidLine(Text(q.found.ssrc), Text(q.found.fid))
            && (q.found.fid == None <==> NoFid(VideoLines(lines, false)))
  {
    hide VideoLines, Unmarked, NoFid, NoSsrc, Block;
    var p := Pass(lines, false, NOTHING, false);
    FirstPairs(lines, false, NOTHING);
    FirstFindsNothingIff(lines, false, NOTHING);
    var q := if p.found.ssrc.Some? then p else Pass(p.kept + p.tail, false, p.found, true);
    if p.found.ssrc.None? {
      SecondKeepsFound(p.kept + p.tail, false, p.found);
    }
    BlockShape(q.found, r);
  }
}
