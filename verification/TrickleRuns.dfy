/** What becomes of trickle messages, told by the messages and the flags of a run. */
module TrickleRuns {
  import opened Options
  import opened Trickles

  /** The flags as they stand: as set last, with `processing` cleared by every answer. */
  datatype Standing = Standing(stream: bool, processing: bool, gotOffer: bool, gotAnswer: bool, cleaning: bool)

  function Now(es: seq<Event>): Standing {
    if es == [] then Standing(false, false, false, false, false)
    else match es[|es| - 1]
      case Flags(stream, processing, gotOffer, gotAnswer, cleaning) =>
        Standing(stream, processing, gotOffer, gotAnswer, cleaning)
      case Answer(_) => Now(es[..|es| - 1]).(processing := false)
      case Message(_, _, _, _) => Now(es[..|es| - 1])
  }

  predicate Open(f: Standing) {
    f.stream && f.gotOffer && f.gotAnswer && !f.processing
  }

  /** What was accepted: when, which value, and whether it came as a single candidate. */
  datatype Entry = Entry(at: int, json: Json, single: bool)

  /** Exactly one of the two is given; nothing is cleaned up; and several candidates, if they are not to wait,
      are an array. */
  predicate Taken(f: Standing, candidate: Option<Json>, candidates: Option<Json>) {
    && candidate.Some? != candidates.Some? && !f.cleaning
    && (candidates.Some? && Open(f) ==> candidates.value.Array?)
  }

  function Log(es: seq<Event>): seq<Entry> {
    if es == [] then []
    else
      var before := es[..|es| - 1];
      match es[|es| - 1]
      case Message(now, candidate, candidates, _) =>
        Log(before) +
        if !Taken(Now(before), candidate, candidates) then []
        else if candidate.Some? then [Entry(now, candidate.value, true)]
        else [Entry(now, candidates.value, false)]
      case _ => Log(before)
  }

  /** What the parser gets of a message that waited. */
  predicate GetsLater(x: Settled, json: Json) {
    match x.fate
    case TooOld => x.calls == []
    case Unusable => json.Other? && x.calls == []
    case Handed => (json.Object? && x.calls == [json]) || (json.Array? && x.calls == json.items)
  }

  /** What it gets at once. */
  predicate GetsNow(x: Settled, e: Entry) {
    x.fate == Handed && if e.single then x.calls == [e.json] else e.json.Array? && x.calls == e.json.items
  }

  /** Everything waiting or settled is what arrived under its number. */
  predicate Own(s: Ice, log: seq<Entry>) {
    && s.accepted == |log|
    && (forall i :: 0 <= i < |s.pending| ==>
          && s.pending[i].id < |log|
          && s.pending[i].json == log[s.pending[i].id].json && s.pending[i].received == log[s.pending[i].id].at)
    && (forall i :: 0 <= i < |s.settled| ==>
          && s.settled[i].id < |log|
          && if s.settled[i].queued then GetsLater(s.settled[i], log[s.settled[i].id].json)
             else GetsNow(s.settled[i], log[s.settled[i].id]))
  }

  predicate Shows(s: Ice, f: Standing) {
    && s.stream == f.stream && s.processing == f.processing && s.gotOffer == f.gotOffer && s.gotAnswer == f.gotAnswer
    && s.cleaning == f.cleaning
  }

  lemma {:induction false} FlagsAre(es: seq<Event>, limit: nat)
    ensures Shows(Run(es, limit), Now(es))
  {
    if es != [] {
      FlagsAre(es[..|es| - 1], limit);
    }
  }

  /** The reply to a message behind the events `es`: each refusal in the order of the checks, and the parser's
      error exactly for a single candidate that is parsed at once and fails. */
  lemma RepliesAre(es: seq<Event>, limit: nat, candidate: Option<Json>, candidates: Option<Json>, code: int)
    ensures var (r, f) := (ReplyTo(Run(es, limit), candidate, candidates, code), Now(es));
            && (r == MissingElement <==> candidate.None? && candidates.None?)
            && (r == BothGiven <==> candidate.Some? && candidates.Some?)
            && (r == StillCleaning <==> candidate.Some? != candidates.Some? && f.cleaning)
            && (r == NotAnArray <==> candidate.None? && candidates.Some? && !f.cleaning && Open(f) && !candidates.value.Array?)
            && (r.ParseError? <==> candidate.Some? && candidates.None? && !f.cleaning && Open(f) && code != 0)
            && (r.ParseError? ==> r.code == code)
            && (r.Ack? || r.ParseError? <==> Taken(f, candidate, candidates))
  {
    FlagsAre(es, limit);
  }

  lemma ArriveOwn(s: Ice, f: Standing, log: seq<Entry>, now: int, candidate: Option<Json>, candidates: Option<Json>, code: int)
    requires Own(s, log) && Shows(s, f)
    ensures var more := if !Taken(f, candidate, candidates) then []
                        else if candidate.Some? then [Entry(now, candidate.value, true)]
                        else [Entry(now, candidates.value, false)];
            Own(Arrive(s, now, candidate, candidates, code), log + more)
  {
    if Taken(f, candidate, candidates) {
      var e := if candidate.Some? then Entry(now, candidate.value, true) else Entry(now, candidates.value, false);
      OwnLonger(s, log, e);
    } else {
      assert log + [] == log;
    }
  }

  lemma OwnLonger(s: Ice, log: seq<Entry>, e: Entry)
    requires Own(s, log)
    ensures Own(s.(accepted := s.accepted + 1), log + [e])
  {
    assert forall i :: 0 <= i < |log| ==> (log + [e])[i] == log[i];
  }

  lemma DrainOwn(s: Ice, log: seq<Entry>, times: seq<int>, limit: nat)
    requires Own(s, log) && |times| == |s.pending|
    ensures Own(Drain(s, times, limit), log)
  {
    var q := Drain(s, times, limit);
    forall i | 0 <= i < |q.settled|
      ensures q.settled[i].id < |log|
      ensures if q.settled[i].queued then GetsLater(q.settled[i], log[q.settled[i].id].json)
              else GetsNow(q.settled[i], log[q.settled[i].id])
    {
      if i >= |s.settled| {
        var k := i - |s.settled|;
        assert q.settled[i] == Settle(s.pending[k], times[k], limit);
      }
    }
  }

  /** In every run each accepted message waits under its number with its value and time of arrival, or the
      parser got what it holds: a single candidate as it is and an array item by item, an unusable one or one
      that is too old not at all. */
  lemma {:induction false} ParserGetsOwn(es: seq<Event>, limit: nat)
    ensures Own(Run(es, limit), Log(es))
  {
    hide Arrive, Drain, Own;
    if es == [] {
      NothingYet();
    } else {
      var before := es[..|es| - 1];
      var s := Run(before, limit);
      ParserGetsOwn(before, limit);
      FlagsAre(before, limit);
      match es[|es| - 1]
      case Message(now, candidate, candidates, code) => ArriveOwn(s, Now(before), Log(before), now, candidate, candidates, code);
      case Answer(clock) => DrainOwn(s, Log(before), seq(|s.pending|, i requires 0 <= i => clock(i)), limit);
      case Flags(stream, processing, gotOffer, gotAnswer, cleaning) =>
        FlagsOwn(s, Log(before), stream, processing, gotOffer, gotAnswer, cleaning);
    }
  }

  lemma NothingYet()
    ensures Own(NEW, [])
  {
  }

  lemma FlagsOwn(s: Ice, log: seq<Entry>, stream: bool, processing: bool, gotOffer: bool, gotAnswer: bool, cleaning: bool)
    requires Own(s, log)
    ensures Own(s.(stream := stream, processing := processing, gotOffer := gotOffer, gotAnswer := gotAnswer,
                   cleaning := cleaning), log)
  {
  }
}
