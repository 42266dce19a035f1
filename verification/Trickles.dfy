/** Trickle candidates in janus/src/pjanus.c: those that arrive before the ICE stack is ready wait in a
    list, which the answer to the offer drains. */
module Trickles {
  import opened Options

  datatype Json = Object(name: nat) | Array(items: seq<Json>) | Other

  /** janus_ice_trickle; `id` numbers the accepted messages of a handle in order of arrival. */
  datatype Trickle = Trickle(id: nat, received: int, json: Json)

  datatype Fate = Handed | TooOld | Unusable

  /** A message that left the list, or never entered it; `calls` are the values given to the ICE
      parser for it. */
  datatype Settled = Settled(id: nat, queued: bool, fate: Fate, calls: seq<Json>)

  datatype Reply = MissingElement | BothGiven | StillCleaning | NotAnArray | ParseError(code: int) | Ack

  /** What matters of janus_ice_handle. `accepted` and `settled` are history. */
  datatype Ice = Ice(
    stream: bool, processing: bool, gotOffer: bool, gotAnswer: bool, cleaning: bool,
    pending: seq<Trickle>, accepted: nat, settled: seq<Settled>)

  // Age.

  const TWO_32: nat := 0x1_0000_0000
  const USEC: nat := 1000000

  /** `candidates_timeout * G_USEC_PER_SEC`, both operands of 32 bits. */
  function Limit(timeout: nat): nat {
    timeout * USEC % TWO_32
  }

  /** The product is the timeout in microseconds exactly up to 4294 seconds. */
  lemma LimitExactIff(timeout: nat)
    ensures Limit(timeout) == timeout * USEC <==> timeout <= 4294
    ensures Limit(timeout) <= timeout * USEC
  {
    var n := timeout * USEC;
    assert n == TWO_32 * (n / TWO_32) + n % TWO_32;
    if timeout > 4294 {
      assert n >= TWO_32;
    }
  }

  // Draining.

  /** The parser calls for a trickle taken from the list. */
  function Calls(json: Json): seq<Json> {
    match json
    case Object(_) => [json]
    case Array(items) => items
    case Other => []
  }

  function Settle(t: Trickle, now: int, limit: nat): Settled {
    if now - t.received > limit then Settled(t.id, true, TooOld, [])
    else Settled(t.id, true, if t.json.Other? then Unusable else Handed, Calls(t.json))
  }

  /** The whole list in order, the clock being read once for each. */
  function SettleAll(ts: seq<Trickle>, times: seq<int>, limit: nat): (r: seq<Settled>)
    requires |times| == |ts|
    ensures |r| == |ts|
    ensures forall i :: 0 <= i < |ts| ==> r[i] == Settle(ts[i], times[i], limit)
  {
    seq(|ts|, i requires 0 <= i < |ts| => Settle(ts[i], times[i], limit))
  }

  function Drain(s: Ice, times: seq<int>, limit: nat): Ice
    requires |times| == |s.pending|
  {
    s.(processing := false, pending := [], settled := s.settled + SettleAll(s.pending, times, limit))
  }

  // Arrival.

  /** A stream exists, offer and answer were seen, and no offer is being processed. */
  predicate Ready(s: Ice) {
    s.stream && s.gotOffer && s.gotAnswer && !s.processing
  }

  /** The parser calls of the direct path; a single candidate is given as it is. */
  function DirectCalls(candidate: Option<Json>, candidates: Option<Json>): seq<Json> {
    if candidate.Some? then [candidate.value]
    else if candidates.Some? && candidates.value.Array? then candidates.value.items
    else []
  }

  /** `code` is what the parser says of a single candidate. */
  function ReplyTo(s: Ice, candidate: Option<Json>, candidates: Option<Json>, code: int): Reply {
    if candidate.None? && candidates.None? then MissingElement
    else if candidate.Some? && candidates.Some? then BothGiven
    else if s.cleaning then StillCleaning
    else if !Ready(s) then Ack
    else if candidate.Some? then (if code != 0 then ParseError(code) else Ack)
    else if candidates.value.Array? then Ack
    else NotAnArray
  }

  predicate Accepts(r: Reply) {
    r.Ack? || r.ParseError?
  }

  function Arrive(s: Ice, now: int, candidate: Option<Json>, candidates: Option<Json>, code: int): Ice {
    if !Accepts(ReplyTo(s, candidate, candidates, code)) then s
    else if Ready(s) then
      s.(accepted := s.accepted + 1,
         settled := s.settled + [Settled(s.accepted, false, Handed, DirectCalls(candidate, candidates))])
    else
      var json := if candidate.Some? then candidate.value else candidates.value;
      s.(accepted := s.accepted + 1, pending := s.pending + [Trickle(s.accepted, now, json)])
  }

  // The code.

  class IceHandle {
    var stream: bool
    var processing: bool
    var gotOffer: bool
    var gotAnswer: bool
    var cleaning: bool
    var pending: seq<Trickle>
    var accepted: nat
    var calls: seq<Json>
    ghost var settled: seq<Settled>

    ghost function View(): Ice
      reads this
    {
      Ice(stream, processing, gotOffer, gotAnswer, cleaning, pending, accepted, settled)
    }

    /** The calls made are those of the settled messages, in order. */
    ghost predicate Logged()
      reads this
    {
      calls == AllCalls(settled)
    }

    constructor ()
      ensures View() == NEW && Logged()
    {
      stream, processing, gotOffer, gotAnswer, cleaning := false, false, false, false, false;
      pending, accepted, calls, settled := [], 0, [], [];
    }

    /** The ICE parser is called with one value. */
    method Parse(c: Json)
      modifies this`calls
      ensures calls == old(calls) + [c]
    {
      calls := calls + [c];
    }

    method ParseEach(items: seq<Json>)
      modifies this`calls
      ensures calls == old(calls) + items
    {
      var i := 0;
      while i < |items|
        invariant 0 <= i <= |items| && calls == old(calls) + items[..i]
      {
        Parse(items[i]);
        i := i + 1;
      }
    }

    /** The direct path. */
    method HandOver(candidate: Option<Json>, candidates: Option<Json>)
      requires candidate.Some? || (candidates.Some? && candidates.value.Array?)
      modifies this`calls
      ensures calls == old(calls) + DirectCalls(candidate, candidates)
    {
      if candidate.Some? {
        Parse(candidate.value);
      } else {
        ParseEach(candidates.value.items);
      }
    }

    /** The trickle branch of janus_process_incoming_request. */
    method TrickleMessage(now: int, candidate: Option<Json>, candidates: Option<Json>, code: int) returns (r: Reply)
      requires Logged()
      modifies this
      ensures View() == Arrive(old(View()), now, candidate, candidates, code) && Logged()
      ensures r == ReplyTo(old(View()), candidate, candidates, code)
    {
      hide AllCalls, DirectCalls;
      if candidate.None? && candidates.None? {
        return MissingElement;
      }
      if candidate.Some? && candidates.Some? {
        return BothGiven;
      }
      if cleaning {
        return StillCleaning;
      }
      var json := if candidate.Some? then candidate.value else candidates.value;
      if !stream || processing || !gotOffer || !gotAnswer {
        pending := pending + [Trickle(accepted, now, json)];
        accepted := accepted + 1;
        return Ack;
      }
      if candidate.None? && !json.Array? {
        return NotAnArray;
      }
      AllCallsSnoc(settled, Settled(accepted, false, Handed, DirectCalls(candidate, candidates)));
      settled := settled + [Settled(accepted, false, Handed, DirectCalls(candidate, candidates))];
      accepted := accepted + 1;
      HandOver(candidate, candidates);
      r := if candidate.Some? && code != 0 then ParseError(code) else Ack;
    }

    /** One turn of the draining loop. */
    method TakeFirst(now: int, limit: nat)
      requires Logged() && pending != []
      modifies this`pending, this`settled, this`calls
      ensures Logged() && pending == old(pending)[1..] && settled == old(settled) + [Settle(old(pending)[0], now, limit)]
    {
      var t := pending[0];
      pending := pending[1..];
      AllCallsSnoc(settled, Settle(t, now, limit));
      settled := settled + [Settle(t, now, limit)];
      if now - t.received > limit {
        return;
      }
      match t.json
      case Object(_) => Parse(t.json);
      case Array(items) => ParseEach(items);
      case Other =>
    }

    method DrainList(times: seq<int>, limit: nat)
      requires Logged() && |times| == |pending|
      modifies this`pending, this`settled, this`calls
      ensures Logged() && pending == [] && settled == old(settled) + SettleAll(old(pending), times, limit)
    {
      hide Settle, AllCalls;
      var n := 0;
      ghost var all := SettleAll(pending, times, limit);
      ghost var goal := settled + all;
      assert all[0..] == all;
      while pending != []
        invariant 0 <= n <= |times| && pending == old(pending)[n..] && Logged()
        invariant settled + all[n..] == goal
        decreases |pending|
      {
        assert all[n..] == [all[n]] + all[n + 1..];
        TakeFirst(times[n], limit);
        n := n + 1;
      }
    }

    /** janus_request_ice_handle_answer, up to its last part. */
    method HandleAnswer(times: seq<int>, timeout: nat)
      requires Logged() && |times| == |pending|
      modifies this
      ensures View() == Drain(old(View()), times, Limit(timeout)) && Logged()
    {
      processing := false;
      DrainList(times, timeout * USEC % TWO_32);
    }
  }

  function AllCalls(ss: seq<Settled>): seq<Json> {
    if ss == [] then [] else AllCalls(ss[..|ss| - 1]) + ss[|ss| - 1].calls
  }

  lemma AllCallsSnoc(ss: seq<Settled>, s: Settled)
    ensures AllCalls(ss + [s]) == AllCalls(ss) + s.calls
  {
    assert (ss + [s])[..|ss|] == ss;
  }

  const NEW := Ice(false, false, false, false, false, [], 0, [])

  // Runs.

  datatype Event =
    | Message(now: int, candidate: Option<Json>, candidates: Option<Json>, code: int)
    | Answer(clock: nat -> int)
    | Flags(stream: bool, processing: bool, gotOffer: bool, gotAnswer: bool, cleaning: bool)

  function Next(s: Ice, e: Event, limit: nat): Ice {
    match e
    case Message(now, candidate, candidates, code) => Arrive(s, now, candidate, candidates, code)
    case Answer(clock) => Drain(s, seq(|s.pending|, i requires 0 <= i => clock(i)), limit)
    case Flags(stream, processing, gotOffer, gotAnswer, cleaning) =>
      s.(stream := stream, processing := processing, gotOffer := gotOffer, gotAnswer := gotAnswer, cleaning := cleaning)
  }

  function Run(es: seq<Event>, limit: nat): Ice {
    if es == [] then NEW else Next(Run(es[..|es| - 1], limit), es[|es| - 1], limit)
  }

  function PendingCount(ts: seq<Trickle>, id: nat): nat {
    if ts == [] then 0 else PendingCount(ts[..|ts| - 1], id) + if ts[|ts| - 1].id == id then 1 else 0
  }

  function SettledCount(ss: seq<Settled>, id: nat): nat {
    if ss == [] then 0 else SettledCount(ss[..|ss| - 1], id) + if ss[|ss| - 1].id == id then 1 else 0
  }

  /** Waiting messages are in order of arrival. */
  predicate Ordered(ts: seq<Trickle>) {
    forall i, j :: 0 <= i < j < |ts| ==> ts[i].id < ts[j].id
  }

  /** So are those that went through the list, before all that still wait. */
  predicate InOrder(s: Ice) {
    && Ordered(s.pending)
    && (forall i, j :: 0 <= i < j < |s.settled| && s.settled[i].queued && s.settled[j].queued ==> s.settled[i].id < s.settled[j].id)
    && (forall i, j :: 0 <= i < |s.settled| && s.settled[i].queued && 0 <= j < |s.pending| ==> s.settled[i].id < s.pending[j].id)
    && (forall i :: 0 <= i < |s.settled| ==> s.settled[i].id < s.accepted)
    && (forall i :: 0 <= i < |s.pending| ==> s.pending[i].id < s.accepted)
  }

  /** Every accepted message is in one place, once. */
  ghost predicate Conserved(s: Ice) {
    forall id: nat :: PendingCount(s.pending, id) + SettledCount(s.settled, id) == if id < s.accepted then 1 else 0
  }

  lemma {:induction false} PendingSnoc(ts: seq<Trickle>, t: Trickle, id: nat)
    ensures PendingCount(ts + [t], id) == PendingCount(ts, id) + if t.id == id then 1 else 0
  {
    assert (ts + [t])[..|ts|] == ts;
  }

  lemma {:induction false} SettledSnoc(ss: seq<Settled>, s: Settled, id: nat)
    ensures SettledCount(ss + [s], id) == SettledCount(ss, id) + if s.id == id then 1 else 0
  {
    assert (ss + [s])[..|ss|] == ss;
  }

  lemma {:induction false} SettleCount(ss: seq<Settled>, ts: seq<Trickle>, times: seq<int>, limit: nat, id: nat)
    requires |times| == |ts|
    ensures SettledCount(ss + SettleAll(ts, times, limit), id) == SettledCount(ss, id) + PendingCount(ts, id)
  {
    hide SettleAll;
    var all := SettleAll(ts, times, limit);
    if ts == [] {
      assert ss + all == ss;
    } else {
      var n := |ts| - 1;
      SettleCount(ss, ts[..n], times[..n], limit, id);
      assert all[..n] == SettleAll(ts[..n], times[..n], limit);
      assert ss + all == (ss + all[..n]) + [all[n]];
      SettledSnoc(ss + all[..n], all[n], id);
    }
  }

  lemma {:induction false} DrainKeeps(s: Ice, times: seq<int>, limit: nat)
    requires InOrder(s) && Conserved(s) && |times| == |s.pending|
    ensures InOrder(Drain(s, times, limit)) && Conserved(Drain(s, times, limit))
  {
    var q := Drain(s, times, limit);
    forall id: nat
      ensures PendingCount(q.pending, id) + SettledCount(q.settled, id) == if id < q.accepted then 1 else 0
    {
      SettleCount(s.settled, s.pending, times, limit, id);
    }
  }

  lemma {:induction false} QueueKeeps(s: Ice, t: Trickle)
    requires InOrder(s) && Conserved(s) && t.id == s.accepted
    ensures var q := s.(accepted := s.accepted + 1, pending := s.pending + [t]); InOrder(q) && Conserved(q)
  {
    forall id: nat
      ensures PendingCount(s.pending + [t], id) + SettledCount(s.settled, id) == if id < s.accepted + 1 then 1 else 0
    {
      PendingSnoc(s.pending, t, id);
    }
  }

  lemma {:induction false} DirectKeeps(s: Ice, x: Settled)
    requires InOrder(s) && Conserved(s) && x.id == s.accepted && !x.queued
    ensures var q := s.(accepted := s.accepted + 1, settled := s.settled + [x]); InOrder(q) && Conserved(q)
  {
    forall id: nat
      ensures PendingCount(s.pending, id) + SettledCount(s.settled + [x], id) == if id < s.accepted + 1 then 1 else 0
    {
      SettledSnoc(s.settled, x, id);
    }
  }

  /** A message that is accepted is handed over on arrival exactly when the ICE stack is ready, whatever
      still waits; it joins the list otherwise, and no message is lost either way. */
  lemma {:induction false} ArriveKeeps(s: Ice, now: int, candidate: Option<Json>, candidates: Option<Json>, code: int)
    requires InOrder(s) && Conserved(s)
    ensures var q := Arrive(s, now, candidate, candidates, code);
            && InOrder(q) && Conserved(q)
            && (Accepts(ReplyTo(s, candidate, candidates, code)) ==>
                  && (|q.settled| == |s.settled| + 1 <==> Ready(s))
                  && (Ready(s) ==> q.pending == s.pending &&
                                   q.settled[|s.settled|].calls == DirectCalls(candidate, candidates))
                  && (!Ready(s) ==> q.settled == s.settled && |q.pending| == |s.pending| + 1))
  {
    hide InOrder, Conserved;
    if Accepts(ReplyTo(s, candidate, candidates, code)) {
      if Ready(s) {
        DirectKeeps(s, Settled(s.accepted, false, Handed, DirectCalls(candidate, candidates)));
      } else {
        QueueKeeps(s, Trickle(s.accepted, now, if candidate.Some? then candidate.value else candidates.value));
      }
    }
  }

  /** In every run: each accepted message is exactly one of pending, handed over, too old or unusable,
      once; the list is drained in order of arrival. */
  lemma {:induction false} RunKeeps(es: seq<Event>, limit: nat)
    ensures InOrder(Run(es, limit)) && Conserved(Run(es, limit))
  {
    if es != [] {
      var s := Run(es[..|es| - 1], limit);
      RunKeeps(es[..|es| - 1], limit);
      match es[|es| - 1]
      case Message(now, candidate, candidates, code) => ArriveKeeps(s, now, candidate, candidates, code);
      case Answer(clock) => DrainKeeps(s, seq(|s.pending|, i requires 0 <= i => clock(i)), limit);
      case Flags(_, _, _, _, _) =>
    }
  }

  /** A drain discards a message exactly when it waited longer than the timeout, if that is at most
      4294 seconds; a longer timeout is cut down, so that younger messages are lost too. */
  lemma {:induction false} DiscardIff(t: Trickle, now: int, timeout: nat)
    ensures now - t.received > timeout * USEC ==> Settle(t, now, Limit(timeout)).fate == TooOld
    ensures timeout <= 4294 ==> (Settle(t, now, Limit(timeout)).fate == TooOld <==> now - t.received > timeout * USEC)
    ensures timeout > 4294 ==>
              exists late: int :: late - t.received <= timeout * USEC && Settle(t, late, Limit(timeout)).fate == TooOld
  {
    LimitExactIff(timeout);
    if timeout > 4294 {
      var late := t.received + timeout * USEC;
      assert Settle(t, late, Limit(timeout)).fate == TooOld;
    }
  }

  lemma {:induction false} NotItsOwnItem(j: Json)
    requires j.Array?
    ensures j.items != [j]
  {
    if |j.items| == 1 {
      assert j.items[0] < j;
    }
  }

  /** Waiting makes no difference to what the parser is given exactly for the well-formed messages: an
      object as a single candidate, an array as several. */
  lemma {:induction false} SameCallsIff(candidate: Option<Json>, candidates: Option<Json>)
    requires candidate.Some? != candidates.Some?
    ensures var json := if candidate.Some? then candidate.value else candidates.value;
            && (candidate.Some? ==> (DirectCalls(candidate, candidates) == Calls(json) <==> json.Object?))
            && (candidates.Some? && !json.Array? ==> DirectCalls(candidate, candidates) == [])
            && (candidates.Some? && json.Array? ==> DirectCalls(candidate, candidates) == Calls(json))
  {
    if candidate.Some? && candidate.value.Array? {
      NotItsOwnItem(candidate.value);
    }
  }
}
