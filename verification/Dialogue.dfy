/** What is asked, what is answered and what the callers are told: requests by method name, over every run. */
module Dialogue {
  import opened Options
  import opened Worker
  import opened Methods
  import opened Channel
  import opened EndToEnd
  import opened Outcomes
  import T = Transport

  /** The requests among some messages, and their numbers. */
  function Messages(wires: seq<Wire>): seq<Incoming> {
    if wires == [] then []
    else (match wires[0] case Request(m, _) => [m] case Answer(_, _) => []) + Messages(wires[1..])
  }

  function Serials(wires: seq<Wire>): (r: seq<nat>)
    ensures |r| == |Messages(wires)|
  {
    if wires == [] then []
    else (match wires[0] case Request(_, serial) => [serial] case Answer(_, _) => []) + Serials(wires[1..])
  }

  lemma Front(wires: seq<Wire>)
    requires wires != []
    ensures wires[0].Request? ==>
              && Messages(wires) == [wires[0].m] + Messages(wires[1..])
              && Serials(wires) == [wires[0].serial] + Serials(wires[1..])
    ensures wires[0].Answer? ==> Messages(wires) == Messages(wires[1..]) && Serials(wires) == Serials(wires[1..])
  {
  }

  lemma {:induction false} Joined(a: seq<Wire>, b: seq<Wire>)
    ensures Messages(a + b) == Messages(a) + Messages(b) && Serials(a + b) == Serials(a) + Serials(b)
  {
    if a == [] {
      assert a + b == b;
    } else {
      assert (a + b)[1..] == a[1..] + b && (a + b)[0] == a[0];
      Joined(a[1..], b);
      Front(a);
      Front(a + b);
      hide Messages, Serials;
    }
  }

  lemma {:induction false} NoMessages(wires: seq<Wire>)
    requires forall i :: 0 <= i < |wires| ==> wires[i].Answer?
    ensures Messages(wires) == [] && Serials(wires) == []
  {
    if wires != [] {
      NoMessages(wires[1..]);
    }
  }

  /** The message is one that the `k`-th request calls for, behind those before it. */
  predicate CalledFor(ms: seq<Incoming>, serials: seq<nat>, x: Wire, k: nat)
    requires |serials| == |ms|
  {
    x.Answer? && k < |ms| && serials[k] == x.serial && x.out in Response(ms[..k], ms[k])
  }

  /** What was served is the requests sent, but those that wait, in order; the map of rooms is theirs, and so is
      every message the worker sent. */
  ghost predicate Served(w: World) {
    var (ms, left) := (Messages(w.sent), Messages(w.wires));
    && |left| <= |ms| && ms[|ms| - |left|..] == left && Serials(w.sent)[|ms| - |left|..] == Serials(w.wires)
    && w.rooms == RoomsAfter({}, ms[..|ms| - |left|])
    && forall i :: 0 <= i < |w.sent| && w.sent[i].Answer? ==> exists k: nat :: CalledFor(ms, Serials(w.sent), w.sent[i], k)
  }

  lemma CalledStill(ms: seq<Incoming>, serials: seq<nat>, more: seq<Incoming>, moreSerials: seq<nat>, x: Wire, k: nat)
    requires |serials| == |ms| && |moreSerials| == |more| && CalledFor(ms, serials, x, k)
    ensures CalledFor(ms + more, serials + moreSerials, x, k)
  {
    assert (ms + more)[..k] == ms[..k];
  }

  /** One more message. */
  lemma Sent(w: World, x: Wire)
    requires Served(w)
    ensures var (ms, serials) := (Messages(w.sent + [x]), Serials(w.sent + [x]));
            && ms == Messages(w.sent) + Messages([x]) && serials == Serials(w.sent) + Serials([x])
            && forall i :: 0 <= i < |w.sent| && w.sent[i].Answer? ==> exists k: nat :: CalledFor(ms, serials, w.sent[i], k)
  {
    Joined(w.sent, [x]);
    forall i | 0 <= i < |w.sent| && w.sent[i].Answer?
      ensures exists k: nat :: CalledFor(Messages(w.sent + [x]), Serials(w.sent + [x]), w.sent[i], k)
    {
      var k: nat :| CalledFor(Messages(w.sent), Serials(w.sent), w.sent[i], k);
      CalledStill(Messages(w.sent), Serials(w.sent), Messages([x]), Serials([x]), w.sent[i], k);
    }
  }

  lemma SubmitServed(w: World, step: Step)
    requires Served(w) && SoupsKnown(w.post) && EndToEnd.Enabled(w, step) && step.Submit?
    ensures Served(EndToEnd.Next(w, step))
  {
    hide Messages, Serials, CalledFor;
    var v := EndToEnd.Next(w, step);
    if step.fired {
      var x := Request(Json(Some(SendId(w.post, step.h, step.reqId)), Some(step.name), step.roomId), w.next);
      Sent(w, x);
      Joined(w.wires, [x]);
      Alone(x);
      var (ms, left, m) := (Messages(w.sent), Messages(w.wires), Messages([x]));
      assert v.sent == w.sent + [x] && v.wires == w.wires + [x];
      assert (ms + m)[|ms| - |left|..] == ms[|ms| - |left|..] + m;
      assert (ms + m)[..|ms| - |left|] == ms[..|ms| - |left|];
      assert (Serials(w.sent) + Serials([x]))[|ms| - |left|..] == Serials(w.sent)[|ms| - |left|..] + Serials([x]);
    } else {
      assert v.sent == w.sent + [] == w.sent && v.wires == w.wires + [] == w.wires;
    }
  }

  lemma Alone(x: Wire)
    ensures x.Request? ==> Messages([x]) == [x.m] && Serials([x]) == [x.serial]
    ensures x.Answer? ==> Messages([x]) == [] && Serials([x]) == []
  {
    assert [x][1..] == [];
  }

  /** The worker's answer to the next request is the one its method calls for. */
  lemma NextAnswer(done: seq<Incoming>, m: Incoming)
    ensures Serve(RoomsAfter({}, done), m) == (RoomsAfter({}, done + [m]), Response(done, m))
  {
    hide Serve, Response;
    RunSnoc({}, done, m);
    if m.Json? && m.roomId.Some? {
      RoomsByName(done, m.roomId.value);
    }
    ServeAnswers(RoomsAfter({}, done), done, m);
  }

  lemma RequestServed(w: World, lost: bool)
    requires Served(w) && SoupsKnown(w.post) && w.wires != [] && w.wires[0].Request?
    ensures Served(EndToEnd.Next(w, Deliver(lost)))
  {
    hide Messages, Serials, Serve, Response;
    var v := EndToEnd.Next(w, Deliver(lost));
    var (ms, serials, n) := (Messages(w.sent), Serials(w.sent), |Messages(w.sent)| - |Messages(w.wires)|);
    var m := w.wires[0].m;
    Front(w.wires);
    assert ms[n] == m && serials[n] == w.wires[0].serial && ms[..n + 1] == ms[..n] + [m];
    NextAnswer(ms[..n], m);
    var out := if lost then [] else Envelopes(Response(ms[..n], m), w.wires[0].serial);
    NoMessages(out);
    Joined(w.sent, out);
    Joined(w.wires[1..], out);
    assert v.sent == w.sent + out && v.wires == w.wires[1..] + out && v.rooms == RoomsAfter({}, ms[..n + 1]);
    assert Messages(v.sent) == ms && Serials(v.sent) == serials;
    assert Messages(v.wires) == Messages(w.wires[1..]) && Serials(v.wires) == Serials(w.wires[1..]);
    forall i | 0 <= i < |v.sent| && v.sent[i].Answer?
      ensures exists k: nat :: CalledFor(ms, serials, v.sent[i], k)
    {
      if i < |w.sent| {
        assert v.sent[i] == w.sent[i];
      } else {
        var x := out[i - |w.sent|];
        assert v.sent[i] == x && CalledFor(ms, serials, x, n);
      }
    }
  }

  lemma AnswerServed(w: World, lost: bool)
    requires Served(w) && SoupsKnown(w.post) && w.wires != [] && w.wires[0].Answer?
    ensures Served(EndToEnd.Next(w, Deliver(lost)))
  {
    hide Messages, Serials, CalledFor;
    Front(w.wires);
  }

  lemma StepServed(w: World, step: Step)
    requires Served(w) && SoupsKnown(w.post) && EndToEnd.Enabled(w, step)
    ensures Served(EndToEnd.Next(w, step))
  {
    hide Served;
    match step
    case Submit(_, _, _, _, _) => SubmitServed(w, step);
    case Deliver(lost) => if w.wires[0].Request? { RequestServed(w, lost); } else { AnswerServed(w, lost); }
    case Timeout(k) => TimeoutServed(w, Expire(w.post, k));
  }

  lemma TimeoutServed(w: World, post: Post)
    requires Served(w)
    ensures Served(w.(post := post))
  {
    hide Messages, Serials, CalledFor;
  }

  // What is asked.

  /** The requests that the steps of a run submit, as the clients word them. */
  function Asking(steps: seq<T.Step>): seq<Incoming> {
    if steps == [] then []
    else
      (match steps[0]
       case Submit(_, name, roomId, reqId, fired) => if fired then [Json(Some(reqId), Some(name), roomId)] else []
       case _ => [])
      + Asking(steps[1..])
  }

  lemma StepAsks(j: T.Joint, step: T.Step)
    requires T.Inv(j) && T.Enabled(j, step) && T.Disciplined(j, step)
    ensures Messages(T.Next(j, step).sent) == Messages(j.sent) + Asking([step])
  {
    T.StepSimulates(j, step);
    assert [step][1..] == [];
    var k := T.Next(j, step);
    match step
    case Submit(h, name, roomId, reqId, fired) =>
      if fired {
        var x := Request(Json(Some(reqId), Some(name), roomId), j.next);
        assert k.sent == j.sent + [x];
        Joined(j.sent, [x]);
        Alone(x);
      }
    case Move(_) =>
    case Handle(lost) => HandleAsks(j, lost);
    case Timeout(_) =>
  }

  lemma HandleAsks(j: T.Joint, lost: bool)
    requires T.Inv(j) && T.Enabled(j, T.Handle(lost))
    ensures Messages(T.Next(j, T.Handle(lost)).sent) == Messages(j.sent)
  {
    T.HandleSimulates(j, lost);
    var (w, v) := (T.Abstract(j), T.Abstract(T.Next(j, T.Handle(lost))));
    match w.wires[0]
    case Request(m, serial) =>
      var out := if lost then [] else Envelopes(Serve(w.rooms, m).1, serial);
      assert v.sent == w.sent + out;
      NoMessages(out);
      Joined(w.sent, out);
    case Answer(_, _) => assert v.sent == w.sent;
  }

  ghost predicate Talks(j: T.Joint) {
    T.Inv(j) && Served(T.Abstract(j))
  }

  lemma StepTalks(j: T.Joint, step: T.Step)
    requires Talks(j) && T.Enabled(j, step) && T.Disciplined(j, step)
    ensures Talks(T.Next(j, step)) && Messages(T.Next(j, step).sent) == Messages(j.sent) + Asking([step])
  {
    hide Served, Messages, T.Next, Asking;
    T.StepSimulates(j, step);
    T.StepKeeps(j, step);
    StepAsks(j, step);
    if T.Image(step).Some? {
      StepServed(T.Abstract(j), T.Image(step).value);
    }
  }

  lemma {:induction false} RunTalks(j: T.Joint, steps: seq<T.Step>)
    requires Talks(j) && T.CanRun(j, steps)
    ensures Talks(T.Run(j, steps)) && Messages(T.Run(j, steps).sent) == Messages(j.sent) + Asking(steps)
    decreases |steps|
  {
    hide Talks, Messages, T.Next;
    if steps != [] {
      StepTalks(j, steps[0]);
      RunTalks(T.Next(j, steps[0]), steps[1..]);
      AskingFront(steps);
      hide Asking;
    }
  }

  lemma AskingFront(steps: seq<T.Step>)
    requires steps != []
    ensures Asking(steps) == Asking([steps[0]]) + Asking(steps[1..])
  {
    assert [steps[0]][1..] == [];
  }

  predicate Grants(ms: seq<Incoming>, m: Incoming) {
    exists i :: 0 <= i < |Response(ms, m)| && Response(ms, m)[i].Accepted?
  }

  lemma StartTalks(handles: set<nat>)
    ensures Talks(T.Start(handles)) && Messages(T.Start(handles).sent) == []
  {
    T.StartInv(handles);
    assert T.Abstract(T.Start(handles)) == EndToEnd.Start(handles);
  }

  /** On the call queue, in every interleaving: the texts of the requests are those submitted, and a callback
      caused by a reply is granted exactly if the method of that request, by its name and those before it,
      calls for acceptance. */
  lemma ToldByName(handles: set<nat>, steps: seq<T.Step>)
    requires T.CanRun(T.Start(handles), steps)
    ensures var j := T.Run(T.Start(handles), steps);
            var ms := Asking(steps);
            && Messages(j.sent) == ms
            && forall e :: e in j.post.log && e.cause.Some? ==>
                 exists k: nat :: k < |ms| && Serials(j.sent)[k] == e.cause.value &&
                                  e.outcome == if Grants(ms[..k], ms[k]) then Granted else Refused
  {
    hide T.Run, T.CanRun, Grants, CalledFor, Asking, T.Inv, StatesTold;
    StartTalks(handles);
    RunTalks(T.Start(handles), steps);
    QueueOutcomesTold(handles, steps);
    var j := T.Run(T.Start(handles), steps);
    var ms := Asking(steps);
    assert Messages(j.sent) == ms;
    forall e | e in j.post.log && e.cause.Some?
      ensures exists k: nat :: k < |ms| && Serials(j.sent)[k] == e.cause.value &&
                               e.outcome == if Grants(ms[..k], ms[k]) then Granted else Refused
    {
      var i :| 0 <= i < |j.sent| && IsAnswer(j.sent[i]) && j.sent[i].serial == e.cause.value;
      var k: nat :| CalledFor(ms, Serials(j.sent), j.sent[i], k);
      GrantedIff(ms, Serials(j.sent), j.sent[i], k);
    }
  }

  lemma GrantedIff(ms: seq<Incoming>, serials: seq<nat>, x: Wire, k: nat)
    requires |serials| == |ms| && CalledFor(ms, serials, x, k) && IsAnswer(x)
    ensures k < |ms| && serials[k] == x.serial && (x.out.Accepted? <==> Grants(ms[..k], ms[k]))
  {
    var a := Response(ms[..k], ms[k]);
    assert |a| <= 2 && (|a| == 2 ==> a[0].CloseEvent? && a[1].Accepted?);
  }
}
