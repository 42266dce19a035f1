/** The request protocol on the call queue: requests and replies are calls fired on the two callbacks that
    share one master (mediasoup/soup/UnixStreamSocket.cpp), and a message is handled when the loop thread
    runs its call. Every step here is one of CallQueue, or one of the clients' own. */
module Transport {
  import opened Options
  import opened Worker
  import opened Channel
  import E = EndToEnd
  import Q = CallQueue

  const TO_CPP := 0
  const FROM_CPP := 1

  /** `sent` holds the text of every call ever fired; a call's data is its place there. */
  datatype Joint = Joint(sys: Q.System, post: Post, rooms: set<nat>, sent: seq<E.Wire>, next: nat)

  datatype Step =
    | Submit(h: nat, name: string, roomId: Option<nat>, reqId: nat, fired: bool)
    | Move(step: Q.Step)   // a step of a thread between enqueueing and sending, or of the loop thread
    | Handle(lost: bool)   // the loop thread runs the function of the call it took
    | Timeout(k: nat)

  predicate Enabled(j: Joint, step: Step) {
    match step
    case Submit(h, _, _, reqId, _) => h in j.post.soups && reqId != 0 && !HasId(j.post.letters, reqId)
    case Move(q) => !q.Fire? && !q.Execute? && Q.Enabled(j.sys, q)
    case Handle(_) => j.sys.place.Running? && 0 <= j.sys.place.call.data < |j.sent|
    case Timeout(k) => k < |j.post.letters|
  }

  /** uv_callback_fire with the text of a message. */
  function Fire(j: Joint, x: E.Wire): Joint {
    var call := Q.Call(if x.Request? then TO_CPP else FROM_CPP, |j.sent|, Q.NoNotify);
    j.(sys := Q.Next(j.sys, Q.Fire(call)), sent := j.sent + [x])
  }

  function FireAll(j: Joint, xs: seq<E.Wire>): (r: Joint)
    ensures r.sys.place == j.sys.place
    decreases |xs|
  {
    if xs == [] then j else FireAll(Fire(j, xs[0]), xs[1..])
  }

  /** The function of to_cpp runs: the worker serves the request and fires its replies. */
  function OnToCpp(j: Joint, m: Incoming, serial: nat, lost: bool): Joint
    requires j.sys.place.Running?
  {
    var (rooms, out) := Serve(j.rooms, m);
    var k := FireAll(j, if lost then [] else E.Envelopes(out, serial));
    k.(rooms := rooms, sys := Q.Next(k.sys, Q.Execute(0)))
  }

  /** The function of from_cpp runs: a reply is received. */
  function OnFromCpp(j: Joint, out: Outgoing, serial: nat): Joint
    requires j.sys.place.Running? && SoupsKnown(j.post)
  {
    j.(post := if IsReply(out) then Receive(j.post, out.id, E.VerdictOf(out), serial) else j.post,
       sys := Q.Next(j.sys, Q.Execute(0)))
  }

  function Next(j: Joint, step: Step): Joint
    requires Enabled(j, step) && SoupsKnown(j.post)
  {
    match step
    case Submit(h, name, roomId, reqId, fired) =>
      var m := Json(Some(SendId(j.post, h, reqId)), Some(name), roomId);
      var k := j.(post := Send(j.post, h, reqId, j.next, fired), next := j.next + 1);
      if fired then Fire(k, E.Request(m, j.next)) else k
    case Move(q) => j.(sys := Q.Next(j.sys, q))
    case Handle(lost) =>
      (match j.sent[j.sys.place.call.data]
       case Request(m, serial) => OnToCpp(j, m, serial, lost)
       case Answer(out, serial) => OnFromCpp(j, out, serial))
    case Timeout(k) => j.(post := Expire(j.post, k))
  }

  // What the end-to-end model sees of it.

  /** The messages of the calls that are queued or in hand, oldest first. */
  function Abstract(j: Joint): E.World
    requires |j.sys.executed| <= |j.sent|
  {
    E.World(j.post, j.rooms, j.sent[|j.sys.executed|..], j.next, j.sent)
  }

  /** A call's data is its place in the order of firing; no call asks for a notification. */
  ghost predicate Numbered(j: Joint) {
    && Q.Inv(j.sys)
    && |j.sys.fired| == |j.sent|
    && (forall i :: 0 <= i < |j.sys.fired| ==> j.sys.fired[i].data == i && j.sys.fired[i].notify.NoNotify?)
    && !j.sys.place.Notifying? && !j.sys.place.Waking?
  }

  lemma FireKeeps(j: Joint, x: E.Wire)
    requires Numbered(j)
    ensures Numbered(Fire(j, x)) && Fire(j, x).sys.executed == j.sys.executed
  {
    Q.StepKeeps(j.sys, Q.Fire(Q.Call(if x.Request? then TO_CPP else FROM_CPP, |j.sent|, Q.NoNotify)));
  }

  lemma {:induction false} FireAllKeeps(j: Joint, xs: seq<E.Wire>)
    requires Numbered(j)
    ensures var k := FireAll(j, xs);
            && Numbered(k) && k.sys.executed == j.sys.executed && k.sent == j.sent + xs
            && k.post == j.post && k.rooms == j.rooms && k.next == j.next
    decreases |xs|
  {
    if xs != [] {
      FireKeeps(j, xs[0]);
      FireAllKeeps(Fire(j, xs[0]), xs[1..]);
      assert j.sent + [xs[0]] + xs[1..] == j.sent + xs;
    }
  }

  /** The call in hand is the oldest one that was not executed, so its message is the oldest in flight. */
  lemma InHandIsOldest(j: Joint)
    requires Numbered(j) && j.sys.place.Running?
    ensures var n := |j.sys.executed|; n < |j.sent| && j.sys.place.call.data == n && j.sys.place.call.notify.NoNotify?
  {
    var n := |j.sys.executed|;
    assert (j.sys.executed + Q.InHand(j.sys) + Q.Oldest(j.sys.queue))[n] == j.sys.place.call;
  }

  /** Running a function whose own calls are already fired. */
  lemma ExecuteKeeps(j: Joint)
    requires Numbered(j) && j.sys.place.Running?
    ensures var k := j.(sys := Q.Next(j.sys, Q.Execute(0)));
            Numbered(k) && |k.sys.executed| == |j.sys.executed| + 1
  {
    InHandIsOldest(j);
    Q.StepKeeps(j.sys, Q.Execute(0));
  }

  /** The step of the end-to-end model that a step is, if it is one. */
  function Image(step: Step): Option<E.Step> {
    match step
    case Submit(h, name, roomId, reqId, fired) => Some(E.Submit(h, name, roomId, reqId, fired))
    case Move(_) => None
    case Handle(lost) => Some(E.Deliver(lost))
    case Timeout(k) => Some(E.Timeout(k))
  }

  lemma SubmitSimulates(j: Joint, step: Step)
    requires Numbered(j) && SoupsKnown(j.post) && Enabled(j, step) && step.Submit?
    ensures var k := Next(j, step);
            Numbered(k) && Abstract(k) == E.Next(Abstract(j), Image(step).value)
  {
    var m := Json(Some(SendId(j.post, step.h, step.reqId)), Some(step.name), step.roomId);
    var k := j.(post := Send(j.post, step.h, step.reqId, j.next, step.fired), next := j.next + 1);
    if step.fired {
      FireKeeps(k, E.Request(m, j.next));
      var n := |j.sys.executed|;
      assert (j.sent + [E.Request(m, j.next)])[n..] == j.sent[n..] + [E.Request(m, j.next)];
    }
  }

  lemma RequestSimulates(j: Joint, m: Incoming, serial: nat, lost: bool)
    requires Numbered(j) && SoupsKnown(j.post) && j.sys.place.Running?
    requires var n := |j.sys.executed|; n < |j.sent| && j.sent[n] == E.Request(m, serial)
    ensures var k := OnToCpp(j, m, serial, lost);
            Numbered(k) && Abstract(k) == E.Next(Abstract(j), E.Deliver(lost))
  {
    var n := |j.sys.executed|;
    var xs := if lost then [] else E.Envelopes(Serve(j.rooms, m).1, serial);
    FireAllKeeps(j, xs);
    var k := FireAll(j, xs);
    ExecuteKeeps(k);
    Shift(j.sent, xs, n);
    assert OnToCpp(j, m, serial, lost).sent[n + 1..] == j.sent[n..][1..] + xs;
  }

  lemma AnswerSimulates(j: Joint, out: Outgoing, serial: nat, lost: bool)
    requires Numbered(j) && SoupsKnown(j.post) && j.sys.place.Running?
    requires var n := |j.sys.executed|; n < |j.sent| && j.sent[n] == E.Answer(out, serial)
    ensures var k := OnFromCpp(j, out, serial);
            Numbered(k) && Abstract(k) == E.Next(Abstract(j), E.Deliver(lost))
  {
    ExecuteKeeps(j);
    Shift(j.sent, [], |j.sys.executed|);
  }

  lemma Shift(sent: seq<E.Wire>, xs: seq<E.Wire>, n: nat)
    requires n < |sent|
    ensures sent[n..][0] == sent[n] && (sent + xs)[n + 1..] == sent[n..][1..] + xs
    ensures sent[n + 1..] == sent[n..][1..]
  {
  }

  lemma HandleSimulates(j: Joint, lost: bool)
    requires Numbered(j) && SoupsKnown(j.post) && Enabled(j, Handle(lost))
    ensures var k := Next(j, Handle(lost));
            Numbered(k) && Abstract(j).wires != [] && Abstract(k) == E.Next(Abstract(j), E.Deliver(lost))
  {
    InHandIsOldest(j);
    match j.sent[|j.sys.executed|]
    case Request(m, serial) => RequestSimulates(j, m, serial, lost);
    case Answer(out, serial) => AnswerSimulates(j, out, serial, lost);
  }

  /** The loop thread's turns, in any interleaving with the clients, deliver the messages one by one in the
      order they were sent: what they do is what the end-to-end model says, step for step. */
  lemma StepSimulates(j: Joint, step: Step)
    requires Numbered(j) && SoupsKnown(j.post) && Enabled(j, step)
    ensures var k := Next(j, step);
            && Numbered(k)
            && match Image(step)
               case Some(e) => E.Enabled(Abstract(j), e) && Abstract(k) == E.Next(Abstract(j), e)
               case None => Abstract(k) == Abstract(j)
  {
    match step
    case Submit(_, _, _, _, _) => SubmitSimulates(j, step);
    case Move(q) => Q.StepKeeps(j.sys, q);
    case Handle(lost) => HandleSimulates(j, lost);
    case Timeout(_) =>
  }

  // Runs.

  predicate Disciplined(j: Joint, step: Step)
    requires |j.sys.executed| <= |j.sent|
  {
    Image(step).Some? ==> E.Disciplined(Abstract(j), Image(step).value)
  }

  ghost predicate Inv(j: Joint) {
    Numbered(j) && E.Inv(Abstract(j))
  }

  lemma StepKeeps(j: Joint, step: Step)
    requires Inv(j) && Enabled(j, step) && Disciplined(j, step)
    ensures Inv(Next(j, step))
  {
    StepSimulates(j, step);
    if Image(step).Some? {
      E.StepKeeps(Abstract(j), Image(step).value);
    }
  }

  ghost predicate CanRun(j: Joint, steps: seq<Step>)
    decreases |steps|
  {
    steps == [] ||
    (Enabled(j, steps[0]) && SoupsKnown(j.post) && |j.sys.executed| <= |j.sent| && Disciplined(j, steps[0]) &&
     CanRun(Next(j, steps[0]), steps[1..]))
  }

  ghost function Run(j: Joint, steps: seq<Step>): Joint
    requires CanRun(j, steps)
    decreases |steps|
  {
    if steps == [] then j else Run(Next(j, steps[0]), steps[1..])
  }

  lemma {:induction false} RunKeeps(j: Joint, steps: seq<Step>)
    requires Inv(j) && CanRun(j, steps)
    ensures Inv(Run(j, steps))
    decreases |steps|
  {
    if steps != [] {
      StepKeeps(j, steps[0]);
      RunKeeps(Next(j, steps[0]), steps[1..]);
    }
  }

  function Start(handles: set<nat>): Joint {
    Joint(Q.Start, Post([], map h | h in handles :: Soup(0, Init), []), {}, [], 0)
  }

  lemma StartInv(handles: set<nat>)
    ensures Inv(Start(handles)) && E.NoneForgotten(Abstract(Start(handles)))
  {
    assert Abstract(Start(handles)) == E.Start(handles);
  }

  /** On the real queue, in every interleaving of clients, firing threads and the loop thread: each request
      is pending or called back exactly once, never twice, and a reply settles only its own request. */
  lemma SettledOnce(handles: set<nat>, steps: seq<Step>)
    requires CanRun(Start(handles), steps)
    ensures var j := Run(Start(handles), steps);
            && (forall n: nat :: E.Calls(j.post.log, n) <= 1)
            && (forall n: nat :: n < j.next ==> (E.Calls(j.post.log, n) == 1 <==> E.Pending(j.post.letters, n) == 0))
            && E.OwnReplies(j.post.log)
  {
    StartInv(handles);
    RunKeeps(Start(handles), steps);
    assert E.Accounted(Abstract(Run(Start(handles), steps)));
  }

  predicate Reliable(steps: seq<Step>) {
    forall i :: 0 <= i < |steps| && Image(steps[i]).Some? ==> E.Reliable(Image(steps[i]).value)
  }

  lemma {:induction false} RunForgetsNone(j: Joint, steps: seq<Step>)
    requires Inv(j) && CanRun(j, steps) && Reliable(steps) && E.NoneForgotten(Abstract(j))
    ensures Inv(Run(j, steps)) && E.NoneForgotten(Abstract(Run(j, steps)))
    decreases |steps|
  {
    if steps != [] {
      var step := steps[0];
      StepSimulates(j, step);
      StepKeeps(j, step);
      if Image(step).Some? {
        E.StepForgetsNone(Abstract(j), Image(step).value);
      }
      assert Reliable(steps[1..]);
      RunForgetsNone(Next(j, step), steps[1..]);
    }
  }

  /** And when the queue has come to rest, no message is in flight; if no reply was lost and every method
      answers, every request has been called back, exactly once. */
  lemma SettledAtRest(handles: set<nat>, steps: seq<Step>)
    requires CanRun(Start(handles), steps)
    requires Q.AtRest(Run(Start(handles), steps).sys)
    ensures var j := Run(Start(handles), steps);
            && |j.sys.executed| <= |j.sent| && Abstract(j).wires == []
            && (Reliable(steps) ==> j.post.letters == [] && forall n: nat :: n < j.next ==> E.Calls(j.post.log, n) == 1)
  {
    StartInv(handles);
    RunKeeps(Start(handles), steps);
    var j := Run(Start(handles), steps);
    Q.AtRestAllDone(j.sys);
    if Reliable(steps) {
      RunForgetsNone(Start(handles), steps);
      assert |j.post.letters| > 0 ==> E.Coming(Abstract(j).wires, j.post.letters[0]);
      assert E.Accounted(Abstract(j));
    }
  }

  // Everything comes to rest once no client submits.

  function Requests(wires: seq<E.Wire>): nat {
    if wires == [] then 0 else (if wires[0].Request? then 1 else 0) + Requests(wires[1..])
  }

  lemma {:induction false} RequestsJoin(a: seq<E.Wire>, b: seq<E.Wire>)
    ensures Requests(a + b) == Requests(a) + Requests(b)
  {
    if a == [] {
      assert a + b == b;
    } else {
      RequestsJoin(a[1..], b);
      assert (a + b)[1..] == a[1..] + b;
    }
  }

  lemma {:induction false} NoRequests(wires: seq<E.Wire>)
    requires forall i :: 0 <= i < |wires| ==> wires[i].Answer?
    ensures Requests(wires) == 0
  {
    if wires != [] {
      NoRequests(wires[1..]);
    }
  }

  /** Each request that waits to be served may fire two calls of weight 9. */
  function Remaining(j: Joint): nat
    requires |j.sys.executed| <= |j.sent|
  {
    Q.Remaining(j.sys) + 18 * Requests(Abstract(j).wires) + |j.post.letters|
  }

  lemma {:induction false} FireAllRemaining(j: Joint, xs: seq<E.Wire>)
    ensures Q.Remaining(FireAll(j, xs).sys) == Q.Remaining(j.sys) + 9 * |xs|
    decreases |xs|
  {
    if xs != [] {
      var k := Fire(j, xs[0]);
      assert k.sys.queue[1..] == j.sys.queue;
      FireAllRemaining(k, xs[1..]);
    }
  }

  lemma ServesAtMostTwo(rooms: set<nat>, m: Incoming)
    ensures |Serve(rooms, m).1| <= 2
  {
  }

  lemma DeliverRequests(w: E.World, lost: bool)
    requires w.wires != [] && SoupsKnown(w.post)
    ensures var v := E.Next(w, E.Deliver(lost));
            && Requests(v.wires) == Requests(w.wires) - (if w.wires[0].Request? then 1 else 0)
            && |v.post.letters| <= |w.post.letters|
  {
    match w.wires[0]
    case Request(m, serial) =>
      var out := if lost then [] else E.Envelopes(Serve(w.rooms, m).1, serial);
      RequestsJoin(w.wires[1..], out);
      NoRequests(out);
    case Answer(out, serial) =>
  }

  lemma HandleRemaining(j: Joint, lost: bool)
    requires Inv(j) && Enabled(j, Handle(lost))
    ensures var k := Next(j, Handle(lost));
            Q.Remaining(k.sys) <= Q.Remaining(j.sys) - 1 + if j.sent[|j.sys.executed|].Request? then 18 else 0
  {
    InHandIsOldest(j);
    match j.sent[|j.sys.executed|]
    case Request(m, serial) =>
      var xs := if lost then [] else E.Envelopes(Serve(j.rooms, m).1, serial);
      ServesAtMostTwo(j.rooms, m);
      FireAllRemaining(j, xs);
      FireAllKeeps(j, xs);
      InHandIsOldest(FireAll(j, xs));
      Q.StepShrinks(FireAll(j, xs).sys, Q.Execute(0));
    case Answer(_, _) => Q.StepShrinks(j.sys, Q.Execute(0));
  }

  /** Every step but a submission brings the whole system closer to rest. */
  lemma StepShrinks(j: Joint, step: Step)
    requires Inv(j) && Enabled(j, step) && !step.Submit?
    ensures Inv(Next(j, step)) && Remaining(Next(j, step)) < Remaining(j)
  {
    StepKeeps(j, step);
    StepSimulates(j, step);
    match step
    case Move(q) => Q.StepShrinks(j.sys, q);
    case Handle(lost) =>
      HandleRemaining(j, lost);
      InHandIsOldest(j);
      DeliverRequests(Abstract(j), lost);
    case Timeout(k) => ExpireTidy(j.post, k);
  }

  predicate Quiet(steps: seq<Step>) {
    forall i :: 0 <= i < |steps| ==> !steps[i].Submit?
  }

  lemma {:induction false} QuietRunsEnd(j: Joint, steps: seq<Step>)
    requires Inv(j) && CanRun(j, steps) && Quiet(steps)
    ensures Inv(Run(j, steps)) && |steps| + Remaining(Run(j, steps)) <= Remaining(j)
    decreases |steps|
  {
    if steps != [] {
      StepShrinks(j, steps[0]);
      QuietRunsEnd(Next(j, steps[0]), steps[1..]);
    }
  }

  /** No step but a submission is possible. */
  ghost predicate AtRest(j: Joint) {
    forall step: Step :: !step.Submit? ==> !Enabled(j, step)
  }

  lemma RestsTogether(j: Joint)
    requires Inv(j) && AtRest(j)
    ensures Q.AtRest(j.sys) && j.post.letters == []
  {
    if |j.post.letters| > 0 {
      assert Enabled(j, Timeout(0));
    }
    forall q: Q.Step | !q.Fire?
      ensures !Q.Enabled(j.sys, q)
    {
      if q.Execute? {
        assert !Enabled(j, Handle(false));
        if j.sys.place.Running? {
          InHandIsOldest(j);
        }
      } else {
        assert !Enabled(j, Move(q));
      }
    }
  }

  /** Once no client submits, every schedule ends within a number of steps known beforehand, whatever is lost
      and whoever times out; and where it can go no further, no message is in flight and every request ever
      submitted has been called back, exactly once, by its own reply, its timeout or the failure to send it. */
  lemma EveryRequestSettled(handles: set<nat>, steps: seq<Step>, rest: seq<Step>)
    requires CanRun(Start(handles), steps) && CanRun(Run(Start(handles), steps), rest) && Quiet(rest)
    ensures var j := Run(Start(handles), steps);
            && |j.sys.executed| <= |j.sent| && |rest| <= Remaining(j)
            && var k := Run(j, rest);
               AtRest(k) ==>
                 && k.sys.executed == k.sys.fired && k.post.letters == [] && E.OwnReplies(k.post.log)
                 && forall n: nat :: n < k.next ==> E.Calls(k.post.log, n) == 1
  {
    StartInv(handles);
    RunKeeps(Start(handles), steps);
    var j := Run(Start(handles), steps);
    QuietRunsEnd(j, rest);
    var k := Run(j, rest);
    if AtRest(k) {
      RestsTogether(k);
      Q.AtRestAllDone(k.sys);
      assert E.Accounted(Abstract(k));
    }
  }
}
