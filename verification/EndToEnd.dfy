/** The request protocol over every interleaving of sends, worker turns, reply deliveries, lost
    messages and timeouts. The shared queue is first-in first-out (module CallQueue). */
module EndToEnd {
  import opened Options
  import opened Worker
  import opened Channel

  /** A queued message; `serial` is the request it is or answers. */
  datatype Wire = Request(m: Incoming, serial: nat) | Answer(out: Outgoing, serial: nat)

  /** `wires` is oldest first; `next` numbers the next request; `sent` is every message ever queued. */
  datatype World = World(post: Post, rooms: set<nat>, wires: seq<Wire>, next: nat, sent: seq<Wire>)

  datatype Step =
    | Submit(h: nat, name: string, roomId: Option<nat>, reqId: nat, fired: bool)
    | Deliver(lost: bool) // `lost`: the worker's replies could not be queued
    | Timeout(k: nat)

  /** What the code guarantees of a step: the id loop draws a non-zero id that is not pending. */
  predicate Enabled(w: World, step: Step) {
    match step
    case Submit(h, _, _, reqId, _) => h in w.post.soups && reqId != 0 && !HasId(w.post.letters, reqId)
    case Deliver(_) => w.wires != []
    case Timeout(k) => k < |w.post.letters|
  }

  /** What is asked of the callers and of the draw: the handle is idle, and the drawn id is that of no
      reply in flight, and of no request in flight that will be answered. */
  predicate Disciplined(w: World, step: Step) {
    step.Submit? && step.h in w.post.soups ==>
      && w.post.soups[step.h].id == 0
      && forall i :: 0 <= i < |w.wires| ==> WireId(w.wires[i]) != Some(step.reqId)
  }

  /** The id under which a message is, or causes, a reply. */
  function WireId(x: Wire): Option<nat> {
    match x
    case Request(m, _) => if Answerable(m) then m.id else None
    case Answer(out, _) => if IsReply(out) then Some(out.id) else None
  }

  function Envelopes(out: seq<Outgoing>, serial: nat): (r: seq<Wire>)
    ensures |r| == |out| && forall i :: 0 <= i < |r| ==> r[i] == Answer(out[i], serial)
  {
    seq(|out|, i requires 0 <= i < |out| => Answer(out[i], serial))
  }

  function VerdictOf(out: Outgoing): Verdict {
    match out
    case Accepted(_) => Accept
    case Rejected(_, _) => Reject
    case CloseEvent(_) => Neither
  }

  function Next(w: World, step: Step): World
    requires Enabled(w, step) && SoupsKnown(w.post)
  {
    match step
    case Submit(h, name, roomId, reqId, fired) =>
      var m := Json(Some(SendId(w.post, h, reqId)), Some(name), roomId);
      var more := if fired then [Request(m, w.next)] else [];
      World(Send(w.post, h, reqId, w.next, fired), w.rooms, w.wires + more, w.next + 1, w.sent + more)
    case Deliver(lost) =>
      (match w.wires[0]
       case Request(m, serial) =>
         var (rooms, out) := Serve(w.rooms, m);
         var more := if lost then [] else Envelopes(out, serial);
         w.(rooms := rooms, wires := w.wires[1..] + more, sent := w.sent + more)
       case Answer(out, serial) =>
         w.(post := if IsReply(out) then Receive(w.post, out.id, VerdictOf(out), serial) else w.post,
            wires := w.wires[1..]))
    case Timeout(k) => w.(post := Expire(w.post, k))
  }

  // The invariant.

  /** A message in flight whose id is pending belongs to the pending request. */
  predicate OwnWires(w: World) {
    forall i, j :: 0 <= i < |w.wires| && 0 <= j < |w.post.letters| &&
                   WireId(w.wires[i]) == Some(w.post.letters[j].id) ==>
      w.wires[i].serial == w.post.letters[j].serial
  }

  function Pending(letters: seq<Letter>, n: nat): nat {
    if letters == [] then 0 else (if letters[0].serial == n then 1 else 0) + Pending(letters[1..], n)
  }

  function Calls(log: seq<Settled>, n: nat): nat {
    if log == [] then 0 else (if log[0].serial == n then 1 else 0) + Calls(log[1..], n)
  }

  /** Each request is either pending or its callback ran, and that exactly once. */
  ghost predicate Accounted(w: World) {
    forall n: nat :: Pending(w.post.letters, n) + Calls(w.post.log, n) == if n < w.next then 1 else 0
  }

  /** A callback that a reply caused was caused by the reply to its own request. */
  predicate OwnReplies(log: seq<Settled>) {
    forall i :: 0 <= i < |log| && log[i].cause.Some? ==> log[i].cause.value == log[i].serial
  }

  predicate Numbered(w: World) {
    forall i :: 0 <= i < |w.wires| ==> w.wires[i].serial < w.next
  }

  ghost predicate Inv(w: World) {
    && Numbered(w)
    && Tidy(w.post) && OwnWires(w) && Accounted(w) && OwnReplies(w.post.log)
  }

  lemma {:induction false} CallsSnoc(log: seq<Settled>, e: Settled, n: nat)
    ensures Calls(log + [e], n) == Calls(log, n) + if e.serial == n then 1 else 0
  {
    if log == [] {
      assert log + [e] == [e];
    } else {
      CallsSnoc(log[1..], e, n);
      assert (log + [e])[1..] == log[1..] + [e];
    }
  }

  lemma {:induction false} PendingWithout(letters: seq<Letter>, k: nat, n: nat)
    requires k < |letters|
    ensures Pending(letters, n) == Pending(Without(letters, k), n) + if letters[k].serial == n then 1 else 0
  {
    if k > 0 {
      PendingWithout(letters[1..], k - 1, n);
      assert Without(letters, k)[1..] == Without(letters[1..], k - 1);
    } else {
      assert Without(letters, 0) == letters[1..];
    }
  }

  /** Moving letter `k` to the log keeps the accounts. */
  lemma Settles(w: World, k: nat, e: Settled, v: World)
    requires Accounted(w) && k < |w.post.letters| && e.serial == w.post.letters[k].serial
    requires v.post.letters == Without(w.post.letters, k) && v.post.log == w.post.log + [e] && v.next == w.next
    ensures Accounted(v)
  {
    forall n: nat
      ensures Pending(v.post.letters, n) + Calls(v.post.log, n) == if n < v.next then 1 else 0
    {
      PendingWithout(w.post.letters, k, n);
      CallsSnoc(w.post.log, e, n);
    }
  }

  lemma SubmitAccounted(w: World, step: Step)
    requires Accounted(w) && SoupsKnown(w.post) && Enabled(w, step) && step.Submit?
    ensures Accounted(Next(w, step))
  {
    var v := Next(w, step);
    forall n: nat
      ensures Pending(v.post.letters, n) + Calls(v.post.log, n) == if n < v.next then 1 else 0
    {
      if step.fired {
        assert v.post.letters[1..] == w.post.letters;
      } else {
        CallsSnoc(w.post.log, v.post.log[|w.post.log|], n);
      }
    }
  }

  lemma SubmitOwnWires(w: World, step: Step)
    requires OwnWires(w) && SoupsKnown(w.post) && Enabled(w, step) && Disciplined(w, step) && step.Submit?
    ensures OwnWires(Next(w, step))
  {
    var v := Next(w, step);
    if step.fired {
      assert forall j :: 1 <= j < |v.post.letters| ==> v.post.letters[j] == w.post.letters[j - 1];
      assert forall j :: 1 <= j < |v.post.letters| ==> v.post.letters[j].id != step.reqId by {
        forall j | 1 <= j < |v.post.letters|
          ensures v.post.letters[j].id != step.reqId
        {
          assert w.post.letters[j - 1].id != step.reqId;
        }
      }
    }
  }

  lemma SubmitKeeps(w: World, step: Step)
    requires Inv(w) && Enabled(w, step) && Disciplined(w, step) && step.Submit?
    ensures Inv(Next(w, step))
  {
    SendTidy(w.post, step.h, step.reqId, w.next, step.fired);
    SubmitAccounted(w, step);
    SubmitOwnWires(w, step);
  }

  lemma FewerLetters(w: World, k: nat, wires: seq<Wire>)
    requires OwnWires(w) && k < |w.post.letters|
    requires forall i :: 0 <= i < |wires| ==> wires[i] in w.wires
    ensures forall v: World :: v.post.letters == Without(w.post.letters, k) && v.wires == wires ==> OwnWires(v)
  {
    var rest := Without(w.post.letters, k);
    assert forall j :: 0 <= j < |rest| ==> rest[j] == w.post.letters[if j < k then j else j + 1];
  }

  lemma DeliverRequestKeeps(w: World, lost: bool)
    requires Inv(w) && w.wires != [] && w.wires[0].Request?
    ensures Inv(Next(w, Deliver(lost)))
  {
    hide Serve, Pending, Calls, OwnReplies;
    var v := Next(w, Deliver(lost));
    var x := w.wires[0];
    var out := Serve(w.rooms, x.m).1;
    RepliesCarryId(w.rooms, x.m);
    assert forall i :: 0 <= i < |v.wires| ==>
      v.wires[i] == if i < |w.wires| - 1 then w.wires[i + 1] else Envelopes(out, x.serial)[i - (|w.wires| - 1)];
    assert v.post == w.post;
  }

  /** Every reply is to an answerable request and carries its id. */
  lemma RepliesCarryId(rooms: set<nat>, m: Incoming)
    ensures forall i :: 0 <= i < |Serve(rooms, m).1| && IsReply(Serve(rooms, m).1[i]) ==>
              Answerable(m) && m.id == Some(Serve(rooms, m).1[i].id)
  {
  }

  lemma DeliverAnswerKeeps(w: World, lost: bool)
    requires Inv(w) && w.wires != [] && w.wires[0].Answer?
    ensures Inv(Next(w, Deliver(lost)))
  {
    var v := Next(w, Deliver(lost));
    var x := w.wires[0];
    assert forall i :: 0 <= i < |v.wires| ==> v.wires[i] == w.wires[i + 1];
    if IsReply(x.out) && HasId(w.post.letters, x.out.id) {
      var k := IndexOf(w.post.letters, x.out.id);
      ReceiveTidy(w.post, x.out.id, VerdictOf(x.out), x.serial);
      assert WireId(x) == Some(w.post.letters[k].id) && x.serial == w.post.letters[k].serial;
      Settles(w, k, v.post.log[|w.post.log|], v);
      FewerLetters(w, k, v.wires);
    }
  }

  lemma TimeoutKeeps(w: World, k: nat)
    requires Inv(w) && k < |w.post.letters|
    ensures Inv(Next(w, Timeout(k)))
  {
    var v := Next(w, Timeout(k));
    ExpireTidy(w.post, k);
    Settles(w, k, v.post.log[|w.post.log|], v);
    FewerLetters(w, k, v.wires);
  }

  lemma StepKeeps(w: World, step: Step)
    requires Inv(w) && Enabled(w, step) && Disciplined(w, step)
    ensures Inv(Next(w, step))
  {
    match step
    case Submit(_, _, _, _, _) => SubmitKeeps(w, step);
    case Deliver(lost) => if w.wires[0].Request? { DeliverRequestKeeps(w, lost); } else { DeliverAnswerKeeps(w, lost); }
    case Timeout(k) => TimeoutKeeps(w, k);
  }

  // Runs.

  ghost predicate CanRun(w: World, steps: seq<Step>)
    decreases |steps|
  {
    steps == [] ||
    (Enabled(w, steps[0]) && SoupsKnown(w.post) && Disciplined(w, steps[0]) && CanRun(Next(w, steps[0]), steps[1..]))
  }

  ghost function Run(w: World, steps: seq<Step>): World
    requires CanRun(w, steps)
    decreases |steps|
  {
    if steps == [] then w else Run(Next(w, steps[0]), steps[1..])
  }

  /** Idle handles, no letters, no messages. */
  function Start(handles: set<nat>): World {
    World(Post([], map h | h in handles :: Soup(0, Init), []), {}, [], 0, [])
  }

  lemma {:induction false} RunKeeps(w: World, steps: seq<Step>)
    requires Inv(w) && CanRun(w, steps)
    ensures Inv(Run(w, steps))
    decreases |steps|
  {
    if steps != [] {
      StepKeeps(w, steps[0]);
      RunKeeps(Next(w, steps[0]), steps[1..]);
    }
  }

  /** In every run: pending ids are non-zero and distinct; every request submitted so far is either
      pending or settled by exactly one call of its callback; and a reply settles only the request it
      answers. */
  lemma SettledOnce(handles: set<nat>, steps: seq<Step>)
    requires CanRun(Start(handles), steps)
    ensures var w := Run(Start(handles), steps);
            && (forall i :: 0 <= i < |w.post.letters| ==> w.post.letters[i].id != 0)
            && (forall i, j :: 0 <= i < j < |w.post.letters| ==> w.post.letters[i].id != w.post.letters[j].id)
            && (forall n: nat :: Calls(w.post.log, n) <= 1)
            && (forall n: nat :: n < w.next ==> (Calls(w.post.log, n) == 1 <==> Pending(w.post.letters, n) == 0))
            && OwnReplies(w.post.log)
  {
    RunKeeps(Start(handles), steps);
  }

  /** A reply whose request is no longer pending changes neither letters, handles nor callbacks. */
  lemma LateReplyIgnored(w: World, lost: bool)
    requires Inv(w) && w.wires != [] && w.wires[0].Answer?
    requires Pending(w.post.letters, w.wires[0].serial) == 0
    ensures Next(w, Deliver(lost)).post == w.post
  {
    var x := w.wires[0];
    if IsReply(x.out) && HasId(w.post.letters, x.out.id) {
      var k := IndexOf(w.post.letters, x.out.id);
      assert WireId(x) == Some(w.post.letters[k].id);
      PendingWithout(w.post.letters, k, x.serial);
      assert false;
    }
  }

  // No request is forgotten, if nothing is lost.

  /** The method is one that answers, and the worker's replies are queued. */
  predicate Reliable(step: Step) {
    match step
    case Submit(_, name, _, _, _) => name != "worker.updateSettings"
    case Deliver(lost) => !lost
    case Timeout(_) => true
  }

  /** The request of a letter, or the reply to it, is in flight. */
  predicate Coming(wires: seq<Wire>, l: Letter) {
    exists i :: 0 <= i < |wires| && wires[i].serial == l.serial && WireId(wires[i]) == Some(l.id)
  }

  predicate NoneForgotten(w: World) {
    forall k :: 0 <= k < |w.post.letters| ==> Coming(w.wires, w.post.letters[k])
  }

  lemma ComingAmong(a: seq<Wire>, b: seq<Wire>, l: Letter)
    requires Coming(a, l)
    requires forall i :: 0 <= i < |a| && a[i].serial == l.serial && WireId(a[i]) == Some(l.id) ==> a[i] in b
    ensures Coming(b, l)
  {
    var i :| 0 <= i < |a| && a[i].serial == l.serial && WireId(a[i]) == Some(l.id);
    var j :| 0 <= j < |b| && b[j] == a[i];
  }

  lemma SubmitForgetsNone(w: World, step: Step)
    requires Inv(w) && NoneForgotten(w) && Enabled(w, step) && Disciplined(w, step) && step.Submit? && Reliable(step)
    ensures NoneForgotten(Next(w, step))
  {
    var v := Next(w, step);
    forall k | 0 <= k < |v.post.letters|
      ensures Coming(v.wires, v.post.letters[k])
    {
      if step.fired && k == 0 {
        assert v.wires[|w.wires|].serial == w.next && WireId(v.wires[|w.wires|]) == Some(step.reqId);
      } else {
        var l := w.post.letters[if step.fired then k - 1 else k];
        assert v.post.letters[k] == l;
        ComingAmong(w.wires, v.wires, l);
      }
    }
  }

  lemma FewerForgetsNone(w: World, v: World, k: nat)
    requires NoneForgotten(w) && k < |w.post.letters| && v.post.letters == Without(w.post.letters, k)
    requires forall j :: 0 <= j < |w.post.letters| && j != k && Coming(w.wires, w.post.letters[j]) ==>
               Coming(v.wires, w.post.letters[j])
    ensures NoneForgotten(v)
  {
    forall j | 0 <= j < |v.post.letters|
      ensures Coming(v.wires, v.post.letters[j])
    {
      var i := if j < k then j else j + 1;
      assert v.post.letters[j] == w.post.letters[i];
    }
  }

  lemma RequestForgetsNone(w: World)
    requires Inv(w) && NoneForgotten(w) && w.wires != [] && w.wires[0].Request?
    ensures NoneForgotten(Next(w, Deliver(false)))
  {
    var v := Next(w, Deliver(false));
    var x := w.wires[0];
    var out := Serve(w.rooms, x.m).1;
    assert v.wires == w.wires[1..] + Envelopes(out, x.serial) && v.post == w.post;
    forall k | 0 <= k < |w.post.letters|
      ensures Coming(v.wires, w.post.letters[k])
    {
      var l := w.post.letters[k];
      if x.serial == l.serial && WireId(x) == Some(l.id) {
        var j := ReplyIndex(w.rooms, x.m);
        var i := |w.wires| - 1 + j;
        assert v.wires[i] == Answer(out[j], x.serial);
      } else {
        ComingAmong(w.wires, v.wires, l);
      }
    }
  }

  lemma AnswerForgetsNone(w: World)
    requires Inv(w) && NoneForgotten(w) && w.wires != [] && w.wires[0].Answer?
    ensures NoneForgotten(Next(w, Deliver(false)))
  {
    hide Numbered, OwnWires, Accounted, OwnReplies, Coming;
    var v := Next(w, Deliver(false));
    var x := w.wires[0];
    assert v.wires == w.wires[1..];
    if IsReply(x.out) && HasId(w.post.letters, x.out.id) {
      var k := IndexOf(w.post.letters, x.out.id);
      forall j | 0 <= j < |w.post.letters| && j != k && Coming(w.wires, w.post.letters[j])
        ensures Coming(v.wires, w.post.letters[j])
      {
        ComingAmong(w.wires, v.wires, w.post.letters[j]);
      }
      FewerForgetsNone(w, v, k);
    } else {
      forall j | 0 <= j < |w.post.letters|
        ensures Coming(v.wires, w.post.letters[j])
      {
        ComingAmong(w.wires, v.wires, w.post.letters[j]);
      }
    }
  }

  lemma StepForgetsNone(w: World, step: Step)
    requires Inv(w) && NoneForgotten(w) && Enabled(w, step) && Disciplined(w, step) && Reliable(step)
    ensures NoneForgotten(Next(w, step))
  {
    match step
    case Submit(_, _, _, _, _) => SubmitForgetsNone(w, step);
    case Deliver(_) => if w.wires[0].Request? { RequestForgetsNone(w); } else { AnswerForgetsNone(w); }
    case Timeout(k) =>
      ExpireTidy(w.post, k);
      FewerForgetsNone(w, Next(w, step), k);
  }

  // The discipline is exactly what is needed.

  /** Delivering messages, `lost` saying of each whether the worker's replies to it are lost. */
  function DeliverAll(w: World, lost: seq<bool>): (v: World)
    requires Tidy(w.post)
    ensures Tidy(v.post)
    decreases |lost|
  {
    if lost == [] || w.wires == [] then w
    else
      DeliverTidy(w, lost[0]);
      DeliverAll(Next(w, Deliver(lost[0])), lost[1..])
  }

  lemma DeliverTidy(w: World, lost: bool)
    requires Tidy(w.post) && w.wires != []
    ensures Tidy(Next(w, Deliver(lost)).post)
  {
    match w.wires[0]
    case Request(m, serial) =>
    case Answer(out, serial) => if IsReply(out) { ReceiveTidy(w.post, out.id, VerdictOf(out), serial); }
  }

  /** Some schedule of deliveries ends with a reply that settles another request than its own. */
  ghost predicate CanMisdeliver(w: World)
    requires Tidy(w.post)
  {
    exists lost: seq<bool> :: !OwnReplies(DeliverAll(w, lost).post.log)
  }

  lemma DeliverFirst(w: World, first: bool)
    requires Tidy(w.post) && w.wires != []
    ensures Tidy(Next(w, Deliver(first)).post)
    ensures CanMisdeliver(Next(w, Deliver(first))) ==> CanMisdeliver(w)
  {
    DeliverTidy(w, first);
    var v := Next(w, Deliver(first));
    if lost: seq<bool> :| !OwnReplies(DeliverAll(v, lost).post.log) {
      assert ([first] + lost)[1..] == lost;
      assert DeliverAll(w, [first] + lost) == DeliverAll(v, lost);
    }
  }

  /** Request `serial` is pending as letter `k`, and no reply in flight answers it. */
  predicate Waiting(w: World, k: int, id: nat, serial: nat) {
    && 0 <= k < |w.post.letters| && w.post.letters[k].id == id && w.post.letters[k].serial == serial
    && forall j :: 0 <= j < |w.wires| && w.wires[j].Answer? ==> w.wires[j].serial != serial
  }

  /** The oldest message is a reply with that id: it calls back the wrong request. */
  lemma ReplyHits(w: World, k: int, id: nat, serial: nat)
    requires Tidy(w.post) && Waiting(w, k, id, serial)
    requires w.wires != [] && w.wires[0].Answer? && WireId(w.wires[0]) == Some(id)
    ensures CanMisdeliver(w)
  {
    var x := w.wires[0];
    OnlyIndex(w.post.letters, k);
    var v := Next(w, Deliver(false));
    var e := v.post.log[|w.post.log|];
    assert e.serial == serial && e.cause == Some(x.serial);
    assert [false][1..] == [];
    DeliverTidy(w, false);
    assert DeliverAll(v, []) == v;
    assert DeliverAll(w, [false]) == v;
  }

  /** Any other message that is delivered, its own replies lost, leaves the letter waiting. */
  lemma StillWaiting(w: World, k: int, id: nat, serial: nat) returns (k2: int)
    requires Tidy(w.post) && Waiting(w, k, id, serial) && w.wires != []
    requires !(w.wires[0].Answer? && WireId(w.wires[0]) == Some(id))
    ensures Tidy(Next(w, Deliver(true)).post) && Waiting(Next(w, Deliver(true)), k2, id, serial)
    ensures Next(w, Deliver(true)).wires == w.wires[1..]
  {
    var x := w.wires[0];
    var v := Next(w, Deliver(true));
    DeliverTidy(w, true);
    k2 := k;
    if x.Answer? && IsReply(x.out) && HasId(w.post.letters, x.out.id) {
      var gone := IndexOf(w.post.letters, x.out.id);
      k2 := if k < gone then k else k - 1;
      assert v.post.letters == Without(w.post.letters, gone);
    }
    assert v.wires == w.wires[1..];
  }

  /** A reply in flight with a pending id that is not its own request's reaches the wrong one. */
  lemma {:induction false} StaleReplyHits(w: World, i: nat, k: int, id: nat, serial: nat)
    requires Tidy(w.post) && Waiting(w, k, id, serial)
    requires i < |w.wires| && w.wires[i].Answer? && WireId(w.wires[i]) == Some(id)
    ensures CanMisdeliver(w)
    decreases i
  {
    if w.wires[0].Answer? && WireId(w.wires[0]) == Some(id) {
      ReplyHits(w, k, id, serial);
    } else {
      var k2 := StillWaiting(w, k, id, serial);
      StaleReplyHits(Next(w, Deliver(true)), i - 1, k2, id, serial);
      DeliverFirst(w, true);
    }
  }

  /** The oldest message is a request with that id: its reply reaches the wrong letter. */
  lemma RequestHits(w: World, k: int, id: nat, serial: nat)
    requires Tidy(w.post) && Waiting(w, k, id, serial)
    requires w.wires != [] && w.wires[0].Request? && WireId(w.wires[0]) == Some(id) && w.wires[0].serial != serial
    ensures CanMisdeliver(w)
  {
    hide CanMisdeliver;
    var x := w.wires[0];
    var out := Serve(w.rooms, x.m).1;
    var v := Next(w, Deliver(false));
    var n := |w.wires| - 1;
    assert forall j :: 0 <= j < |v.wires| ==>
      v.wires[j] == if j < n then w.wires[j + 1] else Envelopes(out, x.serial)[j - n];
    var j := ReplyIndex(w.rooms, x.m);
    assert v.wires[n + j] == Answer(out[j], x.serial);
    DeliverTidy(w, false);
    StaleReplyHits(v, n + j, k, id, serial);
    DeliverFirst(w, false);
  }

  /** So does the reply to a request in flight with that id, once the worker has sent it. */
  lemma {:induction false} StaleRequestHits(w: World, i: nat, k: int, id: nat, serial: nat)
    requires Tidy(w.post) && Waiting(w, k, id, serial)
    requires i < |w.wires| && w.wires[i].Request? && WireId(w.wires[i]) == Some(id) && w.wires[i].serial != serial
    ensures CanMisdeliver(w)
    decreases i
  {
    hide CanMisdeliver, Waiting, Next;
    if w.wires[0].Answer? && WireId(w.wires[0]) == Some(id) {
      ReplyHits(w, k, id, serial);
    } else if i > 0 {
      var k2 := StillWaiting(w, k, id, serial);
      StaleRequestHits(Next(w, Deliver(true)), i - 1, k2, id, serial);
      DeliverFirst(w, true);
    } else {
      RequestHits(w, k, id, serial);
    }
  }

  lemma ReplyIndex(rooms: set<nat>, m: Incoming) returns (j: nat)
    requires Answerable(m)
    ensures var out := Serve(rooms, m).1; j < |out| && IsReply(out[j]) && m.id == Some(out[j].id)
  {
    AnsweredOnce(rooms, m);
    var out := Serve(rooms, m).1;
    RepliesCarryId(rooms, m);
    j := if IsReply(out[0]) then 0 else 1;
    if !IsReply(out[0]) {
      assert Replies(out) == Replies(out[1..]);
      assert out[1..][0] == out[1];
    }
  }

  /** Drawing an id that a message in flight still carries is wrong exactly when that message is, or will
      cause, a reply: then some schedule settles a request with another one's reply. So the discipline
      of `SettledOnce` asks for nothing that is not needed. */
  lemma ReissueMisdelivers(w: World, step: Step)
    requires Inv(w) && Enabled(w, step) && step.Submit? && step.fired && w.post.soups[step.h].id == 0
    ensures Tidy(Next(w, step).post)
    ensures CanMisdeliver(Next(w, step)) <==> !Disciplined(w, step)
  {
    SendTidy(w.post, step.h, step.reqId, w.next, true);
    var v := Next(w, step);
    if !Disciplined(w, step) {
      var i :| 0 <= i < |w.wires| && WireId(w.wires[i]) == Some(step.reqId);
      assert v.post.letters[0] == Letter(step.reqId, step.h, w.next) && v.wires[i] == w.wires[i];
      assert Waiting(v, 0, step.reqId, w.next);
      if v.wires[i].Answer? {
        StaleReplyHits(v, i, 0, step.reqId, w.next);
      } else {
        StaleRequestHits(v, i, 0, step.reqId, w.next);
      }
    } else {
      StepKeeps(w, step);
      forall lost: seq<bool>
        ensures OwnReplies(DeliverAll(v, lost).post.log)
      {
        DeliveriesKeep(v, lost);
      }
    }
  }

  lemma {:induction false} DeliveriesKeep(w: World, lost: seq<bool>)
    requires Inv(w)
    ensures Inv(DeliverAll(w, lost))
    decreases |lost|
  {
    if lost != [] && w.wires != [] {
      StepKeeps(w, Deliver(lost[0]));
      DeliveriesKeep(Next(w, Deliver(lost[0])), lost[1..]);
    }
  }

  /** It happens: a request times out before the worker reads it, and its id is drawn again. */
  lemma ReissueReached()
    ensures var steps := [Submit(1, "worker.dump", None, 7, true), Timeout(0)];
            && CanRun(Start({1}), steps)
            && var w := Run(Start({1}), steps);
               var again := Submit(1, "worker.dump", None, 7, true);
               Inv(w) && Enabled(w, again) && Tidy(Next(w, again).post) && CanMisdeliver(Next(w, again))
  {
    var s0 := Start({1});
    var first := Submit(1, "worker.dump", None, 7, true);
    var s1 := Next(s0, first);
    assert s1.post.letters == [Letter(7, 1, 0)] && s1.post.soups[1] == Soup(7, Wait);
    var s2 := Next(s1, Timeout(0));
    assert s2.post.letters == [] && s2.post.soups[1] == Soup(0, Error);
    assert CanRun(s2, []);
    assert [Timeout(0)][1..] == [];
    assert CanRun(s1, [Timeout(0)]) && Run(s1, [Timeout(0)]) == s2;
    assert [first, Timeout(0)][1..] == [Timeout(0)];
    assert CanRun(s0, [first, Timeout(0)]) && Run(s0, [first, Timeout(0)]) == s2;
    RunKeeps(s0, [first, Timeout(0)]);
    assert s2.wires == [Request(Json(Some(7), Some("worker.dump"), None), 0)];
    assert WireId(s2.wires[0]) == Some(7);
    ReissueMisdelivers(s2, first);
  }
}
