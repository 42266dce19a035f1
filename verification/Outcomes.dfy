/** What a request's callback is told: over every run, on the messages sent and the calls made. */
module Outcomes {
  import opened Options
  import opened Worker
  import opened Channel
  import opened EndToEnd
  import T = Transport

  // One message.

  /** The first pending request with the id of a reply is told what the reply says, and its handle ends in
      the state for it; every other letter and handle stays as it was. */
  lemma ReplySettles(p: Post, k: nat, verdict: Verdict, cause: nat)
    requires SoupsKnown(p) && k < |p.letters| && forall i :: 0 <= i < k ==> p.letters[i].id != p.letters[k].id
    ensures var q := Receive(p, p.letters[k].id, verdict, cause);
            var (h, serial) := (p.letters[k].soup, p.letters[k].serial);
            && q.letters == p.letters[..k] + p.letters[k + 1..]
            && h in q.soups && q.soups[h].id == 0 && q.soups - {h} == p.soups - {h}
            && (verdict == Accept ==> q.soups[h].state == Result && q.log == p.log + [Settled(h, serial, Granted, Some(cause))])
            && (verdict == Reject ==> q.soups[h].state == Error && q.log == p.log + [Settled(h, serial, Refused, Some(cause))])
            && (verdict == Neither ==> q.soups[h].state == p.soups[h].state && q.log == p.log)
  {
    assert HasId(p.letters, p.letters[k].id);
    assert IndexOf(p.letters, p.letters[k].id) == k;
  }

  // Every run.

  predicate IsAnswer(x: Wire) {
    x.Answer? && !x.out.CloseEvent?
  }

  predicate Asked(sent: seq<Wire>, n: nat) {
    exists i :: 0 <= i < |sent| && sent[i].Request? && sent[i].serial == n
  }

  predicate Answered(sent: seq<Wire>, n: nat) {
    exists i :: 0 <= i < |sent| && IsAnswer(sent[i]) && sent[i].serial == n
  }

  /** A callback caused by a reply was told what the worker's reply to that request says. One without a reply
      was told that the request could not be sent, exactly if it was not, and else that it timed out. */
  predicate Truthful(log: seq<Settled>, sent: seq<Wire>) {
    && (forall k :: 0 <= k < |log| && log[k].cause.None? ==>
          log[k].outcome == if Asked(sent, log[k].serial) then TimedOut else SendFailed)
    && (forall k :: 0 <= k < |log| && log[k].cause.Some? ==> Answered(sent, log[k].cause.value))
    && (forall k, i :: 0 <= k < |log| && 0 <= i < |sent| && IsAnswer(sent[i]) && log[k].cause == Some(sent[i].serial) ==>
          log[k].outcome == if sent[i].out.Accepted? then Granted else Refused)
  }

  /** No request is answered twice, and none that still waits to be served was answered. */
  predicate AnsweredOnceEach(wires: seq<Wire>, sent: seq<Wire>) {
    && (forall i :: 0 <= i < |wires| ==> wires[i] in sent)
    && (forall i, j :: 0 <= i < j < |wires| && wires[i].Request? && wires[j].Request? ==>
          wires[i].serial != wires[j].serial)
    && (forall i, j :: 0 <= i < |wires| && wires[i].Request? && 0 <= j < |sent| && IsAnswer(sent[j]) ==>
          wires[i].serial != sent[j].serial)
    && (forall i, j :: 0 <= i < j < |sent| && IsAnswer(sent[i]) && IsAnswer(sent[j]) ==>
          sent[i].serial != sent[j].serial)
  }

  /** What is numbered was numbered before. */
  predicate Bounded(p: Post, sent: seq<Wire>, next: nat) {
    && (forall i :: 0 <= i < |sent| ==> sent[i].serial < next)
    && (forall i :: 0 <= i < |p.log| ==> p.log[i].serial < next)
    && (forall i :: 0 <= i < |p.letters| ==> Asked(sent, p.letters[i].serial))
  }

  function LastOutcome(log: seq<Settled>, h: nat): Option<Outcome> {
    if log == [] then None
    else if log[|log| - 1].soup == h then Some(log[|log| - 1].outcome)
    else LastOutcome(log[..|log| - 1], h)
  }

  /** A handle waits while its request is pending, and else is in the state of what it was told last. */
  predicate StatesTold(p: Post) {
    forall h :: h in p.soups ==>
      p.soups[h].state ==
        if p.soups[h].id != 0 then Wait
        else match LastOutcome(p.log, h)
          case None => Init
          case Some(Granted) => Result
          case Some(_) => Error
  }

  predicate Told(w: World) {
    Truthful(w.post.log, w.sent) && AnsweredOnceEach(w.wires, w.sent) && Bounded(w.post, w.sent, w.next) && StatesTold(w.post)
  }

  lemma LastSnoc(log: seq<Settled>, e: Settled, h: nat)
    ensures LastOutcome(log + [e], h) == if e.soup == h then Some(e.outcome) else LastOutcome(log, h)
  {
    assert (log + [e])[..|log|] == log;
  }

  /** One more call of a callback, and one letter less. */
  lemma StatesMore(p: Post, q: Post, e: Settled, state: SoupState)
    requires StatesTold(p) && q.log == p.log + [e] && q.soups == p.soups[e.soup := Soup(0, state)]
    requires state == if e.outcome == Granted then Result else Error
    ensures StatesTold(q)
  {
    forall h | h in q.soups
      ensures LastOutcome(q.log, h) == if e.soup == h then Some(e.outcome) else LastOutcome(p.log, h)
    {
      LastSnoc(p.log, e, h);
    }
  }

  lemma AskedMore(sent: seq<Wire>, more: seq<Wire>, n: nat)
    ensures Asked(sent + more, n) <==> Asked(sent, n) || Asked(more, n)
    ensures Answered(sent + more, n) <==> Answered(sent, n) || Answered(more, n)
  {
    var all := sent + more;
    assert forall i :: 0 <= i < |sent| ==> all[i] == sent[i];
    assert forall i :: 0 <= i < |more| ==> all[|sent| + i] == more[i];
  }

  lemma SubmitTruthful(w: World, step: Step)
    requires Told(w) && SoupsKnown(w.post) && Enabled(w, step) && step.Submit?
    ensures var v := Next(w, step); Truthful(v.post.log, v.sent) && Bounded(v.post, v.sent, v.next)
  {
    var v := Next(w, step);
    var more := v.sent[|w.sent|..];
    assert v.sent == w.sent + more;
    forall n: nat
      ensures Asked(v.sent, n) <==> Asked(w.sent, n) || (step.fired && n == w.next)
      ensures Answered(v.sent, n) <==> Answered(w.sent, n)
    {
      AskedMore(w.sent, more, n);
      assert step.fired ==> more[0].Request? && more[0].serial == w.next;
    }
    assert !Asked(w.sent, w.next);
    assert forall i :: 0 <= i < |v.sent| && IsAnswer(v.sent[i]) ==> i < |w.sent| && v.sent[i] == w.sent[i];
    if step.fired {
      assert forall i :: 1 <= i < |v.post.letters| ==> v.post.letters[i] == w.post.letters[i - 1];
    }
  }

  lemma SubmitTold(w: World, step: Step)
    requires Told(w) && EndToEnd.Inv(w) && Enabled(w, step) && Disciplined(w, step) && step.Submit?
    ensures Told(Next(w, step))
  {
    SubmitTruthful(w, step);
    SubmitStates(w, step);
    SubmitAnswers(w, step);
  }

  lemma SubmitStates(w: World, step: Step)
    requires StatesTold(w.post) && EndToEnd.Inv(w) && Enabled(w, step) && Disciplined(w, step) && step.Submit?
    ensures StatesTold(Next(w, step).post)
  {
    if !step.fired {
      StatesMore(w.post, Next(w, step).post, Settled(step.h, w.next, SendFailed, None), Error);
    }
  }

  lemma SubmitAnswers(w: World, step: Step)
    requires Told(w) && EndToEnd.Inv(w) && Enabled(w, step) && step.Submit?
    ensures AnsweredOnceEach(Next(w, step).wires, Next(w, step).sent)
  {
    hide Truthful, StatesTold;
    var v := Next(w, step);
    assert forall i :: 0 <= i < |v.sent| && IsAnswer(v.sent[i]) ==> i < |w.sent| && v.sent[i] == w.sent[i];
    forall i | 0 <= i < |v.wires|
      ensures v.wires[i] in v.sent
    {
      if i == |w.wires| {
        assert v.sent[|w.sent|] == v.wires[i];
      }
    }
  }

  /** Serving a request sends at most one answer, to that request. */
  lemma OneAnswer(rooms: set<nat>, m: Incoming, serial: nat)
    ensures var more := Envelopes(Serve(rooms, m).1, serial);
            && (forall i :: 0 <= i < |more| ==> more[i].Answer? && more[i].serial == serial)
            && (forall i, j :: 0 <= i < j < |more| ==> !(IsAnswer(more[i]) && IsAnswer(more[j])))
  {
  }

  lemma RequestTold(w: World, lost: bool)
    requires Told(w) && EndToEnd.Inv(w) && w.wires != [] && w.wires[0].Request?
    ensures Told(Next(w, Deliver(lost)))
  {
    hide StatesTold, Serve;
    var v := Next(w, Deliver(lost));
    var x := w.wires[0];
    var more := if lost then [] else Envelopes(Serve(w.rooms, x.m).1, x.serial);
    OneAnswer(w.rooms, x.m, x.serial);
    assert v.sent == w.sent + more && v.wires == w.wires[1..] + more && v.post == w.post;
    assert w.wires[0] in w.sent;
    MoreAnswers(w, v, more);
    MoreTruthful(w, v, more);
  }

  lemma MoreAnswers(w: World, v: World, more: seq<Wire>)
    requires AnsweredOnceEach(w.wires, w.sent) && w.wires != [] && w.wires[0].Request?
    requires v.sent == w.sent + more && v.wires == w.wires[1..] + more
    requires forall i :: 0 <= i < |more| ==> more[i].Answer? && more[i].serial == w.wires[0].serial
    requires forall i, j :: 0 <= i < j < |more| ==> !(IsAnswer(more[i]) && IsAnswer(more[j]))
    ensures AnsweredOnceEach(v.wires, v.sent)
  {
    var n := |w.wires| - 1;
    assert forall i :: 0 <= i < |v.wires| ==> v.wires[i] == if i < n then w.wires[i + 1] else more[i - n];
    assert forall i :: 0 <= i < |v.sent| ==> v.sent[i] == if i < |w.sent| then w.sent[i] else more[i - |w.sent|];
    forall i | 0 <= i < |v.wires|
      ensures v.wires[i] in v.sent
    {
      if i >= n {
        assert v.sent[|w.sent| + i - n] == v.wires[i];
      } else {
        assert w.wires[i + 1] in w.sent;
      }
    }
  }

  lemma MoreTruthful(w: World, v: World, more: seq<Wire>)
    requires Told(w) && w.wires != [] && w.wires[0].Request?
    requires v.sent == w.sent + more && v.post == w.post && v.next == w.next
    requires forall i :: 0 <= i < |more| ==> more[i].Answer? && more[i].serial == w.wires[0].serial
    ensures Truthful(v.post.log, v.sent) && Bounded(v.post, v.sent, v.next)
  {
    hide StatesTold;
    assert forall i :: 0 <= i < |v.sent| ==> v.sent[i] == if i < |w.sent| then w.sent[i] else more[i - |w.sent|];
    NotYetAnswered(w);
    forall n: nat
      ensures Asked(v.sent, n) <==> Asked(w.sent, n)
      ensures Answered(w.sent, n) ==> Answered(v.sent, n)
    {
      AskedMore(w.sent, more, n);
    }
    assert w.wires[0] in w.sent;
    assert forall k :: 0 <= k < |w.post.log| ==> w.post.log[k].cause != Some(w.wires[0].serial);
  }

  lemma NotYetAnswered(w: World)
    requires AnsweredOnceEach(w.wires, w.sent) && w.wires != [] && w.wires[0].Request?
    ensures !Answered(w.sent, w.wires[0].serial)
  {
  }

  /** A reply that is received, and one that is too late or no reply. */
  lemma AnswerTold(w: World, lost: bool)
    requires Told(w) && EndToEnd.Inv(w) && w.wires != [] && w.wires[0].Answer?
    ensures Told(Next(w, Deliver(lost)))
  {
    hide Truthful, StatesTold, Bounded, AnsweredOnceEach;
    var x := w.wires[0];
    var v := Next(w, Deliver(lost));
    FewerWires(w.wires, w.sent);
    if IsReply(x.out) && HasId(w.post.letters, x.out.id) {
      var k := IndexOf(w.post.letters, x.out.id);
      ReplySettles(w.post, k, VerdictOf(x.out), x.serial);
      var e := v.post.log[|w.post.log|];
      var i :| 0 <= i < |w.sent| && w.sent[i] == x;
      ReplyTruthful(w, e, i);
      StatesMore(w.post, v.post, e, v.post.soups[e.soup].state);
      FewerBounded(w, v, k, e);
    }
  }

  lemma FewerWires(wires: seq<Wire>, sent: seq<Wire>)
    requires AnsweredOnceEach(wires, sent) && wires != []
    ensures wires[0] in sent && AnsweredOnceEach(wires[1..], sent)
  {
    assert forall i :: 0 <= i < |wires| - 1 ==> wires[1..][i] == wires[i + 1];
  }

  lemma ReplyTruthful(w: World, e: Settled, i: nat)
    requires Told(w) && i < |w.sent| && IsAnswer(w.sent[i]) && e.cause == Some(w.sent[i].serial)
    requires e.outcome == if w.sent[i].out.Accepted? then Granted else Refused
    ensures Truthful(w.post.log + [e], w.sent)
  {
    hide StatesTold, Bounded;
    var log := w.post.log + [e];
    assert forall k :: 0 <= k < |log| ==> log[k] == if k < |w.post.log| then w.post.log[k] else e;
    assert forall j :: 0 <= j < |w.sent| && IsAnswer(w.sent[j]) && w.sent[j].serial == w.sent[i].serial ==> j == i;
  }

  lemma FewerBounded(w: World, v: World, k: nat, e: Settled)
    requires Bounded(w.post, w.sent, w.next) && k < |w.post.letters| && e.serial == w.post.letters[k].serial
    requires v.sent == w.sent && v.next == w.next && v.post.log == w.post.log + [e]
    requires v.post.letters == w.post.letters[..k] + w.post.letters[k + 1..]
    ensures Bounded(v.post, v.sent, v.next)
  {
    assert forall i :: 0 <= i < |v.post.letters| ==> v.post.letters[i] == w.post.letters[if i < k then i else i + 1];
  }

  lemma TimeoutTold(w: World, k: nat)
    requires Told(w) && EndToEnd.Inv(w) && k < |w.post.letters|
    ensures Told(Next(w, Timeout(k)))
  {
    hide EndToEnd.OwnWires, EndToEnd.Accounted, EndToEnd.OwnReplies, EndToEnd.Numbered, AnsweredOnceEach, LastOutcome, Truthful;
    var v := Next(w, Timeout(k));
    var l := w.post.letters[k];
    var e := Settled(l.soup, l.serial, TimedOut, None);
    ExpireTidy(w.post, k);
    assert v.post.log == w.post.log + [e] && Asked(w.sent, l.serial);
    OnlyIndex(w.post.letters, k);
    StatesMore(w.post, v.post, e, Error);
    FewerBounded(w, v, k, e);
    hide StatesTold, Bounded;
    TimeoutTruthful(w, e);
  }

  lemma TimeoutTruthful(w: World, e: Settled)
    requires Truthful(w.post.log, w.sent) && Asked(w.sent, e.serial) && e.cause.None? && e.outcome == TimedOut
    ensures Truthful(w.post.log + [e], w.sent)
  {
    hide Asked, Answered;
    var log := w.post.log + [e];
    assert forall k :: 0 <= k < |log| ==> log[k] == if k < |w.post.log| then w.post.log[k] else e;
  }

  lemma StepTold(w: World, step: Step)
    requires Told(w) && EndToEnd.Inv(w) && Enabled(w, step) && Disciplined(w, step)
    ensures Told(Next(w, step))
  {
    match step
    case Submit(_, _, _, _, _) => SubmitTold(w, step);
    case Deliver(lost) => if w.wires[0].Request? { RequestTold(w, lost); } else { AnswerTold(w, lost); }
    case Timeout(k) => TimeoutTold(w, k);
  }

  lemma {:induction false} RunTold(w: World, steps: seq<Step>)
    requires Told(w) && EndToEnd.Inv(w) && EndToEnd.CanRun(w, steps)
    ensures Told(EndToEnd.Run(w, steps))
    decreases |steps|
  {
    hide Told, EndToEnd.Inv;
    if steps != [] {
      EndToEnd.StepKeeps(w, steps[0]);
      StepTold(w, steps[0]);
      RunTold(Next(w, steps[0]), steps[1..]);
    }
  }

  lemma StartTold(handles: set<nat>)
    ensures Told(EndToEnd.Start(handles)) && EndToEnd.Inv(EndToEnd.Start(handles))
  {
  }

  /** In every interleaving each callback is told the truth, and each handle is in the state for it. */
  lemma OutcomesTold(handles: set<nat>, steps: seq<Step>)
    requires EndToEnd.CanRun(EndToEnd.Start(handles), steps)
    ensures var w := EndToEnd.Run(EndToEnd.Start(handles), steps);
            Truthful(w.post.log, w.sent) && StatesTold(w.post)
  {
    hide EndToEnd.Inv, StatesTold, Truthful, EndToEnd.Run, EndToEnd.CanRun;
    StartTold(handles);
    RunTold(EndToEnd.Start(handles), steps);
  }

  lemma {:induction false} QueueRunTold(j: T.Joint, steps: seq<T.Step>)
    requires T.Inv(j) && T.CanRun(j, steps) && Told(T.Abstract(j))
    ensures T.Inv(T.Run(j, steps)) && Told(T.Abstract(T.Run(j, steps)))
    decreases |steps|
  {
    hide Told, EndToEnd.Inv;
    if steps != [] {
      var step := steps[0];
      T.StepSimulates(j, step);
      T.StepKeeps(j, step);
      if T.Image(step).Some? {
        StepTold(T.Abstract(j), T.Image(step).value);
      }
      QueueRunTold(T.Next(j, step), steps[1..]);
    }
  }

  /** So it is on the call queue itself: `sent` is every text fired through it. */
  lemma QueueOutcomesTold(handles: set<nat>, steps: seq<T.Step>)
    requires T.CanRun(T.Start(handles), steps)
    ensures var j := T.Run(T.Start(handles), steps);
            Truthful(j.post.log, j.sent) && StatesTold(j.post)
  {
    hide T.Inv, EndToEnd.Inv, StatesTold, Truthful, T.Run, T.CanRun;
    T.StartInv(handles);
    StartTold(handles);
    assert T.Abstract(T.Start(handles)) == EndToEnd.Start(handles);
    QueueRunTold(T.Start(handles), steps);
  }
}
