/** The cross-thread call queue of uv3/uv_callback.c as a step system: any number of threads fire
    calls, one loop thread runs them. Every step is one section of the code that no other thread can
    split: the two critical sections of the mutex, uv_async_send, and the loop thread's own moves. */
module CallQueue {
  /** Where the result of a call goes: nowhere, to a callback of this loop, or to another loop. */
  datatype Notify = NoNotify | Here(callback: nat) | Elsewhere

  datatype Call = Call(callback: nat, data: int, notify: Notify)

  /** Where the loop thread stands inside `uv_callback_async_cb`. */
  datatype Place =
    | Resting
    | Dequeuing            // the callback was entered
    | Running(call: Call)  // a call was taken, its function is next
    | Notifying(callback: nat, result: int)
    | Waking               // the notification is queued, its wakeup is not sent yet
    | Arming               // about to make sure the idle handle is active
    | Stopping             // the queue was empty, about to stop the idle handle

  /** `queue` is newest first, as the code links it. `unsent` counts the threads between their
      critical section and `uv_async_send`. `fired` and `executed` record history. */
  datatype System = System(
    queue: seq<Call>, pending: bool, idle: bool, unsent: nat, place: Place,
    fired: seq<Call>, executed: seq<Call>)

  datatype Step =
    | Fire(call: Call)
    | Send
    | WakeAsync
    | WakeIdle
    | Dequeue
    | Execute(result: int)
    | NotifyFire
    | NotifySend
    | Arm
    | Stop

  const Start := System([], false, false, 0, Resting, [], [])

  predicate Enabled(s: System, step: Step) {
    match step
    case Fire(_) => true
    case Send => s.unsent > 0
    case WakeAsync => s.place.Resting? && s.pending
    case WakeIdle => s.place.Resting? && s.idle
    case Dequeue => s.place.Dequeuing?
    case Execute(_) => s.place.Running?
    case NotifyFire => s.place.Notifying?
    case NotifySend => s.place.Waking?
    case Arm => s.place.Arming?
    case Stop => s.place.Stopping?
  }

  function Push(s: System, call: Call): System {
    s.(queue := [call] + s.queue, fired := s.fired + [call])
  }

  function Next(s: System, step: Step): System
    requires Enabled(s, step)
  {
    match step
    case Fire(call) => Push(s, call).(unsent := s.unsent + 1)
    case Send => s.(unsent := s.unsent - 1, pending := true)
    case WakeAsync => s.(pending := false, place := Dequeuing)
    case WakeIdle => s.(place := Dequeuing)
    case Dequeue =>
      if s.queue == [] then s.(place := Stopping)
      else s.(queue := s.queue[..|s.queue| - 1], place := Running(s.queue[|s.queue| - 1]))
    case Execute(result) =>
      var call := s.place.call;
      s.(executed := s.executed + [call],
         place := if call.notify.Here? then Notifying(call.notify.callback, result) else Arming)
    case NotifyFire => Push(s, Call(s.place.callback, s.place.result, NoNotify)).(place := Waking)
    case NotifySend => s.(pending := true, place := Arming)
    case Arm => s.(idle := true, place := Resting)
    case Stop => s.(idle := false, place := Resting)
  }

  /** A run of enabled steps, and the state it leads to. */
  predicate CanRun(s: System, steps: seq<Step>)
    decreases |steps|
  {
    steps == [] || (Enabled(s, steps[0]) && CanRun(Next(s, steps[0]), steps[1..]))
  }

  function Run(s: System, steps: seq<Step>): System
    requires CanRun(s, steps)
    decreases |steps|
  {
    if steps == [] then s else Run(Next(s, steps[0]), steps[1..])
  }

  function Oldest(queue: seq<Call>): seq<Call> {
    if queue == [] then [] else Oldest(queue[1..]) + [queue[0]]
  }

  lemma {:induction false} OldestTake(queue: seq<Call>)
    requires queue != []
    ensures Oldest(queue) == [queue[|queue| - 1]] + Oldest(queue[..|queue| - 1])
  {
    if |queue| > 1 {
      OldestTake(queue[1..]);
      assert queue[1..][..|queue| - 2] == queue[..|queue| - 1][1..];
    }
  }

  /** The call the loop thread took and has not run yet. */
  function InHand(s: System): seq<Call> {
    if s.place.Running? then [s.place.call] else []
  }

  /** A queued call is always covered: by a pending wakeup, by a thread that is about to send one,
      by the idle handle, or by a loop thread that is on its way to start the idle handle. */
  predicate Covered(s: System) {
    || s.queue == []
    || s.pending
    || s.unsent > 0
    || match s.place {
         case Resting => s.idle
         case Stopping => false
         case _ => true
       }
  }

  predicate Inv(s: System) {
    && s.fired == s.executed + InHand(s) + Oldest(s.queue)
    && Covered(s)
  }

  lemma PushKeeps(s: System, call: Call)
    requires s.fired == s.executed + InHand(s) + Oldest(s.queue)
    ensures Push(s, call).fired == s.executed + InHand(s) + Oldest(Push(s, call).queue)
  {
    assert Push(s, call).queue[1..] == s.queue;
  }

  lemma StepKeeps(s: System, step: Step)
    requires Inv(s) && Enabled(s, step)
    ensures Inv(Next(s, step))
  {
    match step
    case Fire(call) => PushKeeps(s, call);
    case NotifyFire => PushKeeps(s, Call(s.place.callback, s.place.result, NoNotify));
    case Dequeue => if s.queue != [] { OldestTake(s.queue); }
    case _ =>
  }

  /** Every interleaving keeps the invariant. */
  lemma {:induction false} RunKeeps(s: System, steps: seq<Step>)
    requires Inv(s) && CanRun(s, steps)
    ensures Inv(Run(s, steps))
    decreases |steps|
  {
    if steps != [] {
      StepKeeps(s, steps[0]);
      RunKeeps(Next(s, steps[0]), steps[1..]);
    }
  }

  /** In every run, calls are executed in the one global order in which they were fired, each at
      most once and with the callback it was fired with. */
  lemma GlobalFireOrder(steps: seq<Step>)
    requires CanRun(Start, steps)
    ensures var s := Run(Start, steps); s.executed <= s.fired
  {
    RunKeeps(Start, steps);
  }

  /** Between two turns of the loop thread, a queued call has a pending wakeup, an active idle handle
      or a thread about to send. */
  lemma NeverForgotten(steps: seq<Step>)
    requires CanRun(Start, steps)
    ensures var s := Run(Start, steps);
            s.place.Resting? && s.queue != [] ==> s.pending || s.idle || s.unsent > 0
  {
    RunKeeps(Start, steps);
  }

  // What is still to be done once nobody fires any more.

  function Weight(call: Call): nat {
    if call.notify.Here? then 14 else 4
  }

  function QueueWeight(queue: seq<Call>): nat {
    if queue == [] then 0 else Weight(queue[0]) + QueueWeight(queue[1..])
  }

  lemma {:induction false} QueueWeightTake(queue: seq<Call>)
    requires queue != []
    ensures QueueWeight(queue) == QueueWeight(queue[..|queue| - 1]) + Weight(queue[|queue| - 1])
  {
    if |queue| > 1 {
      QueueWeightTake(queue[1..]);
      assert queue[1..][..|queue| - 2] == queue[..|queue| - 1][1..];
    }
  }

  function PlaceWeight(s: System): nat {
    match s.place
    case Resting => if s.idle then 4 else 0
    case Dequeuing => 3
    case Running(call) => if call.notify.Here? then 16 else 6
    case Notifying(_, _) => 15
    case Waking => 10
    case Arming => 5
    case Stopping => 1
  }

  function Remaining(s: System): nat {
    QueueWeight(s.queue) + PlaceWeight(s) + 5 * s.unsent + (if s.pending then 4 else 0)
  }

  lemma StepShrinks(s: System, step: Step)
    requires Enabled(s, step) && !step.Fire?
    ensures Remaining(Next(s, step)) < Remaining(s)
  {
    match step
    case Dequeue => if s.queue != [] { QueueWeightTake(s.queue); }
    case NotifyFire => assert Next(s, step).queue[1..] == s.queue;
    case _ =>
  }

  predicate Quiet(steps: seq<Step>) {
    forall i :: 0 <= i < |steps| ==> !steps[i].Fire?
  }

  /** Once nobody fires, every schedule comes to rest within `Remaining(s)` steps ... */
  lemma {:induction false} QuietRunsEnd(s: System, steps: seq<Step>)
    requires CanRun(s, steps) && Quiet(steps)
    ensures |steps| + Remaining(Run(s, steps)) <= Remaining(s)
    decreases |steps|
  {
    if steps != [] {
      StepShrinks(s, steps[0]);
      QuietRunsEnd(Next(s, steps[0]), steps[1..]);
    }
  }

  /** No step but firing is possible. */
  ghost predicate AtRest(s: System) {
    forall step: Step :: !step.Fire? ==> !Enabled(s, step)
  }

  /** ... and it can rest only where every fired call has been executed: no wakeup is lost. */
  lemma AtRestAllDone(s: System)
    requires Inv(s) && AtRest(s)
    ensures s.executed == s.fired
  {
    var probe := [Send, WakeAsync, WakeIdle, Dequeue, Execute(0), NotifyFire, NotifySend, Arm, Stop];
    assert forall i :: 0 <= i < |probe| ==> !probe[i].Fire? && !Enabled(s, probe[i]);
    assert !Enabled(s, probe[0]) && !Enabled(s, probe[1]) && !Enabled(s, probe[2]) && !Enabled(s, probe[3]) &&
      !Enabled(s, probe[4]) && !Enabled(s, probe[5]) && !Enabled(s, probe[6]) && !Enabled(s, probe[7]) && !Enabled(s, probe[8]);
  }

  /** Exactly once: after any run in which the last steps are not fires and nothing is left to do,
      the executed calls are the fired calls, in order. */
  lemma ExactlyOnce(steps: seq<Step>, rest: seq<Step>)
    requires CanRun(Start, steps) && CanRun(Run(Start, steps), rest)
    ensures Quiet(rest) ==> |rest| <= Remaining(Run(Start, steps))
    ensures var s := Run(Run(Start, steps), rest); AtRest(s) ==> s.executed == s.fired
  {
    RunKeeps(Start, steps);
    RunKeeps(Run(Start, steps), rest);
    if Quiet(rest) {
      QuietRunsEnd(Run(Start, steps), rest);
    }
    if AtRest(Run(Run(Start, steps), rest)) {
      AtRestAllDone(Run(Run(Start, steps), rest));
    }
  }

  // Results.

  /** The calls that the executions of a run owe to the callbacks asked for: one for each call that asks for a
      notification on this loop, with the result of that execution. */
  function Owed(s: System, steps: seq<Step>): seq<Call>
    requires CanRun(s, steps)
    decreases |steps|
  {
    if steps == [] then []
    else OwedNow(s, steps[0]) + Owed(Next(s, steps[0]), steps[1..])
  }

  /** The calls that a run fires besides those of its own Fire steps. */
  function FiredBesides(s: System, steps: seq<Step>): seq<Call>
    requires CanRun(s, steps)
    decreases |steps|
  {
    if steps == [] then []
    else FiredNow(s, steps[0]) + FiredBesides(Next(s, steps[0]), steps[1..])
  }

  function Fired(s: System, t: System): seq<Call> {
    if |s.fired| <= |t.fired| then t.fired[|s.fired|..] else []
  }

  /** The notification that was not fired yet. */
  function Due(s: System): seq<Call> {
    match s.place
    case Notifying(callback, result) => [Call(callback, result, NoNotify)]
    case _ => []
  }

  lemma Regroup(x: seq<Call>, f: seq<Call>, d: seq<Call>, e: seq<Call>, o: seq<Call>, w: seq<Call>, b: seq<Call>)
    requires f + d == e + o && x + e == b + w
    ensures (x + f) + d == b + (w + o)
  {
    assert (x + f) + d == x + (f + d) == (x + e) + o;
  }

  function OwedNow(s: System, step: Step): seq<Call>
    requires Enabled(s, step)
  {
    match step
    case Execute(result) =>
      (match s.place.call.notify
       case Here(callback) => [Call(callback, result, NoNotify)]
       case _ => [])
    case _ => []
  }

  function FiredNow(s: System, step: Step): seq<Call>
    requires Enabled(s, step)
  {
    if step.Fire? then [] else Fired(s, Next(s, step))
  }

  lemma StepOwes(s: System, step: Step)
    requires Enabled(s, step)
    ensures FiredNow(s, step) + Due(Next(s, step)) == Due(s) + OwedNow(s, step)
  {
  }

  /** Each result reaches the callback asked for, with its value, in order of execution: these calls are fired,
      and nothing else is, besides what the threads fire. */
  lemma {:induction false} ResultsArrive(s: System, steps: seq<Step>)
    requires CanRun(s, steps)
    ensures FiredBesides(s, steps) + Due(Run(s, steps)) == Due(s) + Owed(s, steps)
    decreases |steps|
  {
    hide Next, Due, FiredNow, OwedNow;
    if steps != [] {
      StepOwes(s, steps[0]);
      var t := Next(s, steps[0]);
      ResultsArrive(t, steps[1..]);
      Regroup(FiredNow(s, steps[0]), FiredBesides(t, steps[1..]), Due(Run(t, steps[1..])), Due(t), Owed(t, steps[1..]),
              OwedNow(s, steps[0]), Due(s));
    }
  }

  /** From the start to a rest: all of them have been executed. */
  lemma ResultsExecuted(steps: seq<Step>)
    requires CanRun(Start, steps) && AtRest(Run(Start, steps))
    ensures FiredBesides(Start, steps) == Owed(Start, steps)
    ensures Run(Start, steps).executed == Run(Start, steps).fired
  {
    hide Run, CanRun, Owed, FiredBesides;
    RunKeeps(Start, steps);
    ResultsArrive(Start, steps);
    AtRestAllDone(Run(Start, steps));
    assert !Enabled(Run(Start, steps), NotifyFire);
    assert Due(Run(Start, steps)) == [] && Due(Start) == [];
    assert FiredBesides(Start, steps) == FiredBesides(Start, steps) + [];
  }
}
