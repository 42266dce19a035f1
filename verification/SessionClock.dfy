/** When sessions expire, told by the clock: by the times at which they were created, used and looked at. */
module SessionClock {
  import opened Options
  import opened Sessions

  /** What an observer writes down about session `p`: the clock, the time of its last use, whether its transport
      left, and how many looks found it due. */
  datatype Notes = Notes(clock: int, used: int, left: bool, due: nat)

  predicate DueNow(n: Notes, c: Config) {
    n.clock - n.used >= c.session || (n.left && n.clock - n.used >= c.reclaim)
  }

  /** The observer adds up the ticks, and sees which session a step works on, but none of its fields. */
  function Observe(n: Notes, s: State, step: Step, p: nat): Notes
    requires SubjectKnown(s, step)
  {
    match step
    case Tick(dt) => n.(clock := n.clock + dt)
    case Create(r) => if s.next == p then Notes(n.clock, n.clock, false, 0) else n
    case Touch(r) => if s.reqs[r].p == p then n.(used := n.clock) else n
    case TransportGone(id) => if s.table[id] == p && n.due == 0 then n.(left := true) else n
    case Look(id) => if s.table[id] == p && DueNow(n, s.config) then n.(due := n.due + 1) else n
    case _ => n
  }

  ghost function Observed(n: Notes, s: State, steps: seq<Step>, p: nat): Notes
    requires Inv(s) && CleanRun(s, steps)
    decreases |steps|
  {
    if steps == [] then n
    else
      StepKeeps(s, steps[0]);
      Observed(Observe(n, s, steps[0], p), Next(s, steps[0]), steps[1..], p)
  }

  const NOTHING := Notes(0, 0, false, 0)

  /** The notes agree with the fields. */
  predicate Agrees(n: Notes, s: State, p: nat) {
    && n.clock == s.now
    && (p in s.heap ==> n.used == s.heap[p].last && n.left == s.heap[p].gone && n.due == s.heap[p].marks)
  }

  lemma StepAgrees(n: Notes, s: State, step: Step, p: nat)
    requires Inv(s) && SubjectKnown(s, step) && Agrees(n, s, p)
    ensures Agrees(Observe(n, s, step, p), Next(s, step), p)
    ensures Next(s, step).config == s.config
  {
    hide Staged;
    if step.Look? {
      LookAgrees(n, s, step.id, p);
    } else if p in s.heap {
      assert Accounted(s, p);
    }
  }

  lemma LookAgrees(n: Notes, s: State, id: nat, p: nat)
    requires Inv(s) && SubjectKnown(s, Look(id)) && Agrees(n, s, p)
    ensures Agrees(Observe(n, s, Look(id), p), Next(s, Look(id)), p) && Next(s, Look(id)).config == s.config
  {
    hide Staged;
    assert Accounted(s, s.table[id]);
  }

  lemma {:induction false} RunAgrees(n: Notes, s: State, steps: seq<Step>, p: nat)
    requires Inv(s) && CleanRun(s, steps) && Agrees(n, s, p)
    ensures Agrees(Observed(n, s, steps, p), Run(s, steps), p) && Run(s, steps).config == s.config
    decreases |steps|
  {
    hide Agrees, Inv, Next, Observe;
    if steps != [] {
      StepKeeps(s, steps[0]);
      StepAgrees(n, s, steps[0], p);
      RunAgrees(Observe(n, s, steps[0], p), Next(s, steps[0]), steps[1..], p);
    }
  }

  /** In every run from the empty table, a look expires a session exactly when by the clock it is due, not used
      for the session timeout, or for the reclaim timeout since its transport left, and an earlier look found
      it due too or both hold at once. */
  lemma ExpiryByClock(config: Config, steps: seq<Step>, id: nat, p: nat)
    requires CleanRun(Empty(config), steps)
    requires var s := Run(Empty(config), steps); SubjectKnown(s, Look(id)) && s.table[id] == p
    ensures var s := Run(Empty(config), steps);
            var n := Observed(NOTHING, Empty(config), steps, p);
            var idle := n.clock - n.used;
            Next(s, Look(id)).watch == Expiring(p) <==>
              && (idle >= config.session || (n.left && idle >= config.reclaim))
              && (n.due > 0 || (idle >= config.session && n.left && idle >= config.reclaim))
  {
    hide CleanRun, Run, Observed;
    RunAgrees(NOTHING, Empty(config), steps, p);
    var s := Run(Empty(config), steps);
    assert Accounted(s, p);
  }

  // Uses.

  predicate Uses(s: State, step: Step, p: nat)
    requires SubjectKnown(s, step)
  {
    (step.Create? && s.next == p) || (step.Touch? && s.reqs[step.r].p == p)
  }

  function Passes(step: Step): nat {
    if step.Tick? then step.dt else 0
  }

  /** Some step of the run created or used the session when the clock showed `t`; it shows `clock` at first. */
  ghost predicate UsedAt(s: State, steps: seq<Step>, clock: int, p: nat, t: int)
    requires Inv(s) && CleanRun(s, steps)
    decreases |steps|
  {
    steps != [] &&
    ((Uses(s, steps[0], p) && t == clock) ||
     (StepKeeps(s, steps[0]); UsedAt(Next(s, steps[0]), steps[1..], clock + Passes(steps[0]), p, t)))
  }

  /** The notes keep the latest use. */
  lemma {:induction false} LatestUse(n: Notes, s: State, steps: seq<Step>, p: nat, t: int)
    requires Inv(s) && CleanRun(s, steps) && n.used <= n.clock
    ensures var m := Observed(n, s, steps, p);
            n.used <= m.used <= m.clock && (UsedAt(s, steps, n.clock, p, t) ==> t <= m.used)
    decreases |steps|
  {
    hide Inv, Next;
    if steps != [] {
      StepKeeps(s, steps[0]);
      LatestUse(Observe(n, s, steps[0], p), Next(s, steps[0]), steps[1..], p, t);
      assert Observe(n, s, steps[0], p).clock == n.clock + Passes(steps[0]);
    }
  }

  function Elapsed(steps: seq<Step>): nat {
    if steps == [] then 0 else Passes(steps[0]) + Elapsed(steps[1..])
  }

  lemma {:induction false} ClockElapsed(n: Notes, s: State, steps: seq<Step>, p: nat)
    requires Inv(s) && CleanRun(s, steps)
    ensures Observed(n, s, steps, p).clock == n.clock + Elapsed(steps)
    decreases |steps|
  {
    hide Inv, Next;
    if steps != [] {
      StepKeeps(s, steps[0]);
      ClockElapsed(Observe(n, s, steps[0], p), Next(s, steps[0]), steps[1..], p);
    }
  }

  /** A transport of the session left in the run. */
  ghost predicate TransportLeft(s: State, steps: seq<Step>, p: nat)
    requires Inv(s) && CleanRun(s, steps)
    decreases |steps|
  {
    steps != [] &&
    ((steps[0].TransportGone? && s.table[steps[0].id] == p) ||
     (StepKeeps(s, steps[0]); TransportLeft(Next(s, steps[0]), steps[1..], p)))
  }

  lemma {:induction false} LeftByStep(n: Notes, s: State, steps: seq<Step>, p: nat)
    requires Inv(s) && CleanRun(s, steps) && !n.left && !TransportLeft(s, steps, p)
    ensures !Observed(n, s, steps, p).left
    decreases |steps|
  {
    hide Inv, Next;
    if steps != [] {
      StepKeeps(s, steps[0]);
      LeftByStep(Observe(n, s, steps[0], p), Next(s, steps[0]), steps[1..], p);
    }
  }

  /** Activity counts: a session whose transport never left expires at a look only if neither its creation nor
      any use of it lies less than the session timeout before that look. */
  lemma ActivityCounts(config: Config, steps: seq<Step>, id: nat, p: nat, t: int)
    requires CleanRun(Empty(config), steps) && !TransportLeft(Empty(config), steps, p)
    requires var s := Run(Empty(config), steps);
             SubjectKnown(s, Look(id)) && s.table[id] == p && Next(s, Look(id)).watch == Expiring(p)
    ensures UsedAt(Empty(config), steps, 0, p, t) ==> Elapsed(steps) - t >= config.session
  {
    hide CleanRun, Run, Observed, UsedAt, TransportLeft, Next;
    ExpiryByClock(config, steps, id, p);
    LatestUse(NOTHING, Empty(config), steps, p, t);
    ClockElapsed(NOTHING, Empty(config), steps, p);
    LeftByStep(NOTHING, Empty(config), steps, p);
  }

  /** With a session timeout below one second no session ever expires. */
  lemma {:induction false} NoWatchdog(s: State, steps: seq<Step>)
    requires Inv(s) && CleanRun(s, steps) && s.watch.Off? && s.config.session < 1000000
    ensures Run(s, steps).watch.Off?
    decreases |steps|
  {
    if steps != [] {
      StepKeeps(s, steps[0]);
      StillOff(s, steps[0]);
      hide Next, Inv, Enabled;
      NoWatchdog(Next(s, steps[0]), steps[1..]);
    }
  }

  lemma StillOff(s: State, step: Step)
    requires SubjectKnown(s, step) && s.watch.Off? && s.config.session < 1000000
    ensures Next(s, step).watch.Off? && Next(s, step).config == s.config
  {
  }
}
