/** How many live connections a database has after each step, and when there are more than its limit. */
module PoolLimits {
  import opened Options
  import opened Pool
  import opened PoolRuns
  import opened PoolCounts

  function LiveOf(p: Pool, i: nat): nat
    requires i < |p.dbs|
  {
    |LiveSet(p.conns, p.dbs[i].name)|
  }

  /** The connections of a database that the rescan loop leaves. */
  lemma {:induction false} RescanLive(p: Pool, name: string, ok: nat -> bool, n: string)
    requires Base(p)
    ensures |LiveSet(Rescan(p, name, ok).0.conns, n)| ==
              |LiveSet(p.conns, n)| - if n == name then Failing(p.freeList, p.conns, name, ok) else 0
    decreases Errors(p.freeList, p.conns, name)
  {
    hide RollBack, LiveSet;
    FirstCases(p.freeList, p.conns, name, ok);
    var k := FindFree(p.freeList, p.conns, name);
    if k < |p.freeList| && p.conns[p.freeList[k]].inError {
      var c := p.freeList[k];
      RollBackBase(p, c, ok(c));
      RollBackProgress(p, c, ok(c), name);
      RoundFailing(p, c, name, ok);
      RoundLive(p, c, ok(c), n);
      RescanLive(RollBack(p, c, ok(c)), name, ok, n);
    }
  }

  lemma RoundLive(p: Pool, c: nat, good: bool, n: string)
    requires Base(p) && c in p.freeList
    ensures |LiveSet(RollBack(p, c, good).conns, n)| ==
              |LiveSet(p.conns, n)| - if !good && p.conns[c].name == n then 1 else 0
  {
    hide RollBack;
    RollBackLists(p, c, good);
    if good {
      SameNames(p.conns, RollBack(p, c, good).conns);
    } else {
      LiveLess(p.conns, c, n);
    }
  }

  lemma FreshLive(q: Pool, h: nat, i: nat, connects: bool, n: string)
    requires Base(q) && h in q.handles && i < |q.dbs|
    ensures var r := Fresh(q, h, i, connects).0;
            |LiveSet(r.conns, n)| ==
              |LiveSet(q.conns, n)| + if !AtLimit(q.dbs[i]) && connects && q.dbs[i].name == n then 1 else 0
  {
    if !AtLimit(q.dbs[i]) {
      var a := Add(q, i);
      LiveMore(q.conns, q.nextConn, a.conns[q.nextConn], n);
      if connects {
        SameNames(a.conns, CheckOut(a, q.nextConn).conns);
      } else {
        LiveLess(a.conns, q.nextConn, n);
      }
    }
  }

  /** A setup of database `i` gets to a new connection, and that connects. */
  predicate Opens(p: Pool, i: nat, ok: nat -> bool, connects: bool)
    requires i < |p.dbs|
  {
    !Serves(p.freeList, p.conns, p.dbs[i].name, ok) && !AtLimit(p.dbs[i]) && connects
  }

  lemma ConnNextLive(p: Pool, h: nat, i: nat, ok: nat -> bool, connects: bool, n: string)
    requires Base(p) && h in p.handles && i < |p.dbs|
    ensures var name := p.dbs[i].name;
            |LiveSet(ConnNext(p, h, i, ok, connects).0.conns, n)| == |LiveSet(p.conns, n)|
              + (if n == name && Opens(p, i, ok, connects) then 1 else 0)
              - (if n == name then Failing(p.freeList, p.conns, name, ok) else 0)
  {
    hide Fresh, LiveSet, Rescan, Serves, Failing;
    var name := p.dbs[i].name;
    RescanServes(p, name, ok);
    RescanFinds(p, name, ok);
    RescanCounts(p, name, ok, i);
    RescanLive(p, name, ok, n);
    var (q, found) := Rescan(p, name, ok);
    if found.Some? {
      SameNames(q.conns, CheckOut(q, found.value).conns);
    } else {
      FreshLive(q, h, i, connects, n);
    }
  }

  lemma AcquireLive(p: Pool, h: nat, i: nat, ok: nat -> bool, connects: bool, n: string)
    requires Base(p) && h in p.handles && i < |p.dbs|
    ensures var name := p.dbs[i].name;
            |LiveSet(Acquire(p, h, i, ok, connects).0.conns, n)| == |LiveSet(p.conns, n)|
              + (if n == name && Opens(p, i, ok, connects) then 1 else 0)
              - (if n == name then Failing(p.freeList, p.conns, name, ok) else 0)
  {
    hide ConnNext, LiveSet, Base, Opens, Failing;
    ConnNextLive(p, h, i, ok, connects, n);
    ConnNextBase(p, h, i, ok, connects);
    var (w, taken) := ConnNext(p, h, i, ok, connects);
    SameNames(w.conns, Attach(w, h, taken).conns);
  }

  /** The step opens a connection of database `i`. */
  predicate Opened(p: Pool, step: Step, i: nat)
    requires Enabled(p, step) && i < |p.dbs|
  {
    && step.SetUp? && !Refused(p.handles[step.h], step.async, step.sync)
    && FindDb(p.dbs, step.name) == i && Opens(p, i, step.ok, step.connects)
  }

  /** How many connections that were live before the step tears down, all of one database. */
  function Torn(p: Pool, step: Step): nat
    requires Enabled(p, step)
  {
    match step
    case SetUp(h, name, async, sync, ok, _) =>
      if Refused(p.handles[h], async, sync) || FindDb(p.dbs, name) == |p.dbs| then 0
      else Failing(p.freeList, p.conns, name, ok)
    case Lost(_) => 1
    case _ => 0
  }

  lemma SetupLive(p: Pool, step: Step, i: nat)
    requires Sound(p) && Enabled(p, step) && step.SetUp? && i < |p.dbs|
    ensures var n := p.dbs[i].name;
            |LiveSet(Next(p, step).conns, n)| ==
              LiveOf(p, i) + (if Opened(p, step, i) then 1 else 0) - (if n == step.name then Torn(p, step) else 0)
  {
    hide Acquire, LiveSet;
    var v := Flagged(p.handles[step.h], step.async, step.sync);
    var q := SetHandle(p, step.h, v);
    SetHandleBase(p, step.h, v);
    var k := FindDb(p.dbs, step.name);
    if !Refused(p.handles[step.h], step.async, step.sync) && k < |p.dbs| {
      AcquireLive(q, step.h, k, step.ok, step.connects, p.dbs[i].name);
    }
  }

  predicate SameDb(a: seq<Db>, b: seq<Db>, i: nat) {
    i < |a| == |b| && b[i].name == a[i].name && b[i].max == a[i].max
  }

  lemma FreshShape(q: Pool, h: nat, i: nat, connects: bool, k: nat)
    requires h in q.handles && i < |q.dbs| && k < |q.dbs|
    ensures SameDb(q.dbs, Fresh(q, h, i, connects).0.dbs, k)
  {
  }

  lemma ConnNextShape(p: Pool, h: nat, i: nat, ok: nat -> bool, connects: bool, k: nat)
    requires Base(p) && h in p.handles && i < |p.dbs| && k < |p.dbs|
    ensures SameDb(p.dbs, ConnNext(p, h, i, ok, connects).0.dbs, k)
  {
    hide Fresh, Rescan, Base;
    var name := p.dbs[i].name;
    RescanFinds(p, name, ok);
    FreshShape(Rescan(p, name, ok).0, h, i, connects, k);
  }

  lemma SetupShape(p: Pool, step: Step, i: nat)
    requires Sound(p) && Enabled(p, step) && step.SetUp? && i < |p.dbs|
    ensures SameDb(p.dbs, Next(p, step).dbs, i)
  {
    hide ConnNext, Paired;
    var q := SetHandle(p, step.h, Flagged(p.handles[step.h], step.async, step.sync));
    SetHandleBase(p, step.h, Flagged(p.handles[step.h], step.async, step.sync));
    var k := FindDb(q.dbs, step.name);
    if k < |q.dbs| {
      ConnNextBase(q, step.h, k, step.ok, step.connects);
      ConnNextShape(q, step.h, k, step.ok, step.connects, i);
    }
  }

  /** The databases keep their names and limits. */
  lemma StepShape(p: Pool, step: Step, i: nat)
    requires Sound(p) && Enabled(p, step) && i < |p.dbs|
    ensures var q := Next(p, step);
            var k := Place(p, step, i);
            k < |q.dbs| && q.dbs[k].name == p.dbs[i].name && q.dbs[k].max == p.dbs[i].max
  {
    hide Setup;
    match step
    case SetUp(_, _, _, _, _, _) => SetupShape(p, step, i);
    case ContinueDone(h) => if p.handles[h].conn.Some? { ReleaseKeeps(p, h); }
    case CleanUp(h) => CleanupKeeps(p, h);
    case _ =>
  }

  /** The account of the live connections over one step. */
  lemma StepLive(p: Pool, step: Step, i: nat)
    requires Sound(p) && Enabled(p, step) && i < |p.dbs|
    ensures Place(p, step, i) < |Next(p, step).dbs|
    ensures LiveOf(Next(p, step), Place(p, step, i)) == LiveOf(p, i)
              + (if Opened(p, step, i) then 1 else 0)
              - (if p.dbs[i].name == LossName(p, step) then Torn(p, step) else 0)
  {
    hide Setup, LiveSet;
    StepShape(p, step, i);
    match step
    case SetUp(_, _, _, _, _, _) => SetupLive(p, step, i);
    case Transact(c, inError) => TransactKeeps(p, c, inError); SameNames(p.conns, Next(p, step).conns);
    case ContinueDone(h) =>
      if p.handles[h].conn.Some? {
        ReleaseKeeps(p, h);
        SameNames(p.conns, Next(p, step).conns);
      }
    case CleanUp(h) => CleanupKeeps(p, h); SameNames(p.conns, Next(p, step).conns);
    case Lost(c) => LiveLess(p.conns, c, p.dbs[i].name);
    case _ =>
  }

  /** A step takes a database over its limit exactly when it opens a connection, losing none, while there are
      as many as the limit: the code asks the counter, which must then be below the number of connections. */
  lemma ExceedsIff(p: Pool, step: Step, i: nat)
    requires Sound(p) && Enabled(p, step) && i < |p.dbs| && LiveOf(p, i) <= p.dbs[i].max
    ensures Place(p, step, i) < |Next(p, step).dbs|
    ensures var exceeds := LiveOf(Next(p, step), Place(p, step, i)) > p.dbs[i].max;
            && (exceeds <==> Opened(p, step, i) && Torn(p, step) == 0 && LiveOf(p, i) == p.dbs[i].max)
            && (exceeds && p.dbs[i].max != 0 ==> Drift(p, i) < 0)
  {
    hide Next, LiveSet;
    StepLive(p, step, i);
  }

  /** A setup that will not be refused and connects, and finds no connection of its database to use. */
  predicate NeedsNew(q: Pool, step: Step) {
    && Enabled(q, step) && step.SetUp? && !Refused(q.handles[step.h], step.async, step.sync)
    && step.connects && !Serves(q.freeList, q.conns, step.name, step.ok) && Torn(q, step) == 0
  }

  /** When all counters are right and a database is at its limit, the loss of a connection lets a setup open
      one connection more than the limit exactly when the database is the one whose counter the teardown
      decrements: the first of another name than the lost connection's. */
  lemma LimitExceededIff(p: Pool, c: nat, step: Step, i: nat)
    requires Sound(p) && Balanced(p) && Enabled(p, Lost(c))
    requires i < |p.dbs| && p.dbs[i].max != 0 && p.dbs[i].count == p.dbs[i].max
    requires NeedsNew(Next(p, Lost(c)), step) && step.name == p.dbs[i].name
    ensures var q := Next(p, Lost(c));
            && Sound(q) && i < |Next(q, step).dbs|
            && (LiveOf(Next(q, step), i) > p.dbs[i].max <==> i == Victim(p.dbs, p.conns[c].name))
  {
    hide LiveSet, Paired, Serves, Torn;
    var q := Next(p, Lost(c));
    TeardownKeeps(p, c);
    LiveLess(p.conns, c, p.dbs[i].name);
    assert Drift(p, i) == 0;
    FindDbAt(q.dbs, i);
    ExceedsIff(q, step, i);
  }

  /** With a single database the counter is never below the live connections, and teardowns break no limit. */
  lemma {:induction false} OneDatabase(p: Pool, steps: seq<Step>)
    requires Sound(p) && Capped(p.dbs) && |p.dbs| == 1 && Drift(p, 0) >= 0 && CanRun(p, steps)
    requires forall k :: 0 <= k < |steps| ==> !steps[k].Register?
    ensures var q := Run(p, steps);
            |q.dbs| == 1 && Drift(q, 0) >= 0 && (q.dbs[0].max != 0 ==> LiveOf(q, 0) <= q.dbs[0].max)
    decreases |steps|
  {
    hide Next;
    if steps != [] {
      StepCapped(p, steps[0]);
      StepKeepsIff(p, steps[0]);
      SameNumber(p, steps[0]);
      StepDrift(p, steps[0], 0);
      OneVictim(p, steps[0]);
      OneDatabase(Next(p, steps[0]), steps[1..]);
    }
  }

  lemma OneVictim(p: Pool, step: Step)
    requires Sound(p) && Enabled(p, step) && |p.dbs| == 1
    ensures Losses(p, step) > 0 ==> LossName(p, step) == p.dbs[0].name
  {
  }
}
