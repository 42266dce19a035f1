/** What teardowns do to the counters of the pool, and the order of waking up. */
module PoolCounts {
  import opened Options
  import opened Pool
  import opened PoolRuns

  // Teardowns and counters.

  /** How many ROLLBACKs fail before the loop meets a good connection of the database. */
  function Failing(q: seq<nat>, conns: map<nat, Conn>, name: string, ok: nat -> bool): nat {
    if q == [] then 0
    else if q[0] !in conns || conns[q[0]].name != name then Failing(q[1..], conns, name, ok)
    else if !conns[q[0]].inError then 0
    else (if ok(q[0]) then 0 else 1) + Failing(q[1..], conns, name, ok)
  }

  /** The free list holds a connection of the database that is good, or that a ROLLBACK makes good. */
  predicate Serves(q: seq<nat>, conns: map<nat, Conn>, name: string, ok: nat -> bool) {
    exists i :: 0 <= i < |q| && Good(conns, q[i], name, ok)
  }

  predicate Good(conns: map<nat, Conn>, c: nat, name: string, ok: nat -> bool) {
    c in conns && conns[c].name == name && (!conns[c].inError || ok(c))
  }

  lemma {:induction false} FirstCases(q: seq<nat>, conns: map<nat, Conn>, name: string, ok: nat -> bool)
    requires forall c :: c in q ==> c in conns
    ensures var i := FindFree(q, conns, name);
            if i == |q| || !conns[q[i]].inError then Failing(q, conns, name, ok) == 0
            else Failing(q, conns, name, ok) == (if ok(q[i]) then 0 else 1) + Failing(Drop(q, q[i]), conns, name, ok)
  {
    if q != [] && conns[q[0]].name != name {
      FirstCases(q[1..], conns, name, ok);
      var i := FindFree(q[1..], conns, name);
      if i < |q| - 1 {
        var rest := Drop(q[1..], q[1..][i]);
        assert ([q[0]] + rest)[1..] == rest;
      }
    }
  }

  lemma {:induction false} FailingAppend(q: seq<nat>, c: nat, conns: map<nat, Conn>, name: string, ok: nat -> bool)
    requires c in conns && conns[c].name == name && !conns[c].inError
    ensures Failing(q + [c], conns, name, ok) == Failing(q, conns, name, ok)
  {
    if q == [] {
      assert q + [c] == [c];
    } else {
      assert (q + [c])[1..] == q[1..] + [c];
      FailingAppend(q[1..], c, conns, name, ok);
    }
  }

  lemma {:induction false} FailingSame(q: seq<nat>, a: map<nat, Conn>, b: map<nat, Conn>, name: string, ok: nat -> bool)
    requires forall c :: c in q ==> c in a && c in b && a[c].name == b[c].name && a[c].inError == b[c].inError
    ensures Failing(q, a, name, ok) == Failing(q, b, name, ok)
  {
    if q != [] {
      FailingSame(q[1..], a, b, name, ok);
    }
  }

  lemma {:induction false} VictimSame(a: seq<Db>, b: seq<Db>, name: string)
    requires |a| == |b| && forall i :: 0 <= i < |a| ==> a[i].name == b[i].name
    ensures Victim(a, name) == Victim(b, name)
  {
    if a != [] && a[0].name == name {
      VictimSame(a[1..], b[1..], name);
    }
  }

  /** One failing ROLLBACK less to come, if this one failed. */
  lemma RoundFailing(p: Pool, c: nat, name: string, ok: nat -> bool)
    requires Base(p) && c in p.freeList && p.conns[c].name == name && p.conns[c].inError
    requires c == p.freeList[FindFree(p.freeList, p.conns, name)]
    ensures var q := RollBack(p, c, ok(c));
            Failing(p.freeList, p.conns, name, ok) ==
              Failing(q.freeList, q.conns, name, ok) + if ok(c) then 0 else 1
  {
    hide RollBack;
    var q := RollBack(p, c, ok(c));
    var rest := Drop(p.freeList, c);
    FirstCases(p.freeList, p.conns, name, ok);
    RollBackLists(p, c, ok(c));
    DropIn(p.freeList, c);
    FailingSame(rest, p.conns, q.conns, name, ok);
    if ok(c) {
      FailingAppend(rest, c, q.conns, name, ok);
    }
  }

  lemma RoundServes(p: Pool, c: nat, name: string, ok: nat -> bool)
    requires Base(p) && c in p.freeList && p.conns[c].name == name && p.conns[c].inError
    ensures var q := RollBack(p, c, ok(c));
            Serves(p.freeList, p.conns, name, ok) <==> Serves(q.freeList, q.conns, name, ok)
  {
    hide RollBack;
    var q := RollBack(p, c, ok(c));
    RollBackLists(p, c, ok(c));
    DropIn(p.freeList, c);
    if Serves(p.freeList, p.conns, name, ok) {
      var i :| 0 <= i < |p.freeList| && Good(p.conns, p.freeList[i], name, ok);
      assert p.freeList[i] in q.freeList;
      var j :| 0 <= j < |q.freeList| && q.freeList[j] == p.freeList[i];
      assert Good(q.conns, q.freeList[j], name, ok);
    }
    if Serves(q.freeList, q.conns, name, ok) {
      var j :| 0 <= j < |q.freeList| && Good(q.conns, q.freeList[j], name, ok);
      assert q.freeList[j] in p.freeList;
      var i :| 0 <= i < |p.freeList| && p.freeList[i] == q.freeList[j];
      assert Good(p.conns, p.freeList[i], name, ok);
    }
  }

  /** The rescan loop finds a connection exactly when the free list serves the database. */
  lemma {:induction false} RescanServes(p: Pool, name: string, ok: nat -> bool)
    requires Base(p)
    ensures Rescan(p, name, ok).1.Some? <==> Serves(p.freeList, p.conns, name, ok)
    decreases Errors(p.freeList, p.conns, name)
  {
    hide RollBack;
    var i := FindFree(p.freeList, p.conns, name);
    if i < |p.freeList| {
      var c := p.freeList[i];
      if p.conns[c].inError {
        RollBackBase(p, c, ok(c));
        RollBackProgress(p, c, ok(c), name);
        RescanServes(RollBack(p, c, ok(c)), name, ok);
        RoundServes(p, c, name, ok);
      } else {
        assert Good(p.conns, p.freeList[i], name, ok);
      }
    }
  }

  lemma RoundCounts(p: Pool, c: nat, good: bool, i: nat)
    requires Base(p) && c in p.freeList && i < |p.dbs|
    ensures var q := RollBack(p, c, good);
            var name := p.conns[c].name;
            && |q.dbs| == |p.dbs| && q.dbs[i].name == p.dbs[i].name && Victim(q.dbs, name) == Victim(p.dbs, name)
            && (i != Victim(p.dbs, name) ==> q.dbs[i].count == p.dbs[i].count)
            && Drift(q, i) == Drift(p, i) + Shift(p.dbs, i, name, if good then 0 else 1)
  {
    RollBackShape(p, c, good);
    VictimSame(p.dbs, RollBack(p, c, good).dbs, p.conns[c].name);
    RollBackDrift(p, c, good, i);
  }

  /** It tears down exactly the connections whose ROLLBACK fails on the way. */
  lemma {:induction false} RescanCounts(p: Pool, name: string, ok: nat -> bool, i: nat)
    requires Base(p) && i < |p.dbs|
    ensures var q := Rescan(p, name, ok).0;
            && |q.dbs| == |p.dbs| && q.dbs[i].name == p.dbs[i].name
            && (i != Victim(p.dbs, name) ==> q.dbs[i].count == p.dbs[i].count)
            && Drift(q, i) == Drift(p, i) + Shift(p.dbs, i, name, Failing(p.freeList, p.conns, name, ok))
    decreases Errors(p.freeList, p.conns, name)
  {
    hide RollBack, Drift;
    FirstCases(p.freeList, p.conns, name, ok);
    var k := FindFree(p.freeList, p.conns, name);
    if k < |p.freeList| && p.conns[p.freeList[k]].inError {
      var c := p.freeList[k];
      RollBackBase(p, c, ok(c));
      RollBackProgress(p, c, ok(c), name);
      RoundCounts(p, c, ok(c), i);
      RoundFailing(p, c, name, ok);
      RescanCounts(RollBack(p, c, ok(c)), name, ok, i);
    }
  }

  /** How many connections a setup of database `i` tears down: those whose ROLLBACK fails, and a new one that
      does not connect. */
  function AcquireLosses(p: Pool, i: nat, ok: nat -> bool, connects: bool): nat
    requires i < |p.dbs|
  {
    var name := p.dbs[i].name;
    Failing(p.freeList, p.conns, name, ok) +
    if !Serves(p.freeList, p.conns, name, ok) && !AtLimit(p.dbs[i]) && !connects then 1 else 0
  }

  /** How many a step tears down, all of one database. */
  function Losses(p: Pool, step: Step): nat
    requires Enabled(p, step)
  {
    match step
    case SetUp(h, name, async, sync, ok, connects) =>
      var i := FindDb(p.dbs, name);
      if Refused(p.handles[h], async, sync) || i == |p.dbs| then 0 else AcquireLosses(p, i, ok, connects)
    case Lost(_) => 1
    case _ => 0
  }

  function LossName(p: Pool, step: Step): string
    requires Enabled(p, step)
  {
    match step
    case SetUp(_, name, _, _, _, _) => name
    case Lost(c) => p.conns[c].name
    case _ => ""
  }

  lemma FreshDrift(q: Pool, h: nat, i: nat, connects: bool, k: nat)
    requires Base(q) && h in q.handles && i < |q.dbs| && k < |q.dbs|
    ensures var r := Fresh(q, h, i, connects).0;
            && |r.dbs| == |q.dbs|
            && Drift(r, k) == Drift(q, k) + Shift(q.dbs, k, q.dbs[i].name, if !AtLimit(q.dbs[i]) && !connects then 1 else 0)
  {
    AddDrift(q, i, k);
    var a := Add(q, i);
    VictimSame(a.dbs, q.dbs, q.dbs[i].name);
    if !AtLimit(q.dbs[i]) {
      if connects {
        AddBase(q, i);
        CheckOutBase(a, q.nextConn);
        SameDrift(a, CheckOut(a, q.nextConn));
      } else {
        var b := SetHandle(a, h, a.handles[h].(state := Error));
        SameDrift(a, b);
        TeardownDrift(b, q.nextConn, k);
      }
    }
  }

  lemma AcquireDrift(p: Pool, h: nat, i: nat, ok: nat -> bool, connects: bool, k: nat)
    requires Base(p) && h in p.handles && i < |p.dbs| && k < |p.dbs|
    ensures var r := Acquire(p, h, i, ok, connects).0;
            && |r.dbs| == |p.dbs|
            && Drift(r, k) == Drift(p, k) + Shift(p.dbs, k, p.dbs[i].name, AcquireLosses(p, i, ok, connects))
  {
    hide Drift, Fresh, Rescan, Queued, Named, Serves, Failing;
    var name := p.dbs[i].name;
    RescanServes(p, name, ok);
    RescanFinds(p, name, ok);
    RescanCounts(p, name, ok, k);
    RescanCounts(p, name, ok, i);
    var (q, found) := Rescan(p, name, ok);
    VictimSame(p.dbs, q.dbs, name);
    if found.Some? {
      CheckOutBase(q, found.value);
      SameDrift(q, CheckOut(q, found.value));
    } else {
      FreshDrift(q, h, i, connects, k);
    }
    ConnNextBase(p, h, i, ok, connects);
    ConnNextOut(p, h, i, ok, connects);
    var (w, taken) := ConnNext(p, h, i, ok, connects);
    AttachBase(w, h, taken);
    SameDrift(w, Attach(w, h, taken));
  }

  lemma SetupDrift(p: Pool, step: Step, k: nat)
    requires Sound(p) && Enabled(p, step) && step.SetUp? && k < |p.dbs|
    ensures |Next(p, step).dbs| == |p.dbs|
    ensures Drift(Next(p, step), k) == Drift(p, k) + Shift(p.dbs, k, LossName(p, step), Losses(p, step))
  {
    hide Acquire, Drift, Base, Paired, Serves, Failing;
    var v := p.handles[step.h];
    var q := SetHandle(p, step.h, Flagged(v, step.async, step.sync));
    SetHandleBase(p, step.h, Flagged(v, step.async, step.sync));
    SameDrift(p, q);
    var i := FindDb(q.dbs, step.name);
    if Refused(v, step.async, step.sync) {
      SameDrift(p, Next(p, step));
    } else if i == |q.dbs| {
      SameDrift(q, Next(p, step));
    } else {
      AcquireDrift(q, step.h, i, step.ok, step.connects, k);
    }
  }

  /** A new database goes in front of the others. */
  function Place(p: Pool, step: Step, i: nat): nat {
    if step.Register? && !HasDb(p.dbs, step.name) then i + 1 else i
  }

  /** The exact account of a step: the drift of a database grows by the connections of it that are torn
      down, and falls by the teardowns whose decrement hits it instead. */
  lemma StepDrift(p: Pool, step: Step, i: nat)
    requires Sound(p) && Enabled(p, step) && i < |p.dbs|
    ensures Place(p, step, i) < |Next(p, step).dbs|
    ensures Drift(Next(p, step), Place(p, step, i)) == Drift(p, i) + Shift(p.dbs, i, LossName(p, step), Losses(p, step))
  {
    hide Setup, LiveSet, Base;
    match step
    case SetUp(_, _, _, _, _, _) => SetupDrift(p, step, i);
    case Transact(c, inError) =>
      TransactKeeps(p, c, inError);
      SameDrift(p, Next(p, step));
    case ContinueDone(h) =>
      if p.handles[h].conn.Some? {
        ReleaseKeeps(p, h);
        SameDrift(p, Next(p, step));
      }
    case CleanUp(h) =>
      CleanupKeeps(p, h);
      SameDrift(p, Next(p, step));
    case Lost(c) => TeardownDrift(p, c, i);
    case _ => assert Next(p, step).conns == p.conns;
  }

  lemma NewDatabase(p: Pool, step: Step)
    requires Sound(p) && step.Register?
    ensures var q := Next(p, step);
            |q.dbs| > |p.dbs| ==> Place(p, step, 0) == 1 && |q.dbs| == |p.dbs| + 1 && Drift(q, 0) == 0
  {
    if !HasDb(p.dbs, step.name) {
      assert forall c :: c in p.conns ==> p.conns[c].name != step.name;
      assert LiveSet(p.conns, step.name) == {};
    }
  }

  lemma SameNumber(p: Pool, step: Step)
    requires Sound(p) && Enabled(p, step) && !step.Register?
    ensures |Next(p, step).dbs| == |p.dbs|
  {
    match step
    case SetUp(h, name, async, sync, ok, connects) =>
      if |p.dbs| > 0 {
        SetupDrift(p, step, 0);
      }
    case ContinueDone(h) => if p.handles[h].conn.Some? { ReleaseKeeps(p, h); }
    case CleanUp(h) => CleanupKeeps(p, h);
    case _ =>
  }

  /** When every counter counts the live connections, they still do after a step exactly when it tears no
      connection down. */
  lemma StepBalancedIff(p: Pool, step: Step)
    requires Sound(p) && Balanced(p) && Enabled(p, step)
    ensures Balanced(Next(p, step)) <==> Losses(p, step) == 0
  {
    hide Setup, Release, Cleanup, Drift;
    var q := Next(p, step);
    if Losses(p, step) == 0 {
      forall k | 0 <= k < |q.dbs|
        ensures Drift(q, k) == 0
      {
        if step.Register? {
          NewDatabase(p, step);
          if |q.dbs| > |p.dbs| && k > 0 {
            StepDrift(p, step, k - 1);
          } else if |q.dbs| == |p.dbs| {
            StepDrift(p, step, k);
          }
        } else {
          SameNumber(p, step);
          StepDrift(p, step, k);
        }
      }
    } else {
      var name := LossName(p, step);
      var i := if step.SetUp? then FindDb(p.dbs, name) else FindDbIndex(p.dbs, name);
      StepDrift(p, step, i);
      assert Drift(q, i) > 0;
    }
  }

  // Limits.

  /** No counter exceeds its limit. */
  predicate Capped(dbs: seq<Db>) {
    forall i :: 0 <= i < |dbs| && dbs[i].max != 0 ==> dbs[i].count <= dbs[i].max
  }

  lemma FreshCapped(q: Pool, h: nat, i: nat, connects: bool)
    requires Capped(q.dbs) && h in q.handles && i < |q.dbs|
    ensures Capped(Fresh(q, h, i, connects).0.dbs)
  {
    if !AtLimit(q.dbs[i]) {
      assert Capped(Add(q, i).dbs);
    }
  }

  lemma LocateCapped(p: Pool, h: nat, name: string, ok: nat -> bool, connects: bool)
    requires Base(p) && Capped(p.dbs) && h in p.handles
    ensures Capped(Locate(p, h, name, ok, connects).0.dbs)
  {
    hide Base, Rescan, Fresh;
    var i := FindDb(p.dbs, name);
    if i < |p.dbs| {
      RescanFinds(p, name, ok);
      var q := Rescan(p, name, ok).0;
      assert Capped(q.dbs) by {
        assert forall k :: 0 <= k < |q.dbs| ==> q.dbs[k].max == p.dbs[k].max && q.dbs[k].count <= p.dbs[k].count;
      }
      FreshCapped(q, h, i, connects);
    }
  }

  lemma StepCapped(p: Pool, step: Step)
    requires Sound(p) && Capped(p.dbs) && Enabled(p, step)
    ensures Capped(Next(p, step).dbs)
  {
    match step
    case SetUp(h, name, async, sync, ok, connects) =>
      var v := Flagged(p.handles[h], async, sync);
      SetHandleBase(p, h, v);
      LocateCapped(SetHandle(p, h, v), h, name, ok, connects);
    case ContinueDone(h) => if p.handles[h].conn.Some? { ReleaseKeeps(p, h); }
    case CleanUp(h) => CleanupKeeps(p, h);
    case _ =>
  }

  /** In every run: free list, flags and jobs agree, every connection that is checked out is held by a handle
      and by one only, the wait counter is the length of the queue and within its limit, and no counter is
      above its database's limit. */
  lemma {:induction false} PoolInvariant(p: Pool, steps: seq<Step>)
    requires Sound(p) && Capped(p.dbs) && CanRun(p, steps)
    ensures Sound(Run(p, steps)) && Capped(Run(p, steps).dbs)
    decreases |steps|
  {
    if steps != [] {
      StepCapped(p, steps[0]);
      StepKeepsIff(p, steps[0]);
      PoolInvariant(Next(p, steps[0]), steps[1..]);
    }
  }

  /** A step without teardown, as far as the server goes: no scheduled connection fails, every ROLLBACK works
      and every connection attempt succeeds. */
  ghost predicate Steady(step: Step) {
    !step.Lost? && (step.SetUp? ==> step.connects && forall c: nat :: step.ok(c))
  }

  lemma {:induction false} NoneFailing(q: seq<nat>, conns: map<nat, Conn>, name: string, ok: nat -> bool)
    requires forall c: nat :: ok(c)
    ensures Failing(q, conns, name, ok) == 0
  {
    if q != [] {
      NoneFailing(q[1..], conns, name, ok);
    }
  }

  lemma SteadyLosesNone(p: Pool, step: Step)
    requires Enabled(p, step) && Steady(step)
    ensures Losses(p, step) == 0
  {
    if step.SetUp? {
      NoneFailing(p.freeList, p.conns, step.name, step.ok);
    }
  }

  /** In every run without teardown each database's counter is the number of its live connections, so that
      there are never more of them than the limit. */
  lemma {:induction false} SteadyRun(p: Pool, steps: seq<Step>)
    requires Sound(p) && Capped(p.dbs) && Balanced(p) && CanRun(p, steps)
    requires forall i :: 0 <= i < |steps| ==> Steady(steps[i])
    ensures var q := Run(p, steps);
            && Balanced(q)
            && forall i :: 0 <= i < |q.dbs| && q.dbs[i].max != 0 ==> |LiveSet(q.conns, q.dbs[i].name)| <= q.dbs[i].max
    decreases |steps|
  {
    if steps != [] {
      StepCapped(p, steps[0]);
      StepKeepsIff(p, steps[0]);
      SteadyLosesNone(p, steps[0]);
      StepBalancedIff(p, steps[0]);
      SteadyRun(Next(p, steps[0]), steps[1..]);
    } else {
      forall i | 0 <= i < |p.dbs| && p.dbs[i].max != 0
        ensures |LiveSet(p.conns, p.dbs[i].name)| <= p.dbs[i].max
      {
        assert Drift(p, i) == 0;
      }
    }
  }

  lemma EmptySteady(limit: nat)
    ensures Sound(Empty(limit)) && Capped(Empty(limit).dbs) && Balanced(Empty(limit))
  {
  }

  // Waking up.

  /** The waiters whose request is not deleted, in queue order. */
  function Live(q: seq<nat>, handles: map<nat, Handle>): seq<nat> {
    if q == [] then []
    else (if q[0] in handles && handles[q[0]].deleted then [] else [q[0]]) + Live(q[1..], handles)
  }

  lemma {:induction false} LiveAfterLeading(q: seq<nat>, handles: map<nat, Handle>)
    requires forall h :: h in q ==> h in handles
    ensures var n := LeadingDeleted(q, handles);
            Live(q, handles) == if n < |q| then [q[n]] + Live(q[n + 1..], handles) else []
  {
    if q != [] && handles[q[0]].deleted {
      var rest := q[1..];
      LiveAfterLeading(rest, handles);
      var n := LeadingDeleted(rest, handles);
      assert LeadingDeleted(q, handles) == n + 1 && Live(q, handles) == Live(rest, handles);
      if n < |rest| {
        assert rest[n] == q[n + 1] && rest[n + 1..] == q[n + 2..];
      }
    }
  }

  lemma WakeupQueue(p: Pool)
    requires Queued(p)
    ensures var n := LeadingDeleted(p.waitQueue, p.handles);
            var (q, woken) := Wakeup(p);
            && Queued(q) && q.handles == p.handles
            && q.waitQueue == (if n < |p.waitQueue| then p.waitQueue[n + 1..] else [])
            && woken == if n < |p.waitQueue| then Some(p.waitQueue[n]) else None
  {
    hide LeadingDeleted;
  }

  /** A wakeup wakes exactly the first live waiter, so live waiters wake in queue order. */
  lemma WakesInOrder(p: Pool)
    requires Queued(p)
    ensures var (q, woken) := Wakeup(p);
            && Queued(q) && q.handles == p.handles
            && Live(p.waitQueue, p.handles) ==
                 (if woken.Some? then [woken.value] else []) + Live(q.waitQueue, q.handles)
            && (woken.None? ==> q.waitQueue == [])
  {
    WakeupQueue(p);
    LiveAfterLeading(p.waitQueue, p.handles);
    assert Live([], p.handles) == [];
    hide LeadingDeleted, Live, Wakeup;
  }
}
