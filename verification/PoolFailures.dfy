/** Runs of the pool, from an empty one, in which its counters and its pairing go wrong. */
module PoolFailures {
  import opened Options
  import opened Pool
  import opened PoolRuns
  import opened PoolCounts

  ghost predicate Reached(limit: nat, q: Pool) {
    Sound(Empty(limit)) && exists steps: seq<Step> :: CanRun(Empty(limit), steps) && Run(Empty(limit), steps) == q
  }

  lemma {:induction false} RunExtend(p: Pool, steps: seq<Step>, step: Step)
    requires Sound(p) && CanRun(p, steps) && Enabled(Run(p, steps), step) && StepProper(Run(p, steps), step)
    ensures CanRun(p, steps + [step]) && Run(p, steps + [step]) == Next(Run(p, steps), step)
    decreases |steps|
  {
    hide Sound, Enabled, StepProper, Next;
    var more := steps + [step];
    if steps == [] {
      assert more == [step] && more[1..] == [];
      StepKeepsIff(p, step);
      assert CanRun(Next(p, step), []);
    } else {
      assert more[1..] == steps[1..] + [step];
      StepKeepsIff(p, steps[0]);
      RunExtend(Next(p, steps[0]), steps[1..], step);
    }
  }

  lemma ReachedEmpty(limit: nat)
    ensures Reached(limit, Empty(limit))
  {
    EmptySteady(limit);
    assert CanRun(Empty(limit), []);
  }

  lemma ReachedNext(limit: nat, q: Pool, step: Step)
    requires Reached(limit, q) && Enabled(q, step) && StepProper(q, step)
    ensures Sound(q) && Reached(limit, Next(q, step)) && Sound(Next(q, step))
  {
    hide Sound, Enabled, StepProper, Next;
    var p := Empty(limit);
    var steps: seq<Step> :| CanRun(p, steps) && Run(p, steps) == q;
    RunExtend(p, steps, step);
    StepKeepsIff(q, step);
  }

  // One more connection, for a new handle.

  const FRESH := Handle(None, false, false, true, false, Init)

  function Connected(p: Pool, h: nat, i: nat): Pool
    requires i < |p.dbs|
  {
    p.(conns := p.conns[p.nextConn := Conn(p.dbs[i].name, false, Some(h), false)],
       nextConn := p.nextConn + 1,
       handles := p.handles[h := Handle(Some(p.nextConn), true, false, true, false, Init)],
       dbs := p.dbs[i := p.dbs[i].(count := p.dbs[i].count + 1)])
  }

  lemma NextFresh(p: Pool, h: nat, i: nat, ok: nat -> bool)
    requires Base(p) && p.freeList == [] && h in p.handles && i < |p.dbs| && !AtLimit(p.dbs[i])
    ensures var d := p.dbs[i];
            ConnNext(p, h, i, ok, true) ==
              (p.(conns := p.conns[p.nextConn := Conn(d.name, false, None, false)], nextConn := p.nextConn + 1,
                  dbs := p.dbs[i := d.(count := d.count + 1)]), Some(p.nextConn))
  {
    hide RollBack, Base;
    assert FindFree(p.freeList, p.conns, p.dbs[i].name) == |p.freeList|;
    assert Rescan(p, p.dbs[i].name, ok) == (p, None);
    var a := Add(p, i);
    assert a.freeList == [p.nextConn];
    assert Drop([p.nextConn], p.nextConn) == [];
    assert CheckOut(a, p.nextConn).conns == p.conns[p.nextConn := Conn(p.dbs[i].name, false, None, false)];
  }

  lemma SetUpFresh(p: Pool, h: nat, i: nat, ok: nat -> bool)
    requires Sound(p) && p.freeList == [] && i < |p.dbs| && !AtLimit(p.dbs[i])
    requires h in p.handles && p.handles[h] == FRESH
    ensures Next(p, SetUp(h, p.dbs[i].name, true, false, ok, true)) == Connected(p, h, i)
  {
    hide ConnNext, FreeListed, Queued, Paired;
    var name := p.dbs[i].name;
    var v := Flagged(FRESH, true, false);
    var q := SetHandle(p, h, v);
    SetHandleBase(p, h, v);
    assert FindDb(q.dbs, name) == i;
    NextFresh(q, h, i, ok);
    assert Acquire(q, h, i, ok, true).0 == Connected(p, h, i);
  }

  lemma ReachedConnected(limit: nat, p: Pool, h: nat, i: nat, ok: nat -> bool)
    requires Reached(limit, p) && p.freeList == [] && h !in p.handles && i < |p.dbs| && !AtLimit(p.dbs[i])
    ensures Reached(limit, Connected(p, h, i)) && Sound(Connected(p, h, i))
  {
    hide Sound, Setup;
    ReachedNext(limit, p, Open(h, true));
    var q := Next(p, Open(h, true));
    assert q == SetHandle(p, h, FRESH);
    ReachedNext(limit, q, SetUp(h, p.dbs[i].name, true, false, ok, true));
    SetUpFresh(q, h, i, ok);
    assert Connected(q, h, i) == Connected(p, h, i);
  }

  /** A pool with two databases of one connection each, both connected. */
  function TwoFull(limit: nat): Pool {
    Pool(map[0 := Conn("b", false, Some(1), false), 1 := Conn("a", false, Some(2), false)], [], 2,
         map[1 := Handle(Some(0), true, false, true, false, Init), 2 := Handle(Some(1), true, false, true, false, Init)],
         [], 0, limit, [Db("b", 1, 1), Db("a", 1, 1)])
  }

  lemma ReachedTwoFull(limit: nat)
    ensures Reached(limit, TwoFull(limit)) && Sound(TwoFull(limit))
  {
    hide Sound, Reached, Setup;
    var ok := (c: nat) => true;
    ReachedEmpty(limit);
    ReachedNext(limit, Empty(limit), Register("a", 1));
    var one := Empty(limit).(dbs := [Db("a", 0, 1)]);
    assert Next(Empty(limit), Register("a", 1)) == one;
    ReachedNext(limit, one, Register("b", 1));
    var two := Empty(limit).(dbs := [Db("b", 0, 1), Db("a", 0, 1)]);
    assert Next(one, Register("b", 1)) == two;
    ReachedConnected(limit, two, 1, 0, ok);
    var three := Connected(two, 1, 0);
    ReachedConnected(limit, three, 2, 1, ok);
    assert Connected(three, 2, 1) == TwoFull(limit);
  }

  /** When the only connection of one database is lost, the other database's counter goes down to zero, and
      it opens a second connection where one is the limit. */
  lemma LimitReached(limit: nat)
    ensures exists q :: Reached(limit, q) && |q.dbs| > 0 && q.dbs[0].max == 1 && |LiveSet(q.conns, q.dbs[0].name)| == 2
  {
    hide Sound, Reached, Setup;
    var p := TwoFull(limit);
    ReachedTwoFull(limit);
    ReachedNext(limit, p, Lost(1));
    var q := Next(p, Lost(1));
    assert q.dbs[0] == Db("b", 0, 1);
    ReachedConnected(limit, q, 3, 0, (c: nat) => true);
    var r := Connected(q, 3, 0);
    assert LiveSet(r.conns, "b") == {0, 2};
  }

  /** A handle that is set up twice loses its first connection for good: it stays checked out and nobody
      holds it. */
  lemma LossReached(limit: nat)
    ensures exists p, step, c: nat ::
              Reached(limit, p) && Sound(p) && Enabled(p, step) &&
              var q := Next(p, step); c in q.conns && !q.conns[c].free && !Held(q, c)
  {
    hide Reached, Setup, Acquire, Base, Paired;
    var p := TwoFull(limit);
    ReachedTwoFull(limit);
    var ok := (c: nat) => true;
    var step := SetUp(1, "b", true, false, ok, true);
    var q := SetHandle(p, 1, Flagged(p.handles[1], true, false));
    SetHandleBase(p, 1, Flagged(p.handles[1], true, false));
    assert FindDb(q.dbs, "b") == 0;
    AcquireLoses(q, 1, 0, ok, true, 0);
    SetupRegistered(p, 1, "b", true, false, ok, true);
    assert Next(p, step) == Acquire(q, 1, 0, ok, true).0;
  }

  lemma SetupRegistered(p: Pool, h: nat, name: string, async: bool, sync: bool, ok: nat -> bool, connects: bool)
    requires Base(p) && h in p.handles && !Refused(p.handles[h], async, sync) && FindDb(p.dbs, name) < |p.dbs|
    ensures var q := SetHandle(p, h, Flagged(p.handles[h], async, sync));
            && Base(q) && FindDb(q.dbs, name) < |q.dbs|
            && Setup(p, h, name, async, sync, ok, connects) == Acquire(q, h, FindDb(q.dbs, name), ok, connects)
  {
    SetHandleBase(p, h, Flagged(p.handles[h], async, sync));
  }
}
