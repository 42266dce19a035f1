/** Checking connections out of the pool, and every run of pool operations. */
module PoolRuns {
  import opened Options
  import opened Sequences
  import opened Pool

  /** The rescan loop of pgsql_conn_next. `ok(c)` says whether a ROLLBACK on connection `c` works. */
  function Rescan(p: Pool, name: string, ok: nat -> bool): (r: (Pool, Option<nat>))
    requires Base(p)
    ensures Base(r.0)
    decreases Errors(p.freeList, p.conns, name)
  {
    var i := FindFree(p.freeList, p.conns, name);
    if i == |p.freeList| then (p, None)
    else
      var c := p.freeList[i];
      if !p.conns[c].inError then (p, Some(c))
      else
        RollBackBase(p, c, ok(c));
        RollBackProgress(p, c, ok(c), name);
        Rescan(RollBack(p, c, ok(c)), name, ok)
  }

  /** The databases keep their names and limits, the handles are untouched. */
  predicate SameShape(p: Pool, q: Pool) {
    && q.handles == p.handles && q.nextConn == p.nextConn && |q.dbs| == |p.dbs| && q.queueLimit == p.queueLimit
    && forall i :: 0 <= i < |p.dbs| ==> q.dbs[i].name == p.dbs[i].name && q.dbs[i].max == p.dbs[i].max &&
                                        q.dbs[i].count <= p.dbs[i].count
  }

  lemma SameShapeChain(p: Pool, q: Pool, r: Pool)
    requires SameShape(p, q) && SameShape(q, r)
    ensures SameShape(p, r)
  {
  }

  lemma RollBackSameShape(p: Pool, c: nat, good: bool)
    requires Base(p) && c in p.freeList
    ensures SameShape(p, RollBack(p, c, good))
  {
  }

  /** A connection handed out is free, belongs to the database and is not in an error transaction;
      and none is handed out only if the database has no free connection left. */
  lemma {:induction false} RescanFinds(p: Pool, name: string, ok: nat -> bool)
    requires Base(p)
    ensures var (q, found) := Rescan(p, name, ok);
            && SameShape(p, q)
            && match found
               case Some(c) => c in q.freeList && q.conns[c].name == name && !q.conns[c].inError
               case None => forall c :: c in q.freeList ==> q.conns[c].name != name
    decreases Errors(p.freeList, p.conns, name)
  {
    var i := FindFree(p.freeList, p.conns, name);
    if i < |p.freeList| && p.conns[p.freeList[i]].inError {
      var c := p.freeList[i];
      RollBackBase(p, c, ok(c));
      RollBackProgress(p, c, ok(c), name);
      RollBackSameShape(p, c, ok(c));
      var q := RollBack(p, c, ok(c));
      RescanFinds(q, name, ok);
      SameShapeChain(p, q, Rescan(q, name, ok).0);
    }
  }

  /** The pairing of handles and connections survives it. */
  lemma {:induction false} RescanPaired(p: Pool, name: string, ok: nat -> bool)
    requires Base(p) && Paired(p, {})
    ensures Paired(Rescan(p, name, ok).0, {})
    decreases Errors(p.freeList, p.conns, name)
  {
    var i := FindFree(p.freeList, p.conns, name);
    if i < |p.freeList| && p.conns[p.freeList[i]].inError {
      var c := p.freeList[i];
      RollBackBase(p, c, ok(c));
      RollBackPaired(p, c, ok(c));
      RollBackProgress(p, c, ok(c), name);
      RescanPaired(RollBack(p, c, ok(c)), name, ok);
    }
  }

  /** A connection that is checked out is left alone. */
  lemma {:induction false} RescanElsewhere(p: Pool, name: string, ok: nat -> bool, x: nat)
    requires Base(p) && x in p.conns && !p.conns[x].free
    ensures var q := Rescan(p, name, ok).0; x in q.conns && q.conns[x] == p.conns[x]
    decreases Errors(p.freeList, p.conns, name)
  {
    var i := FindFree(p.freeList, p.conns, name);
    if i < |p.freeList| && p.conns[p.freeList[i]].inError {
      var c := p.freeList[i];
      RollBackBase(p, c, ok(c));
      RollBackProgress(p, c, ok(c), name);
      RollBackElsewhere(p, c, ok(c), x);
      RescanElsewhere(RollBack(p, c, ok(c)), name, ok, x);
    }
  }

  /** The first half of pgsql_conn_create: count, and put the new connection in the free list. */
  function Add(p: Pool, i: nat): Pool
    requires i < |p.dbs|
  {
    var d := p.dbs[i];
    p.(conns := p.conns[p.nextConn := Conn(d.name, true, None, false)],
       freeList := p.freeList + [p.nextConn],
       nextConn := p.nextConn + 1,
       dbs := p.dbs[i := d.(count := d.count + 1)])
  }

  /** The database is at its limit; a limit of zero means no limit. */
  predicate AtLimit(d: Db) {
    d.max != 0 && d.count >= d.max
  }

  /** pgsql_conn_next when no free connection is left: wait, refuse, or connect. */
  function Fresh(q: Pool, h: nat, i: nat, connects: bool): (Pool, Option<nat>)
    requires h in q.handles && i < |q.dbs|
  {
    if AtLimit(q.dbs[i]) then
      if q.handles[h].async && q.queueCount < q.queueLimit then (QueueAdd(q, h), None)
      else (SetHandle(q, h, q.handles[h].(state := Error)), None)
    else
      var a := Add(q, i);
      if connects then (CheckOut(a, q.nextConn), Some(q.nextConn))
      else (Teardown(SetHandle(a, h, a.handles[h].(state := Error)), q.nextConn), None)
  }

  /** pgsql_conn_next for database `i`. */
  function ConnNext(p: Pool, h: nat, i: nat, ok: nat -> bool, connects: bool): (Pool, Option<nat>)
    requires Base(p) && h in p.handles && i < |p.dbs|
  {
    RescanFinds(p, p.dbs[i].name, ok);
    var (q, found) := Rescan(p, p.dbs[i].name, ok);
    if found.Some? then (CheckOut(q, found.value), found) else Fresh(q, h, i, connects)
  }

  function FindDb(dbs: seq<Db>, name: string): (i: nat)
    ensures i <= |dbs|
    ensures forall j :: 0 <= j < i ==> dbs[j].name != name
    ensures i < |dbs| ==> dbs[i].name == name
  {
    First(dbs, (d: Db) => d.name == name)
  }

  lemma FindDbAt(dbs: seq<Db>, i: nat)
    requires i < |dbs| && forall j, k :: 0 <= j < k < |dbs| ==> dbs[j].name != dbs[k].name
    ensures FindDb(dbs, dbs[i].name) == i
  {
    var k := FindDb(dbs, dbs[i].name);
    assert k <= i && dbs[k].name == dbs[i].name;
  }

  lemma SameHolders(p: Pool, h: nat, v: Handle)
    requires h in p.handles && v.conn == p.handles[h].conn
    ensures forall c: nat :: Held(p, c) ==> Held(SetHandle(p, h, v), c)
  {
    var q := SetHandle(p, h, v);
    forall c: nat | Held(p, c)
      ensures Held(q, c)
    {
      var g :| g in p.handles && p.handles[g].conn == Some(c);
      assert q.handles[g].conn == Some(c);
    }
  }

  /** The state of a handle is no part of the invariant. */
  lemma StateKeeps(p: Pool, h: nat, state: State, spare: set<nat>)
    requires h in p.handles
    ensures var q := SetHandle(p, h, p.handles[h].(state := state));
            (Base(p) ==> Base(q)) && (Paired(p, spare) ==> Paired(q, spare)) && SameCounts(p, q)
  {
    SameHolders(p, h, p.handles[h].(state := state));
  }

  /** Nor are the flags of a handle without a connection. */
  lemma FlagsKeep(p: Pool, h: nat, v: Handle)
    requires Sound(p) && h in p.handles && p.handles[h].conn.None? && v.conn.None?
    ensures Sound(SetHandle(p, h, v))
  {
    hide Base, Held;
    SetHandleBase(p, h, v);
    SameHolders(p, h, v);
  }

  /** Nor are all but the asynchronous flag of any handle. */
  lemma SameAsyncKeeps(p: Pool, h: nat, v: Handle)
    requires Sound(p) && h in p.handles && v.conn == p.handles[h].conn && v.async == p.handles[h].async
    ensures Sound(SetHandle(p, h, v))
  {
    hide Base, Held;
    SetHandleBase(p, h, v);
    SameHolders(p, h, v);
  }

  lemma SetHandleBase(p: Pool, h: nat, v: Handle)
    requires Base(p)
    ensures Base(SetHandle(p, h, v))
  {
  }

  lemma AddBase(p: Pool, i: nat)
    requires Base(p) && i < |p.dbs|
    ensures Base(Add(p, i)) && p.nextConn in Add(p, i).freeList
  {
    var q := Add(p, i);
    assert q.freeList[|p.freeList|] == p.nextConn && p.nextConn !in p.freeList;
    forall c | c in q.conns && q.conns[c].free
      ensures c in q.freeList && q.conns[c].job.None?
    {
      assert c != p.nextConn ==> c in p.freeList;
    }
    AddNamed(p, i);
  }

  lemma AddNamed(p: Pool, i: nat)
    requires Named(p) && i < |p.dbs|
    ensures Named(Add(p, i))
  {
    var q := Add(p, i);
    forall c | c in q.conns
      ensures HasDb(q.dbs, q.conns[c].name)
    {
      var name := q.conns[c].name;
      var k := if c == p.nextConn then i else FindDbIndex(p.dbs, name);
      assert q.dbs[k].name == name;
    }
  }

  lemma AddDrift(p: Pool, i: nat, k: nat)
    requires Base(p) && i < |p.dbs| && k < |p.dbs|
    ensures Drift(Add(p, i), k) == Drift(p, k)
  {
    LiveMore(p.conns, p.nextConn, Add(p, i).conns[p.nextConn], p.dbs[k].name);
  }

  lemma SameHandlesHold(p: Pool, q: Pool)
    requires q.handles == p.handles
    ensures forall c: nat :: Held(p, c) ==> Held(q, c)
  {
  }

  lemma AddPaired(p: Pool, i: nat)
    requires Base(p) && Paired(p, {}) && i < |p.dbs|
    ensures Paired(Add(p, i), {})
  {
    hide Queued, Named;
    var q := Add(p, i);
    assert p.nextConn !in p.conns;
    SameHandlesHold(p, q);
    hide Held;
  }

  ghost function FindDbIndex(dbs: seq<Db>, name: string): (i: nat)
    requires HasDb(dbs, name)
    ensures i < |dbs| && dbs[i].name == name
  {
    var i :| 0 <= i < |dbs| && dbs[i].name == name;
    i
  }

  lemma FreshBase(q: Pool, h: nat, i: nat, connects: bool)
    requires Base(q) && h in q.handles && i < |q.dbs|
    ensures Base(Fresh(q, h, i, connects).0)
  {
    if AtLimit(q.dbs[i]) {
      StateKeeps(q, h, Error, {});
    } else {
      AddBase(q, i);
      var a := Add(q, i);
      if connects {
        CheckOutBase(a, q.nextConn);
      } else {
        StateKeeps(a, h, Error, {});
        TeardownBase(SetHandle(a, h, a.handles[h].(state := Error)), q.nextConn);
      }
    }
  }

  lemma FreshPaired(q: Pool, h: nat, i: nat, connects: bool)
    requires Base(q) && Paired(q, {}) && h in q.handles && i < |q.dbs|
    ensures var (r, found) := Fresh(q, h, i, connects);
            Paired(r, if found.Some? then {found.value} else {})
  {
    if AtLimit(q.dbs[i]) {
      StateKeeps(q, h, Error, {});
      SamePairs(q, QueueAdd(q, h));
    } else {
      AddBase(q, i);
      AddPaired(q, i);
      var a := Add(q, i);
      if connects {
        CheckOutPaired(a, q.nextConn);
      } else {
        StateKeeps(a, h, Error, {});
        TeardownPaired(SetHandle(a, h, a.handles[h].(state := Error)), q.nextConn);
      }
    }
  }

  lemma ConnNextBase(p: Pool, h: nat, i: nat, ok: nat -> bool, connects: bool)
    requires Base(p) && h in p.handles && i < |p.dbs|
    ensures var (q, found) := ConnNext(p, h, i, ok, connects);
            && Base(q) && h in q.handles
            && (found.Some? ==> found.value in q.conns && !q.conns[found.value].inError)
  {
    RescanFinds(p, p.dbs[i].name, ok);
    var (q, found) := Rescan(p, p.dbs[i].name, ok);
    if found.Some? {
      CheckOutBase(q, found.value);
    } else {
      FreshBase(q, h, i, connects);
    }
  }

  /** What it hands out is checked out and held by nobody yet. */
  lemma ConnNextPaired(p: Pool, h: nat, i: nat, ok: nat -> bool, connects: bool)
    requires Base(p) && Paired(p, {}) && h in p.handles && i < |p.dbs|
    ensures var (q, found) := ConnNext(p, h, i, ok, connects);
            Paired(q, if found.Some? then {found.value} else {})
  {
    RescanFinds(p, p.dbs[i].name, ok);
    RescanPaired(p, p.dbs[i].name, ok);
    var (q, found) := Rescan(p, p.dbs[i].name, ok);
    if found.Some? {
      CheckOutPaired(q, found.value);
    } else {
      FreshPaired(q, h, i, connects);
    }
  }

  lemma FreshElsewhere(q: Pool, h: nat, i: nat, connects: bool, x: nat)
    requires Base(q) && h in q.handles && i < |q.dbs| && x in q.conns
    ensures var (r, found) := Fresh(q, h, i, connects);
            x in r.conns && r.conns[x] == q.conns[x] && found != Some(x)
  {
    assert x < q.nextConn;
  }

  /** A checked-out connection stays as it is. */
  lemma ConnNextElsewhere(p: Pool, h: nat, i: nat, ok: nat -> bool, connects: bool, x: nat)
    requires Base(p) && h in p.handles && i < |p.dbs| && x in p.conns && !p.conns[x].free
    ensures var (q, found) := ConnNext(p, h, i, ok, connects);
            x in q.conns && q.conns[x] == p.conns[x] && found != Some(x)
  {
    hide Fresh;
    RescanFinds(p, p.dbs[i].name, ok);
    RescanElsewhere(p, p.dbs[i].name, ok, x);
    var (q, found) := Rescan(p, p.dbs[i].name, ok);
    if found.None? {
      FreshElsewhere(q, h, i, connects, x);
    }
  }

  /** The other handles do too, and the handle that asks keeps what it holds for the moment. */
  lemma ConnNextHandles(p: Pool, h: nat, i: nat, ok: nat -> bool, connects: bool)
    requires Base(p) && h in p.handles && i < |p.dbs|
    ensures var q := ConnNext(p, h, i, ok, connects).0;
            && h in q.handles && q.handles == p.handles[h := q.handles[h]]
            && q.handles[h].conn == p.handles[h].conn && q.handles[h].async == p.handles[h].async
  {
    hide Base, Rescan, Fresh;
    RescanFinds(p, p.dbs[i].name, ok);
    FreshHandles(Rescan(p, p.dbs[i].name, ok).0, h, i, connects);
    assert p.handles[h := p.handles[h]] == p.handles;
  }

  lemma FreshHandles(q: Pool, h: nat, i: nat, connects: bool)
    requires h in q.handles && i < |q.dbs|
    ensures var r := Fresh(q, h, i, connects).0;
            && h in r.handles && r.handles == q.handles[h := r.handles[h]]
            && r.handles[h].conn == q.handles[h].conn && r.handles[h].async == q.handles[h].async
  {
    assert q.handles[h := q.handles[h]] == q.handles;
  }

  // Setting up.

  /** The result of pgsql_conn_next is stored in the handle, and an asynchronous handle becomes its job. */
  function Attach(p: Pool, h: nat, found: Option<nat>): Pool
    requires h in p.handles && (found.Some? ==> found.value in p.conns)
  {
    var q := SetHandle(p, h, p.handles[h].(conn := found));
    if found.Some? && p.handles[h].async then
      q.(conns := q.conns[found.value := q.conns[found.value].(job := Some(h))])
    else q
  }

  lemma AttachBase(p: Pool, h: nat, found: Option<nat>)
    requires Base(p) && h in p.handles && (found.Some? ==> found.value in p.conns && !p.conns[found.value].free)
    ensures Base(Attach(p, h, found)) && SameCounts(p, Attach(p, h, found))
  {
    SameDrift(p, Attach(p, h, found));
  }

  lemma AttachPaired(p: Pool, h: nat, c: nat)
    requires Paired(p, {c}) && h in p.handles && p.handles[h].conn.None?
    ensures Paired(Attach(p, h, Some(c)), {})
  {
    AttachHeld(p, h, c);
    hide Held;
  }

  lemma AttachHeld(p: Pool, h: nat, c: nat)
    requires Paired(p, {c}) && h in p.handles && p.handles[h].conn.None?
    ensures var q := Attach(p, h, Some(c)); forall x :: x in q.conns && !q.conns[x].free ==> Held(q, x)
  {
    var q := Attach(p, h, Some(c));
    forall x | x in q.conns && !q.conns[x].free
      ensures Held(q, x)
    {
      if x == c {
        assert q.handles[h].conn == Some(c);
      } else {
        var g :| g in p.handles && p.handles[g].conn == Some(x);
        assert q.handles[g].conn == Some(x);
      }
    }
  }

  lemma NothingAttached(p: Pool, h: nat)
    requires h in p.handles && p.handles[h].conn.None?
    ensures Attach(p, h, None) == p
  {
    assert p.handles[h := p.handles[h]] == p.handles;
  }

  /** The last part of kore_pgsql_setup: get a connection and attach it. */
  function Acquire(p: Pool, h: nat, i: nat, ok: nat -> bool, connects: bool): (Pool, bool)
    requires Base(p) && h in p.handles && i < |p.dbs|
  {
    ConnNextBase(p, h, i, ok, connects);
    var (q, found) := ConnNext(p, h, i, ok, connects);
    (Attach(q, h, found), found.Some?)
  }

  lemma AcquireBase(p: Pool, h: nat, i: nat, ok: nat -> bool, connects: bool)
    requires Base(p) && h in p.handles && i < |p.dbs|
    ensures Base(Acquire(p, h, i, ok, connects).0)
  {
    ConnNextBase(p, h, i, ok, connects);
    ConnNextOut(p, h, i, ok, connects);
    var (q, found) := ConnNext(p, h, i, ok, connects);
    AttachBase(q, h, found);
  }

  lemma FreshOut(q: Pool, h: nat, i: nat, connects: bool)
    requires h in q.handles && i < |q.dbs|
    ensures var (r, found) := Fresh(q, h, i, connects);
            found.Some? ==> found.value in r.conns && !r.conns[found.value].free
  {
  }

  lemma ConnNextOut(p: Pool, h: nat, i: nat, ok: nat -> bool, connects: bool)
    requires Base(p) && h in p.handles && i < |p.dbs|
    ensures var (q, found) := ConnNext(p, h, i, ok, connects);
            found.Some? ==> found.value in q.conns && !q.conns[found.value].free
  {
    hide Fresh;
    RescanFinds(p, p.dbs[i].name, ok);
    var (q, found) := Rescan(p, p.dbs[i].name, ok);
    if found.None? {
      FreshOut(q, h, i, connects);
    }
  }

  lemma AcquirePaired(p: Pool, h: nat, i: nat, ok: nat -> bool, connects: bool)
    requires Base(p) && Paired(p, {}) && h in p.handles && p.handles[h].conn.None? && i < |p.dbs|
    ensures Paired(Acquire(p, h, i, ok, connects).0, {})
  {
    ConnNextBase(p, h, i, ok, connects);
    ConnNextPaired(p, h, i, ok, connects);
    ConnNextHandles(p, h, i, ok, connects);
    var (q, found) := ConnNext(p, h, i, ok, connects);
    if found.Some? {
      AttachPaired(q, h, found.value);
    } else {
      NothingAttached(q, h);
    }
  }

  /** A handle that holds a connection and acquires again loses it: it stays checked out, held by nobody. */
  lemma AcquireLoses(p: Pool, h: nat, i: nat, ok: nat -> bool, connects: bool, x: nat)
    requires Base(p) && h in p.handles && i < |p.dbs| && p.handles[h].conn == Some(x)
    requires x in p.conns && !p.conns[x].free
    requires forall g :: g in p.handles && g != h ==> p.handles[g].conn != Some(x)
    ensures var r := Acquire(p, h, i, ok, connects).0;
            x in r.conns && !r.conns[x].free && !Held(r, x)
  {
    hide ConnNext;
    ConnNextBase(p, h, i, ok, connects);
    ConnNextElsewhere(p, h, i, ok, connects, x);
    ConnNextHandles(p, h, i, ok, connects);
    var (q, found) := ConnNext(p, h, i, ok, connects);
    var r := Attach(q, h, found);
    forall g | g in r.handles
      ensures r.handles[g].conn != Some(x)
    {
      assert g != h ==> r.handles[g] == p.handles[g];
    }
  }

  /** The part of kore_pgsql_setup after its checks of the flags. */
  function Locate(p: Pool, h: nat, name: string, ok: nat -> bool, connects: bool): (Pool, bool)
    requires Base(p) && h in p.handles
  {
    var i := FindDb(p.dbs, name);
    if i == |p.dbs| then (SetHandle(p, h, p.handles[h].(state := Error)), false)
    else Acquire(p, h, i, ok, connects)
  }

  predicate Refused(v: Handle, async: bool, sync: bool) {
    (async && sync) || (async && !v.bound)
  }

  function Flagged(v: Handle, async: bool, sync: bool): Handle {
    v.(async := v.async || async, sync := v.sync || sync)
  }

  /** kore_pgsql_setup */
  function Setup(p: Pool, h: nat, name: string, async: bool, sync: bool, ok: nat -> bool, connects: bool): (Pool, bool)
    requires Base(p) && h in p.handles
  {
    var v := p.handles[h];
    if Refused(v, async, sync) then (SetHandle(p, h, v.(state := Error)), false)
    else
      SetHandleBase(p, h, Flagged(v, async, sync));
      Locate(SetHandle(p, h, Flagged(v, async, sync)), h, name, ok, connects)
  }

  /** The handle holds nothing, or nothing of what it holds is touched: the call is refused for its flags,
      or its database is not registered and the handle does not become asynchronous. */
  predicate Proper(p: Pool, h: nat, name: string, async: bool, sync: bool)
    requires h in p.handles
  {
    var v := p.handles[h];
    || v.conn.None?
    || Refused(v, async, sync)
    || (FindDb(p.dbs, name) == |p.dbs| && (async ==> v.async))
  }

  lemma LocateNew(p: Pool, h: nat, name: string, ok: nat -> bool, connects: bool)
    requires Sound(p) && h in p.handles && p.handles[h].conn.None?
    ensures Sound(Locate(p, h, name, ok, connects).0)
  {
    var i := FindDb(p.dbs, name);
    if i == |p.dbs| {
      StateKeeps(p, h, Error, {});
    } else {
      AcquireBase(p, h, i, ok, connects);
      AcquirePaired(p, h, i, ok, connects);
    }
  }

  lemma SetupKeeps(p: Pool, h: nat, name: string, async: bool, sync: bool, ok: nat -> bool, connects: bool)
    requires Sound(p) && h in p.handles && Proper(p, h, name, async, sync)
    ensures Sound(Setup(p, h, name, async, sync, ok, connects).0)
  {
    var v := p.handles[h];
    var w := Flagged(v, async, sync);
    if Refused(v, async, sync) {
      StateKeeps(p, h, Error, {});
    } else if v.conn.None? {
      FlagsKeep(p, h, w);
      LocateNew(SetHandle(p, h, w), h, name, ok, connects);
    } else {
      SameAsyncKeeps(p, h, w);
      StateKeeps(SetHandle(p, h, w), h, Error, {});
    }
  }

  lemma SetupBreaks(p: Pool, h: nat, name: string, async: bool, sync: bool, ok: nat -> bool, connects: bool)
    requires Sound(p) && h in p.handles && !Proper(p, h, name, async, sync)
    ensures !Sound(Setup(p, h, name, async, sync, ok, connects).0)
  {
    var v := p.handles[h];
    var q := SetHandle(p, h, Flagged(v, async, sync));
    SetHandleBase(p, h, Flagged(v, async, sync));
    var i := FindDb(q.dbs, name);
    var x := v.conn.value;
    var r := Setup(p, h, name, async, sync, ok, connects).0;
    if i < |q.dbs| {
      AcquireLoses(q, h, i, ok, connects, x);
    } else {
      assert r.handles[h].conn == Some(x) && r.handles[h].async && r.conns[x].job.None?;
    }
  }

  /** kore_pgsql_setup keeps the pool in order exactly for a handle without a connection, or when it does
      not get to the connection: whether the flags are refused, and whether the name is registered. */
  lemma SetupKeepsIff(p: Pool, h: nat, name: string, async: bool, sync: bool, ok: nat -> bool, connects: bool)
    requires Sound(p) && h in p.handles
    ensures Sound(Setup(p, h, name, async, sync, ok, connects).0) <==> Proper(p, h, name, async, sync)
  {
    if Proper(p, h, name, async, sync) {
      SetupKeeps(p, h, name, async, sync, ok, connects);
    } else {
      SetupBreaks(p, h, name, async, sync, ok, connects);
    }
  }

  // Runs.

  datatype Step =
    | Open(h: nat, bound: bool)
    | Register(name: string, max: nat)
    | SetUp(h: nat, name: string, async: bool, sync: bool, ok: nat -> bool, connects: bool)
    | Transact(c: nat, inError: bool) // the server's state of a checked-out connection changes
    | ContinueDone(h: nat)
    | CleanUp(h: nat)
    | Lost(c: nat) // kore_pgsql_handle reports an error on a scheduled connection
    | Delete(h: nat)

  predicate Enabled(p: Pool, step: Step) {
    match step
    case Open(h, _) => h !in p.handles
    case Register(name, max) => true
    case SetUp(h, _, _, _, _, _) => h in p.handles
    case Transact(c, _) => c in p.conns && !p.conns[c].free
    case ContinueDone(h) => h in p.handles
    case CleanUp(h) => h in p.handles
    case Lost(c) => c in p.conns && p.conns[c].job.Some?
    case Delete(h) => h in p.handles
  }

  function Next(p: Pool, step: Step): Pool
    requires Sound(p) && Enabled(p, step)
  {
    match step
    case Open(h, bound) => SetHandle(p, h, Handle(None, false, false, bound, false, Init))
    case Register(name, max) =>
      if HasDb(p.dbs, name) then p else p.(dbs := [Db(name, 0, max)] + p.dbs)
    case SetUp(h, name, async, sync, ok, connects) => Setup(p, h, name, async, sync, ok, connects).0
    case Transact(c, inError) => p.(conns := p.conns[c := p.conns[c].(inError := inError)])
    case ContinueDone(h) => if p.handles[h].conn.Some? then Release(p, h) else p
    case CleanUp(h) => Cleanup(p, h)
    case Lost(c) => Teardown(p, c)
    case Delete(h) => SetHandle(p, h, p.handles[h].(deleted := true))
  }

  /** The one thing asked of the callers: no setup reaches the connection of a handle that holds one. */
  predicate StepProper(p: Pool, step: Step)
    requires Enabled(p, step)
  {
    step.SetUp? ==> Proper(p, step.h, step.name, step.async, step.sync)
  }

  lemma OpenKeeps(p: Pool, h: nat, bound: bool)
    requires Sound(p) && h !in p.handles
    ensures Sound(Next(p, Open(h, bound)))
  {
    hide Base, Held;
    var q := Next(p, Open(h, bound));
    SetHandleBase(p, h, q.handles[h]);
    assert q.handles[h].conn.None?;
    OpenHolders(p, h, q.handles[h]);
  }

  lemma OpenHolders(p: Pool, h: nat, v: Handle)
    requires h !in p.handles
    ensures forall c: nat :: Held(p, c) ==> Held(SetHandle(p, h, v), c)
  {
    forall c: nat | Held(p, c)
      ensures Held(SetHandle(p, h, v), c)
    {
      var g :| g in p.handles && p.handles[g].conn == Some(c);
      assert SetHandle(p, h, v).handles[g].conn == Some(c);
    }
  }

  lemma RegisterKeeps(p: Pool, name: string, max: nat)
    requires Sound(p)
    ensures Sound(Next(p, Register(name, max)))
  {
    hide Paired;
    if !HasDb(p.dbs, name) {
      var q := Next(p, Register(name, max));
      SamePairs(p, q);
      forall c | c in q.conns
        ensures HasDb(q.dbs, q.conns[c].name)
      {
        var i := FindDbIndex(p.dbs, q.conns[c].name);
        assert q.dbs[i + 1] == p.dbs[i];
      }
    }
  }

  lemma TransactKeeps(p: Pool, c: nat, inError: bool)
    requires Sound(p) && Enabled(p, Transact(c, inError))
    ensures Sound(Next(p, Transact(c, inError))) && SameCounts(p, Next(p, Transact(c, inError)))
  {
    hide Paired, LiveSet, Drift;
    var q := Next(p, Transact(c, inError));
    SameDrift(p, q);
    TransactPaired(p, q, c, inError);
  }

  lemma TransactPaired(p: Pool, q: Pool, c: nat, inError: bool)
    requires Paired(p, {}) && c in p.conns && q == p.(conns := p.conns[c := p.conns[c].(inError := inError)])
    ensures Paired(q, {})
  {
    SameHandlesHold(p, q);
    hide Held;
  }

  /** Every operation keeps the invariant, with the one exception of an improper setup. */
  lemma StepKeepsIff(p: Pool, step: Step)
    requires Sound(p) && Enabled(p, step)
    ensures Sound(Next(p, step)) <==> StepProper(p, step)
  {
    match step
    case Open(h, bound) => OpenKeeps(p, h, bound);
    case Register(name, max) => RegisterKeeps(p, name, max);
    case SetUp(h, name, async, sync, ok, connects) => SetupKeepsIff(p, h, name, async, sync, ok, connects);
    case Transact(c, inError) => TransactKeeps(p, c, inError);
    case ContinueDone(h) => if p.handles[h].conn.Some? { ReleaseKeeps(p, h); }
    case CleanUp(h) => CleanupKeeps(p, h);
    case Lost(c) => TeardownKeeps(p, c);
    case Delete(h) => SameAsyncKeeps(p, h, p.handles[h].(deleted := true));
  }

  ghost predicate CanRun(p: Pool, steps: seq<Step>)
    requires Sound(p)
    decreases |steps|
  {
    steps == [] ||
    (Enabled(p, steps[0]) && StepProper(p, steps[0]) &&
     (StepKeepsIff(p, steps[0]); CanRun(Next(p, steps[0]), steps[1..])))
  }

  ghost function Run(p: Pool, steps: seq<Step>): (q: Pool)
    requires Sound(p) && CanRun(p, steps)
    ensures Sound(q)
    decreases |steps|
  {
    if steps == [] then p
    else
      StepKeepsIff(p, steps[0]);
      Run(Next(p, steps[0]), steps[1..])
  }

  function Empty(limit: nat): Pool {
    Pool(map[], [], 0, map[], [], 0, limit, [])
  }
}
