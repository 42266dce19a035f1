/** Who gets which connection, who waits and who fails: the outcome of each pool operation for its handle. */
module PoolOutcomes {
  import opened Options
  import opened Sequences
  import opened Pool
  import opened PoolRuns
  import opened PoolCounts

  // Which connection the rescan loop finds.

  function FirstGood(q: seq<nat>, conns: map<nat, Conn>, name: string): (i: nat)
    ensures i <= |q|
    ensures forall j :: 0 <= j < i ==> !(q[j] in conns && conns[q[j]].name == name && !conns[q[j]].inError)
    ensures i < |q| ==> q[i] in conns && conns[q[i]].name == name && !conns[q[i]].inError
  {
    First(q, (c: nat) => c in conns && conns[c].name == name && !conns[c].inError)
  }

  function FirstCured(q: seq<nat>, conns: map<nat, Conn>, name: string, ok: nat -> bool): (i: nat)
    ensures i <= |q|
    ensures forall j :: 0 <= j < i ==> !(q[j] in conns && conns[q[j]].name == name && ok(q[j]))
    ensures i < |q| ==> q[i] in conns && conns[q[i]].name == name && ok(q[i])
  {
    First(q, (c: nat) => c in conns && conns[c].name == name && ok(c))
  }

  /** The first free connection of the database that is in no error transaction, or else the first one whose
      ROLLBACK works. */
  function Choice(q: seq<nat>, conns: map<nat, Conn>, name: string, ok: nat -> bool): Option<nat> {
    var i := FirstGood(q, conns, name);
    var k := FirstCured(q, conns, name, ok);
    if i < |q| then Some(q[i]) else if k < |q| then Some(q[k]) else None
  }

  lemma {:induction false} DropAt(q: seq<nat>, k: nat)
    requires k < |q| && NoRepeats(q)
    ensures Drop(q, q[k]) == q[..k] + q[k + 1..]
  {
    if k > 0 {
      DropAt(q[1..], k - 1);
      assert q[..k] == [q[0]] + q[1..][..k - 1] && q[1..][k..] == q[k + 1..];
    }
  }

  lemma NoOther(q: seq<nat>, k: nat)
    requires NoRepeats(q) && k < |q|
    ensures forall j :: 0 <= j < |q| && j != k ==> q[j] != q[k]
  {
  }

  lemma Listed(p: Pool)
    requires FreeListed(p)
    ensures NoRepeats(p.freeList) && forall c :: c in p.freeList ==> c in p.conns
  {
  }

  lemma ListShift(a: seq<nat>, k: nat, good: bool, b: seq<nat>)
    requires k < |a| && b == if good then a[..k] + a[k + 1..] + [a[k]] else a[..k] + a[k + 1..]
    ensures |b| == if good then |a| else |a| - 1
    ensures forall j :: 0 <= j < |a| - 1 ==> b[j] == a[if j < k then j else j + 1]
    ensures good ==> b[|a| - 1] == a[k]
  {
  }

  lemma ConnsKept(p: Pool, q: Pool, k: nat, good: bool)
    requires k < |p.freeList| && forall j :: 0 <= j < |p.freeList| && j != k ==> p.freeList[j] != p.freeList[k]
    requires forall j :: 0 <= j < |p.freeList| ==> p.freeList[j] in p.conns
    requires var c := p.freeList[k]; q.conns == if good then p.conns[c := p.conns[c].(inError := false)] else p.conns - {c}
    ensures forall j :: 0 <= j < |p.freeList| && j != k ==>
              p.freeList[j] in p.conns && p.freeList[j] in q.conns && q.conns[p.freeList[j]] == p.conns[p.freeList[j]]
  {
  }

  lemma BeforeFound(p: Pool, name: string)
    requires forall c :: c in p.freeList ==> c in p.conns
    ensures var k := FindFree(p.freeList, p.conns, name);
            forall j :: 0 <= j < k ==> p.freeList[j] in p.conns && p.conns[p.freeList[j]].name != name
  {
  }

  /** A round leaves the choice what it was. */
  lemma RoundChoice(p: Pool, k: nat, name: string, ok: nat -> bool)
    requires Base(p) && k < |p.freeList| && k == FindFree(p.freeList, p.conns, name)
    requires p.conns[p.freeList[k]].inError
    ensures var q := RollBack(p, p.freeList[k], ok(p.freeList[k]));
            Choice(q.freeList, q.conns, name, ok) == Choice(p.freeList, p.conns, name, ok)
  {
    hide RollBack, Choice, FreeListed, Queued, Named, NoRepeats, Drop, FindFree;
    Listed(p);
    var c := p.freeList[k];
    var q := RollBack(p, c, ok(c));
    RollBackLists(p, c, ok(c));
    DropAt(p.freeList, k);
    NoOther(p.freeList, k);
    ListShift(p.freeList, k, ok(c), q.freeList);
    ConnsKept(p, q, k, ok(c));
    BeforeFound(p, name);
    SameChoice(p.freeList, p.conns, q.freeList, q.conns, k, name, ok);
  }

  lemma SameChoice(a: seq<nat>, ca: map<nat, Conn>, b: seq<nat>, cb: map<nat, Conn>, k: nat, name: string, ok: nat -> bool)
    requires k < |a| && a[k] in ca && ca[a[k]].name == name && ca[a[k]].inError
    requires forall j :: 0 <= j < k ==> a[j] in ca && ca[a[j]].name != name
    requires |b| == if ok(a[k]) then |a| else |a| - 1
    requires forall j :: 0 <= j < |a| - 1 ==> b[j] == a[if j < k then j else j + 1]
    requires forall j :: 0 <= j < |a| && j != k ==> a[j] in ca && a[j] in cb && cb[a[j]] == ca[a[j]]
    requires ok(a[k]) ==> b[|a| - 1] == a[k] && a[k] in cb && cb[a[k]].name == name && !cb[a[k]].inError
    ensures Choice(b, cb, name, ok) == Choice(a, ca, name, ok)
  {
    var i := FirstGood(a, ca, name);
    var i2 := FirstGood(b, cb, name);
    if i < |a| {
      assert i > k && b[i - 1] == a[i];
      assert i2 <= i - 1;
      assert i2 >= k && a[i2 + 1] == b[i2];
    } else {
      NoGood(a, ca, b, cb, k, name, ok);
    }
  }

  /** With no good connection at first, the cured one is the only good one. */
  lemma NoGood(a: seq<nat>, ca: map<nat, Conn>, b: seq<nat>, cb: map<nat, Conn>, k: nat, name: string, ok: nat -> bool)
    requires k < |a| && a[k] in ca && ca[a[k]].name == name && ca[a[k]].inError
    requires forall j :: 0 <= j < k ==> a[j] in ca && ca[a[j]].name != name
    requires |b| == if ok(a[k]) then |a| else |a| - 1
    requires forall j :: 0 <= j < |a| - 1 ==> b[j] == a[if j < k then j else j + 1]
    requires forall j :: 0 <= j < |a| && j != k ==> a[j] in ca && a[j] in cb && cb[a[j]] == ca[a[j]]
    requires ok(a[k]) ==> b[|a| - 1] == a[k] && a[k] in cb && cb[a[k]].name == name && !cb[a[k]].inError
    requires FirstGood(a, ca, name) == |a|
    ensures Choice(b, cb, name, ok) == Choice(a, ca, name, ok)
  {
    var i2 := FirstGood(b, cb, name);
    var e, e2 := FirstCured(a, ca, name, ok), FirstCured(b, cb, name, ok);
    assert forall j :: 0 <= j < |a| - 1 ==> !(b[j] in cb && cb[b[j]].name == name && !cb[b[j]].inError);
    if ok(a[k]) {
      assert e == k && i2 == |a| - 1;
    } else {
      assert i2 == |b|;
      if e < |a| {
        assert e > k && b[e - 1] == a[e];
      }
      if e2 < |b| {
        assert e2 >= k && a[e2 + 1] == b[e2];
      }
    }
  }

  /** The loop finds that connection. */
  lemma {:induction false} RescanChooses(p: Pool, name: string, ok: nat -> bool)
    requires Base(p)
    ensures Rescan(p, name, ok).1 == Choice(p.freeList, p.conns, name, ok)
    decreases Errors(p.freeList, p.conns, name)
  {
    hide RollBack;
    var i := FindFree(p.freeList, p.conns, name);
    if i < |p.freeList| && p.conns[p.freeList[i]].inError {
      var c := p.freeList[i];
      RollBackBase(p, c, ok(c));
      RollBackProgress(p, c, ok(c), name);
      RoundChoice(p, i, name, ok);
      RescanChooses(RollBack(p, c, ok(c)), name, ok);
    } else if i < |p.freeList| {
      assert FirstGood(p.freeList, p.conns, name) == i;
    }
  }

  /** It only ever takes waiters from the front of the queue, and none if no free connection of the database
      is in an error transaction. */
  lemma {:induction false} RescanQueue(p: Pool, name: string, ok: nat -> bool)
    requires Base(p)
    ensures var left := Rescan(p, name, ok).0.waitQueue;
            && |left| <= |p.waitQueue| && left == p.waitQueue[|p.waitQueue| - |left|..]
            && ((forall c :: c in p.freeList && p.conns[c].name == name ==> !p.conns[c].inError) ==> left == p.waitQueue)
    decreases Errors(p.freeList, p.conns, name)
  {
    hide RollBack;
    var i := FindFree(p.freeList, p.conns, name);
    if i < |p.freeList| && p.conns[p.freeList[i]].inError {
      var c := p.freeList[i];
      RollBackBase(p, c, ok(c));
      RollBackProgress(p, c, ok(c), name);
      RollBackQueue(p, c, ok(c));
      RescanQueue(RollBack(p, c, ok(c)), name, ok);
    }
  }

  lemma RollBackQueue(p: Pool, c: nat, good: bool)
    requires Queued(p) && c in p.conns
    ensures var left := RollBack(p, c, good).waitQueue;
            |left| <= |p.waitQueue| && left == p.waitQueue[|p.waitQueue| - |left|..]
  {
  }

  // Setting up.

  /** A setup that does not get to its database fails and touches nothing else: its flags exclude each other,
      or nothing is bound, or the name is not registered; the flags are stored in the last case only. */
  lemma SetupFails(p: Pool, h: nat, name: string, async: bool, sync: bool, ok: nat -> bool, connects: bool)
    requires Base(p) && h in p.handles
    requires (async && (sync || !p.handles[h].bound)) || forall i :: 0 <= i < |p.dbs| ==> p.dbs[i].name != name
    ensures var v := p.handles[h];
            var w := if async && (sync || !v.bound) then v else v.(async := v.async || async, sync := v.sync || sync);
            Setup(p, h, name, async, sync, ok, connects) == (p.(handles := p.handles[h := w.(state := Error)]), false)
  {
    var v := p.handles[h];
    var q := SetHandle(p, h, Flagged(v, async, sync));
    if !Refused(v, async, sync) {
      SetHandleBase(p, h, Flagged(v, async, sync));
      assert FindDb(q.dbs, name) == |q.dbs|;
      assert p.handles[h := q.handles[h]][h := q.handles[h].(state := Error)] == p.handles[h := q.handles[h].(state := Error)];
    }
  }

  /** What a setup of handle `h`, its flags set in `p`, comes to with database `i`: `r` and `done`. A free
      connection is handed out by the choice above. With none, below the limit a new one is opened, or the
      attempt fails; and at the limit exactly an asynchronous handle waits, last in the queue, if the queue
      has room, and every other one fails. */
  predicate Gets(p: Pool, h: nat, i: nat, ok: nat -> bool, connects: bool, r: Pool, done: bool)
    requires Base(p) && h in p.handles && i < |p.dbs|
  {
    var (v, d) := (p.handles[h], p.dbs[i]);
    var left := Rescan(p, d.name, ok).0.waitQueue;
    match Choice(p.freeList, p.conns, d.name, ok)
    case Some(c) =>
      && done && r.handles == p.handles[h := v.(conn := Some(c))] && r.waitQueue == left
      && c in r.conns && !r.conns[c].free && c !in r.freeList
      && r.conns[c].job == if v.async then Some(h) else None
    case None =>
      if d.max != 0 && d.count >= d.max then
        && !done
        && if v.async && |left| < p.queueLimit
           then r.handles == p.handles[h := v.(conn := None)] && r.waitQueue == left + [h]
           else r.handles == p.handles[h := v.(conn := None, state := Error)] && r.waitQueue == left
      else if connects then
        && done && r.handles == p.handles[h := v.(conn := Some(p.nextConn))] && r.waitQueue == left
        && p.nextConn in r.conns && p.nextConn !in r.freeList
        && r.conns[p.nextConn] == Conn(d.name, false, if v.async then Some(h) else None, false)
      else
        && !done && r.handles == p.handles[h := v.(conn := None, state := Error)] && r.waitQueue == left
        && p.nextConn !in r.conns && p.nextConn !in r.freeList
  }

  /** A setup that gets to its database. */
  lemma SetupGets(p: Pool, h: nat, i: nat, async: bool, sync: bool, ok: nat -> bool, connects: bool)
    requires Base(p) && h in p.handles && i < |p.dbs| && !(async && (sync || !p.handles[h].bound))
    ensures var v := p.handles[h];
            var q := p.(handles := p.handles[h := v.(async := v.async || async, sync := v.sync || sync)]);
            var (r, done) := Setup(p, h, p.dbs[i].name, async, sync, ok, connects);
            Base(q) && Gets(q, h, i, ok, connects, r, done)
  {
    hide Acquire, Gets, FreeListed, Queued;
    var w := Flagged(p.handles[h], async, sync);
    var q := SetHandle(p, h, w);
    SetHandleBase(p, h, w);
    FindDbAt(q.dbs, i);
    AcquireGets(q, h, i, ok, connects);
  }

  lemma FoundGets(p: Pool, q: Pool, c: nat, h: nat)
    requires Base(q) && c in q.freeList && q.handles == p.handles && h in p.handles
    ensures c in CheckOut(q, c).conns
    ensures var r := Attach(CheckOut(q, c), h, Some(c));
            && r.handles == p.handles[h := p.handles[h].(conn := Some(c))] && r.waitQueue == q.waitQueue
            && c in r.conns && !r.conns[c].free && c !in r.freeList
            && r.conns[c].job == if p.handles[h].async then Some(h) else None
  {
    DropIn(q.freeList, c);
  }

  lemma NewGets(q: Pool, h: nat, i: nat)
    requires Base(q) && h in q.handles && i < |q.dbs| && !AtLimit(q.dbs[i])
    ensures var (a, c) := Fresh(q, h, i, true);
            && c == Some(q.nextConn) && q.nextConn in a.conns
            && var r := Attach(a, h, c);
               && r.handles == q.handles[h := q.handles[h].(conn := c)] && r.waitQueue == q.waitQueue
               && q.nextConn in r.conns && q.nextConn !in r.freeList
               && r.conns[q.nextConn] == Conn(q.dbs[i].name, false, if q.handles[h].async then Some(h) else None, false)
  {
    AddBase(q, i);
    DropIn(Add(q, i).freeList, q.nextConn);
  }

  lemma NoneGets(q: Pool, h: nat, i: nat)
    requires Base(q) && h in q.handles && i < |q.dbs| && !AtLimit(q.dbs[i])
    ensures var (a, c) := Fresh(q, h, i, false);
            && c == None && h in a.handles
            && var r := Attach(a, h, c);
               && r.handles == q.handles[h := q.handles[h].(conn := None, state := Error)] && r.waitQueue == q.waitQueue
               && q.nextConn !in r.conns && q.nextConn !in r.freeList
  {
    hide Queued, Named, Drop;
    AddBase(q, i);
    DropIn(Add(q, i).freeList, q.nextConn);
    assert Add(q, i).conns[q.nextConn].job.None?;
  }

  lemma LimitGets(q: Pool, h: nat, i: nat, connects: bool)
    requires Queued(q) && h in q.handles && i < |q.dbs| && AtLimit(q.dbs[i])
    ensures var (a, c) := Fresh(q, h, i, connects);
            && c == None && h in a.handles
            && var r := Attach(a, h, c);
               if q.handles[h].async && |q.waitQueue| < q.queueLimit
               then r.handles == q.handles[h := q.handles[h].(conn := None)] && r.waitQueue == q.waitQueue + [h]
               else r.handles == q.handles[h := q.handles[h].(conn := None, state := Error)] && r.waitQueue == q.waitQueue
  {
  }

  lemma AcquireGets(p: Pool, h: nat, i: nat, ok: nat -> bool, connects: bool)
    requires Base(p) && h in p.handles && i < |p.dbs|
    ensures var (r, done) := Acquire(p, h, i, ok, connects); Gets(p, h, i, ok, connects, r, done)
  {
    hide Rescan, Fresh, Choice, Attach, Base;
    var name := p.dbs[i].name;
    RescanChooses(p, name, ok);
    RescanFinds(p, name, ok);
    RescanCounts(p, name, ok, i);
    var (q, found) := Rescan(p, name, ok);
    ConnNextBase(p, h, i, ok, connects);
    BaseQueued(q);
    if found.Some? {
      FoundGets(p, q, found.value, h);
    } else if AtLimit(q.dbs[i]) {
      LimitGets(q, h, i, connects);
    } else if connects {
      NewGets(q, h, i);
    } else {
      NoneGets(q, h, i);
    }
  }

  lemma BaseQueued(q: Pool)
    requires Base(q)
    ensures Queued(q) && forall c :: c in q.freeList ==> c in q.conns
  {
  }

  // Giving back.

  /** One waiter woke: the first live one left the queue, with the deleted ones before it; and all left, if none
      was live. */
  predicate OneWoke(before: seq<nat>, after: seq<nat>, handles: map<nat, Handle>) {
    var live := PoolCounts.Live(before, handles);
    if live == [] then after == [] else PoolCounts.Live(after, handles) == live[1..]
  }

  lemma WakeupWakes(p: Pool)
    requires Queued(p)
    ensures OneWoke(p.waitQueue, Wakeup(p).0.waitQueue, p.handles)
  {
    WakesInOrder(p);
    hide Wakeup;
    assert PoolCounts.Live([], p.handles) == [];
  }

  lemma {:induction false} SameLive(q: seq<nat>, a: map<nat, Handle>, b: map<nat, Handle>)
    requires forall h :: h in a <==> h in b
    requires forall h :: h in a ==> a[h].deleted == b[h].deleted
    ensures PoolCounts.Live(q, a) == PoolCounts.Live(q, b)
  {
    if q != [] {
      SameLive(q[1..], a, b);
    }
  }

  /** Each round of the rescan loop wakes one waiter, whether its ROLLBACK works or not. */
  lemma RoundWakes(p: Pool, c: nat, good: bool)
    requires Queued(p) && c in p.conns
    ensures OneWoke(p.waitQueue, RollBack(p, c, good).waitQueue, p.handles)
  {
    WakeupWakes(Cycle(p, c, good));
    hide Wakeup, OneWoke;
  }

  /** A release puts the connection last in the free list and wakes one waiter; the handle is complete and holds
      nothing. */
  lemma ReleaseGives(p: Pool, h: nat)
    requires Sound(p) && h in p.handles && p.handles[h].conn.Some?
    ensures var c := p.handles[h].conn.value;
            var r := Release(p, h);
            && r.freeList == p.freeList + [c] && c in r.conns
            && r.conns == p.conns[c := p.conns[c].(job := None, free := true)]
            && r.handles == p.handles[h := p.handles[h].(conn := None, state := Complete)]
            && OneWoke(p.waitQueue, r.waitQueue, p.handles)
  {
    hide OneWoke, LeadingDeleted;
    ReleaseKeeps(p, h);
    var q := GiveBack(p, p.handles[h].conn.value);
    var t := SetHandle(q, h, q.handles[h].(conn := None, state := Complete));
    WakeupWakes(t);
    WokeSame(p.waitQueue, Wakeup(t).0.waitQueue, p.handles, t.handles);
  }

  lemma WokeSame(before: seq<nat>, after: seq<nat>, a: map<nat, Handle>, b: map<nat, Handle>)
    requires forall h :: h in a <==> h in b
    requires forall h :: h in a ==> a[h].deleted == b[h].deleted
    ensures OneWoke(before, after, a) <==> OneWoke(before, after, b)
  {
    SameLive(before, a, b);
    SameLive(after, a, b);
  }

  /** A cleanup takes the first entry of the handle out of the queue, if there is one, before it releases. */
  lemma CleanupTakes(p: Pool, h: nat, k: nat)
    requires Sound(p) && h in p.handles && p.handles[h].conn.None?
    requires k <= |p.waitQueue| && (forall j :: 0 <= j < k ==> p.waitQueue[j] != h)
    requires k < |p.waitQueue| ==> p.waitQueue[k] == h
    ensures var r := Cleanup(p, h);
            && r.waitQueue == (if k < |p.waitQueue| then p.waitQueue[..k] + p.waitQueue[k + 1..] else p.waitQueue)
            && r.queueCount == |r.waitQueue|
            && r.handles == p.handles && r.conns == p.conns && r.freeList == p.freeList
  {
    assert FirstAt(p.waitQueue, h) == k;
  }

  /** A teardown removes the connection, and a handle that waits for its job loses it and fails. */
  lemma TeardownTakes(p: Pool, c: nat)
    requires Sound(p) && Removable(p, c)
    ensures var r := Teardown(p, c);
            && r.conns == p.conns - {c} && c !in r.freeList
            && (forall x :: x in p.freeList && x != c ==> x in r.freeList)
            && (forall h :: h in p.handles ==>
                  && h in r.handles
                  && r.handles[h] ==
                       if p.conns[c].job == Some(h) then p.handles[h].(conn := None, state := Error) else p.handles[h])
            && r.waitQueue == p.waitQueue
  {
    DropIn(p.freeList, c);
  }
}
