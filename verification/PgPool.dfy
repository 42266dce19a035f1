/** The functions of websocket_13/pgsql.c that update the pool, in the order of the source. Each method
    is tied to the function of module Pool or PoolRuns of the same name. */
module PgPool {
  import opened Options
  import opened Pool
  import opened PoolRuns

  class Globals {
    var conns: map<nat, Conn>
    var freeList: seq<nat>
    var nextConn: nat
    var handles: map<nat, Handle>
    var waitQueue: seq<nat>
    var queueCount: nat
    var queueLimit: nat
    var dbs: seq<Db>

    function View(): Pool
      reads this
    {
      Pool(conns, freeList, nextConn, handles, waitQueue, queueCount, queueLimit, dbs)
    }

    /** The queue limit is a variable of the source, 1000 unless changed. */
    constructor (limit: nat)
      ensures View() == Empty(limit) && Sound(View())
    {
      conns, freeList, nextConn := map[], [], 0;
      handles, waitQueue, queueCount, queueLimit, dbs := map[], [], 0, limit, [];
    }

    method SetError(h: nat)
      requires h in handles
      modifies this
      ensures View() == SetHandle(old(View()), h, old(handles[h]).(state := Error))
    {
      handles := handles[h := handles[h].(state := Error)];
    }

    method AddWaiter(h: nat)
      modifies this
      ensures View() == QueueAdd(old(View()), h)
    {
      queueCount := queueCount + 1;
      waitQueue := waitQueue + [h];
    }

    /** pgsql_queue_remove */
    method RemoveWaiter(h: nat)
      requires Queued(View())
      modifies this
      ensures View() == QueueRemove(old(View()), h)
    {
      var i := 0;
      while i < |waitQueue|
        invariant 0 <= i <= FirstAt(waitQueue, h)
        invariant View() == old(View())
      {
        if waitQueue[i] == h {
          queueCount := queueCount - 1;
          waitQueue := waitQueue[..i] + waitQueue[i + 1..];
          return;
        }
        i := i + 1;
      }
    }

    /** pgsql_queue_wakeup; the woken waiter's request or callback is told. */
    method QueueWakeup() returns (woken: Option<nat>)
      requires Queued(View())
      modifies this
      ensures (View(), woken) == Wakeup(old(View()))
    {
      woken := None;
      ghost var q := waitQueue;
      ghost var k := 0;
      while waitQueue != []
        invariant 0 <= k <= |q| && waitQueue == q[k..] && Queued(View())
        invariant View() == old(View()).(waitQueue := waitQueue, queueCount := old(queueCount) - k)
        invariant LeadingDeleted(q, handles) == k + LeadingDeleted(waitQueue, handles)
        decreases |waitQueue|
      {
        var h := waitQueue[0];
        queueCount := queueCount - 1;
        waitQueue := waitQueue[1..];
        k := k + 1;
        if !handles[h].deleted {
          woken := Some(h);
          return;
        }
      }
    }

    /** pgsql_conn_cleanup */
    method ConnCleanup(c: nat)
      requires c in conns && (conns[c].job.Some? ==> conns[c].job.value in handles)
      modifies this
      ensures View() == Teardown(old(View()), c)
    {
      var conn := conns[c];
      if conn.free {
        freeList := Drop(freeList, c);
      }
      if conn.job.Some? {
        var h := conn.job.value;
        handles := handles[h := handles[h].(conn := None, state := Error)];
      }
      var before := dbs;
      var i := 0;
      while i < |dbs| && dbs[i].name == conn.name
        invariant 0 <= i <= Victim(dbs, conn.name)
      {
        i := i + 1;
      }
      dbs := seq(|before|, k requires 0 <= k < |before| =>
        var d := before[k];
        d.(count := if k == i then d.count - 1 else d.count));
      assert dbs == Decrement(before, conn.name);
      conns := conns - {c};
    }

    /** pgsql_conn_release, with a connection */
    method ConnRelease(h: nat) returns (woken: Option<nat>)
      requires Sound(View()) && h in handles && handles[h].conn.Some?
      modifies this
      ensures View() == Release(old(View()), h) && Sound(View())
    {
      hide FreeListed, Named, Paired, Wakeup;
      ReleaseKeeps(View(), h);
      var c := handles[h].conn.value;
      ghost var q := GiveBack(View(), c);
      conns := conns[c := conns[c].(job := None, free := true)];
      freeList := freeList + [c];
      handles := handles[h := handles[h].(conn := None, state := Complete)];
      assert View() == SetHandle(q, h, q.handles[h].(conn := None, state := Complete));
      woken := QueueWakeup();
    }

    /** kore_pgsql_cleanup */
    method CleanupHandle(h: nat)
      requires Sound(View()) && h in handles
      modifies this
      ensures View() == Cleanup(old(View()), h) && Sound(View())
    {
      QueueRemoveKeeps(View(), h);
      RemoveWaiter(h);
      if handles[h].conn.Some? {
        var _ := ConnRelease(h);
      }
    }

    /** TAILQ_FOREACH over the free list: the first connection of the database. */
    method FirstFree(name: string) returns (i: nat)
      requires FreeListed(View())
      ensures i == FindFree(freeList, conns, name)
    {
      i := 0;
      while i < |freeList| && conns[freeList[i]].name != name
        invariant 0 <= i <= FindFree(freeList, conns, name)
      {
        i := i + 1;
      }
    }

    /** One round of the rescan loop: ROLLBACK through a temporary synchronous handle. */
    method RollBackOne(c: nat, good: bool)
      requires Base(View()) && c in freeList
      modifies this
      ensures View() == RollBack(old(View()), c, good) && Base(View())
    {
      RollBackBase(View(), c, good);
      RollBackShape(View(), c, good);
      conns := conns[c := conns[c].(free := false)];
      freeList := Drop(freeList, c);
      conns := conns[c := conns[c].(inError := !good)];
      conns := conns[c := conns[c].(job := None, free := true)];
      freeList := freeList + [c];
      var _ := QueueWakeup();
      if !good {
        ConnCleanup(c);
      }
    }

    /** The rescan loop of pgsql_conn_next. */
    method RescanLoop(name: string, ok: nat -> bool) returns (found: Option<nat>)
      requires Base(View())
      modifies this
      ensures (View(), found) == Rescan(old(View()), name, ok) && Base(View())
    {
      while true
        invariant Base(View()) && Rescan(View(), name, ok) == Rescan(old(View()), name, ok)
        decreases Errors(freeList, conns, name)
      {
        var i := FirstFree(name);
        if i == |freeList| {
          return None;
        }
        var c := freeList[i];
        if !conns[c].inError {
          return Some(c);
        }
        RollBackProgress(View(), c, ok(c), name);
        RollBackOne(c, ok(c));
      }
    }

    method CheckOutConn(c: nat)
      requires c in conns
      modifies this
      ensures View() == CheckOut(old(View()), c)
    {
      conns := conns[c := conns[c].(free := false)];
      freeList := Drop(freeList, c);
    }

    /** The rest of pgsql_conn_next, with pgsql_conn_create. */
    method FreshConn(h: nat, i: nat, connects: bool) returns (found: Option<nat>)
      requires h in handles && i < |dbs|
      modifies this
      ensures (View(), found) == Fresh(old(View()), h, i, connects)
    {
      if dbs[i].max != 0 && dbs[i].count >= dbs[i].max {
        if handles[h].async && queueCount < queueLimit {
          AddWaiter(h);
        } else {
          SetError(h);
        }
        return None;
      }
      var c := nextConn;
      dbs := dbs[i := dbs[i].(count := dbs[i].count + 1)];
      conns := conns[c := Conn(dbs[i].name, true, None, false)];
      freeList := freeList + [c];
      nextConn := nextConn + 1;
      if connects {
        CheckOutConn(c);
        return Some(c);
      }
      SetError(h);
      ConnCleanup(c);
      return None;
    }

    /** pgsql_conn_next */
    method NextConnection(h: nat, i: nat, ok: nat -> bool, connects: bool) returns (found: Option<nat>)
      requires Base(View()) && h in handles && i < |dbs|
      modifies this
      ensures (View(), found) == ConnNext(old(View()), h, i, ok, connects)
    {
      RescanFinds(View(), dbs[i].name, ok);
      found := RescanLoop(dbs[i].name, ok);
      if found.Some? {
        CheckOutConn(found.value);
      } else {
        found := FreshConn(h, i, connects);
      }
    }

    /** LIST_FOREACH over the databases: the one of that name. */
    method DbIndex(name: string) returns (i: nat)
      ensures i == FindDb(dbs, name)
    {
      i := 0;
      while i < |dbs| && dbs[i].name != name
        invariant 0 <= i <= FindDb(dbs, name)
      {
        i := i + 1;
      }
    }

    method AttachConn(h: nat, found: Option<nat>)
      requires h in handles && (found.Some? ==> found.value in conns)
      modifies this
      ensures View() == Attach(old(View()), h, found)
    {
      handles := handles[h := handles[h].(conn := found)];
      if found.Some? && handles[h].async {
        conns := conns[found.value := conns[found.value].(job := Some(h))];
      }
    }

    /** The end of kore_pgsql_setup: the result of pgsql_conn_next goes into the handle, whatever it held. */
    method AcquireFor(h: nat, i: nat, ok: nat -> bool, connects: bool) returns (done: bool)
      requires Base(View()) && h in handles && i < |dbs|
      modifies this
      ensures (View(), done) == Acquire(old(View()), h, i, ok, connects)
    {
      ConnNextBase(View(), h, i, ok, connects);
      var found := NextConnection(h, i, ok, connects);
      done := found.Some?;
      AttachConn(h, found);
    }

    method LocateDb(h: nat, name: string, ok: nat -> bool, connects: bool) returns (done: bool)
      requires Base(View()) && h in handles
      modifies this
      ensures (View(), done) == Locate(old(View()), h, name, ok, connects)
    {
      var i := DbIndex(name);
      if i == |dbs| {
        SetError(h);
        done := false;
      } else {
        done := AcquireFor(h, i, ok, connects);
      }
    }

    /** kore_pgsql_setup, for any handle; it keeps the pool in order exactly when the call is proper. */
    method SetupHandle(h: nat, name: string, async: bool, sync: bool, ok: nat -> bool, connects: bool) returns (done: bool)
      requires Sound(View()) && h in handles
      modifies this
      ensures (View(), done) == Setup(old(View()), h, name, async, sync, ok, connects)
      ensures Sound(View()) <==> Proper(old(View()), h, name, async, sync)
    {
      hide Base, Paired, Proper, Locate;
      SetupKeepsIff(View(), h, name, async, sync, ok, connects);
      if (async && sync) || (async && !handles[h].bound) {
        SetError(h);
        return false;
      }
      var v := handles[h].(async := handles[h].async || async, sync := handles[h].sync || sync);
      SetHandleBase(View(), h, v);
      handles := handles[h := v];
      done := LocateDb(h, name, ok, connects);
    }
  }
}
