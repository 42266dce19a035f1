/** The connection pool of websocket_13/pgsql.c on values: free list, wait queue, counters. */
module Pool {
  import opened Options
  import opened Sequences

  /** struct pgsql_conn. `inError` is what PQtransactionStatus reports. */
  datatype Conn = Conn(name: string, free: bool, job: Option<nat>, inError: bool)

  /** struct pgsql_db */
  datatype Db = Db(name: string, count: int, max: nat)

  datatype State = Init | Wait | Done | Error | Complete

  /** struct kore_pgsql. `deleted` is HTTP_REQUEST_DELETE on the bound request. */
  datatype Handle = Handle(conn: Option<nat>, async: bool, sync: bool, bound: bool, deleted: bool, state: State)

  /** `dbs` is in list order; connection ids are never reused. */
  datatype Pool = Pool(
    conns: map<nat, Conn>, freeList: seq<nat>, nextConn: nat,
    handles: map<nat, Handle>, waitQueue: seq<nat>, queueCount: nat, queueLimit: nat,
    dbs: seq<Db>)

  // The invariant.

  /** A connection is in the free list exactly when it is flagged free, once, and then has no job. */
  predicate FreeListed(p: Pool) {
    && NoRepeats(p.freeList)
    && (forall c :: c in p.freeList ==> c in p.conns && p.conns[c].free)
    && (forall c :: c in p.conns && p.conns[c].free ==> c in p.freeList && p.conns[c].job.None?)
    && (forall c :: c in p.conns ==> c < p.nextConn)
  }

  predicate Queued(p: Pool) {
    && p.queueCount == |p.waitQueue| <= p.queueLimit
    && (forall h :: h in p.waitQueue ==> h in p.handles)
  }

  predicate HasDb(dbs: seq<Db>, name: string) {
    exists i :: 0 <= i < |dbs| && dbs[i].name == name
  }

  /** Databases have different names, and every connection belongs to one. */
  predicate Named(p: Pool) {
    && (forall i, j :: 0 <= i < j < |p.dbs| ==> p.dbs[i].name != p.dbs[j].name)
    && (forall c :: c in p.conns ==> HasDb(p.dbs, p.conns[c].name))
  }

  /** What does not depend on which handle holds what. */
  predicate Base(p: Pool) {
    FreeListed(p) && Queued(p) && Named(p)
  }

  predicate Held(p: Pool, c: nat) {
    exists h :: h in p.handles && p.handles[h].conn == Some(c)
  }

  /** A handle's connection exists, is checked out and is its alone; an asynchronous handle and its
      connection point at each other through the job, a synchronous one's has none; and every connection
      that is checked out is held by a handle, but those in `spare`, which are held by none. */
  predicate Paired(p: Pool, spare: set<nat>) {
    && (forall h :: h in p.handles && p.handles[h].conn.Some? ==>
          && p.handles[h].conn.value in p.conns && p.handles[h].conn.value !in spare
          && !p.conns[p.handles[h].conn.value].free
          && p.conns[p.handles[h].conn.value].job == if p.handles[h].async then Some(h) else None)
    && (forall h, g :: h in p.handles && g in p.handles && h != g && p.handles[h].conn.Some? ==>
          p.handles[h].conn != p.handles[g].conn)
    && (forall c :: c in p.conns && p.conns[c].job.Some? ==>
          p.conns[c].job.value in p.handles && p.handles[p.conns[c].job.value].conn == Some(c))
    && (forall c :: c in p.conns && !p.conns[c].free && c !in spare ==> Held(p, c))
    && (forall c :: c in spare ==> c in p.conns && !p.conns[c].free)
  }

  predicate Sound(p: Pool) {
    Base(p) && Paired(p, {})
  }

  function LiveSet(conns: map<nat, Conn>, name: string): set<nat> {
    set c | c in conns && conns[c].name == name
  }

  /** By how much the counter of a database is above the number of its live connections. */
  function Drift(p: Pool, i: nat): int
    requires i < |p.dbs|
  {
    p.dbs[i].count - |LiveSet(p.conns, p.dbs[i].name)|
  }

  predicate Balanced(p: Pool) {
    forall i :: 0 <= i < |p.dbs| ==> Drift(p, i) == 0
  }

  // Wait queue.

  function SetHandle(p: Pool, h: nat, v: Handle): Pool {
    p.(handles := p.handles[h := v])
  }

  /** pgsql_queue_add */
  function QueueAdd(p: Pool, h: nat): Pool {
    p.(queueCount := p.queueCount + 1, waitQueue := p.waitQueue + [h])
  }

  /** How many deleted waiters lead the queue. */
  function LeadingDeleted(q: seq<nat>, handles: map<nat, Handle>): (n: nat)
    requires forall h :: h in q ==> h in handles
    ensures n <= |q|
    ensures forall i :: 0 <= i < n ==> handles[q[i]].deleted
    ensures n < |q| ==> !handles[q[n]].deleted
  {
    First(q, (h: nat) => !(h in handles && handles[h].deleted))
  }

  /** pgsql_queue_wakeup: the leading deleted waiters and the first live one leave the queue; the
      live one, if any, is woken. */
  function Wakeup(p: Pool): (Pool, Option<nat>)
    requires Queued(p)
  {
    var n := LeadingDeleted(p.waitQueue, p.handles);
    var gone := if n < |p.waitQueue| then n + 1 else n;
    (p.(waitQueue := p.waitQueue[gone..], queueCount := p.queueCount - gone),
     if n < |p.waitQueue| then Some(p.waitQueue[n]) else None)
  }

  /** pgsql_queue_remove: the first entry of the handle, if any. */
  function FirstAt(q: seq<nat>, h: nat): (i: nat)
    ensures i <= |q|
    ensures forall j :: 0 <= j < i ==> q[j] != h
    ensures i < |q| ==> q[i] == h
  {
    First(q, (g: nat) => g == h)
  }

  function QueueRemove(p: Pool, h: nat): Pool
    requires Queued(p)
  {
    var i := FirstAt(p.waitQueue, h);
    if i < |p.waitQueue| then
      p.(waitQueue := p.waitQueue[..i] + p.waitQueue[i + 1..], queueCount := p.queueCount - 1)
    else p
  }

  // Connections.

  /** TAILQ_REMOVE of a connection from the free list. */
  function Drop(q: seq<nat>, c: nat): seq<nat> {
    if q == [] then [] else if q[0] == c then q[1..] else [q[0]] + Drop(q[1..], c)
  }

  /** The database whose counter a teardown decrements: the first whose name DIFFERS. */
  function Victim(dbs: seq<Db>, name: string): (i: nat)
    ensures i <= |dbs|
    ensures forall j :: 0 <= j < i ==> dbs[j].name == name
    ensures i < |dbs| ==> dbs[i].name != name
  {
    First(dbs, (d: Db) => d.name != name)
  }

  function Decrement(dbs: seq<Db>, name: string): (r: seq<Db>)
    ensures |r| == |dbs|
  {
    var v := Victim(dbs, name);
    seq(|dbs|, i requires 0 <= i < |dbs| =>
      var d := dbs[i];
      d.(count := if i == v then d.count - 1 else d.count))
  }

  /** pgsql_conn_cleanup */
  function Teardown(p: Pool, c: nat): Pool
    requires c in p.conns
    requires p.conns[c].job.Some? ==> p.conns[c].job.value in p.handles
  {
    var conn := p.conns[c];
    p.(freeList := if conn.free then Drop(p.freeList, c) else p.freeList,
       handles := if conn.job.Some? then
                    p.handles[conn.job.value := p.handles[conn.job.value].(conn := None, state := Error)]
                  else p.handles,
       conns := p.conns - {c},
       dbs := Decrement(p.dbs, conn.name))
  }

  /** The part of pgsql_conn_release that gives the connection back. */
  function GiveBack(p: Pool, c: nat): Pool
    requires c in p.conns
  {
    p.(conns := p.conns[c := p.conns[c].(job := None, free := true)], freeList := p.freeList + [c])
  }

  function CheckOut(p: Pool, c: nat): Pool
    requires c in p.conns
  {
    p.(conns := p.conns[c := p.conns[c].(free := false)], freeList := Drop(p.freeList, c))
  }

  /** pgsql_conn_release, with a connection. */
  function Release(p: Pool, h: nat): Pool
    requires Queued(p) && h in p.handles && p.handles[h].conn.Some? && p.handles[h].conn.value in p.conns
  {
    var q := GiveBack(p, p.handles[h].conn.value);
    Wakeup(SetHandle(q, h, q.handles[h].(conn := None, state := Complete))).0
  }

  /** kore_pgsql_cleanup */
  function Cleanup(p: Pool, h: nat): Pool
    requires Queued(p) && h in p.handles
    requires p.handles[h].conn.Some? ==> p.handles[h].conn.value in p.conns
  {
    var q := QueueRemove(p, h);
    if p.handles[h].conn.Some? then Release(q, h) else q
  }

  /** The first free connection of a database. */
  function FindFree(q: seq<nat>, conns: map<nat, Conn>, name: string): (i: nat)
    requires forall c :: c in q ==> c in conns
    ensures i <= |q|
    ensures forall j :: 0 <= j < i ==> conns[q[j]].name != name
    ensures i < |q| ==> conns[q[i]].name == name
  {
    First(q, (c: nat) => c in conns && conns[c].name == name)
  }

  /** Free connections of a database that are in an error transaction. */
  function Errors(q: seq<nat>, conns: map<nat, Conn>, name: string): nat {
    if q == [] then 0
    else (if q[0] in conns && conns[q[0]].name == name && conns[q[0]].inError then 1 else 0) + Errors(q[1..], conns, name)
  }

  /** ROLLBACK on a connection taken from the free list and given back at its end. */
  function Cycle(p: Pool, c: nat, good: bool): Pool
    requires c in p.conns
  {
    var q := CheckOut(p, c);
    GiveBack(q.(conns := q.conns[c := q.conns[c].(inError := !good)]), c)
  }

  /** One round of the rescan loop: the ROLLBACK, the release of the temporary handle (which wakes a
      waiter), and the teardown if the ROLLBACK failed. */
  function RollBack(p: Pool, c: nat, good: bool): Pool
    requires Queued(p) && c in p.conns
  {
    var w := Wakeup(Cycle(p, c, good)).0;
    if good then w else Teardown(w, c)
  }

  lemma {:induction false} FirstAtIn(q: seq<nat>, h: nat)
    ensures FirstAt(q, h) < |q| <==> h in q
  {
    if q != [] && q[0] != h {
      FirstAtIn(q[1..], h);
    }
  }

  predicate NoRepeats(q: seq<nat>) {
    forall i, j :: 0 <= i < j < |q| ==> q[i] != q[j]
  }

  lemma {:induction false} DropIn(q: seq<nat>, c: nat)
    requires NoRepeats(q)
    ensures forall x :: x in Drop(q, c) <==> x in q && x != c
    ensures NoRepeats(Drop(q, c))
  {
    if q != [] {
      DropIn(q[1..], c);
      if q[0] != c {
        assert forall x :: x in q <==> x == q[0] || x in q[1..];
        assert q[0] !in Drop(q[1..], c);
      } else {
        assert forall i :: 0 <= i < |q| - 1 ==> q[1..][i] != c;
      }
    }
  }

  lemma {:induction false} ErrorsJoin(a: seq<nat>, b: seq<nat>, conns: map<nat, Conn>, name: string)
    ensures Errors(a + b, conns, name) == Errors(a, conns, name) + Errors(b, conns, name)
  {
    if a == [] {
      assert a + b == b;
    } else {
      ErrorsJoin(a[1..], b, conns, name);
      assert (a + b)[1..] == a[1..] + b;
    }
  }

  lemma {:induction false} ErrorsElsewhere(q: seq<nat>, a: map<nat, Conn>, b: map<nat, Conn>, name: string)
    requires forall c :: c in q ==> c in a && c in b && a[c].name == b[c].name && a[c].inError == b[c].inError
    ensures Errors(q, a, name) == Errors(q, b, name)
  {
    if q != [] {
      ErrorsElsewhere(q[1..], a, b, name);
    }
  }

  // Every operation keeps the invariant.

  lemma SameNames(a: map<nat, Conn>, b: map<nat, Conn>)
    requires a.Keys == b.Keys && forall c :: c in a ==> a[c].name == b[c].name
    ensures forall name :: LiveSet(a, name) == LiveSet(b, name)
  {
  }

  /** The counters and the live connections are the same. */
  predicate SameCounts(p: Pool, q: Pool) {
    q.dbs == p.dbs && q.conns.Keys == p.conns.Keys && forall c :: c in p.conns ==> q.conns[c].name == p.conns[c].name
  }

  lemma SameDrift(p: Pool, q: Pool)
    requires SameCounts(p, q)
    ensures Named(p) ==> Named(q)
    ensures forall i :: 0 <= i < |p.dbs| ==> Drift(q, i) == Drift(p, i)
  {
    SameNames(p.conns, q.conns);
  }

  lemma CheckOutBase(p: Pool, c: nat)
    requires Base(p) && c in p.freeList
    ensures Base(CheckOut(p, c)) && SameCounts(p, CheckOut(p, c))
  {
    DropIn(p.freeList, c);
    SameDrift(p, CheckOut(p, c));
  }

  lemma CheckOutPaired(p: Pool, c: nat)
    requires FreeListed(p) && Paired(p, {}) && c in p.freeList
    ensures Paired(CheckOut(p, c), {c})
  {
    var q := CheckOut(p, c);
    assert forall x :: x in q.conns && x != c ==> q.conns[x] == p.conns[x];
    assert forall x: nat :: Held(p, x) ==> Held(q, x);
  }

  lemma GiveBackBase(p: Pool, c: nat)
    requires Base(p) && c in p.conns && !p.conns[c].free
    ensures Base(GiveBack(p, c)) && SameCounts(p, GiveBack(p, c))
  {
    var q := GiveBack(p, c);
    assert c !in p.freeList;
    assert q.freeList[|p.freeList|] == c;
    forall x | x in q.conns && q.conns[x].free
      ensures x in q.freeList && q.conns[x].job.None?
    {
      if x != c {
        assert x in p.freeList;
      }
    }
    SameDrift(p, q);
  }

  lemma WakeupKeeps(p: Pool)
    requires Base(p)
    ensures var q := Wakeup(p).0;
            && Base(q) && q.conns == p.conns && q.freeList == p.freeList && q.handles == p.handles
            && q.dbs == p.dbs && q.nextConn == p.nextConn
            && (forall spare :: Paired(p, spare) ==> Paired(q, spare))
  {
    var q := Wakeup(p).0;
    SamePairs(p, q);
  }

  lemma SamePairs(p: Pool, q: Pool)
    requires q.conns == p.conns && q.handles == p.handles
    ensures forall spare :: Paired(p, spare) ==> Paired(q, spare)
  {
    assert forall c: nat :: Held(p, c) ==> Held(q, c);
  }

  lemma QueueRemoveKeeps(p: Pool, h: nat)
    requires Sound(p)
    ensures Sound(QueueRemove(p, h)) && QueueRemove(p, h).conns == p.conns && QueueRemove(p, h).handles == p.handles
    ensures QueueRemove(p, h).dbs == p.dbs
  {
    SamePairs(p, QueueRemove(p, h));
  }

  lemma ReleasePaired(p: Pool, h: nat)
    requires Paired(p, {}) && h in p.handles && p.handles[h].conn.Some?
    ensures var q := GiveBack(p, p.handles[h].conn.value);
            Paired(SetHandle(q, h, q.handles[h].(conn := None, state := Complete)), {})
  {
    var c := p.handles[h].conn.value;
    var q := GiveBack(p, c);
    var r := SetHandle(q, h, q.handles[h].(conn := None, state := Complete));
    forall x | x in r.conns && !r.conns[x].free
      ensures Held(r, x)
    {
      var g :| g in p.handles && p.handles[g].conn == Some(x);
      assert g != h && r.handles[g].conn == Some(x);
    }
  }

  lemma ReleaseKeeps(p: Pool, h: nat)
    requires Sound(p) && h in p.handles && p.handles[h].conn.Some?
    ensures p.handles[h].conn.value in p.conns
    ensures Sound(Release(p, h)) && SameCounts(p, Release(p, h))
  {
    var c := p.handles[h].conn.value;
    var q := GiveBack(p, c);
    var r := SetHandle(q, h, q.handles[h].(conn := None, state := Complete));
    GiveBackBase(p, c);
    ReleasePaired(p, h);
    WakeupKeeps(r);
  }

  lemma CleanupKeeps(p: Pool, h: nat)
    requires Sound(p) && h in p.handles
    ensures Sound(Cleanup(p, h)) && SameCounts(p, Cleanup(p, h))
  {
    QueueRemoveKeeps(p, h);
    if p.handles[h].conn.Some? {
      ReleaseKeeps(QueueRemove(p, h), h);
    }
  }

  lemma DecrementHas(dbs: seq<Db>, name: string, n: string)
    ensures HasDb(dbs, n) ==> HasDb(Decrement(dbs, name), n)
  {
    if HasDb(dbs, n) {
      var i :| 0 <= i < |dbs| && dbs[i].name == n;
      assert Decrement(dbs, name)[i].name == n;
    }
  }

  lemma LiveLess(conns: map<nat, Conn>, c: nat, name: string)
    requires c in conns
    ensures |LiveSet(conns - {c}, name)| == |LiveSet(conns, name)| - if conns[c].name == name then 1 else 0
  {
    if conns[c].name == name {
      assert LiveSet(conns, name) == LiveSet(conns - {c}, name) + {c};
    } else {
      assert LiveSet(conns, name) == LiveSet(conns - {c}, name);
    }
  }

  lemma LiveMore(conns: map<nat, Conn>, c: nat, conn: Conn, name: string)
    requires c !in conns
    ensures |LiveSet(conns[c := conn], name)| == |LiveSet(conns, name)| + if conn.name == name then 1 else 0
  {
    var more := conns[c := conn];
    assert more - {c} == conns;
    LiveLess(more, c, name);
  }

  /** What `n` teardowns of connections of one database do to the drift of database `i`. */
  function Shift(dbs: seq<Db>, i: nat, name: string, n: nat): int
    requires i < |dbs|
  {
    (if dbs[i].name == name then n else 0) - (if i == Victim(dbs, name) then n else 0)
  }

  /** A connection that is torn down is free, or checked out by an asynchronous handle. */
  predicate Removable(p: Pool, c: nat) {
    c in p.conns && (p.conns[c].free || p.conns[c].job.Some?)
  }

  predicate JobKnown(p: Pool, c: nat) {
    c in p.conns && (p.conns[c].job.Some? ==> p.conns[c].job.value in p.handles)
  }

  lemma TeardownBase(p: Pool, c: nat)
    requires Base(p) && JobKnown(p, c)
    ensures Base(Teardown(p, c))
  {
    var q := Teardown(p, c);
    DropIn(p.freeList, c);
    forall x | x in q.conns
      ensures HasDb(q.dbs, q.conns[x].name)
    {
      DecrementHas(p.dbs, p.conns[c].name, q.conns[x].name);
    }
  }

  lemma TeardownDrift(p: Pool, c: nat, i: nat)
    requires JobKnown(p, c) && i < |p.dbs|
    ensures Drift(Teardown(p, c), i) == Drift(p, i) + Shift(p.dbs, i, p.conns[c].name, 1)
  {
    LiveLess(p.conns, c, p.dbs[i].name);
  }

  lemma TeardownHeld(p: Pool, c: nat, x: nat)
    requires JobKnown(p, c) && x != c && Held(p, x)
    requires p.conns[c].job.Some? ==> p.handles[p.conns[c].job.value].conn == Some(c)
    ensures Held(Teardown(p, c), x)
  {
    var g :| g in p.handles && p.handles[g].conn == Some(x);
    assert Teardown(p, c).handles[g].conn == Some(x);
  }

  lemma TeardownPaired(p: Pool, c: nat)
    requires FreeListed(p) && Paired(p, {}) && Removable(p, c)
    ensures Paired(Teardown(p, c), {})
  {
    TeardownAllHeld(p, c);
    hide Held;
  }

  lemma TeardownAllHeld(p: Pool, c: nat)
    requires FreeListed(p) && Paired(p, {}) && Removable(p, c)
    ensures var q := Teardown(p, c); forall x :: x in q.conns && !q.conns[x].free ==> Held(q, x)
  {
    var q := Teardown(p, c);
    forall x | x in q.conns && !q.conns[x].free
      ensures Held(q, x)
    {
      TeardownHeld(p, c, x);
    }
  }

  lemma TeardownKeeps(p: Pool, c: nat)
    requires Sound(p) && Removable(p, c)
    ensures Sound(Teardown(p, c))
  {
    TeardownBase(p, c);
    TeardownPaired(p, c);
  }

  lemma CycleBase(p: Pool, c: nat, good: bool)
    requires Base(p) && c in p.freeList
    ensures Base(Cycle(p, c, good)) && SameCounts(p, Cycle(p, c, good))
  {
    var q := CheckOut(p, c);
    CheckOutBase(p, c);
    var r := q.(conns := q.conns[c := q.conns[c].(inError := !good)]);
    SameDrift(q, r);
    GiveBackBase(r, c);
  }

  lemma CyclePaired(p: Pool, c: nat, good: bool)
    requires FreeListed(p) && Paired(p, {}) && c in p.freeList
    ensures Paired(Cycle(p, c, good), {})
  {
    var q := Cycle(p, c, good);
    assert forall x :: x in q.conns && x != c ==> q.conns[x] == p.conns[x];
    assert forall x: nat :: Held(p, x) ==> Held(q, x);
  }

  lemma RollBackShape(p: Pool, c: nat, good: bool)
    requires Queued(p) && c in p.conns
    ensures RollBack(p, c, good).handles == p.handles && RollBack(p, c, good).queueLimit == p.queueLimit
    ensures RollBack(p, c, good).dbs == if good then p.dbs else Decrement(p.dbs, p.conns[c].name)
    ensures Cycle(p, c, good).conns[c].free && Cycle(p, c, good).conns[c].job.None?
  {
  }

  lemma RollBackBase(p: Pool, c: nat, good: bool)
    requires Base(p) && c in p.freeList
    ensures Base(RollBack(p, c, good))
  {
    var y := Cycle(p, c, good);
    CycleBase(p, c, good);
    RollBackShape(p, c, good);
    WakeupKeeps(y);
    if !good {
      TeardownBase(Wakeup(y).0, c);
    }
  }

  lemma RollBackDrift(p: Pool, c: nat, good: bool, i: nat)
    requires Base(p) && c in p.freeList && i < |p.dbs|
    ensures |RollBack(p, c, good).dbs| == |p.dbs|
    ensures Drift(RollBack(p, c, good), i) ==
            Drift(p, i) + if good then 0 else Shift(p.dbs, i, p.conns[c].name, 1)
  {
    var y := Cycle(p, c, good);
    CycleBase(p, c, good);
    WakeupKeeps(y);
    SameDrift(p, y);
    if !good {
      TeardownDrift(Wakeup(y).0, c, i);
    }
  }

  lemma RollBackPaired(p: Pool, c: nat, good: bool)
    requires Base(p) && Paired(p, {}) && c in p.freeList
    ensures Paired(RollBack(p, c, good), {})
  {
    var y := Cycle(p, c, good);
    CycleBase(p, c, good);
    CyclePaired(p, c, good);
    WakeupKeeps(y);
    if !good {
      TeardownPaired(Wakeup(y).0, c);
    }
  }

  /** A round of the rescan loop keeps the invariant. */
  lemma RollBackKeeps(p: Pool, c: nat, good: bool)
    requires Sound(p) && c in p.freeList
    ensures Sound(RollBack(p, c, good))
  {
    RollBackBase(p, c, good);
    RollBackPaired(p, c, good);
  }

  /** It leaves the connections that are checked out alone. */
  lemma RollBackElsewhere(p: Pool, c: nat, good: bool, x: nat)
    requires Base(p) && c in p.freeList && x in p.conns && x != c
    ensures x in RollBack(p, c, good).conns && RollBack(p, c, good).conns[x] == p.conns[x]
  {
  }

  lemma {:induction false} ErrorsWithout(q: seq<nat>, conns: map<nat, Conn>, name: string, c: nat)
    requires c in q && c in conns
    ensures Errors(Drop(q, c), conns, name) ==
              Errors(q, conns, name) - if conns[c].name == name && conns[c].inError then 1 else 0
  {
    if q[0] != c {
      ErrorsWithout(q[1..], conns, name, c);
      ErrorsJoin([q[0]], Drop(q[1..], c), conns, name);
    }
  }

  lemma CycleLists(p: Pool, c: nat, good: bool)
    requires c in p.conns && p.conns[c].free && p.conns[c].job.None?
    ensures Cycle(p, c, good).freeList == Drop(p.freeList, c) + [c]
    ensures Cycle(p, c, good).conns == p.conns[c := p.conns[c].(inError := !good)]
  {
  }

  /** What a round leaves: the connection good at the end of the free list, or gone. */
  lemma RollBackLists(p: Pool, c: nat, good: bool)
    requires Base(p) && c in p.freeList
    ensures var q := RollBack(p, c, good);
            && q.freeList == (if good then Drop(p.freeList, c) + [c] else Drop(p.freeList, c))
            && q.conns == (if good then p.conns[c := p.conns[c].(inError := false)] else p.conns - {c})
  {
    hide Cycle;
    CycleLists(p, c, good);
    DropIn(p.freeList, c);
    AppendDrop(Drop(p.freeList, c), c);
  }

  /** A round removes the connection from the free connections in error: the ROLLBACK worked and it
      is no longer in error, or it is gone. */
  lemma RollBackProgress(p: Pool, c: nat, good: bool, name: string)
    requires Base(p) && c in p.freeList && p.conns[c].name == name && p.conns[c].inError
    ensures var q := RollBack(p, c, good); Errors(q.freeList, q.conns, name) == Errors(p.freeList, p.conns, name) - 1
  {
    var rest := Drop(p.freeList, c);
    var q := RollBack(p, c, good);
    DropIn(p.freeList, c);
    ErrorsWithout(p.freeList, p.conns, name, c);
    RollBackLists(p, c, good);
    ErrorsElsewhere(rest, p.conns, q.conns, name);
    if good {
      ErrorsJoin(rest, [c], q.conns, name);
    }
  }

  lemma {:induction false} AppendDrop(q: seq<nat>, c: nat)
    requires c !in q
    ensures Drop(q + [c], c) == q
  {
    if q == [] {
      assert q + [c] == [c];
    } else {
      assert (q + [c])[1..] == q[1..] + [c];
      AppendDrop(q[1..], c);
    }
  }
}
