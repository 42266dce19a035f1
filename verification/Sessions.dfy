/** Sessions of janus/src/pjanus.c: the table, reference counts, requests in any interleaving, and the
    watchdog. */
module Sessions {
  import opened Options

  // One session object.

  /** janus_session. `frees`, `drops` and `marks` are history for the proofs: how often the object was
      freed, the owner's reference dropped, and a scan found it idle for the full time. */
  datatype Sess = Sess(
    id: nat, ref: int, destroyed: bool, timeout: bool, gone: bool, last: int,
    frees: nat, drops: nat, marks: nat)

  /** Timeouts in microseconds; a session timeout below one second disables the watchdog. */
  datatype Config = Config(session: nat, reclaim: nat)

  function Increase(x: Sess): Sess {
    x.(ref := x.ref + 1)
  }

  /** janus_refcount_decrease: at zero the object is freed. */
  function Decrease(x: Sess): Sess {
    x.(ref := x.ref - 1, frees := if x.ref == 1 then x.frees + 1 else x.frees)
  }

  /** janus_session_destroy */
  function Destroy(x: Sess): Sess {
    if x.destroyed then x else Decrease(x.(destroyed := true, drops := x.drops + 1))
  }

  predicate Idle(x: Sess, now: int, c: Config) {
    now - x.last >= c.session
  }

  predicate Abandoned(x: Sess, now: int, c: Config) {
    x.gone && now - x.last >= c.reclaim
  }

  /** What one look of the watchdog does to a session. */
  function Looked(x: Sess, now: int, c: Config): Sess {
    if Idle(x, now, c) || Abandoned(x, now, c) then x.(timeout := true, marks := x.marks + 1) else x
  }

  /** Whether that look expires it: the flag must have been set before, by an earlier look or, for an
      abandoned session, by the first half of the same condition. */
  predicate Expires(x: Sess, now: int, c: Config) {
    || (Idle(x, now, c) && x.timeout)
    || (Abandoned(x, now, c) && (x.timeout || Idle(x, now, c)))
  }

  /** The same in the code's terms. */
  class Session {
    const id: nat
    var ref: int
    var destroyed: bool
    var timeout: bool
    var gone: bool
    var last: int
    ghost var frees: nat
    ghost var drops: nat
    ghost var marks: nat

    ghost function View(): Sess
      reads this
    {
      Sess(id, ref, destroyed, timeout, gone, last, frees, drops, marks)
    }

    constructor (id: nat, now: int)
      ensures View() == Fresh(id, now)
    {
      this.id, ref, destroyed, timeout, gone, last := id, 1, false, false, false, now;
      frees, drops, marks := 0, 0, 0;
    }

    method RefDecrease()
      modifies this
      ensures View() == Decrease(old(View()))
    {
      ref := ref - 1;
      if ref == 0 {
        frees := frees + 1;
      }
    }

    /** g_atomic_int_compare_and_exchange(&destroyed, 0, 1) */
    method CasDestroyed() returns (exchanged: bool)
      modifies this`destroyed
      ensures destroyed && exchanged == !old(destroyed)
    {
      exchanged := !destroyed;
      destroyed := true;
    }

    /** g_atomic_int_compare_and_exchange(&timeout, 0, 1) */
    method CasTimeout() returns (exchanged: bool)
      modifies this`timeout
      ensures timeout && exchanged == !old(timeout)
    {
      exchanged := !timeout;
      timeout := true;
    }

    /** janus_session_destroy */
    method DestroySession()
      modifies this
      ensures View() == Destroy(old(View()))
    {
      var exchanged := CasDestroyed();
      if !exchanged {
        return;
      }
      drops := drops + 1;
      RefDecrease();
    }

    /** The condition of janus_check_sessions, its two parts in order. */
    method Check(now: int, c: Config) returns (expired: bool)
      modifies this
      ensures View() == Looked(old(View()), now, c) && expired == Expires(old(View()), now, c)
    {
      if Idle(View(), now, c) || Abandoned(View(), now, c) {
        marks := marks + 1;
      }
      var exchanged;
      expired := false;
      if now - last >= c.session {
        exchanged := CasTimeout();
        expired := !exchanged;
      }
      if !expired && gone && now - last >= c.reclaim {
        exchanged := CasTimeout();
        expired := !exchanged;
      }
    }
  }

  function Fresh(id: nat, now: int): Sess {
    Sess(id, 1, false, false, false, now, 0, 0, 0)
  }

  // The system.

  /** Where a request is: it found an id unused, it created a session and has not yet taken its
      reference, it holds a reference, or it holds one and has removed the session's id. */
  datatype Stage = Checked(id: nat) | Created(p: nat) | Held(p: nat) | Removed(p: nat)

  /** The watchdog with the table locked: about to remove a session, or to destroy it. */
  datatype Watch = Off | Expiring(p: nat) | Expelled(p: nat)

  /** `heap` holds every session ever created, by address; addresses are never reused. */
  datatype State = State(
    heap: map<nat, Sess>, table: map<nat, nat>, reqs: map<nat, Stage>, next: nat, now: int, watch: Watch, config: Config)

  datatype Step =
    | CheckId(r: nat, id: nat)
    | Create(r: nat)
    | Hold(r: nat)
    | Find(r: nat, id: nat)
    | Touch(r: nat)
    | RemoveId(r: nat)
    | Mark(r: nat)
    | Finish(r: nat)
    | Tick(dt: nat)
    | TransportGone(id: nat)
    | Look(id: nat)
    | Expel
    | Doom

  predicate Enabled(s: State, step: Step) {
    match step
    case CheckId(r, id) => r !in s.reqs && s.watch.Off?
    case Create(r) => r in s.reqs && s.reqs[r].Checked? && s.watch.Off?
    case Hold(r) => r in s.reqs && s.reqs[r].Created?
    case Find(r, id) => r !in s.reqs && s.watch.Off?
    case Touch(r) => r in s.reqs && s.reqs[r].Held?
    case RemoveId(r) => r in s.reqs && s.reqs[r].Held? && s.watch.Off?
    case Mark(r) => r in s.reqs && s.reqs[r].Removed?
    case Finish(r) => r in s.reqs && s.reqs[r].Held?
    case Tick(_) => true
    case TransportGone(id) => id in s.table && s.watch.Off?
    case Look(id) => id in s.table && s.watch.Off? && s.config.session >= 1000000
    case Expel => s.watch.Expiring?
    case Doom => s.watch.Expelled?
  }

  /** The session a step works on, if any. */
  function Subject(s: State, step: Step): Option<nat>
    requires Enabled(s, step)
  {
    match step
    case CheckId(_, id) => if id in s.table then Some(s.table[id]) else None
    case Create(_) => None
    case Hold(r) => Some(s.reqs[r].p)
    case Find(_, id) => if id in s.table then Some(s.table[id]) else None
    case Touch(r) => Some(s.reqs[r].p)
    case RemoveId(r) => Some(s.reqs[r].p)
    case Mark(r) => Some(s.reqs[r].p)
    case Finish(r) => Some(s.reqs[r].p)
    case Tick(_) => None
    case TransportGone(id) => Some(s.table[id])
    case Look(id) => Some(s.table[id])
    case Expel => Some(s.watch.p)
    case Doom => Some(s.watch.p)
  }

  predicate SubjectKnown(s: State, step: Step) {
    Enabled(s, step) && (Subject(s, step).Some? ==> Subject(s, step).value in s.heap)
  }

  function Put(s: State, p: nat, x: Sess): State {
    s.(heap := s.heap[p := x])
  }

  function Go(s: State, r: nat, stage: Stage): State {
    s.(reqs := s.reqs[r := stage])
  }

  /** A successful find takes a reference. */
  function Take(s: State, r: nat, p: nat): State
    requires p in s.heap
  {
    Go(Put(s, p, Increase(s.heap[p])), r, Held(p))
  }

  function Next(s: State, step: Step): State
    requires SubjectKnown(s, step)
  {
    match step
    case CheckId(r, id) => if id in s.table then Take(s, r, s.table[id]) else Go(s, r, Checked(id))
    case Create(r) =>
      var id := s.reqs[r].id;
      Go(Put(s, s.next, Fresh(id, s.now)), r, Created(s.next)).(table := s.table[id := s.next], next := s.next + 1)
    case Hold(r) => Take(s, r, s.reqs[r].p)
    case Find(r, id) => if id in s.table then Take(s, r, s.table[id]) else s
    case Touch(r) => var p := s.reqs[r].p; Put(s, p, s.heap[p].(last := s.now))
    case RemoveId(r) => var p := s.reqs[r].p; Go(s, r, Removed(p)).(table := s.table - {s.heap[p].id})
    case Mark(r) => var p := s.reqs[r].p; Go(Put(s, p, Destroy(s.heap[p])), r, Held(p))
    case Finish(r) => var p := s.reqs[r].p; Put(s, p, Decrease(s.heap[p])).(reqs := s.reqs - {r})
    case Tick(dt) => s.(now := s.now + dt)
    case TransportGone(id) =>
      var x := s.heap[s.table[id]];
      if x.destroyed || x.timeout then s else Put(s, s.table[id], x.(gone := true))
    case Look(id) =>
      var p := s.table[id];
      var x := s.heap[p];
      if x.destroyed then s
      else Put(s, p, Looked(x, s.now, s.config)).(watch := if Expires(x, s.now, s.config) then Expiring(p) else Off)
    case Expel => s.(table := s.table - {s.heap[s.watch.p].id}, watch := Expelled(s.watch.p))
    case Doom => Put(s, s.watch.p, Destroy(s.heap[s.watch.p])).(watch := Off)
  }

  // The invariant.

  predicate Holds(stage: Stage, p: nat) {
    (stage.Held? || stage.Removed?) && stage.p == p
  }

  /** The requests that hold a reference to a session. */
  function Holders(reqs: map<nat, Stage>, p: nat): set<nat> {
    set r | r in reqs && Holds(reqs[r], p)
  }

  /** The count is the owner's reference, until destroyed, and those of the requests holding it; the
      object is freed when that reaches zero and not before, and the owner's reference is dropped once. */
  predicate Accounted(s: State, p: nat)
    requires p in s.heap
  {
    var x := s.heap[p];
    && x.ref == (if x.destroyed then 0 else 1) + |Holders(s.reqs, p)|
    && x.frees == (if x.ref == 0 then 1 else 0)
    && x.drops == (if x.destroyed then 1 else 0)
    && (x.timeout <==> x.marks > 0)
  }

  predicate Tabled(s: State) {
    && (forall id :: id in s.table ==> s.table[id] in s.heap)
    && (forall id :: id in s.table ==> s.heap[s.table[id]].id == id && !s.heap[s.table[id]].destroyed)
    && (forall p :: p in s.heap ==> p < s.next)
  }

  predicate Staged(s: State) {
    && (forall r :: r in s.reqs && !s.reqs[r].Checked? ==> s.reqs[r].p in s.heap)
    && (forall r :: r in s.reqs && s.reqs[r].Removed? ==> s.reqs[r].p !in s.table.Values)
    && (s.watch.Expiring? ==> s.watch.p in s.table.Values)
    && (s.watch.Expelled? ==> s.watch.p in s.heap && s.watch.p !in s.table.Values && !s.heap[s.watch.p].destroyed)
    && (s.watch.Expelled? ==> forall r :: r in s.reqs && s.reqs[r].Removed? ==> s.reqs[r].p != s.watch.p)
  }

  predicate Inv(s: State) {
    Tabled(s) && Staged(s) && forall p :: p in s.heap ==> Accounted(s, p)
  }

  lemma {:induction false} SubjectInHeap(s: State, step: Step)
    requires Inv(s) && Enabled(s, step)
    ensures SubjectKnown(s, step)
  {
  }

  /** The step works on a session that was freed. */
  predicate Stale(s: State, step: Step)
    requires SubjectKnown(s, step)
  {
    Subject(s, step).Some? && s.heap[Subject(s, step).value].frees > 0
  }

  /** The one step that can is the creator's delayed Hold: exactly when its session was destroyed by
      somebody else in between and nobody holds it any more. */
  lemma {:induction false} StaleIff(s: State, step: Step)
    requires Inv(s) && Enabled(s, step)
    ensures SubjectKnown(s, step)
    ensures Stale(s, step) <==>
              && step.Hold?
              && var p := s.reqs[step.r].p; s.heap[p].destroyed && Holders(s.reqs, p) == {}
  {
    SubjectInHeap(s, step);
    if Subject(s, step).Some? {
      var p := Subject(s, step).value;
      assert Accounted(s, p);
      if step.Touch? || step.RemoveId? || step.Mark? || step.Finish? {
        assert step.r in Holders(s.reqs, p);
      }
    }
  }

  // Every step but a stale one keeps the invariant.

  function One(b: bool): nat {
    if b then 1 else 0
  }

  lemma {:induction false} HoldersGone(reqs: map<nat, Stage>, r: nat, p: nat)
    requires r in reqs
    ensures |Holders(reqs - {r}, p)| == |Holders(reqs, p)| - One(Holds(reqs[r], p))
  {
    if Holds(reqs[r], p) {
      assert Holders(reqs, p) == Holders(reqs - {r}, p) + {r};
    } else {
      assert Holders(reqs, p) == Holders(reqs - {r}, p);
    }
  }

  lemma {:induction false} HoldersMove(reqs: map<nat, Stage>, r: nat, stage: Stage, p: nat)
    ensures |Holders(reqs[r := stage], p)| ==
            |Holders(reqs, p)| + One(Holds(stage, p)) - One(r in reqs && Holds(reqs[r], p))
  {
    var more := reqs[r := stage];
    assert more - {r} == reqs - {r};
    HoldersGone(more, r, p);
    if r in reqs {
      HoldersGone(reqs, r, p);
    } else {
      assert reqs - {r} == reqs;
    }
  }

  lemma {:induction false} AccountedMove(s: State, q: State, r: nat, stage: Stage, p: nat, x: Sess, o: nat)
    requires o in s.heap && Accounted(s, o)
    requires q.heap == s.heap[p := x] && q.reqs == s.reqs[r := stage]
    requires o != p ==> !Holds(stage, o) && !(r in s.reqs && Holds(s.reqs[r], o))
    requires o == p ==> x.destroyed == s.heap[p].destroyed && x.drops == s.heap[p].drops && (x.timeout <==> x.marks > 0)
    requires o == p ==> x.ref == s.heap[p].ref + One(Holds(stage, p)) - One(r in s.reqs && Holds(s.reqs[r], p))
    requires o == p ==> x.frees == (if x.ref == 0 then 1 else 0)
    ensures Accounted(q, o)
  {
    HoldersMove(s.reqs, r, stage, o);
  }

  lemma {:induction false} TakeKeeps(s: State, r: nat, p: nat)
    requires Inv(s) && p in s.heap && s.heap[p].frees == 0
    requires r !in s.reqs || s.reqs[r] == Created(p)
    ensures Inv(Take(s, r, p))
  {
    var q := Take(s, r, p);
    assert q.table == s.table;
    forall o | o in q.heap
      ensures Accounted(q, o)
    {
      assert Accounted(s, p);
      AccountedMove(s, q, r, Held(p), p, Increase(s.heap[p]), o);
    }
  }

  lemma {:induction false} CreateKeeps(s: State, r: nat)
    requires Inv(s) && Enabled(s, Create(r))
    ensures Inv(Next(s, Create(r)))
  {
    var q := Next(s, Create(r));
    assert Holders(s.reqs, s.next) == {};
    forall o | o in q.heap
      ensures Accounted(q, o)
    {
      HoldersMove(s.reqs, r, Created(s.next), o);
      if o != s.next {
        assert Accounted(s, o);
      }
    }
  }

  /** A step that changes one session's clock or flags, and no count. */
  lemma {:induction false} PutKeeps(s: State, p: nat, x: Sess)
    requires Inv(s) && p in s.heap
    requires var y := s.heap[p];
             && x.id == y.id && x.ref == y.ref && x.destroyed == y.destroyed && x.frees == y.frees
             && x.drops == y.drops && (x.timeout <==> x.marks > 0)
    ensures Inv(Put(s, p, x))
  {
    var q := Put(s, p, x);
    forall o | o in q.heap
      ensures Accounted(q, o)
    {
      assert Accounted(s, o);
    }
  }

  lemma {:induction false} RemoveIdKeeps(s: State, r: nat)
    requires Inv(s) && SubjectKnown(s, RemoveId(r))
    ensures Inv(Next(s, RemoveId(r)))
  {
    var p := s.reqs[r].p;
    var q := Next(s, RemoveId(r));
    assert forall id :: id in q.table ==> q.table[id] == s.table[id] && q.table[id] != p;
    forall o | o in q.heap
      ensures Accounted(q, o)
    {
      assert Accounted(s, o);
      HoldersMove(s.reqs, r, Removed(p), o);
    }
  }

  lemma {:induction false} MarkKeeps(s: State, r: nat)
    requires Inv(s) && SubjectKnown(s, Mark(r))
    ensures Inv(Next(s, Mark(r)))
  {
    var p := s.reqs[r].p;
    var q := Next(s, Mark(r));
    assert r in Holders(s.reqs, p);
    assert forall id :: id in s.table ==> s.table[id] in s.table.Values;
    forall o | o in q.heap
      ensures Accounted(q, o)
    {
      assert Accounted(s, o);
      HoldersMove(s.reqs, r, Held(p), o);
    }
  }

  lemma {:induction false} FinishKeeps(s: State, r: nat)
    requires Inv(s) && SubjectKnown(s, Finish(r))
    ensures Inv(Next(s, Finish(r)))
  {
    var p := s.reqs[r].p;
    var q := Next(s, Finish(r));
    assert r in Holders(s.reqs, p);
    forall o | o in q.heap
      ensures Accounted(q, o)
    {
      assert Accounted(s, o);
      HoldersGone(s.reqs, r, o);
    }
  }

  lemma {:induction false} LookKeeps(s: State, id: nat)
    requires Inv(s) && SubjectKnown(s, Look(id))
    ensures Inv(Next(s, Look(id)))
  {
    var p := s.table[id];
    assert Accounted(s, p);
    PutKeeps(s, p, Looked(s.heap[p], s.now, s.config));
    var q := Next(s, Look(id));
    var t := Put(s, p, Looked(s.heap[p], s.now, s.config));
    assert p in s.table.Values;
    forall o | o in q.heap
      ensures Accounted(q, o)
    {
      assert Accounted(t, o);
    }
  }

  lemma {:induction false} ExpelKeeps(s: State)
    requires Inv(s) && SubjectKnown(s, Expel)
    ensures Inv(Next(s, Expel))
  {
    var p := s.watch.p;
    var q := Next(s, Expel);
    assert forall id :: id in q.table ==> q.table[id] == s.table[id] && q.table[id] != p;
    forall o | o in q.heap
      ensures Accounted(q, o)
    {
      assert Accounted(s, o);
    }
  }

  lemma {:induction false} DoomKeeps(s: State)
    requires Inv(s) && SubjectKnown(s, Doom)
    ensures Inv(Next(s, Doom))
  {
    var q := Next(s, Doom);
    assert forall id :: id in s.table ==> s.table[id] in s.table.Values;
    forall o | o in q.heap
      ensures Accounted(q, o)
    {
      assert Accounted(s, o);
    }
  }

  lemma {:induction false} StepKeeps(s: State, step: Step)
    requires Inv(s) && SubjectKnown(s, step) && !Stale(s, step)
    ensures Inv(Next(s, step))
  {
    match step
    case CheckId(r, id) => if id in s.table { TakeKeeps(s, r, s.table[id]); } else { CheckedKeeps(s, r, id); }
    case Create(r) => CreateKeeps(s, r);
    case Hold(r) => TakeKeeps(s, r, s.reqs[r].p);
    case Find(r, id) => if id in s.table { TakeKeeps(s, r, s.table[id]); }
    case Touch(r) => var p := s.reqs[r].p; assert Accounted(s, p); PutKeeps(s, p, s.heap[p].(last := s.now));
    case RemoveId(r) => RemoveIdKeeps(s, r);
    case Mark(r) => MarkKeeps(s, r);
    case Finish(r) => FinishKeeps(s, r);
    case Tick(dt) => assert forall p :: p in s.heap && Accounted(s, p) ==> Accounted(Next(s, step), p);
    case TransportGone(id) => var p := s.table[id]; assert Accounted(s, p); PutKeeps(s, p, s.heap[p].(gone := true));
    case Look(id) => LookKeeps(s, id);
    case Expel => ExpelKeeps(s);
    case Doom => DoomKeeps(s);
  }

  lemma {:induction false} CheckedKeeps(s: State, r: nat, id: nat)
    requires Inv(s) && r !in s.reqs
    ensures Inv(Go(s, r, Checked(id)))
  {
    var q := Go(s, r, Checked(id));
    forall o | o in q.heap
      ensures Accounted(q, o)
    {
      assert Accounted(s, o);
      HoldersMove(s.reqs, r, Checked(id), o);
    }
  }

  // Runs.

  function Empty(config: Config): State {
    State(map[], map[], map[], 0, 0, Off, config)
  }

  /** Every step can be taken, and none works on freed memory. */
  ghost predicate CleanRun(s: State, steps: seq<Step>)
    requires Inv(s)
    decreases |steps|
  {
    steps == [] ||
    (SubjectKnown(s, steps[0]) && !Stale(s, steps[0]) &&
     (StepKeeps(s, steps[0]); CleanRun(Next(s, steps[0]), steps[1..])))
  }

  ghost function Run(s: State, steps: seq<Step>): (q: State)
    requires Inv(s) && CleanRun(s, steps)
    ensures Inv(q)
    decreases |steps|
  {
    if steps == [] then s
    else
      StepKeeps(s, steps[0]);
      Run(Next(s, steps[0]), steps[1..])
  }

  /** In every interleaving up to a stale step: a session's count is the owner's reference until
      destroyed plus one for each request holding it, it is freed exactly when destroyed and held by
      nobody, once, the owner's reference is dropped at most once, and the table holds only live
      sessions, each under its own id. */
  lemma {:induction false} RunsAccount(config: Config, steps: seq<Step>, p: nat)
    requires CleanRun(Empty(config), steps) && p in Run(Empty(config), steps).heap
    ensures var s := Run(Empty(config), steps);
            var x := s.heap[p];
            && x.ref == One(!x.destroyed) + |Holders(s.reqs, p)|
            && x.frees == One(x.destroyed && Holders(s.reqs, p) == {})
            && x.drops == One(x.destroyed)
            && (p in s.table.Values ==> x.frees == 0 && x.id in s.table && s.table[x.id] == p)
  {
    var s := Run(Empty(config), steps);
    assert Accounted(s, p);
    if Holders(s.reqs, p) != {} {
      assert |Holders(s.reqs, p)| > 0;
    }
  }

  /** A stale Hold breaks the accounts, any other Hold keeps them. */
  lemma {:induction false} HoldKeepsIff(s: State, r: nat)
    requires Inv(s) && Enabled(s, Hold(r))
    ensures SubjectKnown(s, Hold(r))
    ensures var p := s.reqs[r].p;
            Inv(Next(s, Hold(r))) <==> !(s.heap[p].destroyed && Holders(s.reqs, p) == {})
  {
    StaleIff(s, Hold(r));
    var p := s.reqs[r].p;
    assert Accounted(s, p);
    if Stale(s, Hold(r)) {
      var q := Next(s, Hold(r));
      HoldersMove(s.reqs, r, Held(p), p);
      assert !Accounted(q, p);
    } else {
      StepKeeps(s, Hold(r));
    }
  }

  lemma {:induction false} RunOne(s: State, step: Step, rest: seq<Step>)
    requires Inv(s) && SubjectKnown(s, step) && !Stale(s, step) && Inv(Next(s, step)) && CleanRun(Next(s, step), rest)
    ensures CleanRun(s, [step] + rest) && Run(s, [step] + rest) == Run(Next(s, step), rest)
  {
    assert ([step] + rest)[1..] == rest;
  }

  /** A destroy request that holds its session can always run to its end. */
  lemma {:induction false} DestroyRun(s: State, r: nat)
    requires Inv(s) && s.watch.Off? && r in s.reqs && s.reqs[r].Held?
    ensures var p := s.reqs[r].p;
            var steps := [RemoveId(r), Mark(r), Finish(r)];
            && CleanRun(s, steps)
            && var q := Run(s, steps); q.reqs == s.reqs - {r} && p in q.heap && q.heap[p].destroyed
  {
    var s2 := Next(s, RemoveId(r));
    var s3 := Next(s2, Mark(r));
    CleanStep(s, RemoveId(r));
    CleanStep(s2, Mark(r));
    CleanStep(s3, Finish(r));
    RunOne(s3, Finish(r), []);
    RunOne(s2, Mark(r), [Finish(r)]);
    RunOne(s, RemoveId(r), [Mark(r), Finish(r)]);
  }

  /** The window is always open: whenever a session waits for its creator's Hold, another request can
      find and destroy it and finish, and the Hold comes too late. */
  lemma {:induction false} WindowOpen(s: State, creator: nat, other: nat, id: nat)
    requires Inv(s) && s.watch.Off? && other !in s.reqs && id in s.table
    requires creator in s.reqs && s.reqs[creator] == Created(s.table[id]) && Holders(s.reqs, s.table[id]) == {}
    ensures var steps := [Find(other, id), RemoveId(other), Mark(other), Finish(other)];
            && CleanRun(s, steps)
            && var q := Run(s, steps); SubjectKnown(q, Hold(creator)) && Stale(q, Hold(creator))
  {
    var rest := [RemoveId(other), Mark(other), Finish(other)];
    CleanStep(s, Find(other, id));
    var s1 := Next(s, Find(other, id));
    DestroyRun(s1, other);
    RunOne(s, Find(other, id), rest);
    var q := Run(s1, rest);
    assert q.reqs == s.reqs;
    StaleIff(q, Hold(creator));
  }

  lemma {:induction false} CleanStep(s: State, step: Step)
    requires Inv(s) && Enabled(s, step) && !step.Hold?
    ensures SubjectKnown(s, step) && !Stale(s, step) && Inv(Next(s, step))
  {
    StaleIff(s, step);
    StepKeeps(s, step);
  }

  // Expiry.

  predicate Due(x: Sess, now: int, c: Config) {
    Idle(x, now, c) || Abandoned(x, now, c)
  }

  /** How many looks of a run found the session due. */
  ghost function DueLooks(s: State, steps: seq<Step>, p: nat): nat
    requires Inv(s) && CleanRun(s, steps)
    decreases |steps|
  {
    if steps == [] then 0
    else
      StepKeeps(s, steps[0]);
      One(steps[0].Look? && s.table[steps[0].id] == p && Due(s.heap[p], s.now, s.config)) +
      DueLooks(Next(s, steps[0]), steps[1..], p)
  }

  lemma {:induction false} StepMarks(s: State, step: Step, p: nat)
    requires Inv(s) && SubjectKnown(s, step) && p in s.heap
    ensures p in Next(s, step).heap
    ensures Next(s, step).heap[p].marks ==
            s.heap[p].marks + One(step.Look? && s.table[step.id] == p && Due(s.heap[p], s.now, s.config))
  {
  }

  lemma {:induction false} MarksCountLooks(s: State, steps: seq<Step>, p: nat)
    requires Inv(s) && CleanRun(s, steps) && p in s.heap
    ensures p in Run(s, steps).heap
    ensures Run(s, steps).heap[p].marks == s.heap[p].marks + DueLooks(s, steps, p)
    decreases |steps|
  {
    if steps != [] {
      StepKeeps(s, steps[0]);
      StepMarks(s, steps[0], p);
      MarksCountLooks(Next(s, steps[0]), steps[1..], p);
    }
  }

  /** A session expires at a look exactly when that look finds it due and an earlier look of its life did
      too, activity in between notwithstanding, or when both parts of the condition hold at once. So a
      session with its transport expires at the second look that finds it idle, never at the first. `born`
      is the state in which it was created. */
  lemma {:induction false} ExpiryIff(born: State, steps: seq<Step>, id: nat, p: nat)
    requires Inv(born) && CleanRun(born, steps) && p in born.heap && born.heap[p].marks == 0
    requires var s := Run(born, steps); SubjectKnown(s, Look(id)) && s.table[id] == p
    ensures var s := Run(born, steps);
            var x := s.heap[p];
            Next(s, Look(id)).watch == Expiring(p) <==>
              && Due(x, s.now, s.config)
              && (DueLooks(born, steps, p) > 0 || (Idle(x, s.now, s.config) && Abandoned(x, s.now, s.config)))
  {
    MarksCountLooks(born, steps, p);
    var s := Run(born, steps);
    assert Accounted(s, p);
  }

  // Sessions nobody can reach.

  /** Alive, but in no table entry, held by nobody, awaited by no creator. */
  predicate Orphan(s: State, p: nat) {
    && p in s.heap && !s.heap[p].destroyed
    && (forall id :: id in s.table ==> s.table[id] != p)
    && (forall r :: r in s.reqs && !s.reqs[r].Checked? ==> s.reqs[r].p != p)
    && (s.watch.Expelled? ==> s.watch.p != p)
  }

  lemma {:induction false} OrphanStep(s: State, step: Step, p: nat)
    requires Inv(s) && SubjectKnown(s, step) && Orphan(s, p)
    ensures Orphan(Next(s, step), p)
  {
    assert forall id :: id in s.table ==> s.table[id] in s.table.Values;
  }

  /** It is never freed: neither a request nor the watchdog finds it again. */
  lemma {:induction false} OrphanForever(s: State, steps: seq<Step>, p: nat)
    requires Inv(s) && CleanRun(s, steps) && Orphan(s, p)
    ensures Orphan(Run(s, steps), p) && Run(s, steps).heap[p].frees == 0
    decreases |steps|
  {
    assert Accounted(s, p);
    assert Holders(s.reqs, p) == {};
    if steps != [] {
      StepKeeps(s, steps[0]);
      OrphanStep(s, steps[0], p);
      OrphanForever(Next(s, steps[0]), steps[1..], p);
    }
  }

  /** No request but possibly `r` refers to the session. */
  predicate Unreferenced(s: State, p: nat, r: nat) {
    forall q :: q in s.reqs && q != r && !s.reqs[q].Checked? ==> s.reqs[q].p != p
  }

  /** How a session gets out of reach: its entry is replaced or removed under its id by another session's
      request, and nobody refers to it; or its entry has gone that way before, and the last request that
      refers to it finishes. */
  predicate Orphans(s: State, step: Step, p: nat)
    requires SubjectKnown(s, step) && p in s.heap
  {
    match step
    case Create(r) => s.reqs[r].id in s.table && s.table[s.reqs[r].id] == p && Unreferenced(s, p, r)
    case RemoveId(r) =>
      var id := s.heap[s.reqs[r].p].id;
      s.reqs[r].p != p && id in s.table && s.table[id] == p && Unreferenced(s, p, r)
    case Finish(r) =>
      && s.reqs[r].p == p && !s.heap[p].destroyed && Unreferenced(s, p, r)
      && (forall id :: id in s.table ==> s.table[id] != p)
      && (s.watch.Expelled? ==> s.watch.p != p)
    case _ => false
  }

  /** These are all the ways, for every step. */
  lemma {:induction false} OrphansIff(s: State, step: Step, p: nat)
    requires Inv(s) && SubjectKnown(s, step) && p in s.heap && !Orphan(s, p)
    ensures Orphan(Next(s, step), p) <==> Orphans(s, step, p)
  {
    match step
    case Create(r) => CreateOrphansIff(s, r, p);
    case RemoveId(r) => RemoveOrphansIff(s, r, p);
    case Finish(r) => FinishOrphansIff(s, r, p);
    case _ => OthersOrphanNone(s, step, p);
  }

  lemma SameReferences(s: State, n: State, p: nat, r: nat)
    requires forall q :: q != r ==> (q in n.reqs <==> q in s.reqs) && (q in s.reqs ==> n.reqs[q] == s.reqs[q])
    ensures Unreferenced(n, p, r) <==> Unreferenced(s, p, r)
  {
    assert forall q :: q != r && q in n.reqs ==> n.reqs[q] == s.reqs[q];
  }

  lemma {:induction false} CreateOrphansIff(s: State, r: nat, p: nat)
    requires Inv(s) && SubjectKnown(s, Create(r)) && p in s.heap && !Orphan(s, p)
    ensures Orphan(Next(s, Create(r)), p) <==> Orphans(s, Create(r), p)
  {
    var n := Next(s, Create(r));
    SameReferences(s, n, p, r);
    assert forall id :: id in s.table && id != s.reqs[r].id ==> n.table[id] == s.table[id];
    assert Accounted(s, p);
  }

  lemma {:induction false} RemoveOrphansIff(s: State, r: nat, p: nat)
    requires Inv(s) && SubjectKnown(s, RemoveId(r)) && p in s.heap && !Orphan(s, p)
    ensures Orphan(Next(s, RemoveId(r)), p) <==> Orphans(s, RemoveId(r), p)
  {
    var n := Next(s, RemoveId(r));
    SameReferences(s, n, p, r);
    assert n.reqs[r] == Removed(s.reqs[r].p);
    assert forall id :: id in s.table && id != s.heap[s.reqs[r].p].id ==> id in n.table && n.table[id] == s.table[id];
  }

  lemma {:induction false} FinishOrphansIff(s: State, r: nat, p: nat)
    requires Inv(s) && SubjectKnown(s, Finish(r)) && p in s.heap && !Orphan(s, p)
    ensures Orphan(Next(s, Finish(r)), p) <==> Orphans(s, Finish(r), p)
  {
    SameReferences(s, Next(s, Finish(r)), p, r);
  }

  lemma {:induction false} OthersOrphanNone(s: State, step: Step, p: nat)
    requires Inv(s) && SubjectKnown(s, step) && p in s.heap && !Orphan(s, p)
    requires !step.Create? && !step.RemoveId? && !step.Finish?
    ensures !Orphan(Next(s, step), p)
  {
    var n := Next(s, step);
    if r :| r in s.reqs && !s.reqs[r].Checked? && s.reqs[r].p == p {
      assert r in n.reqs && !n.reqs[r].Checked? && n.reqs[r].p == p;
    }
    if id :| id in s.table && s.table[id] == p {
      assert step.Expel? ==> s.heap[p].id == id;
      assert id in n.table ==> n.table[id] == p;
    }
  }

  /** A destroy request removes another session's entry exactly when its own is no longer there and the
      id has been taken again. */
  lemma {:induction false} RemovesOtherIff(s: State, r: nat, other: nat)
    requires Inv(s) && SubjectKnown(s, RemoveId(r)) && other in s.table.Values && other != s.reqs[r].p
    ensures other !in Next(s, RemoveId(r)).table.Values <==> s.heap[other].id == s.heap[s.reqs[r].p].id
  {
    var id := s.heap[other].id;
    assert s.table[id] == other;
    var n := Next(s, RemoveId(r));
    if id != s.heap[s.reqs[r].p].id {
      assert id in n.table && n.table[id] == other;
    }
  }
}
