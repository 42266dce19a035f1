/** Runs of the sessions, from the empty table, that end in freed memory, a session nobody can reach, and a
    destroy request that hits another session. */
module SessionFailures {
  import opened Sessions

  ghost predicate Reached(config: Config, q: State) {
    exists steps: seq<Step> :: CleanRun(Empty(config), steps) && Run(Empty(config), steps) == q
  }

  lemma {:induction false} RunJoin(s: State, a: seq<Step>, b: seq<Step>)
    requires Inv(s) && CleanRun(s, a) && CleanRun(Run(s, a), b)
    ensures CleanRun(s, a + b) && Run(s, a + b) == Run(Run(s, a), b)
    decreases |a|
  {
    hide Inv, Next, SubjectKnown, Stale;
    if a == [] {
      assert a + b == b;
    } else {
      StepKeeps(s, a[0]);
      RunJoin(Next(s, a[0]), a[1..], b);
      RunOne(s, a[0], a[1..] + b);
      assert a + b == [a[0]] + (a[1..] + b);
    }
  }

  lemma ReachedRun(config: Config, s: State, steps: seq<Step>)
    requires Reached(config, s)
    ensures Inv(s)
    ensures CleanRun(s, steps) ==> Reached(config, Run(s, steps))
  {
    hide Next, SubjectKnown, Stale;
    var first: seq<Step> :| CleanRun(Empty(config), first) && Run(Empty(config), first) == s;
    if CleanRun(s, steps) {
      RunJoin(Empty(config), first, steps);
    }
  }

  lemma ReachedNext(config: Config, s: State, step: Step)
    requires Reached(config, s) && Enabled(s, step)
    requires SubjectKnown(s, step) ==> !Stale(s, step)
    ensures SubjectKnown(s, step) && Reached(config, Next(s, step))
  {
    hide Next, Stale;
    ReachedRun(config, s, []);
    SubjectInHeap(s, step);
    StepKeeps(s, step);
    RunOne(s, step, []);
    assert [step] + [] == [step];
    ReachedRun(config, s, [step]);
  }

  lemma ReachedEmpty(config: Config)
    ensures Reached(config, Empty(config))
  {
    assert CleanRun(Empty(config), []);
  }

  /** A creator between entering its session in the table and taking its reference. */
  function Creating(config: Config): State {
    State(map[0 := Fresh(7, 0)], map[7 := 0], map[1 := Created(0)], 1, 0, Off, config)
  }

  lemma ReachedCreating(config: Config)
    ensures Reached(config, Creating(config))
  {
    hide Reached;
    ReachedEmpty(config);
    ReachedNext(config, Empty(config), CheckId(1, 7));
    var s := Next(Empty(config), CheckId(1, 7));
    ReachedNext(config, s, Create(1));
    assert Next(s, Create(1)) == Creating(config);
  }

  /** A creator takes its reference to a session that another request destroyed and freed. */
  lemma StaleReached(config: Config)
    ensures exists s, r :: Reached(config, s) && SubjectKnown(s, Hold(r)) && Stale(s, Hold(r))
  {
    hide Reached, Run, CleanRun, Inv;
    var s := Creating(config);
    ReachedCreating(config);
    var steps := [Find(2, 7), RemoveId(2), Mark(2), Finish(2)];
    ReachedRun(config, s, steps);
    assert Holders(s.reqs, 0) == {};
    WindowOpen(s, 1, 2, 7);
    assert Reached(config, Run(s, steps));
  }

  /** Two requests found the same id unused, and one of them created its session. */
  function OneOfTwo(config: Config): State {
    State(map[0 := Increase(Fresh(7, 0))], map[7 := 0], map[1 := Held(0), 2 := Checked(7)], 1, 0, Off, config)
  }

  lemma ReachedOneOfTwo(config: Config)
    ensures Reached(config, OneOfTwo(config))
  {
    hide Reached;
    ReachedEmpty(config);
    var s0 := Empty(config);
    ReachedNext(config, s0, CheckId(1, 7));
    var s1 := Next(s0, CheckId(1, 7));
    ReachedNext(config, s1, CheckId(2, 7));
    var s2 := Next(s1, CheckId(2, 7));
    ReachedNext(config, s2, Create(1));
    var s3 := Next(s2, Create(1));
    ReachedNext(config, s3, Hold(1));
    assert Next(s3, Hold(1)) == OneOfTwo(config);
  }

  /** The other creates its session under the same id too, and the first is never freed: because its entry is
      replaced when nobody refers to it any more, or because the last that does finishes afterwards. */
  lemma OrphanReached(config: Config)
    ensures exists s, r, p :: Reached(config, s) && SubjectKnown(s, Create(r)) && Orphan(Next(s, Create(r)), p)
    ensures exists s, r, p :: Reached(config, s) && SubjectKnown(s, Finish(r)) && Orphan(Next(s, Finish(r)), p)
  {
    hide Reached;
    ReachedOneOfTwo(config);
    var s := OneOfTwo(config);
    ReachedNext(config, s, Finish(1));
    var s1 := Next(s, Finish(1));
    assert SubjectKnown(s1, Create(2)) && Orphan(Next(s1, Create(2)), 0);
    ReachedNext(config, s, Create(2));
    var s2 := Next(s, Create(2));
    assert SubjectKnown(s2, Finish(1)) && Orphan(Next(s2, Finish(1)), 0);
  }

  /** The destroy request of one session removes the entry of another. */
  predicate RemovesOther(s: State, r: nat, other: nat) {
    && SubjectKnown(s, RemoveId(r)) && other != s.reqs[r].p
    && other in s.table.Values && other !in Next(s, RemoveId(r)).table.Values
  }

  /** That comes about in the same way, and orphans the other session if its creator is done. */
  lemma RemovalReached(config: Config)
    ensures exists s, r, other ::
              Reached(config, s) && RemovesOther(s, r, other) && Orphan(Next(s, RemoveId(r)), other)
  {
    hide Reached;
    ReachedOneOfTwo(config);
    var s := OneOfTwo(config);
    ReachedNext(config, s, Create(2));
    var q1 := Next(s, Create(2));
    ReachedNext(config, q1, Hold(2));
    var q2 := Next(q1, Hold(2));
    ReachedNext(config, q2, Finish(2));
    var q := Next(q2, Finish(2));
    assert q.table[7] == 1 && q.reqs == map[1 := Held(0)];
    assert RemovesOther(q, 1, 1) && Orphan(Next(q, RemoveId(1)), 1);
  }
}
