/** Which handlers are registered, and in which order they are called, told by the operations of a run. */
module EmitterRuns {
  import opened Emitter

  /** How many handlers were registered by the first `k` operations. */
  function Regs(ops: seq<Op>, k: nat): nat
    requires k <= |ops|
  {
    if k == 0 then 0 else Regs(ops, k - 1) + if ops[k - 1].OnOp? then 1 else 0
  }

  /** The handler that operation `i` registered for `name` is still there: since then its event was not
      emitted, if it is for one call, all listeners of the event were not removed, and no removal of its
      callback has found it as the first one registered. */
  predicate Live(ops: seq<Op>, name: string, i: nat)
    requires i < |ops|
    decreases |ops|, i
  {
    && ops[i].OnOp? && ops[i].name == name
    && (i == |ops| - 1 ||
        (var before := ops[..|ops| - 1];
         && Live(before, name, i)
         && match ops[|ops| - 1]
            case OnOp(n, _, _, _) => !(name == "new_listener" && n != "new_listener" && ops[i].once)
            case EmitOp(n, _) => !(n == name && ops[i].once)
            case RemoveOp(n, cb) =>
              !(n == name && cb == ops[i].cb && forall j :: 0 <= j < i && Live(before, name, j) ==> ops[j].cb != cb)
            case RemoveAllOp(n) => n != name))
  }

  /** The handlers that are there of those the first `k` operations registered, in order. */
  function LiveOnes(ops: seq<Op>, name: string, k: nat): seq<Handler>
    requires k <= |ops|
  {
    if k == 0 then []
    else
      LiveOnes(ops, name, k - 1) + if Live(ops, name, k - 1) then [HandlerOf(ops, k - 1)] else []
  }

  function HandlerOf(ops: seq<Op>, i: nat): Handler
    requires i < |ops| && ops[i].OnOp?
  {
    Handler(ops[i].cb, ops[i].extra, ops[i].once, Regs(ops, i))
  }

  lemma OneMore(ops: seq<Op>, name: string, k: nat)
    requires 0 < k <= |ops|
    ensures LiveOnes(ops, name, k) ==
            if Live(ops, name, k - 1) then LiveOnes(ops, name, k - 1) + [HandlerOf(ops, k - 1)]
            else LiveOnes(ops, name, k - 1)
  {
  }

  lemma {:induction false} RegsBefore(ops: seq<Op>, k: nat)
    requires ops != [] && k < |ops|
    ensures Regs(ops, k) == Regs(ops[..|ops| - 1], k)
  {
    if k > 0 {
      RegsBefore(ops, k - 1);
    }
  }

  lemma LastingSnoc(hs: seq<Handler>, h: Handler)
    ensures Lasting(hs + [h]) == Lasting(hs) + if h.once then [] else [h]
  {
    assert (hs + [h])[..|hs|] == hs;
  }

  predicate Shots(op: Op, name: string) {
    match op
    case OnOp(n, _, _, _) => name == "new_listener" && n != "new_listener"
    case EmitOp(n, _) => n == name
    case _ => false
  }

  /** An emission leaves the lasting ones. */
  lemma {:induction false} AfterShot(ops: seq<Op>, name: string, k: nat)
    requires ops != [] && k < |ops| && Shots(ops[|ops| - 1], name)
    ensures LiveOnes(ops, name, k) == Lasting(LiveOnes(ops[..|ops| - 1], name, k))
  {
    hide Lasting, LiveOnes;
    var before := ops[..|ops| - 1];
    if k > 0 {
      AfterShot(ops, name, k - 1);
      RegsBefore(ops, k - 1);
      OneMore(ops, name, k);
      OneMore(before, name, k);
      if Live(before, name, k - 1) {
        LastingSnoc(LiveOnes(before, name, k - 1), HandlerOf(before, k - 1));
        assert LiveOnes(before, name, k - 1) + [] == LiveOnes(before, name, k - 1);
        assert Lasting(LiveOnes(before, name, k - 1)) + [] == Lasting(LiveOnes(before, name, k - 1));
      }
    } else {
      NoOnes(ops, name);
      NoOnes(before, name);
    }
  }

  lemma NoOnes(ops: seq<Op>, name: string)
    ensures LiveOnes(ops, name, 0) == [] && Lasting([]) == []
  {
  }

  /** Other operations leave all. */
  lemma {:induction false} AfterOther(ops: seq<Op>, name: string, k: nat)
    requires ops != [] && k < |ops| && !Shots(ops[|ops| - 1], name)
    requires !(ops[|ops| - 1].RemoveOp? && ops[|ops| - 1].name == name)
    requires !(ops[|ops| - 1].RemoveAllOp? && ops[|ops| - 1].name == name)
    ensures LiveOnes(ops, name, k) == LiveOnes(ops[..|ops| - 1], name, k)
  {
    if k > 0 {
      AfterOther(ops, name, k - 1);
      RegsBefore(ops, k - 1);
    }
  }

  lemma {:induction false} AfterRemoveAll(ops: seq<Op>, name: string, k: nat)
    requires ops != [] && k < |ops| && ops[|ops| - 1] == RemoveAllOp(name)
    ensures LiveOnes(ops, name, k) == []
  {
    if k > 0 {
      AfterRemoveAll(ops, name, k - 1);
    }
  }

  lemma FirstSnoc(hs: seq<Handler>, h: Handler, cb: nat)
    ensures FirstWith(hs + [h], cb) ==
            if FirstWith(hs, cb) < |hs| then FirstWith(hs, cb) else if h.cb == cb then |hs| else |hs| + 1
  {
    var all := hs + [h];
    var i := FirstWith(hs, cb);
    var e := FirstWith(all, cb);
    assert all[|hs|] == h && forall j :: 0 <= j < |hs| ==> all[j] == hs[j];
  }

  /** The first one of a callback is found exactly if one is there. */
  lemma {:induction false} HasCallback(ops: seq<Op>, name: string, k: nat, cb: nat)
    requires k <= |ops|
    ensures FirstWith(LiveOnes(ops, name, k), cb) == |LiveOnes(ops, name, k)| <==>
              forall j :: 0 <= j < k && Live(ops, name, j) ==> ops[j].cb != cb
  {
    hide FirstWith, LiveOnes, Live;
    if k > 0 {
      HasCallback(ops, name, k - 1, cb);
      OneMore(ops, name, k);
      LiveIsOn(ops, name, k - 1);
      if Live(ops, name, k - 1) {
        FirstSnoc(LiveOnes(ops, name, k - 1), HandlerOf(ops, k - 1), cb);
      }
    } else {
      NoOnes(ops, name);
    }
  }

  lemma LiveIsOn(ops: seq<Op>, name: string, i: nat)
    requires i < |ops|
    ensures Live(ops, name, i) ==> ops[i].OnOp?
  {
  }

  lemma WithoutSnoc(hs: seq<Handler>, h: Handler, cb: nat)
    ensures Without(hs + [h], cb) ==
            if FirstWith(hs, cb) < |hs| then Without(hs, cb) + [h] else if h.cb == cb then hs else hs + [h]
  {
    hide FirstWith;
    FirstSnoc(hs, h, cb);
    var all := hs + [h];
    var i := FirstWith(hs, cb);
    if i < |hs| {
      assert all[..i] + all[i + 1..] == hs[..i] + hs[i + 1..] + [h];
    } else if h.cb == cb {
      assert all[..|hs|] + all[|hs| + 1..] == hs;
    }
  }

  /** A removal takes the first one of the callback. */
  lemma {:induction false} AfterRemove(ops: seq<Op>, name: string, k: nat, cb: nat)
    requires ops != [] && k < |ops| && ops[|ops| - 1] == RemoveOp(name, cb)
    ensures LiveOnes(ops, name, k) == Without(LiveOnes(ops[..|ops| - 1], name, k), cb)
  {
    hide Without, FirstWith, LiveOnes;
    var before := ops[..|ops| - 1];
    if k > 0 {
      var hs := LiveOnes(before, name, k - 1);
      AfterRemove(ops, name, k - 1, cb);
      RegsBefore(ops, k - 1);
      OneMore(ops, name, k);
      OneMore(before, name, k);
      HasCallback(before, name, k - 1, cb);
      NoneLeft(hs, cb);
      if Live(before, name, k - 1) {
        WithoutSnoc(hs, HandlerOf(before, k - 1), cb);
        assert Live(ops, name, k - 1) <==> !(ops[k - 1].cb == cb && FirstWith(hs, cb) == |hs|);
      }
    } else {
      NoOnes(ops, name);
      NoOnes(before, name);
      NoneLeft([], cb);
    }
  }

  lemma NoneLeft(hs: seq<Handler>, cb: nat)
    ensures FirstWith(hs, cb) == |hs| ==> Without(hs, cb) == hs
    ensures FirstWith(hs, cb) <= |hs|
  {
  }

  lemma {:induction false} RegsCounted(ops: seq<Op>)
    ensures Run(ops).regs == Regs(ops, |ops|)
  {
    if ops != [] {
      var n := |ops| - 1;
      RegsCounted(ops[..n]);
      RegsBefore(ops, n);
    }
  }

  /** In every run the handlers of an event are those whose registration still stands, in order of
      registration. */
  lemma {:induction false} HandlersAre(ops: seq<Op>, name: string)
    ensures Handlers(Run(ops), name) == LiveOnes(ops, name, |ops|)
  {
    hide Lasting, Without, Live;
    if ops != [] {
      var n := |ops| - 1;
      HandlersAre(ops[..n], name);
      LastStep(ops, name);
    }
  }

  lemma LastStep(ops: seq<Op>, name: string)
    requires ops != [] && Handlers(Run(ops[..|ops| - 1]), name) == LiveOnes(ops[..|ops| - 1], name, |ops| - 1)
    ensures Handlers(Run(ops), name) == LiveOnes(ops, name, |ops|)
  {
    hide Lasting, Without, FirstWith, Regs;
    var n := |ops| - 1;
    var s := Run(ops[..n]);
    assert Lasting([]) == [] by { LastingNone(); }
    NoneLeft([], 0);
    RegsCounted(ops[..n]);
    RegsBefore(ops, n);
    assert Live(ops, name, n) <==> ops[n].OnOp? && ops[n].name == name;
    match ops[n]
    case OnOp(_, _, _, _) => if Shots(ops[n], name) { AfterShot(ops, name, n); } else { AfterOther(ops, name, n); }
    case EmitOp(m, _) => if m == name { AfterShot(ops, name, n); } else { AfterOther(ops, name, n); }
    case RemoveOp(m, cb) =>
      if m == name {
        AfterRemove(ops, name, n, cb);
        NoneLeft([], cb);
      } else {
        AfterOther(ops, name, n);
      }
    case RemoveAllOp(m) => if m == name { AfterRemoveAll(ops, name, n); } else { AfterOther(ops, name, n); }
  }

  lemma LastingNone()
    ensures Lasting([]) == []
  {
  }

  /** The state after one more operation. */
  lemma RunSnoc(ops: seq<Op>, op: Op)
    ensures Run(ops + [op]) == Step(Run(ops), op)
  {
    assert (ops + [op])[..|ops|] == ops;
  }

  /** `hs` are called once each, in this order, with the argument and their own data. */
  predicate Calls(before: seq<Call>, after: seq<Call>, hs: seq<Handler>, arg: Arg) {
    && |after| == |before| + |hs| && after[..|before|] == before
    && forall i :: 0 <= i < |hs| ==> after[|before| + i] == Call(hs[i].cb, arg, hs[i].extra, hs[i].once, hs[i].reg)
  }

  lemma EmittedCalls(s: State, name: string, arg: Arg)
    ensures Calls(s.calls, Emitted(s, name, arg).calls, Handlers(s, name), arg)
  {
    hide Lasting;
  }

  lemma AddedOther(s: State, name: string, once: bool, cb: nat, extra: nat, other: string)
    ensures other != name ==> Handlers(Added(s, name, once, cb, extra), other) == Handlers(s, other)
    ensures Added(s, name, once, cb, extra).calls == s.calls
  {
  }

  /** An emission calls each handler whose registration stands, in order of registration. */
  lemma EmissionCalls(ops: seq<Op>, name: string, arg: Arg)
    ensures Calls(Run(ops).calls, Run(ops + [EmitOp(name, arg)]).calls, LiveOnes(ops, name, |ops|), arg)
  {
    hide Run, LiveOnes, Emitted, Calls;
    RunSnoc(ops, EmitOp(name, arg));
    HandlersAre(ops, name);
    EmittedCalls(Run(ops), name, arg);
  }

  /** A registration tells the listeners for new listeners in the same way, unless it is one of theirs. */
  lemma RegistrationCalls(ops: seq<Op>, name: string, once: bool, cb: nat, extra: nat)
    ensures var (before, after) := (Run(ops).calls, Run(ops + [OnOp(name, once, cb, extra)]).calls);
            if name == "new_listener" then after == before
            else Calls(before, after, LiveOnes(ops, "new_listener", |ops|), NewListener(name, cb))
  {
    hide Run, LiveOnes, Emitted, Calls, Added;
    RunSnoc(ops, OnOp(name, once, cb, extra));
    HandlersAre(ops, "new_listener");
    AddedOther(Run(ops), name, once, cb, extra, "new_listener");
    EmittedCalls(Added(Run(ops), name, once, cb, extra), "new_listener", NewListener(name, cb));
  }
}
