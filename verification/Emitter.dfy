/** The event emitter of mediasoup/src/globi_ee.c. Callbacks do not re-enter it. */
module Emitter {
  import opened Sequences

  /** ee_handler_t. `reg` numbers the registrations, for the proofs. */
  datatype Handler = Handler(cb: nat, extra: nat, once: bool, reg: nat)

  datatype Arg = Plain(value: nat) | NewListener(name: string, cb: nat)

  datatype Call = Call(cb: nat, arg: Arg, extra: nat, once: bool, reg: nat)

  datatype EventList = EventList(name: string, handlers: seq<Handler>)

  const NEW_LISTENER := "new_listener"

  // The abstract emitter: a map from event names to handlers, and the calls made so far.

  datatype State = State(table: map<string, seq<Handler>>, calls: seq<Call>, regs: nat)

  function Handlers(s: State, name: string): seq<Handler> {
    if name in s.table then s.table[name] else []
  }

  /** The handlers that are not registered for one call only, in order. */
  function Lasting(hs: seq<Handler>): seq<Handler> {
    if hs == [] then [] else Lasting(hs[..|hs| - 1]) + if hs[|hs| - 1].once then [] else [hs[|hs| - 1]]
  }

  function CallOf(h: Handler, arg: Arg): Call {
    Call(h.cb, arg, h.extra, h.once, h.reg)
  }

  /** One call of each handler, in order of registration. */
  function CallsOf(hs: seq<Handler>, arg: Arg): (cs: seq<Call>)
    ensures |cs| == |hs|
    ensures forall i :: 0 <= i < |hs| ==> cs[i] == CallOf(hs[i], arg)
  {
    seq(|hs|, i requires 0 <= i < |hs| => CallOf(hs[i], arg))
  }

  function Emitted(s: State, name: string, arg: Arg): State {
    if name !in s.table then s
    else s.(table := s.table[name := Lasting(s.table[name])], calls := s.calls + CallsOf(s.table[name], arg))
  }

  function Added(s: State, name: string, once: bool, cb: nat, extra: nat): State {
    s.(table := s.table[name := Handlers(s, name) + [Handler(cb, extra, once, s.regs)]], regs := s.regs + 1)
  }

  /** Registering: the handler goes last, then the listeners for new listeners are told, unless it is
      one of theirs. */
  function Registered(s: State, name: string, once: bool, cb: nat, extra: nat): State {
    var t := Added(s, name, once, cb, extra);
    if name == NEW_LISTENER then t else Emitted(t, NEW_LISTENER, NewListener(name, cb))
  }

  /** The first handler with the callback, or the number of handlers. */
  function FirstWith(hs: seq<Handler>, cb: nat): (i: nat)
    ensures i <= |hs|
    ensures forall j :: 0 <= j < i ==> hs[j].cb != cb
    ensures i < |hs| ==> hs[i].cb == cb
  {
    First(hs, (h: Handler) => h.cb == cb)
  }

  function Without(hs: seq<Handler>, cb: nat): seq<Handler> {
    var i := FirstWith(hs, cb);
    if i < |hs| then hs[..i] + hs[i + 1..] else hs
  }

  function Removed(s: State, name: string, cb: nat): State {
    if name !in s.table then s else s.(table := s.table[name := Without(s.table[name], cb)])
  }

  /** Removing all listeners of an event that was registered some time. */
  function Cleared(s: State, name: string): State {
    s.(table := s.table[name := []])
  }

  // The code, on the list of events.

  predicate Named(events: seq<EventList>) {
    forall i, j :: 0 <= i < j < |events| ==> events[i].name != events[j].name
  }

  function Table(events: seq<EventList>): map<string, seq<Handler>> {
    if events == [] then map[]
    else Table(events[..|events| - 1])[events[|events| - 1].name := events[|events| - 1].handlers]
  }

  lemma {:induction false} TableHolds(events: seq<EventList>, name: string)
    requires Named(events)
    ensures name in Table(events) <==> exists i :: 0 <= i < |events| && events[i].name == name
    ensures forall i :: 0 <= i < |events| && events[i].name == name ==> Table(events)[name] == events[i].handlers
  {
    if events != [] {
      var n := |events| - 1;
      TableHolds(events[..n], name);
      if name in Table(events) && name != events[n].name {
        var i :| 0 <= i < n && events[..n][i].name == name;
        assert events[i].name == name;
      }
    }
  }

  /** Changing the handlers of one event changes its entry of the table. */
  lemma {:induction false} TableUpdate(events: seq<EventList>, i: nat, hs: seq<Handler>)
    requires Named(events) && i < |events|
    ensures Table(events[i := events[i].(handlers := hs)]) == Table(events)[events[i].name := hs]
  {
    var n := |events| - 1;
    var changed := events[i := events[i].(handlers := hs)];
    if i < n {
      TableUpdate(events[..n], i, hs);
      assert changed[..n] == events[..n][i := events[i].(handlers := hs)];
    } else {
      assert changed[..n] == events[..n];
    }
  }

  lemma TableSnoc(events: seq<EventList>, e: EventList)
    ensures Table(events + [e]) == Table(events)[e.name := e.handlers]
  {
    assert (events + [e])[..|events|] == events;
  }

  lemma LastingSnoc(hs: seq<Handler>, k: nat)
    requires k < |hs|
    ensures Lasting(hs[..k + 1]) == Lasting(hs[..k]) + if hs[k].once then [] else [hs[k]]
  {
    assert hs[..k + 1][..k] == hs[..k];
  }

  lemma CallsSnoc(hs: seq<Handler>, k: nat, arg: Arg)
    requires k < |hs|
    ensures CallsOf(hs[..k + 1], arg) == CallsOf(hs[..k], arg) + [CallOf(hs[k], arg)]
  {
  }

  /** A turn of the emitting loop on the list: what was kept, then what is still to come. */
  lemma TurnOf(kept: seq<Handler>, hs: seq<Handler>, k: nat)
    requires k < |hs|
    ensures var left := kept + hs[k..];
            && left[|kept|] == hs[k]
            && left[..|kept|] + left[|kept| + 1..] == kept + hs[k + 1..]
            && left == (kept + [hs[k]]) + hs[k + 1..]
  {
  }

  class EventEmitter {
    var events: seq<EventList>
    var calls: seq<Call>
    var regs: nat

    predicate Valid()
      reads this
    {
      Named(events)
    }

    function View(): State
      reads this
    {
      State(Table(events), calls, regs)
    }

    /** ee_new */
    constructor ()
      ensures Valid() && View() == State(map[], [], 0)
    {
      events, calls, regs := [], [], 0;
    }

    /** ee__find; the number of events stands for NULL. */
    method Find(name: string) returns (i: nat)
      requires Valid()
      ensures i <= |events|
      ensures i < |events| ==> events[i].name == name && name in View().table && View().table[name] == events[i].handlers
      ensures i == |events| ==> name !in View().table && forall j :: 0 <= j < |events| ==> events[j].name != name
    {
      TableHolds(events, name);
      i := 0;
      while i < |events|
        invariant 0 <= i <= |events| && forall j :: 0 <= j < i ==> events[j].name != name
      {
        if events[i].name == name {
          return;
        }
        i := i + 1;
      }
    }

    method Store(i: nat, hs: seq<Handler>)
      requires Valid() && i < |events|
      modifies this`events
      ensures Valid() && View() == old(View()).(table := old(View()).table[old(events[i].name) := hs])
    {
      TableUpdate(events, i, hs);
      events := events[i := events[i].(handlers := hs)];
    }

    /** The loop of ee_emit over one list: a handler for one call is removed after it. */
    method Fire(hs: seq<Handler>, arg: Arg) returns (left: seq<Handler>)
      modifies this`calls
      ensures left == Lasting(hs) && calls == old(calls) + CallsOf(hs, arg)
    {
      left := hs;
      var i := 0;
      ghost var k := 0;
      ghost var kept: seq<Handler> := [];
      while i < |left|
        invariant 0 <= k <= |hs| && kept == Lasting(hs[..k]) && i == |kept| && left == kept + hs[k..]
        invariant calls == old(calls) + CallsOf(hs[..k], arg)
        decreases |hs| - k
      {
        TurnOf(kept, hs, k);
        LastingSnoc(hs, k);
        CallsSnoc(hs, k, arg);
        var h := left[i];
        calls := calls + [CallOf(h, arg)];
        if h.once {
          left := left[..i] + left[i + 1..];
        } else {
          i := i + 1;
        }
        k := k + 1;
        kept := Lasting(hs[..k]);
      }
      assert hs[..k] == hs;
    }

    /** ee_emit */
    method Emit(name: string, arg: Arg)
      requires Valid()
      modifies this
      ensures Valid() && View() == Emitted(old(View()), name, arg)
    {
      var i := Find(name);
      if i == |events| {
        return;
      }
      var left := Fire(events[i].handlers, arg);
      Store(i, left);
    }

    method Add(name: string, once: bool, cb: nat, extra: nat)
      requires Valid()
      modifies this
      ensures Valid() && View() == Added(old(View()), name, once, cb, extra)
    {
      var i := Find(name);
      if i == |events| {
        TableSnoc(events, EventList(name, []));
        events := events + [EventList(name, [])];
        TableHolds(events, name);
      }
      Store(i, events[i].handlers + [Handler(cb, extra, once, regs)]);
      regs := regs + 1;
    }

    /** ee__on */
    method On(name: string, once: bool, cb: nat, extra: nat)
      requires Valid()
      modifies this
      ensures Valid() && View() == Registered(old(View()), name, once, cb, extra)
    {
      Add(name, once, cb, extra);
      if name != NEW_LISTENER {
        Emit(NEW_LISTENER, NewListener(name, cb));
      }
    }

    /** ee_remove_listener */
    method RemoveListener(name: string, cb: nat)
      requires Valid()
      modifies this
      ensures Valid() && View() == Removed(old(View()), name, cb)
    {
      var i := Find(name);
      if i == |events| {
        return;
      }
      var hs := events[i].handlers;
      var j := 0;
      while j < |hs| && hs[j].cb != cb
        invariant 0 <= j <= FirstWith(hs, cb)
      {
        j := j + 1;
      }
      if j == |hs| {
        assert View().table == View().table[name := hs];
        return;
      }
      Store(i, hs[..j] + hs[j + 1..]);
    }

    /** ee_remove_all_listeners; it dereferences a null pointer for an event that was never registered. */
    method RemoveAllListeners(name: string) returns (crashed: bool)
      requires Valid()
      modifies this
      ensures Valid() && crashed == (name !in old(View()).table)
      ensures View() == if crashed then old(View()) else Cleared(old(View()), name)
    {
      var i := Find(name);
      if i == |events| {
        return true;
      }
      var hs := events[i].handlers;
      while hs != []
        decreases |hs|
      {
        hs := hs[1..];
      }
      Store(i, hs);
      return false;
    }

    /** ee_listener_count */
    method ListenerCount(name: string) returns (n: nat)
      requires Valid()
      ensures n == |Handlers(View(), name)|
    {
      var i := Find(name);
      n := if i == |events| then 0 else |events[i].handlers|;
    }
  }

  // What the operations mean.

  /** Removal takes out the first handler with the callback, and nothing else; without one it does nothing. */
  lemma {:induction false} RemovesFirst(hs: seq<Handler>, cb: nat)
    ensures (exists i :: 0 <= i < |hs| && hs[i].cb == cb) <==> |Without(hs, cb)| < |hs|
    ensures |Without(hs, cb)| < |hs| ==>
              exists before: seq<Handler>, h: Handler, after: seq<Handler> ::
                && hs == before + [h] + after && h.cb == cb && Without(hs, cb) == before + after
                && forall j :: 0 <= j < |before| ==> before[j].cb != cb
    ensures |Without(hs, cb)| == |hs| ==> Without(hs, cb) == hs
  {
    var i := FirstWith(hs, cb);
    if i < |hs| {
      assert hs == hs[..i] + [hs[i]] + hs[i + 1..];
    }
  }

  /** Registering a handler leaves the other events alone exactly when none of them is "new_listener"
      with a handler for one call: those are used up. */
  lemma {:induction false} RegisterTouchesIff(s: State, name: string, once: bool, cb: nat, extra: nat, other: string)
    requires other != name
    ensures Handlers(Registered(s, name, once, cb, extra), other) == Handlers(s, other) <==>
              !(other == NEW_LISTENER && exists i :: 0 <= i < |Handlers(s, other)| && Handlers(s, other)[i].once)
  {
    LastingSameIff(Handlers(s, other));
  }

  lemma {:induction false} LastingSameIff(hs: seq<Handler>)
    ensures |Lasting(hs)| <= |hs|
    ensures Lasting(hs) == hs <==> forall i :: 0 <= i < |hs| ==> !hs[i].once
    ensures Lasting(hs) != hs ==> |Lasting(hs)| < |hs|
  {
    if hs != [] {
      var n := |hs| - 1;
      LastingSameIff(hs[..n]);
      if hs[n].once {
        assert |Lasting(hs)| < |hs|;
      } else if Lasting(hs[..n]) == hs[..n] {
        assert forall i :: 0 <= i < n ==> !hs[..n][i].once;
      } else {
        var i :| 0 <= i < n && hs[..n][i].once;
        assert hs[i].once;
      }
    }
  }

  // Runs.

  datatype Op =
    | OnOp(name: string, once: bool, cb: nat, extra: nat)
    | EmitOp(name: string, arg: Arg)
    | RemoveOp(name: string, cb: nat)
    | RemoveAllOp(name: string)

  function Step(s: State, op: Op): State {
    match op
    case OnOp(name, once, cb, extra) => Registered(s, name, once, cb, extra)
    case EmitOp(name, arg) => Emitted(s, name, arg)
    case RemoveOp(name, cb) => Removed(s, name, cb)
    case RemoveAllOp(name) => if name in s.table then Cleared(s, name) else s
  }

  function Run(ops: seq<Op>): State {
    if ops == [] then State(map[], [], 0) else Step(Run(ops[..|ops| - 1]), ops[|ops| - 1])
  }

  /** An event is in the table from its first registration on, so that removing all its listeners
      crashes exactly when none was ever registered. */
  lemma {:induction false} KnownIff(ops: seq<Op>, name: string)
    ensures name in Run(ops).table <==> exists i :: 0 <= i < |ops| && ops[i].OnOp? && ops[i].name == name
  {
    if ops != [] {
      var n := |ops| - 1;
      KnownIff(ops[..n], name);
      if name in Run(ops[..n]).table {
        var i :| 0 <= i < n && ops[..n][i].OnOp? && ops[..n][i].name == name;
        assert ops[i] == ops[..n][i];
      }
    }
  }

  predicate Distinct(hs: seq<Handler>) {
    forall i, j :: 0 <= i < j < |hs| ==> hs[i].reg != hs[j].reg
  }

  predicate Apart(a: seq<Handler>, b: seq<Handler>) {
    forall x, y :: x in a && y in b ==> x.reg != y.reg
  }

  /** No handler registered for one call was called under this registration. */
  predicate Unused(calls: seq<Call>, reg: nat) {
    forall i :: 0 <= i < |calls| && calls[i].once ==> calls[i].reg != reg
  }

  /** A handler registered for one call is called once at most. */
  predicate OnceOnly(calls: seq<Call>) {
    forall i, j :: 0 <= i < j < |calls| && calls[i].once ==> calls[i].reg != calls[j].reg
  }

  ghost predicate Tidy(s: State) {
    && (forall name :: name in s.table ==> Distinct(s.table[name]))
    && (forall name, h :: name in s.table && h in s.table[name] ==> h.reg < s.regs && Unused(s.calls, h.reg))
    && (forall a, b :: a in s.table && b in s.table && a != b ==> Apart(s.table[a], s.table[b]))
    && (forall i :: 0 <= i < |s.calls| ==> s.calls[i].reg < s.regs)
    && OnceOnly(s.calls)
  }

  lemma {:induction false} LastingKeeps(hs: seq<Handler>)
    requires Distinct(hs)
    ensures Distinct(Lasting(hs)) && forall x :: x in Lasting(hs) ==> x in hs && !x.once
  {
    if hs != [] {
      var n := |hs| - 1;
      LastingKeeps(hs[..n]);
      forall x | x in Lasting(hs[..n])
        ensures x in hs && x.reg != hs[n].reg
      {
        var i :| 0 <= i < n && hs[..n][i] == x;
        assert hs[i] == x;
      }
    }
  }

  lemma {:induction false} ShrinkKeeps(s: State, name: string, hs: seq<Handler>)
    requires Tidy(s) && name in s.table && Distinct(hs) && forall x :: x in hs ==> x in s.table[name]
    ensures Tidy(s.(table := s.table[name := hs]))
  {
  }

  lemma DistinctMore(hs: seq<Handler>, h: Handler)
    requires Distinct(hs) && forall x :: x in hs ==> x.reg < h.reg
    ensures Distinct(hs + [h])
  {
    assert forall i :: 0 <= i < |hs| ==> hs[i] in hs;
  }

  lemma ApartMore(hs: seq<Handler>, h: Handler, other: seq<Handler>)
    requires Apart(hs, other) && forall y :: y in other ==> y.reg < h.reg
    ensures Apart(hs + [h], other) && Apart(other, hs + [h])
  {
  }

  lemma {:induction false} AddedKeeps(s: State, name: string, once: bool, cb: nat, extra: nat)
    requires Tidy(s)
    ensures Tidy(Added(s, name, once, cb, extra))
  {
    hide Distinct, Apart, OnceOnly;
    var h := Handler(cb, extra, once, s.regs);
    var hs := Handlers(s, name);
    DistinctOf(s, name);
    DistinctMore(hs, h);
    forall other | other in s.table && other != name
      ensures Apart(hs + [h], s.table[other]) && Apart(s.table[other], hs + [h])
    {
      ApartOf(s, name, other);
      ApartMore(hs, h, s.table[other]);
    }
    assert Unused(s.calls, s.regs);
  }

  lemma DistinctOf(s: State, name: string)
    requires Tidy(s)
    ensures Distinct(Handlers(s, name)) && forall x :: x in Handlers(s, name) ==> x.reg < s.regs && Unused(s.calls, x.reg)
  {
  }

  lemma ApartOf(s: State, name: string, other: string)
    requires Tidy(s) && other in s.table && other != name
    ensures Apart(Handlers(s, name), s.table[other])
  {
    hide Unused, OnceOnly;
  }

  lemma {:induction false} CallsKeep(calls: seq<Call>, hs: seq<Handler>, arg: Arg)
    requires OnceOnly(calls) && Distinct(hs) && forall h :: h in hs ==> Unused(calls, h.reg)
    ensures OnceOnly(calls + CallsOf(hs, arg))
  {
    var all := calls + CallsOf(hs, arg);
    forall i, j | 0 <= i < j < |all| && all[i].once
      ensures all[i].reg != all[j].reg
    {
      if j >= |calls| {
        var y := hs[j - |calls|];
        assert all[j].reg == y.reg && y in hs;
        if i >= |calls| {
          assert all[i].reg == hs[i - |calls|].reg;
        }
      }
    }
  }

  lemma {:induction false} EmittedKeeps(s: State, name: string, arg: Arg)
    requires Tidy(s)
    ensures Tidy(Emitted(s, name, arg))
  {
    if name in s.table {
      var hs := s.table[name];
      var q := Emitted(s, name, arg);
      LastingKeeps(hs);
      ShrinkKeeps(s, name, Lasting(hs));
      CallsKeep(s.calls, hs, arg);
      forall other, h | other in q.table && h in q.table[other]
        ensures Unused(q.calls, h.reg)
      {
        StillUnused(s, name, arg, other, h);
      }
      forall i | 0 <= i < |q.calls|
        ensures q.calls[i].reg < q.regs
      {
        if i >= |s.calls| {
          assert hs[i - |s.calls|] in hs;
        }
      }
    }
  }

  lemma {:induction false} StillUnused(s: State, name: string, arg: Arg, other: string, h: Handler)
    requires Tidy(s) && name in s.table && other in s.table
    requires h in s.table[other] && (other == name ==> !h.once)
    ensures Unused(s.calls + CallsOf(s.table[name], arg), h.reg)
  {
    var hs := s.table[name];
    var all := s.calls + CallsOf(hs, arg);
    forall i | 0 <= i < |all| && all[i].once
      ensures all[i].reg != h.reg
    {
      if i < |s.calls| {
        assert all[i] == s.calls[i];
      } else {
        var x := hs[i - |s.calls|];
        assert x in hs && all[i].reg == x.reg;
        if other == name {
          var j :| 0 <= j < |hs| && hs[j] == h;
        } else {
          assert Apart(s.table[name], s.table[other]);
        }
      }
    }
  }

  lemma {:induction false} WithoutKeeps(hs: seq<Handler>, cb: nat)
    requires Distinct(hs)
    ensures Distinct(Without(hs, cb)) && forall x :: x in Without(hs, cb) ==> x in hs
  {
  }

  lemma {:induction false} StepKeeps(s: State, op: Op)
    requires Tidy(s)
    ensures Tidy(Step(s, op))
  {
    match op
    case OnOp(name, once, cb, extra) =>
      AddedKeeps(s, name, once, cb, extra);
      EmittedKeeps(Added(s, name, once, cb, extra), NEW_LISTENER, NewListener(name, cb));
    case EmitOp(name, arg) => EmittedKeeps(s, name, arg);
    case RemoveOp(name, cb) =>
      if name in s.table {
        WithoutKeeps(s.table[name], cb);
        ShrinkKeeps(s, name, Without(s.table[name], cb));
      }
    case RemoveAllOp(name) =>
      if name in s.table {
        ShrinkKeeps(s, name, []);
      }
  }

  /** In every run a handler registered for one call is called at most once, however often its event is
      emitted. */
  lemma {:induction false} CalledOnce(ops: seq<Op>)
    ensures Tidy(Run(ops)) && OnceOnly(Run(ops).calls)
  {
    if ops != [] {
      CalledOnce(ops[..|ops| - 1]);
      StepKeeps(Run(ops[..|ops| - 1]), ops[|ops| - 1]);
    }
  }
}
