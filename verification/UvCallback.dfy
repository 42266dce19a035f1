/** The code of uv3/uv_callback.c: the linked queue it keeps and the choice of the master handle. */
module UvCallback {
  import opened CallQueue

  /** uv_call_t */
  class Node {
    var next: Node?
    const call: Call

    constructor (call: Call, next: Node?)
      ensures this.call == call && this.next == next
    {
      this.call := call;
      this.next := next;
    }
  }

  /** A master uv_callback_t together with what libuv and the threads remember about it. */
  class Master {
    var queue: Node?
    var idleActive: bool
    var pending: bool // libuv: uv_async_send was called since the last async callback
    var unsent: nat   // threads between their critical section and uv_async_send
    var place: Place  // the loop thread
    ghost var nodes: seq<Node>
    ghost var fired: seq<Call>
    ghost var executed: seq<Call>

    ghost predicate Valid()
      reads this, nodes
    {
      && queue == (if nodes == [] then null else nodes[0])
      && (forall i, j :: 0 <= i < j < |nodes| ==> nodes[i] != nodes[j])
      && (forall i {:trigger nodes[i].next} :: 0 <= i < |nodes| - 1 ==> nodes[i].next == nodes[i + 1])
      && (nodes != [] ==> nodes[|nodes| - 1].next == null)
    }

    ghost function Calls(): (q: seq<Call>)
      reads this
      ensures |q| == |nodes| && forall i :: 0 <= i < |q| ==> q[i] == nodes[i].call
    {
      seq(|nodes|, i reads this requires 0 <= i < |nodes| => nodes[i].call)
    }

    /** The state of the step system. */
    ghost function State(): System
      reads this
    {
      System(Calls(), pending, idleActive, unsent, place, fired, executed)
    }

    constructor ()
      ensures Valid() && State() == Start
    {
      queue := null;
      idleActive, pending, unsent, place := false, false, 0, Resting;
      nodes, fired, executed := [], [], [];
    }

    /** Lines 131-144: allocate a call and link it in front, under the mutex. */
    method Link(call: Call)
      requires Valid()
      modifies this
      ensures Valid() && State() == Push(old(State()), call)
    {
      var node := new Node(call, queue);
      queue := node;
      nodes := [node] + nodes;
      fired := fired + [call];
      assert Calls() == [call] + old(Calls());
    }

    /** The enqueueing half of uv_callback_fire. */
    method FireEnqueue(call: Call)
      requires Valid()
      modifies this
      ensures Valid() && State() == Next(old(State()), Fire(call))
    {
      Link(call);
      unsent := unsent + 1;
    }

    /** The sending half of uv_callback_fire. */
    method FireSend()
      requires Valid() && unsent > 0
      modifies this
      ensures Valid() && State() == Next(old(State()), Send)
    {
      unsent := unsent - 1;
      pending := true;
      assert Calls() == old(Calls());
    }

    /** dequeue_call: walk to the oldest call and unlink it. */
    method DequeueCall() returns (current: Node?)
      requires Valid()
      modifies this, nodes
      ensures Valid()
      ensures old(nodes) == [] ==> current == null && nodes == []
      ensures old(nodes) != [] ==> current == old(nodes)[|old(nodes)| - 1] && nodes == old(nodes)[..|old(nodes)| - 1]
      ensures place == old(place) && pending == old(pending) && idleActive == old(idleActive)
      ensures unsent == old(unsent) && fired == old(fired) && executed == old(executed)
    {
      var prev: Node? := null;
      current := queue;
      ghost var i := 0;
      while current != null && current.next != null
        invariant nodes == [] ==> i == 0 && current == null && prev == null
        invariant nodes != [] ==> 0 <= i < |nodes| && current == nodes[i]
        invariant prev == if i == 0 then null else nodes[i - 1]
        invariant current != null ==> current.next == if i + 1 < |nodes| then nodes[i + 1] else null
        decreases |nodes| - i
      {
        prev := current;
        current := current.next;
        i := i + 1;
      }
      if nodes != [] {
        nodes := nodes[..|nodes| - 1];
      }
      if prev != null {
        prev.next := null;
      } else {
        queue := null;
      }
    }

    /** The loop thread enters the callback from the async handle, or from the idle handle. */
    method Enter(fromAsync: bool)
      requires Valid() && place.Resting? && (if fromAsync then pending else idleActive)
      modifies this
      ensures Valid() && State() == Next(old(State()), if fromAsync then WakeAsync else WakeIdle)
      ensures nodes == old(nodes)
    {
      if fromAsync {
        pending := false;
      }
      place := Dequeuing;
      assert Calls() == old(Calls());
    }

    method Take()
      requires Valid() && place.Dequeuing?
      modifies this, nodes
      ensures Valid() && State() == Next(old(State()), Dequeue)
    {
      ghost var was := Calls();
      var call := DequeueCall();
      if call != null {
        place := Running(call.call);
        assert Calls() == was[..|was| - 1];
      } else {
        place := Stopping;
        assert Calls() == was == [];
      }
    }

    /** The application function runs; its value is a parameter. */
    method RunCall(result: int)
      requires Valid() && place.Running?
      modifies this
      ensures Valid() && State() == Next(old(State()), Execute(result))
    {
      var call := place.call;
      executed := executed + [call];
      place := if call.notify.Here? then Notifying(call.notify.callback, result) else Arming;
      assert Calls() == old(Calls());
    }

    method NotifyEnqueue()
      requires Valid() && place.Notifying?
      modifies this
      ensures Valid() && State() == Next(old(State()), NotifyFire)
    {
      Link(Call(place.callback, place.result, NoNotify));
      place := Waking;
      assert Calls() == State().queue;
    }

    method NotifyWake()
      requires Valid() && place.Waking?
      modifies this
      ensures Valid() && State() == Next(old(State()), NotifySend)
    {
      pending := true;
      place := Arming;
      assert Calls() == old(Calls());
    }

    method ArmIdle()
      requires Valid() && place.Arming?
      modifies this
      ensures Valid() && State() == Next(old(State()), Arm)
    {
      if !idleActive {
        idleActive := true;
      }
      place := Resting;
      assert Calls() == old(Calls());
    }

    method FinishTurn(result: int)
      requires Valid() && (place.Running? || place.Stopping?)
      modifies this
      ensures Valid() && State() == Finish(old(State()), result)
    {
      if place.Running? {
        RunCall(result);
        if place.Notifying? {
          NotifyEnqueue();
          NotifyWake();
        }
        ArmIdle();
      } else {
        StopIdle();
      }
    }

    /** uv_callback_async_cb, undisturbed. */
    method AsyncCallback(fromAsync: bool, result: int)
      requires Valid() && place.Resting? && (if fromAsync then pending else idleActive)
      modifies this, nodes
      ensures Valid() && State() == AfterTurn(old(State()), fromAsync, result)
    {
      Enter(fromAsync);
      Take();
      FinishTurn(result);
    }

    method StopIdle()
      requires Valid() && place.Stopping?
      modifies this
      ensures Valid() && State() == Next(old(State()), Stop)
    {
      idleActive := false;
      place := Resting;
      assert Calls() == old(Calls());
    }
  }

  /** The state after a turn of the loop thread in which no other thread interferes. */
  function AfterTurn(s: System, fromAsync: bool, result: int): System
    requires s.place.Resting? && (if fromAsync then s.pending else s.idle)
  {
    Finish(Next(Next(s, if fromAsync then WakeAsync else WakeIdle), Dequeue), result)
  }

  function Finish(s: System, result: int): System
    requires s.place.Running? || s.place.Stopping?
  {
    if s.place.Stopping? then Next(s, Stop)
    else
      var ran := Next(s, Execute(result));
      if ran.place.Notifying? then Next(Next(Next(ran, NotifyFire), NotifySend), Arm)
      else Next(ran, Arm)
  }

  /** A turn runs at most one call, the oldest, and leaves the idle handle active exactly when it did;
      so the loop gets back to its input and output between two calls. */
  lemma OneCallPerTurn(s: System, fromAsync: bool, result: int)
    requires s.place.Resting? && (if fromAsync then s.pending else s.idle)
    ensures var t := AfterTurn(s, fromAsync, result);
            && t.place.Resting? && t.unsent == s.unsent
            && t.idle == (s.queue != [])
            && t.executed == s.executed + (if s.queue == [] then [] else [s.queue[|s.queue| - 1]])
            && (Inv(s) ==> Inv(t))
  {
    var wake := if fromAsync then WakeAsync else WakeIdle;
    var a := Next(s, wake);
    var b := Next(a, Dequeue);
    if Inv(s) {
      StepKeeps(s, wake);
      StepKeeps(a, Dequeue);
      FinishKeeps(b, result);
    }
  }

  lemma FinishKeeps(s: System, result: int)
    requires Inv(s) && (s.place.Running? || s.place.Stopping?)
    ensures Inv(Finish(s, result))
  {
    if s.place.Stopping? {
      StepKeeps(s, Stop);
    } else {
      StepKeeps(s, Execute(result));
      var ran := Next(s, Execute(result));
      if ran.place.Notifying? {
        StepKeeps(ran, NotifyFire);
        StepKeeps(Next(ran, NotifyFire), NotifySend);
        StepKeeps(Next(Next(ran, NotifyFire), NotifySend), Arm);
      } else {
        StepKeeps(ran, Arm);
      }
    }
  }

  // uv_callback_init: which handle queues the calls of a callback.

  datatype Kind = Default | Coalesce | Other

  class Callback {
    var usequeue: bool
    var func: nat
    var master: Callback?

    constructor () {
    }
  }

  /** A libuv loop: the async handles registered with it, and the callbacks initialised on it. */
  class EventLoop {
    var handles: seq<Callback>
    ghost var inits: set<Callback>

    constructor ()
      ensures Valid() && handles == [] && inits == {}
    {
      handles, inits := [], {};
    }

    /** All queueing callbacks of the loop agree on one registered master. */
    ghost predicate Valid()
      reads this, handles, inits
    {
      && (forall h :: h in handles ==> h in inits && h.master == null)
      && (forall c, d :: c in inits && d in inits && c.usequeue && d.usequeue ==> Target(c) == Target(d))
      && (forall c :: c in inits && c.usequeue ==>
            Target(c) in handles && Target(c).usequeue)
    }

    /** Where uv_callback_fire queues a call. */
    static function Target(c: Callback): Callback
      reads c
    {
      if c.master != null then c.master else c
    }

    /** get_master_callback: the walk keeps the last queueing handle it meets. */
    method GetMaster() returns (callback: Callback?)
      ensures callback == null ==> forall h :: h in handles ==> !h.usequeue
      ensures callback != null ==> callback in handles && callback.usequeue
    {
      callback := null;
      var i := 0;
      while i < |handles|
        invariant 0 <= i <= |handles|
        invariant callback == null ==> forall j :: 0 <= j < i ==> !handles[j].usequeue
        invariant callback != null ==> callback in handles && callback.usequeue
      {
        if handles[i].usequeue {
          callback := handles[i];
        }
        i := i + 1;
      }
    }

    /** uv_callback_init on memory that holds no callback of this loop. */
    method Init(callback: Callback, func: nat, kind: Kind) returns (ok: bool)
      requires Valid() && callback !in inits && (forall c :: c in inits ==> c.master != callback)
      modifies this, callback
      ensures Valid() && ok == !kind.Other?
      ensures ok ==> inits == old(inits) + {callback} && callback.func == func && callback.usequeue == kind.Default?
      ensures kind.Default? ==> forall c :: c in inits && c.usequeue ==> Target(c) == Target(callback)
      ensures !ok ==> inits == old(inits) && handles == old(handles)
    {
      callback.usequeue, callback.master := false, null;
      callback.func := func;
      ok := true;
      match kind {
        case Default =>
          callback.usequeue := true;
          var m := GetMaster();
          callback.master := m;
          inits := inits + {callback};
          if m == null {
            handles := handles + [callback];
          }
        case Coalesce =>
          inits := inits + {callback};
          handles := handles + [callback];
        case Other =>
          ok := false;
      }
    }
  }
}
