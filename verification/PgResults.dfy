/** The two ways of consuming server results in websocket_13/pgsql.c: a handle bound to a callback
    gets every result in one drain, a handle bound to a request is resumed after each. */
module PgResults {
  import opened Sequences

  /** Kinds of PQresultStatus, as pgsql_read_result tells them apart. */
  datatype Kind = Ignored | Command | Tuples | Failure

  datatype Status = Init | Wait | Done | Error | Result | Notify | CommandOk | Complete

  function StatusOf(k: Kind): Status {
    match k
    case Ignored => Wait
    case Command => CommandOk
    case Tuples => Result
    case Failure => Error
  }

  /** The statuses of the deliverable results, in server order. */
  function Deliver(rs: seq<Kind>): seq<Status> {
    if rs == [] then []
    else if rs[0] == Ignored then Deliver(rs[1..])
    else [StatusOf(rs[0])] + Deliver(rs[1..])
  }

  function Leading(rs: seq<Kind>): (n: nat)
    ensures n <= |rs|
    ensures forall i :: 0 <= i < n ==> rs[i] == Ignored
    ensures n < |rs| ==> rs[n] != Ignored
  {
    First(rs, (k: Kind) => k != Ignored)
  }

  function Notices(n: nat): (s: seq<Status>)
    ensures |s| == n
  {
    if n == 0 then [] else Notices(n - 1) + [Notify]
  }

  /** How many results are no row sets. */
  function Rowless(rs: seq<Kind>): nat {
    if rs == [] then 0 else (if rs[0] == Tuples then 0 else 1) + Rowless(rs[1..])
  }

  /** Every result but a row set. */
  lemma {:induction false} RowlessAre(rs: seq<Kind>)
    ensures Rowless(rs) == |rs| - multiset(rs)[Tuples]
  {
    if rs != [] {
      RowlessAre(rs[1..]);
      assert rs == [rs[0]] + rs[1..];
    }
  }

  // Which result gives which status.

  /** The results that are told, in server order. */
  function Told(rs: seq<Kind>): seq<Kind> {
    if rs == [] then [] else (if rs[0] == Ignored then [] else [rs[0]]) + Told(rs[1..])
  }

  predicate Tells(s: Status, k: Kind) {
    && (s == CommandOk <==> k == Command) && (s == Result <==> k == Tuples) && (s == Error <==> k == Failure)
    && k != Ignored
  }

  /** Status by status and result by result. */
  predicate TellsAll(s: seq<Status>, ks: seq<Kind>) {
    |s| == |ks| && forall n :: 0 <= n < |ks| ==> Tells(s[n], ks[n])
  }

  lemma TellsHead(x: Status, k: Kind, s: seq<Status>, ks: seq<Kind>)
    requires Tells(x, k) && TellsAll(s, ks)
    ensures TellsAll([x] + s, [k] + ks)
  {
    hide Tells;
  }

  lemma {:induction false} DeliverTells(rs: seq<Kind>)
    ensures TellsAll(Deliver(rs), Told(rs))
  {
    if rs != [] {
      DeliverTells(rs[1..]);
      if rs[0] != Ignored {
        TellsHead(StatusOf(rs[0]), rs[0], Deliver(rs[1..]), Told(rs[1..]));
      } else {
        assert Deliver(rs) == Deliver(rs[1..]) && Told(rs) == Told(rs[1..]);
      }
      hide TellsAll;
    }
  }

  lemma DeliverHead(rest: seq<Kind>, told: seq<Status>)
    requires rest != []
    ensures told + Deliver([rest[0]]) + Deliver(rest[1..]) == told + Deliver(rest)
  {
    DeliverOne(rest[0]);
    var (a, b) := (Deliver([rest[0]]), Deliver(rest[1..]));
    assert Deliver(rest) == a + b;
    hide Deliver;
    assert told + a + b == told + (a + b);
  }

  lemma DeliverOne(k: Kind)
    ensures Deliver([k]) == if k == Ignored then [] else [StatusOf(k)]
  {
    assert [k][1..] == [];
  }

  lemma Behind(a: seq<Status>, b: seq<Status>)
    ensures (a + b)[|a|..] == b
  {
  }

  lemma {:induction false} NoticesAre(n: nat)
    ensures forall i :: 0 <= i < n ==> Notices(n)[i] == Notify
  {
    if n > 0 {
      NoticesAre(n - 1);
    }
  }

  lemma {:induction false} DeliverAfterLeading(rs: seq<Kind>)
    ensures var n := Leading(rs);
            Deliver(rs) == if n < |rs| then [StatusOf(rs[n])] + Deliver(rs[n + 1..]) else []
  {
    if rs != [] && rs[0] == Ignored {
      DeliverAfterLeading(rs[1..]);
      var n := Leading(rs[1..]);
      assert n < |rs| - 1 ==> rs[1..][n + 1..] == rs[n + 2..];
    }
  }

  /** What happens when kore_pgsql_handle runs: the input cannot be read, PQgetResult would block, or
      results are there. */
  datatype Turn = Unreadable | Busy | Ready

  // A handle bound to a callback.

  /** What one turn adds to the statuses the callback is called with. */
  function CallbackTurn(turn: Turn, notifies: nat, rs: seq<Kind>, continues: bool): seq<Status> {
    match turn
    case Unreadable => [Error]
    case Busy => [Wait]
    case Ready => Notices(notifies) + Deliver(rs) + if continues then [Done, Complete] else [Done]
  }

  /** The statuses its callback is called with over a run of turns, the callback continuing on DONE
      or not. After a continue on DONE the connection is gone and no turn follows. */
  function CallbackTrace(turns: seq<Turn>, notifies: nat, rs: seq<Kind>, continues: bool): seq<Status> {
    if turns == [] then []
    else CallbackTurn(turns[0], notifies, rs, continues) +
         if turns[0] != Ready then CallbackTrace(turns[1..], notifies, rs, continues)
         else if continues then []
         else CallbackTrace(turns[1..], 0, [], continues)
  }

  lemma TurnIs(told: seq<Status>, turn: Turn, notifies: nat, rs: seq<Kind>, continues: bool)
    ensures told + CallbackTurn(turn, notifies, rs, continues) ==
            match turn
            case Unreadable => told + [Error]
            case Busy => told + [Wait]
            case Ready => told + Notices(notifies) + Deliver(rs) + if continues then [Done, Complete] else [Done]
  {
  }

  lemma {:induction false} TraceStep(all: seq<Status>, was: seq<Status>, rest: seq<Turn>, notifies: nat, rs: seq<Kind>, continues: bool)
    requires rest != [] && was + CallbackTrace(rest, notifies, rs, continues) == all
    ensures was + CallbackTurn(rest[0], notifies, rs, continues) +
            (if rest[0] != Ready then CallbackTrace(rest[1..], notifies, rs, continues)
             else if continues then []
             else CallbackTrace(rest[1..], 0, [], continues)) == all
  {
  }

  function Waits(n: nat): (s: seq<Status>)
    ensures |s| == n
  {
    if n == 0 then [] else [Wait] + Waits(n - 1)
  }

  /** A callback that continues on DONE sees WAIT for the schedule and every busy turn, each notice,
      one call per deliverable result, DONE, COMPLETE; whatever turns follow. */
  lemma {:induction false} ContinuingCallback(busy: nat, later: seq<Turn>, notifies: nat, rs: seq<Kind>)
    ensures CallbackTrace(seq(busy, _ => Busy) + [Ready] + later, notifies, rs, true) ==
            Waits(busy) + (Notices(notifies) + Deliver(rs) + [Done, Complete])
  {
    var turns := seq(busy, _ => Busy) + [Ready] + later;
    if busy > 0 {
      assert turns[1..] == seq(busy - 1, _ => Busy) + [Ready] + later;
      ContinuingCallback(busy - 1, later, notifies, rs);
    }
  }

  /** What the callback is told, call by call: the notices, for each result that is told its own status, DONE,
      and COMPLETE if it continues. */
  lemma ReadyTells(notifies: nat, rs: seq<Kind>, continues: bool)
    ensures var t := CallbackTurn(Ready, notifies, rs, continues);
            var n := |Told(rs)|;
            && |t| == notifies + n + (if continues then 2 else 1)
            && (forall i :: 0 <= i < notifies ==> t[i] == Notify)
            && TellsAll(t[notifies..notifies + n], Told(rs))
            && t[notifies + n] == Done && (continues ==> t[notifies + n + 1] == Complete)
  {
    DeliverTells(rs);
    NoticesAre(notifies);
    var t := CallbackTurn(Ready, notifies, rs, continues);
    assert t[notifies..notifies + |Told(rs)|] == Deliver(rs);
  }

  lemma NotReady(turn: Turn, notifies: nat, rs: seq<Kind>)
    requires turn != Ready
    ensures CallbackTurn(turn, notifies, rs, true) == [if turn == Busy then Wait else Error]
  {
  }

  /** Turns before the first that reads results: WAIT where the server is busy, ERROR where the input cannot be
      read; and a callback that continues hears nothing after that turn. */
  lemma {:induction false} BeforeReady(turns: seq<Turn>, k: nat, notifies: nat, rs: seq<Kind>)
    requires k < |turns| && turns[k] == Ready && forall i :: 0 <= i < k ==> turns[i] != Ready
    ensures var t := CallbackTrace(turns, notifies, rs, true);
            && |t| >= k && t[k..] == CallbackTurn(Ready, notifies, rs, true)
            && forall i :: 0 <= i < k ==> t[i] == if turns[i] == Busy then Wait else Error
  {
    hide CallbackTurn;
    var t := CallbackTrace(turns, notifies, rs, true);
    if k > 0 {
      NotReady(turns[0], notifies, rs);
      BeforeReady(turns[1..], k - 1, notifies, rs);
      var u := CallbackTrace(turns[1..], notifies, rs, true);
      assert t == [if turns[0] == Busy then Wait else Error] + u;
      assert t[k..] == u[k - 1..];
    } else {
      assert t == CallbackTurn(Ready, notifies, rs, true) + [];
    }
  }

  // A handle bound to a request.

  /** The status its request sees at the return of a turn. */
  function RequestTurn(turn: Turn, rs: seq<Kind>): Status {
    match turn
    case Unreadable => Error
    case Busy => Wait
    case Ready => var n := Leading(rs); if n == |rs| then Done else StatusOf(rs[n])
  }

  /** The results left after a turn. */
  function LeftAfter(turn: Turn, rs: seq<Kind>): seq<Kind> {
    var n := Leading(rs);
    if turn != Ready then rs else if n == |rs| then [] else rs[n + 1..]
  }

  /** The statuses its request sees at the return of each turn until DONE: every status but WAIT is
      answered by kore_pgsql_continue, a WAIT by the next read event. */
  function RequestTrace(turns: seq<Turn>, rs: seq<Kind>): seq<Status> {
    if turns == [] then []
    else
      var s := RequestTurn(turns[0], rs);
      [s] + if s == Done then [] else RequestTrace(turns[1..], LeftAfter(turns[0], rs))
  }

  lemma {:induction false} RequestStep(all: seq<Status>, seen: seq<Status>, rest: seq<Turn>, rs: seq<Kind>)
    requires rest != [] && seen + RequestTrace(rest, rs) == all
    ensures var s := RequestTurn(rest[0], rs);
            && s in {Wait, Result, CommandOk, Error, Done}
            && seen + [s] + (if s == Done then [] else RequestTrace(rest[1..], LeftAfter(rest[0], rs))) == all
  {
  }

  /** The statuses seen at the return of the turns that read results. */
  function AtReady(turns: seq<Turn>, seen: seq<Status>): seq<Status>
    requires |seen| <= |turns|
  {
    if seen == [] then [] else (if turns[0] == Ready then [seen[0]] else []) + AtReady(turns[1..], seen[1..])
  }

  function ReadyTurns(turns: seq<Turn>): (n: nat)
    ensures n <= |turns|
  {
    if turns == [] then 0 else (if turns[0] == Ready then 1 else 0) + ReadyTurns(turns[1..])
  }

  /** The first `k` statuses, or all of them. */
  function Take(k: nat, s: seq<Status>): seq<Status> {
    if k == 0 || s == [] then [] else [s[0]] + Take(k - 1, s[1..])
  }

  lemma {:induction false} TakeAll(k: nat, s: seq<Status>)
    requires k >= |s|
    ensures Take(k, s) == s
  {
    if s != [] {
      TakeAll(k - 1, s[1..]);
    }
  }

  lemma {:induction false} TakeHead(k: nat, x: Status, s: seq<Status>)
    ensures Take(k + 1, [x] + s) == [x] + Take(k, s)
  {
    assert ([x] + s)[1..] == s;
  }

  lemma {:induction false} TakeDelivered(k: nat, rs: seq<Kind>)
    ensures var n := Leading(rs);
            Take(k + 1, Deliver(rs) + [Done]) ==
            if n < |rs| then [StatusOf(rs[n])] + Take(k, Deliver(rs[n + 1..]) + [Done]) else [Done]
  {
    var n := Leading(rs);
    DeliverAfterLeading(rs);
    if n < |rs| {
      var rest := Deliver(rs[n + 1..]) + [Done];
      assert Deliver(rs) + [Done] == [StatusOf(rs[n])] + rest;
      TakeHead(k, StatusOf(rs[n]), rest);
    } else {
      TakeHead(k, Done, []);
      assert Deliver(rs) + [Done] == [Done] + [];
    }
  }

  lemma {:induction false} ReadyTurnsSee(turns: seq<Turn>, rs: seq<Kind>)
    ensures |RequestTrace(turns, rs)| <= |turns|
    ensures AtReady(turns, RequestTrace(turns, rs)) == Take(ReadyTurns(turns), Deliver(rs) + [Done])
  {
    hide Leading, Deliver;
    if turns != [] {
      var n := Leading(rs);
      var first := RequestTurn(turns[0], rs);
      var later := if first == Done then [] else RequestTrace(turns[1..], LeftAfter(turns[0], rs));
      assert RequestTrace(turns, rs) == [first] + later && ([first] + later)[1..] == later;
      if turns[0] != Ready {
        ReadyTurnsSee(turns[1..], rs);
      } else {
        TakeDelivered(ReadyTurns(turns[1..]), rs);
        if n < |rs| {
          ReadyTurnsSee(turns[1..], rs[n + 1..]);
        }
      }
    }
  }

  lemma {:induction false} OtherTurnsSee(turns: seq<Turn>, rs: seq<Kind>, i: nat)
    requires i < |turns| && i < |RequestTrace(turns, rs)| && turns[i] != Ready
    ensures RequestTrace(turns, rs)[i] == if turns[i] == Busy then Wait else Error
  {
    if i > 0 {
      OtherTurnsSee(turns[1..], LeftAfter(turns[0], rs), i - 1);
    }
  }

  /** The request sees WAIT where PQgetResult would block, ERROR where the input cannot be read, and at its
      other turns the deliverable results in order, one a turn, then DONE; it reaches DONE exactly when it
      gets one of those turns more than there are deliverable results. */
  lemma RequestSees(turns: seq<Turn>, rs: seq<Kind>)
    ensures var seen := RequestTrace(turns, rs);
            && |seen| <= |turns|
            && AtReady(turns, seen) == Take(ReadyTurns(turns), Deliver(rs) + [Done])
            && forall i :: 0 <= i < |seen| && turns[i] != Ready ==>
                 seen[i] == if turns[i] == Busy then Wait else Error
  {
    ReadyTurnsSee(turns, rs);
    forall i | 0 <= i < |RequestTrace(turns, rs)| && turns[i] != Ready
      ensures RequestTrace(turns, rs)[i] == if turns[i] == Busy then Wait else Error
    {
      OtherTurnsSee(turns, rs, i);
    }
  }

  lemma {:induction false} TakeAt(k: nat, s: seq<Status>)
    ensures |Take(k, s)| == (if k < |s| then k else |s|) && forall i :: 0 <= i < |Take(k, s)| ==> Take(k, s)[i] == s[i]
  {
    if k > 0 && s != [] {
      TakeAt(k - 1, s[1..]);
    }
  }

  /** What the request is told, at its turns that read results: for each result that is told its own status, one
      a turn, and then DONE. */
  lemma RequestTells(turns: seq<Turn>, rs: seq<Kind>)
    ensures |RequestTrace(turns, rs)| <= |turns|
    ensures var t := AtReady(turns, RequestTrace(turns, rs));
            var n := |Told(rs)|;
            && |t| == (if ReadyTurns(turns) <= n then ReadyTurns(turns) else n + 1)
            && (forall i :: 0 <= i < |t| && i < n ==> Tells(t[i], Told(rs)[i]))
            && (|t| == n + 1 ==> t[n] == Done)
  {
    hide Tells;
    ReadyTurnsSee(turns, rs);
    DeliverTells(rs);
    TakeAt(ReadyTurns(turns), Deliver(rs) + [Done]);
  }

  /** The two ways agree exactly when the server sent no notification: a request never sees one. */
  lemma {:induction false} SameStatusesIff(turns: seq<Turn>, notifies: nat, rs: seq<Kind>)
    requires ReadyTurns(turns) > |Deliver(rs)|
    ensures |RequestTrace(turns, rs)| <= |turns|
    ensures CallbackTurn(Ready, notifies, rs, false) == AtReady(turns, RequestTrace(turns, rs)) <==> notifies == 0
  {
    RequestSees(turns, rs);
    var all := Deliver(rs) + [Done];
    TakeAll(ReadyTurns(turns), all);
    assert CallbackTurn(Ready, notifies, rs, false) == Notices(notifies) + all;
    assert Notices(0) + all == all;
  }

  // The code.

  /** struct kore_pgsql with what libpq holds for it. `told` records the callback's calls, `cleared`
      and `leaked` the results passed to PQclear and those overwritten without it. */
  class Query {
    const byRequest: bool
    const continues: bool
    var connected: bool
    var state: Status
    var held: bool
    var results: seq<Kind>
    var notifies: nat
    var asleep: bool
    var told: seq<Status>
    var cleared: nat
    var leaked: nat

    constructor (byRequest: bool, continues: bool, results: seq<Kind>, notifies: nat)
      ensures this.byRequest == byRequest && this.continues == continues
      ensures this.results == results && this.notifies == notifies
      ensures connected && !held && !asleep && state == Init && told == [] && cleared == 0 && leaked == 0
    {
      this.byRequest, this.continues, this.results, this.notifies := byRequest, continues, results, notifies;
      connected, held, asleep, state, told, cleared, leaked := true, false, false, Init, [], 0, 0;
    }

    /** Calls the callback, if there is one. */
    method Tell()
      requires connected
      modifies this
      ensures told == old(told) + if byRequest then [] else if old(state) == Done && continues then [Done, Complete] else [old(state)]
      ensures connected == !(!byRequest && continues && old(state) == Done)
      ensures connected ==> state == old(state) && results == old(results) && cleared == old(cleared) && held == old(held)
      ensures !connected ==> state == Complete && results == [] && !held &&
                             cleared == old(cleared) + |old(results)| + if old(held) then 1 else 0
      ensures notifies == old(notifies) && asleep == old(asleep) && leaked == old(leaked)
    {
      if !byRequest {
        told := told + [state];
        if continues && state == Done {
          ClearResult();
          Release();
        }
      }
    }

    method ClearResult()
      modifies this`held, this`cleared
      ensures !held && cleared == old(cleared) + if old(held) then 1 else 0
    {
      if held {
        cleared, held := cleared + 1, false;
      }
    }

    /** pgsql_conn_release on a handle in state DONE, as far as the handle is concerned. A callback that
        continues only on DONE does nothing more when told COMPLETE. */
    method Release()
      requires connected
      modifies this
      ensures !connected && state == Complete && results == [] && cleared == old(cleared) + |old(results)|
      ensures told == old(told) + if byRequest then [] else [Complete]
      ensures held == old(held) && notifies == old(notifies) && asleep == old(asleep) && leaked == old(leaked)
    {
      cleared, results := cleared + |results|, [];
      connected := false;
      state := Complete;
      if !byRequest {
        told := told + [state];
      }
    }

    /** pgsql_schedule */
    method Schedule()
      requires connected
      modifies this
      ensures state == Wait && connected && results == old(results) && notifies == old(notifies)
      ensures told == old(told) + (if byRequest then [] else [Wait])
      ensures held == old(held) && asleep == (old(asleep) || byRequest)
      ensures cleared == old(cleared) && leaked == old(leaked)
    {
      state := Wait;
      if byRequest {
        asleep := true;
      }
      Tell();
    }

    /** result = PQgetResult(): what was held before is lost. */
    method Fetch()
      modifies this`held, this`leaked, this`results
      ensures leaked == old(leaked) + if old(held) then 1 else 0
      ensures held <==> old(results) != []
      ensures results == if old(results) == [] then [] else old(results)[1..]
    {
      if held {
        leaked := leaked + 1;
      }
      held := results != [];
      if results != [] {
        results := results[1..];
      }
    }

    /** The loop over PQnotifies. */
    method ReadNotifies()
      requires connected
      modifies this`notifies, this`told, this`state
      ensures notifies == 0 && told == old(told) + if byRequest then [] else Notices(old(notifies))
      ensures state == if old(notifies) == 0 then old(state) else Notify
    {
      var n := 0;
      assert told == old(told) + [];
      while notifies > 0
        invariant n + notifies == old(notifies)
        invariant state == if n == 0 then old(state) else Notify
        invariant told == old(told) + if byRequest then [] else Notices(n)
        decreases notifies
      {
        state := Notify;
        if !byRequest {
          told := told + [state];
        }
        notifies := notifies - 1;
        n := n + 1;
      }
    }

    /** One result of a callback-bound handle. */
    method Handover(k: Kind)
      requires !byRequest && held
      modifies this`state, this`told, this`held, this`cleared
      ensures told == old(told) + Deliver([k])
      ensures k != Ignored ==> |told| == |old(told)| + 1 && Tells(told[|old(told)|], k)
      ensures held == (k != Tuples) && cleared == old(cleared) + if k == Tuples then 1 else 0
    {
      match k
      case Ignored =>
      case Command =>
        state := CommandOk;
        told := told + [state];
      case Tuples =>
        state := Result;
        told := told + [state];
        ClearResult();
      case Failure =>
        state := Error;
        told := told + [state];
    }

    /** The result loop of pgsql_read_result, bound to a callback. */
    method DrainCallback()
      requires !byRequest && !held
      modifies this`state, this`told, this`held, this`cleared, this`leaked, this`results
      ensures results == [] && !held && state == Done
      ensures told == old(told) + Deliver(old(results))
      ensures TellsAll(told[|old(told)|..], Told(old(results)))
      ensures leaked == old(leaked) + Rowless(old(results))
      ensures cleared == old(cleared) + |old(results)| - Rowless(old(results))
    {
      hide TellsAll, Tells, Told;
      ghost var rest := results;
      var more := results != [];
      var k := if more then results[0] else Ignored;
      Fetch();
      while more
        invariant more == held == (rest != [])
        invariant more ==> k == rest[0] && results == rest[1..]
        invariant !more ==> results == []
        invariant told + Deliver(rest) == old(told) + Deliver(old(results))
        invariant leaked + Rowless(rest) == old(leaked) + Rowless(old(results))
        invariant cleared + |rest| - Rowless(rest) == old(cleared) + |old(results)| - Rowless(old(results))
        decreases |rest|
      {
        DeliverHead(rest, told);
        Handover(k);
        rest := rest[1..];
        more := results != [];
        k := if more then results[0] else Ignored;
        Fetch();
      }
      state := Done;
      DeliverTells(old(results));
      assert Deliver(rest) == [];
      Behind(old(told), Deliver(old(results)));
    }

    /** The result loop of pgsql_read_result, bound to a request: it returns at the first deliverable
        result, which stays held. */
    method DrainRequest()
      requires byRequest && !held
      modifies this`state, this`held, this`leaked, this`results
      ensures var n := Leading(old(results));
              && leaked == old(leaked) + n
              && (n < |old(results)| ==>
                    state == StatusOf(old(results)[n]) && held && results == old(results)[n + 1..] &&
                    Tells(state, old(results)[n]))
              && (n == |old(results)| ==> state == Done && !held && results == [])
    {
      ghost var rs := results;
      ghost var i := 0;
      var more := results != [];
      var k := if more then results[0] else Ignored;
      Fetch();
      while more
        invariant 0 <= i <= Leading(rs) && more == held == (i < |rs|)
        invariant more ==> k == rs[i] && results == rs[i + 1..]
        invariant !more ==> results == []
        invariant leaked == old(leaked) + i
        decreases |rs| - i
      {
        if k != Ignored {
          state := StatusOf(k);
          return;
        }
        i := i + 1;
        more := results != [];
        k := if more then results[0] else Ignored;
        Fetch();
      }
      state := Done;
    }

    /** kore_pgsql_handle without a connection error. */
    method HandleCallback(turn: Turn)
      requires !byRequest && connected && !held
      modifies this
      ensures told == old(told) + CallbackTurn(turn, old(notifies), old(results), continues)
      ensures connected == !(turn == Ready && continues)
      ensures turn == Ready ==> notifies == 0 && results == [] && leaked == old(leaked) + Rowless(old(results))
      ensures turn != Ready ==> notifies == old(notifies) && results == old(results) && leaked == old(leaked)
      ensures !held
    {
      hide TellsAll, Tells, Told, CallbackTurn, Deliver, Notices;
      TurnIs(told, turn, notifies, results, continues);
      match turn {
        case Unreadable => state := Error;
        case Busy => state := Wait;
        case Ready =>
          ReadNotifies();
          DrainCallback();
      }
      Tell();
    }

    method HandleRequest(turn: Turn)
      requires byRequest && connected && !held
      modifies this
      ensures connected && told == old(told)
      ensures state == RequestTurn(turn, old(results)) && results == LeftAfter(turn, old(results))
      ensures asleep == (state == Wait)
      ensures held ==> state in {Result, CommandOk, Error}
      ensures leaked == old(leaked) + if turn == Ready then Leading(old(results)) else 0
      ensures cleared == old(cleared)
    {
      match turn {
        case Unreadable => state := Error;
        case Busy => state := Wait;
        case Ready =>
          ReadNotifies();
          DrainRequest();
      }
      if state == Wait {
        asleep := true;
      } else {
        asleep := false;
      }
    }

    /** kore_pgsql_continue on a request-bound handle; `turn` says what a kore_pgsql_handle it calls
        finds. It is fatal in state COMPLETE. */
    method ContinueRequest(turn: Turn) returns (fatal: bool)
      requires byRequest && connected && (held ==> state in {Result, CommandOk, Error})
      modifies this
      ensures fatal == (old(state) == Complete)
      ensures !fatal ==> cleared == old(cleared) + (if old(held) then 1 else 0) + (if old(state) == Done then |old(results)| else 0)
      ensures old(state) == Done ==> state == Complete && !connected && leaked == old(leaked)
      ensures old(state) in {Init, Wait} ==> state == old(state) && results == old(results) && leaked == old(leaked) && connected
      ensures old(state) in {Error, Result, Notify, CommandOk} ==>
                && connected && state == RequestTurn(turn, old(results)) && results == LeftAfter(turn, old(results))
                && (held ==> state in {Result, CommandOk, Error}) && told == old(told)
    {
      ClearResult();
      match state
      case Init => fatal := false;
      case Wait => fatal := false;
      case Done =>
        asleep := false;
        Release();
        fatal := false;
      case Complete => fatal := true;
      case _ =>
        HandleRequest(turn);
        fatal := false;
    }

    /** A callback-bound query from its schedule on, one call of kore_pgsql_handle a turn; the
        descriptor is disabled once the connection is released. */
    method RunCallback(turns: seq<Turn>)
      requires !byRequest && connected && !held
      modifies this
      ensures told == old(told) + [Wait] + CallbackTrace(turns, old(notifies), old(results), continues)
    {
      hide CallbackTurn;
      ghost var all := CallbackTrace(turns, notifies, results, continues);
      Schedule();
      all := told + all;
      var i := 0;
      while i < |turns| && connected
        invariant 0 <= i <= |turns| && !held
        invariant told + (if connected then CallbackTrace(turns[i..], notifies, results, continues) else []) == all
      {
        ghost var rest := turns[i..];
        assert rest[0] == turns[i] && rest[1..] == turns[i + 1..];
        TraceStep(all, told, rest, notifies, results, continues);
        HandleCallback(turns[i]);
        i := i + 1;
      }
    }

    /** What starts the next turn: a read event after WAIT, kore_pgsql_continue after the rest. */
    method Resume(turn: Turn)
      requires byRequest && connected && state in {Wait, Result, CommandOk, Error}
      requires held ==> state in {Result, CommandOk, Error}
      modifies this
      ensures connected && told == old(told) && (held ==> state in {Result, CommandOk, Error})
      ensures state == RequestTurn(turn, old(results)) && results == LeftAfter(turn, old(results))
    {
      if state == Wait {
        HandleRequest(turn);
      } else {
        var _ := ContinueRequest(turn);
      }
    }

    /** A request-bound query from its schedule on. A WAIT is left by the next read event, any other
        status by kore_pgsql_continue, until DONE. `seen` is the status at each return. */
    method RunRequest(turns: seq<Turn>) returns (seen: seq<Status>)
      requires byRequest && connected && !held
      modifies this
      ensures seen == RequestTrace(turns, old(results)) && told == old(told)
    {
      Schedule();
      seen := [];
      var i := 0;
      while i < |turns| && state != Done
        invariant 0 <= i <= |turns| && connected && told == old(told)
        invariant held ==> state in {Result, CommandOk, Error}
        invariant state in {Wait, Result, CommandOk, Error, Done}
        invariant state == Done ==> seen == RequestTrace(turns, old(results))
        invariant state != Done ==> seen + RequestTrace(turns[i..], results) == RequestTrace(turns, old(results))
      {
        ghost var rest := turns[i..];
        assert rest[0] == turns[i] && rest[1..] == turns[i + 1..];
        RequestStep(RequestTrace(turns, old(results)), seen, rest, results);
        Resume(turns[i]);
        seen := seen + [state];
        i := i + 1;
      }
    }
  }
}
