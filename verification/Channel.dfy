/** Requests and replies across the two threads: the pending letters of mediasoup/src/channel.c, and
    the worker that answers. Both directions travel through one first-in first-out queue, because
    to_cpp and from_cpp share the master callback of the worker's loop. */
module Channel {
  import opened Options
  import opened Worker

  datatype SoupState = Init | Wait | Result | Error

  /** struct soup: the handle of a request; `id` is zero while nothing is pending. */
  datatype Soup = Soup(id: nat, state: SoupState)

  /** struct postman. `serial` numbers the requests for the proofs; the code has no such field. */
  datatype Letter = Letter(id: nat, soup: nat, serial: nat)

  datatype Outcome = Granted | Refused | TimedOut | SendFailed

  /** One call of a request's callback. `cause` is the serial of the request whose reply caused it. */
  datatype Settled = Settled(soup: nat, serial: nat, outcome: Outcome, cause: Option<nat>)

  datatype Post = Post(letters: seq<Letter>, soups: map<nat, Soup>, log: seq<Settled>)

  predicate HasId(letters: seq<Letter>, id: nat) {
    exists i :: 0 <= i < |letters| && letters[i].id == id
  }

  /** The first letter with this id, as the search loops find it. */
  function IndexOf(letters: seq<Letter>, id: nat): (i: nat)
    requires HasId(letters, id)
    ensures i < |letters| && letters[i].id == id
    ensures forall j :: 0 <= j < i ==> letters[j].id != id
  {
    if letters[0].id == id then 0
    else
      assert HasId(letters[1..], id) by {
        var k :| 0 <= k < |letters| && letters[k].id == id;
        assert letters[1..][k - 1].id == id;
      }
      1 + IndexOf(letters[1..], id)
  }

  function Without(letters: seq<Letter>, i: nat): seq<Letter>
    requires i < |letters|
  {
    letters[..i] + letters[i + 1..]
  }

  /** channel_send, with the id its loop drew; a handle that is not idle sends with id zero. */
  function SendId(p: Post, h: nat, reqId: nat): nat
    requires h in p.soups
  {
    if p.soups[h].id == 0 then reqId else 0
  }

  function Send(p: Post, h: nat, reqId: nat, serial: nat, fired: bool): Post
    requires h in p.soups
  {
    var id := SendId(p, h, reqId);
    if fired then
      p.(letters := [Letter(id, h, serial)] + p.letters, soups := p.soups[h := Soup(id, Wait)])
    else
      p.(soups := p.soups[h := Soup(0, Error)], log := p.log + [Settled(h, serial, SendFailed, None)])
  }

  /** What a reply says: the keys `accepted` and `rejected` are looked for in this order. */
  datatype Verdict = Accept | Reject | Neither

  /** invoke_for_dummy, for a message with key `id`. */
  function Receive(p: Post, id: nat, verdict: Verdict, cause: nat): Post
    requires SoupsKnown(p)
  {
    if !HasId(p.letters, id) then p
    else
      var i := IndexOf(p.letters, id);
      var l := p.letters[i];
      var state := match verdict case Accept => Result case Reject => Error case Neither => p.soups[l.soup].state;
      var calls := match verdict
        case Accept => [Settled(l.soup, l.serial, Granted, Some(cause))]
        case Reject => [Settled(l.soup, l.serial, Refused, Some(cause))]
        case Neither => [];
      Post(Without(p.letters, i), p.soups[l.soup := Soup(0, state)], p.log + calls)
  }

  /** on_timeout, for the timer of letter `k`: the callback first, then the search by the handle's id. */
  function Expire(p: Post, k: nat): Post
    requires SoupsKnown(p) && k < |p.letters|
  {
    var l := p.letters[k];
    var id := p.soups[l.soup].id;
    var log := p.log + [Settled(l.soup, l.serial, TimedOut, None)];
    if HasId(p.letters, id) then
      Post(Without(p.letters, IndexOf(p.letters, id)), p.soups[l.soup := Soup(0, Error)], log)
    else
      Post(p.letters, p.soups[l.soup := Soup(id, Error)], log)
  }

  predicate SoupsKnown(p: Post) {
    forall i :: 0 <= i < |p.letters| ==> p.letters[i].soup in p.soups
  }

  /** Pending ids are non-zero and pairwise distinct, and a handle carries an id exactly while it has
      a pending letter with that id. */
  predicate Tidy(p: Post) {
    && SoupsKnown(p)
    && (forall i :: 0 <= i < |p.letters| ==>
          p.letters[i].id != 0 && p.soups[p.letters[i].soup].id == p.letters[i].id)
    && (forall i, j :: 0 <= i < j < |p.letters| ==> p.letters[i].id != p.letters[j].id)
    && (forall h :: h in p.soups && p.soups[h].id != 0 ==> Holds(p.letters, p.soups[h].id, h))
  }

  predicate Holds(letters: seq<Letter>, id: nat, h: nat) {
    exists i :: 0 <= i < |letters| && letters[i].id == id && letters[i].soup == h
  }

  lemma HoldsWithout(letters: seq<Letter>, k: nat, id: nat, h: nat)
    requires k < |letters| && Holds(letters, id, h) && letters[k].id != id
    ensures Holds(Without(letters, k), id, h)
  {
    var i :| 0 <= i < |letters| && letters[i].id == id && letters[i].soup == h;
    assert Without(letters, k)[if i < k then i else i - 1] == letters[i];
  }

  lemma HoldsPushed(letters: seq<Letter>, l: Letter, id: nat, h: nat)
    requires Holds(letters, id, h) || (l.id == id && l.soup == h)
    ensures Holds([l] + letters, id, h)
  {
    if Holds(letters, id, h) {
      var i :| 0 <= i < |letters| && letters[i].id == id && letters[i].soup == h;
      assert ([l] + letters)[i + 1] == letters[i];
    } else {
      assert ([l] + letters)[0] == l;
    }
  }

  lemma OnlyIndex(letters: seq<Letter>, k: nat)
    requires k < |letters|
    requires forall i, j :: 0 <= i < j < |letters| ==> letters[i].id != letters[j].id
    ensures HasId(letters, letters[k].id) && IndexOf(letters, letters[k].id) == k
  {
    assert HasId(letters, letters[k].id);
  }

  lemma WithoutTidy(p: Post, k: nat, state: SoupState, log: seq<Settled>)
    requires Tidy(p) && k < |p.letters|
    ensures Tidy(Post(Without(p.letters, k), p.soups[p.letters[k].soup := Soup(0, state)], log))
  {
    var l := p.letters[k];
    var rest := Without(p.letters, k);
    var soups := p.soups[l.soup := Soup(0, state)];
    assert forall i :: 0 <= i < |rest| ==> rest[i] == p.letters[if i < k then i else i + 1];
    forall h | h in soups && soups[h].id != 0
      ensures Holds(rest, soups[h].id, h)
    {
      HoldsWithout(p.letters, k, soups[h].id, h);
    }
  }

  lemma SendTidy(p: Post, h: nat, reqId: nat, serial: nat, fired: bool)
    requires Tidy(p) && h in p.soups && p.soups[h].id == 0 && reqId != 0 && !HasId(p.letters, reqId)
    ensures Tidy(Send(p, h, reqId, serial, fired))
  {
    var q := Send(p, h, reqId, serial, fired);
    forall x | x in q.soups && q.soups[x].id != 0
      ensures Holds(q.letters, q.soups[x].id, x)
    {
      if fired {
        HoldsPushed(p.letters, q.letters[0], q.soups[x].id, x);
      }
    }
  }

  lemma ReceiveTidy(p: Post, id: nat, verdict: Verdict, cause: nat)
    requires Tidy(p)
    ensures Tidy(Receive(p, id, verdict, cause))
  {
    if HasId(p.letters, id) {
      var q := Receive(p, id, verdict, cause);
      WithoutTidy(p, IndexOf(p.letters, id), q.soups[p.letters[IndexOf(p.letters, id)].soup].state, q.log);
    }
  }

  /** A timeout removes its own letter. */
  lemma ExpireTidy(p: Post, k: nat)
    requires Tidy(p) && k < |p.letters|
    ensures Tidy(Expire(p, k)) && Expire(p, k).letters == Without(p.letters, k)
  {
    OnlyIndex(p.letters, k);
    WithoutTidy(p, k, Error, Expire(p, k).log);
  }

  /** The pending ids stay non-zero exactly when the sending handle was idle. */
  lemma NonZeroIffIdle(p: Post, h: nat, reqId: nat, serial: nat)
    requires Tidy(p) && h in p.soups && reqId != 0
    ensures (forall i :: 0 <= i < |p.letters| + 1 ==> Send(p, h, reqId, serial, true).letters[i].id != 0)
              <==> p.soups[h].id == 0
  {
    var q := Send(p, h, reqId, serial, true);
    assert forall i :: 1 <= i < |q.letters| ==> q.letters[i] == p.letters[i - 1];
    assert q.letters[0].id == SendId(p, h, reqId);
  }

  /** A duplicate of a reply changes nothing. */
  lemma DuplicateIgnored(p: Post, id: nat, verdict: Verdict, cause: nat, again: Verdict, cause2: nat)
    requires Tidy(p)
    ensures SoupsKnown(Receive(p, id, verdict, cause))
    ensures Receive(Receive(p, id, verdict, cause), id, again, cause2) == Receive(p, id, verdict, cause)
  {
    ReceiveTidy(p, id, verdict, cause);
    if HasId(p.letters, id) {
      var k := IndexOf(p.letters, id);
      var rest := Without(p.letters, k);
      assert forall i :: 0 <= i < |rest| ==> rest[i] == p.letters[if i < k then i else i + 1];
      assert !HasId(rest, id);
    }
  }

  /** The first draw that is non-zero and not pending. */
  predicate Usable(letters: seq<Letter>, id: nat) {
    id != 0 && !HasId(letters, id)
  }

  /** struct channel with the global list of letters; the list is a sequence, head first. */
  class Office {
    var letters: seq<Letter>
    var soups: map<nat, Soup>
    var log: seq<Settled>

    function View(): Post
      reads this
    {
      Post(letters, soups, log)
    }

    constructor (handles: set<nat>)
      ensures View() == Post([], map h | h in handles :: Soup(0, Init), [])
    {
      letters, soups, log := [], map h | h in handles :: Soup(0, Init), [];
    }

    /** id_lookup; the code's -1 is `true`. */
    method IdLookup(id: nat) returns (pending: bool)
      ensures pending == HasId(letters, id)
    {
      var i := 0;
      while i < |letters|
        invariant 0 <= i <= |letters|
        invariant forall j :: 0 <= j < i ==> letters[j].id != id
      {
        if letters[i].id == id {
          return true;
        }
        i := i + 1;
      }
      return false;
    }

    /** channel_send. The random draws are a parameter; for an idle handle they must contain one that
        the loop accepts. A handle that is not idle is sent with id zero. */
    method ChannelSend(h: nat, draws: seq<nat>, serial: nat, fired: bool)
      requires h in soups
      requires soups[h].id == 0 ==> exists i :: 0 <= i < |draws| && Usable(letters, draws[i])
      modifies this
      ensures old(soups[h].id) != 0 ==> View() == Send(old(View()), h, 0, serial, fired)
      ensures old(soups[h].id) == 0 ==>
                exists i :: 0 <= i < |draws| && Usable(old(letters), draws[i])
                  && (forall j :: 0 <= j < i ==> !Usable(old(letters), draws[j]))
                  && View() == Send(old(View()), h, draws[i], serial, fired)
    {
      var reqId := 0;
      ghost var i := 0;
      if soups[h].id == 0 {
        var rest := draws;
        while reqId == 0
          invariant 0 <= i <= |draws| && rest == draws[i..]
          invariant forall j :: 0 <= j < (if reqId == 0 then i else i - 1) ==> !Usable(letters, draws[j])
          invariant reqId != 0 ==> i > 0 && reqId == draws[i - 1] && Usable(letters, reqId)
          invariant View() == old(View())
          decreases |rest|
        {
          reqId := rest[0];
          rest := rest[1..];
          var taken := IdLookup(reqId);
          if taken {
            reqId := 0;
          }
          i := i + 1;
        }
      }
      soups := soups[h := Soup(reqId, Wait)];
      letters := [Letter(reqId, h, serial)] + letters;
      if !fired {
        letters := letters[1..];
        log := log + [Settled(h, serial, SendFailed, None)];
        soups := soups[h := Soup(0, Error)];
      }
    }

    /** invoke_for_dummy for a message with a numeric key `id`. */
    method InvokeForDummy(id: nat, verdict: Verdict, cause: nat)
      requires SoupsKnown(View())
      modifies this
      ensures View() == Receive(old(View()), id, verdict, cause)
    {
      var i := 0;
      while i < |letters|
        invariant 0 <= i <= |letters| && View() == old(View())
        invariant forall j :: 0 <= j < i ==> letters[j].id != id
      {
        var du := letters[i];
        if du.id == id {
          match verdict {
            case Accept =>
              soups := soups[du.soup := soups[du.soup].(state := Result)];
              log := log + [Settled(du.soup, du.serial, Granted, Some(cause))];
            case Reject =>
              soups := soups[du.soup := soups[du.soup].(state := Error)];
              log := log + [Settled(du.soup, du.serial, Refused, Some(cause))];
            case Neither =>
          }
          soups := soups[du.soup := soups[du.soup].(id := 0)];
          letters := letters[..i] + letters[i + 1..];
          return;
        }
        i := i + 1;
      }
    }

    /** on_timeout for the timer of letter `k`. */
    method OnTimeout(k: nat)
      requires SoupsKnown(View()) && k < |letters|
      modifies this
      ensures View() == Expire(old(View()), k)
    {
      var s := letters[k].soup;
      soups := soups[s := soups[s].(state := Error)];
      log := log + [Settled(s, letters[k].serial, TimedOut, None)];
      var i := 0;
      while i < |letters| && letters[i].id != soups[s].id
        invariant 0 <= i <= |letters|
        invariant forall j :: 0 <= j < i ==> letters[j].id != soups[s].id
      {
        i := i + 1;
      }
      if i == |letters| {
        return;
      }
      letters := letters[..i] + letters[i + 1..];
      soups := soups[s := soups[s].(id := 0)];
    }

    /** pending_close: letters and timers go, no callback is called. */
    method PendingClose()
      modifies this
      ensures letters == [] && soups == old(soups) && log == old(log)
    {
      while letters != []
        invariant soups == old(soups) && log == old(log)
        decreases |letters|
      {
        letters := letters[1..];
      }
    }
  }
}
