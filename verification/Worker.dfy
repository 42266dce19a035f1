/** The mediasoup worker: request parsing and replies (Request.cpp), dispatch and the room map
    (Loop.cpp), and room closing (Room.cpp). */
module Worker {
  import opened Options
  import opened Sequences

  datatype MethodId =
    | WorkerDump | WorkerUpdateSettings | WorkerCreateRoom
    | RoomClose | RoomDump | RoomCreatePeer | RoomSetAudioLevelsEvent
    | PeerClose | PeerDump | PeerSetCapabilities | PeerCreateTransport | PeerCreateRtpReceiver
    | TransportClose | TransportDump | TransportSetRemoteDtlsParameters | TransportSetMaxBitrate
    | TransportChangeUfragPwd
    | RtpReceiverClose | RtpReceiverDump | RtpReceiverReceive | RtpReceiverSetTransport
    | RtpReceiverSetRtpRawEvent | RtpReceiverSetRtpObjectEvent
    | RtpSenderDump | RtpSenderSetTransport | RtpSenderDisable

  const METHODS: map<string, MethodId> := map[
    "worker.dump" := WorkerDump,
    "worker.updateSettings" := WorkerUpdateSettings,
    "worker.createRoom" := WorkerCreateRoom,
    "room.close" := RoomClose,
    "room.dump" := RoomDump,
    "room.createPeer" := RoomCreatePeer,
    "room.setAudioLevelsEvent" := RoomSetAudioLevelsEvent,
    "peer.close" := PeerClose,
    "peer.dump" := PeerDump,
    "peer.setCapabilities" := PeerSetCapabilities,
    "peer.createTransport" := PeerCreateTransport,
    "peer.createRtpReceiver" := PeerCreateRtpReceiver,
    "transport.close" := TransportClose,
    "transport.dump" := TransportDump,
    "transport.setRemoteDtlsParameters" := TransportSetRemoteDtlsParameters,
    "transport.setMaxBitrate" := TransportSetMaxBitrate,
    "transport.changeUfragPwd" := TransportChangeUfragPwd,
    "rtpReceiver.close" := RtpReceiverClose,
    "rtpReceiver.dump" := RtpReceiverDump,
    "rtpReceiver.receive" := RtpReceiverReceive,
    "rtpReceiver.setTransport" := RtpReceiverSetTransport,
    "rtpReceiver.setRtpRawEvent" := RtpReceiverSetRtpRawEvent,
    "rtpReceiver.setRtpObjectEvent" := RtpReceiverSetRtpObjectEvent,
    "rtpSender.dump" := RtpSenderDump,
    "rtpSender.setTransport" := RtpSenderSetTransport,
    "rtpSender.disable" := RtpSenderDisable]

  /** What arrives: no JSON; JSON whose root has no fields, which is neither an object nor null; or JSON whose
      fields are looked at, a field being None when it is missing or of the wrong type. */
  datatype Incoming = NotJson | NoFields | Json(id: Option<nat>, name: Option<string>, roomId: Option<nat>)

  /** What the worker sends back. */
  datatype Outgoing =
    | Accepted(id: nat)
    | Rejected(id: nat, reason: string)
    | CloseEvent(targetId: nat)

  predicate IsReply(o: Outgoing) {
    !o.CloseEvent?
  }

  /** Loop::OnChannelRequest: the fate of the set of room ids, and the messages sent. */
  function Dispatch(rooms: set<nat>, m: MethodId, id: nat, roomId: Option<nat>): (set<nat>, seq<Outgoing>) {
    match m
    case WorkerDump => (rooms, [Accepted(id)])
    case WorkerUpdateSettings => (rooms, [])
    case WorkerCreateRoom =>
      if roomId.None? then (rooms, [Rejected(id, "Request has not numeric internal.roomId")])
      else if roomId.value in rooms then (rooms, [Rejected(id, "Room already exists")])
      else (rooms + {roomId.value}, [Accepted(id)])
    case _ =>
      if roomId.None? then (rooms, [Rejected(id, "Request has not numeric internal.roomId")])
      else if roomId.value !in rooms then (rooms, [Rejected(id, "Room does not exist")])
      else (rooms - (if m == RoomClose then {roomId.value} else {}), RoomReply(roomId.value, m, id))
  }

  /** Room::HandleRequest: the messages sent. */
  function RoomReply(roomId: nat, m: MethodId, id: nat): seq<Outgoing> {
    match m
    case RoomClose => [CloseEvent(roomId), Accepted(id)]
    case RoomDump => [Accepted(id)]
    case RoomCreatePeer => [Accepted(id)]
    case RoomSetAudioLevelsEvent => [Accepted(id)]
    case _ => [Rejected(id, "unknown method")]
  }

  /** The same for whatever arrives: what is no request is dropped, an unknown method is refused. */
  function Serve(rooms: set<nat>, m: Incoming): (set<nat>, seq<Outgoing>) {
    if !m.Json? || m.id.None? || m.name.None? then (rooms, [])
    else if m.name.value !in METHODS then (rooms, [Rejected(m.id.value, "method not allowed")])
    else Dispatch(rooms, METHODS[m.name.value], m.id.value, m.roomId)
  }

  /** The request is understood and its method is one that answers. */
  predicate Answerable(m: Incoming) {
    m.Json? && m.id.Some? && m.name.Some? && m.name.value != "worker.updateSettings"
  }

  function Replies(out: seq<Outgoing>): seq<Outgoing> {
    if out == [] then []
    else (if IsReply(out[0]) then [out[0]] else []) + Replies(out[1..])
  }

  /** A request is answered exactly once, with its own id, if and only if it is answerable;
      nothing else is ever answered. */
  lemma AnsweredOnce(rooms: set<nat>, m: Incoming)
    ensures var replies := Replies(Serve(rooms, m).1);
            if Answerable(m) then |replies| == 1 && IsReply(replies[0]) && replies[0].id == m.id.value else replies == []
  {
    var out := Serve(rooms, m).1;
    assert |out| > 0 ==> Replies(out) == (if IsReply(out[0]) then [out[0]] else []) + Replies(out[1..]);
    assert |out| > 1 ==> Replies(out[1..]) == [out[1]] + Replies(out[1..][1..]);
  }

  // Runs of requests, and the rooms they leave.

  /** This message creates the room / closes the room. */
  function Creates(rooms: set<nat>, m: Incoming, room: nat): nat {
    if room !in rooms && room in Serve(rooms, m).0 then 1 else 0
  }

  function CloseEvents(out: seq<Outgoing>, room: nat): nat {
    if out == [] then 0
    else (if out[0] == CloseEvent(room) then 1 else 0) + CloseEvents(out[1..], room)
  }

  lemma {:induction false} CloseEventsJoin(a: seq<Outgoing>, b: seq<Outgoing>, room: nat)
    ensures CloseEvents(a + b, room) == CloseEvents(a, room) + CloseEvents(b, room)
  {
    if a == [] {
      assert a + b == b;
    } else {
      CloseEventsJoin(a[1..], b, room);
      assert (a + b)[1..] == a[1..] + b;
    }
  }

  function RoomsAfter(rooms: set<nat>, ms: seq<Incoming>): set<nat>
    decreases |ms|
  {
    if ms == [] then rooms else RoomsAfter(Serve(rooms, ms[0]).0, ms[1..])
  }

  function SentBy(rooms: set<nat>, ms: seq<Incoming>): seq<Outgoing>
    decreases |ms|
  {
    if ms == [] then [] else Serve(rooms, ms[0]).1 + SentBy(Serve(rooms, ms[0]).0, ms[1..])
  }

  function Creations(rooms: set<nat>, ms: seq<Incoming>, room: nat): nat
    decreases |ms|
  {
    if ms == [] then 0
    else Creates(rooms, ms[0], room) + Creations(Serve(rooms, ms[0]).0, ms[1..], room)
  }

  function Present(rooms: set<nat>, room: nat): nat {
    if room in rooms then 1 else 0
  }

  lemma ServeConserves(rooms: set<nat>, m: Incoming, room: nat)
    ensures var (next, out) := Serve(rooms, m);
            Present(rooms, room) + Creates(rooms, m, room) == Present(next, room) + CloseEvents(out, room)
  {
    var (next, out) := Serve(rooms, m);
    assert |out| == 2 ==> out == [out[0]] + [out[1]];
    if |out| == 2 {
      CloseEventsJoin([out[0]], [out[1]], room);
    }
  }

  /** Conservation: a room's creations are its close events, plus one while it is in the map. */
  lemma {:induction false} RoomsConserved(rooms: set<nat>, ms: seq<Incoming>, room: nat)
    ensures Present(rooms, room) + Creations(rooms, ms, room) ==
              Present(RoomsAfter(rooms, ms), room) + CloseEvents(SentBy(rooms, ms), room)
    decreases |ms|
  {
    if ms != [] {
      var (next, out) := Serve(rooms, ms[0]);
      ServeConserves(rooms, ms[0], room);
      RoomsConserved(next, ms[1..], room);
      CloseEventsJoin(out, SentBy(next, ms[1..]), room);
    }
  }

  /** A run followed by closing what is left: every room created has exactly one close event. */
  lemma EveryRoomClosedOnce(ms: seq<Incoming>, closing: seq<Outgoing>, room: nat)
    requires CloseEvents(closing, room) == Present(RoomsAfter({}, ms), room)
    ensures CloseEvents(SentBy({}, ms) + closing, room) == Creations({}, ms, room)
  {
    RoomsConserved({}, ms, room);
    CloseEventsJoin(SentBy({}, ms), closing, room);
  }

  lemma {:induction false} RunSnoc(rooms: set<nat>, ms: seq<Incoming>, m: Incoming)
    ensures RoomsAfter(rooms, ms + [m]) == Serve(RoomsAfter(rooms, ms), m).0
    ensures SentBy(rooms, ms + [m]) == SentBy(rooms, ms) + Serve(RoomsAfter(rooms, ms), m).1
    decreases |ms|
  {
    if ms == [] {
      assert ms + [m] == [m] && [m][1..] == [];
    } else {
      RunSnoc(Serve(rooms, ms[0]).0, ms[1..], m);
      assert (ms + [m])[1..] == ms[1..] + [m];
    }
  }

  /** One close event for each of these rooms, and none for another. */
  ghost predicate ClosesEach(events: seq<Outgoing>, gone: set<nat>) {
    forall k :: CloseEvents(events, k) == Present(gone, k)
  }

  lemma OneMoreClosed(events: seq<Outgoing>, all: set<nat>, left: set<nat>, it: nat)
    requires it in left && left <= all && ClosesEach(events, all - left)
    ensures ClosesEach(events + [CloseEvent(it)], all - (left - {it}))
  {
    forall k
      ensures CloseEvents(events + [CloseEvent(it)], k) == Present(all - (left - {it}), k)
    {
      CloseEventsJoin(events, [CloseEvent(it)], k);
      assert CloseEvents([CloseEvent(it)], k) == if k == it then 1 else 0;
    }
  }

  /** RTC::Room; `alive` turns false when the object deletes itself. */
  class Room {
    const roomId: nat
    var alive: bool

    constructor (roomId: nat)
      ensures this.roomId == roomId && alive
    {
      this.roomId, alive := roomId, true;
    }
  }

  /** Channel::Request */
  class Request {
    const id: nat
    const methodId: MethodId
    const roomId: Option<nat>
    var replied: bool

    constructor (id: nat, methodId: MethodId, roomId: Option<nat>)
      ensures this.id == id && this.methodId == methodId && this.roomId == roomId && !replied
    {
      this.id, this.methodId, this.roomId, replied := id, methodId, roomId, false;
    }
  }

  class Loop {
    var rooms: map<nat, Room>
    var closed: bool
    var sent: seq<Outgoing> // what was fired into from_cpp, in order

    /** The map holds live rooms under their own ids. */
    ghost predicate Valid()
      reads this, rooms.Values
    {
      Alive() && (closed ==> rooms == map[])
    }

    ghost predicate Alive()
      reads this, rooms.Values
    {
      forall k :: k in rooms ==> rooms[k].roomId == k && rooms[k].alive
    }

    constructor ()
      ensures Valid() && rooms == map[] && sent == [] && !closed
    {
      rooms, closed, sent := map[], false, [];
    }

    /** Request::Accept; a second reply would fail its assertion. */
    method Accept(request: Request)
      requires !request.replied
      modifies this`sent, request
      ensures request.replied && sent == old(sent) + [Accepted(request.id)]
    {
      request.replied := true;
      sent := sent + [Accepted(request.id)];
    }

    method Reject(request: Request, reason: string)
      modifies this`sent, request
      ensures request.replied && sent == old(sent) + [Rejected(request.id, reason)]
    {
      request.replied := true;
      sent := sent + [Rejected(request.id, reason)];
    }

    method OnRoomClosed(room: Room)
      modifies this`rooms
      ensures rooms == old(rooms) - {room.roomId}
    {
      rooms := rooms - {room.roomId};
    }

    /** Room::Destroy: notify, tell the listener, delete. */
    method Destroy(room: Room)
      requires room.alive
      modifies this`rooms, this`sent, room
      ensures !room.alive && rooms == old(rooms) - {room.roomId}
      ensures sent == old(sent) + [CloseEvent(room.roomId)]
    {
      sent := sent + [CloseEvent(room.roomId)];
      OnRoomClosed(room);
      room.alive := false;
    }

    /** Room::HandleRequest */
    method HandleRequest(room: Room, request: Request)
      requires Valid() && !request.replied && room.roomId in rooms && rooms[room.roomId] == room
      modifies this`rooms, this`sent, room, request
      ensures Valid() && request.replied
      ensures rooms == old(rooms) - (if request.methodId == RoomClose then {room.roomId} else {})
      ensures sent == old(sent) + RoomReply(room.roomId, request.methodId, request.id)
    {
      if request.methodId == RoomClose {
        assert forall k :: k in rooms && k != room.roomId ==> rooms[k] != room;
        Destroy(room);
        Accept(request);
      } else if request.methodId in {RoomDump, RoomCreatePeer, RoomSetAudioLevelsEvent} {
        Accept(request);
        assert rooms == old(rooms) - {};
      } else {
        Reject(request, "unknown method");
        assert rooms == old(rooms) - {};
      }
    }

    /** Loop::OnChannelRequest with GetRoomFromRequest. */
    method OnChannelRequest(request: Request)
      requires Valid() && !closed && !request.replied
      modifies this`rooms, this`sent, rooms.Values, request
      ensures Valid() && !closed && fresh(rooms.Values - old(rooms.Values))
      ensures rooms.Keys == Dispatch(old(rooms.Keys), request.methodId, request.id, request.roomId).0
      ensures sent == old(sent) + Dispatch(old(rooms.Keys), request.methodId, request.id, request.roomId).1
    {
      if request.methodId == WorkerDump {
        Accept(request);
      } else if request.methodId == WorkerUpdateSettings {
      } else if request.methodId == WorkerCreateRoom {
        match request.roomId {
          case None =>
            Reject(request, "Request has not numeric internal.roomId");
          case Some(roomId) =>
            if roomId in rooms {
              Reject(request, "Room already exists");
            } else {
              var room := new Room(roomId);
              rooms := rooms[roomId := room];
              Accept(request);
            }
        }
      } else {
        match request.roomId {
          case None =>
            Reject(request, "Request has not numeric internal.roomId");
          case Some(roomId) =>
            if roomId !in rooms {
              Reject(request, "Room does not exist");
            } else {
              HandleRequest(rooms[roomId], request);
            }
        }
      }
    }

    /** UnixStreamSocket::UserOnUnixStreamRead with the constructor of Request. Asking for a field of a root
        that has none throws an exception that nobody catches. */
    method UserOnUnixStreamRead(m: Incoming) returns (thrown: bool)
      requires Valid() && !closed
      modifies this`rooms, this`sent, rooms.Values
      ensures Valid() && !closed && fresh(rooms.Values - old(rooms.Values))
      ensures rooms.Keys == Serve(old(rooms.Keys), m).0
      ensures sent == old(sent) + Serve(old(rooms.Keys), m).1
      ensures thrown <==> m.NoFields?
    {
      thrown := m.NoFields?;
      if m.Json? && m.id.Some? && m.name.Some? {
        if m.name.value in METHODS {
          var request := new Request(m.id.value, METHODS[m.name.value], m.roomId);
          OnChannelRequest(request);
        } else {
          sent := sent + [Rejected(m.id.value, "method not allowed")];
        }
      }
    }

    /** One round of Loop::Close: erase first, then let the room close itself, which erases again. */
    method CloseOne(it: nat)
      requires it in rooms && Alive()
      modifies this`rooms, this`sent, rooms[it]
      ensures rooms == old(rooms) - {it} && Alive()
      ensures rooms.Keys == old(rooms.Keys) - {it} && rooms.Values <= old(rooms.Values)
      ensures sent == old(sent) + [CloseEvent(it)]
    {
      var room := rooms[it];
      rooms := rooms - {it};
      ghost var rest := rooms;
      Destroy(room);
      assert rooms == rest; // the iterator returned by the first erase stays valid
    }

    method CloseRooms() returns (ghost events: seq<Outgoing>)
      requires Alive()
      modifies this`rooms, this`sent, rooms.Values
      ensures rooms == map[] && sent == old(sent) + events && ClosesEach(events, old(rooms.Keys))
    {
      hide ClosesEach, Alive;
      ghost var all := rooms.Keys;
      events := [];
      NoneClosed();
      assert all - all == {};
      while rooms != map[]
        invariant Alive() && rooms.Keys <= all && rooms.Values <= old(rooms.Values)
        invariant sent == old(sent) + events
        invariant ClosesEach(events, all - rooms.Keys)
        decreases rooms.Keys
      {
        var it :| it in rooms;
        OneMoreClosed(events, all, rooms.Keys, it);
        CloseOne(it);
        events := events + [CloseEvent(it)];
      }
      assert rooms.Keys == {} && all - {} == all;
    }

    /** Loop::Close */
    method Close()
      requires Valid()
      modifies this, rooms.Values
      ensures Valid() && closed && rooms == map[]
      ensures old(closed) ==> sent == old(sent)
      ensures old(sent) <= sent && ClosesEach(sent[|old(sent)|..], old(rooms.Keys))
    {
      if closed {
        assert sent[|sent|..] == [];
        return;
      }
      closed := true;
      ghost var events := CloseRooms();
      assert sent[|old(sent)|..] == events;
    }
  }

  lemma NoneClosed()
    ensures ClosesEach([], {})
  {
  }

  /** How many messages are served before one throws. */
  function Survived(ms: seq<Incoming>): (n: nat)
    ensures n <= |ms|
    ensures forall i :: 0 <= i < n ==> !ms[i].NoFields?
    ensures n < |ms| ==> ms[n].NoFields?
  {
    First(ms, (m: Incoming) => m.NoFields?)
  }

  /** The life of a worker: messages are served in order, then the loop is closed; unless one of them throws,
      which ends the process without closing anything. */
  method Session(ms: seq<Incoming>) returns (sent: seq<Outgoing>)
    ensures SentBy({}, ms[..Survived(ms)]) <= sent
    ensures Survived(ms) == |ms| ==> forall k :: CloseEvents(sent, k) == Creations({}, ms, k)
    ensures Survived(ms) < |ms| ==> sent == SentBy({}, ms[..Survived(ms)])
  {
    var loop := new Loop();
    var i := 0;
    while i < |ms|
      invariant 0 <= i <= Survived(ms)
      invariant fresh(loop) && loop.Valid() && !loop.closed && fresh(loop.rooms.Values)
      invariant loop.rooms.Keys == RoomsAfter({}, ms[..i]) && loop.sent == SentBy({}, ms[..i])
    {
      var thrown := loop.UserOnUnixStreamRead(ms[i]);
      if thrown {
        return loop.sent;
      }
      RunSnoc({}, ms[..i], ms[i]);
      assert ms[..i + 1] == ms[..i] + [ms[i]];
      i := i + 1;
    }
    assert ms[..i] == ms;
    loop.Close();
    sent := loop.sent;
    ghost var closing := sent[|SentBy({}, ms)|..];
    forall k
      ensures CloseEvents(sent, k) == Creations({}, ms, k)
    {
      assert sent == SentBy({}, ms) + closing;
      assert ClosesEach(closing, RoomsAfter({}, ms));
      EveryRoomClosedOnce(ms, closing, k);
    }
  }
}
