/** What the worker does with a message, told by the name of its method and the messages before it. */
module Methods {
  import opened Options
  import opened Worker

  /** Names that are known and lead to a room, but that a room refuses. */
  const UNFINISHED: set<string> := {
    "peer.close", "peer.dump", "peer.setCapabilities", "peer.createTransport", "peer.createRtpReceiver",
    "transport.close", "transport.dump", "transport.setRemoteDtlsParameters", "transport.setMaxBitrate",
    "transport.changeUfragPwd", "rtpReceiver.close", "rtpReceiver.dump", "rtpReceiver.receive",
    "rtpReceiver.setTransport", "rtpReceiver.setRtpRawEvent", "rtpReceiver.setRtpObjectEvent",
    "rtpSender.dump", "rtpSender.setTransport", "rtpSender.disable"}

  predicate Says(m: Incoming, name: string) {
    m.Json? && m.id.Some? && m.name == Some(name)
  }

  /** The last message about the room was to create it. */
  predicate Open(ms: seq<Incoming>, room: nat) {
    ms != [] &&
    var m := ms[|ms| - 1];
    if Says(m, "worker.createRoom") && m.roomId == Some(room) then true
    else if Says(m, "room.close") && m.roomId == Some(room) then false
    else Open(ms[..|ms| - 1], room)
  }

  /** What a room answers. */
  function RoomAnswer(name: string, id: nat, room: nat): seq<Outgoing> {
    if name == "room.close" then [CloseEvent(room), Accepted(id)]
    else if name == "room.dump" || name == "room.createPeer" || name == "room.setAudioLevelsEvent" then [Accepted(id)]
    else [Rejected(id, "unknown method")]
  }

  predicate ToRoom(name: string) {
    name in UNFINISHED || name == "room.close" || name == "room.dump" || name == "room.createPeer" ||
    name == "room.setAudioLevelsEvent"
  }

  /** What is sent for a message behind the messages `ms`. */
  function Response(ms: seq<Incoming>, m: Incoming): seq<Outgoing> {
    if !m.Json? || m.id.None? || m.name.None? || m.name == Some("worker.updateSettings") then []
    else if m.name == Some("worker.dump") then [Accepted(m.id.value)]
    else if m.name != Some("worker.createRoom") && !ToRoom(m.name.value) then [Rejected(m.id.value, "method not allowed")]
    else if m.roomId.None? then [Rejected(m.id.value, "Request has not numeric internal.roomId")]
    else if m.name == Some("worker.createRoom") then
      [if Open(ms, m.roomId.value) then Rejected(m.id.value, "Room already exists") else Accepted(m.id.value)]
    else if !Open(ms, m.roomId.value) then [Rejected(m.id.value, "Room does not exist")]
    else RoomAnswer(m.name.value, m.id.value, m.roomId.value)
  }

  // The table of methods by name.

  /** Names of the same length differ in one of these places. */
  lemma NamesDiffer()
    ensures "room.close" != "peer.close" && "room.dump" != "peer.dump" && "room.createPeer" != "transport.close"
    ensures "worker.createRoom" != "rtpReceiver.close" && "worker.createRoom" != "rtpSender.disable"
    ensures "room.setAudioLevelsEvent" != "transport.changeUfragPwd"
    ensures "room.setAudioLevelsEvent" != "rtpReceiver.setTransport"
  {
    assert "room.close"[0] != "peer.close"[0] && "room.dump"[0] != "peer.dump"[0];
    assert "room.createPeer"[0] != "transport.close"[0];
    assert "worker.createRoom"[0] != "rtpReceiver.close"[0] && "worker.createRoom"[0] != "rtpSender.disable"[0];
    assert "room.setAudioLevelsEvent"[0] != "transport.changeUfragPwd"[0];
    assert "room.setAudioLevelsEvent"[1] != "rtpReceiver.setTransport"[1];
  }

  lemma KnownNames()
    ensures METHODS.Keys == UNFINISHED + {"worker.dump", "worker.updateSettings", "worker.createRoom", "room.close",
                                          "room.dump", "room.createPeer", "room.setAudioLevelsEvent"}
  {
  }

  lemma DumpMethod()
    ensures METHODS["worker.dump"] == WorkerDump
  {
    NamesDiffer();
  }

  lemma SettingsMethod()
    ensures METHODS["worker.updateSettings"] == WorkerUpdateSettings
  {
    NamesDiffer();
  }

  lemma CreateMethod()
    ensures METHODS["worker.createRoom"] == WorkerCreateRoom
  {
    NamesDiffer();
  }

  lemma CloseMethod()
    ensures METHODS["room.close"] == RoomClose
  {
    NamesDiffer();
  }

  lemma RoomDumpMethod()
    ensures METHODS["room.dump"] == RoomDump
  {
    NamesDiffer();
  }

  lemma PeerMethod()
    ensures METHODS["room.createPeer"] == RoomCreatePeer
  {
    NamesDiffer();
  }

  lemma AudioMethod()
    ensures METHODS["room.setAudioLevelsEvent"] == RoomSetAudioLevelsEvent
  {
    NamesDiffer();
  }

  lemma OtherMethods(name: string)
    requires name in UNFINISHED
    ensures name in METHODS
    ensures !Special(METHODS[name])
  {
  }

  predicate Special(id: MethodId) {
    id in {WorkerDump, WorkerUpdateSettings, WorkerCreateRoom, RoomClose, RoomDump, RoomCreatePeer, RoomSetAudioLevelsEvent}
  }

  lemma MethodOf(name: string)
    ensures name in METHODS <==>
              name == "worker.dump" || name == "worker.updateSettings" || name == "worker.createRoom" || ToRoom(name)
    ensures name in METHODS ==>
              && (METHODS[name] == WorkerDump <==> name == "worker.dump")
              && (METHODS[name] == WorkerUpdateSettings <==> name == "worker.updateSettings")
              && (METHODS[name] == WorkerCreateRoom <==> name == "worker.createRoom")
              && (METHODS[name] == RoomClose <==> name == "room.close")
              && (METHODS[name] in {RoomDump, RoomCreatePeer, RoomSetAudioLevelsEvent} <==>
                    name == "room.dump" || name == "room.createPeer" || name == "room.setAudioLevelsEvent")
  {
    hide METHODS, UNFINISHED;
    KnownNames();
    DumpMethod();
    SettingsMethod();
    CreateMethod();
    CloseMethod();
    RoomDumpMethod();
    PeerMethod();
    AudioMethod();
    if name in UNFINISHED {
      OtherMethods(name);
    }
  }

  // Every run.

  lemma ServeRooms(rooms: set<nat>, m: Incoming, room: nat)
    ensures room in Serve(rooms, m).0 <==>
              if Says(m, "worker.createRoom") && m.roomId == Some(room) then true
              else if Says(m, "room.close") && m.roomId == Some(room) then false
              else room in rooms
  {
    hide METHODS, UNFINISHED;
    if m.Json? && m.name.Some? {
      MethodOf(m.name.value);
    }
  }

  /** A room is in the map after a run of messages exactly when it is open by their names and room ids. */
  lemma {:induction false} RoomsByName(ms: seq<Incoming>, room: nat)
    ensures room in RoomsAfter({}, ms) <==> Open(ms, room)
  {
    hide Serve, Says;
    if ms != [] {
      var n := |ms| - 1;
      RoomsByName(ms[..n], room);
      RunSnoc({}, ms[..n], ms[n]);
      assert ms == ms[..n] + [ms[n]];
      ServeRooms(RoomsAfter({}, ms[..n]), ms[n], room);
    }
  }

  lemma RoomReplies(name: string, id: nat, room: nat)
    requires name in METHODS && ToRoom(name)
    ensures RoomReply(room, METHODS[name], id) == RoomAnswer(name, id, room)
  {
    hide METHODS, UNFINISHED, ToRoom;
    MethodOf(name);
  }

  lemma ServeAnswers(rooms: set<nat>, ms: seq<Incoming>, m: Incoming)
    requires m.Json? && m.roomId.Some? ==> (m.roomId.value in rooms <==> Open(ms, m.roomId.value))
    ensures Serve(rooms, m).1 == Response(ms, m)
  {
    hide METHODS, UNFINISHED, Open, ToRoom, RoomReply, RoomAnswer;
    if m.Json? && m.name.Some? {
      MethodOf(m.name.value);
      if ToRoom(m.name.value) && m.id.Some? && m.roomId.Some? {
        RoomReplies(m.name.value, m.id.value, m.roomId.value);
      }
    }
  }

  /** What is sent for each message of a run: which are accepted and refused, and why, by the names of the
      methods and of the messages before. */
  lemma AnswersByName(ms: seq<Incoming>, m: Incoming)
    ensures SentBy({}, ms + [m]) == SentBy({}, ms) + Response(ms, m)
  {
    hide Response, Serve;
    RunSnoc({}, ms, m);
    if m.Json? && m.roomId.Some? {
      RoomsByName(ms, m.roomId.value);
    }
    ServeAnswers(RoomsAfter({}, ms), ms, m);
  }
}
