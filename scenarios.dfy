/** End-to-end scenarios of the model, proved as lemmas: two peers discovering each other in a room,
    and an idle member reaped together with its room. */
module Scenarios {
  import opened Messages
  import opened Registry
  import RoomNames
  import opened Handler
  import RegistryLaws
  import Membership

  function SubscribeFrame(channel: string): WebSocketMessage {
    WebSocketMessage(MessageTypeSubscribe, channel, "", None, None)
  }

  function PublishFrame(channel: string, data: Json): WebSocketMessage {
    WebSocketMessage(MessageTypePublish, channel, "", Some(data), None)
  }

  /** A subscribe frame without an event from a registered client, for a
      valid room name with room to spare, is a silent join of the wildcard. */
  lemma SilentJoin(s: State, maxRoomUsers: int, id: string, channel: string)
    requires id in s.clients && RoomNames.ValidateRoomName(channel).0
    requires channel in s.rooms ==> |s.rooms[channel].clientIds| < maxRoomUsers
    requires channel !in s.rooms ==> maxRoomUsers >= 1
    ensures var h := Handle(s, maxRoomUsers, id, id, SubscribeFrame(channel), {});
      && h == Handled(Subscribe(s, maxRoomUsers, id, channel, SignalAll).state, [], {}, None)
      && Subscribe(s, maxRoomUsers, id, channel, SignalAll).status == Ok
  {
    assert Route(SubscribeFrame(channel), id) == Join(channel, SignalAll);
  }

  /** A publish frame without an event, on a named channel, carrying an
      object, is posted to the wildcard with the object stamped. */
  lemma PostRoute(channel: string, fields: map<string, Json>, userId: string)
    requires channel != ""
    ensures Route(PublishFrame(channel, JObject(fields)), userId) == Post(channel, SignalAll, JObject(WithAuthor(fields, userId)))
  {
  }

  /** Both room names of the scenarios pass the name check. */
  lemma ScenarioNamesValid()
    ensures RoomNames.ValidateRoomName("demo").0
    ensures RoomNames.ValidateRoomName("demo room").0 && |"demo room"| == 9
  {
  }

  /** Two connections `a` and `b` join the same room (such as "demo") without
      naming an event, each without a reply: both are members, `a` lists the
      room, and `b` listens to the wildcard. */
  lemma BothJoin(maxRoomUsers: int, now: int, a: string, b: string, room: string)
    requires maxRoomUsers >= 2 && a != b && RoomNames.ValidateRoomName(room).0
    ensures
      var s0 := AddClient(AddClient(Empty(), AuthenticatedClient(a, now)), AuthenticatedClient(b, now));
      var ha := Handle(s0, maxRoomUsers, a, a, SubscribeFrame(room), {});
      var hb := Handle(ha.state, maxRoomUsers, b, b, SubscribeFrame(room), {});
      && ha.replies == [] && hb.replies == []
      && hb.state.clients.Keys == {a, b}
      && room in hb.state.rooms && hb.state.rooms[room].clientIds == {a, b}
      && room in hb.state.clients[a].rooms
      && SignalAll in hb.state.clients[b].events
  {
    var s0 := AddClient(AddClient(Empty(), AuthenticatedClient(a, now)), AuthenticatedClient(b, now));
    SilentJoin(s0, maxRoomUsers, a, room);
    var sa := Subscribe(s0, maxRoomUsers, a, room, SignalAll).state;
    SilentJoin(sa, maxRoomUsers, b, room);
  }

  /** In their room, `a` publishes an object with no author: `b` alone is
      handed one frame, of type "message", whose data is the object stamped
      with `a`'s user id; `a` is sent nothing and, with every write
      succeeding, the registry is unchanged. */
  lemma DiscoverInRoom(s: State, maxRoomUsers: int, a: string, b: string, room: string)
    requires a != b && s.clients.Keys == {a, b} && room != ""
    requires room in s.rooms && s.rooms[room].clientIds == {a, b}
    requires room in s.clients[a].rooms && SignalAll in s.clients[b].events
    ensures
      var discover := JObject(map["type" := JString("discover")]);
      var p := Handle(s, maxRoomUsers, a, a, PublishFrame(room, discover), {});
      && p.replies == []
      && p.delivered == {b}
      && p.state == s
      && p.broadcast == Some(NewWebSocketMessage(MessageTypeMessage, room, SignalAll,
                                                 Some(JObject(map["type" := JString("discover"), FromKey := JString(a)]))))
  {
    var discover := JObject(map["type" := JString("discover")]);
    var stamped := map["type" := JString("discover"), FromKey := JString(a)];
    assert WithAuthor(discover.fields, a) == stamped;
    PostRoute(room, discover.fields, a);
    assert Recipients(s, a, SignalAll, {a, b}) == {b};
    RegistryLaws.BroadcastNone(s, a, room, SignalAll, {});
    RegistryLaws.BroadcastSkip(s, a, room, SignalAll, {}, {}, a);
    RegistryLaws.BroadcastSkip(s, a, room, SignalAll, {}, {a}, b);
    assert {a} + {b} == {a, b};
    assert {} + {a} == {a};
    assert Broadcast(s, a, room, SignalAll, {}, {a}) == s;
    assert Broadcast(s, a, room, SignalAll, {}, {a, b}) == s;
    var pub := Publish(s, a, room, SignalAll, JObject(stamped), {});
    assert pub.status == Ok;
    assert pub.state == s;
    assert pub.delivered == {b};
    var h := Handle(s, maxRoomUsers, a, a, PublishFrame(room, discover), {});
    assert h == Handled(pub.state, [], pub.delivered, Some(pub.frame));
  }

  /** A connection joins a room (such as "demo room") and is its only member. */
  lemma QuietJoin(maxRoomUsers: int, joinedAt: int, a: string, room: string)
    requires maxRoomUsers >= 1 && RoomNames.ValidateRoomName(room).0
    ensures var h := Handle(AddClient(Empty(), AuthenticatedClient(a, joinedAt)), maxRoomUsers, a, a, SubscribeFrame(room), {});
      && h.replies == []
      && h.state.clients.Keys == {a} && h.state.clients[a].lastPing == joinedAt
      && h.state.clients[a].rooms == {room}
      && h.state.rooms.Keys == {room} && h.state.rooms[room] == Room(room, {a})
  {
    var s0 := AddClient(Empty(), AuthenticatedClient(a, joinedAt));
    SilentJoin(s0, maxRoomUsers, a, room);
  }

  /** The member then goes quiet. Within the timeout the room keeps its one
      member; once the timeout has passed, the sweep removes the client and
      the room with it. */
  lemma IdleMemberReaped(s: State, maxRoomUsers: int, a: string, room: string, joinedAt: int, later: int)
    requires s.clients.Keys == {a} && s.clients[a].lastPing == joinedAt && s.clients[a].rooms == {room}
    requires s.rooms.Keys == {room} && s.rooms[room] == Room(room, {a})
    requires later > joinedAt + InactivityTimeout
    ensures GetRoomInfo(s, maxRoomUsers, room) == Some(RoomInfo(room, 1, maxRoomUsers))
    ensures Sweep(s, joinedAt + InactivityTimeout) == s
    ensures Sweep(s, later) == Empty()
  {
    assert Inactive(s, joinedAt + InactivityTimeout) == {};
    RegistryLaws.RemoveClientsNone(s);
    assert Inactive(s, later) == {a};
    assert Evictions(s, {a}) == {(a, room)};
    assert Membership.Leaving(Evictions(s, {a}), room) == {a};
    assert Sweep(s, later).rooms == map[];
  }
}
