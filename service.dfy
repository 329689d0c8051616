/** WebSocketService (internal/service/websocket.go): the two maps the source
    updates in place, and its operations with their loops. Every mutating
    method is proved to produce exactly the state the matching function of
    module Registry describes, and to keep the registry invariant. */
module Service {
  import opened Messages
  import opened Membership
  import opened Registry
  import RoomNames
  import RegistryLaws

  class WebSocketService {
    var clients: map<string, Client>
    var rooms: map<string, Room>
    const maxRoomUsers: int

    /** The registry as a value. */
    function Snapshot(): Registry.State
      reads this
    {
      Registry.State(clients, rooms)
    }

    /** Each client is filed under its own id and each room under its own
        name: the source only ever inserts under those keys. */
    ghost predicate Valid()
      reads this
    {
      KeysMatch(Snapshot())
    }

    /** The membership invariant of the registry. */
    ghost predicate Healthy()
      reads this
    {
      Inv(Snapshot())
    }

    /** NewWebSocketService; the maintenance goroutine is the separate
        method CleanupInactiveClients. */
    constructor (maxRoomUsers: int)
      ensures Snapshot() == Empty() && Valid() && Healthy()
      ensures this.maxRoomUsers == maxRoomUsers
    {
      clients := map[];
      rooms := map[];
      this.maxRoomUsers := maxRoomUsers;
    }

    method AddClient(client: Client)
      modifies this
      requires Valid()
      ensures Snapshot() == Registry.AddClient(old(Snapshot()), client) && Valid()
      ensures old(Healthy()) && client.id !in old(clients) && client.rooms == {} ==> Healthy()
    {
      clients := clients[client.id := client];
      if old(Healthy()) && client.id !in old(clients) && client.rooms == {} {
        RegistryLaws.AddClientPreservesInv(old(Snapshot()), client);
      }
    }

    method GetClient(id: string) returns (client: Option<Client>)
      ensures client == Registry.GetClient(Snapshot(), id)
    {
      if id in clients {
        client := Some(clients[id]);
      } else {
        client := None;
      }
    }

    /** RemoveClient: the client leaves the map first, then its rooms. */
    method RemoveClient(id: string)
      modifies this
      requires Valid()
      ensures Snapshot() == Registry.RemoveClient(old(Snapshot()), id) && Valid()
      ensures old(Healthy()) ==> Healthy()
    {
      if id !in clients {
        return;
      }
      var client := clients[id];
      clients := clients - {id};
      CleanupClientResources(client);
      if old(Healthy()) {
        RegistryLaws.RemoveClientPreservesInv(old(Snapshot()), id);
      }
    }

    /** cleanupClientResources: a full leave of every room the (already
        unregistered) client lists. */
    method CleanupClientResources(client: Client)
      requires client.id !in clients
      modifies this
      ensures clients == old(clients)
      ensures rooms == DropMemberships(old(rooms), Departures(client.id, client.rooms))
    {
      var roomsToCleanup := client.rooms;
      ghost var done: set<string> := {};
      assert Departures(client.id, {}) == {};
      DropNothing(rooms);
      while roomsToCleanup != {}
        invariant clients == old(clients)
        invariant roomsToCleanup + done == client.rooms && roomsToCleanup !! done
        invariant rooms == DropMemberships(old(rooms), Departures(client.id, done))
        decreases |roomsToCleanup|
      {
        var name :| name in roomsToCleanup;
        ghost var before := rooms;
        RemoveClientFromRoom(client.id, name);
        DropOne(before, client.id, name);
        DropCompose(old(rooms), Departures(client.id, done), {(client.id, name)});
        assert Departures(client.id, done) + {(client.id, name)} == Departures(client.id, done + {name});
        roomsToCleanup := roomsToCleanup - {name};
        done := done + {name};
      }
    }

    /** removeClientFromRoom: a full leave of one room. The client, if still
        registered, forgets the room and every event but the wildcard. */
    method RemoveClientFromRoom(id: string, name: string)
      modifies this
      ensures Snapshot() == Leave(old(Snapshot()), id, name)
    {
      if name !in rooms {
        return;
      }
      var room := rooms[name];
      room := room.(clientIds := room.clientIds - {id});
      rooms := rooms[name := room];
      var client := GetClient(id);
      if client.Some? {
        var c := client.value;
        var events := KeepWildcard(c.events);
        assert c.(rooms := c.rooms - {name}, events := events) == LeftRoom(old(clients)[id], name);
        clients := clients[id := c.(rooms := c.rooms - {name}, events := events)];
      }
      if room.clientIds == {} {
        rooms := rooms - {name};
        assert rooms == old(rooms) - {name};
      }
    }

    /** The event loop of removeClientFromRoom: every subscription except the
        wildcard is deleted, whichever room it was taken out for. */
    static method KeepWildcard(events: set<string>) returns (kept: set<string>)
      ensures forall e :: e in kept <==> e in events && e == SignalAll
    {
      kept := events;
      var pending := events;
      while pending != {}
        invariant pending <= events
        invariant kept == pending + events * {SignalAll}
        decreases |pending|
      {
        var event :| event in pending;
        if event != SignalAll {
          kept := kept - {event};
        }
        pending := pending - {event};
      }
    }

    method SubscribeToRoom(id: string, name: string, event: string) returns (status: Status)
      modifies this
      requires Valid()
      ensures Outcome(Snapshot(), status) == Subscribe(old(Snapshot()), maxRoomUsers, id, name, event) && Valid()
      ensures old(Healthy()) ==> Consistent(Snapshot())
      ensures old(Healthy()) && maxRoomUsers >= 1 ==> Healthy()
    {
      var verdict := RoomNames.ValidateRoomName(name);
      if !verdict.0 {
        return Err(verdict.1);
      }
      var client := GetClient(id);
      if client.None? {
        return Err(ErrClientNotFound);
      }
      var room: Room;
      if name in rooms {
        room := rooms[name];
      } else {
        room := NewRoom(name);
        rooms := rooms[name := room];
      }
      assert rooms == old(rooms)[name := room];
      if |room.clientIds| >= maxRoomUsers && id !in room.clientIds {
        status := Err(RoomFullMessage(maxRoomUsers));
      } else {
        rooms := rooms[name := room.(clientIds := room.clientIds + {id})];
        assert rooms == old(rooms)[name := room.(clientIds := room.clientIds + {id})];
        var c := client.value;
        c := c.(rooms := c.rooms + {name});
        if event != "" {
          c := c.(events := c.events + {event});
        } else {
          c := c.(events := c.events + {SignalAll});
        }
        assert c == client.value.(rooms := client.value.rooms + {name}, events := client.value.events + {EventOrDefault(event)});
        clients := clients[id := c];
        status := Ok;
      }
      RegistryLaws.SubscribeKeepsKeys(old(Snapshot()), maxRoomUsers, id, name, event);
      if old(Healthy()) {
        RegistryLaws.SubscribePreservesInv(old(Snapshot()), maxRoomUsers, id, name, event);
      }
    }

    method UnsubscribeFromRoom(id: string, name: string, event: string) returns (status: Status)
      modifies this
      requires Valid()
      ensures Outcome(Snapshot(), status) == Unsubscribe(old(Snapshot()), id, name, event) && Valid()
      ensures old(Healthy()) ==> Healthy()
    {
      var client := GetClient(id);
      if client.None? {
        return Err(ErrClientNotFound);
      }
      if event != "" && event != SignalAll {
        clients := clients[id := client.value.(events := client.value.events - {event})];
        status := Ok;
      } else {
        RemoveClientFromRoom(id, name);
        status := Ok;
      }
      if old(Healthy()) {
        RegistryLaws.UnsubscribePreservesInv(old(Snapshot()), id, name, event);
      }
    }

    /** PublishToRoom. Members are visited in an unspecified order; `failing`
        holds the clients whose connection refuses the write. */
    method PublishToRoom(id: string, name: string, event: string, data: Json, failing: set<string>)
      returns (status: Status, count: nat, delivered: set<string>, frame: WebSocketMessage)
      requires Valid()
      modifies this
      ensures Publication(Snapshot(), status, delivered, frame) == Publish(old(Snapshot()), id, name, event, data, failing)
      ensures count == |delivered| && Valid()
      ensures old(Healthy()) ==> Healthy()
    {
      count, delivered := 0, {};
      frame := NewWebSocketMessage(MessageTypeMessage, name, event, Some(data));
      var client := GetClient(id);
      if client.None? {
        return Err(ErrClientNotFound), count, delivered, frame;
      }
      if name !in client.value.rooms {
        return Err(NotSubscribedMessage(name)), count, delivered, frame;
      }
      if name !in rooms {
        return Err(RoomNotFoundMessage(name)), count, delivered, frame;
      }
      var room := rooms[name];
      ghost var s0 := Snapshot();
      count, delivered := BroadcastToMembers(s0, id, name, event, failing, room.clientIds);
      status := Ok;
      assert Publication(Snapshot(), status, delivered, frame) == Publish(s0, id, name, event, data, failing);
      if old(Healthy()) {
        RegistryLaws.PublishPreservesInv(s0, id, name, event, data, failing);
      }
    }

    /** The broadcast loop of PublishToRoom over the members of the room as
        they were when the loop began. */
    method BroadcastToMembers(ghost s0: Registry.State, id: string, name: string, event: string, failing: set<string>,
                              members: set<string>)
      returns (count: nat, delivered: set<string>)
      requires Snapshot() == s0 && Valid()
      modifies this
      ensures Snapshot() == Broadcast(s0, id, name, event, failing, members) && Valid()
      ensures delivered == Recipients(s0, id, event, members) && count == |delivered|
    {
      count, delivered := 0, {};
      var pending := members;
      ghost var done: set<string> := {};
      RegistryLaws.BroadcastNone(s0, id, name, event, failing);
      while pending != {}
        invariant pending + done == members && pending !! done
        invariant Snapshot() == Broadcast(s0, id, name, event, failing, done) && Valid()
        invariant delivered == Recipients(s0, id, event, done)
        invariant count == |delivered|
        decreases |pending|
      {
        var m :| m in pending;
        RegistryLaws.RecipientsStep(s0, id, event, done, m);
        var received := DeliverTo(s0, id, name, event, failing, done, m);
        if received {
          count := count + 1;
          delivered := delivered + {m};
        }
        SetStep(pending, done, members, m);
        pending := pending - {m};
        done := done + {m};
      }
      assert done == members;
    }

    /** Moving one element from `pending` to `done` keeps them a partition. */
    static lemma SetStep(pending: set<string>, done: set<string>, all: set<string>, m: string)
      requires pending + done == all && pending !! done && m in pending
      ensures (pending - {m}) + (done + {m}) == all && (pending - {m}) !! (done + {m})
    {
    }

    /** One turn of the broadcast loop of PublishToRoom: the sender is skipped,
        a member with no client behind it leaves the room, a member the event
        filter rejects is skipped, and anyone else is handed the frame.
        `received` tells whether the frame was handed over. */
    method DeliverTo(ghost s0: Registry.State, id: string, name: string, event: string, failing: set<string>,
                     ghost done: set<string>, m: string)
      returns (received: bool)
      requires m !in done && Valid()
      requires Snapshot() == Broadcast(s0, id, name, event, failing, done)
      modifies this
      ensures Snapshot() == Broadcast(s0, id, name, event, failing, done + {m}) && Valid()
      ensures received <==> m != id && m in s0.clients && ShouldReceive(s0.clients[m].events, event)
    {
      RegistryLaws.BroadcastLookup(s0, id, name, event, failing, done, m);
      if m == id {
        RegistryLaws.BroadcastSkip(s0, id, name, event, failing, done, m);
        return false;
      }
      var recipient := GetClient(m);
      if recipient.None? {
        RegistryLaws.BroadcastStale(s0, id, name, event, failing, done, m);
        RemoveClientFromRoom(m, name);
        return false;
      }
      if !ShouldReceive(recipient.value.events, event) {
        RegistryLaws.BroadcastSkip(s0, id, name, event, failing, done, m);
        return false;
      }
      if m in failing {
        RegistryLaws.BroadcastFailed(s0, id, name, event, failing, done, m);
      } else {
        RegistryLaws.BroadcastSkip(s0, id, name, event, failing, done, m);
      }
      SendToClient(m, failing);
      received := true;
    }

    /** sendToClient: a write that fails removes the recipient. */
    method SendToClient(id: string, failing: set<string>)
      modifies this
      requires Valid()
      ensures Snapshot() == (if id in failing then Registry.RemoveClient(old(Snapshot()), id) else old(Snapshot())) && Valid()
    {
      if id in failing {
        RemoveClient(id);
      }
    }

    method GetRoomInfo(name: string) returns (info: Option<RoomInfo>)
      ensures info == Registry.GetRoomInfo(Snapshot(), maxRoomUsers, name)
    {
      if name !in rooms {
        return None;
      }
      var room := rooms[name];
      info := Some(RoomInfo(room.name, |room.clientIds|, maxRoomUsers));
    }

    /** The collecting half of cleanupInactiveClients, under the read lock. */
    method CollectInactive(now: int) returns (inactiveClients: set<string>)
      ensures inactiveClients == Inactive(Snapshot(), now)
    {
      inactiveClients := {};
      var scan := clients.Keys;
      while scan != {}
        invariant scan <= clients.Keys
        invariant inactiveClients == Inactive(Snapshot(), now) - scan
        decreases |scan|
      {
        var id :| id in scan;
        if now - clients[id].lastPing > InactivityTimeout {
          inactiveClients := inactiveClients + {id};
        }
        scan := scan - {id};
      }
      assert inactiveClients == Inactive(Snapshot(), now) - {};
    }

    /** cleanupInactiveClients: collect the clients idle for longer than the
        timeout at clock reading `now`, then remove each. */
    method CleanupInactiveClients(now: int)
      modifies this
      requires Valid()
      ensures Snapshot() == Sweep(old(Snapshot()), now) && Valid()
      ensures old(Healthy()) ==> Healthy()
    {
      ghost var s0 := Snapshot();
      var inactiveClients := CollectInactive(now);
      var pending := inactiveClients;
      ghost var removed: set<string> := {};
      RegistryLaws.RemoveClientsNone(s0);
      while pending != {}
        invariant pending + removed == inactiveClients && pending !! removed
        invariant Snapshot() == RemoveClients(s0, removed) && Valid()
        decreases |pending|
      {
        var id :| id in pending;
        ghost var before := Snapshot();
        RemoveClient(id);
        RegistryLaws.RemoveClientIsRemoveClients(before, id);
        RegistryLaws.RemoveClientsCompose(s0, removed, {id});
        SetStep(pending, removed, inactiveClients, id);
        pending := pending - {id};
        removed := removed + {id};
      }
      assert removed == Inactive(s0, now);
      assert Snapshot() == Sweep(s0, now);
      if old(Healthy()) {
        RegistryLaws.SweepPreservesInv(s0, now);
      }
    }

    /** Shutdown: every client goes through RemoveClient, then the room map is reset. */
    method Shutdown()
      requires Valid()
      modifies this
      ensures Snapshot() == Empty() && Valid() && Healthy()
    {
      var clientIDs := clients.Keys;
      while clientIDs != {}
        invariant clients.Keys <= clientIDs && Valid()
        decreases |clientIDs|
      {
        var id :| id in clientIDs;
        RemoveClient(id);
        clientIDs := clientIDs - {id};
      }
      assert clients.Keys == {};
      rooms := map[];
    }

    /** GetStats: the number of connections and of rooms. */
    method GetStats() returns (activeConnections: nat, totalRooms: nat)
      ensures activeConnections == |clients| && totalRooms == |rooms|
    {
      activeConnections := |clients|;
      totalRooms := |rooms|;
    }
  }
}
