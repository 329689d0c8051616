/** What the registry's operations promise together: the membership invariant
    is kept by every operation, teardown is idempotent and composes, capacity
    gates joins only, and the publish filter delivers what it should. */
module RegistryLaws {
  import opened Messages
  import opened Membership
  import opened Registry
  import RoomNames

  // ------------------------------------------------------------ teardown

  /** Under the invariant, the clients leaving a room by eviction are exactly
      the evicted ids that are its members. */
  lemma EvictionsLeaving(s: State, ids: set<string>, n: string)
    requires Consistent(s) && n in s.rooms
    ensures Leaving(Evictions(s, ids), n) == ids * s.rooms[n].clientIds
  {
    forall x | x in Leaving(Evictions(s, ids), n) ensures x in ids * s.rooms[n].clientIds {
      var p :| p in Evictions(s, ids) && p.1 == n && p.0 == x;
    }
    forall x | x in ids * s.rooms[n].clientIds ensures x in Leaving(Evictions(s, ids), n) {
      assert (x, n) in Evictions(s, ids);
    }
  }

  /** The registry without the clients `ids`: they leave the client table and
      every room, and the rooms left with no member are deleted. */
  function Without(s: State, ids: set<string>): State {
    State(s.clients - ids,
          map n | n in s.rooms && s.rooms[n].clientIds - ids != {} :: s.rooms[n].(clientIds := s.rooms[n].clientIds - ids))
  }

  /** Under the invariant, removing clients is exactly `Without`: their ids
      leave every room, and exactly the rooms left with no member go. */
  lemma RemoveClientsRooms(s: State, ids: set<string>)
    requires Inv(s)
    ensures RemoveClients(s, ids) == Without(s, ids)
  {
    var r := RemoveClients(s, ids);
    var w := Without(s, ids);
    forall n | n in s.rooms
      ensures (n in r.rooms <==> n in w.rooms) && (n in r.rooms ==> r.rooms[n] == w.rooms[n])
    {
      EvictionsLeaving(s, ids, n);
      assert s.rooms[n].clientIds - ids * s.rooms[n].clientIds == s.rooms[n].clientIds - ids;
    }
    assert r.rooms.Keys == w.rooms.Keys;
  }

  /** `Without` keeps the invariant. */
  lemma WithoutInv(s: State, ids: set<string>)
    requires Inv(s)
    ensures Inv(Without(s, ids))
  {
    var r := Without(s, ids);
    assert KeysMatch(r);
    forall id, n | id in r.clients && n in r.clients[id].rooms ensures n in r.rooms && id in r.rooms[n].clientIds {
      assert id !in ids && id in s.rooms[n].clientIds;
      assert id in s.rooms[n].clientIds - ids;
    }
  }

  /** Removing clients keeps the invariant. */
  lemma RemoveClientsPreservesInv(s: State, ids: set<string>)
    requires Inv(s)
    ensures Inv(RemoveClients(s, ids))
  {
    RemoveClientsRooms(s, ids);
    WithoutInv(s, ids);
  }

  /** RemoveClient is RemoveClients of one id. */
  lemma RemoveClientIsRemoveClients(s: State, id: string)
    ensures RemoveClient(s, id) == RemoveClients(s, {id})
  {
    if id in s.clients {
      assert Evictions(s, {id}) == Departures(id, s.clients[id].rooms);
    } else {
      assert Evictions(s, {id}) == {};
      DropNothing(s.rooms);
    }
  }

  /** Removal is idempotent: a second removal of the same id is a no-op. */
  lemma RemoveClientIdempotent(s: State, id: string)
    ensures RemoveClient(RemoveClient(s, id), id) == RemoveClient(s, id)
  {
  }

  /** RemoveClient keeps the invariant; the removed id is in no room afterwards. */
  lemma RemoveClientPreservesInv(s: State, id: string)
    requires Inv(s)
    ensures Inv(RemoveClient(s, id))
    ensures forall n :: n in RemoveClient(s, id).rooms ==> id !in RemoveClient(s, id).rooms[n].clientIds
  {
    RemoveClientIsRemoveClients(s, id);
    RemoveClientsPreservesInv(s, {id});
    RemoveClientsRooms(s, {id});
  }

  /** Removing `a` and then `b` is removing `a + b`: the order in which the
      sweep and shutdown loops visit clients does not matter. */
  lemma RemoveClientsCompose(s: State, a: set<string>, b: set<string>)
    ensures RemoveClients(RemoveClients(s, a), b) == RemoveClients(s, a + b)
  {
    var mid := RemoveClients(s, a);
    assert Evictions(mid, b) == Evictions(s, b - a);
    assert Evictions(s, a + b) == Evictions(s, a) + Evictions(s, b - a);
    DropCompose(s.rooms, Evictions(s, a), Evictions(s, b - a));
  }

  /** A fresh client (an id not in use, no rooms) can be added without
      breaking the invariant. */
  lemma AddClientPreservesInv(s: State, c: Client)
    requires Inv(s) && c.id !in s.clients && c.rooms == {}
    ensures Inv(AddClient(s, c))
  {
  }

  // -------------------------------------------------------------- joining

  /** The state a full leave of an existing room builds keeps the invariant. */
  lemma LeftStateInv(s: State, id: string, name: string)
    requires Inv(s) && name in s.rooms
    ensures var room := s.rooms[name].(clientIds := s.rooms[name].clientIds - {id});
      var clients := if id in s.clients then s.clients[id := LeftRoom(s.clients[id], name)] else s.clients;
      Inv(State(clients, if room.clientIds == {} then s.rooms - {name} else s.rooms[name := room]))
  {
    var room := s.rooms[name].(clientIds := s.rooms[name].clientIds - {id});
    var clients := if id in s.clients then s.clients[id := LeftRoom(s.clients[id], name)] else s.clients;
    var r := State(clients, if room.clientIds == {} then s.rooms - {name} else s.rooms[name := room]);
    assert KeysMatch(r);
    forall i, n | i in r.clients && n in r.clients[i].rooms
      ensures n in r.rooms && i in r.rooms[n].clientIds
    {
      if n == name {
        assert i != id && i in s.rooms[name].clientIds;
        assert i in room.clientIds;
      }
    }
    forall n, i | n in r.rooms && i in r.rooms[n].clientIds
      ensures i in r.clients && n in r.clients[i].rooms
    {
      if n == name {
        assert i in room.clientIds && i != id;
      }
    }
  }

  /** A full leave keeps the invariant. */
  lemma LeavePreservesInv(s: State, id: string, name: string)
    requires Inv(s)
    ensures Inv(Leave(s, id, name))
  {
    if name in s.rooms {
      LeftStateInv(s, id, name);
    }
  }

  /** A join files the joiner and the room under their own keys. */
  lemma SubscribeKeepsKeys(s: State, maxRoomUsers: int, id: string, name: string, event: string)
    requires KeysMatch(s)
    ensures KeysMatch(Subscribe(s, maxRoomUsers, id, name, event).state)
  {
    var o := Subscribe(s, maxRoomUsers, id, name, event);
    if o.state != s {
      assert RoomNames.ValidateRoomName(name).0 && id in s.clients;
      assert name in o.state.rooms ==> o.state.rooms[name].name == name;
      assert id in o.state.clients ==> o.state.clients[id].id == id;
    }
  }

  /** The state a successful join builds keeps the membership consistent. */
  lemma JoinConsistent(s: State, id: string, name: string, e: string)
    requires Consistent(s) && id in s.clients && RoomNames.ValidateRoomName(name).0
    ensures var room := if name in s.rooms then s.rooms[name] else NewRoom(name);
      var c := s.clients[id];
      Consistent(State(s.clients[id := c.(rooms := c.rooms + {name}, events := c.events + {e})],
                       s.rooms[name := room.(clientIds := room.clientIds + {id})]))
  {
    var room := if name in s.rooms then s.rooms[name] else NewRoom(name);
    var c := s.clients[id];
    var r := State(s.clients[id := c.(rooms := c.rooms + {name}, events := c.events + {e})],
                   s.rooms[name := room.(clientIds := room.clientIds + {id})]);
    assert KeysMatch(r);
    forall i, n | i in r.clients && n in r.clients[i].rooms
      ensures n in r.rooms && i in r.rooms[n].clientIds
    {
      if i != id && n == name {
        assert n in s.clients[i].rooms;
      }
    }
    forall n, i | n in r.rooms && i in r.rooms[n].clientIds
      ensures i in r.clients && n in r.clients[i].rooms
    {
      if n == name && i != id {
        assert i in s.rooms[name].clientIds;
      }
    }
  }

  /** A join keeps the membership consistent; with a capacity of at least one
      it also never leaves an empty room. */
  lemma SubscribePreservesInv(s: State, maxRoomUsers: int, id: string, name: string, event: string)
    requires Inv(s)
    ensures Consistent(Subscribe(s, maxRoomUsers, id, name, event).state)
    ensures maxRoomUsers >= 1 ==> Inv(Subscribe(s, maxRoomUsers, id, name, event).state)
  {
    var o := Subscribe(s, maxRoomUsers, id, name, event);
    if o.status == Ok {
      JoinConsistent(s, id, name, EventOrDefault(event));
    } else if o.state != s {
      SubscribeKeepsKeys(s, maxRoomUsers, id, name, event);
      assert name !in s.rooms;
      assert o.state.rooms == s.rooms[name := NewRoom(name)];
      assert o.state.clients == s.clients;
    }
  }

  /** An unsubscribe keeps the invariant. */
  lemma UnsubscribePreservesInv(s: State, id: string, name: string, event: string)
    requires Inv(s)
    ensures Inv(Unsubscribe(s, id, name, event).state)
  {
    if id in s.clients && (event == "" || event == SignalAll) {
      LeavePreservesInv(s, id, name);
    }
  }

  /** Room recycling: when the last member leaves, the room is gone, and the
      next join under that name starts a fresh room holding only the joiner. */
  lemma RoomRecycled(s: State, last: string, name: string, next: string, maxRoomUsers: int, event: string)
    requires name in s.rooms && s.rooms[name].clientIds == {last}
    requires RoomNames.ValidateRoomName(name).0 && next in s.clients && maxRoomUsers >= 1
    ensures var gone := Leave(s, last, name);
      && name !in gone.rooms
      && (next in gone.clients ==> Subscribe(gone, maxRoomUsers, next, name, event).state.rooms[name].clientIds == {next})
  {
  }

  // ----------------------------------------------------------- publishing

  /** The delivery rule: never the sender; a broadcast reaches wildcard
      listeners only; a concrete event reaches its listeners and wildcard
      listeners; nobody else. */
  lemma DeliveryRule(s: State, sender: string, name: string, event: string, data: Json, failing: set<string>, m: string)
    requires Publish(s, sender, name, event, data, failing).status == Ok
    ensures var p := Publish(s, sender, name, event, data, failing);
      && (m == sender ==> m !in p.delivered)
      && (m in s.rooms[name].clientIds && m != sender && m in s.clients && SignalAll in s.clients[m].events ==> m in p.delivered)
      && (m in s.rooms[name].clientIds && m != sender && m in s.clients && event != "" && event in s.clients[m].events ==> m in p.delivered)
      && ((event == "" || event == SignalAll) && m in s.clients && SignalAll !in s.clients[m].events ==> m !in p.delivered)
      && (m in s.clients && event !in s.clients[m].events && SignalAll !in s.clients[m].events ==> m !in p.delivered)
      && (m !in s.clients || m !in s.rooms[name].clientIds ==> m !in p.delivered)
  {
  }

  /** Under the invariant, no member of a room is stale. */
  lemma NoStaleMembers(s: State, sender: string, name: string)
    requires Consistent(s) && name in s.rooms
    ensures StaleMembers(s, sender, s.rooms[name].clientIds) == {}
  {
  }

  /** Under the invariant a publish is a removal of the recipients whose write failed. */
  lemma PublishIsRemoval(s: State, sender: string, name: string, event: string, data: Json, failing: set<string>)
    requires Consistent(s)
    requires Publish(s, sender, name, event, data, failing).status == Ok
    ensures var p := Publish(s, sender, name, event, data, failing);
      p.state == RemoveClients(s, p.delivered * failing)
  {
    NoStaleMembers(s, sender, name);
    var members := s.rooms[name].clientIds;
    var failed := Recipients(s, sender, event, members) * failing;
    assert DeparturesFrom({}, name) == {};
    assert DeparturesFrom(StaleMembers(s, sender, members), name) + Evictions(s, failed) == Evictions(s, failed);
  }

  /** A publish keeps the invariant, and the sender's room survives it. */
  lemma PublishPreservesInv(s: State, sender: string, name: string, event: string, data: Json, failing: set<string>)
    requires Inv(s)
    ensures Inv(Publish(s, sender, name, event, data, failing).state)
    ensures Publish(s, sender, name, event, data, failing).status == Ok ==>
      name in Publish(s, sender, name, event, data, failing).state.rooms
  {
    var p := Publish(s, sender, name, event, data, failing);
    if p.status == Ok {
      PublishIsRemoval(s, sender, name, event, data, failing);
      RemoveClientsPreservesInv(s, p.delivered * failing);
      RemoveClientsRooms(s, p.delivered * failing);
      assert sender in s.rooms[name].clientIds - p.delivered * failing;
    }
  }

  /** The delivered count is at most the room size minus the sender. */
  lemma PublishCountBound(s: State, sender: string, name: string, event: string, data: Json, failing: set<string>)
    requires Consistent(s)
    requires Publish(s, sender, name, event, data, failing).status == Ok
    ensures |Publish(s, sender, name, event, data, failing).delivered| <= |s.rooms[name].clientIds| - 1
  {
    var members := s.rooms[name].clientIds;
    var delivered := Publish(s, sender, name, event, data, failing).delivered;
    assert delivered <= members - {sender};
    assert sender in members;
    assert |members - {sender}| == |members| - 1;
    SubsetCard(delivered, members - {sender});
  }

  lemma SubsetCard<T>(a: set<T>, b: set<T>)
    requires a <= b
    ensures |a| <= |b|
  {
    assert b == a + (b - a);
  }

  /** Without the invariant, stale members of the room are purged by a publish. */
  lemma PublishPurgesStale(s: State, sender: string, name: string, event: string, data: Json, failing: set<string>, m: string)
    requires Publish(s, sender, name, event, data, failing).status == Ok
    requires m in s.rooms[name].clientIds && m != sender && m !in s.clients
    ensures var r := Publish(s, sender, name, event, data, failing).state;
      name in r.rooms ==> m !in r.rooms[name].clientIds
  {
    var members := s.rooms[name].clientIds;
    var failed := Recipients(s, sender, event, members) * failing;
    var drop := DeparturesFrom(StaleMembers(s, sender, members), name) + Evictions(s, failed);
    assert (m, name) in drop;
    assert m in Leaving(drop, name);
  }

  /** The broadcast loop looks members up in the registry as it was before
      the loop: a member not yet handled is registered, with the same record,
      exactly when it was before, and the file keys still match. */
  lemma BroadcastLookup(s: State, sender: string, name: string, event: string, failing: set<string>, done: set<string>, m: string)
    requires m !in done
    ensures var cur := Broadcast(s, sender, name, event, failing, done);
      && (m in cur.clients <==> m in s.clients)
      && (m in s.clients ==> cur.clients[m] == s.clients[m])
      && (KeysMatch(s) ==> KeysMatch(cur))
  {
  }

  /** What the broadcast loop can do to the registry: exactly the recipients
      whose write failed leave the client table, every other record is kept,
      and no room is created. */
  lemma BroadcastEffect(s: State, sender: string, name: string, event: string, failing: set<string>, among: set<string>)
    ensures var r := Broadcast(s, sender, name, event, failing, among);
      && r.clients.Keys == s.clients.Keys - Recipients(s, sender, event, among) * failing
      && (forall id :: id in r.clients ==> r.clients[id] == s.clients[id])
      && r.rooms.Keys <= s.rooms.Keys
  {
  }

  /** The recipients grow by the handled member when the filter lets it through. */
  lemma RecipientsStep(s: State, sender: string, event: string, done: set<string>, m: string)
    requires m !in done
    ensures m !in Recipients(s, sender, event, done)
    ensures Recipients(s, sender, event, done + {m}) == Recipients(s, sender, event, done)
      + (if m != sender && m in s.clients && ShouldReceive(s.clients[m].events, event) then {m} else {})
  {
  }

  /** Handling the sender, a member the filter skips, or a recipient whose
      write succeeds changes nothing. */
  lemma BroadcastSkip(s: State, sender: string, name: string, event: string, failing: set<string>, done: set<string>, m: string)
    requires m !in done
    requires m == sender || (m in s.clients && !(ShouldReceive(s.clients[m].events, event) && m in failing))
    ensures Broadcast(s, sender, name, event, failing, done + {m}) == Broadcast(s, sender, name, event, failing, done)
  {
    assert Recipients(s, sender, event, done + {m}) * failing == Recipients(s, sender, event, done) * failing;
    assert StaleMembers(s, sender, done + {m}) == StaleMembers(s, sender, done);
  }

  /** Handling a member with no client behind it is a full leave of the room. */
  lemma BroadcastStale(s: State, sender: string, name: string, event: string, failing: set<string>, done: set<string>, m: string)
    requires m !in done && m != sender && m !in s.clients
    ensures Broadcast(s, sender, name, event, failing, done + {m}) == Leave(Broadcast(s, sender, name, event, failing, done), m, name)
  {
    var cur := Broadcast(s, sender, name, event, failing, done);
    var failed := Recipients(s, sender, event, done) * failing;
    var stale := StaleMembers(s, sender, done);
    var drop := DeparturesFrom(stale, name) + Evictions(s, failed);
    assert Recipients(s, sender, event, done + {m}) == Recipients(s, sender, event, done);
    assert StaleMembers(s, sender, done + {m}) == stale + {m};
    assert DeparturesFrom(stale + {m}, name) == DeparturesFrom(stale, name) + {(m, name)};
    assert drop + {(m, name)} == DeparturesFrom(stale + {m}, name) + Evictions(s, failed);
    DropCompose(s.rooms, drop, {(m, name)});
    DropOne(cur.rooms, m, name);
    assert m !in cur.clients;
  }

  /** Handling a recipient whose write fails is a removal of that client. */
  lemma BroadcastFailed(s: State, sender: string, name: string, event: string, failing: set<string>, done: set<string>, m: string)
    requires m !in done && m != sender && m in s.clients
    requires ShouldReceive(s.clients[m].events, event) && m in failing
    ensures Broadcast(s, sender, name, event, failing, done + {m}) == RemoveClient(Broadcast(s, sender, name, event, failing, done), m)
  {
    var cur := Broadcast(s, sender, name, event, failing, done);
    var failed := Recipients(s, sender, event, done) * failing;
    var drop := DeparturesFrom(StaleMembers(s, sender, done), name) + Evictions(s, failed);
    assert Recipients(s, sender, event, done + {m}) * failing == failed + {m};
    assert StaleMembers(s, sender, done + {m}) == StaleMembers(s, sender, done);
    assert Evictions(s, failed + {m}) == Evictions(s, failed) + Departures(m, s.clients[m].rooms);
    assert drop + Departures(m, s.clients[m].rooms) == DeparturesFrom(StaleMembers(s, sender, done), name) + Evictions(s, failed + {m});
    DropCompose(s.rooms, drop, Departures(m, s.clients[m].rooms));
    assert cur.clients - {m} == s.clients - (failed + {m});
  }

  /** Before the loop has handled anyone, nothing has changed. */
  lemma BroadcastNone(s: State, sender: string, name: string, event: string, failing: set<string>)
    ensures Broadcast(s, sender, name, event, failing, {}) == s
  {
    var b := Broadcast(s, sender, name, event, failing, {});
    assert Recipients(s, sender, event, {}) * failing == {};
    assert StaleMembers(s, sender, {}) == {};
    assert DeparturesFrom({}, name) == {};
    assert Evictions(s, {}) == {};
    assert DeparturesFrom(StaleMembers(s, sender, {}), name) + Evictions(s, {}) == {};
    DropNothing(s.rooms);
    assert b.rooms == s.rooms;
    assert b.clients == s.clients;
  }

  /** Removing no client changes nothing. */
  lemma RemoveClientsNone(s: State)
    ensures RemoveClients(s, {}) == s
  {
    assert Evictions(s, {}) == {};
    DropNothing(s.rooms);
    assert s.clients - {} == s.clients;
  }

  // ---------------------------------------------------------------- sweep

  /** The sweep keeps the invariant. */
  lemma SweepPreservesInv(s: State, now: int)
    requires Inv(s)
    ensures Inv(Sweep(s, now))
  {
    RemoveClientsPreservesInv(s, Inactive(s, now));
  }
}
