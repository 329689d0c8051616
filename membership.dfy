/** The room side of leaving: how the room table changes when some clients
    leave some rooms (internal/service/websocket.go, removeClientFromRoom).
    A departure is a pair (client id, room name); a room that loses members
    and is left with none is deleted on the spot. Since each departure only
    shrinks one room, the order in which departures happen does not matter,
    which is what lets the loops over Go maps (whose order is unspecified)
    be specified by one function. */
module Membership {
  import opened Messages

  /** The ids of the departures from room `name`. */
  function Leaving(drop: set<(string, string)>, name: string): set<string> {
    set p | p in drop && p.1 == name :: p.0
  }

  /** The departures of client `id` from each room of `names`. */
  function Departures(id: string, names: set<string>): set<(string, string)> {
    set n | n in names :: (id, n)
  }

  /** The room table after all departures of `drop`: the departing ids are
      removed, and a room some departure touched is deleted when it is empty. */
  function DropMemberships(rooms: map<string, Room>, drop: set<(string, string)>): (r: map<string, Room>)
    ensures r.Keys <= rooms.Keys
    ensures forall n :: n in r ==> r[n].name == rooms[n].name && r[n].clientIds == rooms[n].clientIds - Leaving(drop, n)
    ensures forall n :: n in rooms && rooms[n].clientIds - Leaving(drop, n) != {} ==> n in r
    ensures forall n :: n in r && Leaving(drop, n) != {} ==> r[n].clientIds != {}
  {
    map n | n in rooms && (Leaving(drop, n) == {} || rooms[n].clientIds - Leaving(drop, n) != {})
      :: rooms[n].(clientIds := rooms[n].clientIds - Leaving(drop, n))
  }

  /** No departure, no change. */
  lemma DropNothing(rooms: map<string, Room>)
    ensures DropMemberships(rooms, {}) == rooms
  {
    var r := DropMemberships(rooms, {});
    forall n | n in rooms ensures n in r && r[n] == rooms[n] {
      assert Leaving({}, n) == {};
    }
  }

  /** One departure: the id leaves the named room, which is deleted if that
      leaves it empty; a missing room is left missing. */
  lemma DropOne(rooms: map<string, Room>, id: string, name: string)
    ensures name !in rooms ==> DropMemberships(rooms, {(id, name)}) == rooms
    ensures name in rooms ==>
      var room := rooms[name].(clientIds := rooms[name].clientIds - {id});
      DropMemberships(rooms, {(id, name)}) == if room.clientIds == {} then rooms - {name} else rooms[name := room]
  {
    var drop := {(id, name)};
    var r := DropMemberships(rooms, drop);
    assert Leaving(drop, name) == {id};
    forall n | n != name ensures Leaving(drop, n) == {} {}
    if name in rooms {
      var room := rooms[name].(clientIds := rooms[name].clientIds - {id});
      var expected := if room.clientIds == {} then rooms - {name} else rooms[name := room];
      assert r.Keys == expected.Keys;
      forall n | n in r ensures r[n] == expected[n] {}
    } else {
      assert r.Keys == rooms.Keys;
      forall n | n in r ensures r[n] == rooms[n] {
        assert rooms[n].clientIds - {} == rooms[n].clientIds;
      }
    }
  }

  /** The departures from one room of two batches are those of each batch. */
  lemma LeavingUnion(a: set<(string, string)>, b: set<(string, string)>, name: string)
    ensures Leaving(a + b, name) == Leaving(a, name) + Leaving(b, name)
  {
    forall x | x in Leaving(a + b, name) ensures x in Leaving(a, name) + Leaving(b, name) {
      var p :| p in a + b && p.1 == name && p.0 == x;
    }
  }

  /** Departures compose: doing `a` and then `b` is doing `a + b` at once. */
  lemma DropCompose(rooms: map<string, Room>, a: set<(string, string)>, b: set<(string, string)>)
    ensures DropMemberships(DropMemberships(rooms, a), b) == DropMemberships(rooms, a + b)
  {
    var mid := DropMemberships(rooms, a);
    var left := DropMemberships(mid, b);
    var right := DropMemberships(rooms, a + b);
    forall n | n in rooms ensures (n in left <==> n in right) && (n in left ==> left[n] == right[n]) {
      LeavingUnion(a, b, n);
      var members := rooms[n].clientIds;
      assert members - Leaving(a + b, n) == members - Leaving(a, n) - Leaving(b, n);
    }
    assert left.Keys == right.Keys;
  }
}
