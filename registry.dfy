/** The connection and room registry of internal/service/websocket.go, as a
    value: each operation of WebSocketService is a function from the old
    state to the new one (and its reply). The class in service.dfy runs the
    source's loops and is proved to compute exactly these functions. */
module Registry {
  import opened Messages
  import opened Membership
  import RoomNames

  /** The wildcard event: a client listening to it hears every publish. */
  const SignalAll := "signal:all"

  /** `time.Since(client.LastPing) > 5 * time.Minute`, with the clock in nanoseconds. */
  const InactivityTimeout := 300_000_000_000

  const ErrClientNotFound := "客户端不存在"

  datatype State = State(clients: map<string, Client>, rooms: map<string, Room>)

  /** A Go `error`: nil, or an error whose `Error()` is `message`. */
  datatype Status = Ok | Err(message: string)

  datatype Outcome = Outcome(state: State, status: Status)

  /** The result of a publish: the new state, the error, the ids the frame was
      handed to (their count is what the source logs) and that frame. */
  datatype Publication = Publication(state: State, status: Status, delivered: set<string>, frame: WebSocketMessage)

  datatype RoomInfo = RoomInfo(name: string, clientCount: nat, maxUsers: int)

  // ---------------------------------------------------------------- messages

  function DigitChar(d: nat): char
    requires d < 10
  {
    "0123456789"[d]
  }

  function Digits(n: nat): string
    decreases n
  {
    if n < 10 then [DigitChar(n)] else Digits(n / 10) + [DigitChar(n % 10)]
  }

  /** `fmt`'s `%d`. */
  function Decimal(n: int): string {
    if n < 0 then "-" + Digits(-n) else Digits(n)
  }

  function RoomFullMessage(maxRoomUsers: int): string {
    "房间已满，最多支持" + Decimal(maxRoomUsers) + "个用户"
  }

  function NotSubscribedMessage(name: string): string {
    "客户端未订阅房间: " + name
  }

  function RoomNotFoundMessage(name: string): string {
    "房间不存在: " + name
  }

  // -------------------------------------------------------------- invariants

  /** Each client is filed under its own id and each room under its own name. */
  ghost predicate KeysMatch(s: State) {
    && (forall id :: id in s.clients ==> s.clients[id].id == id)
    && (forall n :: n in s.rooms ==> s.rooms[n].name == n)
  }

  /** A client lists a room exactly when the room lists the client, and every
      listed room and member exists. */
  ghost predicate Consistent(s: State) {
    && KeysMatch(s)
    && (forall id, n :: id in s.clients && n in s.clients[id].rooms ==> n in s.rooms && id in s.rooms[n].clientIds)
    && (forall n, id :: n in s.rooms && id in s.rooms[n].clientIds ==> id in s.clients && n in s.clients[id].rooms)
  }

  /** No room exists without a member. */
  ghost predicate NoEmptyRoom(s: State) {
    forall n :: n in s.rooms ==> s.rooms[n].clientIds != {}
  }

  ghost predicate Inv(s: State) {
    Consistent(s) && NoEmptyRoom(s)
  }

  // -------------------------------------------------------------- operations

  /** A service just constructed (NewWebSocketService). */
  function Empty(): (s: State)
    ensures s.clients == map[] && s.rooms == map[]
    ensures Inv(s)
  {
    State(map[], map[])
  }

  /** The event a subscription without one stands for. */
  function EventOrDefault(event: string): (e: string)
    ensures event == "" ==> e == SignalAll
    ensures e != "" && (event != "" ==> e == event)
  {
    if event == "" then SignalAll else event
  }

  /** AddClient files the client under its id, replacing any client there. */
  function AddClient(s: State, client: Client): (r: State)
    ensures r.rooms == s.rooms
    ensures r.clients.Keys == s.clients.Keys + {client.id} && r.clients[client.id] == client
    ensures forall other :: other in s.clients && other != client.id ==> r.clients[other] == s.clients[other]
  {
    s.(clients := s.clients[client.id := client])
  }

  function GetClient(s: State, id: string): (r: Option<Client>)
    ensures r.Some? <==> id in s.clients
    ensures r.Some? ==> r.value == s.clients[id]
  {
    if id in s.clients then Some(s.clients[id]) else None
  }

  /** What leaving a room does to the client: the room is dropped, and so is
      every event except the wildcard, whichever room it was meant for. */
  function LeftRoom(c: Client, name: string): (r: Client)
    ensures r.id == c.id && r.userId == c.userId && r.lastPing == c.lastPing && r.metadata == c.metadata
    ensures r.rooms == c.rooms - {name}
    ensures r.events == c.events * {SignalAll}
  {
    c.(rooms := c.rooms - {name}, events := c.events * {SignalAll})
  }

  /** removeClientFromRoom: a full leave of one room. */
  function Leave(s: State, id: string, name: string): (r: State)
    ensures name !in s.rooms ==> r == s
    ensures r.rooms.Keys <= s.rooms.Keys
    ensures name in s.rooms ==> (name in r.rooms <==> s.rooms[name].clientIds - {id} != {})
    ensures name in s.rooms && name in r.rooms ==> r.rooms[name].clientIds == s.rooms[name].clientIds - {id}
    ensures r.clients.Keys == s.clients.Keys
    ensures name in s.rooms && id in s.clients ==> r.clients[id] == LeftRoom(s.clients[id], name)
    ensures forall other :: other in s.clients && other != id ==> r.clients[other] == s.clients[other]
    ensures forall n :: n in s.rooms && n != name ==> n in r.rooms && r.rooms[n] == s.rooms[n]
  {
    if name !in s.rooms then s
    else
      var room := s.rooms[name].(clientIds := s.rooms[name].clientIds - {id});
      var clients := if id in s.clients then s.clients[id := LeftRoom(s.clients[id], name)] else s.clients;
      State(clients, if room.clientIds == {} then s.rooms - {name} else s.rooms[name := room])
  }

  /** The departures of the given clients from every room they list. */
  function Evictions(s: State, ids: set<string>): set<(string, string)> {
    set id, n | id in ids && id in s.clients && n in s.clients[id].rooms :: (id, n)
  }

  /** The departures of several ids from one room. */
  function DeparturesFrom(ids: set<string>, name: string): set<(string, string)> {
    set m | m in ids :: (m, name)
  }

  /** Several RemoveClient calls at once: the clients go, and so do their
      memberships, with rooms left empty deleted. */
  function RemoveClients(s: State, ids: set<string>): (r: State)
    ensures r.clients.Keys == s.clients.Keys - ids
    ensures forall id :: id in r.clients ==> r.clients[id] == s.clients[id]
  {
    State(s.clients - ids, DropMemberships(s.rooms, Evictions(s, ids)))
  }

  /** RemoveClient: an absent id changes nothing; otherwise the client is
      deleted and leaves each room it lists. */
  function RemoveClient(s: State, id: string): (r: State)
    ensures id !in r.clients
    ensures id !in s.clients ==> r == s
    ensures r.clients == s.clients - {id}
  {
    if id !in s.clients then s
    else State(s.clients - {id}, DropMemberships(s.rooms, Departures(id, s.clients[id].rooms)))
  }

  /** SubscribeToRoom. The name is checked before anything is looked up; the
      room is created before the capacity check, so with a capacity of zero
      or less a refused join into a new room leaves that room behind, empty. */
  function Subscribe(s: State, maxRoomUsers: int, id: string, name: string, event: string): (o: Outcome)
    // a bad name or an unknown client: refused, nothing changes
    ensures !RoomNames.ValidateRoomName(name).0 ==> o == Outcome(s, Err(RoomNames.ValidateRoomName(name).1))
    ensures RoomNames.ValidateRoomName(name).0 && id !in s.clients ==> o == Outcome(s, Err(ErrClientNotFound))
    // capacity gates new members only, and a refusal leaves the members as they were
    ensures name in s.rooms && |s.rooms[name].clientIds| >= maxRoomUsers && id !in s.rooms[name].clientIds
      && RoomNames.ValidateRoomName(name).0 && id in s.clients
      ==> o.status == Err(RoomFullMessage(maxRoomUsers)) && o.state == s
    ensures name in s.rooms && id in s.rooms[name].clientIds && RoomNames.ValidateRoomName(name).0 && id in s.clients
      ==> o.status == Ok
    ensures o.status.Err? ==> o.state.clients == s.clients
    // a join adds the membership on both sides and adds, never replaces, the event
    ensures o.status == Ok ==>
      && id in s.clients && RoomNames.ValidateRoomName(name).0
      && name in o.state.rooms && o.state.rooms[name].clientIds == (if name in s.rooms then s.rooms[name].clientIds else {}) + {id}
      && o.state.rooms[name].name == (if name in s.rooms then s.rooms[name].name else name)
      && o.state.clients.Keys == s.clients.Keys
      && o.state.rooms.Keys == s.rooms.Keys + {name}
      && o.state.clients[id] == s.clients[id].(rooms := s.clients[id].rooms + {name}, events := s.clients[id].events + {EventOrDefault(event)})
      && (forall other :: other in s.clients && other != id ==> o.state.clients[other] == s.clients[other])
      && (forall n :: n in s.rooms && n != name ==> n in o.state.rooms && o.state.rooms[n] == s.rooms[n])
  {
    var verdict := RoomNames.ValidateRoomName(name);
    if !verdict.0 then Outcome(s, Err(verdict.1))
    else if id !in s.clients then Outcome(s, Err(ErrClientNotFound))
    else
      var room := if name in s.rooms then s.rooms[name] else NewRoom(name);
      if |room.clientIds| >= maxRoomUsers && id !in room.clientIds then
        Outcome(s.(rooms := s.rooms[name := room]), Err(RoomFullMessage(maxRoomUsers)))
      else
        var c := s.clients[id];
        var joined := c.(rooms := c.rooms + {name}, events := c.events + {EventOrDefault(event)});
        Outcome(State(s.clients[id := joined], s.rooms[name := room.(clientIds := room.clientIds + {id})]), Ok)
  }

  /** UnsubscribeFromRoom: a concrete event other than the wildcard only stops
      that event; an empty event or the wildcard is a full leave. */
  function Unsubscribe(s: State, id: string, name: string, event: string): (o: Outcome)
    ensures id !in s.clients ==> o == Outcome(s, Err(ErrClientNotFound))
    ensures id in s.clients ==> o.status == Ok
    ensures id in s.clients && event != "" && event != SignalAll ==>
      && o.state.rooms == s.rooms
      && o.state.clients == s.clients[id := s.clients[id].(events := s.clients[id].events - {event})]
    ensures id in s.clients && (event == "" || event == SignalAll) ==> o.state == Leave(s, id, name)
  {
    if id !in s.clients then Outcome(s, Err(ErrClientNotFound))
    else if event != "" && event != SignalAll then
      var c := s.clients[id];
      Outcome(s.(clients := s.clients[id := c.(events := c.events - {event})]), Ok)
    else Outcome(Leave(s, id, name), Ok)
  }

  /** The event filter: a broadcast (no event or the wildcard) reaches wildcard
      listeners only; a concrete event reaches its listeners and wildcard ones. */
  function ShouldReceive(events: set<string>, event: string): (b: bool)
    ensures SignalAll in events ==> b
    ensures event != "" && event in events ==> b
    ensures b ==> SignalAll in events || (event != "" && event != SignalAll && event in events)
  {
    if event == "" || event == SignalAll then SignalAll in events
    else event in events || SignalAll in events
  }

  /** The live members of `among`, other than the sender, that the filter lets through. */
  function Recipients(s: State, sender: string, event: string, among: set<string>): (r: set<string>)
    ensures r <= among && sender !in r
    ensures forall m :: m in r ==> m in s.clients && ShouldReceive(s.clients[m].events, event)
    ensures forall m :: m in among && m != sender && m in s.clients && ShouldReceive(s.clients[m].events, event) ==> m in r
  {
    set m | m in among && m != sender && m in s.clients && ShouldReceive(s.clients[m].events, event)
  }

  /** The members of `among`, other than the sender, with no client behind them. */
  function StaleMembers(s: State, sender: string, among: set<string>): set<string> {
    set m | m in among && m != sender && m !in s.clients
  }

  /** The state after the broadcast loop has handled the members `among`:
      stale ones are purged from the room, and the recipients whose write
      failed are removed as clients. */
  function Broadcast(s: State, sender: string, name: string, event: string, failing: set<string>, among: set<string>): State {
    var failed := Recipients(s, sender, event, among) * failing;
    State(s.clients - failed,
          DropMemberships(s.rooms, DeparturesFrom(StaleMembers(s, sender, among), name) + Evictions(s, failed)))
  }

  /** PublishToRoom, with `failing` the clients whose connection refuses the write. */
  function Publish(s: State, sender: string, name: string, event: string, data: Json, failing: set<string>): (p: Publication)
    ensures p.frame == NewWebSocketMessage(MessageTypeMessage, name, event, Some(data))
    ensures sender !in s.clients ==> p == Publication(s, Err(ErrClientNotFound), {}, p.frame)
    ensures sender in s.clients && name !in s.clients[sender].rooms ==> p == Publication(s, Err(NotSubscribedMessage(name)), {}, p.frame)
    ensures sender in s.clients && name in s.clients[sender].rooms && name !in s.rooms ==>
      p == Publication(s, Err(RoomNotFoundMessage(name)), {}, p.frame)
    ensures p.status == Ok <==> sender in s.clients && name in s.clients[sender].rooms && name in s.rooms
    ensures sender !in p.delivered
  {
    var frame := NewWebSocketMessage(MessageTypeMessage, name, event, Some(data));
    if sender !in s.clients then Publication(s, Err(ErrClientNotFound), {}, frame)
    else if name !in s.clients[sender].rooms then Publication(s, Err(NotSubscribedMessage(name)), {}, frame)
    else if name !in s.rooms then Publication(s, Err(RoomNotFoundMessage(name)), {}, frame)
    else
      var members := s.rooms[name].clientIds;
      Publication(Broadcast(s, sender, name, event, failing, members), Ok, Recipients(s, sender, event, members), frame)
  }

  /** The clients whose last sign of life is older than the timeout at `now`. */
  function Inactive(s: State, now: int): (r: set<string>)
    ensures r <= s.clients.Keys
    ensures forall id :: id in s.clients && s.clients[id].lastPing >= now - InactivityTimeout ==> id !in r
    ensures forall id :: id in s.clients && s.clients[id].lastPing < now - InactivityTimeout ==> id in r
  {
    set id | id in s.clients && now - s.clients[id].lastPing > InactivityTimeout
  }

  /** cleanupInactiveClients: every inactive client goes through RemoveClient. */
  function Sweep(s: State, now: int): (r: State)
    ensures forall id :: id in r.clients <==> id in s.clients && now - s.clients[id].lastPing <= InactivityTimeout
  {
    RemoveClients(s, Inactive(s, now))
  }

  /** GetRoomInfo, without the room's timestamps. */
  function GetRoomInfo(s: State, maxRoomUsers: int, name: string): (r: Option<RoomInfo>)
    ensures r.Some? <==> name in s.rooms
    ensures r.Some? ==> r.value == RoomInfo(s.rooms[name].name, |s.rooms[name].clientIds|, maxRoomUsers)
  {
    if name in s.rooms then Some(RoomInfo(s.rooms[name].name, |s.rooms[name].clientIds|, maxRoomUsers)) else None
  }
}
