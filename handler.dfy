/** The WebSocket endpoint (internal/handler/websocket.go): admission of a
    connection, the read loop, and the dispatch of each inbound frame to the
    registry. Frames sent back to the connection are collected as `replies`;
    the frame a publish broadcasts is returned with the ids it reached. */
module Handler {
  import opened Messages
  import opened Registry
  import RegistryLaws
  import Service

  const StatusBadRequest := 400
  const StatusUnauthorized := 401

  const MissingToken := "缺少认证token"
  const TokenRejected := "token验证失败: "
  const MissingChannel := "缺少频道名称"
  const MissingData := "缺少消息数据"
  const MalformedData := "消息数据格式错误"

  /** The type of the acknowledgement of an unsubscribe. */
  const MessageTypeUnsubscribed := "unsubscribed"

  /** The key a published object carries its author under. */
  const FromKey := "from"

  function UnsupportedType(msgType: string): string {
    "不支持的消息类型: " + msgType
  }

  // ------------------------------------------------------- publish data

  /** What the publish path makes of the `data` field: the object to forward,
      a refusal with the text sent back, or a panic in the connection's reader
      goroutine, which nothing recovers and which therefore ends the server
      process with every connection and the whole registry. */
  datatype DataCheck = Accepted(data: Json) | Rejected(message: string) | Panicked

  /** The author field added when the object has none; one already present,
      whatever its value, is kept. */
  function WithAuthor(fields: map<string, Json>, userId: string): (r: map<string, Json>)
    ensures FromKey in r && fields.Keys <= r.Keys && r.Keys <= fields.Keys + {FromKey}
    ensures forall k :: k in fields ==> r[k] == fields[k]
    ensures FromKey !in fields ==> r[FromKey] == JString(userId)
  {
    if FromKey in fields then fields else fields[FromKey := JString(userId)]
  }

  /** The data check as the source writes it. Decoding a JSON `null` into a
      Go map succeeds and leaves a nil map, and storing the author into a nil
      map panics. The reader runs in its own goroutine with no recover, so
      the panic ends the whole server process. */
  function CheckPublishDataAsWritten(data: Option<Json>, userId: string): (r: DataCheck)
    ensures data.None? ==> r == Rejected(MissingData)
    ensures data == Some(JNull) ==> r == Panicked
    ensures data.Some? && data.value.JObject? ==> r == Accepted(JObject(WithAuthor(data.value.fields, userId)))
    ensures data.Some? && !data.value.JObject? && data.value != JNull ==> r == Rejected(MalformedData)
  {
    match data
    case None => Rejected(MissingData)
    case Some(JNull) => Panicked
    case Some(JObject(fields)) => Accepted(JObject(WithAuthor(fields, userId)))
    case Some(_) => Rejected(MalformedData)
  }

  /** The data check with `null` refused like any other value that is not an
      object. */
  function CheckPublishData(data: Option<Json>, userId: string): (r: DataCheck)
    ensures !r.Panicked?
    ensures r.Accepted? <==> data.Some? && data.value.JObject?
    ensures data.None? ==> r == Rejected(MissingData)
    ensures data.Some? && !data.value.JObject? ==> r == Rejected(MalformedData)
    ensures r.Accepted? ==> r.data == JObject(WithAuthor(data.value.fields, userId))
  {
    match data
    case None => Rejected(MissingData)
    case Some(JObject(fields)) => Accepted(JObject(WithAuthor(fields, userId)))
    case Some(_) => Rejected(MalformedData)
  }

  /** A publish whose data is `null` panics as written, which ends the
      server process; the corrected check refuses it as malformed. */
  lemma NullDataPanics(userId: string)
    ensures CheckPublishDataAsWritten(Some(JNull), userId) == Panicked
    ensures CheckPublishData(Some(JNull), userId) == Rejected(MalformedData)
  {
  }

  /** The correction changes nothing but the `null` case. */
  lemma CheckAgreesBesideNull(data: Option<Json>, userId: string)
    requires data != Some(JNull)
    ensures CheckPublishData(data, userId) == CheckPublishDataAsWritten(data, userId)
  {
  }

  /** The author stamp is idempotent, and an author the publisher supplied
      is never overwritten. */
  lemma AuthorStampIdempotent(data: Json, userId: string, other: string)
    requires CheckPublishData(Some(data), userId).Accepted?
    ensures var out := CheckPublishData(Some(data), userId).data;
      && CheckPublishData(Some(out), other) == Accepted(out)
      && out.fields[FromKey] == (if FromKey in data.fields then data.fields[FromKey] else JString(userId))
  {
    var out := CheckPublishData(Some(data), userId).data;
    assert WithAuthor(out.fields, other) == out.fields;
  }

  // ------------------------------------------------------------ dispatch

  /** What an inbound frame asks of the registry once the handler's own
      checks have passed; `Refuse` is a frame the handler answers itself. */
  datatype Request =
    | Join(channel: string, event: string)
    | Quit(channel: string, event: string)
    | Post(channel: string, event: string, data: Json)
    | Refuse(message: string)

  /** processMessage and the checks at the head of handleSubscribe,
      handleUnsubscribe and handlePublish: the type decides, an empty channel
      is refused, an empty event stands for the wildcard, and the data of a
      publish must be an object, stamped with the author. */
  function Route(msg: WebSocketMessage, userId: string): (r: Request)
    ensures msg.msgType !in {MessageTypeSubscribe, MessageTypeUnsubscribe, MessageTypePublish}
      ==> r == Refuse(UnsupportedType(msg.msgType))
    ensures msg.msgType in {MessageTypeSubscribe, MessageTypeUnsubscribe, MessageTypePublish} && msg.channel == ""
      ==> r == Refuse(MissingChannel)
    ensures r.Join? <==> msg.msgType == MessageTypeSubscribe && msg.channel != ""
    ensures r.Quit? <==> msg.msgType == MessageTypeUnsubscribe && msg.channel != ""
    ensures r.Post? <==> msg.msgType == MessageTypePublish && msg.channel != "" && CheckPublishData(msg.data, userId).Accepted?
    ensures !r.Refuse? ==> r.channel == msg.channel && r.event == EventOrDefault(msg.event) && r.event != ""
    ensures r.Post? ==> r.data == CheckPublishData(msg.data, userId).data
    ensures msg.msgType == MessageTypePublish && msg.channel != "" && !r.Post?
      ==> r == Refuse(CheckPublishData(msg.data, userId).message)
  {
    if msg.msgType == MessageTypeSubscribe then
      if msg.channel == "" then Refuse(MissingChannel) else Join(msg.channel, EventOrDefault(msg.event))
    else if msg.msgType == MessageTypeUnsubscribe then
      if msg.channel == "" then Refuse(MissingChannel) else Quit(msg.channel, EventOrDefault(msg.event))
    else if msg.msgType == MessageTypePublish then
      if msg.channel == "" then Refuse(MissingChannel)
      else match CheckPublishData(msg.data, userId)
        case Accepted(data) => Post(msg.channel, EventOrDefault(msg.event), data)
        case Rejected(message) => Refuse(message)
    else Refuse(UnsupportedType(msg.msgType))
  }

  /** The data of the acknowledgement of an unsubscribe. */
  function UnsubscribedData(channel: string): Json {
    JObject(map["status" := JString(MessageTypeUnsubscribed), "room" := JString(channel)])
  }

  /** The effect of one inbound frame: the new registry, the frames sent back
      to the connection, and for a publish the ids reached and the frame they got. */
  datatype Handled = Handled(state: State, replies: seq<WebSocketMessage>, delivered: set<string>, broadcast: Option<WebSocketMessage>)

  /** A registry error goes back to the connection as one error frame. */
  function ErrorReply(message: string): (r: seq<WebSocketMessage>)
    ensures |r| == 1 && r[0].msgType == MessageTypeError
    ensures r[0].error == Some(ErrorInfo(StatusBadRequest, message))
    ensures r[0].channel == "" && r[0].event == "" && r[0].data.None?
  {
    [NewErrorMessage(StatusBadRequest, message)]
  }

  /** processMessage for the connection whose client id is `id`. */
  function Handle(s: State, maxRoomUsers: int, id: string, userId: string, msg: WebSocketMessage, failing: set<string>): (h: Handled)
    ensures |h.replies| <= 1
    ensures forall r :: r in h.replies ==> r.msgType == MessageTypeError || r.msgType == MessageTypeUnsubscribed
    ensures Route(msg, userId).Refuse? ==> h.state == s && h.replies == ErrorReply(Route(msg, userId).message)
    ensures h.broadcast.Some? <==> Route(msg, userId).Post? && h.replies == []
    ensures id !in h.delivered
  {
    match Route(msg, userId)
    case Refuse(message) => Handled(s, ErrorReply(message), {}, None)
    case Join(channel, event) =>
      var o := Subscribe(s, maxRoomUsers, id, channel, event);
      if o.status.Err? then Handled(o.state, ErrorReply(o.status.message), {}, None)
      else Handled(o.state, [], {}, None)
    case Quit(channel, event) =>
      var o := Unsubscribe(s, id, channel, event);
      if o.status.Err? then Handled(o.state, ErrorReply(o.status.message), {}, None)
      else Handled(o.state, [NewWebSocketMessage(MessageTypeUnsubscribed, channel, event, Some(UnsubscribedData(channel)))], {}, None)
    case Post(channel, event, data) =>
      var p := Publish(s, id, channel, event, data, failing);
      if p.status.Err? then Handled(p.state, ErrorReply(p.status.message), {}, None)
      else Handled(p.state, [], p.delivered, Some(p.frame))
  }

  /** At most one frame goes back per inbound frame; it is an error or the
      acknowledgement of an unsubscribe, a join succeeds silently, and a
      publish never reaches its own sender. */
  lemma HandleReplies(s: State, maxRoomUsers: int, id: string, userId: string, msg: WebSocketMessage, failing: set<string>)
    ensures var h := Handle(s, maxRoomUsers, id, userId, msg, failing);
      && |h.replies| <= 1
      && (forall r :: r in h.replies ==> r.msgType in {MessageTypeError, MessageTypeUnsubscribed})
      && id !in h.delivered
      && (h.delivered != {} ==> h.broadcast.Some?)
      && (Route(msg, userId).Join? && Subscribe(s, maxRoomUsers, id, msg.channel, EventOrDefault(msg.event)).status == Ok
          ==> h.replies == [])
  {
    match Route(msg, userId)
    case Refuse(message) =>
    case Join(channel, event) =>
    case Quit(channel, event) =>
    case Post(channel, event, data) =>
  }

  /** A registry error comes back as exactly one error frame with code 400
      carrying the error's text, and the registry is left as the failed call
      left it; a successful unsubscribe is acknowledged by one frame echoing
      the channel and the event sent on. */
  lemma ServiceOutcomeReplies(s: State, maxRoomUsers: int, id: string, userId: string, msg: WebSocketMessage, failing: set<string>)
    requires !Route(msg, userId).Refuse?
    ensures var h := Handle(s, maxRoomUsers, id, userId, msg, failing);
      var r := Route(msg, userId);
      && (r.Join? && Subscribe(s, maxRoomUsers, id, r.channel, r.event).status.Err? ==>
            h.replies == [NewErrorMessage(StatusBadRequest, Subscribe(s, maxRoomUsers, id, r.channel, r.event).status.message)]
            && h.state == Subscribe(s, maxRoomUsers, id, r.channel, r.event).state)
      && (r.Quit? && Unsubscribe(s, id, r.channel, r.event).status.Err? ==>
            h.replies == [NewErrorMessage(StatusBadRequest, ErrClientNotFound)] && h.state == s)
      && (r.Quit? && Unsubscribe(s, id, r.channel, r.event).status == Ok ==>
            h.replies == [NewWebSocketMessage(MessageTypeUnsubscribed, msg.channel, EventOrDefault(msg.event),
                                              Some(UnsubscribedData(msg.channel)))])
      && (r.Post? && Publish(s, id, r.channel, r.event, r.data, failing).status.Err? ==>
            h.replies == [NewErrorMessage(StatusBadRequest, Publish(s, id, r.channel, r.event, r.data, failing).status.message)]
            && h.state == s && h.delivered == {} && h.broadcast.None?)
  {
  }

  /** A frame the handler refuses itself changes nothing and is answered by
      exactly one error frame with code 400. */
  lemma RefusalChangesNothing(s: State, maxRoomUsers: int, id: string, userId: string, msg: WebSocketMessage, failing: set<string>)
    requires Route(msg, userId).Refuse?
    ensures var h := Handle(s, maxRoomUsers, id, userId, msg, failing);
      && h.state == s && h.delivered == {}
      && h.replies == [NewErrorMessage(StatusBadRequest, Route(msg, userId).message)]
  {
  }

  /** Through the handler an unsubscribe without an event is a full leave of
      the room (the empty event is sent on as the wildcard), acknowledged
      with the wildcard as its event. */
  lemma UnsubscribeWithoutEventLeaves(s: State, maxRoomUsers: int, id: string, userId: string, channel: string, failing: set<string>)
    requires id in s.clients && channel != ""
    ensures var msg := WebSocketMessage(MessageTypeUnsubscribe, channel, "", None, None);
      var h := Handle(s, maxRoomUsers, id, userId, msg, failing);
      && h.state == Leave(s, id, channel)
      && h.replies == [WebSocketMessage(MessageTypeUnsubscribed, channel, SignalAll, Some(UnsubscribedData(channel)), None)]
  {
    var msg := WebSocketMessage(MessageTypeUnsubscribe, channel, "", None, None);
    assert Route(msg, userId) == Quit(channel, SignalAll);
  }

  /** Through the handler a subscribe without an event listens to the wildcard. */
  lemma SubscribeWithoutEventHearsAll(s: State, maxRoomUsers: int, id: string, userId: string, channel: string, failing: set<string>)
    requires channel != ""
    ensures var msg := WebSocketMessage(MessageTypeSubscribe, channel, "", None, None);
      var h := Handle(s, maxRoomUsers, id, userId, msg, failing);
      h.replies == [] ==> id in h.state.clients && SignalAll in h.state.clients[id].events
  {
    var msg := WebSocketMessage(MessageTypeSubscribe, channel, "", None, None);
    assert Route(msg, userId) == Join(channel, SignalAll);
  }

  /** One inbound frame keeps the registry invariant, given a room capacity
      of at least one. */
  lemma HandlePreservesInv(s: State, maxRoomUsers: int, id: string, userId: string, msg: WebSocketMessage, failing: set<string>)
    requires Inv(s) && maxRoomUsers >= 1
    ensures Inv(Handle(s, maxRoomUsers, id, userId, msg, failing).state)
  {
    match Route(msg, userId)
    case Refuse(message) =>
    case Join(channel, event) =>
      RegistryLaws.SubscribePreservesInv(s, maxRoomUsers, id, channel, event);
    case Quit(channel, event) =>
      RegistryLaws.UnsubscribePreservesInv(s, id, channel, event);
    case Post(channel, event, data) =>
      RegistryLaws.PublishPreservesInv(s, id, channel, event, data, failing);
  }

  // ------------------------------------------------------------ sessions

  /** What the reader of one connection sees: a frame, read at clock reading
      `at` while the connections in `failing` refuse writes, or a pong. */
  datatype Inbound =
    | Frame(at: int, msg: WebSocketMessage, failing: set<string>)
    | Pong(at: int)

  /** A sign of life: the registered client's last-ping reading moves to `now`;
      a client no longer registered is left unregistered. */
  function Touch(s: State, id: string, now: int): (r: State)
    ensures r.rooms == s.rooms && r.clients.Keys == s.clients.Keys
    ensures id in s.clients ==> r.clients[id] == s.clients[id].(lastPing := now)
    ensures forall other :: other in s.clients && other != id ==> r.clients[other] == s.clients[other]
  {
    if id in s.clients then s.(clients := s.clients[id := s.clients[id].(lastPing := now)]) else s
  }

  /** The registry and the frames sent back after the reader has handled `inbound`. */
  function Session(s: State, maxRoomUsers: int, id: string, userId: string, inbound: seq<Inbound>): (r: (State, seq<WebSocketMessage>))
    ensures |r.1| <= |inbound|
    ensures forall m :: m in r.1 ==> m.msgType == MessageTypeError || m.msgType == MessageTypeUnsubscribed
    decreases |inbound|
  {
    if |inbound| == 0 then (s, [])
    else
      var (mid, replies) := Session(s, maxRoomUsers, id, userId, inbound[..|inbound| - 1]);
      match inbound[|inbound| - 1]
      case Pong(at) => (Touch(mid, id, at), replies)
      case Frame(at, msg, failing) =>
        var h := Handle(Touch(mid, id, at), maxRoomUsers, id, userId, msg, failing);
        (h.state, replies + h.replies)
  }

  /** A sign of life keeps the invariant. */
  lemma TouchPreservesInv(s: State, id: string, now: int)
    requires Inv(s)
    ensures Inv(Touch(s, id, now))
  {
  }

  /** A whole session keeps the invariant. */
  lemma {:induction false} SessionPreservesInv(s: State, maxRoomUsers: int, id: string, userId: string, inbound: seq<Inbound>)
    requires Inv(s) && maxRoomUsers >= 1
    ensures Inv(Session(s, maxRoomUsers, id, userId, inbound).0)
    decreases |inbound|
  {
    if |inbound| > 0 {
      var mid := Session(s, maxRoomUsers, id, userId, inbound[..|inbound| - 1]).0;
      SessionPreservesInv(s, maxRoomUsers, id, userId, inbound[..|inbound| - 1]);
      TouchPreservesInv(mid, id, inbound[|inbound| - 1].at);
      match inbound[|inbound| - 1]
      case Pong(at) =>
      case Frame(at, msg, failing) =>
        HandlePreservesInv(Touch(mid, id, at), maxRoomUsers, id, userId, msg, failing);
    }
  }

  /** How a connection attempt ends: refused before the upgrade with a status
      and an error text, or served, with the frames sent back to it. */
  datatype Admission = Refused(status: int, error: string) | Served(replies: seq<WebSocketMessage>)

  /** The client a served connection registers: its id doubles as its user id. */
  function AuthenticatedClient(id: string, now: int): (c: Client)
    ensures c.id == id && c.userId == id && c.lastPing == now
    ensures c.rooms == {} && c.events == {} && c.metadata == map["authenticated" := JBool(true)]
  {
    NewClient(id, id, now).(metadata := map["authenticated" := JBool(true)])
  }

  /** HandleWebSocket. `authError` is the verdict of the token check (an
      outside service); `id` is the fresh identifier drawn for the client. */
  function Connection(s: State, maxRoomUsers: int, token: string, authError: Option<string>, id: string, now: int,
                      inbound: seq<Inbound>): (r: (State, Admission))
    ensures r.1.Refused? <==> token == "" || authError.Some?
    ensures r.1.Refused? ==> r.0 == s && r.1.status == StatusUnauthorized
    ensures r.1.Served? ==> id !in r.0.clients
  {
    if token == "" then (s, Refused(StatusUnauthorized, MissingToken))
    else if authError.Some? then (s, Refused(StatusUnauthorized, TokenRejected + authError.value))
    else
      var (after, replies) := Session(AddClient(s, AuthenticatedClient(id, now)), maxRoomUsers, id, id, inbound);
      (RemoveClient(after, id), Served(replies))
  }

  /** A refused connection leaves the registry alone; a served one leaves no
      trace of its client, and the invariant holds throughout. */
  lemma ConnectionLeavesNoTrace(s: State, maxRoomUsers: int, token: string, authError: Option<string>, id: string, now: int,
                                inbound: seq<Inbound>)
    requires Inv(s) && maxRoomUsers >= 1 && id !in s.clients
    ensures var (r, a) := Connection(s, maxRoomUsers, token, authError, id, now, inbound);
      && Inv(r)
      && (a.Refused? <==> token == "" || authError.Some?)
      && (a.Refused? ==> r == s && a.status == StatusUnauthorized)
      && id !in r.clients
      && (forall n :: n in r.rooms ==> id !in r.rooms[n].clientIds)
  {
    if token != "" && authError.None? {
      var joined := AddClient(s, AuthenticatedClient(id, now));
      RegistryLaws.AddClientPreservesInv(s, AuthenticatedClient(id, now));
      SessionPreservesInv(joined, maxRoomUsers, id, id, inbound);
      RegistryLaws.RemoveClientPreservesInv(Session(joined, maxRoomUsers, id, id, inbound).0, id);
    }
  }

  // ---------------------------------------------------------- the class

  /** WebSocketHandler, over the registry it dispatches to. The token service
      is an outside call and appears only as its verdict. */
  class WebSocketHandler {
    const ws: Service.WebSocketService

    constructor (ws: Service.WebSocketService)
      ensures this.ws == ws
    {
      this.ws := ws;
    }

    /** handleSubscribe, after the checks of Route. */
    method HandleSubscribe(id: string, channel: string, event: string) returns (replies: seq<WebSocketMessage>)
      requires ws.Valid()
      modifies ws
      ensures ws.Valid()
      ensures var o := Subscribe(old(ws.Snapshot()), ws.maxRoomUsers, id, channel, event);
        ws.Snapshot() == o.state && replies == (if o.status.Err? then ErrorReply(o.status.message) else [])
      ensures old(ws.Healthy()) && ws.maxRoomUsers >= 1 ==> ws.Healthy()
    {
      var status := ws.SubscribeToRoom(id, channel, event);
      if status.Err? {
        replies := ErrorReply(status.message);
      } else {
        replies := [];
      }
    }

    /** handleUnsubscribe, after the checks of Route. */
    method HandleUnsubscribe(id: string, channel: string, event: string) returns (replies: seq<WebSocketMessage>)
      requires ws.Valid()
      modifies ws
      ensures ws.Valid()
      ensures var o := Unsubscribe(old(ws.Snapshot()), id, channel, event);
        && ws.Snapshot() == o.state
        && replies == (if o.status.Err? then ErrorReply(o.status.message)
                       else [NewWebSocketMessage(MessageTypeUnsubscribed, channel, event, Some(UnsubscribedData(channel)))])
      ensures old(ws.Healthy()) ==> ws.Healthy()
    {
      var status := ws.UnsubscribeFromRoom(id, channel, event);
      if status.Err? {
        replies := ErrorReply(status.message);
      } else {
        replies := [NewWebSocketMessage(MessageTypeUnsubscribed, channel, event, Some(UnsubscribedData(channel)))];
      }
    }

    /** handlePublish, after the checks of Route. */
    method HandlePublish(id: string, channel: string, event: string, data: Json, failing: set<string>)
      returns (replies: seq<WebSocketMessage>, delivered: set<string>, broadcast: Option<WebSocketMessage>)
      requires ws.Valid()
      modifies ws
      ensures ws.Valid()
      ensures var p := Publish(old(ws.Snapshot()), id, channel, event, data, failing);
        && ws.Snapshot() == p.state
        && replies == (if p.status.Err? then ErrorReply(p.status.message) else [])
        && delivered == (if p.status.Err? then {} else p.delivered)
        && broadcast == (if p.status.Err? then None else Some(p.frame))
      ensures old(ws.Healthy()) ==> ws.Healthy()
    {
      var status, count, reached, frame := ws.PublishToRoom(id, channel, event, data, failing);
      if status.Err? {
        replies, delivered, broadcast := ErrorReply(status.message), {}, None;
      } else {
        replies, delivered, broadcast := [], reached, Some(frame);
      }
    }

    /** processMessage. */
    method ProcessMessage(id: string, userId: string, msg: WebSocketMessage, failing: set<string>)
      returns (replies: seq<WebSocketMessage>, delivered: set<string>, broadcast: Option<WebSocketMessage>)
      requires ws.Valid()
      modifies ws
      ensures ws.Valid()
      ensures Handled(ws.Snapshot(), replies, delivered, broadcast)
        == Handle(old(ws.Snapshot()), ws.maxRoomUsers, id, userId, msg, failing)
      ensures old(ws.Healthy()) && ws.maxRoomUsers >= 1 ==> ws.Healthy()
    {
      delivered, broadcast := {}, None;
      match Route(msg, userId)
      case Refuse(message) =>
        replies := ErrorReply(message);
      case Join(channel, event) =>
        replies := HandleSubscribe(id, channel, event);
      case Quit(channel, event) =>
        replies := HandleUnsubscribe(id, channel, event);
      case Post(channel, event, data) =>
        replies, delivered, broadcast := HandlePublish(id, channel, event, data, failing);
    }

    /** The shared client record is stamped by the reader (and by the pong
        handler) with the time of the last sign of life. */
    method StampLastPing(id: string, now: int)
      requires ws.Valid()
      modifies ws
      ensures ws.Snapshot() == Touch(old(ws.Snapshot()), id, now) && ws.Valid()
      ensures old(ws.Healthy()) ==> ws.Healthy()
    {
      if id in ws.clients {
        ws.clients := ws.clients[id := ws.clients[id].(lastPing := now)];
      }
    }

    /** handleMessages: read until the connection ends, stamping the client
        and dispatching each frame. */
    method HandleMessages(id: string, userId: string, inbound: seq<Inbound>) returns (replies: seq<WebSocketMessage>)
      requires ws.Valid()
      modifies ws
      ensures ws.Valid()
      ensures (ws.Snapshot(), replies) == Session(old(ws.Snapshot()), ws.maxRoomUsers, id, userId, inbound)
    {
      ghost var s0 := ws.Snapshot();
      replies := [];
      var i := 0;
      while i < |inbound|
        invariant 0 <= i <= |inbound| && ws.Valid()
        invariant (ws.Snapshot(), replies) == Session(s0, ws.maxRoomUsers, id, userId, inbound[..i])
      {
        assert inbound[..i + 1][..i] == inbound[..i];
        match inbound[i] {
          case Pong(at) =>
            StampLastPing(id, at);
          case Frame(at, msg, failing) =>
            StampLastPing(id, at);
            var sent, reached, frame := ProcessMessage(id, userId, msg, failing);
            replies := replies + sent;
        }
        i := i + 1;
      }
      assert inbound[..i] == inbound;
    }

    /** HandleWebSocket: the token is required and must pass the check; the
        client is registered under the fresh id, served, and removed when
        the connection ends. */
    method HandleWebSocket(token: string, authError: Option<string>, id: string, now: int, inbound: seq<Inbound>)
      returns (admission: Admission)
      requires ws.Valid()
      modifies ws
      ensures ws.Valid()
      ensures (ws.Snapshot(), admission) == Connection(old(ws.Snapshot()), ws.maxRoomUsers, token, authError, id, now, inbound)
    {
      if token == "" {
        return Refused(StatusUnauthorized, MissingToken);
      }
      if authError.Some? {
        return Refused(StatusUnauthorized, TokenRejected + authError.value);
      }
      var client := NewClient(id, id, now);
      client := client.(metadata := client.metadata["authenticated" := JBool(true)]);
      ws.AddClient(client);
      var replies := HandleMessages(id, id, inbound);
      ws.RemoveClient(id);
      admission := Served(replies);
    }
  }
}
