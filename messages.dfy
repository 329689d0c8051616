/** Records exchanged on the wire and kept by the registry: the frame, its error
    payload, the connected client and the room (internal/model/message.go). */
module Messages {

  datatype Option<+T> = None | Some(value: T)

  // Frame types; the first three are inbound, the rest outbound.
  const MessageTypeSubscribe := "subscribe"
  const MessageTypeUnsubscribe := "unsubscribe"
  const MessageTypePublish := "publish"
  const MessageTypeSubscribed := "subscribed"
  const MessageTypeMessage := "message"
  const MessageTypeError := "error"

  /** A decoded JSON value. Numbers keep their literal text: no arithmetic is done on them. */
  datatype Json =
    | JNull
    | JBool(b: bool)
    | JNumber(literal: string)
    | JString(s: string)
    | JArray(items: seq<Json>)
    | JObject(fields: map<string, Json>)

  datatype ErrorInfo = ErrorInfo(code: int, message: string)

  /** A frame. The empty string stands for an absent channel or event, as with
      the source's `omitempty` string fields; the send timestamp is not modelled. */
  datatype WebSocketMessage = WebSocketMessage(
    msgType: string,
    channel: string,
    event: string,
    data: Option<Json>,
    error: Option<ErrorInfo>)

  /** A connected client: the rooms it has joined, the events it listens to, and
      the clock reading of its last sign of life. */
  datatype Client = Client(
    id: string,
    userId: string,
    rooms: set<string>,
    events: set<string>,
    lastPing: int,
    metadata: map<string, Json>)

  /** A room holds the ids of its members, never the clients themselves. */
  datatype Room = Room(name: string, clientIds: set<string>)

  /** A frame built by the server; absent data stays absent. */
  function NewWebSocketMessage(msgType: string, channel: string, event: string, data: Option<Json>): (m: WebSocketMessage)
    ensures m.msgType == msgType && m.channel == channel && m.event == event
    ensures m.data == data && m.error.None?
  {
    WebSocketMessage(msgType, channel, event, data, None)
  }

  /** An error frame carries only its type and the error payload. */
  function NewErrorMessage(code: int, message: string): (m: WebSocketMessage)
    ensures m.msgType == MessageTypeError && m.error == Some(ErrorInfo(code, message))
    ensures m.channel == "" && m.event == "" && m.data.None?
  {
    WebSocketMessage(MessageTypeError, "", "", None, Some(ErrorInfo(code, message)))
  }

  /** A fresh client belongs to no room, listens to no event and has no metadata. */
  function NewClient(id: string, userId: string, now: int): (c: Client)
    ensures c.id == id && c.userId == userId && c.lastPing == now
    ensures c.rooms == {} && c.events == {} && c.metadata == map[]
  {
    Client(id, userId, {}, {}, now, map[])
  }

  /** A fresh room has no member. */
  function NewRoom(name: string): (r: Room)
    ensures r.name == name && r.clientIds == {}
  {
    Room(name, {})
  }
}
