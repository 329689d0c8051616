# letshare_server registry, in Dafny

A model of the real-time core of the letshare signalling server: the
in-memory registry of WebSocket connections and rooms
(`WebSocketService`), the room-name rules it applies, the endpoint that
authenticates a connection and dispatches its frames, and the wire and
record types they share.

- `messages.dfy` (module `Messages`): the frame (`WebSocketMessage`), its
  error payload, the `Client` and `Room` records, the frame-type constants
  and the four constructors. JSON payloads are a small `Json` datatype.
- `room_names.dfy` (module `RoomNames`): the length-then-character-class
  check of a room name (counted in code points), the trim of surrounding
  U+0020 spaces as the source's two index loops do it, and the internal
  `room:` key.
- `registry.dfy` (module `Registry`): the registry as a value
  `State(clients, rooms)` and each service operation as a function from the
  old state to the new one and its error. It also defines the registry
  invariant `Inv`: a client lists a room exactly when the room lists the
  client, and no room is empty.
- `membership.dfy` (module `Membership`): the room side of leaving, as a set
  of (client, room) departures. Because departures commute, the source's
  loops over Go maps, whose order is unspecified, have one meaning.
- `registry_laws.dfy` (module `RegistryLaws`): what the operations promise
  together. Every operation keeps `Inv`, with two qualifications: a new
  client must be fresh and in no room, and a subscribe keeps only the
  two-sided consistency when the room capacity is below one. Removal is
  idempotent and composes, capacity gates new members only, and the publish
  filter delivers to exactly the right members.
- `service.dfy` (module `Service`): class `WebSocketService`, whose two map
  fields are updated in place by methods with the source's loops. Each
  mutating method is proved to leave exactly the state the matching
  `Registry` function gives. The public methods are also proved to keep
  `Inv` under the same qualifications as their functions. The two internal
  teardown steps, `RemoveClientFromRoom` and `CleanupClientResources`, are
  specified only by the state they produce; their callers prove `Inv`.
- `handler.dfy` (module `Handler`): the dispatch of one inbound frame
  (`Route`, `Handle`), the read loop (`Session`), the connection's life
  (`Connection`), and class `WebSocketHandler` with methods proved against
  those functions.
- `scenarios.dfy` (module `Scenarios`): end-to-end scenarios, stated and proved
  as lemmas.
  - Two peers join a room and one publishes a discovery object that only
    the other receives.
  - An idle member is reaped together with its room.

The clock is an integer number of nanoseconds. A write to a connection
that fails is modelled by a parameter `failing`, the set of client ids
whose connection refuses writes. The token check is modelled by its verdict
`authError`, and the fresh client identifier by a parameter `id`.

## Model

| member | source | states |
|---|---|---|
| Messages.NewWebSocketMessage | internal/model/message.go:54-69 | type, channel and event are copied verbatim, absent data stays absent, and there is no error payload |
| Messages.NewErrorMessage | internal/model/message.go:72-81 | an error frame has type "error", the error payload (code, message), and no channel, event or data |
| Messages.NewClient | internal/model/message.go:84-94 | id and user id as given, last ping at the current clock reading, no rooms, no events, no metadata |
| Messages.NewRoom | internal/model/message.go:97-104 | the given name and no member |
| RoomNames.IsHan | internal/service/room.go:16 | `\p{Han}` contains the whole range U+4E00..U+9FA5 and nothing below U+2E80, so no ASCII character |
| RoomNames.AllowedRune | internal/service/room.go:16 | every Han code point is allowed, and below the Han blocks exactly the ASCII letters, digits, space, `_` and `-` are |
| RoomNames.FrontendNamesAccepted | internal/service/room.go:14-41 | every 2-to-12-character name the client-side class `[\u4e00-\u9fa5a-zA-Z0-9 _-]` accepts is accepted here, with an empty message |
| RoomNames.MatchesNamePattern | internal/service/room.go:16 | the anchored pattern accepts exactly the non-empty names all of whose code points are Han, ASCII letters or digits, space, `_` or `-` |
| RoomNames.ValidateRoomName | internal/service/room.go:23-41 | fewer than 2 code points gives the too-short message, more than 12 the too-long message; a name is accepted iff it has 2 to 12 code points all in the class; an in-range name outside the class gets the bad-character message, and the message is empty exactly on acceptance |
| RoomNames.LengthCountsRunes | internal/service/room.go:24-33 | length is counted in code points and checked before the class: twelve Han characters (36 UTF-8 bytes) pass, "!" is too short rather than badly formed, and 13 letters are too long |
| RoomNames.HanWiderThanBasicBlock | internal/service/room.go:14-16 | `\p{Han}` accepts a name of U+3400, which lies outside the U+4E00..U+9FA5 range cited for the client side |
| RoomNames.LeadingSpaces | internal/service/room.go:50-53 | the first loop stops at the first code point that is not U+0020, or at the end |
| RoomNames.TrailingSpaces | internal/service/room.go:56-59 | the second loop stops at the last code point that is not U+0020 |
| RoomNames.TrimSpaces | internal/service/room.go:44-66 | the result neither starts nor ends with U+0020, and it is a contiguous slice of the input with only U+0020 around it |
| RoomNames.TrimSpacesIdempotent | internal/service/room.go:44-66 | sanitising twice is sanitising once |
| RoomNames.TrimSpacesEmpty | internal/service/room.go:61-65 | the result is empty exactly when the input is empty or all spaces |
| RoomNames.TrimKeepsOtherWhiteSpace | internal/service/room.go:51-59 | only U+0020 is trimmed: a string not starting or ending with it comes back unchanged |
| RoomNames.SanitizeRoomName | internal/service/room.go:44-66 | the two index loops compute the trimmed name |
| RoomNames.GenerateRoomID | internal/service/room.go:69-73 | the key is "room:" followed by the trimmed name, with no change of case |
| Membership.DropMemberships | internal/service/websocket.go:281-312 | no room is created; each remaining room keeps its name and loses exactly its departing ids; a room with members left survives; a room that lost members survives only if it is not empty |
| Membership.DropNothing | internal/service/websocket.go:281-312 | no departure leaves the room table unchanged |
| Membership.DropOne | internal/service/websocket.go:281-312 | one departure removes the id from its room, deletes the room if that empties it, and leaves a missing room missing |
| Membership.LeavingUnion | internal/service/websocket.go:85-87 | the departures from a room of two batches are those of each batch |
| Membership.DropCompose | internal/service/websocket.go:85-87 | departures applied in two batches give the same table as all at once, so the order of the Go map loops does not matter |
| Registry.Empty | internal/service/websocket.go:24-36 | a new service has no clients and no rooms, and satisfies the invariant |
| Registry.EventOrDefault | internal/service/websocket.go:140-145 | an empty event stands for "signal:all"; any other event stands for itself |
| Registry.AddClient | internal/service/websocket.go:39-49 | the client is filed under its id, replacing any earlier record; other clients and the rooms are unchanged |
| Registry.GetClient | internal/service/websocket.go:97-102 | found exactly when registered, and then the registered record |
| Registry.LeftRoom | internal/service/websocket.go:295-305 | the client drops the room and keeps only the "signal:all" event, whatever room the other events were for |
| Registry.Leave | internal/service/websocket.go:281-312 | a missing room is a no-op; otherwise the id leaves the room, the room survives exactly when members remain, the client (if registered) is updated by LeftRoom, and nothing else changes |
| Registry.RemoveClients | internal/service/websocket.go:52-94 | the given clients leave the client table and every other record is unchanged |
| Registry.RemoveClient | internal/service/websocket.go:52-70 | an absent id is a no-op; otherwise exactly that client leaves the table |
| Registry.Subscribe | internal/service/websocket.go:105-157 | a bad name or unknown client is refused with no change. A full room refuses a new member with the capacity message and leaves the state alone, but never refuses a member that is already in. A join adds the membership on both sides (a new room is filed under its name), adds the event (or "signal:all") to the existing events, and changes nothing else |
| Registry.Unsubscribe | internal/service/websocket.go:160-191 | an unknown client is refused with no change; a concrete event other than "signal:all" only deletes that event; an empty event or "signal:all" is a full Leave |
| Registry.ShouldReceive | internal/service/websocket.go:232-239 | a wildcard listener always passes, a listener of a concrete event passes it, and nobody else passes: a broadcast needs the wildcard |
| Registry.Recipients | internal/service/websocket.go:218-246 | the recipients are exactly the members of the room other than the sender that are registered and pass the filter |
| RegistryLaws.BroadcastEffect | internal/service/websocket.go:217-247 | the broadcast loop removes exactly the recipients whose write failed from the client table, keeps every other record, and creates no room |
| Registry.Publish | internal/service/websocket.go:194-259 | unknown sender, a room the sender does not list, and a missing room are the three errors, each with no change; success is exactly their absence; the frame is a "message" frame on the room; the sender is never among the delivered |
| Registry.Inactive | internal/service/websocket.go:346-355 | exactly the registered clients whose last ping is more than five minutes old |
| Registry.Sweep | internal/service/websocket.go:345-362 | a client survives exactly when its last ping is at most five minutes old |
| Registry.GetRoomInfo | internal/service/websocket.go:315-331 | none for a missing room; otherwise its name, member count and the configured capacity |
| RegistryLaws.EvictionsLeaving | internal/service/websocket.go:73-94 | under the invariant, the evicted ids leaving a room are exactly its evicted members |
| RegistryLaws.RemoveClientsRooms | internal/service/websocket.go:73-94 | under the invariant, removing clients takes their ids out of every room and deletes exactly the rooms left empty |
| RegistryLaws.WithoutInv | internal/service/websocket.go:73-94 | the registry without some clients keeps the invariant |
| RegistryLaws.RemoveClientsPreservesInv | internal/service/websocket.go:52-94 | removing clients keeps the invariant |
| RegistryLaws.RemoveClientIsRemoveClients | internal/service/websocket.go:52-94 | removing one client is the batch removal of that one id |
| RegistryLaws.RemoveClientIdempotent | internal/service/websocket.go:52-58 | removing the same client twice is removing it once |
| RegistryLaws.RemoveClientPreservesInv | internal/service/websocket.go:52-94 | removal keeps the invariant and leaves the id in no room |
| RegistryLaws.RemoveClientsCompose | internal/service/websocket.go:358-361 | removing a and then b is removing a and b together, so the removal order of the sweep and shutdown loops does not matter |
| RegistryLaws.AddClientPreservesInv | internal/service/websocket.go:39-49 | registering a fresh client with no rooms keeps the invariant |
| RegistryLaws.LeftStateInv | internal/service/websocket.go:281-312 | the state a full leave builds keeps the invariant |
| RegistryLaws.LeavePreservesInv | internal/service/websocket.go:281-312 | a full leave keeps the invariant |
| RegistryLaws.SubscribeKeepsKeys | internal/service/websocket.go:117-145 | a join files the room and the client under their own keys |
| RegistryLaws.JoinConsistent | internal/service/websocket.go:133-145 | the state a join builds keeps the two-sided membership consistent |
| RegistryLaws.SubscribePreservesInv | internal/service/websocket.go:105-157 | a subscribe keeps the membership consistent, and with a capacity of at least one never leaves an empty room |
| RegistryLaws.UnsubscribePreservesInv | internal/service/websocket.go:160-191 | an unsubscribe keeps the invariant |
| RegistryLaws.RoomRecycled | internal/service/websocket.go:118-122 | when the last member leaves, the room is deleted, and the next join under that name creates a room holding only the joiner |
| RegistryLaws.DeliveryRule | internal/service/websocket.go:218-247 | the sender is never delivered to. A wildcard listener among the live members always gets the frame, and so does a listener of the concrete event. A broadcast skips a client without the wildcard, and a concrete event skips a client with neither that event nor the wildcard. Nobody outside the room's live members gets it |
| RegistryLaws.NoStaleMembers | internal/service/websocket.go:223-229 | under the invariant no room member is missing from the client table |
| RegistryLaws.PublishIsRemoval | internal/service/websocket.go:218-278 | under the invariant, a publish changes the registry only by removing the recipients whose write failed |
| RegistryLaws.PublishPreservesInv | internal/service/websocket.go:194-259 | a publish keeps the invariant, and the sender's room survives it |
| RegistryLaws.PublishCountBound | internal/service/websocket.go:217-247 | the number of recipients is at most the room size minus one |
| RegistryLaws.PublishPurgesStale | internal/service/websocket.go:224-229 | a member with no client behind it is purged from the room by a publish |
| RegistryLaws.BroadcastLookup | internal/service/websocket.go:218-247 | during the broadcast loop a member not yet handled is looked up with the record it had before the loop |
| RegistryLaws.RecipientsStep | internal/service/websocket.go:232-246 | handling one member adds it to the recipients exactly when it is not the sender, is registered, and passes the filter |
| RegistryLaws.BroadcastSkip | internal/service/websocket.go:219-243 | skipping the sender, a filtered-out member, or a successful write changes nothing |
| RegistryLaws.BroadcastStale | internal/service/websocket.go:224-229 | handling a member with no client is a full leave of the room for that id |
| RegistryLaws.BroadcastFailed | internal/service/websocket.go:245-277 | handling a recipient whose write fails is RemoveClient of that recipient |
| RegistryLaws.BroadcastNone | internal/service/websocket.go:217-218 | before the loop has handled anyone nothing has changed |
| RegistryLaws.RemoveClientsNone | internal/service/websocket.go:345-362 | removing nobody changes nothing |
| RegistryLaws.SweepPreservesInv | internal/service/websocket.go:345-362 | the sweep keeps the invariant |
| Service.WebSocketService.constructor | internal/service/websocket.go:24-36 | a new service is the empty registry with the configured capacity |
| Service.WebSocketService.AddClient | internal/service/websocket.go:39-49 | the client is filed under its id, replacing any earlier one; a fresh roomless client keeps the invariant |
| Service.WebSocketService.GetClient | internal/service/websocket.go:97-102 | returns the registered record, or nothing |
| Service.WebSocketService.RemoveClient | internal/service/websocket.go:52-70 | the new state is Registry.RemoveClient of the old, and the invariant is kept |
| Service.WebSocketService.CleanupClientResources | internal/service/websocket.go:73-94 | the loop over the client's rooms applies all its departures, and the client table is untouched |
| Service.WebSocketService.RemoveClientFromRoom | internal/service/websocket.go:281-312 | the new state is Registry.Leave of the old |
| Service.WebSocketService.KeepWildcard | internal/service/websocket.go:299-303 | the event loop keeps exactly "signal:all", if present |
| Service.WebSocketService.SubscribeToRoom | internal/service/websocket.go:105-157 | the new state and the error are Registry.Subscribe of the old state; the invariant is kept when the capacity is at least one |
| Service.WebSocketService.UnsubscribeFromRoom | internal/service/websocket.go:160-191 | the new state and the error are Registry.Unsubscribe of the old state; the invariant is kept |
| Service.WebSocketService.PublishToRoom | internal/service/websocket.go:194-259 | the new state, error, recipients and frame are Registry.Publish of the old state, the count is the number of recipients, and the invariant is kept |
| Service.WebSocketService.BroadcastToMembers | internal/service/websocket.go:217-247 | the loop over the room's members reaches the broadcast state and delivers to exactly the recipients, counting them |
| Service.WebSocketService.SetStep | internal/service/websocket.go:218 | moving one member from the pending to the handled set keeps the two a partition of the members |
| Service.WebSocketService.DeliverTo | internal/service/websocket.go:219-246 | one turn of the loop advances the broadcast state by one member, and the frame is handed over exactly when the member is not the sender, is registered, and passes the filter |
| Service.WebSocketService.SendToClient | internal/service/websocket.go:262-278 | a failed write removes the recipient; a successful one changes nothing |
| Service.WebSocketService.GetRoomInfo | internal/service/websocket.go:315-331 | returns Registry.GetRoomInfo of the current state |
| Service.WebSocketService.CollectInactive | internal/service/websocket.go:346-355 | the scan collects exactly the clients idle for longer than five minutes |
| Service.WebSocketService.CleanupInactiveClients | internal/service/websocket.go:345-362 | the new state is Registry.Sweep of the old, and the invariant is kept |
| Service.WebSocketService.Shutdown | internal/service/websocket.go:365-385 | both maps end empty |
| Service.WebSocketService.GetStats | internal/service/websocket.go:388-401 | the number of registered clients and of rooms |
| Handler.WithAuthor | internal/handler/websocket.go:212-218 | the object gains "from" with the user id when it has none; an existing "from" and every other field are kept |
| Handler.CheckPublishDataAsWritten | internal/handler/websocket.go:199-218 | absent data is "missing data", an object is accepted and stamped, any other value is "malformed data", and a JSON null panics in the reader goroutine, which ends the whole server process |
| Handler.CheckPublishData | internal/handler/websocket.go:199-218 | never crashes; accepted exactly for an object, which is stamped; absent data is "missing data" and any other value "malformed data" |
| Handler.NullDataPanics | internal/handler/websocket.go:200-214 | null data panics as written, ending the server process, and is refused as malformed once corrected |
| Handler.CheckAgreesBesideNull | internal/handler/websocket.go:199-218 | the corrected check differs from the written one only on null |
| Handler.AuthorStampIdempotent | internal/handler/websocket.go:212-218 | stamping is idempotent, and an author the publisher supplied is never overwritten |
| Handler.ErrorReply | internal/handler/websocket.go:242-251 | one frame of type "error" with code 400 and the message, and no channel, event or data |
| Handler.Route | internal/handler/websocket.go:119-218 | an unknown type is refused with "unsupported type" and that type; a known type with an empty channel is refused with "missing channel"; otherwise it becomes the matching registry request with the event defaulted to "signal:all"; publish data goes through the data check |
| Handler.ServiceOutcomeReplies | internal/handler/websocket.go:152-223 | a registry error comes back as exactly one 400 error frame carrying its text, leaving the state the failed call left; a successful unsubscribe is acknowledged by one "unsubscribed" frame echoing channel and event |
| Handler.Handle | internal/handler/websocket.go:119-224 | at most one frame goes back, an error or an unsubscribe acknowledgement; a refused frame leaves the registry alone and gets the error frame; a broadcast happens exactly for a publish with no error; the sender is never delivered to |
| Handler.HandleReplies | internal/handler/websocket.go:119-224 | at most one frame goes back per inbound frame, it is an error or an unsubscribe acknowledgement, a successful join is silent, and the sender is never among the delivered |
| Handler.RefusalChangesNothing | internal/handler/websocket.go:127-210 | a frame the handler refuses itself leaves the registry alone and gets exactly one 400 error frame |
| Handler.UnsubscribeWithoutEventLeaves | internal/handler/websocket.go:165-168 | through the handler an unsubscribe without an event is a full leave, acknowledged with "signal:all" as its event |
| Handler.SubscribeWithoutEventHearsAll | internal/handler/websocket.go:147-150 | through the handler a successful subscribe without an event listens to "signal:all" |
| Handler.HandlePreservesInv | internal/handler/websocket.go:119-137 | every inbound frame keeps the registry invariant, given a capacity of at least one |
| Handler.Touch | internal/handler/websocket.go:74-111 | a sign of life moves the client's last ping to now and changes nothing else |
| Handler.Session | internal/handler/websocket.go:100-116 | a session sends back no more frames than the frames and pongs it reads, each an error or an unsubscribe acknowledgement |
| Handler.TouchPreservesInv | internal/handler/websocket.go:111 | a sign of life keeps the invariant |
| Handler.SessionPreservesInv | internal/handler/websocket.go:100-116 | a whole session of frames and pongs keeps the invariant |
| Handler.AuthenticatedClient | internal/handler/websocket.go:62-65 | the client's user id is its id, it is marked authenticated, and it has no rooms or events |
| Handler.Connection | internal/handler/websocket.go:38-97 | a connection is refused exactly when the token is missing or rejected, then with 401 and no change; a served connection's client is unregistered at the end |
| Handler.ConnectionLeavesNoTrace | internal/handler/websocket.go:38-97 | a missing or rejected token is refused with 401 before anything is registered; a served connection's client is gone afterwards and in no room; the invariant holds |
| Handler.WebSocketHandler.constructor | internal/handler/websocket.go:30-35 | the handler dispatches to the given service |
| Handler.WebSocketHandler.HandleSubscribe | internal/handler/websocket.go:140-156 | calls SubscribeToRoom and answers only an error, with one 400 frame |
| Handler.WebSocketHandler.HandleUnsubscribe | internal/handler/websocket.go:159-185 | calls UnsubscribeFromRoom and answers an error with one 400 frame, success with the acknowledgement |
| Handler.WebSocketHandler.HandlePublish | internal/handler/websocket.go:188-224 | calls PublishToRoom and answers only an error, with one 400 frame |
| Handler.WebSocketHandler.ProcessMessage | internal/handler/websocket.go:119-137 | the new registry, the replies and the broadcast are those of Handle |
| Handler.WebSocketHandler.StampLastPing | internal/handler/websocket.go:76-111 | the registry is Touch of the old one |
| Handler.WebSocketHandler.HandleMessages | internal/handler/websocket.go:100-116 | the read loop produces the registry and replies of Session |
| Handler.WebSocketHandler.HandleWebSocket | internal/handler/websocket.go:38-97 | the admission and the final registry are those of Connection |
| Scenarios.SilentJoin | internal/handler/websocket.go:140-156 | a subscribe frame without an event, for a valid name with room to spare, is a silent join of "signal:all" |
| Scenarios.PostRoute | internal/handler/websocket.go:188-218 | a publish of an object without an event is posted to "signal:all" with the object stamped |
| Scenarios.ScenarioNamesValid | internal/service/room.go:23-41 | "demo" and "demo room" are valid names |
| Scenarios.BothJoin | internal/service/websocket.go:105-157 | two fresh connections joining one room are both members, each without a reply |
| Scenarios.DiscoverInRoom | internal/service/websocket.go:194-259 | a publish by one of two members reaches only the other, as one "message" frame carrying the stamped object, and changes nothing when writes succeed |
| Scenarios.QuietJoin | internal/service/websocket.go:105-157 | a lone join leaves a room whose only member is the joiner |
| Scenarios.IdleMemberReaped | internal/service/websocket.go:345-362 | the room's sole member survives a sweep at exactly five minutes and is removed, with its room, after that |

## Left out

- Locks and goroutines (the two `sync.RWMutex`, the maintenance goroutine, the reader goroutine, the ping ticker): every operation is an atomic step, and interleavings of connections are not modelled.
- WebSocket I/O is left out: the upgrade and its failure, `ReadJSON`, the 512 KB read limit, read deadlines, ping writes and `conn.Close`. A session is the sequence of frames and pongs it reads.
- Handler.Session: the inbound sequence holds only frames that decoded. In the source, a frame that `ReadJSON` cannot decode (malformed JSON, or a field of the wrong type such as `"channel":123`) makes the read loop `break` (internal/handler/websocket.go:103-108) without an error frame: the session ends and the client is removed afterwards. The model cannot express this, although a malformed frame is meant to be answered with an error rather than end the session.
- `sendMessage` in the handler only logs a failed write, so replies are collected whatever the outcome. `sendToClient` in the service removes the client on failure, which is modelled through `failing`.
- Wall-clock timestamps (`Timestamp`, `CreatedAt`, `UpdatedAt`) are left out; `LastPing` is an integer reading of a nanosecond clock.
- Logging through logrus, and the log-file maintenance the maintenance ticker also triggers, are left out.
- The token service (AES-GCM / JWT) is not part of this model; only its verdict `authError` is. The UUID generator becomes the parameter `id`.
- JSON bytes are left out: a payload is a decoded `Json` value. A stamped object is re-encoded in the source, which turns numbers into float64 and can change large integers; numbers here keep their literal text.
- `Client.Connection` is left out. Clients are values in the registry's map rather than shared pointers. When the source clears the fields of a client already removed from the map, the model cannot observe it.
- Handler.Connection: serves the session, then removes the client. In the source the removal waits until the ping writer fails after the reader has stopped.
- Registry.Subscribe: with a capacity of zero or less, a refused join into a new room leaves that room empty, as the source does. `Inv` is proved only for a capacity of at least one.
- Registry.LeftRoom: a full leave drops every event except "signal:all" for all of the client's rooms, not only the room left. This is the source's behaviour, although its comment says "events of this room".
- RoomNames.SanitizeRoomName: the registry keys rooms by the raw channel name, so this and GenerateRoomID are modelled on their own. GenerateRoomID does not lowercase, despite its comment.
- RoomNames.IsHan: `\p{Han}` is given by the Han script ranges of Unicode 15.0, and is wider than the U+4E00..U+9FA5 range the comment cites for the client.
- Registry.Unsubscribe: the handler always sends a non-empty event, so the branch for an empty event is reached only by a direct call.
- Handler.Route: the whole dispatch (`Handle`, `Session`, `Connection` and the handler methods) uses the corrected data check. A publish whose data is `null` is therefore refused as malformed there, where the source panics; the as-written behaviour is kept only in `CheckPublishDataAsWritten`.
- Handler.CheckPublishData and Handler.CheckPublishDataAsWritten: both accept every JSON object. The source decodes the object into Go values first, and that decoding fails on a number outside the range of float64, such as `{"x":1e400}`; the source then answers "消息数据格式错误". Numbers here are literals, so the model accepts and forwards such an object.
- The HTTP plumbing is left out: health endpoints, configuration, middleware and CORS.

## Findings

| source | as written | input that shows it | evidently intended | confidence | as-written member | corrected member |
|---|---|---|---|---|---|---|
| internal/handler/websocket.go:200-214 | `message.Data` holds the raw bytes `null`, so it passes the nil check. Decoding `null` into a Go map succeeds and leaves a nil map. Storing "from" into that nil map panics in the reader goroutine started at line 85. Nothing recovers it there (the router's recovery middleware guards only the request goroutine), so the whole server process exits, dropping every connection and the registry | a publish frame `{"type":"publish","channel":"demo","data":null}` from a subscribed client | refuse it like any other data that is not an object, with "消息数据格式错误" | not executed | Handler.CheckPublishDataAsWritten (shown by Handler.NullDataPanics) | Handler.CheckPublishData |
