# Real-time room chat: connection handler, member-list normalisation, permissions

This project models the logic core of a Django chat application:

- **`ChatConsumer`** (chat/consumers.py). It handles one WebSocket connection to one chat room.
  - On `connect` it runs `init_chat`, which checks the logged-in user, parses the room id from the URL and names the room's channel-layer group. It then looks up the room and its members, joins the group and accepts the connection.
  - `receive` dispatches an inbound frame through the `commands` table.
  - `new_message` stores a message and sends it to the whole room group. `fetch_messages` answers the asking connection only.
  - `disconnect` leaves the group.
- **`RoomSerializer.validate_users`** (chat/serializers.py). It puts the room's creator at the front of the proposed member list and refuses a room of the creator alone.
- **The permission classes** (auth/permissions.py). Each is one boolean over the view action, the requesting user and the target object.

Layout:

- `wrappers.dfy`: `Option` and `Result`.
- `accounts.dfy`: the request user, which is either `AnonymousUser` or a saved `User` row.
- `permissions.dfy`: the four permission predicates and their truth-table lemmas.
- `serializers.dfy`: the member list as a class whose `Insert` mutates it in place.
  - `ValidateUsers` is the method that does the work.
  - `NormalizeMembers` is the pure function that specifies it; its lemmas are here too.
- `group_names.dfy`: Python's `str(int)` and the part of `int(str)` used on the URL argument. The group name is `CHAT_ROOM_PREFIX + str(room_id)`, and distinct room ids give distinct names.
- `protocol.dfy`: the JSON frames written to a socket.
- `channel_layer.dfy`: the channel layer.
  - Groups are a map from group name to a set of channels. Each channel has an outbox: the sequence of frames its socket was sent.
  - Pure functions give each layer operation. The `Layer` class holds the shared state.
- `consumer_spec.dfy`: pure functions that give the effect of every consumer step.
  - Inputs: the consumer's attributes, the room table, the message table and the layer.
  - Outputs: the new attributes, layer and message table, and whether the step returned or raised a Python exception.
- `consumer_properties.dfy`: lemmas about those steps.
- `consumers.dfy`: the `Database` and `ChatConsumer` classes. Each method of `ChatConsumer` is proved to have the effect that `consumer_spec.dfy` gives it.

Behaviour kept as the code has it, not "fixed":

- `room_group_name` is set before the room lookup and before the membership check.
  - So a logged-in non-member is still joined to the room group and accepted, and so is a request for a missing room. The non-member can then post messages to that room.
  - The "User is not in this room." error and the room-not-found error go to the channels already in the group. The refused connection, which joins only afterwards, never sees them.
- Errors are sent to the whole room group, never only to the offending connection.
- Without login, `send_error_message` reads the unset `room_group_name` and raises `AttributeError`. So no group is joined, nothing is sent and nothing is accepted. A later `disconnect` raises for the same reason.
- An unknown or missing command raises `KeyError`, and so does a missing `message` or `room` field. Nothing is sent in those cases.
- `new_message` has no empty-body check. It takes sender and room from the connection, never from the payload.
- `fetch_messages` reads the room named in the payload, with no membership check.
- `error_message` is also a client command: it echoes `data['message']` back to the sender.
- Room capacity, friendship checks, a `fetch_data` command and closing the connection on errors do not exist in this code, and the model has none of them.
- Any limit on how much history `fetch_messages` returns would live in the `Message.objects.last_messages` manager, which is not modelled. The model claims no limit and no order for it.
- `validate_users` counts list entries, not distinct users, so `[creator, creator]` passes.
- `IsSelfOrAdminUpdateDeleteOnly` reads `A and B or C` as `(A and B) or C`. It compares only primary keys (`obj.id == request.user.id`), whatever model the object belongs to.

## Model

| member | source | states |
|---|---|---|
| Permissions.IsAdminOrIsSelf | auth/permissions.py:9-10 | granted exactly when the user is logged in and is a superuser or the object is their own User row; never for an anonymous user |
| Permissions.IsAdminReadOnly | auth/permissions.py:18-20 | every action outside list/retrieve is granted; list/retrieve exactly when the user is a logged-in superuser |
| Permissions.IsAuthenticatedReadOnly | auth/permissions.py:28-32 | every action outside list/retrieve is granted; list/retrieve exactly when the user is logged in |
| Permissions.IsSelfOrAdminUpdateDeleteOnly | auth/permissions.py:42-47 | create/retrieve/me always granted; a superuser always granted; otherwise granted exactly for update/partial_update/destroy when the object id equals the user id |
| Permissions.AnonymousOnlyOpenActions | auth/permissions.py:42-47 | an anonymous user passes IsSelfOrAdminUpdateDeleteOnly exactly for create, retrieve and me |
| Permissions.SuperuserNotLimitedToOwnerActions | auth/permissions.py:46-47 | for the predicate on its own, the `(A and B) or C` grouping grants a superuser every action outside the open and owner actions, which `A and (B or C)` would refuse |
| Permissions.OwnerCheckComparesIdsOnly | auth/permissions.py:46-47 | a non-superuser may update a room or profile whose id equals their user id, an object IsAdminOrIsSelf refuses them |
| Permissions.PromotionNeverRevokes | auth/permissions.py:9-47 | making a user a superuser never turns a grant of any of the four classes into a refusal |
| Serializers.WithCreator | chat/serializers.py:39-41 | the creator is in the result; a list already holding them is unchanged; otherwise the creator is at index 0 followed by the original list in order; the multiset grows by at most the creator |
| Serializers.NormalizeMembers | chat/serializers.py:29-47 | success means the list holds the creator and has at least two entries; failure, with "The chat room require at least 2 members.", exactly when the input is empty or the creator alone |
| Serializers.ValidateUsersField | tests/test_chat.py:75-88 | an empty list is refused with "This list may not be empty." before validate_users runs; any other list gets validate_users' answer |
| Serializers.RejectsExactlyCreatorAlone | chat/serializers.py:43-45 | the two-member error is raised exactly when the proposed list is the creator alone |
| Serializers.NormalizeIdempotent | chat/serializers.py:40-47 | normalising an accepted list again returns it unchanged |
| Serializers.CreatorAndOneFriend | tests/test_chat.py:92-101 | a creator proposing `[user2]` gets `[creator, user2]` |
| Serializers.CreatorTwicePasses | chat/serializers.py:43-45 | the creator listed twice is accepted although only one user is in it |
| Serializers.UserList.Insert | chat/serializers.py:41 | `list.insert(i, x)`: x placed before position i (clamped to the end), everything else kept in order |
| Serializers.ValidateUsers | chat/serializers.py:29-47 | the caller's list is mutated to the creator-inserted list (also when the error is raised) and that same list object is returned, or the error, exactly as NormalizeMembers says |
| GroupNames.NatToDecimal | chat/consumers.py:28 | `str(n)` of a natural number is a non-empty digit string without a leading zero |
| GroupNames.DecimalString | chat/consumers.py:28 | `str(n)` of an integer: digits, preceded by `-` exactly for a negative number |
| GroupNames.ParseRoomId | chat/consumers.py:27 | `int(s)` succeeds exactly for a digit string or a sign followed by a digit string, and refuses everything else (`"12a"`, `"-"`, the empty string); the value is the digits' decimal value, negated after `-` |
| GroupNames.GroupName | chat/consumers.py:28 | the group name starts with the room prefix and is longer than it |
| GroupNames.DigitsRoundTrip | chat/consumers.py:27-28 | reading back the digits of `str(n)` gives n |
| GroupNames.ParseDecimalRoundTrip | chat/consumers.py:27-28 | `int(str(n)) == n` for every integer room id |
| GroupNames.GroupNameInjective | chat/consumers.py:27-28 | two room ids have the same group name exactly when they are equal |
| ChannelLayer.AddToGroup | chat/consumers.py:145-148 | group_add puts the channel into that group only; no other group and no outbox changes |
| ChannelLayer.DiscardFromGroup | chat/consumers.py:158-161 | group_discard takes the channel out of that group only; no other group and no outbox changes |
| ChannelLayer.Broadcast | chat/consumers.py:114-120 | group_send: every channel in the group gets the frame appended, once; no channel outside it gets anything; groups unchanged |
| ChannelLayer.SendTo | chat/consumers.py:171-175 | self.send: only this channel's outbox gets the frame; groups unchanged |
| ChannelLayer.AddIdempotent | chat/consumers.py:145-148 | joining a group twice is joining it once |
| ChannelLayer.DiscardIdempotent | chat/consumers.py:158-161 | leaving a group twice is leaving it once |
| ChannelLayer.DiscardUndoesAdd | chat/consumers.py:145-161 | leaving a group one joined restores its membership |
| ChannelLayer.Layer.GroupAdd | chat/consumers.py:145-148 | the shared layer's new state is AddToGroup of the old |
| ChannelLayer.Layer.GroupDiscard | chat/consumers.py:158-161 | the shared layer's new state is DiscardFromGroup of the old |
| ChannelLayer.Layer.GroupSend | chat/consumers.py:181-187 | the shared layer's new state is Broadcast of the old |
| ChannelLayer.Layer.Send | chat/consumers.py:189-194 | the shared layer's new state is SendTo of the old |
| ConsumerSpec.MessagesJson | chat/consumers.py:83-91 | one `{user, message, created}` record per message, same length, same order, each the message's sender name, body and creation time |
| ConsumerSpec.MessageToJson | chat/consumers.py:93-102 | the record's user, message and created are the sender's username, the body and the creation time, and nothing else |
| ConsumerSpec.SendErrorEffect | chat/consumers.py:104-120 | AttributeError exactly when room_group_name is unset; otherwise every channel of the room group, and no other, gets the error frame, and groups are unchanged |
| ConsumerSpec.SendChatEffect | chat/consumers.py:177-187 | AttributeError exactly when room_group_name is unset; otherwise every channel of the room group, and no other, gets the frame, and groups are unchanged |
| ConsumerSpec.InitChatEffect | chat/consumers.py:14-45 | init_chat joins no group and accepts nothing; it raises exactly without login or with an unparsable room argument; room_group_name is set exactly when it returns, to the parsed id's group; it returns True exactly for a member of an existing room, and then, like on the raising paths, sends nothing |
| ConsumerSpec.ConnectEffect | chat/consumers.py:135-150 | connect returns exactly when the connection is accepted, which is exactly when the user is logged in and the room argument parses; an accepted connection is bound and in its room group; otherwise the layer is unchanged; no message is stored |
| ConsumerSpec.FetchMessagesEffect | chat/consumers.py:47-64 | attributes, messages and groups unchanged; a missing room field raises KeyError with nothing sent; a successful query sends one messages frame to this channel only |
| ConsumerSpec.NewMessageEffect | chat/consumers.py:66-81 | returns exactly when the bound room exists and the payload has a message; then exactly one message with the connection's user and room is appended; when it raises nothing is stored or sent; groups unchanged |
| ConsumerSpec.ErrorMessageEffect | chat/consumers.py:122-127 | as a client command, data['message'] is echoed to this channel only, KeyError when absent; attributes, messages and groups unchanged |
| ConsumerSpec.ReceiveEffect | chat/consumers.py:163-169 | any received frame leaves the attributes and groups unchanged and adds at most one message, keeping the earlier ones; a raising frame stores nothing |
| ConsumerSpec.DisconnectEffect | chat/consumers.py:153-161 | disconnect returns exactly when room_group_name is set and then removes this channel from that group; outboxes, attributes and messages unchanged; when it raises nothing changes |
| ConsumerProperties.ConnectUnauthenticated | chat/consumers.py:19-24 | without login connect raises AttributeError, joins no group, accepts nothing, sends nothing; a later disconnect raises too |
| ConsumerProperties.ConnectUnparsableRoom | chat/consumers.py:27 | a room argument int() refuses makes connect raise ValueError with nothing joined, accepted or sent |
| ConsumerProperties.ConnectAuthenticated | chat/consumers.py:27-43 | a logged-in user with a numeric room argument is bound, joined to exactly that room's group and accepted, member or not, room or no room (for ids the database can store, see Left out) |
| ConsumerProperties.ConnectRefusalReachesOthersOnly | chat/consumers.py:35-36 | for a missing room or a non-member the error reaches every channel already in the group, nobody else, not the refused connection, which is then joined and accepted |
| ConsumerProperties.ConnectMemberSendsNothing | chat/consumers.py:32-39 | a member of an existing room connects without any frame being sent, with the room and its members recorded |
| ConsumerProperties.ReceiveDispatch | chat/consumers.py:163-169 | the table has exactly three commands; each runs its own handler; a missing or unknown command raises KeyError and changes nothing |
| ConsumerProperties.NewMessageStoresOneAndBroadcasts | chat/consumers.py:66-81 | exactly one message is stored, with the connection's user and room and the payload's body, empty or not; one new_message frame goes to the whole room group |
| ConsumerProperties.NewMessageIgnoresPayloadRoom | chat/consumers.py:71-75 | the payload's room field has no effect on new_message |
| ConsumerProperties.NewMessageRoomGone | chat/consumers.py:71 | when the room row is gone, Room.DoesNotExist escapes and nothing is stored or sent |
| ConsumerProperties.FetchRepliesToCallerOnly | chat/consumers.py:47-61 | one messages frame with the history of the payload's room goes to the asking channel only; groups and messages unchanged |
| ConsumerProperties.FetchIgnoresBoundRoom | chat/consumers.py:55 | connections bound to different rooms get the same answer to the same fetch |
| ConsumerProperties.FetchErrorGoesToWholeGroup | chat/consumers.py:63-64 | a ValidationError from the history query is sent to the whole room group |
| ConsumerProperties.DisconnectRemovesOnlyThisChannel | chat/consumers.py:153-161 | disconnect removes this channel from its room group and changes nothing else; a second disconnect changes nothing more |
| ConsumerProperties.HelloReachesOtherMember | chat/consumers.py:135-187 | with member A of a room and another connection B already in the room group, A connecting and sending "hello" stores one message and gives B one new_message frame with body "hello" from A |
| ConsumerProperties.NonMemberCanPost | chat/consumers.py:27-81 | a logged-in non-member of an existing room is bound to it, and a new_message from them is stored in that room and sent, as exactly one new_message frame, to every channel of its group |
| Consumers.Database.CreateMessage | chat/consumers.py:72-75 | Message.objects.create appends exactly one message with the given sender, room, body and creation time |
| Consumers.ChatConsumer.SendErrorMessage | chat/consumers.py:104-120 | an error frame to the whole room group, or AttributeError with nothing sent when room_group_name is unset |
| Consumers.ChatConsumer.SendChatMessage | chat/consumers.py:177-187 | the frame to the whole room group, or AttributeError when room_group_name is unset |
| Consumers.ChatConsumer.SendMessage | chat/consumers.py:171-175 | the frame to this connection's socket only |
| Consumers.ChatConsumer.InitChat | chat/consumers.py:14-45 | the attributes set, the frames sent and the value returned or exception raised are those of the init_chat step |
| Consumers.ChatConsumer.Connect | chat/consumers.py:135-150 | the attributes, the layer and the outcome are those of the connect step: join and accept exactly when room_group_name was set |
| Consumers.ChatConsumer.MessagesToJson | chat/consumers.py:83-91 | the result has one entry per message, in order, each message_to_json of that message |
| Consumers.ChatConsumer.FetchMessages | chat/consumers.py:47-64 | the layer and the outcome are those of the fetch_messages step |
| Consumers.ChatConsumer.NewMessage | chat/consumers.py:66-81 | the message table, the layer and the outcome are those of the new_message step |
| Consumers.ChatConsumer.ErrorMessage | chat/consumers.py:122-127 | data['message'] is sent back to this socket, or KeyError when absent |
| Consumers.ChatConsumer.Receive | chat/consumers.py:163-169 | the message table, the layer and the outcome are those of the receive step for the command given |
| Consumers.ChatConsumer.Disconnect | chat/consumers.py:153-161 | the layer and the outcome are those of the disconnect step |

## Left out

- WebSocket transport, `json.dumps`/`json.loads` and the channel layer's internals. These are foreign libraries. Frames are values, and a received frame is a record of the three fields the handlers read. JSON values of other shapes, and frames that are not JSON at all, are not modelled.
- Concurrency. Each consumer is synchronous, and its steps are modelled one after another. Interleavings of several connections are not modelled.
- The group event handlers `error_message` and `chat_message` are not separate members. A group event's handler writes `event['message']` to its socket unchanged, and `Broadcast` appends that frame to every member channel directly.
- The channel layer's own checks on group names (allowed characters, length under 100) are not modelled. A room id long enough to break them is not distinguished.
- ConsumerSpec.InitChatEffect: room ids are unbounded integers in the model. The database stores 64-bit integers, and `Room.objects.get` with an id outside that range raises `OverflowError`, which the `except` at chat/consumers.py:41 does not catch. For such ids `connect` raises with no `group_add` and no `accept`. The model instead treats them as missing rooms: it sends the room-not-found error, joins and accepts. ConsumerProperties.ConnectAuthenticated and ConsumerProperties.ConnectRefusalReachesOthersOnly therefore hold only for ids within the database's integer range.
- GroupNames.ParseRoomId: it reads an optional sign followed by ASCII digits only. Python's `int()` also accepts surrounding whitespace, underscores between digits and non-ASCII digits.
- `CHAT_ROOM_PREFIX` is defined in chatapp/constants.py, which is not part of this model. The value in `group_names.dfy` is a stand-in, and no proof depends on it.
- The ORM. `Room.objects.get` is a lookup in the room table. `Message.objects.create` appends to the message table. `Message.objects.last_messages` is a manager that is not part of this model: it is a function-valued input, and nothing is claimed about its limit or order. `ValidationError` from `Room.objects.get` is not modelled.
- `str(message.created)` is an opaque string supplied by the caller as the clock reading.
- chat/views.py is not modelled:
  - `list` and `perform_create` are ORM and pagination wrappers.
  - `add_users` has no body past its first line.
  - Room capacity and friendship are not enforced in this code.
- user/views.py (login, change_password), models, migrations, admin, settings, routing, urls, apps/user and tests/helpers.py are declarative or thin framework wrappers.
- `RoomSerializer.to_representation` only swaps a framework field.
- Python `None` as `request.user` is not modelled. DRF supplies an `AnonymousUser` instead, so the `request.user and …` guards never short-circuit.
