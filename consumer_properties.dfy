/** What chat/consumers.py guarantees, and does not, about one connection and its room group. */
module ConsumerProperties {
  import opened Wrappers
  import opened Accounts
  import opened Protocol
  import opened ChannelLayer
  import opened GroupNames
  import opened ConsumerSpec

  /**
    * Not logged in: `send_error_message('Require login.')` reads the unset
    * `room_group_name` and raises, so the connection joins no group, is not accepted and
    * nothing is sent; a later `disconnect` raises for the same reason.
    */
  lemma ConnectUnauthenticated(scope: Scope, rooms: map<int, set<UserId>>, messages: seq<Message>, h: Hub, ch: Channel)
    requires scope.user == Anonymous
    ensures var st := ConnectEffect(scope, rooms, messages, h, ch);
            && st.outcome == Raised(AttributeError("room_group_name"))
            && !st.session.accepted && st.session.roomGroupName.None?
            && st.hub == h && st.messages == messages
            && DisconnectEffect(st.session, messages, h, ch).outcome == Raised(AttributeError("room_group_name"))
  {
  }

  /** A room argument that `int()` refuses: the `ValueError` escapes `connect`, nothing joins and nothing is sent. */
  lemma ConnectUnparsableRoom(scope: Scope, rooms: map<int, set<UserId>>, messages: seq<Message>, h: Hub, ch: Channel)
    requires scope.user.Registered? && ParseRoomId(scope.roomArg).None?
    ensures var st := ConnectEffect(scope, rooms, messages, h, ch);
            && st.outcome == Raised(ValueError(scope.roomArg))
            && !st.session.accepted && st.session.roomGroupName.None?
            && st.hub == h
  {
  }

  /**
    * A logged-in user with a numeric room argument is always bound to that room's group and
    * accepted, whether or not the room exists and whether or not they are a member, and
    * no other group changes.
    */
  lemma ConnectAuthenticated(scope: Scope, rooms: map<int, set<UserId>>, messages: seq<Message>, h: Hub, ch: Channel, id: int)
    requires scope.user.Registered? && ParseRoomId(scope.roomArg) == Some(id)
    ensures var st := ConnectEffect(scope, rooms, messages, h, ch);
            && st.outcome == Returned
            && Bound(st.session) && st.session.user == Some(scope.user) && st.session.roomId == Some(id)
            && Members(st.hub, GroupName(id)) == Members(h, GroupName(id)) + {ch}
            && (forall g :: g != GroupName(id) ==> Members(st.hub, g) == Members(h, g))
            && st.messages == messages
  {
  }

  /**
    * A missing room or a non-member: the error goes to the channels already in the room
    * group, before this channel joins it, so the refused connection never sees it; the
    * connection is accepted all the same.
    */
  lemma ConnectRefusalReachesOthersOnly(scope: Scope, rooms: map<int, set<UserId>>, messages: seq<Message>, h: Hub, ch: Channel, id: int)
    requires scope.user.Registered? && ParseRoomId(scope.roomArg) == Some(id)
    requires id !in rooms || scope.user.id !in rooms[id]
    requires ch !in Members(h, GroupName(id))
    ensures var st := ConnectEffect(scope, rooms, messages, h, ch);
            var notice := ErrorFrame(if id in rooms then NotInRoom else RoomMissing);
            && (forall c :: c in Members(h, GroupName(id)) ==> Sent(st.hub, c) == Sent(h, c) + [notice])
            && (forall c :: c !in Members(h, GroupName(id)) ==> Sent(st.hub, c) == Sent(h, c))
            && Sent(st.hub, ch) == Sent(h, ch)
            && st.session.accepted && ch in Members(st.hub, GroupName(id))
  {
  }

  /** A member of an existing room connects silently: no frame is sent to anybody. */
  lemma ConnectMemberSendsNothing(scope: Scope, rooms: map<int, set<UserId>>, messages: seq<Message>, h: Hub, ch: Channel, id: int)
    requires scope.user.Registered? && ParseRoomId(scope.roomArg) == Some(id)
    requires id in rooms && scope.user.id in rooms[id]
    ensures var st := ConnectEffect(scope, rooms, messages, h, ch);
            && st.hub.outbox == h.outbox
            && st.session.room == Some(id) && st.session.roomUsers == Some(rooms[id])
  {
  }

  /**
    * `receive` runs the one handler `commands` maps the command to; a frame without a
    * command, or with any other command, raises `KeyError` and changes nothing.
    */
  lemma ReceiveDispatch(s: Session, ch: Channel, data: Payload, rooms: map<int, set<UserId>>, messages: seq<Message>,
                        lastMessages: (seq<Message>, int) -> Result<seq<Message>, string>, now: string, h: Hub)
    requires Bound(s)
    ensures Commands.Keys == {"fetch_messages", "new_message", "error_message"}
    ensures var st := ReceiveEffect(s, ch, data, rooms, messages, lastMessages, now, h);
            && (data.command.None? ==> st == Step(s, h, messages, Raised(KeyError("command"))))
            && (data.command.Some? && data.command.value !in Commands ==>
                  st == Step(s, h, messages, Raised(KeyError(data.command.value))))
            && (data.command == Some("fetch_messages") ==> st == FetchMessagesEffect(s, ch, data, messages, lastMessages, h))
            && (data.command == Some("new_message") ==> st == NewMessageEffect(s, data, rooms, messages, now, h))
            && (data.command == Some("error_message") ==> st == ErrorMessageEffect(s, ch, data, messages, h))
  {
  }

  /**
    * `new_message` stores exactly one message, whose sender is the connection's user and
    * whose room is the connection's room id (an empty body included), and sends one
    * `new_message` frame to the whole room group.
    */
  lemma NewMessageStoresOneAndBroadcasts(s: Session, ch: Channel, data: Payload, rooms: map<int, set<UserId>>, messages: seq<Message>,
                                         lastMessages: (seq<Message>, int) -> Result<seq<Message>, string>, now: string, h: Hub, text: string)
    requires Bound(s) && s.roomId.value in rooms
    requires data.command == Some("new_message") && data.message == Some(text)
    ensures var st := ReceiveEffect(s, ch, data, rooms, messages, lastMessages, now, h);
            var m := Message(s.user.value, s.roomId.value, text, now);
            && st.outcome == Returned
            && st.messages == messages + [m]
            && st.hub == Broadcast(h, GroupName(s.roomId.value), NewMessageFrame(MessageJson(Username(s.user.value), text, now)))
  {
  }

  /** The payload's `room` field plays no part in `new_message`. */
  lemma NewMessageIgnoresPayloadRoom(s: Session, ch: Channel, data: Payload, room: Option<int>, rooms: map<int, set<UserId>>, messages: seq<Message>,
                                     lastMessages: (seq<Message>, int) -> Result<seq<Message>, string>, now: string, h: Hub)
    requires Bound(s) && data.command == Some("new_message")
    ensures ReceiveEffect(s, ch, data, rooms, messages, lastMessages, now, h)
         == ReceiveEffect(s, ch, data.(room := room), rooms, messages, lastMessages, now, h)
  {
  }

  /** The room row gone since `connect`: `Room.DoesNotExist` escapes and nothing is stored or sent. */
  lemma NewMessageRoomGone(s: Session, ch: Channel, data: Payload, rooms: map<int, set<UserId>>, messages: seq<Message>,
                           lastMessages: (seq<Message>, int) -> Result<seq<Message>, string>, now: string, h: Hub)
    requires Bound(s) && s.roomId.value !in rooms && data.command == Some("new_message")
    ensures ReceiveEffect(s, ch, data, rooms, messages, lastMessages, now, h)
         == Step(s, h, messages, Raised(DoesNotExist(RoomMissing)))
  {
  }

  /**
    * `fetch_messages` answers the asking connection only, with one `messages` frame
    * holding `messages_to_json` of what the manager returned for the payload's `room`;
    * no group, no other channel and no message changes.
    */
  lemma FetchRepliesToCallerOnly(s: Session, ch: Channel, data: Payload, rooms: map<int, set<UserId>>, messages: seq<Message>,
                                 lastMessages: (seq<Message>, int) -> Result<seq<Message>, string>, now: string, h: Hub,
                                 room: int, history: seq<Message>)
    requires Bound(s) && data.command == Some("fetch_messages") && data.room == Some(room)
    requires lastMessages(messages, room) == Success(history)
    ensures var st := ReceiveEffect(s, ch, data, rooms, messages, lastMessages, now, h);
            && st.outcome == Returned && st.messages == messages
            && st.hub.groups == h.groups
            && Sent(st.hub, ch) == Sent(h, ch) + [MessagesFrame(MessagesJson(history))]
            && (forall c :: c != ch ==> Sent(st.hub, c) == Sent(h, c))
  {
  }

  /**
    * The room whose history is read is the payload's, not the connection's: two
    * connections bound to different rooms get the same answer to the same request.
    */
  lemma FetchIgnoresBoundRoom(s1: Session, s2: Session, ch: Channel, data: Payload, rooms: map<int, set<UserId>>, messages: seq<Message>,
                              lastMessages: (seq<Message>, int) -> Result<seq<Message>, string>, now: string, h: Hub, room: int)
    requires Bound(s1) && Bound(s2) && data.command == Some("fetch_messages") && data.room == Some(room)
    requires lastMessages(messages, room).Success?
    ensures ReceiveEffect(s1, ch, data, rooms, messages, lastMessages, now, h).hub
         == ReceiveEffect(s2, ch, data, rooms, messages, lastMessages, now, h).hub
  {
  }

  /** A `ValidationError` from the manager is sent to the whole room group, not only to the asker. */
  lemma FetchErrorGoesToWholeGroup(s: Session, ch: Channel, data: Payload, rooms: map<int, set<UserId>>, messages: seq<Message>,
                                   lastMessages: (seq<Message>, int) -> Result<seq<Message>, string>, now: string, h: Hub,
                                   room: int, text: string)
    requires Bound(s) && data.command == Some("fetch_messages") && data.room == Some(room)
    requires lastMessages(messages, room) == Failure(text)
    ensures var st := ReceiveEffect(s, ch, data, rooms, messages, lastMessages, now, h);
            && st.outcome == Returned
            && st.hub == Broadcast(h, GroupName(s.roomId.value), ErrorFrame(text))
  {
  }

  /**
    * `disconnect` takes this channel out of its room group and nothing else; doing it a
    * second time changes nothing more.
    */
  lemma DisconnectRemovesOnlyThisChannel(s: Session, messages: seq<Message>, h: Hub, ch: Channel)
    requires Bound(s)
    ensures var st := DisconnectEffect(s, messages, h, ch);
            var g := GroupName(s.roomId.value);
            && st.outcome == Returned
            && Members(st.hub, g) == Members(h, g) - {ch}
            && (forall g' :: g' != g ==> Members(st.hub, g') == Members(h, g'))
            && st.hub.outbox == h.outbox
            && DisconnectEffect(s, messages, st.hub, ch).hub == st.hub
  {
    DiscardIdempotent(h, GroupName(s.roomId.value), ch);
  }

  /**
    * Room `room` holds user `a`, and another connection `chB` (B's) is already in the
    * room group. When `a` connects on `chA` and sends "hello", `chB`'s socket receives
    * one `new_message` frame with body "hello" from `a`.
    */
  lemma HelloReachesOtherMember(a: User, room: int, rooms: map<int, set<UserId>>, messages: seq<Message>,
                                lastMessages: (seq<Message>, int) -> Result<seq<Message>, string>, now: string,
                                h: Hub, chA: Channel, chB: Channel)
    requires a.Registered? && room in rooms && a.id in rooms[room]
    requires chB in Members(h, GroupName(room)) && chA != chB
    ensures var connected := ConnectEffect(Scope(a, DecimalString(room)), rooms, messages, h, chA);
            var hello := Payload(Some("new_message"), None, Some("hello"));
            && Bound(connected.session)
            && var st := ReceiveEffect(connected.session, chA, hello, rooms, messages, lastMessages, now, connected.hub);
               && st.messages == messages + [Message(a, room, "hello", now)]
               && Sent(st.hub, chB) == Sent(h, chB) + [NewMessageFrame(MessageJson(a.username, "hello", now))]
  {
    ParseDecimalRoundTrip(room);
    var connected := ConnectEffect(Scope(a, DecimalString(room)), rooms, messages, h, chA);
    ConnectAuthenticated(Scope(a, DecimalString(room)), rooms, messages, h, chA, room);
    ConnectMemberSendsNothing(Scope(a, DecimalString(room)), rooms, messages, h, chA, room);
    assert Sent(connected.hub, chB) == Sent(h, chB);
    var hello := Payload(Some("new_message"), None, Some("hello"));
    NewMessageStoresOneAndBroadcasts(connected.session, chA, hello, rooms, messages, lastMessages, now, connected.hub, "hello");
  }

  /**
    * A logged-in user who is not a member of an existing room is still bound to it, and
    * a `new_message` from them is stored in that room and sent to its group.
    */
  lemma NonMemberCanPost(u: User, room: int, rooms: map<int, set<UserId>>, messages: seq<Message>,
                         lastMessages: (seq<Message>, int) -> Result<seq<Message>, string>, now: string,
                         h: Hub, ch: Channel, text: string)
    requires u.Registered? && room in rooms && u.id !in rooms[room]
    ensures var connected := ConnectEffect(Scope(u, DecimalString(room)), rooms, messages, h, ch);
            && connected.outcome == Returned && Bound(connected.session)
            && var st := ReceiveEffect(connected.session, ch, Payload(Some("new_message"), None, Some(text)),
                                       rooms, messages, lastMessages, now, connected.hub);
               && st.outcome == Returned
               && st.messages == messages + [Message(u, room, text, now)]
               && st.hub == Broadcast(connected.hub, GroupName(room), NewMessageFrame(MessageJson(u.username, text, now)))
  {
    ParseDecimalRoundTrip(room);
    ConnectAuthenticated(Scope(u, DecimalString(room)), rooms, messages, h, ch, room);
    var connected := ConnectEffect(Scope(u, DecimalString(room)), rooms, messages, h, ch);
    NewMessageStoresOneAndBroadcasts(connected.session, ch, Payload(Some("new_message"), None, Some(text)),
                                     rooms, messages, lastMessages, now, connected.hub, text);
  }
}
