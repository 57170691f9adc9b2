/**
  * What one `ChatConsumer` connection of chat/consumers.py does, as functions of its
  * inputs: the connection's scope, the room table, the message table and the channel
  * layer before the step. Each function gives the consumer's attributes, the channel
  * layer and the message table after the step, and whether the step returned or raised.
  */
module ConsumerSpec {
  import opened Wrappers
  import opened Accounts
  import opened Protocol
  import opened ChannelLayer
  import opened GroupNames

  const RequireLogin := "Require login."
  const NotInRoom := "User is not in this room."
  /** `str(Room.DoesNotExist)` as Django words it. */
  const RoomMissing := "Room matching query does not exist."

  /** A saved `Message` row: sender, room, body and `str(created)`, kept opaque. */
  datatype Message = Message(sender: User, room: int, text: string, created: string)

  /** `self.scope`: the logged-in user and the URL's `room` argument. */
  datatype Scope = Scope(user: User, roomArg: string)

  /** An inbound frame after `json.loads`; a key the client left out is `None`. */
  datatype Payload = Payload(command: Option<string>, room: Option<int>, message: Option<string>)

  /** The Python exceptions a step can end with. */
  datatype Exception =
    | AttributeError(attribute: string)
    | ValueError(argument: string)
    | KeyError(key: string)
    | DoesNotExist(text: string)

  datatype Outcome = Returned | Raised(error: Exception)

  /** The three handlers of `ChatConsumer.commands`. */
  datatype Command = FetchMessagesCommand | NewMessageCommand | ErrorMessageCommand

  /** `ChatConsumer.commands` */
  const Commands: map<string, Command> := map[
    "fetch_messages" := FetchMessagesCommand,
    "new_message" := NewMessageCommand,
    "error_message" := ErrorMessageCommand
  ]

  /**
    * The attributes `init_chat` and `connect` set on the consumer; `None` is an attribute
    * never assigned (so `hasattr` is false and reading it raises `AttributeError`).
    * `room` holds the primary key of `self.room`, `roomUsers` the ids of `room.users`.
    */
  datatype Session = Session(
    user: Option<User>,
    roomId: Option<int>,
    roomGroupName: Option<Group>,
    room: Option<int>,
    roomUsers: Option<set<UserId>>,
    accepted: bool)

  /** A consumer as Channels creates it, before `connect`. */
  const Unset := Session(None, None, None, None, None, false)

  /** A consumer whose `connect` returned: logged in, bound to one room id and its group, accepted. */
  predicate Bound(s: Session)
  {
    && s.accepted
    && s.user.Some? && s.user.value.Registered?
    && s.roomId.Some?
    && s.roomGroupName == Some(GroupName(s.roomId.value))
  }

  /** `message_to_json(message)` */
  function MessageToJson(m: Message): (j: MessageJson)
    ensures j.user == Username(m.sender) && j.message == m.text && j.created == m.created
  {
    MessageJson(Username(m.sender), m.text, m.created)
  }

  /** `messages_to_json(messages)`, as a value. */
  function MessagesJson(ms: seq<Message>): (js: seq<MessageJson>)
    ensures |js| == |ms|
    ensures forall i :: 0 <= i < |ms| ==> js[i] == MessageToJson(ms[i])
  {
    seq(|ms|, i requires 0 <= i < |ms| => MessageToJson(ms[i]))
  }

  /** `send_error_message(text)`: a group event to `self.room_group_name`, which must have been set. */
  function SendErrorEffect(s: Session, h: Hub, text: string): (r: Result<Hub, Exception>)
    ensures r.Failure? <==> s.roomGroupName.None?
    ensures r.Failure? ==> r.error == AttributeError("room_group_name")
    ensures r.Success? ==> r.value.groups == h.groups
    ensures r.Success? ==> forall c :: (Sent(r.value, c) ==
              if c in Members(h, s.roomGroupName.value) then Sent(h, c) + [ErrorFrame(text)] else Sent(h, c))
  {
    match s.roomGroupName
    case None => Failure(AttributeError("room_group_name"))
    case Some(g) => Success(Broadcast(h, g, ErrorFrame(text)))
  }

  /** `send_chat_message(content)` */
  function SendChatEffect(s: Session, h: Hub, f: Frame): (r: Result<Hub, Exception>)
    ensures r.Failure? <==> s.roomGroupName.None?
    ensures r.Failure? ==> r.error == AttributeError("room_group_name")
    ensures r.Success? ==> r.value.groups == h.groups
    ensures r.Success? ==> forall c :: (Sent(r.value, c) ==
              if c in Members(h, s.roomGroupName.value) then Sent(h, c) + [f] else Sent(h, c))
  {
    match s.roomGroupName
    case None => Failure(AttributeError("room_group_name"))
    case Some(g) => Success(Broadcast(h, g, f))
  }

  /** After `init_chat`: the consumer's attributes, the layer, and its return value or exception. */
  datatype InitStep = InitStep(session: Session, hub: Hub, result: Result<Option<bool>, Exception>)

  /** `init_chat()` on a fresh consumer. */
  function InitChatEffect(scope: Scope, rooms: map<int, set<UserId>>, h: Hub): (step: InitStep)
    ensures step.hub.groups == h.groups && !step.session.accepted
    ensures step.session.user == Some(scope.user)
    ensures step.result.Failure? <==> !scope.user.Registered? || ParseRoomId(scope.roomArg).None?
    ensures step.session.roomGroupName.Some? <==> step.result.Success?
    ensures step.result.Success? ==>
              step.session.roomGroupName == Some(GroupName(ParseRoomId(scope.roomArg).value))
    ensures step.result == Success(Some(true)) <==>
              scope.user.Registered? && ParseRoomId(scope.roomArg).Some?
              && ParseRoomId(scope.roomArg).value in rooms && scope.user.id in rooms[ParseRoomId(scope.roomArg).value]
    ensures step.result == Success(Some(true)) || step.result.Failure? ==> step.hub == h
  {
    var s := Unset.(user := Some(scope.user));
    if !scope.user.Registered? then
      // send_error_message reads room_group_name, which is not set on this path
      match SendErrorEffect(s, h, RequireLogin)
      case Failure(e) => InitStep(s, h, Failure(e))
      case Success(h') => InitStep(s, h', Success(None))
    else
      match ParseRoomId(scope.roomArg)
      case None => InitStep(s, h, Failure(ValueError(scope.roomArg)))
      case Some(id) =>
        // room_group_name is assigned before the room is looked up
        var s := s.(roomId := Some(id), roomGroupName := Some(GroupName(id)));
        if id !in rooms then
          InitStep(s, Broadcast(h, GroupName(id), ErrorFrame(RoomMissing)), Success(Some(false)))
        else
          var s := s.(room := Some(id), roomUsers := Some(rooms[id]));
          if scope.user.id !in rooms[id] then
            InitStep(s, Broadcast(h, GroupName(id), ErrorFrame(NotInRoom)), Success(None))
          else
            InitStep(s, h, Success(Some(true)))
  }

  /** After `connect`, `receive` or `disconnect`. */
  datatype Step = Step(session: Session, hub: Hub, messages: seq<Message>, outcome: Outcome)

  /** `connect()` on a fresh consumer whose channel is `ch`. */
  function ConnectEffect(scope: Scope, rooms: map<int, set<UserId>>, messages: seq<Message>, h: Hub, ch: Channel): (step: Step)
    ensures step.messages == messages
    ensures step.outcome == Returned <==> step.session.accepted
    ensures step.session.accepted <==> scope.user.Registered? && ParseRoomId(scope.roomArg).Some?
    ensures step.session.accepted ==> Bound(step.session) && ch in Members(step.hub, step.session.roomGroupName.value)
    ensures !step.session.accepted ==> step.hub == h
  {
    var init := InitChatEffect(scope, rooms, h);
    if init.result.Failure? then
      Step(init.session, init.hub, messages, Raised(init.result.error))
    else if init.session.roomGroupName.Some? then
      Step(init.session.(accepted := true), AddToGroup(init.hub, init.session.roomGroupName.value, ch), messages, Returned)
    else
      Step(init.session, init.hub, messages, Returned)
  }

  /** `fetch_messages(data)`; `lastMessages` is `Message.objects.last_messages`, whose manager is not part of this model. */
  function FetchMessagesEffect(s: Session, ch: Channel, data: Payload, messages: seq<Message>,
                               lastMessages: (seq<Message>, int) -> Result<seq<Message>, string>, h: Hub): (step: Step)
    ensures step.session == s && step.messages == messages && step.hub.groups == h.groups
    ensures data.room.None? ==> step.hub == h && step.outcome == Raised(KeyError("room"))
    ensures data.room.Some? && lastMessages(messages, data.room.value).Success? ==>
              step.outcome == Returned
              && step.hub == SendTo(h, ch, MessagesFrame(MessagesJson(lastMessages(messages, data.room.value).value)))
  {
    match data.room
    case None => Step(s, h, messages, Raised(KeyError("room")))
    case Some(room) =>
      match lastMessages(messages, room)
      case Success(ms) => Step(s, SendTo(h, ch, MessagesFrame(MessagesJson(ms))), messages, Returned)
      case Failure(text) =>
        match SendErrorEffect(s, h, text)
        case Success(h') => Step(s, h', messages, Returned)
        case Failure(e) => Step(s, h, messages, Raised(e))
  }

  /** `new_message(data)`: the room and the sender come from the consumer, the body from the payload. */
  function NewMessageEffect(s: Session, data: Payload, rooms: map<int, set<UserId>>, messages: seq<Message>,
                            now: string, h: Hub): (step: Step)
    requires Bound(s)
    ensures step.session == s && step.hub.groups == h.groups
    ensures step.outcome == Returned <==> s.roomId.value in rooms && data.message.Some?
    ensures step.outcome == Returned ==>
              step.messages == messages + [Message(s.user.value, s.roomId.value, data.message.value, now)]
    ensures step.outcome.Raised? ==> step.messages == messages && step.hub == h
  {
    var id := s.roomId.value;
    if id !in rooms then
      Step(s, h, messages, Raised(DoesNotExist(RoomMissing)))
    else
      match data.message
      case None => Step(s, h, messages, Raised(KeyError("message")))
      case Some(text) =>
        var m := Message(s.user.value, id, text, now);
        match SendChatEffect(s, h, NewMessageFrame(MessageToJson(m)))
        case Success(h') => Step(s, h', messages + [m], Returned)
        case Failure(e) => Step(s, h, messages + [m], Raised(e))
  }

  /** `error_message(data)` called as a command: `data['message']` goes back to this socket. */
  function ErrorMessageEffect(s: Session, ch: Channel, data: Payload, messages: seq<Message>, h: Hub): (step: Step)
    ensures step.session == s && step.messages == messages && step.hub.groups == h.groups
    ensures step.outcome == Returned <==> data.message.Some?
    ensures data.message.Some? ==> Sent(step.hub, ch) == Sent(h, ch) + [EchoFrame(data.message.value)]
    ensures forall c :: c != ch ==> Sent(step.hub, c) == Sent(h, c)
  {
    match data.message
    case None => Step(s, h, messages, Raised(KeyError("message")))
    case Some(value) => Step(s, SendTo(h, ch, EchoFrame(value)), messages, Returned)
  }

  /** `receive(text_data)`: `self.commands[data['command']](self, data)`. */
  function ReceiveEffect(s: Session, ch: Channel, data: Payload, rooms: map<int, set<UserId>>,
                         messages: seq<Message>, lastMessages: (seq<Message>, int) -> Result<seq<Message>, string>,
                         now: string, h: Hub): (step: Step)
    requires Bound(s)
    ensures step.session == s && step.hub.groups == h.groups
    ensures |messages| <= |step.messages| <= |messages| + 1 && step.messages[..|messages|] == messages
    ensures step.outcome.Raised? ==> step.messages == messages
  {
    match data.command
    case None => Step(s, h, messages, Raised(KeyError("command")))
    case Some(c) =>
      if c !in Commands then Step(s, h, messages, Raised(KeyError(c)))
      else match Commands[c]
        case FetchMessagesCommand => FetchMessagesEffect(s, ch, data, messages, lastMessages, h)
        case NewMessageCommand => NewMessageEffect(s, data, rooms, messages, now, h)
        case ErrorMessageCommand => ErrorMessageEffect(s, ch, data, messages, h)
  }

  /** `disconnect(close_code)`: leave `self.room_group_name`, which must have been set. */
  function DisconnectEffect(s: Session, messages: seq<Message>, h: Hub, ch: Channel): (step: Step)
    ensures step.session == s && step.messages == messages && step.hub.outbox == h.outbox
    ensures step.outcome == Returned <==> s.roomGroupName.Some?
    ensures s.roomGroupName.Some? ==> Members(step.hub, s.roomGroupName.value) == Members(h, s.roomGroupName.value) - {ch}
    ensures step.outcome.Raised? ==> step.hub == h
  {
    match s.roomGroupName
    case None => Step(s, h, messages, Raised(AttributeError("room_group_name")))
    case Some(g) => Step(s, DiscardFromGroup(h, g, ch), messages, Returned)
  }
}
