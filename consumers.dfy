/**
  * `ChatConsumer` of chat/consumers.py as an object: the attributes `init_chat` and
  * `connect` assign step by step, the channel layer it shares with every other consumer,
  * and the database tables it reads and writes. Each method is proved to have the effect
  * ConsumerSpec gives it.
  */
module Consumers {
  import opened Wrappers
  import opened Accounts
  import opened Protocol
  import opened ChannelLayer
  import opened GroupNames
  import opened ConsumerSpec

  /** The tables the consumer uses through the ORM. */
  class Database {
    /** `Room` rows: primary key to the ids of `room.users`. */
    var rooms: map<int, set<UserId>>
    /** `Message` rows in the order they were created. */
    var messages: seq<Message>
    /** `Message.objects.last_messages`, a manager method that is not part of this model. */
    const lastMessages: (seq<Message>, int) -> Result<seq<Message>, string>

    constructor (rooms: map<int, set<UserId>>, lastMessages: (seq<Message>, int) -> Result<seq<Message>, string>)
      ensures this.rooms == rooms && messages == [] && this.lastMessages == lastMessages
    {
      this.rooms, messages, this.lastMessages := rooms, [], lastMessages;
    }

    /** `Message.objects.create(user=..., message=..., room=...)`; `created` is the clock's reading. */
    method CreateMessage(sender: User, room: int, text: string, created: string) returns (m: Message)
      modifies this`messages
      ensures m == Message(sender, room, text, created)
      ensures messages == old(messages) + [m]
    {
      m := Message(sender, room, text, created);
      messages := messages + [m];
    }
  }

  class ChatConsumer {
    const channelName: Channel
    const scope: Scope
    const layer: Layer
    const db: Database

    var user: Option<User>
    var roomId: Option<int>
    var roomGroupName: Option<Group>
    var room: Option<int>
    var roomUsers: Option<set<UserId>>
    var accepted: bool

    /** The consumer's attributes as a value. */
    function State(): Session
      reads this
    {
      Session(user, roomId, roomGroupName, room, roomUsers, accepted)
    }

    constructor (channelName: Channel, scope: Scope, layer: Layer, db: Database)
      ensures State() == Unset
      ensures this.channelName == channelName && this.scope == scope && this.layer == layer && this.db == db
    {
      this.channelName, this.scope, this.layer, this.db := channelName, scope, layer, db;
      user, roomId, roomGroupName, room, roomUsers, accepted := None, None, None, None, None, false;
    }

    /** `send_error_message(text)` */
    method SendErrorMessage(text: string) returns (outcome: Outcome)
      modifies layer
      ensures match SendErrorEffect(State(), old(layer.State()), text)
              case Success(h) => layer.State() == h && outcome == Returned
              case Failure(e) => layer.State() == old(layer.State()) && outcome == Raised(e)
    {
      if roomGroupName.None? {
        return Raised(AttributeError("room_group_name"));
      }
      layer.GroupSend(roomGroupName.value, ErrorFrame(text));
      return Returned;
    }

    /** `send_chat_message(content)` */
    method SendChatMessage(f: Frame) returns (outcome: Outcome)
      modifies layer
      ensures match SendChatEffect(State(), old(layer.State()), f)
              case Success(h) => layer.State() == h && outcome == Returned
              case Failure(e) => layer.State() == old(layer.State()) && outcome == Raised(e)
    {
      if roomGroupName.None? {
        return Raised(AttributeError("room_group_name"));
      }
      layer.GroupSend(roomGroupName.value, f);
      return Returned;
    }

    /** `send_message(content)`: to this connection's socket only. */
    method SendMessage(f: Frame)
      modifies layer
      ensures layer.State() == SendTo(old(layer.State()), channelName, f)
    {
      layer.Send(channelName, f);
    }

    /** `init_chat()` */
    method InitChat() returns (result: Result<Option<bool>, Exception>)
      requires State() == Unset
      modifies this, layer
      ensures var step := InitChatEffect(scope, db.rooms, old(layer.State()));
              State() == step.session && layer.State() == step.hub && result == step.result
    {
      user := Some(scope.user);
      if !scope.user.Registered? {
        var sent := SendErrorMessage(RequireLogin);
        return Failure(sent.error);
      }
      var parsed := ParseRoomId(scope.roomArg);
      if parsed.None? {
        return Failure(ValueError(scope.roomArg));
      }
      roomId := parsed;
      roomGroupName := Some(GroupName(parsed.value));
      var id := parsed.value;
      if id !in db.rooms {
        var _ := SendErrorMessage(RoomMissing);
        return Success(Some(false));
      }
      room := Some(id);
      roomUsers := Some(db.rooms[id]);
      if scope.user.id !in db.rooms[id] {
        var _ := SendErrorMessage(NotInRoom);
        return Success(None);
      }
      return Success(Some(true));
    }

    /** `connect()` */
    method Connect() returns (outcome: Outcome)
      requires State() == Unset
      modifies this, layer
      ensures var step := ConnectEffect(scope, db.rooms, db.messages, old(layer.State()), channelName);
              State() == step.session && layer.State() == step.hub && outcome == step.outcome
    {
      var result := InitChat();
      if result.Failure? {
        return Raised(result.error);
      }
      if roomGroupName.Some? {
        layer.GroupAdd(roomGroupName.value, channelName);
        accepted := true;
      }
      return Returned;
    }

    /** `messages_to_json(messages)`: one `message_to_json` per message, in order. */
    method MessagesToJson(messages: seq<Message>) returns (result: seq<MessageJson>)
      ensures |result| == |messages|
      ensures forall i :: 0 <= i < |messages| ==> result[i] == MessageToJson(messages[i])
    {
      result := [];
      for k := 0 to |messages|
        invariant |result| == k
        invariant forall i :: 0 <= i < k ==> result[i] == MessageToJson(messages[i])
      {
        result := result + [MessageToJson(messages[k])];
      }
    }

    /** `fetch_messages(data)` */
    method FetchMessages(data: Payload) returns (outcome: Outcome)
      modifies layer
      ensures var step := FetchMessagesEffect(State(), channelName, data, db.messages, db.lastMessages, old(layer.State()));
              layer.State() == step.hub && outcome == step.outcome
    {
      if data.room.None? {
        return Raised(KeyError("room"));
      }
      var answer := db.lastMessages(db.messages, data.room.value);
      if answer.Success? {
        var json := MessagesToJson(answer.value);
        assert json == MessagesJson(answer.value);
        SendMessage(MessagesFrame(json));
        return Returned;
      }
      outcome := SendErrorMessage(answer.error);
    }

    /** `new_message(data)`; `now` is the clock reading that becomes `created`. */
    method NewMessage(data: Payload, now: string) returns (outcome: Outcome)
      requires Bound(State())
      modifies layer, db`messages
      ensures var step := NewMessageEffect(State(), data, db.rooms, old(db.messages), now, old(layer.State()));
              layer.State() == step.hub && db.messages == step.messages && outcome == step.outcome
    {
      var id := roomId.value;
      if id !in db.rooms {
        return Raised(DoesNotExist(RoomMissing));
      }
      if data.message.None? {
        return Raised(KeyError("message"));
      }
      var m := db.CreateMessage(user.value, id, data.message.value, now);
      outcome := SendChatMessage(NewMessageFrame(MessageToJson(m)));
    }

    /** `error_message(data)` run as a command: `data['message']` back to this socket. */
    method ErrorMessage(data: Payload) returns (outcome: Outcome)
      modifies layer
      ensures var step := ErrorMessageEffect(State(), channelName, data, db.messages, old(layer.State()));
              layer.State() == step.hub && outcome == step.outcome
    {
      if data.message.None? {
        return Raised(KeyError("message"));
      }
      SendMessage(EchoFrame(data.message.value));
      return Returned;
    }

    /** `receive(text_data)`, after `json.loads`: dispatch through `commands`. */
    method Receive(data: Payload, now: string) returns (outcome: Outcome)
      requires Bound(State())
      modifies layer, db`messages
      ensures var step := ReceiveEffect(State(), channelName, data, db.rooms, old(db.messages), db.lastMessages, now, old(layer.State()));
              layer.State() == step.hub && db.messages == step.messages && outcome == step.outcome
    {
      if data.command.None? {
        return Raised(KeyError("command"));
      }
      var c := data.command.value;
      if c !in Commands {
        return Raised(KeyError(c));
      }
      match Commands[c]
      case FetchMessagesCommand =>
        outcome := FetchMessages(data);
      case NewMessageCommand =>
        outcome := NewMessage(data, now);
      case ErrorMessageCommand =>
        outcome := ErrorMessage(data);
    }

    /** `disconnect(close_code)` */
    method Disconnect() returns (outcome: Outcome)
      modifies layer
      ensures var step := DisconnectEffect(State(), db.messages, old(layer.State()), channelName);
              layer.State() == step.hub && outcome == step.outcome
    {
      if roomGroupName.None? {
        return Raised(AttributeError("room_group_name"));
      }
      layer.GroupDiscard(roomGroupName.value, channelName);
      return Returned;
    }
  }
}
