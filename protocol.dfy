/** The JSON frames the chat consumer writes to a WebSocket, as values. */
module Protocol {
  /** `message_to_json(message)`: exactly the keys `user`, `message` and `created`. */
  datatype MessageJson = MessageJson(user: string, message: string, created: string)

  datatype Frame =
    /** `{'command': 'error_message', 'message': text}` */
    | ErrorFrame(text: string)
    /** `{'command': 'new_message', 'message': message_to_json(message)}` */
    | NewMessageFrame(message: MessageJson)
    /** `{'command': 'messages', 'messages': messages_to_json(messages)}` */
    | MessagesFrame(messages: seq<MessageJson>)
    /** `data['message']` sent back as it came, by the `error_message` command */
    | EchoFrame(value: string)
}
