/**
 * The slice of the chat platform's payloads that the router reads. Pointers that may be nil
 * (a message's author, a session's state cache, the cached self user) are `Option`s.
 */
module Discord {
  import opened Options

  datatype User = User(id: string, bot: bool)

  /** The session's state cache; `user` is the bot's own account once the cache is populated. */
  datatype State = State(user: Option<User>)

  datatype Session = Session(state: Option<State>)

  datatype Message = Message(
    author: Option<User>,
    content: string,
    webhookId: string,
    guildId: string,
    channelId: string)
}
