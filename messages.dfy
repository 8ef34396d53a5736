/** Data shared by the bot, the web routes and the browser client. */
module Messages {

  datatype Option<+T> = None | Some(value: T)

  /** A chat message as the bot records it (bot/handlers/events.py) and as the
      web routes cache it. Fields the server leaves out (the routes' records
      carry no channel or guild) are `None`. Timestamps stay the ISO-8601
      strings of the wire format; they are only ordered after parsing. */
  datatype Message = Message(
    id: string,
    author: string,
    content: string,
    timestamp: string,
    channelId: Option<string>,
    guildId: Option<string>)

  /** A text channel as the Discord gateway reports it (its id `str`-ed). */
  datatype ChannelSource = ChannelSource(id: string, name: string)

  /** A guild as the gateway reports it, with its text channels in order. */
  datatype GuildSource = GuildSource(id: string, name: string, textChannels: seq<ChannelSource>)

  /** A JavaScript value received as JSON: an array, `null` (on which reading
      `.length` throws), or any other value (an object, a string, a number),
      which has no `forEach`. */
  datatype JsValue<T> = Array(items: seq<T>) | Null | Other

  /** An `{id, name}` entry of a guild or channel list as the client
      receives it. */
  datatype Named = Named(id: string, name: string)

  /** What a `fetch(...)` in the client produces: no response at all, or a
      response with its `ok` flag and a body that `response.json()` either
      parses (`Some`) or fails on (`None`). */
  datatype Reply<T> = NetworkError | Response(ok: bool, body: Option<JsValue<T>>)

  /** JavaScript truthiness of a string that may be `null`. */
  predicate Truthy(s: Option<string>)
  {
    s.Some? && s.value != ""
  }
}
