/** The page's event handler (web/static/js/eventHandler.js): the guild and
    channel the user has selected, the guards in front of refreshing and
    sending, and the channel filter applied when messages are appended to
    `#messages`.

    Every `fetch` is a parameter holding what it produced. Two calls the
    handler starts without awaiting them (`updateChannels` after a guild is
    picked, `refreshData` after a send) are returned as the `Next` step for
    the caller to run. Awaited calls are run in place, and so is the one
    un-awaited `updateMessages` that ends `refreshData`: nothing in
    `refreshData` follows it, and its failure is reported by its own
    handler, not by `refreshData`'s. Of the two
    `updateMessages` definitions in the class body the later one (line 341)
    is the method every call reaches, and it is the one modelled. */
module Events {
  import opened Messages
  import opened Text
  import opened Dom
  import WebRoutes

  const GuildListError: string := "無法載入伺服器列表"
  const ChannelListError: string := "無法更新頻道列表"
  const RefreshError: string := "無法載入訊息"
  const UpdateError: string := "無法更新訊息"
  const SelectFirstError: string := "請先選擇伺服器和頻道"
  const SendError: string := "無法發送訊息"

  /** The option `updateChannels` puts first in the channel selector. */
  const ChannelPlaceholder: OptionNode := OptionNode("", "選擇頻道")

  /** A call started and not awaited, for the caller to run next. */
  datatype Next = Idle | LoadChannels(guildId: string) | Refresh

  /** What the `POST /send-message` fetch produced: no response, or a
      response with its `ok` flag (the body is not read). */
  datatype Posted = NoResponse | Answered(ok: bool)

  /** The JSON body the client posts to `/send-message`. */
  datatype SendRequest = SendRequest(guildId: string, channelId: string, content: string)

  /** A reply the client accepts: a response with `ok` set whose body parses
      as JSON. */
  predicate Delivered<T>(reply: Reply<T>)
  {
    reply.Response? && reply.ok && reply.body.Some?
  }

  /** `message.channel_id === currentChannelId`: a message without a channel
      never matches, not even while no channel is selected. */
  predicate InChannel(m: Message, channel: Option<string>)
  {
    m.channelId.Some? && m.channelId == channel
  }

  /** The fetched messages of the current channel, in fetched order. */
  function ForChannel(ms: seq<Message>, channel: Option<string>): (r: seq<Message>)
    ensures |r| <= |ms|
  {
    if ms == [] then []
    else
      var last := ms[|ms| - 1];
      ForChannel(ms[..|ms| - 1], channel) + (if InChannel(last, channel) then [last] else [])
  }

  /** The filter keeps exactly the messages of the current channel. */
  lemma {:induction false} ForChannelMembers(ms: seq<Message>, channel: Option<string>)
    ensures forall m :: m in ForChannel(ms, channel) <==> m in ms && InChannel(m, channel)
  {
    if ms != [] {
      var init := ms[..|ms| - 1];
      ForChannelMembers(init, channel);
      assert ms == init + [ms[|ms| - 1]];
    }
  }

  /** The filter distributes over concatenation, so it keeps fetched order. */
  lemma {:induction false} ForChannelAppend(a: seq<Message>, b: seq<Message>, channel: Option<string>)
    ensures ForChannel(a + b, channel) == ForChannel(a, channel) + ForChannel(b, channel)
  {
    if b == [] {
      assert a + b == a;
    } else {
      var init := b[..|b| - 1];
      assert (a + b)[..|a + b| - 1] == a + init;
      ForChannelAppend(a, init, channel);
    }
  }

  /** A batch entirely from the selected channel is shown whole. */
  lemma {:induction false} ForChannelAll(ms: seq<Message>, channel: string)
    requires forall i :: 0 <= i < |ms| ==> ms[i].channelId == Some(channel)
    ensures ForChannel(ms, Some(channel)) == ms
  {
    if ms != [] {
      var init := ms[..|ms| - 1];
      ForChannelAll(init, channel);
      assert ms == init + [ms[|ms| - 1]];
    }
  }

  /** The body the client posts always gets past the route's 400 check: the
      content is not blank, so it is not empty, and the channel id is set;
      the route then sends the content as given once the channel is found. */
  lemma SendRequestAccepted(req: SendRequest)
    requires req.channelId != ""
    requires exists i :: 0 <= i < |req.content| && !JsWhitespace(req.content[i])
    ensures WebRoutes.SendMessage(Some(WebRoutes.SendBody(Some(req.channelId), Some(req.content))),
                                  WebRoutes.KnownChannel)
            == WebRoutes.Scheduled(req.channelId, req.content)
  {
    assert req.content != "";
  }

  class EventHandler {
    var currentGuildId: Option<string>
    var currentChannelId: Option<string>

    /** Nothing is selected at first. */
    constructor ()
      ensures currentGuildId == None && currentChannelId == None
    {
      currentGuildId := None;
      currentChannelId := None;
    }

    /** `showError`: the container, when present, holds exactly one error
        element with the given text. */
    method ShowError(doc: Document, text: string)
      modifies doc`messages
      ensures doc.hasMessages ==> doc.messages == [ErrorNode(text)]
      ensures !doc.hasMessages ==> doc.messages == old(doc.messages)
    {
      if doc.hasMessages {
        doc.messages := [ErrorNode(text)];
      }
    }

    /** The guild list request of `setupGuildSelector`, with `reply` what
        `fetch('/guilds')` produced; the `ok` flag is not checked. The
        selector's options are cleared and rebuilt from the list; a non-empty
        list selects its first guild and asks for that guild's channels. A
        failed request, a body that is not JSON, or a value that is not a
        list shows an error (the last after clearing the options). */
    method LoadGuilds(reply: Reply<Named>, doc: Document) returns (next: Next)
      modifies this`currentGuildId, doc`serverOptions, doc`serverValue, doc`messages
      ensures !doc.hasServerSelector ==>
        && next == Idle && currentGuildId == old(currentGuildId) && doc.messages == old(doc.messages)
        && doc.serverOptions == old(doc.serverOptions) && doc.serverValue == old(doc.serverValue)
      ensures doc.hasServerSelector && reply.Response? && reply.body.Some? && reply.body.value.Array? ==>
        var gs := reply.body.value.items;
        && doc.serverOptions == Options(gs)
        && doc.messages == old(doc.messages)
        && (gs != [] ==> && currentGuildId == Some(gs[0].id) && doc.serverValue == gs[0].id
                         && next == LoadChannels(gs[0].id))
        && (gs == [] ==> currentGuildId == old(currentGuildId) && doc.serverValue == "" && next == Idle)
      ensures doc.hasServerSelector && !(reply.Response? && reply.body.Some? && reply.body.value.Array?) ==>
        && next == Idle && currentGuildId == old(currentGuildId)
        && (doc.hasMessages ==> doc.messages == [ErrorNode(GuildListError)])
        && (!doc.hasMessages ==> doc.messages == old(doc.messages))
        && doc.serverOptions == (if reply.Response? && reply.body.Some? then [] else old(doc.serverOptions))
        && doc.serverValue == (if reply.Response? && reply.body.Some? then "" else old(doc.serverValue))
    {
      next := Idle;
      if !doc.hasServerSelector {
        return;
      }
      if reply.NetworkError? || reply.body.None? {
        ShowError(doc, GuildListError);
        return;
      }
      doc.serverOptions, doc.serverValue := [], "";
      var guilds := reply.body.value;
      if !guilds.Array? {
        ShowError(doc, GuildListError);
        return;
      }
      var gs := guilds.items;
      var i := 0;
      while i < |gs|
        invariant 0 <= i <= |gs|
        invariant |doc.serverOptions| == i
        invariant forall k :: 0 <= k < i ==> doc.serverOptions[k] == OptionNode(gs[k].id, gs[k].name)
        invariant doc.messages == old(doc.messages) && currentGuildId == old(currentGuildId)
        invariant doc.serverValue == ""
      {
        doc.serverOptions := doc.serverOptions + [OptionNode(gs[i].id, gs[i].name)];
        i := i + 1;
      }
      assert doc.serverOptions == Options(gs);
      if |gs| > 0 {
        doc.serverValue := gs[0].id;
        currentGuildId := Some(gs[0].id);
        next := LoadChannels(gs[0].id);
      }
    }

    /** The guild selector's `change` listener: an empty value is ignored;
        any other becomes the current guild, whose channels are loaded next. */
    method OnGuildChange(selected: string) returns (next: Next)
      modifies this`currentGuildId
      ensures selected == "" ==> currentGuildId == old(currentGuildId) && next == Idle
      ensures selected != "" ==> currentGuildId == Some(selected) && next == LoadChannels(selected)
    {
      next := Idle;
      if selected != "" {
        currentGuildId := Some(selected);
        next := LoadChannels(selected);
      }
    }

    /** The effective `updateMessages` (line 341), with `reply` what
        `fetch('/messages')` produced. The messages of the current channel are
        APPENDED, in fetched order, to whatever the container holds; nothing
        is ever cleared, so the same batch fetched twice is shown twice. A
        failed request, a body that is not JSON or not a list shows an error;
        without a container nothing changes. */
    method UpdateMessages(reply: Reply<Message>, doc: Document)
      modifies doc`messages
      ensures !doc.hasMessages ==> doc.messages == old(doc.messages)
      ensures doc.hasMessages && Delivered(reply) && reply.body.value.Array? ==>
        doc.messages == old(doc.messages) + Rendered(ForChannel(reply.body.value.items, currentChannelId))
      ensures doc.hasMessages && !(Delivered(reply) && reply.body.value.Array?) ==>
        doc.messages == [ErrorNode(UpdateError)]
    {
      if !Delivered(reply) || !reply.body.value.Array? {
        ShowError(doc, UpdateError);
        return;
      }
      if !doc.hasMessages {
        return;
      }
      var ms := reply.body.value.items;
      var i := 0;
      while i < |ms|
        invariant 0 <= i <= |ms|
        invariant doc.messages == old(doc.messages) + Rendered(ForChannel(ms[..i], currentChannelId))
      {
        var shown := ForChannel(ms[..i], currentChannelId);
        assert ms[..i + 1][..i] == ms[..i];
        if InChannel(ms[i], currentChannelId) {
          assert ForChannel(ms[..i + 1], currentChannelId) == shown + [ms[i]];
          RenderedSnoc(shown, ms[i]);
          doc.messages := doc.messages + [MessageNode(ms[i])];
        } else {
          assert ForChannel(ms[..i + 1], currentChannelId) == shown;
        }
        i := i + 1;
      }
      assert ms[..i] == ms;
    }

    /** `updateChannels(guildId)`, with `reply` what `fetch('/channels/...')`
        produced and `messages` what the awaited `updateMessages` then
        fetches. The selector is reset to the placeholder followed by the
        channels; a non-empty list makes its first channel the selected and
        current one and shows its messages, an empty one leaves the current
        channel as it was. Errors show one message; a missing selector ends
        the call quietly once the list has been read. */
    method UpdateChannels(reply: Reply<Named>, messages: Reply<Message>, doc: Document)
      modifies this`currentChannelId, doc`channelOptions, doc`channelValue, doc`messages
      ensures !Delivered(reply) || reply.body.value.Null? ==>
        && currentChannelId == old(currentChannelId)
        && doc.channelOptions == old(doc.channelOptions) && doc.channelValue == old(doc.channelValue)
        && doc.messages == (if doc.hasMessages then [ErrorNode(ChannelListError)] else old(doc.messages))
      ensures Delivered(reply) && !reply.body.value.Null? && !doc.hasChannelSelector ==>
        && currentChannelId == old(currentChannelId) && doc.messages == old(doc.messages)
        && doc.channelOptions == old(doc.channelOptions) && doc.channelValue == old(doc.channelValue)
      ensures Delivered(reply) && reply.body.value.Other? && doc.hasChannelSelector ==>
        && currentChannelId == old(currentChannelId)
        && doc.channelOptions == [ChannelPlaceholder] && doc.channelValue == ""
        && doc.messages == (if doc.hasMessages then [ErrorNode(ChannelListError)] else old(doc.messages))
      ensures Delivered(reply) && reply.body.value.Array? && doc.hasChannelSelector ==>
        var cs := reply.body.value.items;
        && doc.channelOptions == [ChannelPlaceholder] + Options(cs)
        && (cs == [] ==> && currentChannelId == old(currentChannelId) && doc.channelValue == ""
                         && doc.messages == old(doc.messages))
        && (cs != [] ==>
              && currentChannelId == Some(cs[0].id) && doc.channelValue == cs[0].id
              && (!doc.hasMessages ==> doc.messages == old(doc.messages))
              && (doc.hasMessages && Delivered(messages) && messages.body.value.Array? ==>
                    doc.messages == old(doc.messages) + Rendered(ForChannel(messages.body.value.items, Some(cs[0].id))))
              && (doc.hasMessages && !(Delivered(messages) && messages.body.value.Array?) ==>
                    doc.messages == [ErrorNode(UpdateError)]))
    {
      if !Delivered(reply) || reply.body.value.Null? {
        ShowError(doc, ChannelListError);
        return;
      }
      if !doc.hasChannelSelector {
        return;
      }
      doc.channelOptions, doc.channelValue := [ChannelPlaceholder], "";
      if !reply.body.value.Array? {
        ShowError(doc, ChannelListError);
        return;
      }
      var cs := reply.body.value.items;
      var i := 0;
      while i < |cs|
        invariant 0 <= i <= |cs|
        invariant |doc.channelOptions| == i + 1 && doc.channelOptions[0] == ChannelPlaceholder
        invariant forall k :: 0 <= k < i ==> doc.channelOptions[k + 1] == OptionNode(cs[k].id, cs[k].name)
        invariant doc.messages == old(doc.messages) && currentChannelId == old(currentChannelId)
        invariant doc.channelValue == ""
      {
        doc.channelOptions := doc.channelOptions + [OptionNode(cs[i].id, cs[i].name)];
        i := i + 1;
      }
      assert doc.channelOptions == [ChannelPlaceholder] + Options(cs);
      if |cs| > 0 {
        doc.channelValue := cs[0].id;
        currentChannelId := Some(cs[0].id);
        UpdateMessages(messages, doc);
      }
    }

    /** The channel selector's `change` listener: a non-empty value becomes
        the current channel and its messages are fetched and appended, or
        the update error is shown. */
    method OnChannelChange(selected: string, reply: Reply<Message>, doc: Document)
      modifies this`currentChannelId, doc`messages
      ensures selected == "" ==> currentChannelId == old(currentChannelId) && doc.messages == old(doc.messages)
      ensures selected != "" ==> currentChannelId == Some(selected)
      ensures selected != "" && doc.hasMessages && Delivered(reply) && reply.body.value.Array? ==>
        doc.messages == old(doc.messages) + Rendered(ForChannel(reply.body.value.items, Some(selected)))
      ensures selected != "" && doc.hasMessages && !(Delivered(reply) && reply.body.value.Array?) ==>
        doc.messages == [ErrorNode(UpdateError)]
      ensures !doc.hasMessages ==> doc.messages == old(doc.messages)
    {
      if selected != "" {
        currentChannelId := Some(selected);
        UpdateMessages(reply, doc);
      }
    }

    /** `refreshData`, with `first` what its own `fetch('/messages')`
        produced and `second` what the `updateMessages` it then calls
        fetches (that method ignores the list it is handed). Nothing happens
        unless both a guild and a channel are selected. */
    method RefreshData(first: Reply<Message>, second: Reply<Message>, doc: Document)
      modifies doc`messages
      ensures !(Truthy(currentGuildId) && Truthy(currentChannelId)) ==> doc.messages == old(doc.messages)
      ensures Truthy(currentGuildId) && Truthy(currentChannelId) && doc.hasMessages && !Delivered(first) ==>
        doc.messages == [ErrorNode(RefreshError)]
      ensures Truthy(currentGuildId) && Truthy(currentChannelId) && doc.hasMessages && Delivered(first) ==>
        if Delivered(second) && second.body.value.Array? then
          doc.messages == old(doc.messages) + Rendered(ForChannel(second.body.value.items, currentChannelId))
        else doc.messages == [ErrorNode(UpdateError)]
      ensures !doc.hasMessages ==> doc.messages == old(doc.messages)
    {
      if !Truthy(currentGuildId) || !Truthy(currentChannelId) {
        return;
      }
      if !Delivered(first) {
        ShowError(doc, RefreshError);
        return;
      }
      UpdateMessages(second, doc);
    }

    /** `sendMessage(content)`. Blank content (only JavaScript white space,
        or nothing) is dropped silently; then a missing guild or channel
        shows an error; otherwise the content, untrimmed, is posted with the
        current guild and channel, and a response with `ok` set schedules a
        refresh while anything else shows an error. */
    method SendMessage(content: string, posted: Posted, doc: Document)
      returns (request: Option<SendRequest>, next: Next)
      modifies doc`messages
      ensures (forall i :: 0 <= i < |content| ==> JsWhitespace(content[i])) ==>
        request == None && next == Idle && doc.messages == old(doc.messages)
      ensures (exists i :: 0 <= i < |content| && !JsWhitespace(content[i])) &&
              !(Truthy(currentGuildId) && Truthy(currentChannelId)) ==>
        && request == None && next == Idle
        && doc.messages == (if doc.hasMessages then [ErrorNode(SelectFirstError)] else old(doc.messages))
      ensures (exists i :: 0 <= i < |content| && !JsWhitespace(content[i])) &&
              Truthy(currentGuildId) && Truthy(currentChannelId) ==>
        && request == Some(SendRequest(currentGuildId.value, currentChannelId.value, content))
        && (posted == Answered(true) ==> next == Refresh && doc.messages == old(doc.messages))
        && (posted != Answered(true) ==>
              && next == Idle
              && doc.messages == (if doc.hasMessages then [ErrorNode(SendError)] else old(doc.messages)))
    {
      request, next := None, Idle;
      StripEmptyIff(content, JsWhitespace);
      if Strip(content, JsWhitespace) == [] {
        return;
      }
      if !Truthy(currentGuildId) || !Truthy(currentChannelId) {
        ShowError(doc, SelectFirstError);
        return;
      }
      request := Some(SendRequest(currentGuildId.value, currentChannelId.value, content));
      if posted == Answered(true) {
        next := Refresh;
      } else {
        ShowError(doc, SendError);
      }
    }
  }
}
