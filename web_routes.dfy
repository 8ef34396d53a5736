/** The web server's routes (web/routes.py): the per-channel message cache
    behind `GET /messages/<channel_id>`, and the parameter checks of
    `GET /channels/<guild_id>` and `POST /send-message`. Discord calls are
    parameters: whether `get_channel(int(id))` finds the channel, and the
    messages `channel.history(...)` yields. */
module WebRoutes {
  import opened Messages
  import opened Text

  /** The outcome of `get_channel(int(channel_id))`: the id is not an
      integer (a `ValueError`, answered with 500), no such channel, or found. */
  datatype ChannelLookup = BadChannelId | UnknownChannel | KnownChannel

  /** The outcome of `get_guild(int(guild_id))`, with the guild's text
      channels when found. */
  datatype GuildLookup = BadGuildId | UnknownGuild | KnownGuild(textChannels: seq<ChannelSource>)

  /** A JSON reply: a list of messages, or an error status. */
  datatype Response = Messages(items: seq<Message>) | Failure(status: int)

  /** What the `after` query argument amounts to: absent (or empty), not an
      ISO-8601 timestamp, or an instant. */
  datatype Cutoff = NoCutoff | BadCutoff | At(instant: int)

  /** `s.replace('Z', '+00:00')`, applied before every parse. */
  function IsoNormalize(s: string): (r: string)
    ensures 'Z' !in r
  {
    Replace(s, 'Z', "+00:00")
  }

  /** Reads the `after` argument; an empty string counts as absent. */
  function ReadAfter(after: Option<string>, parse: string -> Option<int>): (c: Cutoff)
    ensures c.NoCutoff? <==> !Truthy(after)
    ensures c.BadCutoff? <==> Truthy(after) && parse(IsoNormalize(after.value)).None?
    ensures c.At? ==> parse(IsoNormalize(after.value)) == Some(c.instant)
  {
    if !Truthy(after) then NoCutoff
    else match parse(IsoNormalize(after.value))
      case None => BadCutoff
      case Some(t) => At(t)
  }

  /** `messages.reverse()`: Discord yields newest first, the cache is kept
      oldest first. */
  function Reverse(s: seq<Message>): (r: seq<Message>)
    ensures |r| == |s|
    ensures forall i :: 0 <= i < |s| ==> r[i] == s[|s| - 1 - i]
  {
    if s == [] then [] else Reverse(s[1..]) + [s[0]]
  }

  /** The channel's cache entry once the route has made sure there is one:
      the existing entry, or else the fetched history reversed. */
  function Filled(cache: map<string, seq<Message>>, channelId: string, history: seq<Message>): (r: seq<Message>)
    ensures channelId in cache ==> r == cache[channelId]
    ensures channelId !in cache ==> |r| == |history| && forall i :: 0 <= i < |r| ==> r[i] == history[|history| - 1 - i]
  {
    if channelId in cache then cache[channelId] else Reverse(history)
  }

  /** Every cached timestamp parses (otherwise the filter raises). */
  predicate AllStampsParse(cached: seq<Message>, parse: string -> Option<int>)
  {
    forall m :: m in cached ==> parse(IsoNormalize(m.timestamp)).Some?
  }

  /** Whether a cached message is strictly later than `t`. */
  predicate Later(m: Message, t: int, parse: string -> Option<int>)
  {
    var s := parse(IsoNormalize(m.timestamp));
    s.Some? && s.value > t
  }

  /** The cached messages strictly later than `t`, in cache order. */
  function LaterThan(cached: seq<Message>, t: int, parse: string -> Option<int>): (r: seq<Message>)
    ensures |r| <= |cached|
    ensures forall m :: m in r <==> m in cached && Later(m, t, parse)
  {
    if cached == [] then []
    else
      var init := cached[..|cached| - 1];
      assert cached == init + [cached[|cached| - 1]];
      LaterThan(init, t, parse) + (if Later(cached[|cached| - 1], t, parse) then [cached[|cached| - 1]] else [])
  }

  /** The filter distributes over concatenation: it keeps cache order. */
  lemma {:induction false} LaterThanAppend(a: seq<Message>, b: seq<Message>, t: int, parse: string -> Option<int>)
    ensures LaterThan(a + b, t, parse) == LaterThan(a, t, parse) + LaterThan(b, t, parse)
  {
    if b == [] {
      assert a + b == a;
    } else {
      var init := b[..|b| - 1];
      assert (a + b)[..|a + b| - 1] == a + init;
      LaterThanAppend(a, init, t, parse);
    }
  }

  /** The ids present in the cache. */
  function Ids(ms: seq<Message>): set<string>
  {
    set m | m in ms :: m.id
  }

  /** The fetched messages whose id is not cached, in fetched order. */
  function UniqueById(cached: seq<Message>, fetched: seq<Message>): (r: seq<Message>)
    ensures |r| <= |fetched|
    ensures forall m :: m in r <==> m in fetched && m.id !in Ids(cached)
  {
    if fetched == [] then []
    else (if fetched[0].id in Ids(cached) then [] else [fetched[0]]) + UniqueById(cached, fetched[1..])
  }

  /** The id filter distributes over concatenation: it keeps fetched order
      and keeps every copy of a message it lets through. */
  lemma {:induction false} UniqueByIdAppend(cached: seq<Message>, a: seq<Message>, b: seq<Message>)
    ensures UniqueById(cached, a + b) == UniqueById(cached, a) + UniqueById(cached, b)
  {
    if a == [] {
      assert a + b == b;
    } else {
      assert (a + b)[0] == a[0];
      assert (a + b)[1..] == a[1..] + b;
      UniqueByIdAppend(cached, a[1..], b);
    }
  }

  /** What the refetch contributes: nothing when the cache is empty (there
      is no last message to fetch after), else the fetched messages with an
      id not yet cached. */
  function Refetched(cached: seq<Message>, fetched: seq<Message>): (r: seq<Message>)
    ensures cached == [] ==> r == []
    ensures forall m :: m in r <==> cached != [] && m in fetched && m.id !in Ids(cached)
  {
    if cached == [] then [] else UniqueById(cached, fetched)
  }

  /** Ascending by timestamp string. */
  predicate SortedByTimestamp(ms: seq<Message>)
  {
    forall i :: 0 <= i < |ms| - 1 ==> LexLe(ms[i].timestamp, ms[i + 1].timestamp)
  }

  /** Inserts `m` before the first entry it does not follow. */
  function Insert(m: Message, sorted: seq<Message>): (r: seq<Message>)
    requires SortedByTimestamp(sorted)
    ensures SortedByTimestamp(r)
    ensures multiset(r) == multiset(sorted) + multiset{m}
    ensures |r| == |sorted| + 1 && (r[0] == m || (sorted != [] && r[0] == sorted[0]))
  {
    if sorted == [] then [m]
    else if LexLe(m.timestamp, sorted[0].timestamp) then [m] + sorted
    else
      LexLeTotal(m.timestamp, sorted[0].timestamp);
      assert sorted == [sorted[0]] + sorted[1..];
      [sorted[0]] + Insert(m, sorted[1..])
  }

  /** `sorted(ms, key=lambda x: x['timestamp'])`: the same messages, ordered
      by their timestamp strings. */
  function SortByTimestamp(ms: seq<Message>): (r: seq<Message>)
    ensures SortedByTimestamp(r)
    ensures multiset(r) == multiset(ms)
  {
    if ms == [] then []
    else
      assert ms == [ms[0]] + ms[1..];
      Insert(ms[0], SortByTimestamp(ms[1..]))
  }

  /** The new cache entry of the refetch path puts the new messages IN FRONT
      of the old ones: with an old entry `[a]` that is not later than the
      cutoff and a refetched `b` with another id, the entry becomes `[b, a]`,
      which is out of timestamp order whenever `b` is the later one. */
  lemma PrependBreaksOrder(a: Message, b: Message, t: int, parse: string -> Option<int>)
    requires parse(IsoNormalize(a.timestamp)).Some? && !Later(a, t, parse) && a.id != b.id
    ensures AfterCutoff([a], t, parse, [b]) == (Messages([b]), [b, a])
    ensures !LexLe(b.timestamp, a.timestamp) ==> !SortedByTimestamp(AfterCutoff([a], t, parse, [b]).1)
  {
    assert AllStampsParse([a], parse);
    assert LaterThan([a], t, parse) == [];
    assert Ids([a]) == {a.id};
    assert Refetched([a], [b]) == [b];
    assert SortByTimestamp([b]) == [b];
    var ba := [b, a];
    assert AfterCutoff([a], t, parse, [b]).1 == ba;
    if !LexLe(b.timestamp, a.timestamp) {
      assert !LexLe(ba[0].timestamp, ba[1].timestamp);
    }
  }

  /** After any request with a cutoff, the entry's last message is the one
      it had before, so the next refetch asks Discord for messages after the
      same id. */
  lemma CursorStays(cached: seq<Message>, t: int, parse: string -> Option<int>, newer: seq<Message>)
    requires cached != []
    ensures var entry := AfterCutoff(cached, t, parse, newer).1;
      entry != [] && entry[|entry| - 1] == cached[|cached| - 1]
  {
    AfterCutoffEntry(cached, t, parse, newer);
    var entry := AfterCutoff(cached, t, parse, newer).1;
    assert entry[|entry| - 1] == entry[|entry| - |cached|..][|cached| - 1];
  }

  /** A refetch of only already-cached ids contributes nothing. */
  lemma {:induction false} RefetchOfKnownIsEmpty(cached: seq<Message>, fetched: seq<Message>)
    requires forall m :: m in fetched ==> m.id in Ids(cached)
    ensures Refetched(cached, fetched) == []
  {
    if cached != [] && fetched != [] {
      RefetchOfKnownIsEmpty(cached, fetched[1..]);
    }
  }

  /** The reply and new cache entry of a request with a readable `after`
      instant `t`, given the filled entry `cached` and what the refetch
      yields. */
  function AfterCutoff(cached: seq<Message>, t: int, parse: string -> Option<int>, newer: seq<Message>): (r: (Response, seq<Message>))
    ensures r.0.Failure? <==> !AllStampsParse(cached, parse)
    ensures r.0.Failure? ==> r.0.status == 500 && r.1 == cached
  {
    if !AllStampsParse(cached, parse) then (Failure(500), cached)
    else if LaterThan(cached, t, parse) != [] then (Messages(LaterThan(cached, t, parse)), cached)
    else if Refetched(cached, newer) == [] then (Messages([]), cached)
    else (Messages(SortByTimestamp(Refetched(cached, newer))), Refetched(cached, newer) + cached)
  }

  /** Whatever the path, the old entry survives as the tail of the new one;
      every message replied comes from the entry or the refetch; the entry
      grows only by the refetched messages the reply carries; and an empty
      entry answers `[]` whatever the refetch would have yielded, since
      the route does not ask Discord then. */
  lemma AfterCutoffEntry(cached: seq<Message>, t: int, parse: string -> Option<int>, newer: seq<Message>)
    ensures var (resp, entry) := AfterCutoff(cached, t, parse, newer);
      && |cached| <= |entry| && entry[|entry| - |cached|..] == cached
      && (resp.Messages? ==> forall m :: m in resp.items ==> m in cached || m in newer)
      && (entry != cached ==> resp.Messages? && multiset(resp.items) == multiset(entry[..|entry| - |cached|])
                              && SortedByTimestamp(resp.items))
    ensures cached == [] && AllStampsParse(cached, parse) ==> AfterCutoff(cached, t, parse, newer) == (Messages([]), [])
  {
    var (resp, entry) := AfterCutoff(cached, t, parse, newer);
    if entry != cached {
      var unique := Refetched(cached, newer);
      assert entry == unique + cached;
      assert entry[..|entry| - |cached|] == unique;
      forall m | m in resp.items ensures m in newer {
        assert m in multiset(SortByTimestamp(unique));
      }
    }
  }

  /** The `Routes` object and its `message_cache`. */
  class Routes {
    var messageCache: map<string, seq<Message>>

    constructor (messageCache: map<string, seq<Message>>)
      ensures this.messageCache == messageCache
    {
      this.messageCache := messageCache;
    }

    /** `GET /messages/<channel_id>?after=...`. `history` is what
        `channel.history(limit=10)` yields (newest first) and `newer` what
        `channel.history(limit=50, after=<last cached id>, oldest_first=True)`
        yields. */
    method GetMessages(channelId: string, channel: ChannelLookup, after: Option<string>,
                       parse: string -> Option<int>, history: seq<Message>, newer: seq<Message>)
      returns (resp: Response)
      modifies this
      ensures channel.BadChannelId? ==> resp == Failure(500) && messageCache == old(messageCache)
      ensures channel.UnknownChannel? ==> resp == Failure(404) && messageCache == old(messageCache)
      ensures channel.KnownChannel? && ReadAfter(after, parse).BadCutoff? ==>
        resp == Failure(400) && messageCache == old(messageCache)
      ensures channel.KnownChannel? && ReadAfter(after, parse).NoCutoff? ==>
        var filled := Filled(old(messageCache), channelId, history);
        resp == Messages(filled) && messageCache == old(messageCache)[channelId := filled]
      ensures channel.KnownChannel? && ReadAfter(after, parse).At? ==>
        var filled := Filled(old(messageCache), channelId, history);
        var (r, entry) := AfterCutoff(filled, ReadAfter(after, parse).instant, parse, newer);
        resp == r && messageCache == old(messageCache)[channelId := entry]
    {
      if channel.BadChannelId? {
        return Failure(500);
      }
      if channel.UnknownChannel? {
        return Failure(404);
      }
      var cutoff := ReadAfter(after, parse);
      if cutoff.BadCutoff? {
        return Failure(400);
      }
      if channelId !in messageCache {
        messageCache := messageCache[channelId := Reverse(history)];
      }
      var cached := messageCache[channelId];
      assert cached == Filled(old(messageCache), channelId, history);
      if cutoff.NoCutoff? {
        return Messages(cached);
      }
      var entry;
      resp, entry := ServeAfter(cached, cutoff.instant, parse, newer);
      messageCache := messageCache[channelId := entry];
    }

    /** The part of `GET /messages/<channel_id>` after the cache entry is
        filled and `after` read as instant `t`: 500 when a cached timestamp
        does not parse, the cached messages later than `t` when there are
        some, and otherwise the refetched messages not yet cached (sorted),
        which are put IN FRONT of the entry. `entry` is the new cache entry. */
    static method ServeAfter(cached: seq<Message>, t: int, parse: string -> Option<int>, newer: seq<Message>)
      returns (resp: Response, entry: seq<Message>)
      ensures (resp, entry) == AfterCutoff(cached, t, parse, newer)
    {
      entry := cached;
      var parsed, newMessages := FilterLater(cached, t, parse);
      if !parsed {
        return Failure(500), entry;
      }
      if newMessages != [] {
        return Messages(newMessages), entry;
      }
      var fetched: seq<Message> := [];
      if cached != [] {
        fetched := newer;
      }
      var unique: seq<Message> := [];
      if fetched != [] {
        unique := UniqueById(cached, fetched);
      }
      assert unique == Refetched(cached, newer);
      if unique != [] {
        entry := unique + cached;
        return Messages(SortByTimestamp(unique)), entry;
      }
      resp := Messages([]);
    }

    /** The loop over the cache: fails (`parsed` false, where Python raises)
        when some cached timestamp does not parse, else collects the messages
        strictly later than `t` in cache order. */
    static method FilterLater(cached: seq<Message>, t: int, parse: string -> Option<int>)
      returns (parsed: bool, newMessages: seq<Message>)
      ensures parsed <==> AllStampsParse(cached, parse)
      ensures parsed ==> newMessages == LaterThan(cached, t, parse)
    {
      newMessages := [];
      var i := 0;
      while i < |cached|
        invariant 0 <= i <= |cached|
        invariant AllStampsParse(cached[..i], parse)
        invariant newMessages == LaterThan(cached[..i], t, parse)
      {
        var msg := cached[i];
        assert cached[..i + 1] == cached[..i] + [msg];
        var stamp := parse(IsoNormalize(msg.timestamp));
        if stamp.None? {
          return false, [];
        }
        if stamp.value > t {
          newMessages := newMessages + [msg];
        }
        i := i + 1;
      }
      assert cached[..i] == cached;
      parsed := true;
    }

    /** `GET /channels/<guild_id>`: 500 for a non-integer id, 404 for an
        unknown guild, else each text channel's id and name in order. */
    method GetChannels(guild: GuildLookup) returns (status: int, channels: seq<ChannelSource>)
      ensures guild.BadGuildId? ==> status == 500 && channels == []
      ensures guild.UnknownGuild? ==> status == 404 && channels == []
      ensures guild.KnownGuild? ==> status == 200 && channels == guild.textChannels
    {
      if guild.BadGuildId? {
        return 500, [];
      }
      if guild.UnknownGuild? {
        return 404, [];
      }
      channels := [];
      var i := 0;
      while i < |guild.textChannels|
        invariant 0 <= i <= |guild.textChannels|
        invariant channels == guild.textChannels[..i]
      {
        var c := guild.textChannels[i];
        channels := channels + [ChannelSource(c.id, c.name)];
        i := i + 1;
      }
      assert guild.textChannels[..i] == guild.textChannels;
      status := 200;
    }
  }

  /** The JSON body of `POST /send-message`; a missing field is `None`. */
  datatype SendBody = SendBody(channelId: Option<string>, content: Option<string>)

  /** The route's answer: an error status, or the send scheduled on the
      bot's loop. */
  datatype SendOutcome = Rejected(status: int) | Scheduled(channelId: string, content: string)

  /** `POST /send-message`. A body that is not JSON (`None`) fails with 500;
      a missing or empty `channel_id` or `content` is a 400, decided before
      any channel lookup; then the lookup decides between 500, 404 and
      sending the content, as given, to that channel. The `guild_id` the
      client sends is ignored. */
  function SendMessage(body: Option<SendBody>, channel: ChannelLookup): (r: SendOutcome)
    ensures body.None? ==> r == Rejected(500)
    ensures body.Some? && !(Truthy(body.value.channelId) && Truthy(body.value.content)) ==> r == Rejected(400)
    ensures r.Scheduled? <==> body.Some? && Truthy(body.value.channelId) && Truthy(body.value.content) && channel.KnownChannel?
    ensures r.Scheduled? ==> r.channelId == body.value.channelId.value && r.content == body.value.content.value
    ensures r.Rejected? && r.status == 404 <==> body.Some? && Truthy(body.value.channelId) && Truthy(body.value.content) && channel.UnknownChannel?
    ensures body.Some? && Truthy(body.value.channelId) && Truthy(body.value.content) && channel.BadChannelId? ==> r == Rejected(500)
  {
    match body
    case None => Rejected(500)
    case Some(b) =>
      if !Truthy(b.channelId) || !Truthy(b.content) then Rejected(400)
      else match channel
        case BadChannelId => Rejected(500)
        case UnknownChannel => Rejected(404)
        case KnownChannel => Scheduled(b.channelId.value, b.content.value)
  }
}
