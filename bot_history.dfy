/** The bot's side (bot/bot.py): an append-only message history of which
    the newest `max_messages` entries are persisted, the filter that answers
    "messages after this timestamp", and the guild/channel table rebuilt
    from the gateway's current guild list. */
module BotHistory {
  import opened Messages
  import opened Text
  import opened PyDict

  /** `self.max_messages`. */
  const MaxMessages: nat := 100

  /** An entry of a guild's `channels` dict; `kind` is the record's `type`. */
  datatype ChannelInfo = ChannelInfo(id: string, name: string, kind: string)

  /** A value of `guilds_info`. */
  datatype GuildInfo = GuildInfo(id: string, name: string, channels: seq<Entry<ChannelInfo>>)

  /** An element of the list `get_guilds` returns. */
  datatype GuildSummary = GuildSummary(id: string, name: string)

  /** Python's `h[-n:]`: the newest `n` entries, or all of them when there
      are fewer (and, since `-0 == 0`, all of them when `n` is 0). */
  function LastEntries(h: seq<Message>, n: nat): (r: seq<Message>)
    ensures |r| <= |h| && r == h[|h| - |r|..]
    ensures n > 0 ==> |r| == if |h| < n then |h| else n
  {
    if n == 0 || |h| <= n then h else h[|h| - n..]
  }

  /** The cleaning applied to the `after` argument: strip, then turn spaces
      into `+` (a `+` of a UTC offset that arrived URL-decoded as a space). */
  function CleanAfter(s: string): (r: string)
    ensures ' ' !in r
  {
    var t := Strip(s, PyWhitespace);
    if ' ' in t then Replace(t, ' ', "+") else t
  }

  /** Whether a stored message's timestamp parses and is strictly later than
      `after`. Stored timestamps are not stripped, only have their spaces
      turned into `+`. */
  predicate StampAfter(m: Message, after: int, parse: string -> Option<int>)
  {
    var t := parse(Replace(m.timestamp, ' ', "+"));
    t.Some? && t.value > after
  }

  /** The history entries strictly later than `after`, in history order;
      entries whose timestamp does not parse are skipped. */
  function NewerThan(h: seq<Message>, after: int, parse: string -> Option<int>): (r: seq<Message>)
    ensures |r| <= |h|
  {
    if h == [] then []
    else NewerThan(h[..|h| - 1], after, parse) + (if StampAfter(h[|h| - 1], after, parse) then [h[|h| - 1]] else [])
  }

  /** The filter keeps exactly the entries whose timestamp parses and is
      strictly later than `after`; the others are skipped, not fatal. */
  lemma {:induction false} NewerThanMembers(h: seq<Message>, after: int, parse: string -> Option<int>)
    ensures forall m :: m in NewerThan(h, after, parse) <==> m in h && StampAfter(m, after, parse)
  {
    if h != [] {
      var init := h[..|h| - 1];
      NewerThanMembers(init, after, parse);
      assert h == init + [h[|h| - 1]];
    }
  }

  /** The filter distributes over concatenation: it keeps history order. */
  lemma {:induction false} NewerThanAppend(a: seq<Message>, b: seq<Message>, after: int, parse: string -> Option<int>)
    ensures NewerThan(a + b, after, parse) == NewerThan(a, after, parse) + NewerThan(b, after, parse)
  {
    if b == [] {
      assert a + b == a;
    } else {
      var init := b[..|b| - 1];
      assert (a + b)[..|a + b| - 1] == a + init;
      NewerThanAppend(a, init, after, parse);
    }
  }

  /** The channel dict of one guild: channel id to its record, `type`
      'text', assigned in gateway order. */
  function ChannelTable(cs: seq<ChannelSource>): (r: seq<Entry<ChannelInfo>>)
    ensures cs != [] ==> Entry(cs[|cs| - 1].id, ChannelInfo(cs[|cs| - 1].id, cs[|cs| - 1].name, "text")) in r
  {
    if cs == [] then []
    else
      var c := cs[|cs| - 1];
      Put(ChannelTable(cs[..|cs| - 1]), c.id, ChannelInfo(c.id, c.name, "text"))
  }

  /** The record `update_guilds_info` stores for a guild. */
  function Info(g: GuildSource): GuildInfo
  {
    GuildInfo(g.id, g.name, ChannelTable(g.textChannels))
  }

  /** A well-formed channel dict: keyed by channel id, every channel of
      type 'text'. */
  predicate WellFormed(channels: seq<Entry<ChannelInfo>>)
  {
    && UniqueKeys(channels)
    && forall e :: e in channels ==> e.value.id == e.key && e.value.kind == "text"
  }

  /** `guilds_info` after the rebuild: guild id to its record, assigned in
      gateway order. */
  function GuildTable(gs: seq<GuildSource>): (r: seq<Entry<GuildInfo>>)
    ensures gs != [] ==> Entry(gs[|gs| - 1].id, Info(gs[|gs| - 1])) in r
  {
    if gs == [] then []
    else
      var g := gs[|gs| - 1];
      Put(GuildTable(gs[..|gs| - 1]), g.id, Info(g))
  }

  /** A guild's channel dict is keyed by exactly its text channels' ids and
      is well formed. */
  lemma ChannelTableShape(cs: seq<ChannelSource>)
    ensures KeySet(ChannelTable(cs)) == set c | c in cs :: c.id
    ensures WellFormed(ChannelTable(cs))
  {
    ChannelTableKeys(cs);
    ChannelTableRecords(cs);
  }

  /** The ids of a non-empty list are those of all but its last element,
      plus the last one's. */
  lemma ChannelIdsSnoc(cs: seq<ChannelSource>)
    requires cs != []
    ensures (set x | x in cs :: x.id) == (set x | x in cs[..|cs| - 1] :: x.id) + {cs[|cs| - 1].id}
  {
    assert cs == cs[..|cs| - 1] + [cs[|cs| - 1]];
  }

  lemma GuildIdsSnoc(gs: seq<GuildSource>)
    requires gs != []
    ensures (set x | x in gs :: x.id) == (set x | x in gs[..|gs| - 1] :: x.id) + {gs[|gs| - 1].id}
  {
    assert gs == gs[..|gs| - 1] + [gs[|gs| - 1]];
  }

  /** The channel dict's keys are the channel ids, each once. */
  lemma {:induction false} ChannelTableKeys(cs: seq<ChannelSource>)
    ensures UniqueKeys(ChannelTable(cs))
    ensures KeySet(ChannelTable(cs)) == set c | c in cs :: c.id
  {
    if cs != [] {
      var c := cs[|cs| - 1];
      var init := cs[..|cs| - 1];
      ChannelTableKeys(init);
      ChannelIdsSnoc(cs);
      PutKeepsKeysUnique(ChannelTable(init), c.id, ChannelInfo(c.id, c.name, "text"));
    }
  }

  /** Every channel record carries its own id and type `text`. */
  lemma {:induction false} ChannelTableRecords(cs: seq<ChannelSource>)
    ensures forall e :: e in ChannelTable(cs) ==> e.value.id == e.key && e.value.kind == "text"
  {
    if cs != [] {
      ChannelTableRecords(cs[..|cs| - 1]);
    }
  }

  /** The rebuilt `guilds_info` is keyed by exactly the current guild ids,
      each at most once. */
  lemma {:induction false} GuildTableShape(gs: seq<GuildSource>)
    ensures UniqueKeys(GuildTable(gs))
    ensures KeySet(GuildTable(gs)) == set g | g in gs :: g.id
  {
    if gs != [] {
      var g := gs[|gs| - 1];
      var init := gs[..|gs| - 1];
      GuildTableShape(init);
      GuildIdsSnoc(gs);
      PutKeepsKeysUnique(GuildTable(init), g.id, Info(g));
    }
  }

  /** Every record of the rebuilt `guilds_info` carries its own id and a
      well-formed channel dict. */
  lemma {:induction false} GuildTableRecords(gs: seq<GuildSource>)
    ensures forall e :: e in GuildTable(gs) ==> e.value.id == e.key && WellFormed(e.value.channels)
  {
    if gs != [] {
      GuildTableRecords(gs[..|gs| - 1]);
      ChannelTableShape(gs[|gs| - 1].textChannels);
    }
  }

  /** No id occurs twice (as the gateway's guilds and channels have). */
  predicate DistinctGuilds(gs: seq<GuildSource>)
  {
    forall i, j :: 0 <= i < j < |gs| ==> gs[i].id != gs[j].id
  }

  predicate DistinctChannels(cs: seq<ChannelSource>)
  {
    forall i, j :: 0 <= i < j < |cs| ==> cs[i].id != cs[j].id
  }

  /** With distinct ids, the guild table lists every guild once, in gateway
      order, with its own record. */
  lemma {:induction false} GuildTableInOrder(gs: seq<GuildSource>)
    requires DistinctGuilds(gs)
    ensures |GuildTable(gs)| == |gs|
    ensures forall i :: 0 <= i < |gs| ==> GuildTable(gs)[i] == Entry(gs[i].id, Info(gs[i]))
  {
    if gs != [] {
      var n := |gs| - 1;
      var init := gs[..n];
      GuildTableInOrder(init);
      GuildTableShape(init);
      assert gs[n].id !in KeySet(GuildTable(init));
    }
  }

  /** With distinct ids, a guild's channel list is its text channels in
      gateway order, each of type 'text'. */
  lemma {:induction false} ChannelTableInOrder(cs: seq<ChannelSource>)
    requires DistinctChannels(cs)
    ensures |Values(ChannelTable(cs))| == |cs|
    ensures forall i :: 0 <= i < |cs| ==>
      Values(ChannelTable(cs))[i] == ChannelInfo(cs[i].id, cs[i].name, "text")
  {
    if cs != [] {
      var n := |cs| - 1;
      var init := cs[..n];
      ChannelTableInOrder(init);
      ChannelTableShape(init);
      assert cs[n].id !in KeySet(ChannelTable(init));
    }
  }

  /** A guild id that is not among the current guilds has no record. */
  lemma UnknownGuildAbsent(gs: seq<GuildSource>, guildId: string)
    requires forall g :: g in gs ==> g.id != guildId
    ensures Get(GuildTable(gs), guildId) == None
  {
    GuildTableShape(gs);
  }

  /** Appending a message makes it the newest persisted entry, and the
      persisted list never exceeds `MaxMessages`. */
  lemma NewestPersisted(h: seq<Message>, m: Message)
    ensures var saved := LastEntries(h + [m], MaxMessages);
      0 < |saved| <= MaxMessages && saved[|saved| - 1] == m
  {
  }

  class DiscordBot {
    var messageHistory: seq<Message>
    /** The contents of `log/messages.json`. */
    var savedMessages: seq<Message>
    var guildsInfo: seq<Entry<GuildInfo>>

    /** A bot whose history was loaded from the file. */
    constructor (loaded: seq<Message>)
      ensures messageHistory == loaded && savedMessages == loaded && guildsInfo == []
    {
      messageHistory := loaded;
      savedMessages := loaded;
      guildsInfo := [];
    }

    /** `save_messages`: persists the newest `max_messages` entries; the
        in-memory history is left whole. */
    method SaveMessages()
      modifies this`savedMessages
      ensures savedMessages == LastEntries(messageHistory, MaxMessages)
    {
      savedMessages := LastEntries(messageHistory, MaxMessages);
    }

    /** `add_message`: appends at the end, keeps every earlier entry, saves. */
    method AddMessage(m: Message)
      modifies this`messageHistory, this`savedMessages
      ensures messageHistory == old(messageHistory) + [m]
      ensures savedMessages == LastEntries(messageHistory, MaxMessages)
    {
      messageHistory := messageHistory + [m];
      SaveMessages();
    }

    /** `get_message_history(after)`: the whole history without `after`;
        nothing when the cleaned `after` does not parse; otherwise the entries
        strictly later than it, in history order. */
    method GetMessageHistory(afterTimestamp: Option<string>, parse: string -> Option<int>)
      returns (r: seq<Message>)
      ensures afterTimestamp.None? ==> r == messageHistory
      ensures afterTimestamp.Some? && parse(CleanAfter(afterTimestamp.value)).None? ==> r == []
      ensures afterTimestamp.Some? && parse(CleanAfter(afterTimestamp.value)).Some? ==>
        r == NewerThan(messageHistory, parse(CleanAfter(afterTimestamp.value)).value, parse)
    {
      if afterTimestamp.None? {
        return messageHistory;
      }
      var cleaned := Strip(afterTimestamp.value, PyWhitespace);
      if ' ' in cleaned {
        cleaned := Replace(cleaned, ' ', "+");
      }
      var after := parse(cleaned);
      if after.None? {
        return [];
      }
      r := FilterNewer(messageHistory, after.value, parse);
    }

    /** The loop of `get_message_history`: the entries whose timestamp, with
        spaces turned into `+`, parses to an instant strictly later than
        `after`, in history order; the others are skipped. */
    static method FilterNewer(h: seq<Message>, after: int, parse: string -> Option<int>)
      returns (r: seq<Message>)
      ensures r == NewerThan(h, after, parse)
    {
      r := [];
      var i := 0;
      while i < |h|
        invariant 0 <= i <= |h|
        invariant r == NewerThan(h[..i], after, parse)
      {
        var msg := h[i];
        assert h[..i + 1][..i] == h[..i];
        var stamp := parse(Replace(msg.timestamp, ' ', "+"));
        if stamp.Some? && stamp.value > after {
          r := r + [msg];
        }
        i := i + 1;
      }
      assert h[..i] == h;
    }

    /** `update_guilds_info`: clears the table and rebuilds it from the
        current guilds. */
    method UpdateGuildsInfo(guilds: seq<GuildSource>)
      modifies this`guildsInfo
      ensures guildsInfo == GuildTable(guilds)
    {
      guildsInfo := [];
      var i := 0;
      while i < |guilds|
        invariant 0 <= i <= |guilds|
        invariant guildsInfo == GuildTable(guilds[..i])
      {
        var g := guilds[i];
        var channels := ChannelDict(g.textChannels);
        assert guilds[..i + 1][..i] == guilds[..i];
        guildsInfo := Put(guildsInfo, g.id, GuildInfo(g.id, g.name, channels));
        i := i + 1;
      }
      assert guilds[..i] == guilds;
    }

    /** The inner loop of `update_guilds_info`: one guild's channel dict. */
    static method ChannelDict(cs: seq<ChannelSource>) returns (channels: seq<Entry<ChannelInfo>>)
      ensures channels == ChannelTable(cs)
    {
      channels := [];
      var j := 0;
      while j < |cs|
        invariant 0 <= j <= |cs|
        invariant channels == ChannelTable(cs[..j])
      {
        var c := cs[j];
        assert cs[..j + 1][..j] == cs[..j];
        channels := Put(channels, c.id, ChannelInfo(c.id, c.name, "text"));
        j := j + 1;
      }
      assert cs[..j] == cs;
    }

    /** The list comprehension of `get_guilds`: each table entry's id and
        name, in table order. */
    static method Summaries(table: seq<Entry<GuildInfo>>) returns (r: seq<GuildSummary>)
      ensures |r| == |table|
      ensures forall i :: 0 <= i < |r| ==> r[i] == GuildSummary(table[i].key, table[i].value.name)
    {
      r := [];
      var i := 0;
      while i < |table|
        invariant 0 <= i <= |table|
        invariant |r| == i
        invariant forall k :: 0 <= k < i ==> r[k] == GuildSummary(table[k].key, table[k].value.name)
      {
        r := r + [GuildSummary(table[i].key, table[i].value.name)];
        i := i + 1;
      }
    }

    /** `get_guilds`: rebuilds the table, then lists each entry's id and name
        in table order. */
    method GetGuilds(guilds: seq<GuildSource>) returns (r: seq<GuildSummary>)
      modifies this`guildsInfo
      ensures guildsInfo == GuildTable(guilds)
      ensures |r| == |guildsInfo|
      ensures forall i :: 0 <= i < |r| ==> r[i] == GuildSummary(guildsInfo[i].key, guildsInfo[i].value.name)
    {
      UpdateGuildsInfo(guilds);
      r := Summaries(guildsInfo);
    }

    /** `get_channels(guild_id)`: rebuilds the table; an unknown guild gives
        the empty list, a known one its channel records in dict order. */
    method GetChannels(guildId: string, guilds: seq<GuildSource>) returns (r: seq<ChannelInfo>)
      modifies this`guildsInfo
      ensures guildsInfo == GuildTable(guilds)
      ensures Get(guildsInfo, guildId).None? ==> r == []
      ensures Get(guildsInfo, guildId).Some? ==> r == Values(Get(guildsInfo, guildId).value.channels)
    {
      UpdateGuildsInfo(guilds);
      var info := Get(guildsInfo, guildId);
      if info.None? {
        return [];
      }
      r := Values(info.value.channels);
    }
  }
}
