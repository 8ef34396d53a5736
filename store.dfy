/** The client's message store (web/static/js/messageManager.js): a list of
    messages that a merge appends to, skipping incoming messages whose
    timestamp is already stored (two messages of one batch sharing a
    timestamp are both kept) and that a refresh with a non-empty batch
    replaces; a flag saying that something new arrived; and the guild filter
    used to display it. */
module Store {
  import opened Messages
  import opened Dom

  /** The placeholder shown when the selected guild has no message. */
  const NoMessagesNotice: string := "此伺服器目前沒有訊息記錄"

  /** The deduplication keys present in a list: its timestamps. */
  function Timestamps(ms: seq<Message>): set<string>
  {
    set m | m in ms :: m.timestamp
  }

  /** The incoming messages whose timestamp is not among `known`, in their
      incoming order. Two incoming messages sharing a timestamp are not
      filtered against each other. */
  function Unseen(incoming: seq<Message>, known: set<string>): (r: seq<Message>)
    ensures |r| <= |incoming|
    ensures forall m :: m in r <==> m in incoming && m.timestamp !in known
  {
    if incoming == [] then []
    else (if incoming[0].timestamp in known then [] else [incoming[0]]) + Unseen(incoming[1..], known)
  }

  /** The list a merge starts from: empty on a refresh, the store otherwise. */
  function Base(existing: seq<Message>, isRefresh: bool): seq<Message>
  {
    if isRefresh then [] else existing
  }

  /** What a merge appends to its base. */
  function Appended(existing: seq<Message>, incoming: seq<Message>, isRefresh: bool): seq<Message>
  {
    Unseen(incoming, Timestamps(Base(existing, isRefresh)))
  }

  /** The store after `updateMessages(incoming, isRefresh)` with an array: an
      empty batch changes nothing, even on a refresh. */
  function Merged(existing: seq<Message>, incoming: seq<Message>, isRefresh: bool): (r: seq<Message>)
    ensures |r| <= |existing| + |incoming|
    ensures forall m :: m in r ==> m in existing || m in incoming
  {
    if incoming == [] then existing
    else Base(existing, isRefresh) + Appended(existing, incoming, isRefresh)
  }

  /** The messages of one guild, in store order (`msg.guild_id === guild`). */
  function InGuild(ms: seq<Message>, guild: string): (r: seq<Message>)
    ensures |r| <= |ms|
    ensures forall m :: m in r <==> m in ms && m.guildId == Some(guild)
  {
    if ms == [] then []
    else (if ms[0].guildId == Some(guild) then [ms[0]] else []) + InGuild(ms[1..], guild)
  }

  /** The guild filter distributes over concatenation: it keeps store order
      and every copy of a message. */
  lemma {:induction false} InGuildAppend(a: seq<Message>, b: seq<Message>, guild: string)
    ensures InGuild(a + b, guild) == InGuild(a, guild) + InGuild(b, guild)
  {
    if a == [] {
      assert a + b == b;
    } else {
      assert (a + b)[0] == a[0];
      assert (a + b)[1..] == a[1..] + b;
      InGuildAppend(a[1..], b, guild);
    }
  }

  /** No two entries share a timestamp. */
  predicate KeysUnique(ms: seq<Message>)
  {
    forall i, j :: 0 <= i < j < |ms| ==> ms[i].timestamp != ms[j].timestamp
  }

  /** Filtering distributes over concatenation, so the filter keeps the
      incoming order. */
  lemma {:induction false} UnseenAppend(a: seq<Message>, b: seq<Message>, known: set<string>)
    ensures Unseen(a + b, known) == Unseen(a, known) + Unseen(b, known)
  {
    if a != [] {
      assert (a + b)[1..] == a[1..] + b;
      UnseenAppend(a[1..], b, known);
    } else {
      assert a + b == b;
    }
  }

  /** With nothing known, the filter keeps the whole batch. */
  lemma {:induction false} UnseenNothingKnown(incoming: seq<Message>)
    ensures Unseen(incoming, {}) == incoming
  {
    if incoming != [] {
      UnseenNothingKnown(incoming[1..]);
    }
  }

  /** When every incoming key is known, nothing passes the filter. */
  lemma {:induction false} UnseenAllKnown(incoming: seq<Message>, known: set<string>)
    requires forall m :: m in incoming ==> m.timestamp in known
    ensures Unseen(incoming, known) == []
  {
    if incoming != [] {
      UnseenAllKnown(incoming[1..], known);
    }
  }

  /** A refresh with a non-empty batch replaces the store by exactly that
      batch, in its given order. */
  lemma RefreshReplaces(existing: seq<Message>, incoming: seq<Message>)
    requires incoming != []
    ensures Merged(existing, incoming, true) == incoming
  {
    assert Base(existing, true) == [];
    assert Timestamps([]) == {};
    UnseenNothingKnown(incoming);
    assert Appended(existing, incoming, true) == incoming;
  }

  /** Without a refresh the old store is a prefix of the new one, the rest
      is the incoming messages with an unseen timestamp in incoming order, and
      no message whose timestamp was already stored is added. */
  lemma AppendOnly(existing: seq<Message>, incoming: seq<Message>)
    ensures var r := Merged(existing, incoming, false);
      && |existing| <= |r| && r[..|existing|] == existing
      && r[|existing|..] == Unseen(incoming, Timestamps(existing))
      && forall m :: m in r[|existing|..] ==> m in incoming && m.timestamp !in Timestamps(existing)
  {
    if incoming == [] {
      assert Unseen(incoming, Timestamps(existing)) == [];
    }
  }

  /** Repeating a merge with the same batch, without refresh, adds nothing. */
  lemma MergeIdempotent(existing: seq<Message>, incoming: seq<Message>, isRefresh: bool)
    ensures var once := Merged(existing, incoming, isRefresh);
      Merged(once, incoming, false) == once
  {
    var once := Merged(existing, incoming, isRefresh);
    if incoming != [] {
      var base := Base(existing, isRefresh);
      forall m | m in incoming ensures m.timestamp in Timestamps(once) {
        if m.timestamp !in Timestamps(base) {
          assert m in Appended(existing, incoming, isRefresh);
        }
      }
      UnseenAllKnown(incoming, Timestamps(once));
      assert Merged(once, incoming, false) == once + [];
    }
  }

  /** Filtering a batch whose keys are unique yields unique keys that are
      all unknown. */
  lemma {:induction false} UnseenKeysUnique(incoming: seq<Message>, known: set<string>)
    requires KeysUnique(incoming)
    ensures KeysUnique(Unseen(incoming, known))
  {
    if incoming != [] {
      var rest := Unseen(incoming[1..], known);
      assert KeysUnique(incoming[1..]) by {
        forall i, j | 0 <= i < j < |incoming| - 1
          ensures incoming[1..][i].timestamp != incoming[1..][j].timestamp
        {
          assert incoming[1..][i] == incoming[i + 1] && incoming[1..][j] == incoming[j + 1];
        }
      }
      UnseenKeysUnique(incoming[1..], known);
      forall m | m in rest ensures m.timestamp != incoming[0].timestamp {
        var k :| 0 <= k < |incoming[1..]| && incoming[1..][k] == m;
        assert incoming[k + 1] == m;
      }
    }
  }

  /** The store keeps unique keys when it had them and the batch has them. */
  lemma MergeKeepsKeysUnique(existing: seq<Message>, incoming: seq<Message>, isRefresh: bool)
    requires KeysUnique(existing) && KeysUnique(incoming)
    ensures KeysUnique(Merged(existing, incoming, isRefresh))
  {
    if incoming != [] {
      var base := Base(existing, isRefresh);
      var added := Appended(existing, incoming, isRefresh);
      UnseenKeysUnique(incoming, Timestamps(base));
      var r := base + added;
      forall i, j | 0 <= i < j < |r| ensures r[i].timestamp != r[j].timestamp {
        if j >= |base| && i < |base| {
          assert r[j] in added && r[i] in base;
        } else if i >= |base| {
          assert r[i] == added[i - |base|] && r[j] == added[j - |base|];
        }
      }
    }
  }

  /** Two messages of one batch that share a timestamp are both kept. */
  lemma BatchDuplicatesKept(a: Message, b: Message)
    requires a.timestamp == b.timestamp
    ensures Merged([], [a, b], false) == [a, b]
  {
    assert Timestamps([]) == {};
    UnseenNothingKnown([a, b]);
  }

  /** The singleton `MessageManager` object. */
  class MessageManager {
    var allMessages: seq<Message>
    var hasNewMessages: bool

    constructor ()
      ensures allMessages == [] && !hasNewMessages
    {
      allMessages := [];
      hasNewMessages := false;
    }

    /** Whether `displayMessages` gets past its element lookups. */
    predicate CanDisplay(doc: Document)
    {
      doc.hasMessages && doc.hasGuildSelect
    }

    /** `getLastMessage`: the last stored message, `None` (null) when empty. */
    method GetLastMessage() returns (last: Option<Message>)
      ensures last.None? <==> allMessages == []
      ensures last.Some? ==> allMessages == allMessages[..|allMessages| - 1] + [last.value]
    {
      if |allMessages| > 0 {
        last := Some(allMessages[|allMessages| - 1]);
      } else {
        last := None;
      }
    }

    /** `displayMessages`: when new messages are pending, renders the
        selected guild's messages and clears the flag; otherwise shows the
        placeholder if that guild has no message, and leaves the container
        alone if it has some. A missing container or guild select changes
        nothing. */
    method DisplayMessages(doc: Document)
      modifies this`hasNewMessages, doc`messages
      ensures !CanDisplay(doc) ==>
        hasNewMessages == old(hasNewMessages) && doc.messages == old(doc.messages)
      ensures CanDisplay(doc) && old(hasNewMessages) ==>
        !hasNewMessages && doc.messages == Rendered(InGuild(allMessages, doc.guildValue))
      ensures CanDisplay(doc) && !old(hasNewMessages) ==>
        && hasNewMessages == old(hasNewMessages)
        && doc.messages == if InGuild(allMessages, doc.guildValue) == []
                           then [NoticeNode(NoMessagesNotice)] else old(doc.messages)
    {
      if !doc.hasMessages || !doc.hasGuildSelect {
        return;
      }
      var filtered := InGuild(allMessages, doc.guildValue);
      if hasNewMessages {
        doc.messages := Rendered(filtered);
        hasNewMessages := false;
      } else if |filtered| == 0 {
        doc.messages := [NoticeNode(NoMessagesNotice)];
      }
    }

    /** `updateMessages(newMessages, isRefresh)`. A value that is not an
        array, or an empty array, changes nothing. Otherwise the store becomes
        `Merged(...)`; the flag is raised when something was appended, and
        the display that follows consumes it whenever it runs. */
    method UpdateMessages(newMessages: JsValue<Message>, isRefresh: bool, doc: Document)
      modifies this, doc`messages
      ensures !newMessages.Array? || newMessages.items == [] ==>
        && allMessages == old(allMessages) && hasNewMessages == old(hasNewMessages)
        && doc.messages == old(doc.messages)
      ensures newMessages.Array? && newMessages.items != [] ==>
        var raised := old(hasNewMessages) || Appended(old(allMessages), newMessages.items, isRefresh) != [];
        var shown := InGuild(allMessages, doc.guildValue);
        && allMessages == Merged(old(allMessages), newMessages.items, isRefresh)
        && hasNewMessages == (raised && !CanDisplay(doc))
        && (CanDisplay(doc) && raised ==> doc.messages == Rendered(shown))
        && (CanDisplay(doc) && !raised && shown == [] ==> doc.messages == [NoticeNode(NoMessagesNotice)])
        && (!CanDisplay(doc) || (!raised && shown != []) ==> doc.messages == old(doc.messages))
    {
      if !newMessages.Array? {
        return;
      }
      var incoming := newMessages.items;
      if |incoming| > 0 {
        if isRefresh {
          allMessages := [];
        }
        var unique := Unseen(incoming, Timestamps(allMessages));
        if |unique| > 0 {
          allMessages := allMessages + unique;
          hasNewMessages := true;
        }
        DisplayMessages(doc);
      }
    }
  }
}
