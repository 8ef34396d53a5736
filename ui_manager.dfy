/** The `UIManager` helpers (web/static/js/uiManager.js): rebuilding the
    `#guildSelect` list while keeping the user's choice when it survives,
    and the loading, error and connection indicators. `UIManager` holds no
    state of its own; its methods act on the page. */
module Ui {
  import opened Messages
  import opened Dom
  import opened Store

  /** Whether some guild of the list has the given id (`guilds.some(...)`). */
  predicate Listed(guilds: seq<Named>, id: string)
  {
    exists i :: 0 <= i < |guilds| && guilds[i].id == id
  }

  /** The value the guild select ends with, given the one it had: kept when
      it is non-empty and still listed, else the first guild's id. An empty
      list leaves the select without options, whose value is empty. */
  function RestoreSelection(previous: string, guilds: seq<Named>): (r: string)
    ensures previous != "" && Listed(guilds, previous) ==> r == previous
    ensures !(previous != "" && Listed(guilds, previous)) && guilds != [] ==> r == guilds[0].id
    ensures guilds != [] <==> Listed(guilds, r)
    ensures guilds == [] ==> r == ""
  {
    if previous != "" && Listed(guilds, previous) then previous
    else if |guilds| > 0 then guilds[0].id
    else ""
  }

  /** Rebuilding the list twice with the same guilds selects the same one:
      the first choice is always kept by the second. */
  lemma RestoreStable(previous: string, guilds: seq<Named>)
    ensures RestoreSelection(RestoreSelection(previous, guilds), guilds) == RestoreSelection(previous, guilds)
  {
    var r := RestoreSelection(previous, guilds);
    if guilds != [] {
      assert Listed(guilds, r);
      if r == "" {
        assert !(previous != "" && Listed(guilds, previous));
        assert guilds[0].id == "";
      }
    }
  }

  /** `updateGuildList(guilds)`. Without `#guildSelect` nothing happens.
      Otherwise the options are cleared and rebuilt in list order, the
      selection is restored by `RestoreSelection`, and the message manager
      redraws for the selected guild. A value that is not a list stops the
      call (the error is caught) once the options are cleared. */
  method UpdateGuildList(guilds: JsValue<Named>, doc: Document, mm: MessageManager)
    modifies doc`guildOptions, doc`guildValue, doc`messages, mm`hasNewMessages
    ensures !doc.hasGuildSelect ==>
      && doc.guildOptions == old(doc.guildOptions) && doc.guildValue == old(doc.guildValue)
      && doc.messages == old(doc.messages) && mm.hasNewMessages == old(mm.hasNewMessages)
    ensures doc.hasGuildSelect && !guilds.Array? ==>
      && doc.guildOptions == [] && doc.guildValue == ""
      && doc.messages == old(doc.messages) && mm.hasNewMessages == old(mm.hasNewMessages)
    ensures doc.hasGuildSelect && guilds.Array? ==>
      var shown := InGuild(mm.allMessages, doc.guildValue);
      && doc.guildOptions == Options(guilds.items)
      && doc.guildValue == RestoreSelection(old(doc.guildValue), guilds.items)
      && (!doc.hasMessages ==> doc.messages == old(doc.messages) && mm.hasNewMessages == old(mm.hasNewMessages))
      && (doc.hasMessages && old(mm.hasNewMessages) ==> !mm.hasNewMessages && doc.messages == Rendered(shown))
      && (doc.hasMessages && !old(mm.hasNewMessages) ==>
            && !mm.hasNewMessages
            && doc.messages == if shown == [] then [NoticeNode(NoMessagesNotice)] else old(doc.messages))
  {
    if !doc.hasGuildSelect {
      return;
    }
    var currentSelection := doc.guildValue;
    doc.guildOptions, doc.guildValue := [], "";
    if !guilds.Array? {
      return;
    }
    var gs := guilds.items;
    var i := 0;
    while i < |gs|
      invariant 0 <= i <= |gs|
      invariant |doc.guildOptions| == i
      invariant forall k :: 0 <= k < i ==> doc.guildOptions[k] == OptionNode(gs[k].id, gs[k].name)
      invariant doc.guildValue == "" && doc.messages == old(doc.messages)
      invariant mm.hasNewMessages == old(mm.hasNewMessages)
    {
      doc.guildOptions := doc.guildOptions + [OptionNode(gs[i].id, gs[i].name)];
      i := i + 1;
    }
    assert doc.guildOptions == Options(gs);
    if currentSelection != "" && Listed(gs, currentSelection) {
      doc.guildValue := currentSelection;
    } else if |gs| > 0 {
      doc.guildValue := gs[0].id;
    }
    mm.DisplayMessages(doc);
  }

  /** `showLoading`: the container, when present, holds only the loading
      indicator. */
  method ShowLoading(doc: Document)
    modifies doc`messages
    ensures doc.hasMessages ==> doc.messages == [LoadingNode]
    ensures !doc.hasMessages ==> doc.messages == old(doc.messages)
  {
    if doc.hasMessages {
      doc.messages := [LoadingNode];
    }
  }

  /** `showError(message)`: the container, when present, holds only the
      error. */
  method ShowError(doc: Document, message: string)
    modifies doc`messages
    ensures doc.hasMessages ==> doc.messages == [ErrorNode(message)]
    ensures !doc.hasMessages ==> doc.messages == old(doc.messages)
  {
    if doc.hasMessages {
      doc.messages := [ErrorNode(message)];
    }
  }

  /** `updateConnectionStatus(isConnected)`: class and text of the status
      element, when present, say connected or not. */
  method UpdateConnectionStatus(doc: Document, isConnected: bool)
    modifies doc`statusClass, doc`statusText
    ensures doc.hasStatus && isConnected ==> doc.statusClass == "connected" && doc.statusText == "已連接"
    ensures doc.hasStatus && !isConnected ==> doc.statusClass == "disconnected" && doc.statusText == "未連接"
    ensures !doc.hasStatus ==> doc.statusClass == old(doc.statusClass) && doc.statusText == old(doc.statusText)
  {
    if doc.hasStatus {
      doc.statusClass := if isConnected then "connected" else "disconnected";
      doc.statusText := if isConnected then "已連接" else "未連接";
    }
  }
}
