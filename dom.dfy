/** The parts of the dashboard page the client scripts read and write. Three
    scripts write into the same `#messages` container; the two guild selects
    are distinct elements (`#guildSelect` is used by the UI and message
    managers, `#server-selector` by the event handler). Each element may be
    missing from the page, which every script checks for. */
module Dom {
  import opened Messages

  /** A child of the `#messages` container. How a message is formatted is
      not modelled: a rendered message is just the message. */
  datatype Node =
    | MessageNode(msg: Message)
    | ErrorNode(text: string)
    | NoticeNode(text: string)
    | LoadingNode

  /** An `<option>` of a `<select>`. */
  datatype OptionNode = OptionNode(value: string, text: string)

  /** The rendering of a list of messages, one node each, in list order. */
  function Rendered(ms: seq<Message>): (r: seq<Node>)
    ensures |r| == |ms|
    ensures forall i :: 0 <= i < |ms| ==> r[i] == MessageNode(ms[i])
  {
    if ms == [] then [] else [MessageNode(ms[0])] + Rendered(ms[1..])
  }

  /** Rendering one more message appends one more node. */
  lemma RenderedSnoc(ms: seq<Message>, m: Message)
    ensures Rendered(ms + [m]) == Rendered(ms) + [MessageNode(m)]
  {
    var r := Rendered(ms + [m]);
    assert forall i :: 0 <= i < |ms| ==> r[i] == MessageNode(ms[i]);
  }

  /** The options a `forEach` over a guild or channel list appends: value
      the id, text the name, in list order. */
  function Options(items: seq<Named>): (r: seq<OptionNode>)
    ensures |r| == |items|
    ensures forall i :: 0 <= i < |items| ==> r[i] == OptionNode(items[i].id, items[i].name)
  {
    if items == [] then [] else [OptionNode(items[0].id, items[0].name)] + Options(items[1..])
  }

  class Document {
    const hasMessages: bool
    var messages: seq<Node>

    const hasGuildSelect: bool
    var guildOptions: seq<OptionNode>
    var guildValue: string

    const hasServerSelector: bool
    var serverOptions: seq<OptionNode>
    var serverValue: string

    const hasChannelSelector: bool
    var channelOptions: seq<OptionNode>
    var channelValue: string

    const hasStatus: bool
    var statusClass: string
    var statusText: string

    /** A page holding the given elements, all of them empty. */
    constructor (hasMessages: bool, hasGuildSelect: bool, hasServerSelector: bool,
                 hasChannelSelector: bool, hasStatus: bool)
      ensures this.hasMessages == hasMessages && this.hasGuildSelect == hasGuildSelect
      ensures this.hasServerSelector == hasServerSelector
      ensures this.hasChannelSelector == hasChannelSelector && this.hasStatus == hasStatus
      ensures messages == [] && guildOptions == [] && guildValue == ""
      ensures serverOptions == [] && serverValue == ""
      ensures channelOptions == [] && channelValue == ""
      ensures statusClass == "" && statusText == ""
    {
      this.hasMessages := hasMessages;
      this.hasGuildSelect := hasGuildSelect;
      this.hasServerSelector := hasServerSelector;
      this.hasChannelSelector := hasChannelSelector;
      this.hasStatus := hasStatus;
      messages := [];
      guildOptions, guildValue := [], "";
      serverOptions, serverValue := [], "";
      channelOptions, channelValue := [], "";
      statusClass, statusText := "", "";
    }
  }
}
