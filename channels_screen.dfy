/**
 * One row of the channels tab: the connection switch, the status texts, the
 * dispatch-call status, the selection highlight, and the props the row hands
 * to its context menu. The props are JavaScript values built with `&&` and
 * `?.`, so they may be undefined, and the menu's defaults then apply.
 */
module ChannelsScreen {
  import opened Sdk
  import opened Strings
  import opened ContextMenuButton
  import MinimalScanList

  /** The console settings the SDK reports; the context holds undefined until they arrive. */
  datatype ConsoleSettings = ConsoleSettings(
    allowImageMessages: bool,
    allowAlertMessages: bool,
    allowTextMessages: bool,
    allowLocationMessages: bool,
    allowNonDispatchersToEndCalls: bool)

  datatype ConsoleFlag = ImageMessages | AlertMessages | TextMessages | LocationMessages | NonDispatchersEndCalls

  /** `consoleSettings?.<flag>`: undefined when the settings are undefined. */
  function ConsoleValue(console: Option<ConsoleSettings>, flag: ConsoleFlag): (r: Option<bool>)
    ensures r.None? <==> console.None?
  {
    match console
    case None => None
    case Some(c) =>
      Some(match flag
           case ImageMessages => c.allowImageMessages
           case AlertMessages => c.allowAlertMessages
           case TextMessages => c.allowTextMessages
           case LocationMessages => c.allowLocationMessages
           case NonDispatchersEndCalls => c.allowNonDispatchersToEndCalls)
  }

  /** JavaScript's `a && b`: a falsy left operand (false or undefined) is the value itself. */
  function JsAnd(a: Option<bool>, b: Option<bool>): (r: Option<bool>)
    ensures Truthy(r) <==> Truthy(a) && Truthy(b)
    ensures !Truthy(a) ==> r == a
    ensures Truthy(a) ==> r == b
  {
    if Truthy(a) then b else a
  }

  predicate IsConnected(ch: Channel) {
    ch.connectionStatus == Connected
  }

  /** onSwitchChange: one call, disconnecting a connected channel and connecting any other. */
  function SwitchActions(ch: Channel): (r: seq<Action>)
    ensures |r| == 1
    ensures r == [DisconnectChannel(ch)] <==> IsConnected(ch)
    ensures r == [ConnectChannel(ch)] <==> !IsConnected(ch)
  {
    if IsConnected(ch) then [DisconnectChannel(ch)] else [ConnectChannel(ch)]
  }

  /**
   * The switch and the scan list's press agree on a channel that may be
   * disconnected and is not connecting; on a connecting channel the switch
   * connects while the press does nothing.
   */
  lemma SwitchAgreesWithScanListPress(ch: Channel)
    requires !ch.options.noDisconnect
    ensures ch.connectionStatus != Connecting ==> SwitchActions(ch) == MinimalScanList.PressActions(ch)
    ensures ch.connectionStatus == Connecting ==>
              SwitchActions(ch) == [ConnectChannel(ch)] && MinimalScanList.PressActions(ch) == []
  {
  }

  /**
   * canEndCall as the JavaScript value it returns: false on a plain channel;
   * on a dispatch channel undefined while the console settings are, else a
   * boolean.
   */
  function CanEndCall(ch: Channel, console: Option<ConsoleSettings>): (r: Option<bool>)
    ensures !ch.kind.DispatchChannel? ==> r == Some(false)
    ensures ch.kind.DispatchChannel? && console.None? ==> r.None?
    ensures Truthy(r) <==>
              ch.kind.DispatchChannel? && console.Some? && console.value.allowNonDispatchersToEndCalls &&
              ch.kind.currentCall.Some? && ch.kind.currentCall.value.status == Active
  {
    if !ch.kind.DispatchChannel? then Some(false)
    else
      var callActive := ch.kind.currentCall.Some? && ch.kind.currentCall.value.status == Active;
      JsAnd(ConsoleValue(console, NonDispatchersEndCalls), Some(callActive))
  }

  /** What getDispatchCallStatus returns, before it is interpolated into text. */
  datatype CallStatus =
    | NotDispatch                                               // null
    | NoCall                                                    // undefined
    | Raw(status: DispatchCallStatus)                           // the status itself
    | WithDispatcher(status: DispatchCallStatus, dispatcher: string)  // "<status> with <dispatcher>"

  function DispatchCallStatusOf(ch: Channel): (r: CallStatus)
    ensures r.NotDispatch? <==> !ch.kind.DispatchChannel?
    ensures r.NoCall? <==> ch.kind.DispatchChannel? && ch.kind.currentCall.None?
    ensures r.WithDispatcher? <==>
              ch.kind.DispatchChannel? && ch.kind.currentCall.Some? && ch.kind.currentCall.value.status == Active
    ensures r.WithDispatcher? ==> r.status == Active && r.dispatcher == ch.kind.currentCall.value.dispatcher
    ensures r.Raw? ==> r.status != Active && r.status == ch.kind.currentCall.value.status
  {
    match ch.kind
    case PlainChannel => NotDispatch
    case DispatchChannel(call) =>
      match call
      case None => NoCall
      case Some(c) => if c.status == Active then WithDispatcher(c.status, c.dispatcher) else Raw(c.status)
  }

  /**
   * The "Call Status: ..." line, shown only while a dispatch channel has a
   * current call; `statusName` is the SDK's string for each status, and an
   * active call names its dispatcher.
   */
  function CallStatusLine(ch: Channel, statusName: DispatchCallStatus -> string): (r: Option<string>)
    ensures r.Some? <==> ch.kind.DispatchChannel? && ch.kind.currentCall.Some?
    ensures r.Some? ==>
              var call := ch.kind.currentCall.value;
              r.value == "Call Status: " + statusName(call.status) + (if call.status == Active then " with " + call.dispatcher else "")
  {
    match DispatchCallStatusOf(ch)
    case WithDispatcher(s, d) => Some("Call Status: " + statusName(s) + " with " + d)
    case Raw(s) => Some("Call Status: " + statusName(s))
    case _ => None
  }

  /** The line mentions the call's status, and the dispatcher of an active call. */
  lemma CallStatusLineMentions(ch: Channel, statusName: DispatchCallStatus -> string)
    requires ch.kind.DispatchChannel? && ch.kind.currentCall.Some?
    ensures Includes(CallStatusLine(ch, statusName).value, "Call Status: " + statusName(ch.kind.currentCall.value.status))
    ensures ch.kind.currentCall.value.status == Active ==>
              Includes(CallStatusLine(ch, statusName).value, " with " + ch.kind.currentCall.value.dispatcher)
  {
    var call := ch.kind.currentCall.value;
    var head := "Call Status: " + statusName(call.status);
    var line := CallStatusLine(ch, statusName).value;
    var tail := if call.status == Active then " with " + call.dispatcher else "";
    assert line == head + tail;
    assert line[..|head|] == head;
    OccursGivesIncludes(line, head, 0);
    if call.status == Active {
      assert line[|head|..] == tail;
      OccursGivesIncludes(line, tail, |head|);
    }
  }

  const UsersOnlinePrefix := "Users Online: "

  /** The status text under a channel's name. */
  function StatusLine(ch: Channel): (r: string)
    ensures r == "Connecting" <==> ch.connectionStatus == Connecting
    ensures r == "Disconnected" <==> ch.connectionStatus == Disconnected
    ensures IsConnected(ch) <==> |r| > |UsersOnlinePrefix| && r[..|UsersOnlinePrefix|] == UsersOnlinePrefix
    ensures IsConnected(ch) ==> r[|UsersOnlinePrefix|..] == NatToString(ch.usersOnline)
  {
    if IsConnected(ch) then
      var r := UsersOnlinePrefix + NatToString(ch.usersOnline);
      assert r[..|UsersOnlinePrefix|] == UsersOnlinePrefix;
      assert r[|UsersOnlinePrefix|..] == NatToString(ch.usersOnline);
      r
    else if ch.connectionStatus == Connecting then "Connecting"
    else "Disconnected"
  }

  /** Two connected channels show the same status line exactly when as many users are online. */
  lemma StatusLineShowsUserCount(a: Channel, b: Channel)
    requires IsConnected(a) && IsConnected(b)
    ensures StatusLine(a) == StatusLine(b) <==> a.usersOnline == b.usersOnline
  {
    if StatusLine(a) == StatusLine(b) {
      NatToStringInjective(a.usersOnline, b.usersOnline);
    }
  }

  /** `sdk.emergencyChannel && isSameContact(sdk.emergencyChannel, channel)`, and the same for the outgoing emergency. */
  function SameAsChannel(candidate: Option<Channel>, ch: Channel): (r: Option<bool>)
    ensures Truthy(r) <==> candidate.Some? && SameContact(ChannelContact(candidate.value), ChannelContact(ch))
    ensures r.None? <==> candidate.None?
  {
    match candidate
    case None => None
    case Some(c) => Some(SameContact(ChannelContact(c), ChannelContact(ch)))
  }

  /** The props a channel row passes to its context menu; the group options are not passed. */
  function MenuPropsFor(ch: Channel, console: Option<ConsoleSettings>,
                        emergencyChannel: Option<Channel>, outgoingEmergencyChannel: Option<Channel>): (r: MenuProps)
    ensures r.contact == ChannelContact(ch)
    ensures r.showAddUsersToGroupConversationOption.None?
    ensures r.showLeaveGroupConversationOption.None?
    ensures r.showRenameGroupConversationOption.None?
  {
    var connected := Some(IsConnected(ch));
    MenuProps(
      contact := ChannelContact(ch),
      showSendImageOption := JsAnd(connected, ConsoleValue(console, ImageMessages)),
      showSendLocationOption :=
        JsAnd(JsAnd(connected, ConsoleValue(console, LocationMessages)), Some(ch.options.allowLocationMessages)),
      showSendTextOption :=
        JsAnd(JsAnd(connected, ConsoleValue(console, TextMessages)), Some(ch.options.allowTextMessages)),
      showSendAlertOption :=
        JsAnd(JsAnd(connected, ConsoleValue(console, AlertMessages)), Some(ch.options.allowAlertMessages)),
      showEmergencyOption := SameAsChannel(emergencyChannel, ch),
      showEndCallOption := CanEndCall(ch, console),
      showAddUsersToGroupConversationOption := None,
      showLeaveGroupConversationOption := None,
      showRenameGroupConversationOption := None,
      isInOutgoingEmergency := SameAsChannel(outgoingEmergencyChannel, ch))
  }

  /**
   * Send Image needs a connected channel and, once the console settings are
   * known, their image flag; while they are undefined the `&&` yields
   * undefined and the menu's default (shown) applies.
   */
  lemma SendImageShownIff(ch: Channel, console: Option<ConsoleSettings>, em: Option<Channel>, out: Option<Channel>)
    ensures SendImage in Menu(MenuPropsFor(ch, console, em, out)) <==>
              IsConnected(ch) && (console.None? || console.value.allowImageMessages)
  {
    MenuOffersIffShown(MenuPropsFor(ch, console, em, out), SendImage);
  }

  /**
   * Send Alert, Send Text and Send Location each need a connected channel
   * and, once the console settings are known, both the console's flag and
   * the channel's own option; while the settings are undefined they are shown.
   */
  lemma SendMessageOptionsShownIff(ch: Channel, console: Option<ConsoleSettings>, em: Option<Channel>, out: Option<Channel>)
    ensures SendAlertSelected in Menu(MenuPropsFor(ch, console, em, out)) <==>
              IsConnected(ch) && (console.None? || (console.value.allowAlertMessages && ch.options.allowAlertMessages))
    ensures SendText in Menu(MenuPropsFor(ch, console, em, out)) <==>
              IsConnected(ch) && (console.None? || (console.value.allowTextMessages && ch.options.allowTextMessages))
    ensures SendLocation in Menu(MenuPropsFor(ch, console, em, out)) <==>
              IsConnected(ch) && (console.None? || (console.value.allowLocationMessages && ch.options.allowLocationMessages))
  {
    var p := MenuPropsFor(ch, console, em, out);
    MenuOffersIffShown(p, SendAlertSelected);
    MenuOffersIffShown(p, SendText);
    MenuOffersIffShown(p, SendLocation);
  }

  /** A disconnected or connecting channel offers none of the four send options. */
  lemma NotConnectedOffersNoSending(ch: Channel, console: Option<ConsoleSettings>, em: Option<Channel>, out: Option<Channel>)
    requires !IsConnected(ch)
    ensures forall s :: s in Menu(MenuPropsFor(ch, console, em, out)) ==>
              s != SendImage && s != SendLocation && s != SendText && s != SendAlertSelected
  {
    SendImageShownIff(ch, console, em, out);
    SendMessageOptionsShownIff(ch, console, em, out);
  }

  /**
   * The emergency option appears on the SDK's emergency channel only, and
   * offers Stop there exactly when the outgoing emergency is on this channel.
   */
  lemma EmergencyOptionOnEmergencyChannel(ch: Channel, console: Option<ConsoleSettings>, em: Option<Channel>, out: Option<Channel>)
    ensures var menu := Menu(MenuPropsFor(ch, console, em, out));
            (StartEmergency in menu || StopEmergency in menu) <==>
              em.Some? && SameContact(ChannelContact(em.value), ChannelContact(ch))
    ensures StopEmergency in Menu(MenuPropsFor(ch, console, em, out)) <==>
              em.Some? && SameContact(ChannelContact(em.value), ChannelContact(ch)) &&
              out.Some? && SameContact(ChannelContact(out.value), ChannelContact(ch))
  {
    var p := MenuPropsFor(ch, console, em, out);
    MenuOffersIffShown(p, StartEmergency);
    MenuOffersIffShown(p, StopEmergency);
  }

  /** End Call appears exactly when canEndCall is truthy. */
  lemma EndCallShownIff(ch: Channel, console: Option<ConsoleSettings>, em: Option<Channel>, out: Option<Channel>)
    ensures EndCall in Menu(MenuPropsFor(ch, console, em, out)) <==> Truthy(CanEndCall(ch, console))
  {
    MenuOffersIffShown(MenuPropsFor(ch, console, em, out), EndCall);
  }

  /** The group-conversation options never appear on a channel row. */
  lemma NoGroupOptionsOnChannelRow(ch: Channel, console: Option<ConsoleSettings>, em: Option<Channel>, out: Option<Channel>)
    ensures AddUsersToGroup !in Menu(MenuPropsFor(ch, console, em, out))
    ensures LeaveGroup !in Menu(MenuPropsFor(ch, console, em, out))
    ensures RenameGroup !in Menu(MenuPropsFor(ch, console, em, out))
  {
    NoGroupFlagsNoGroupOptions(MenuPropsFor(ch, console, em, out));
  }

  /** endCall: ends the dispatch call of a dispatch channel, does nothing on a plain one. */
  function EndCallActions(ch: Channel): (r: seq<Action>)
    ensures r == [EndDispatchCall(ch)] <==> ch.kind.DispatchChannel?
    ensures r == [] <==> !ch.kind.DispatchChannel?
  {
    if ch.kind.DispatchChannel? then [EndDispatchCall(ch)] else []
  }

  /** `selectedContact !== undefined && isSameContact(selectedContact, item)`. */
  predicate IsSelectedRow(selected: Option<Contact>, ch: Channel) {
    selected.Some? && SameContact(selected.value, ChannelContact(ch))
  }

  /** Pressing a row: setSelectedContact(channel). */
  function PressRowActions(ch: Channel): (r: seq<Action>)
    ensures |r| == 1 && r[0].SelectContact? && IsSelectedRow(r[0].target, ch)
  {
    [SelectContact(Some(ChannelContact(ch)))]
  }

  /** In a list whose channel names are distinct, at most one row is highlighted. */
  lemma AtMostOneSelectedRow(channels: seq<Channel>, selected: Option<Contact>, i: nat, j: nat)
    requires forall a, b :: 0 <= a < b < |channels| ==> channels[a].name != channels[b].name
    requires i < |channels| && j < |channels|
    requires IsSelectedRow(selected, channels[i]) && IsSelectedRow(selected, channels[j])
    ensures i == j
  {
    assert channels[i].name == selected.value.Name() == channels[j].name;
  }

  /** What a channel row shows. */
  datatype RowView = RowView(
    name: string,
    bold: bool,
    statusLine: string,
    callStatusLine: Option<string>,
    switchOn: bool,
    talkDisabled: bool,
    menu: seq<MenuSelection>)

  function Row(ch: Channel, selected: Option<Contact>, console: Option<ConsoleSettings>,
               em: Option<Channel>, out: Option<Channel>, statusName: DispatchCallStatus -> string): (r: RowView)
    ensures r.name == ch.name
    ensures r.bold <==> IsSelectedRow(selected, ch)
    ensures r.switchOn <==> IsConnected(ch)
    ensures r.talkDisabled <==> !IsConnected(ch)
    ensures |r.menu| >= 2 && r.menu[|r.menu| - 1] == ShowHistory
  {
    RowView(ch.name, IsSelectedRow(selected, ch), StatusLine(ch), CallStatusLine(ch, statusName),
            IsConnected(ch), !IsConnected(ch), Menu(MenuPropsFor(ch, console, em, out)))
  }

  /** Flipping the switch of a row asks for the opposite of what the switch shows. */
  lemma SwitchAsksForOpposite(ch: Channel, selected: Option<Contact>, console: Option<ConsoleSettings>,
                              em: Option<Channel>, out: Option<Channel>, statusName: DispatchCallStatus -> string)
    ensures Row(ch, selected, console, em, out, statusName).switchOn <==> SwitchActions(ch)[0].DisconnectChannel?
  {
  }
}
