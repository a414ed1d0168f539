/**
 * The main push-to-talk screen: it shows the selected contact with the
 * current and last talker, dispatches hardware keys (hold 295 for an alert
 * countdown, a digit for the contact list, 294 for the scan list), redirects
 * to login when there is no connection and nothing selected, and falls back
 * to a channel when no contact is selected.
 */
module MinimalChannelScreen {
  import opened Sdk
  import ConnectionContext

  const KeyDigit0 := 7
  const KeyScanList := 294
  const KeyAlert := 295
  /** The alert countdown starts here and sends when a tick brings it to 0. */
  const CountdownStart := 3
  const ActionColor := "#ef5e14"

  // ---------------------------------------------------------------- details

  datatype ChannelDetails = ChannelDetails(
    channel: string,
    action: string,
    actionColor: string,
    current: string,
    last: string,
    alert: string,
    contactType: Option<ContactType>)

  /** An incoming voice message, with its talker's display name when the SDK gives one. */
  datatype IncomingVoiceMessage = IncomingVoiceMessage(talkerDisplayName: Option<string>)

  /** `selectedContact?.displayName || selectedContact?.name || ""`. */
  function ChannelLabel(selected: Option<Contact>): (r: string)
    ensures selected.None? ==> r == ""
    ensures selected.Some? && selected.value.DisplayName().Some? && selected.value.DisplayName().value != "" ==>
              r == selected.value.DisplayName().value
    ensures selected.Some? && (selected.value.DisplayName().None? || selected.value.DisplayName().value == "") ==>
              r == selected.value.Name()
  {
    match selected
    case None => ""
    case Some(c) =>
      match c.DisplayName()
      case Some(d) => if d != "" then d else c.Name()
      case None => c.Name()
  }

  function ContactTypeOf(selected: Option<Contact>): Option<ContactType> {
    match selected
    case None => None
    case Some(c) => Some(c.Type())
  }

  /** The details the screen starts with. */
  function InitialDetails(selected: Option<Contact>): (r: ChannelDetails)
    ensures r.channel == ChannelLabel(selected) && r.current == "" && r.last == "" && r.alert == ""
    ensures r.action == "mic-outline" && r.actionColor == ActionColor
  {
    ChannelDetails(ChannelLabel(selected), "mic-outline", ActionColor, "", "", "", ContactTypeOf(selected))
  }

  /**
   * updateChannelDetails: relabel for the selected contact, show the
   * talker of an incoming voice message as current and move the previous
   * current to last, and let a pending incoming alert override the alert text.
   */
  function UpdateDetails(prev: ChannelDetails, selected: Option<Contact>, incoming: Option<IncomingVoiceMessage>,
                         outgoingVoice: bool, pendingAlert: bool): (r: ChannelDetails)
    ensures r.channel == ChannelLabel(selected) && r.contactType == ContactTypeOf(selected)
    ensures pendingAlert ==> r.alert == "Emergency"
    ensures !pendingAlert ==>
              (r.alert == "Disconnected" <==> selected.Some? && selected.value.ConnectionStatus() == Some(Disconnected))
    ensures !pendingAlert && r.alert != "Disconnected" ==> r.alert == ""
    ensures r.action == (if outgoingVoice then "mic" else "mic-outline")
    ensures r.actionColor == ActionColor
    ensures incoming.Some? ==> r.last == prev.current
    ensures incoming.Some? && incoming.value.talkerDisplayName.Some? ==> r.current == incoming.value.talkerDisplayName.value
    ensures incoming.Some? && incoming.value.talkerDisplayName.None? ==> r.current == ""
    ensures incoming.None? ==> r.current == "" && r.last == prev.last
  {
    var disconnected := selected.Some? && selected.value.ConnectionStatus() == Some(Disconnected);
    var updated := prev.(
      channel := ChannelLabel(selected),
      alert := if disconnected then "Disconnected" else "",
      action := if outgoingVoice then "mic" else "mic-outline",
      actionColor := if outgoingVoice then ActionColor else ActionColor,
      current := (match incoming
                  case Some(m) => (match m.talkerDisplayName case Some(n) => n case None => "")
                  case None => ""),
      last := if incoming.Some? then prev.current else prev.last,
      contactType := ContactTypeOf(selected));
    if pendingAlert then updated.(alert := "Emergency") else updated
  }

  /** Two talkers in a row: the second is current and the first is last. */
  lemma TalkerHistory(prev: ChannelDetails, selected: Option<Contact>, a: string, b: string, outgoingVoice: bool, pendingAlert: bool)
    ensures var d1 := UpdateDetails(prev, selected, Some(IncomingVoiceMessage(Some(a))), outgoingVoice, pendingAlert);
            var d2 := UpdateDetails(d1, selected, Some(IncomingVoiceMessage(Some(b))), outgoingVoice, pendingAlert);
            d2.current == b && d2.last == a
  {
  }

  /** Without an incoming voice message, refreshing the details twice is refreshing them once. */
  lemma QuietUpdateIdempotent(prev: ChannelDetails, selected: Option<Contact>, outgoingVoice: bool, pendingAlert: bool)
    ensures var d1 := UpdateDetails(prev, selected, None, outgoingVoice, pendingAlert);
            UpdateDetails(d1, selected, None, outgoingVoice, pendingAlert) == d1
  {
  }

  // ---------------------------------------------------------------- fallback and redirect

  /**
   * selectFallbackChannel: with no contact selected and some channel known,
   * select `channels[1]`, which is undefined when there is only one channel.
   */
  function FallbackActions(selected: Option<Contact>, channels: seq<Channel>): (r: seq<Action>)
    ensures r != [] <==> selected.None? && |channels| > 0
    ensures r != [] ==> r == [SelectContact(if |channels| > 1 then Some(ChannelContact(channels[1])) else None)]
  {
    if selected.None? && |channels| > 0 then
      [SelectContact(if |channels| > 1 then Some(ChannelContact(channels[1])) else None)]
    else []
  }

  /** With a single channel the guard passes, yet nothing gets selected. */
  lemma SingleChannelFallbackSelectsNothing(channel: Channel)
    ensures FallbackActions(None, [channel]) == [SelectContact(None)]
  {
  }

  /** The login redirect guard. */
  predicate ShouldRedirectToLogin(flags: ConnectionContext.Flags, selected: Option<Contact>) {
    !flags.isConnected && !flags.isConnecting && selected.None?
  }

  /** The effect on the connection state: maybe go to login, then the fallback selection. */
  function ConnectionEffect(flags: ConnectionContext.Flags, selected: Option<Contact>, channels: seq<Channel>): (r: seq<Action>)
    ensures (Navigate("login") in r) <==> !flags.isConnected && !flags.isConnecting && selected.None?
    ensures ShouldRedirectToLogin(flags, selected) ==> r[0] == Navigate("login")
    ensures |r| >= |FallbackActions(selected, channels)| && r[|r| - |FallbackActions(selected, channels)|..] == FallbackActions(selected, channels)
  {
    (if ShouldRedirectToLogin(flags, selected) then [Navigate("login")] else []) + FallbackActions(selected, channels)
  }

  /** After any connection event other than a failure or a disconnect, the screen never goes to login. */
  lemma {:induction false} NoRedirectOnceConnecting(events: seq<ConnectionContext.ConnectionEvent>, selected: Option<Contact>)
    requires events != []
    requires events[|events| - 1] in {ConnectionContext.ConnectStarted, ConnectionContext.ConnectSucceeded}
    ensures !ShouldRedirectToLogin(ConnectionContext.Replay(ConnectionContext.InitialFlags, events), selected)
  {
    ConnectionContext.ReplayDependsOnLast(ConnectionContext.InitialFlags, events);
  }

  // ---------------------------------------------------------------- keys

  datatype KeyCommand = CancelAlert | StartAlert | OpenContacts | OpenScanList | Ignore

  /** handleKeyEvent's dispatch on the latched key. */
  function KeyCommandFor(key: Option<int>): (r: KeyCommand)
    ensures r == CancelAlert <==> key.None?
    ensures r == StartAlert <==> key == Some(KeyAlert)
    ensures r == OpenContacts <==> key.Some? && KeyDigit0 <= key.value <= KeyDigit0 + 9
    ensures r == OpenScanList <==> key == Some(KeyScanList)
  {
    match key
    case None => CancelAlert
    case Some(k) =>
      if k == KeyAlert then StartAlert
      else if KeyDigit0 <= k <= KeyDigit0 + 9 then OpenContacts
      else if k == KeyScanList then OpenScanList
      else Ignore
  }

  // ---------------------------------------------------------------- alert countdown

  datatype AlertDialog = AlertDialog(count: int, show: bool)

  /**
   * One live interval of handleSendAlert: its remaining count, and what its
   * closure captured when it was started: the `alertInterval` value and the
   * first entry of the channel list of that render, which the alert goes to.
   */
  datatype Countdown = Countdown(count: int, captured: Option<nat>, target: Option<Channel>)

  function FirstChannel(channels: seq<Channel>): Option<Channel> {
    if |channels| > 0 then Some(channels[0]) else None
  }

  function AlertMessage(now: string): string {
    "Emergency at: " + now
  }

  function CountAlerts(log: seq<Action>): (n: nat)
    ensures n <= |log|
  {
    if log == [] then 0 else (if log[0].SendAlert? then 1 else 0) + CountAlerts(log[1..])
  }

  lemma {:induction false} CountAlertsAppend(a: seq<Action>, b: seq<Action>)
    ensures CountAlerts(a + b) == CountAlerts(a) + CountAlerts(b)
    decreases |a|
  {
    if a == [] {
      assert a + b == b;
    } else {
      assert (a + b)[0] == a[0] && (a + b)[1..] == a[1..] + b;
      CountAlertsAppend(a[1..], b);
    }
  }

  class ChannelScreen {
    var channels: seq<Channel>
    var details: ChannelDetails
    var alertDialog: AlertDialog
    /** The stored `alertInterval` state. */
    var alertInterval: Option<nat>
    /** The intervals the runtime still fires, by id. */
    var intervals: map<nat, Countdown>
    var nextTimer: nat
    /** The key value handleKeyEvent last ran with. */
    var keyEvent: Option<int>
    var log: seq<Action>
    /** The intervals that have sent their alert. */
    ghost var sentBy: set<nat>

    ghost predicate Valid()
      reads this
    {
      (forall id :: id in intervals ==> id < nextTimer && 1 <= intervals[id].count <= CountdownStart)
      && (alertInterval.Some? ==> alertInterval.value < nextTimer)
      && (forall id :: id in sentBy ==> id < nextTimer && id !in intervals)
      && CountAlerts(log) == |sentBy|
    }

    constructor (selected: Option<Contact>, channels: seq<Channel>)
      ensures Valid()
      ensures this.channels == channels && details == InitialDetails(selected)
      ensures alertDialog == AlertDialog(CountdownStart, false) && alertInterval == None
      ensures intervals == map[] && nextTimer == 0 && keyEvent == None && log == [] && sentBy == {}
    {
      this.channels := channels;
      details := InitialDetails(selected);
      alertDialog := AlertDialog(CountdownStart, false);
      alertInterval := None;
      intervals := map[];
      nextTimer := 0;
      keyEvent := None;
      log := [];
      sentBy := {};
    }

    /**
     * handleSendAlert: show the dialog at 3 and start a new interval; its
     * closure keeps the old `alertInterval` and the current first channel.
     */
    method StartAlertCountdown()
      requires Valid()
      modifies this
      ensures Valid()
      ensures nextTimer == old(nextTimer) + 1
      ensures intervals == old(intervals)[old(nextTimer) := Countdown(CountdownStart, old(alertInterval), FirstChannel(channels))]
      ensures alertInterval == Some(old(nextTimer)) && alertDialog == AlertDialog(CountdownStart, true)
      ensures log == old(log) && sentBy == old(sentBy)
      ensures channels == old(channels) && details == old(details) && keyEvent == old(keyEvent)
    {
      var id := nextTimer;
      nextTimer := nextTimer + 1;
      alertDialog := AlertDialog(CountdownStart, true);
      intervals := intervals[id := Countdown(CountdownStart, alertInterval, FirstChannel(channels))];
      alertInterval := Some(id);
    }

    /** clearAlertInterval as the current render sees it: hide the dialog and stop the stored interval. */
    method ClearAlertInterval()
      requires Valid()
      modifies this
      ensures Valid()
      ensures alertDialog == old(alertDialog).(show := false)
      ensures intervals == if old(alertInterval).Some? then old(intervals) - {old(alertInterval).value} else old(intervals)
      ensures alertInterval == old(alertInterval) && nextTimer == old(nextTimer)
      ensures log == old(log) && sentBy == old(sentBy)
      ensures channels == old(channels) && details == old(details) && keyEvent == old(keyEvent)
    {
      alertDialog := alertDialog.(show := false);
      if alertInterval.Some? {
        intervals := intervals - {alertInterval.value};
      }
    }

    /**
     * The runtime fires interval `id` (a second has passed). A live interval
     * counts down; on reaching 0 it sends one alert to the channel its closure
     * captured, hides the dialog, and stops itself and the interval its
     * closure captured.
     * An interval that was cleared never fires.
     */
    method Tick(id: nat, now: string)
      requires Valid()
      modifies this
      ensures Valid()
      ensures id !in old(intervals) ==>
                intervals == old(intervals) && log == old(log) && alertDialog == old(alertDialog) && sentBy == old(sentBy)
      ensures id in old(intervals) && old(intervals)[id].count > 1 ==>
                intervals == old(intervals)[id := old(intervals)[id].(count := old(intervals)[id].count - 1)]
                && alertDialog == old(alertDialog).(count := old(intervals)[id].count - 1)
                && log == old(log) && sentBy == old(sentBy)
      ensures id in old(intervals) && old(intervals)[id].count == 1 ==>
                log == old(log) + [SendAlert(old(intervals)[id].target, AlertMessage(now))]
                && intervals == old(intervals) - {id} - (if old(intervals)[id].captured.Some? then {old(intervals)[id].captured.value} else {})
                && alertDialog == AlertDialog(0, false)
                && sentBy == old(sentBy) + {id}
      ensures alertInterval == old(alertInterval) && nextTimer == old(nextTimer)
      ensures channels == old(channels) && details == old(details) && keyEvent == old(keyEvent)
    {
      if id !in intervals {
        return;
      }
      if intervals[id].count > 1 {
        CountDown(id);
      } else {
        SendAndStop(id, now);
      }
    }

    /** A live interval above 1 counts down by one, and the dialog shows the new count. */
    method CountDown(id: nat)
      requires Valid() && id in intervals && intervals[id].count > 1
      modifies this
      ensures Valid()
      ensures intervals == old(intervals)[id := old(intervals)[id].(count := old(intervals)[id].count - 1)]
      ensures alertDialog == old(alertDialog).(count := old(intervals)[id].count - 1)
      ensures log == old(log) && sentBy == old(sentBy)
      ensures alertInterval == old(alertInterval) && nextTimer == old(nextTimer)
      ensures channels == old(channels) && details == old(details) && keyEvent == old(keyEvent)
    {
      var countdown := intervals[id];
      alertDialog := alertDialog.(count := countdown.count - 1);
      intervals := intervals[id := countdown.(count := countdown.count - 1)];
    }

    /**
     * A live interval at 1 reaches 0: one alert goes to the channel its
     * closure captured, the dialog is hidden, and the interval stops itself
     * and the one its closure captured.
     */
    method SendAndStop(id: nat, now: string)
      requires Valid() && id in intervals && intervals[id].count == 1
      modifies this
      ensures Valid()
      ensures log == old(log) + [SendAlert(old(intervals)[id].target, AlertMessage(now))]
      ensures intervals == old(intervals) - {id} - (if old(intervals)[id].captured.Some? then {old(intervals)[id].captured.value} else {})
      ensures alertDialog == AlertDialog(0, false)
      ensures sentBy == old(sentBy) + {id}
      ensures alertInterval == old(alertInterval) && nextTimer == old(nextTimer)
      ensures channels == old(channels) && details == old(details) && keyEvent == old(keyEvent)
    {
      var captured := intervals[id].captured;
      var alert := SendAlert(intervals[id].target, AlertMessage(now));
      CountAlertsAppend(log, [alert]);
      assert CountAlerts([alert]) == 1;
      assert |sentBy + {id}| == |sentBy| + 1 by {
        assert id !in sentBy;
      }
      var remaining := intervals - {id} - (if captured.Some? then {captured.value} else {});
      assert remaining.Keys <= intervals.Keys;
      log, sentBy, alertDialog, intervals := log + [alert], sentBy + {id}, AlertDialog(0, false), remaining;
    }

    /** The key latch takes the value `key`; when it changed, handleKeyEvent dispatches on it. */
    method OnKeyEvent(key: Option<int>)
      requires Valid()
      modifies this
      ensures Valid()
      ensures keyEvent == key && channels == old(channels) && details == old(details) && sentBy == old(sentBy)
      ensures key == old(keyEvent) || KeyCommandFor(key) == Ignore ==>
                log == old(log) && intervals == old(intervals) && alertDialog == old(alertDialog)
                && alertInterval == old(alertInterval) && nextTimer == old(nextTimer)
      ensures key != old(keyEvent) && KeyCommandFor(key) == CancelAlert ==>
                alertDialog == old(alertDialog).(show := false) && log == old(log)
                && intervals == (if old(alertInterval).Some? then old(intervals) - {old(alertInterval).value} else old(intervals))
                && alertInterval == old(alertInterval) && nextTimer == old(nextTimer)
      ensures key != old(keyEvent) && KeyCommandFor(key) == StartAlert ==>
                log == old(log) && alertDialog == AlertDialog(CountdownStart, true)
                && intervals == old(intervals)[old(nextTimer) := Countdown(CountdownStart, old(alertInterval), FirstChannel(channels))]
                && alertInterval == Some(old(nextTimer)) && nextTimer == old(nextTimer) + 1
      ensures key != old(keyEvent) && KeyCommandFor(key) == OpenContacts ==>
                log == old(log) + [Navigate("list-contacts")] && intervals == old(intervals)
                && alertDialog == old(alertDialog) && alertInterval == old(alertInterval) && nextTimer == old(nextTimer)
      ensures key != old(keyEvent) && KeyCommandFor(key) == OpenScanList ==>
                log == old(log) + [Navigate("list-scan")] && intervals == old(intervals)
                && alertDialog == old(alertDialog) && alertInterval == old(alertInterval) && nextTimer == old(nextTimer)
    {
      if key == keyEvent {
        return;
      }
      keyEvent := key;
      match KeyCommandFor(key)
      case CancelAlert =>
        ClearAlertInterval();
      case StartAlert =>
        StartAlertCountdown();
      case OpenContacts =>
        CountAlertsAppend(log, [Navigate("list-contacts")]);
        log := log + [Navigate("list-contacts")];
      case OpenScanList =>
        CountAlertsAppend(log, [Navigate("list-scan")]);
        log := log + [Navigate("list-scan")];
      case Ignore =>
    }

    /** The effect on the connection state. */
    method OnConnectionChange(flags: ConnectionContext.Flags, selected: Option<Contact>)
      requires Valid()
      modifies this
      ensures Valid()
      ensures log == old(log) + ConnectionEffect(flags, selected, channels)
      ensures channels == old(channels) && details == old(details) && intervals == old(intervals)
      ensures alertDialog == old(alertDialog) && alertInterval == old(alertInterval) && nextTimer == old(nextTimer)
      ensures keyEvent == old(keyEvent) && sentBy == old(sentBy)
    {
      var effect := ConnectionEffect(flags, selected, channels);
      CountAlertsAppend(log, effect);
      NoAlertsCounted(effect);
      log := log + effect;
    }

    /** The effect on the selected contact and the voice and alert messages. */
    method OnMessagesChanged(selected: Option<Contact>, incoming: Option<IncomingVoiceMessage>, outgoingVoice: bool, pendingAlert: bool)
      requires Valid()
      modifies this
      ensures Valid()
      ensures details == UpdateDetails(old(details), selected, incoming, outgoingVoice, pendingAlert)
      ensures log == old(log) + FallbackActions(selected, channels)
      ensures channels == old(channels) && intervals == old(intervals)
      ensures alertDialog == old(alertDialog) && alertInterval == old(alertInterval) && nextTimer == old(nextTimer)
      ensures keyEvent == old(keyEvent) && sentBy == old(sentBy)
    {
      details := UpdateDetails(details, selected, incoming, outgoingVoice, pendingAlert);
      var effect := FallbackActions(selected, channels);
      CountAlertsAppend(log, effect);
      NoAlertsCounted(effect);
      log := log + effect;
    }

    /** The channel list of the user/channel group provider changes. */
    method OnChannelsChanged(newChannels: seq<Channel>)
      requires Valid()
      modifies this
      ensures Valid()
      ensures channels == newChannels && sentBy == old(sentBy)
      ensures details == old(details) && log == old(log) && intervals == old(intervals)
      ensures alertDialog == old(alertDialog) && alertInterval == old(alertInterval)
      ensures nextTimer == old(nextTimer) && keyEvent == old(keyEvent)
    {
      channels := newChannels;
    }
  }

  lemma {:induction false} NoAlertsCounted(actions: seq<Action>)
    requires forall i :: 0 <= i < |actions| ==> !actions[i].SendAlert?
    ensures CountAlerts(actions) == 0
    decreases |actions|
  {
    if actions != [] {
      NoAlertsCounted(actions[1..]);
    }
  }

  /**
   * Holding the alert key: the dialog counts 3, 2, 1, and the third second
   * sends exactly one alert, to the first channel, after which nothing more
   * is sent.
   */
  method HoldingAlertKeySendsOneAlert(channels: seq<Channel>, now: string) returns (sent: seq<Action>, live: map<nat, Countdown>)
    ensures sent == [SendAlert(FirstChannel(channels), AlertMessage(now))]
    ensures live == map[]
  {
    var screen := new ChannelScreen(None, channels);
    screen.OnKeyEvent(Some(KeyAlert));
    screen.Tick(0, now);
    assert screen.alertDialog == AlertDialog(2, true);
    screen.Tick(0, now);
    assert screen.log == [];
    screen.Tick(0, now);
    screen.Tick(0, now);
    sent, live := screen.log, screen.intervals;
  }

  /** Releasing the alert key before the third second stops the countdown: no alert is ever sent. */
  method ReleasingAlertKeyCancels(channels: seq<Channel>, now: string) returns (sent: seq<Action>, dialogShown: bool)
    ensures sent == [] && !dialogShown
  {
    var screen := new ChannelScreen(None, channels);
    screen.OnKeyEvent(Some(KeyAlert));
    screen.Tick(0, now);
    screen.Tick(0, now);
    screen.OnKeyEvent(None);
    screen.Tick(0, now);
    screen.Tick(0, now);
    sent, dialogShown := screen.log, screen.alertDialog.show;
  }

  /**
   * Only a release (the latch going to null) cancels: a digit key pressed
   * while the countdown runs opens the contact list, and the alert is still
   * sent when the countdown ends.
   */
  method OtherKeyDoesNotCancel(channels: seq<Channel>, now: string) returns (sent: seq<Action>)
    ensures sent == [Navigate("list-contacts"), SendAlert(FirstChannel(channels), AlertMessage(now))]
  {
    var screen := new ChannelScreen(None, channels);
    screen.OnKeyEvent(Some(KeyAlert));
    screen.Tick(0, now);
    screen.OnKeyEvent(Some(KeyDigit0));
    screen.Tick(0, now);
    screen.Tick(0, now);
    sent := screen.log;
  }

  /**
   * The channel list changing while the countdown runs does not redirect the
   * alert: it goes to the first channel of the list the key press saw.
   */
  method ChannelChangeKeepsAlertTarget(first: Channel, later: seq<Channel>, now: string) returns (sent: seq<Action>)
    ensures sent == [SendAlert(Some(first), AlertMessage(now))]
  {
    var screen := new ChannelScreen(None, [first]);
    screen.OnKeyEvent(Some(KeyAlert));
    screen.Tick(0, now);
    screen.OnChannelsChanged(later);
    screen.Tick(0, now);
    screen.Tick(0, now);
    sent := screen.log;
  }
}
