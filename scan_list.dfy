/**
 * The scan list: the up/down keys move a focus index cyclically over the
 * channels, pressing a channel toggles its connection, and each row shows an
 * icon for the channel's connection status.
 */
module MinimalScanList {
  import opened Sdk
  import opened Cyclic
  import NavigationBarContext

  const KeyUp := 19
  const KeyDown := 20
  const KeyEnter := 66

  /**
   * JavaScript's `%`, which truncates toward zero: the remainder of the
   * magnitude, carrying the sign of `a`.
   */
  function JsRem(a: int, n: int): (r: int)
    requires n > 0
    ensures a >= 0 ==> 0 <= r < n
    ensures a < 0 ==> -n < r <= 0
    ensures 0 <= a < n ==> r == a
    ensures n <= a < 2 * n ==> r == a - n
    ensures a >= 0 ==> r == a % n
    ensures a < 0 ==> r == -((-a) % n)
  {
    WrapIsMod(if a >= 0 then a else -a, n);
    if a >= 0 then Wrap(a, n) else -(Wrap(-a, n) as int)
  }

  /**
   * The focus effect: no key, key 0, Enter or an empty list leave the focus
   * alone; down and up move it cyclically; other keys are ignored.
   */
  function FocusAfterKey(focused: int, key: Option<int>, n: nat): (r: int)
    ensures key.None? || key == Some(0) || key == Some(KeyEnter) || n == 0 ==> r == focused
    ensures key != Some(KeyDown) && key != Some(KeyUp) ==> r == focused
    ensures n > 0 && focused >= 0 && (key == Some(KeyDown) || key == Some(KeyUp)) ==> 0 <= r < n
    ensures n > 0 && 0 <= focused < n - 1 && key == Some(KeyDown) ==> r == focused + 1
    ensures n > 0 && focused == n - 1 && key == Some(KeyDown) ==> r == 0
    ensures n > 0 && 0 < focused < n && key == Some(KeyUp) ==> r == focused - 1
    ensures n > 0 && focused == 0 && key == Some(KeyUp) ==> r == n - 1
    ensures n > 0 && focused >= 0 && key == Some(KeyDown) ==> r == (focused + 1) % n
    ensures n > 0 && focused >= 0 && key == Some(KeyUp) ==> r == (focused - 1 + n) % n
  {
    if key.None? || key.value == 0 || key.value == KeyEnter || n == 0 then focused
    else if key.value == KeyDown then JsRem(focused + 1, n)
    else if key.value == KeyUp then JsRem(focused - 1 + n, n)
    else focused
  }

  /** With at least one channel, down then up (or up then down) restores an in-range focus. */
  lemma DownThenUpRestores(focused: int, n: nat)
    requires 0 <= focused < n
    ensures FocusAfterKey(FocusAfterKey(focused, Some(KeyDown), n), Some(KeyUp), n) == focused
    ensures FocusAfterKey(FocusAfterKey(focused, Some(KeyUp), n), Some(KeyDown), n) == focused
  {
  }

  function PressDown(focused: int, n: nat, presses: nat): int
    decreases presses
  {
    if presses == 0 then focused else PressDown(FocusAfterKey(focused, Some(KeyDown), n), n, presses - 1)
  }

  lemma {:induction false} PressDownIsRotation(focused: nat, n: nat, presses: nat)
    requires focused < n
    ensures PressDown(focused, n, presses) == Wrap(focused + presses, n)
    decreases presses
  {
    if presses > 0 {
      var next := FocusAfterKey(focused, Some(KeyDown), n);
      PressDownIsRotation(next, n, presses - 1);
      if focused == n - 1 {
        assert Wrap(focused + presses, n) == Wrap(presses - 1, n);
      }
    }
  }

  /** n presses of the down key on a list of n channels come back to the start. */
  lemma FullCycleReturns(focused: nat, n: nat)
    requires focused < n
    ensures PressDown(focused, n, n) == focused
  {
    PressDownIsRotation(focused, n, n);
    assert Wrap(focused + n, n) == Wrap(focused, n);
  }

  /**
   * handlePress: a channel that may not be disconnected is left alone; a
   * connected one is disconnected, a disconnected one connected, each with
   * exactly one call; any other status makes no call.
   */
  function PressActions(channel: Channel): (r: seq<Action>)
    ensures |r| <= 1
    ensures r == [DisconnectChannel(channel)] <==> !channel.options.noDisconnect && channel.connectionStatus == Connected
    ensures r == [ConnectChannel(channel)] <==> !channel.options.noDisconnect && channel.connectionStatus == Disconnected
    ensures channel.options.noDisconnect || channel.connectionStatus == Connecting ==> r == []
  {
    if channel.options.noDisconnect then []
    else if channel.connectionStatus == Connected then [DisconnectChannel(channel)]
    else if channel.connectionStatus == Disconnected then [ConnectChannel(channel)]
    else []
  }

  const Grey := "#c1c1c1"
  const Green := "#00ff00"

  datatype ScanIconView = ScanIconView(name: string, color: string)

  /**
   * ScanIcon: a filled radio button when connected, an empty one when
   * disconnected, a question mark otherwise; green only for a known status
   * on a channel that may be disconnected.
   */
  function ScanIcon(status: ChannelConnectionStatus, noDisconnect: bool): (r: ScanIconView)
    ensures r.name == (match status
                       case Connected => "radio-button-on"
                       case Disconnected => "radio-button-off"
                       case Connecting => "help-circle-outline")
    ensures r.color == Green <==> !noDisconnect && status != Connecting
    ensures r.color == Grey <==> noDisconnect || status == Connecting
  {
    var (name, color) :=
      match status
      case Connected => ("radio-button-on", Green)
      case Disconnected => ("radio-button-off", Green)
      case _ => ("help-circle-outline", Grey);
    ScanIconView(name, if noDisconnect then Grey else color)
  }

  class ScanListScreen {
    var channels: seq<Channel>
    var focused: int
    /** The key value the focus effect last ran with. */
    var keyEvent: Option<int>
    var log: seq<Action>

    ghost predicate Valid()
      reads this
    {
      focused >= 0
    }

    /** Mounting while `heldKey` is latched: the focus starts at 0 and the effect runs once. */
    constructor (channels: seq<Channel>, heldKey: Option<int>)
      ensures Valid()
      ensures this.channels == channels && keyEvent == heldKey && log == []
      ensures focused == FocusAfterKey(0, heldKey, |channels|)
    {
      this.channels := channels;
      focused := FocusAfterKey(0, heldKey, |channels|);
      keyEvent := heldKey;
      log := [];
    }

    /** The effect on [keyEvent, channels.length], triggered by a new key value. */
    method OnKeyEvent(key: Option<int>)
      requires Valid()
      modifies this
      ensures Valid()
      ensures keyEvent == key && channels == old(channels) && log == old(log)
      ensures focused == if key == old(keyEvent) then old(focused) else FocusAfterKey(old(focused), key, |channels|)
      ensures key != old(keyEvent) && |channels| > 0 && (key == Some(KeyDown) || key == Some(KeyUp)) ==> focused < |channels|
    {
      if key != keyEvent {
        keyEvent := key;
        focused := FocusAfterKey(focused, key, |channels|);
      }
    }

    /**
     * The same effect triggered by a change in the number of channels: the
     * still-latched key moves the focus again.
     */
    method OnChannelsChanged(newChannels: seq<Channel>)
      requires Valid()
      modifies this
      ensures Valid()
      ensures channels == newChannels && keyEvent == old(keyEvent) && log == old(log)
      ensures focused == if |newChannels| == |old(channels)| then old(focused)
                         else FocusAfterKey(old(focused), keyEvent, |newChannels|)
    {
      var lengthChanged := |newChannels| != |channels|;
      channels := newChannels;
      if lengthChanged {
        focused := FocusAfterKey(focused, keyEvent, |channels|);
      }
    }

    /** The focus effect: the bar is blanked, then its second slot emptied. */
    method OnFocus(bar: NavigationBarContext.NavigationBarProvider)
      modifies bar
      ensures bar.items == NavigationBarContext.NavItems(" ", "", " ")
      ensures bar.items == NavigationBarContext.BlankItems.Set(NavigationBarContext.Second, "")
    {
      bar.ResetNav();
      bar.SetNav(NavigationBarContext.Second, "");
    }

    /** A tap on a channel row. */
    method Press(channel: Channel)
      modifies this
      ensures log == old(log) + PressActions(channel)
      ensures channels == old(channels) && focused == old(focused) && keyEvent == old(keyEvent)
    {
      log := log + PressActions(channel);
    }
  }
}
