/**
 * The context menu of a contact row: an ordered list of options composed
 * from optional boolean props (with their defaults), each option with a
 * label and what selecting it does.
 */
module ContextMenuButton {
  import opened Sdk

  /** What selecting an option does: an SDK call or one of the row's callbacks. */
  datatype MenuSelection =
    | SendImage | SendLocation | SendText | SendAlertSelected
    | Mute | Unmute
    | StartEmergency | StopEmergency
    | EndCall | AddUsersToGroup | LeaveGroup | RenameGroup
    | ShowHistory

  /** What selecting an option does: an SDK call on the row's contact, or a callback of the row's owner. */
  datatype MenuEffect =
    | SdkSendImage(target: Contact)
    | SdkSendLocation(target: Contact)
    | SdkMute(target: Contact)
    | SdkUnmute(target: Contact)
    | SdkStartEmergency
    | SdkStopEmergency
    | Callback(selected: MenuSelection)

  /** The text each option shows. */
  function Text(s: MenuSelection): string {
    match s
    case SendImage => "Send Image"
    case SendLocation => "Send Location"
    case SendText => "Send Text"
    case SendAlertSelected => "Send Alert"
    case Mute => "Mute"
    case Unmute => "Unmute"
    case StartEmergency => "Start Emergency"
    case StopEmergency => "Stop Emergency"
    case EndCall => "End Call"
    case AddUsersToGroup => "Add Users to Group Conversation"
    case LeaveGroup => "Leave Group Conversation"
    case RenameGroup => "Rename Group Conversation"
    case ShowHistory => "Show History"
  }

  /** The props; None is an omitted (undefined) prop, to which a default may apply. */
  datatype MenuProps = MenuProps(
    contact: Contact,
    showSendImageOption: Option<bool>,
    showSendLocationOption: Option<bool>,
    showSendTextOption: Option<bool>,
    showSendAlertOption: Option<bool>,
    showEmergencyOption: Option<bool>,
    showEndCallOption: Option<bool>,
    showAddUsersToGroupConversationOption: Option<bool>,
    showLeaveGroupConversationOption: Option<bool>,
    showRenameGroupConversationOption: Option<bool>,
    isInOutgoingEmergency: Option<bool>)

  /** A destructuring default: it applies only when the prop is undefined. */
  function WithDefault(prop: Option<bool>, fallback: bool): bool {
    match prop
    case None => fallback
    case Some(b) => b
  }

  /** A prop without a default: undefined is falsy. */
  function Truthy(prop: Option<bool>): bool {
    prop == Some(true)
  }

  /** The place each option takes in the menu. */
  function Rank(s: MenuSelection): nat {
    match s
    case SendImage => 0
    case SendLocation => 1
    case SendText => 2
    case SendAlertSelected => 3
    case Mute => 4
    case Unmute => 4
    case StartEmergency => 5
    case StopEmergency => 5
    case EndCall => 6
    case AddUsersToGroup => 7
    case LeaveGroup => 8
    case RenameGroup => 9
    case ShowHistory => 10
  }

  /** The options React renders for one conditional child: none, or `s` when `shown`. */
  function Optional(shown: bool, s: MenuSelection): (r: seq<MenuSelection>)
    ensures |r| <= 1
    ensures forall x :: x in r <==> shown && x == s
  {
    if shown then [s] else []
  }

  /**
   * Whether option `s` is offered: a flag with a default of true for the four
   * send options, of false for emergency and end call, and none (undefined is
   * hidden) for the group options; mute and history are always there.
   */
  predicate Shown(p: MenuProps, s: MenuSelection) {
    var inEmergency := WithDefault(p.isInOutgoingEmergency, false);
    match s
    case SendImage => WithDefault(p.showSendImageOption, true)
    case SendLocation => WithDefault(p.showSendLocationOption, true)
    case SendText => WithDefault(p.showSendTextOption, true)
    case SendAlertSelected => WithDefault(p.showSendAlertOption, true)
    case Mute => !p.contact.IsMuted()
    case Unmute => p.contact.IsMuted()
    case StartEmergency => WithDefault(p.showEmergencyOption, false) && !inEmergency
    case StopEmergency => WithDefault(p.showEmergencyOption, false) && inEmergency
    case EndCall => WithDefault(p.showEndCallOption, false)
    case AddUsersToGroup => Truthy(p.showAddUsersToGroupConversationOption)
    case LeaveGroup => Truthy(p.showLeaveGroupConversationOption)
    case RenameGroup => Truthy(p.showRenameGroupConversationOption)
    case ShowHistory => true
  }

  /** The send-image, send-location, send-text and send-alert children. */
  function SendOptions(p: MenuProps): seq<MenuSelection> {
    Optional(WithDefault(p.showSendImageOption, true), SendImage)
    + Optional(WithDefault(p.showSendLocationOption, true), SendLocation)
    + Optional(WithDefault(p.showSendTextOption, true), SendText)
    + Optional(WithDefault(p.showSendAlertOption, true), SendAlertSelected)
  }

  /** The emergency and end-call children. */
  function CallOptions(p: MenuProps): seq<MenuSelection> {
    var inEmergency := WithDefault(p.isInOutgoingEmergency, false);
    Optional(WithDefault(p.showEmergencyOption, false), if inEmergency then StopEmergency else StartEmergency)
    + Optional(WithDefault(p.showEndCallOption, false), EndCall)
  }

  /** The add-users, leave and rename group-conversation children. */
  function GroupOptions(p: MenuProps): seq<MenuSelection> {
    Optional(Truthy(p.showAddUsersToGroupConversationOption), AddUsersToGroup)
    + Optional(Truthy(p.showLeaveGroupConversationOption), LeaveGroup)
    + Optional(Truthy(p.showRenameGroupConversationOption), RenameGroup)
  }

  /** The children of the options list in JSX order, up to "Show History". */
  function OptionsBeforeHistory(p: MenuProps): seq<MenuSelection> {
    SendOptions(p) + [if p.contact.IsMuted() then Unmute else Mute] + CallOptions(p) + GroupOptions(p)
  }

  /** The options the menu renders: "Show History" always last, after at least one other option. */
  function Menu(p: MenuProps): (r: seq<MenuSelection>)
    ensures |r| >= 2 && r[|r| - 1] == ShowHistory
  {
    var before := OptionsBeforeHistory(p);
    assert |before| >= 1;
    before + [ShowHistory]
  }

  /** An option is in the menu exactly when `Shown` says it is offered. */
  lemma MenuOffersIffShown(p: MenuProps, s: MenuSelection)
    ensures s in Menu(p) <==> Shown(p, s)
  {
    var mute := [if p.contact.IsMuted() then Unmute else Mute];
    assert Menu(p) == SendOptions(p) + mute + CallOptions(p) + GroupOptions(p) + [ShowHistory];
    if Rank(s) < 4 {
      SendOptionsOffer(p, s);
    } else if Rank(s) == 4 {
    } else if Rank(s) < 7 {
      CallOptionsOffer(p, s);
    } else if Rank(s) < 10 {
      GroupOptionsOffer(p, s);
    }
    SendOptionsRanks(p, s);
    CallOptionsRanks(p, s);
    GroupOptionsRanks(p, s);
  }

  lemma SendOptionsOffer(p: MenuProps, s: MenuSelection)
    requires Rank(s) < 4
    ensures s in SendOptions(p) <==> Shown(p, s)
  {
    match s
    case SendImage =>
    case SendLocation =>
    case SendText =>
    case SendAlertSelected =>
  }

  lemma SendOptionsRanks(p: MenuProps, s: MenuSelection)
    ensures s in SendOptions(p) ==> Rank(s) < 4
  {
  }

  lemma CallOptionsOffer(p: MenuProps, s: MenuSelection)
    requires 5 <= Rank(s) < 7
    ensures s in CallOptions(p) <==> Shown(p, s)
  {
    match s
    case StartEmergency =>
    case StopEmergency =>
    case EndCall =>
  }

  lemma CallOptionsRanks(p: MenuProps, s: MenuSelection)
    ensures s in CallOptions(p) ==> 5 <= Rank(s) < 7
  {
  }

  lemma GroupOptionsOffer(p: MenuProps, s: MenuSelection)
    requires 7 <= Rank(s) < 10
    ensures s in GroupOptions(p) <==> Shown(p, s)
  {
    match s
    case AddUsersToGroup =>
    case LeaveGroup =>
    case RenameGroup =>
  }

  lemma GroupOptionsRanks(p: MenuProps, s: MenuSelection)
    ensures s in GroupOptions(p) ==> 7 <= Rank(s) < 10
  {
  }

  /** With no group-conversation flag given, the menu offers none of the group options. */
  lemma NoGroupFlagsNoGroupOptions(p: MenuProps)
    requires p.showAddUsersToGroupConversationOption.None?
    requires p.showLeaveGroupConversationOption.None?
    requires p.showRenameGroupConversationOption.None?
    ensures forall s :: s in Menu(p) ==> s != AddUsersToGroup && s != LeaveGroup && s != RenameGroup
  {
    assert GroupOptions(p) == [];
    forall s | s in Menu(p) ensures s != AddUsersToGroup && s != LeaveGroup && s != RenameGroup {
      MenuOffersIffShown(p, s);
    }
  }

  predicate StrictlyOrdered(items: seq<MenuSelection>) {
    forall i, j :: 0 <= i < j < |items| ==> Rank(items[i]) < Rank(items[j])
  }

  /** Every option of `items` has a rank in [lo, hi). */
  predicate RanksWithin(items: seq<MenuSelection>, lo: nat, hi: nat) {
    forall i :: 0 <= i < |items| ==> lo <= Rank(items[i]) < hi
  }

  /** Two ordered runs, the first ranked below the second, join into one ordered run. */
  lemma JoinInOrder(a: seq<MenuSelection>, b: seq<MenuSelection>, lo: nat, mid: nat, hi: nat)
    requires lo <= mid <= hi
    requires StrictlyOrdered(a) && RanksWithin(a, lo, mid)
    requires StrictlyOrdered(b) && RanksWithin(b, mid, hi)
    ensures StrictlyOrdered(a + b) && RanksWithin(a + b, lo, hi)
  {
    var r := a + b;
    forall i, j | 0 <= i < j < |r| ensures Rank(r[i]) < Rank(r[j]) {
      if i < |a| && j >= |a| {
        assert r[i] == a[i] && r[j] == b[j - |a|];
      } else if i >= |a| {
        assert r[i] == b[i - |a|] && r[j] == b[j - |a|];
      } else {
        assert r[i] == a[i] && r[j] == a[j];
      }
    }
    forall i | 0 <= i < |r| ensures lo <= Rank(r[i]) < hi {
      if i < |a| { assert r[i] == a[i]; } else { assert r[i] == b[i - |a|]; }
    }
  }

  /** A single optional child of rank `k` is an ordered run in [k, k + 1). */
  lemma OptionalInOrder(shown: bool, s: MenuSelection, k: nat)
    requires Rank(s) == k
    ensures StrictlyOrdered(Optional(shown, s)) && RanksWithin(Optional(shown, s), k, k + 1)
  {
  }

  lemma SendOptionsInOrder(p: MenuProps)
    ensures StrictlyOrdered(SendOptions(p)) && RanksWithin(SendOptions(p), 0, 4)
  {
    var s0 := Optional(WithDefault(p.showSendImageOption, true), SendImage);
    var s1 := Optional(WithDefault(p.showSendLocationOption, true), SendLocation);
    var s2 := Optional(WithDefault(p.showSendTextOption, true), SendText);
    var s3 := Optional(WithDefault(p.showSendAlertOption, true), SendAlertSelected);
    assert SendOptions(p) == s0 + s1 + s2 + s3;
    OptionalInOrder(WithDefault(p.showSendImageOption, true), SendImage, 0);
    OptionalInOrder(WithDefault(p.showSendLocationOption, true), SendLocation, 1);
    JoinInOrder(s0, s1, 0, 1, 2);
    OptionalInOrder(WithDefault(p.showSendTextOption, true), SendText, 2);
    JoinInOrder(s0 + s1, s2, 0, 2, 3);
    OptionalInOrder(WithDefault(p.showSendAlertOption, true), SendAlertSelected, 3);
    JoinInOrder(s0 + s1 + s2, s3, 0, 3, 4);
  }

  lemma CallOptionsInOrder(p: MenuProps)
    ensures StrictlyOrdered(CallOptions(p)) && RanksWithin(CallOptions(p), 5, 7)
  {
    var emergency := if WithDefault(p.isInOutgoingEmergency, false) then StopEmergency else StartEmergency;
    OptionalInOrder(WithDefault(p.showEmergencyOption, false), emergency, 5);
    OptionalInOrder(WithDefault(p.showEndCallOption, false), EndCall, 6);
    JoinInOrder(Optional(WithDefault(p.showEmergencyOption, false), emergency),
                Optional(WithDefault(p.showEndCallOption, false), EndCall), 5, 6, 7);
  }

  lemma GroupOptionsInOrder(p: MenuProps)
    ensures StrictlyOrdered(GroupOptions(p)) && RanksWithin(GroupOptions(p), 7, 10)
  {
    var s7 := Optional(Truthy(p.showAddUsersToGroupConversationOption), AddUsersToGroup);
    var s8 := Optional(Truthy(p.showLeaveGroupConversationOption), LeaveGroup);
    var s9 := Optional(Truthy(p.showRenameGroupConversationOption), RenameGroup);
    OptionalInOrder(Truthy(p.showAddUsersToGroupConversationOption), AddUsersToGroup, 7);
    OptionalInOrder(Truthy(p.showLeaveGroupConversationOption), LeaveGroup, 8);
    OptionalInOrder(Truthy(p.showRenameGroupConversationOption), RenameGroup, 9);
    JoinInOrder(s7, s8, 7, 8, 9);
    var s78 := s7 + s8;
    JoinInOrder(s78, s9, 7, 9, 10);
  }

  /** The menu lists its options in the fixed order of their ranks, so no option twice. */
  lemma MenuInSlotOrder(p: MenuProps)
    ensures StrictlyOrdered(Menu(p))
  {
    var mute := [if p.contact.IsMuted() then Unmute else Mute];
    SendOptionsInOrder(p);
    CallOptionsInOrder(p);
    GroupOptionsInOrder(p);
    OptionalInOrder(true, mute[0], 4);
    assert Optional(true, mute[0]) == mute;
    JoinInOrder(SendOptions(p), mute, 0, 4, 5);
    var upToMute := SendOptions(p) + mute;
    JoinInOrder(upToMute, CallOptions(p), 0, 5, 7);
    var upToCalls := upToMute + CallOptions(p);
    JoinInOrder(upToCalls, GroupOptions(p), 0, 7, 10);
    OptionalInOrder(true, ShowHistory, 10);
    assert Optional(true, ShowHistory) == [ShowHistory];
    JoinInOrder(OptionsBeforeHistory(p), [ShowHistory], 0, 10, 11);
  }

  /** With every prop omitted, the menu is image, location, text, alert, mute, history. */
  lemma DefaultMenu(contact: Contact)
    ensures Menu(MenuProps(contact, None, None, None, None, None, None, None, None, None, None)) ==
            [SendImage, SendLocation, SendText, SendAlertSelected, if contact.IsMuted() then Unmute else Mute, ShowHistory]
  {
  }

  /** The onSelect handler of each option: SDK calls act on the row's own contact. */
  function Effect(p: MenuProps, s: MenuSelection): (r: MenuEffect)
    ensures r.SdkSendImage? || r.SdkSendLocation? || r.SdkMute? || r.SdkUnmute? ==> r.target == p.contact
    ensures r.Callback? <==> s in {SendText, SendAlertSelected, EndCall, AddUsersToGroup, LeaveGroup, RenameGroup, ShowHistory}
    ensures r.Callback? ==> r.selected == s
  {
    match s
    case SendImage => SdkSendImage(p.contact)
    case SendLocation => SdkSendLocation(p.contact)
    case Mute => SdkMute(p.contact)
    case Unmute => SdkUnmute(p.contact)
    case StartEmergency => SdkStartEmergency
    case StopEmergency => SdkStopEmergency
    case _ => Callback(s)
  }

  /**
   * The mute row toggles: the menu offers exactly one of Mute and Unmute,
   * and selecting it unmutes a muted contact and mutes an unmuted one.
   */
  lemma MuteRowToggles(p: MenuProps)
    ensures exists s :: s in Menu(p) && Effect(p, s) == (if p.contact.IsMuted() then SdkUnmute(p.contact) else SdkMute(p.contact))
    ensures !(exists s :: s in Menu(p) && Effect(p, s) == (if p.contact.IsMuted() then SdkMute(p.contact) else SdkUnmute(p.contact)))
  {
    var wanted := if p.contact.IsMuted() then Unmute else Mute;
    MenuOffersIffShown(p, wanted);
    assert wanted in Menu(p) && Effect(p, wanted) == (if p.contact.IsMuted() then SdkUnmute(p.contact) else SdkMute(p.contact));
    var opposite := if p.contact.IsMuted() then SdkMute(p.contact) else SdkUnmute(p.contact);
    forall s | s in Menu(p) ensures Effect(p, s) != opposite {
      MenuOffersIffShown(p, s);
    }
  }

  /** The emergency row stops an outgoing emergency and starts one otherwise. */
  lemma EmergencyRowToggles(p: MenuProps, s: MenuSelection)
    requires s in Menu(p) && (Effect(p, s).SdkStartEmergency? || Effect(p, s).SdkStopEmergency?)
    ensures Effect(p, s).SdkStopEmergency? <==> WithDefault(p.isInOutgoingEmergency, false)
    ensures WithDefault(p.showEmergencyOption, false)
  {
    MenuOffersIffShown(p, s);
  }

  /** No two options share a label. */
  lemma TextInjective(s: MenuSelection, t: MenuSelection)
    requires Text(s) == Text(t)
    ensures s == t
  {
  }

  /** A label is on the menu exactly when its option is shown. */
  lemma LabelShownIff(p: MenuProps, wanted: MenuSelection)
    ensures (exists s :: s in Menu(p) && Text(s) == Text(wanted)) <==> Shown(p, wanted)
  {
    MenuOffersIffShown(p, wanted);
    if exists s :: s in Menu(p) && Text(s) == Text(wanted) {
      var s :| s in Menu(p) && Text(s) == Text(wanted);
      TextInjective(s, wanted);
    }
  }

  /**
   * The labels the menu shows: "Unmute" exactly for a muted contact and
   * "Mute" otherwise; "Stop Emergency" exactly when the emergency option is
   * shown during an outgoing emergency, "Start Emergency" when it is shown
   * outside one.
   */
  lemma MenuLabels(p: MenuProps)
    ensures (exists s :: s in Menu(p) && Text(s) == "Unmute") <==> p.contact.IsMuted()
    ensures (exists s :: s in Menu(p) && Text(s) == "Mute") <==> !p.contact.IsMuted()
    ensures (exists s :: s in Menu(p) && Text(s) == "Stop Emergency") <==>
              WithDefault(p.showEmergencyOption, false) && WithDefault(p.isInOutgoingEmergency, false)
    ensures (exists s :: s in Menu(p) && Text(s) == "Start Emergency") <==>
              WithDefault(p.showEmergencyOption, false) && !WithDefault(p.isInOutgoingEmergency, false)
  {
    LabelShownIff(p, Unmute);
    LabelShownIff(p, Mute);
    LabelShownIff(p, StopEmergency);
    LabelShownIff(p, StartEmergency);
  }
}
