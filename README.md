# Push-to-talk demo app: key-driven screens and rules

This project models the logic of the example app that ships with a React
Native push-to-talk SDK. The app runs on a handset with hardware keys. A
native bridge reports key-down and key-up events, and the screens react to
whichever key code is currently latched:

- **Key-event latch.** One `keyEvent` value: set by a key-down, cleared to null by any key-up.
- **Connection context.** Three flags, `isConnected`, `isConnecting` and `isDisconnected`, written by four SDK connection events.
- **Navigation bar context.** A three-slot `items` record with `setNav` and `resetNav`.
- **Minimal contact list.**
  - Digit keys build a search string, key 21 deletes from it, key 294 toggles offline users.
  - Up and down move a selection cyclically over the filtered users.
  - Enter selects the highlighted user and navigates to the main screen.
- **Minimal scan list.** Up and down move a focus cyclically over the channels. A tap toggles a channel's connection. Each row shows a status icon.
- **Minimal channel screen.**
  - Key dispatch: holding 295 runs a 3-second alert countdown, a digit opens the contact list, 294 opens the scan list.
  - The current and last talker.
  - A redirect to login.
  - A fallback channel selection.
- **Login screen and connection modal.**
  - A credentials record edited field by field.
  - Key 295 connects. The login screen checks validity first and disconnects before it connects; the modal does neither.
- **Channels tab rows.** The connection switch, the status texts, the dispatch call status, the selection highlight, and the props passed to the row's context menu.
- **Context menu button.** The ordered list of options that the optional flags and their defaults produce, and what each option does.

How the model is built:

- **The SDK and the navigator.** The model does not include them. Each call a screen makes into them becomes one `Action` appended to the screen's `log`, so the model can state "exactly one alert" or "disconnect before connect".
- **Effects.** A React effect reruns only when its dependency value changes. Each screen class therefore keeps the `keyEvent` value its key effect last ran with, and does nothing when the latch is set to the same value again.
- **Timers.** They are discrete ticks:
  - the alert countdown's interval is fired by `Tick`;
  - the login screen's 100 ms delayed connect waits in a queue until `ConnectTimerFires`.
- **JavaScript values.** A value that may be undefined is an `Option`. JavaScript `&&` is modelled as `JsAnd`, which returns its left operand when that operand is falsy. A destructuring default applies only to an undefined prop.
- **Modules.** There is one module per source file, plus `Sdk` for the entities and the action log and `Strings` for `toLowerCase`, `includes` and number printing.

The send options of a channel row follow the code's `&&` chains exactly:

- A row passes `isConnected && consoleSettings?.flag && …` for Send Image, Send Alert, Send Text and Send Location.
- While the console settings are undefined, that expression is `undefined`, and the menu's default of `true` then applies.
- So on a connected channel, before any console settings arrive, those four options are shown even when the channel's own options forbid them. `ChannelsScreen.SendImageShownIff` and `ChannelsScreen.SendMessageOptionsShownIff` state exactly this.

## Model

| member | source | states |
|---|---|---|
| Sdk.Credentials.With | example/src/App/MinimalLoginScreen/index.tsx:48-50 | handleInputChange sets the named field to the value and leaves the other two fields unchanged |
| Sdk.ValidIffNoEmptyField | example/src/App/MinimalLoginScreen/index.tsx:52-55 | credentials are valid if and only if no field (username, password, network) is the empty string |
| Sdk.ClearingFieldInvalidates | example/src/components/modal/ConnectionModal.tsx:37-44 | clearing any one field through handleInputChange makes the credentials invalid |
| Strings.Lower | example/src/App/MinimalContactList/index.tsx:92 | toLowerCase keeps the length and lower-cases each character (ASCII only) |
| Strings.LowerIdempotent | example/src/App/MinimalContactList/index.tsx:92 | lower-casing twice is lower-casing once |
| Strings.IncludesIffOccurs | example/src/App/MinimalContactList/index.tsx:92 | `includes` holds exactly when the needle occurs at some position of the string |
| Strings.NatToString | example/src/HomeTabs/ChannelsScreen/index.tsx:147 | the printed number is a non-empty string of decimal digits with no leading zero, whose decimal value is the number |
| Strings.NatToStringInjective | example/src/HomeTabs/ChannelsScreen/index.tsx:147 | two numbers that print the same are equal |
| KeyEventContext.Next | example/src/context/KeyEventContext.tsx:16-23 | after a down event the latch holds its code, and after any up event the latch is null |
| KeyEventContext.ReplaySnoc | example/src/context/KeyEventContext.tsx:16-23 | processing one more event applies one more listener call to the latch |
| KeyEventContext.ReplayIsLastEvent | example/src/context/KeyEventContext.tsx:14-23 | after a non-empty run of events the latch depends only on the last one: the last down's code, or null after any up; it holds one code, not a stack |
| KeyEventContext.KeyEventProvider.constructor | example/src/context/KeyEventContext.tsx:14 | the latch starts null with no events seen |
| KeyEventContext.KeyEventProvider.OnKeyDown | example/src/context/KeyEventContext.tsx:17-19 | the latch becomes the pressed code, and the state stays the replay of all events seen |
| KeyEventContext.KeyEventProvider.OnKeyUp | example/src/context/KeyEventContext.tsx:21-23 | the latch becomes null whichever key was released |
| ConnectionContext.AfterEvent | example/src/context/ConnectionContext.tsx:21-41 | each event leaves exactly one flag set: connected only after success, connecting only after start, disconnected after a failure or a disconnect, so those two are indistinguishable |
| ConnectionContext.ReplaySnoc | example/src/context/ConnectionContext.tsx:21-41 | after one more event the flags are those of that event alone |
| ConnectionContext.ReplayDependsOnLast | example/src/context/ConnectionContext.tsx:21-41 | after at least one event the flags depend only on the last event, and exactly one flag is true |
| ConnectionContext.ConnectionContextProvider.constructor | example/src/context/ConnectionContext.tsx:15-17 | all three flags start false |
| ConnectionContext.ConnectionContextProvider.OnConnectFailed | example/src/context/ConnectionContext.tsx:21-26 | only isDisconnected is set, and the flags stay the replay of the events seen |
| ConnectionContext.ConnectionContextProvider.OnConnectStarted | example/src/context/ConnectionContext.tsx:27-31 | only isConnecting is set |
| ConnectionContext.ConnectionContextProvider.OnConnectSucceeded | example/src/context/ConnectionContext.tsx:32-36 | only isConnected is set |
| ConnectionContext.ConnectionContextProvider.OnDisconnected | example/src/context/ConnectionContext.tsx:37-41 | only isDisconnected is set |
| NavigationBarContext.NavItems.Set | example/src/context/NavigationBarContext.tsx:31-36 | setNav sets slot k to v and keeps the other two slots |
| NavigationBarContext.SlotsDetermineItems | example/src/context/NavigationBarContext.tsx:24-28 | two bars that agree on all three slots are equal |
| NavigationBarContext.SetIdempotent | example/src/context/NavigationBarContext.tsx:31-36 | setNav twice with the same arguments equals setNav once |
| NavigationBarContext.SetCommutes | example/src/context/NavigationBarContext.tsx:31-36 | setNav on two different slots commutes |
| NavigationBarContext.SetLastWins | example/src/context/NavigationBarContext.tsx:31-36 | setNav twice on one slot: the later value wins |
| NavigationBarContext.NavigationBarProvider.constructor | example/src/context/NavigationBarContext.tsx:24-28 | the bar starts as (" ", " ", "Third") |
| NavigationBarContext.NavigationBarProvider.SetNav | example/src/context/NavigationBarContext.tsx:31-36 | the items become the previous items with slot k replaced |
| NavigationBarContext.NavigationBarProvider.ResetNav | example/src/context/NavigationBarContext.tsx:38-44 | all three slots become " " whatever they were, so resetting twice equals resetting once, and the result differs from the initial bar |
| MinimalContactList.AppendDigit | example/src/App/MinimalContactList/index.tsx:53-56 | a digit key appends the digit k-7 to a non-empty search, and starts a one-digit search from null or "" |
| MinimalContactList.RemoveLast | example/src/App/MinimalContactList/index.tsx:58-60 | the result is null exactly when the search was null or "", and otherwise it is the search without its last character |
| MinimalContactList.AppendThenRemove | example/src/App/MinimalContactList/index.tsx:53-60 | typing then deleting a digit restores a non-empty search but turns null into "" |
| MinimalContactList.FilterUsers | example/src/App/MinimalContactList/index.tsx:89-93 | a user is listed exactly when it is in the input and is online or offline users are shown and, with a non-empty search, its lower-cased display name includes the lower-cased search |
| MinimalContactList.FilterIsSubsequence | example/src/App/MinimalContactList/index.tsx:89-93 | the filtered list keeps the users' original order |
| MinimalContactList.FilterAppend | example/src/App/MinimalContactList/index.tsx:89-93 | filtering distributes over concatenation |
| MinimalContactList.FilterIdempotent | example/src/App/MinimalContactList/index.tsx:89-93 | refiltering the filtered list changes nothing |
| MinimalContactList.NoFilterKeepsAll | example/src/App/MinimalContactList/index.tsx:89-93 | with offline users shown and an empty search, every user is listed |
| MinimalContactList.MoveDown | example/src/App/MinimalContactList/index.tsx:62-70 | null on an empty list, 0 from null or the last index, otherwise index+1; always null or in [0, len) |
| MinimalContactList.MoveUp | example/src/App/MinimalContactList/index.tsx:72-80 | null on an empty list, len-1 from null or 0, otherwise index-1; always null or in [0, len) |
| MinimalContactList.UpUndoesDown | example/src/App/MinimalContactList/index.tsx:62-80 | down then up, and up then down, restore an in-range selection |
| MinimalContactList.IterateDownIsRotation | example/src/App/MinimalContactList/index.tsx:62-70 | n down-presses move the selection n places round the list |
| MinimalContactList.FullCycleReturns | example/src/App/MinimalContactList/index.tsx:62-70 | len down-presses return to the starting selection |
| MinimalContactList.EnterActions | example/src/App/MinimalContactList/index.tsx:82-87 | with no selection Enter does nothing; with an in-range selection it selects that filtered user and then navigates to "index" |
| MinimalContactList.UserStatusIcon | example/src/App/MinimalContactList/index.tsx:149-156 | "standby" gives the close icon and "available" the checkmark; every other status gives no icon |
| MinimalContactList.ContactListScreen.constructor | example/src/App/MinimalContactList/index.tsx:17-20 | the screen starts with the provider's user array, offline users hidden, no search text, no selection, and the list filtered |
| MinimalContactList.ContactListScreen.UpdateFilteredUsers | example/src/App/MinimalContactList/index.tsx:89-95 | the list is refiltered from the users, the offline toggle and the search, and the selection becomes null |
| MinimalContactList.ContactListScreen.OnUsersChanged | example/src/App/MinimalContactList/index.tsx:49-51 | a user array of a new identity, even with the same contents, replaces the users, is refiltered and drops the selection; the same array again changes nothing; the search, the toggle, the latch and the log are untouched |
| MinimalContactList.ContactListScreen.OnKeyEvent | example/src/App/MinimalContactList/index.tsx:29-51 | a changed latch dispatches on the key: 7..16 appends, 21 deletes, 20 and 19 move the selection, 66 commits it, 294 toggles offline users, and other keys and null do nothing; a search or toggle change refilters and drops the selection; the selection always stays in range |
| MinimalContactList.DownThenEnterSelectsFirst | example/src/App/MinimalContactList/index.tsx:29-47 | from a fresh screen, down then Enter select the first listed user and navigate to "index", and do nothing when no user is listed |
| MinimalScanList.JsRem | example/src/App/MinmalScanList/index.tsx:46-48 | JavaScript's truncating remainder lies in [0, n) for a non-negative operand and in (-n, 0] for a negative one; it is the operand itself below n and the operand minus n between n and 2n; it equals a % n for a ≥ 0 and −((−a) % n) for a < 0 |
| Cyclic.WrapIsMod | example/src/App/MinmalScanList/index.tsx:46-48 | reducing a non-negative number by whole turns of n gives the remainder of its division by n |
| MinimalScanList.FocusAfterKey | example/src/App/MinmalScanList/index.tsx:42-52 | null, 0 and 66 keys, other keys and an empty list keep the focus; 20 moves to (focus+1) mod n and 19 to (focus-1+n) mod n, always in [0, n) from a focus of at least 0 |
| MinimalScanList.DownThenUpRestores | example/src/App/MinmalScanList/index.tsx:45-48 | down then up, and up then down, restore an in-range focus |
| MinimalScanList.PressDownIsRotation | example/src/App/MinmalScanList/index.tsx:45-46 | k down-presses move the focus k places round the list |
| MinimalScanList.FullCycleReturns | example/src/App/MinmalScanList/index.tsx:45-46 | n down-presses on n channels return to the start |
| MinimalScanList.PressActions | example/src/App/MinmalScanList/index.tsx:54-67 | noDisconnect gives no call; a connected channel gets exactly one disconnect, a disconnected one exactly one connect; any other status gives no call |
| MinimalScanList.ScanIcon | example/src/App/MinmalScanList/index.tsx:91-112 | the radio-button-on icon when connected, radio-button-off when disconnected, help-circle-outline otherwise; grey exactly when noDisconnect or the status is unknown, green otherwise |
| MinimalScanList.ScanListScreen.constructor | example/src/App/MinmalScanList/index.tsx:31 | the focus starts at 0, and the key effect runs once with the latched key |
| MinimalScanList.ScanListScreen.OnKeyEvent | example/src/App/MinmalScanList/index.tsx:42-52 | a changed latch moves the focus as FocusAfterKey says, and the same value again changes nothing |
| MinimalScanList.ScanListScreen.OnChannelsChanged | example/src/App/MinmalScanList/index.tsx:42-52 | a change in the number of channels reruns the effect with the still-latched key |
| MinimalScanList.ScanListScreen.OnFocus | example/src/App/MinmalScanList/index.tsx:34-40 | focusing the screen leaves the bar as (" ", "", " ") |
| MinimalScanList.ScanListScreen.Press | example/src/App/MinmalScanList/index.tsx:54-67 | a tap appends exactly the calls of PressActions |
| MinimalChannelScreen.ChannelLabel | example/src/App/MinimalChannelScreen/index.tsx:102 | the label is the display name when non-empty, else the name, and "" when no contact is selected |
| MinimalChannelScreen.InitialDetails | example/src/App/MinimalChannelScreen/index.tsx:46-55 | the screen starts with the label, "mic-outline", "#ef5e14" and empty talker and alert texts |
| MinimalChannelScreen.UpdateDetails | example/src/App/MinimalChannelScreen/index.tsx:98-122 | alert is "Disconnected" exactly when the selected contact is disconnected, and a pending incoming alert overrides it with "Emergency"; action is "mic" exactly with an outgoing voice message; the colour is always "#ef5e14"; an incoming message makes its talker current and the previous current last; without one, current is "" and last is kept |
| MinimalChannelScreen.TalkerHistory | example/src/App/MinimalChannelScreen/index.tsx:107-108 | after two talkers a and b, current is b and last is a |
| MinimalChannelScreen.QuietUpdateIdempotent | example/src/App/MinimalChannelScreen/index.tsx:98-110 | without an incoming voice message, refreshing the details twice equals refreshing them once |
| MinimalChannelScreen.FallbackActions | example/src/App/MinimalChannelScreen/index.tsx:92-96 | a selection happens exactly when no contact is selected and some channel is known, and it selects channels[1] |
| MinimalChannelScreen.SingleChannelFallbackSelectsNothing | example/src/App/MinimalChannelScreen/index.tsx:92-96 | with exactly one channel the fallback selects undefined |
| MinimalChannelScreen.ConnectionEffect | example/src/App/MinimalChannelScreen/index.tsx:75-81 | it navigates to "login" exactly when not connected, not connecting and nothing is selected; that navigation comes first, and the fallback selection comes last |
| MinimalChannelScreen.NoRedirectOnceConnecting | example/src/App/MinimalChannelScreen/index.tsx:75-81 | after a connect-started or connect-succeeded event the screen never redirects to login |
| MinimalChannelScreen.KeyCommandFor | example/src/App/MinimalChannelScreen/index.tsx:124-137 | null cancels the countdown, 295 starts it, 7..16 open the contact list, 294 opens the scan list, and anything else is ignored |
| MinimalChannelScreen.CountAlertsAppend | example/src/App/MinimalChannelScreen/index.tsx:147 | the alerts sent by two runs of calls add up |
| MinimalChannelScreen.NoAlertsCounted | example/src/App/MinimalChannelScreen/index.tsx:147 | a log without alert calls counts no alerts |
| MinimalChannelScreen.ChannelScreen.constructor | example/src/App/MinimalChannelScreen/index.tsx:46-61 | the screen starts with the initial details, dialog (3, hidden), no interval and an empty log |
| MinimalChannelScreen.ChannelScreen.StartAlertCountdown | example/src/App/MinimalChannelScreen/index.tsx:139-154 | shows the dialog at 3 and starts a new interval that captures the stored interval and the first channel of the current list; the new interval becomes the stored one and the next interval id moves on |
| MinimalChannelScreen.ChannelScreen.ClearAlertInterval | example/src/App/MinimalChannelScreen/index.tsx:156-161 | hides the dialog and stops the stored interval, if there is one |
| MinimalChannelScreen.ChannelScreen.Tick | example/src/App/MinimalChannelScreen/index.tsx:143-151 | a live interval counts down; when it reaches 0 it sends exactly one alert to the first channel its closure captured, hides the dialog, and stops itself and the interval it captured; a stopped interval does nothing; the number of alerts sent always equals the number of intervals that have finished |
| MinimalChannelScreen.ChannelScreen.CountDown | example/src/App/MinimalChannelScreen/index.tsx:144-145 | a live interval above 1 counts down by one, and the dialog shows the new count |
| MinimalChannelScreen.ChannelScreen.SendAndStop | example/src/App/MinimalChannelScreen/index.tsx:146-150 | at the last second exactly one alert goes to the first channel the interval's closure captured, the dialog is hidden at 0, and the interval and the one its closure captured both stop |
| MinimalChannelScreen.ChannelScreen.OnKeyEvent | example/src/App/MinimalChannelScreen/index.tsx:88-90 | a changed latch runs the command KeyCommandFor gives it: cancel (hide the dialog, stop the stored interval), start the countdown, navigate to "list-contacts" or "list-scan", or nothing; each branch states the whole new state, and no branch sends an alert |
| MinimalChannelScreen.ChannelScreen.OnConnectionChange | example/src/App/MinimalChannelScreen/index.tsx:75-81 | appends exactly ConnectionEffect's calls and changes nothing else: no interval, dialog, stored interval or sent alert |
| MinimalChannelScreen.ChannelScreen.OnMessagesChanged | example/src/App/MinimalChannelScreen/index.tsx:83-86 | updates the details as UpdateDetails says and appends the fallback selection, and changes nothing else |
| MinimalChannelScreen.ChannelScreen.OnChannelsChanged | example/src/App/MinimalChannelScreen/index.tsx:42 | only the channel list changes; running countdowns keep the channel they captured, and the alert count stays consistent |
| MinimalChannelScreen.ChannelChangeKeepsAlertTarget | example/src/App/MinimalChannelScreen/index.tsx:139-151 | a channel list change during the countdown does not redirect the alert: it goes to the first channel of the list the key press saw |
| MinimalChannelScreen.HoldingAlertKeySendsOneAlert | example/src/App/MinimalChannelScreen/index.tsx:139-154 | holding 295 through the countdown sends exactly one alert to the first channel and leaves no interval running |
| MinimalChannelScreen.ReleasingAlertKeyCancels | example/src/App/MinimalChannelScreen/index.tsx:124-127 | releasing 295 before the countdown ends hides the dialog, and no alert is ever sent |
| MinimalChannelScreen.OtherKeyDoesNotCancel | example/src/App/MinimalChannelScreen/index.tsx:124-154 | a digit pressed during the countdown opens the contact list, and the alert is still sent |
| MinimalLoginScreen.CountsAppend | example/src/App/MinimalLoginScreen/index.tsx:57-64 | connect and disconnect counts add up over concatenated logs |
| MinimalLoginScreen.ConnectNow | example/src/App/MinimalLoginScreen/index.tsx:57-60 | invalid credentials make no call; valid ones disconnect immediately |
| MinimalLoginScreen.ConnectedActions | example/src/App/MinimalLoginScreen/index.tsx:33-40 | once connected, the navigation is reset to the single route "index", and otherwise nothing happens |
| MinimalLoginScreen.LoginScreen.constructor | example/src/App/MinimalLoginScreen/index.tsx:20-24 | the credentials start as the fixed username, password and network |
| MinimalLoginScreen.LoginScreen.HandleInputChange | example/src/App/MinimalLoginScreen/index.tsx:48-50 | only the named field changes |
| MinimalLoginScreen.LoginScreen.HandleConnect | example/src/App/MinimalLoginScreen/index.tsx:57-64 | with valid credentials: disconnect now, and queue a connect with these credentials; every connect follows its own disconnect |
| MinimalLoginScreen.LoginScreen.ConnectTimerFires | example/src/App/MinimalLoginScreen/index.tsx:61-63 | the oldest queued connect is issued with the credentials it captured |
| MinimalLoginScreen.LoginScreen.OnKeyEvent | example/src/App/MinimalLoginScreen/index.tsx:42-46 | only a change of the latch to 295 runs handleConnect |
| MinimalLoginScreen.LoginScreen.OnConnectionChange | example/src/App/MinimalLoginScreen/index.tsx:33-40 | appends exactly ConnectedActions' calls |
| MinimalLoginScreen.DisconnectThenConnect | example/src/App/MinimalLoginScreen/index.tsx:57-64 | 295 on the initial credentials calls disconnect and then connect with those credentials, even if a field is edited before the timeout |
| MinimalLoginScreen.InvalidCredentialsMakeNoCall | example/src/App/MinimalLoginScreen/index.tsx:52-64 | with a field cleared, 295 makes no SDK call and queues nothing |
| ConnectionModal.ConnectionModalView.constructor | example/src/components/modal/ConnectionModal.tsx:16-20 | the credentials start as the fixed username, password and network |
| ConnectionModal.ConnectionModalView.HandleInputChange | example/src/components/modal/ConnectionModal.tsx:37-39 | only the named field changes |
| ConnectionModal.ConnectionModalView.OnKeyEvent | example/src/components/modal/ConnectionModal.tsx:31-35 | a change of the latch to 295 passes the current credentials to onConnect, and nothing else does |
| ConnectionModal.ConnectsWithInvalidCredentials | example/src/components/modal/ConnectionModal.tsx:41-49 | unlike the login screen, the modal passes on credentials that are not valid |
| ContextMenuButton.Optional | example/src/shared/ContextMenuButton/index.tsx:63-74 | a conditional child renders its option exactly when its flag holds |
| ContextMenuButton.Menu | example/src/shared/ContextMenuButton/index.tsx:147-150 | "Show History" is always the last option and follows at least one other |
| ContextMenuButton.MenuOffersIffShown | example/src/shared/ContextMenuButton/index.tsx:34-150 | an option is offered exactly when its flag, with its default, allows it: send options default to shown, emergency and end call to hidden, undefined group flags hide their options; exactly one of Mute and Unmute, and Stop or Start Emergency according to isInOutgoingEmergency |
| ContextMenuButton.NoGroupFlagsNoGroupOptions | example/src/shared/ContextMenuButton/index.tsx:123-146 | with every group-conversation flag undefined, the menu offers none of the group options |
| ContextMenuButton.JoinInOrder | example/src/shared/ContextMenuButton/index.tsx:63-150 | two ordered runs of options, the first ranked below the second, join into one ordered run |
| ContextMenuButton.SendOptionsInOrder | example/src/shared/ContextMenuButton/index.tsx:63-94 | the send options come in the order image, location, text, alert |
| ContextMenuButton.CallOptionsInOrder | example/src/shared/ContextMenuButton/index.tsx:103-122 | the emergency option comes before end call |
| ContextMenuButton.GroupOptionsInOrder | example/src/shared/ContextMenuButton/index.tsx:123-146 | the group options come in the order add users, leave, rename |
| ContextMenuButton.MenuInSlotOrder | example/src/shared/ContextMenuButton/index.tsx:63-150 | the options come in the fixed order image, location, text, alert, mute, emergency, end call, add users, leave, rename, history, with none repeated |
| ContextMenuButton.DefaultMenu | example/src/shared/ContextMenuButton/index.tsx:34-45 | with every prop omitted the menu is image, location, text, alert, mute or unmute, history |
| ContextMenuButton.Effect | example/src/shared/ContextMenuButton/index.tsx:63-150 | image, location, mute and unmute call the SDK on the row's own contact; text, alert, end call, the group options and history go to the row's callbacks |
| ContextMenuButton.MuteRowToggles | example/src/shared/ContextMenuButton/index.tsx:95-102 | the menu offers an option that unmutes a muted contact and mutes an unmuted one, and none that does the opposite |
| ContextMenuButton.TextInjective | example/src/shared/ContextMenuButton/index.tsx:63-150 | no two options carry the same text |
| ContextMenuButton.LabelShownIff | example/src/shared/ContextMenuButton/index.tsx:63-150 | an option's text is on the menu exactly when the option is shown |
| ContextMenuButton.MenuLabels | example/src/shared/ContextMenuButton/index.tsx:95-116 | the menu reads "Unmute" exactly for a muted contact and "Mute" otherwise, and "Stop Emergency" exactly when the emergency option is shown during an outgoing emergency, "Start Emergency" when it is shown outside one |
| ContextMenuButton.EmergencyRowToggles | example/src/shared/ContextMenuButton/index.tsx:103-116 | an offered emergency option stops the emergency exactly when the contact is in an outgoing emergency, and it is offered only when showEmergencyOption is true |
| ChannelsScreen.ConsoleValue | example/src/HomeTabs/ChannelsScreen/index.tsx:168-186 | `consoleSettings?.flag` is undefined exactly when the settings are undefined |
| ChannelsScreen.JsAnd | example/src/HomeTabs/ChannelsScreen/index.tsx:168-186 | `a && b` is truthy exactly when both operands are, yields a when a is falsy and b otherwise |
| ChannelsScreen.SwitchActions | example/src/HomeTabs/ChannelsScreen/index.tsx:66-72 | exactly one call: disconnect when connected, connect when connecting or disconnected |
| ChannelsScreen.SwitchAgreesWithScanListPress | example/src/HomeTabs/ChannelsScreen/index.tsx:66-72 | on a channel that may be disconnected and is not connecting, the switch makes the same call as the scan list's press; on a connecting one the switch connects and the press does nothing |
| ChannelsScreen.CanEndCall | example/src/HomeTabs/ChannelsScreen/index.tsx:105-111 | false on a plain channel; on a dispatch channel, undefined while the console settings are, and truthy exactly when the console lets non-dispatchers end calls and the current call is Active |
| ChannelsScreen.DispatchCallStatusOf | example/src/HomeTabs/ChannelsScreen/index.tsx:119-124 | null on a plain channel, undefined without a call, status and dispatcher when Active, the raw status otherwise |
| ChannelsScreen.CallStatusLine | example/src/HomeTabs/ChannelsScreen/index.tsx:162-164 | the line is shown exactly when a dispatch channel has a current call, and then reads "Call Status: " and the status's name, followed by " with " and the dispatcher exactly when the call is Active |
| ChannelsScreen.CallStatusLineMentions | example/src/HomeTabs/ChannelsScreen/index.tsx:162-164 | a shown line contains "Call Status: " and the status's name, and the dispatcher's name when the call is Active |
| ChannelsScreen.StatusLine | example/src/HomeTabs/ChannelsScreen/index.tsx:146-151 | "Users Online: n" exactly when connected, "Connecting" exactly when connecting, "Disconnected" exactly when disconnected |
| ChannelsScreen.StatusLineShowsUserCount | example/src/HomeTabs/ChannelsScreen/index.tsx:146-147 | two connected channels show the same status line exactly when they have the same number of users online |
| ChannelsScreen.SameAsChannel | example/src/HomeTabs/ChannelsScreen/index.tsx:81-98 | truthy exactly when the candidate channel is defined and the same contact as the row's channel, and undefined when the candidate is |
| ChannelsScreen.MenuPropsFor | example/src/HomeTabs/ChannelsScreen/index.tsx:167-194 | the menu acts on the row's channel and gets no group-conversation flags |
| ChannelsScreen.SendImageShownIff | example/src/HomeTabs/ChannelsScreen/index.tsx:169-171 | Send Image is offered exactly when the channel is connected and the console allows images, or the console settings are undefined |
| ChannelsScreen.SendMessageOptionsShownIff | example/src/HomeTabs/ChannelsScreen/index.tsx:172-186 | Send Alert, Send Text and Send Location are each offered exactly when the channel is connected and both the console's flag and the channel's own option allow it, or the console settings are undefined |
| ChannelsScreen.NotConnectedOffersNoSending | example/src/HomeTabs/ChannelsScreen/index.tsx:167-186 | a channel that is not connected offers none of the four send options |
| ChannelsScreen.EmergencyOptionOnEmergencyChannel | example/src/HomeTabs/ChannelsScreen/index.tsx:187-188 | an emergency option is offered exactly on the SDK's emergency channel, and it is Stop exactly when the outgoing emergency is on this channel |
| ChannelsScreen.EndCallShownIff | example/src/HomeTabs/ChannelsScreen/index.tsx:189 | End Call is offered exactly when canEndCall is truthy |
| ChannelsScreen.NoGroupOptionsOnChannelRow | example/src/HomeTabs/ChannelsScreen/index.tsx:167-194 | no group-conversation option is ever offered on a channel row, since the row passes no group flags |
| ChannelsScreen.EndCallActions | example/src/HomeTabs/ChannelsScreen/index.tsx:113-117 | endCall ends the dispatch call of a dispatch channel, and does nothing on a plain one |
| ChannelsScreen.PressRowActions | example/src/HomeTabs/ChannelsScreen/index.tsx:132 | a tap selects the row's channel, which then counts as the selected row |
| ChannelsScreen.AtMostOneSelectedRow | example/src/HomeTabs/ChannelsScreen/index.tsx:250-252 | in a list with distinct channel names, at most one row is highlighted |
| ChannelsScreen.Row | example/src/HomeTabs/ChannelsScreen/index.tsx:130-201 | the name is bold exactly when the row is selected; the switch is on exactly when connected; the talk button is disabled exactly when not connected; the menu ends with "Show History" |
| ChannelsScreen.SwitchAsksForOpposite | example/src/HomeTabs/ChannelsScreen/index.tsx:195-199 | flipping the switch asks for a disconnect exactly when the switch shows connected |

## Left out

- The SDK itself is a foreign library. Its calls appear only as entries in a screen's log, and its events appear as method calls. These include connect, disconnect, sendAlert, connectChannel, mute, setSelectedContact, endDispatchCall and getHistory.
- Rendering is left out: styles, lists, icons other than their names and colours, and the memo comparator of a channel row. They are presentation only.
- Sound playback on an incoming alert is native audio.
- The context menu's image download and the history dialog's `getHistory` promise are network and asynchronous work. Send Image is modelled as a call on the row's contact, without the image bytes.
- The dialogs' visibility state in the channels tab is left out: the text, alert, history, connect and status dialogs.
- The 5 s timeout that clears the last incoming alert message is real time. The pending alert is a parameter of `OnMessagesChanged` instead.
- The clock is left out. The alert's time text is the parameter `now` of `Tick`.
- The login screen's 100 ms delay is a queue of pending connects. Other events may interleave before `ConnectTimerFires`, but no duration is modelled.
- `toLowerCase` covers ASCII letters only. Other characters are left as they are.
- The SDK's `isSameContact` is not part of this model. Two contacts are taken as the same when they are of the same kind and have the same name.
- The talking, incoming-emergency and outgoing-emergency text lines of a channel row are not modelled. They are text shown under conditions the model does not otherwise use.
- `MinimalChannelScreen.ChannelScreen.OnChannelsChanged` models only the new channel list. The alert of a running countdown goes to the first channel of the list its `handleSendAlert` closure saw, which the countdown records when it starts. The model records the channel value, not the array: an SDK that mutated that array in place would be seen by the closure, and the model does not capture that.
- `MinimalContactList.ContactListScreen.OnUsersChanged`: an array is identified by a number the caller passes. An SDK that mutates its `users` array in place and hands the same array back does not rerun the filter effect in the source; in the model that is the same identity passed again, which also changes nothing, but the new contents are not stored.
- The screens call `setNavigation` and `setNavigationItem`, which the navigation bar context does not provide. Only the context's own `setNav` and `resetNav` are modelled.
- The Android bridge emits a single "KeyEvent" event, while the key context listens for "KeyEventDown" and "KeyEventUp". The model takes the context's two events as given.
- The older example/src/MinimalChannelScreen/index.tsx, the recents screen, the user/channel group context, the navigator and the presentational components are not part of this model.
- The SDK's strings for the dispatch call statuses are a parameter (`statusName`) of `ChannelsScreen.CallStatusLine`.
- `handleInputChange` accepts any field name in the source. The model restricts it to the three credential fields.
- The connection modal's focus and unfocus console logging is left out.
- `MinimalContactList.ContactListScreen.constructor` gives the state after the first filter effect. It does not give the unfiltered list that `useState(users)` holds before that effect runs.
- The channel screen's detail `type` is `""` when nothing is selected. The model uses `None` for it.
- `ContextMenuButton.Effect` covers only the callbacks that exist in the source. A callback such as `onEndCallSelected` that a caller omits does nothing, and the model does not capture this.
