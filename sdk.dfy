/**
 * The view-state entities the app mirrors from the push-to-talk SDK, and the
 * log of SDK and navigation calls the screens issue. The SDK itself is not
 * part of this model: each call it would receive becomes one `Action` appended
 * to a screen's log, so that order and multiplicity can be stated.
 */
module Sdk {

  datatype Option<+T> = None | Some(value: T)

  /** Connection state of a channel (the SDK's ZelloChannelConnectionStatus). */
  datatype ChannelConnectionStatus = Connected | Connecting | Disconnected

  /** Per-channel options the channel's owner configured. */
  datatype ChannelOptions = ChannelOptions(
    noDisconnect: bool,
    allowAlertMessages: bool,
    allowTextMessages: bool,
    allowLocationMessages: bool)

  datatype DispatchCallStatus = Pending | Active | Ended

  datatype DispatchCall = DispatchCall(status: DispatchCallStatus, dispatcher: string)

  /** A plain channel, or a dispatch channel with its current call (which may be undefined). */
  datatype ChannelKind = PlainChannel | DispatchChannel(currentCall: Option<DispatchCall>)

  datatype Channel = Channel(
    name: string,
    connectionStatus: ChannelConnectionStatus,
    options: ChannelOptions,
    usersOnline: nat,
    isMuted: bool,
    kind: ChannelKind)

  /** A user of the network; `status` is the SDK's account status string ("available", "standby", ...). */
  datatype User = User(name: string, displayName: string, status: string, isMuted: bool)

  datatype ContactType = UserType | ChannelType

  /** What the SDK calls a contact: a user or a channel. */
  datatype Contact = UserContact(user: User) | ChannelContact(channel: Channel) {

    function Name(): string {
      match this
      case UserContact(u) => u.name
      case ChannelContact(c) => c.name
    }

    /** Only users carry a display name; on a channel the property is undefined. */
    function DisplayName(): Option<string> {
      match this
      case UserContact(u) => Some(u.displayName)
      case ChannelContact(_) => None
    }

    /** Only channels carry a connection status. */
    function ConnectionStatus(): Option<ChannelConnectionStatus> {
      match this
      case UserContact(_) => None
      case ChannelContact(c) => Some(c.connectionStatus)
    }

    function IsMuted(): bool {
      match this
      case UserContact(u) => u.isMuted
      case ChannelContact(c) => c.isMuted
    }

    function Type(): ContactType {
      if UserContact? then UserType else ChannelType
    }
  }

  /**
   * The SDK's isSameContact, which this model does not see: two contacts are
   * taken to be the same when they are of the same kind and have the same name.
   */
  predicate SameContact(a: Contact, b: Contact) {
    a.Type() == b.Type() && a.Name() == b.Name()
  }

  datatype CredentialField = Username | Password | Network

  /**
   * The record the SDK's connect call takes. The login screen and the
   * connection modal each keep one and edit it one field at a time.
   */
  datatype Credentials = Credentials(username: string, password: string, network: string) {

    function Get(field: CredentialField): string {
      match field
      case Username => username
      case Password => password
      case Network => network
    }

    /** handleInputChange: the record with one field replaced. */
    function With(field: CredentialField, value: string): (r: Credentials)
      ensures r.Get(field) == value
      ensures forall other :: other != field ==> r.Get(other) == Get(other)
    {
      match field
      case Username => this.(username := value)
      case Password => this.(password := value)
      case Network => this.(network := value)
    }

    /** isValidCredentials: every field is a non-empty string (a truthy value in the source). */
    predicate IsValid()
    {
      username != "" && password != "" && network != ""
    }
  }

  /** The credentials both connect screens start with. */
  const InitialCredentials := Credentials("PA-25", "MwNLFn4s", "chaverimofnepa")

  /** Validity is exactly "no field is empty", whichever field is looked at. */
  lemma ValidIffNoEmptyField(c: Credentials)
    ensures c.IsValid() <==> forall f: CredentialField :: c.Get(f) != ""
  {
    if !c.IsValid() {
      var f: CredentialField :| c.Get(f) == "" by {
        if c.username == "" { assert c.Get(Username) == ""; }
        else if c.password == "" { assert c.Get(Password) == ""; }
        else { assert c.Get(Network) == ""; }
      }
    }
  }

  /** Clearing any one field, through handleInputChange, makes the credentials invalid. */
  lemma ClearingFieldInvalidates(c: Credentials, f: CredentialField)
    ensures !c.With(f, "").IsValid()
  {
    ValidIffNoEmptyField(c.With(f, ""));
  }

  /** One call into the SDK or the navigator, in the order the screen issues them. */
  datatype Action =
    | Navigate(route: string)
    | ResetNavigation(routes: seq<string>)
    | SelectContact(target: Option<Contact>)   // None: setSelectedContact(undefined)
    | ConnectChannel(channel: Channel)
    | DisconnectChannel(channel: Channel)
    | SendAlert(recipient: Option<Channel>, message: string)
    | Connect(credentials: Credentials)
    | Disconnect
    | ConnectRequested(credentials: Credentials)  // a connection modal's onConnect callback
    | EndDispatchCall(channel: Channel)
}
