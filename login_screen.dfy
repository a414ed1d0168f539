/**
 * The login screen: it edits a credentials record field by field, and on
 * key 295 with valid credentials disconnects and, 100 ms later, connects
 * with the credentials it had at that moment. Once connected it resets the
 * navigation to the main screen.
 */
module MinimalLoginScreen {
  import opened Sdk

  const KeyConnect := 295

  function CountConnects(log: seq<Action>): nat {
    if log == [] then 0 else (if log[0].Connect? then 1 else 0) + CountConnects(log[1..])
  }

  function CountDisconnects(log: seq<Action>): nat {
    if log == [] then 0 else (if log[0].Disconnect? then 1 else 0) + CountDisconnects(log[1..])
  }

  lemma {:induction false} CountsAppend(a: seq<Action>, b: seq<Action>)
    ensures CountConnects(a + b) == CountConnects(a) + CountConnects(b)
    ensures CountDisconnects(a + b) == CountDisconnects(a) + CountDisconnects(b)
    decreases |a|
  {
    if a == [] {
      assert a + b == b;
    } else {
      assert (a + b)[0] == a[0] && (a + b)[1..] == a[1..] + b;
      CountsAppend(a[1..], b);
    }
  }

  /**
   * handleConnect's calls, with the delayed connect kept apart: nothing for
   * invalid credentials, otherwise a disconnect now and the connect later.
   */
  function ConnectNow(credentials: Credentials): (r: seq<Action>)
    ensures r != [] <==> credentials.IsValid()
    ensures r != [] ==> r == [Disconnect]
  {
    if credentials.IsValid() then [Disconnect] else []
  }

  /** The navigation effect of the connection state: reset to the single route "index" once connected. */
  function ConnectedActions(isConnected: bool): (r: seq<Action>)
    ensures r != [] <==> isConnected
    ensures r != [] ==> r == [ResetNavigation(["index"])]
  {
    if isConnected then [ResetNavigation(["index"])] else []
  }

  class LoginScreen {
    var credentials: Credentials
    /** Connect calls waiting for their 100 ms timeout, oldest first. */
    var pendingConnects: seq<Credentials>
    /** The key value the key effect last ran with. */
    var keyEvent: Option<int>
    var log: seq<Action>

    /** Every connect, issued or pending, follows its own disconnect. */
    ghost predicate Valid()
      reads this
    {
      CountDisconnects(log) == CountConnects(log) + |pendingConnects|
    }

    constructor ()
      ensures Valid()
      ensures credentials == InitialCredentials && pendingConnects == [] && keyEvent == None && log == []
    {
      credentials := InitialCredentials;
      pendingConnects := [];
      keyEvent := None;
      log := [];
    }

    /** handleInputChange: only the named field changes. */
    method HandleInputChange(field: CredentialField, value: string)
      requires Valid()
      modifies this
      ensures Valid()
      ensures credentials == old(credentials).With(field, value)
      ensures pendingConnects == old(pendingConnects) && keyEvent == old(keyEvent) && log == old(log)
    {
      credentials := credentials.With(field, value);
    }

    /** handleConnect: with valid credentials, disconnect now and schedule the connect with these credentials. */
    method HandleConnect()
      requires Valid()
      modifies this
      ensures Valid()
      ensures log == old(log) + ConnectNow(credentials)
      ensures pendingConnects == if credentials.IsValid() then old(pendingConnects) + [credentials] else old(pendingConnects)
      ensures credentials == old(credentials) && keyEvent == old(keyEvent)
    {
      if !credentials.IsValid() {
        return;
      }
      CountsAppend(log, [Disconnect]);
      log := log + [Disconnect];
      pendingConnects := pendingConnects + [credentials];
    }

    /** The oldest pending 100 ms timeout fires and connects with the credentials it captured. */
    method ConnectTimerFires()
      requires Valid()
      modifies this
      ensures Valid()
      ensures old(pendingConnects) == [] ==> log == old(log) && pendingConnects == []
      ensures old(pendingConnects) != [] ==>
                log == old(log) + [Connect(old(pendingConnects)[0])] && pendingConnects == old(pendingConnects)[1..]
      ensures credentials == old(credentials) && keyEvent == old(keyEvent)
    {
      if pendingConnects != [] {
        CountsAppend(log, [Connect(pendingConnects[0])]);
        log := log + [Connect(pendingConnects[0])];
        pendingConnects := pendingConnects[1..];
      }
    }

    /** The key effect: only a change of the latch to 295 connects. */
    method OnKeyEvent(key: Option<int>)
      requires Valid()
      modifies this
      ensures Valid()
      ensures keyEvent == key && credentials == old(credentials)
      ensures key != old(keyEvent) && key == Some(KeyConnect) ==>
                log == old(log) + ConnectNow(credentials)
                && pendingConnects == if credentials.IsValid() then old(pendingConnects) + [credentials] else old(pendingConnects)
      ensures key == old(keyEvent) || key != Some(KeyConnect) ==>
                log == old(log) && pendingConnects == old(pendingConnects)
    {
      if key == keyEvent {
        return;
      }
      keyEvent := key;
      if key == Some(KeyConnect) {
        HandleConnect();
      }
    }

    /** The effect on the connection state. */
    method OnConnectionChange(isConnected: bool)
      requires Valid()
      modifies this
      ensures Valid()
      ensures log == old(log) + ConnectedActions(isConnected)
      ensures credentials == old(credentials) && pendingConnects == old(pendingConnects) && keyEvent == old(keyEvent)
    {
      var effect := ConnectedActions(isConnected);
      CountsAppend(log, effect);
      log := log + effect;
    }
  }

  /**
   * Pressing 295 with the initial credentials disconnects first and connects
   * with exactly those credentials once the timeout fires, even if a field
   * was edited in between.
   */
  method DisconnectThenConnect(edit: string) returns (calls: seq<Action>)
    ensures calls == [Disconnect, Connect(InitialCredentials)]
  {
    var screen := new LoginScreen();
    screen.OnKeyEvent(Some(KeyConnect));
    screen.HandleInputChange(Username, edit);
    screen.ConnectTimerFires();
    calls := screen.log;
  }

  /** With a field cleared, pressing 295 makes no SDK call at all. */
  method InvalidCredentialsMakeNoCall(field: CredentialField) returns (calls: seq<Action>, pending: nat)
    ensures calls == [] && pending == 0
  {
    var screen := new LoginScreen();
    screen.HandleInputChange(field, "");
    ClearingFieldInvalidates(InitialCredentials, field);
    screen.OnKeyEvent(Some(KeyConnect));
    screen.ConnectTimerFires();
    calls, pending := screen.log, |screen.pendingConnects|;
  }
}
