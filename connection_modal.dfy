/**
 * The connection modal: the same credentials record as the login screen,
 * but key 295 hands the current fields to its onConnect callback without
 * checking that they are valid.
 */
module ConnectionModal {
  import opened Sdk

  const KeyConnect := 295

  class ConnectionModalView {
    var credentials: Credentials
    /** The key value the key effect last ran with. */
    var keyEvent: Option<int>
    /** The onConnect callbacks made, in order. */
    var log: seq<Action>

    constructor ()
      ensures credentials == InitialCredentials && keyEvent == None && log == []
    {
      credentials := InitialCredentials;
      keyEvent := None;
      log := [];
    }

    /** handleInputChange: only the named field changes. */
    method HandleInputChange(field: CredentialField, value: string)
      modifies this
      ensures credentials == old(credentials).With(field, value)
      ensures keyEvent == old(keyEvent) && log == old(log)
    {
      credentials := credentials.With(field, value);
    }

    /** The key effect: a change of the latch to 295 calls onConnect(username, password, network). */
    method OnKeyEvent(key: Option<int>)
      modifies this
      ensures keyEvent == key && credentials == old(credentials)
      ensures log == if key != old(keyEvent) && key == Some(KeyConnect)
                     then old(log) + [ConnectRequested(credentials)]
                     else old(log)
    {
      if key == keyEvent {
        return;
      }
      keyEvent := key;
      if key == Some(KeyConnect) {
        log := log + [ConnectRequested(credentials)];
      }
    }
  }

  /** Unlike the login screen, the modal passes on credentials that are not valid. */
  method ConnectsWithInvalidCredentials(field: CredentialField) returns (calls: seq<Action>, valid: bool)
    ensures |calls| == 1 && calls[0].ConnectRequested?
    ensures calls[0].credentials.Get(field) == ""
    ensures !valid && valid == calls[0].credentials.IsValid()
  {
    var modal := new ConnectionModalView();
    modal.HandleInputChange(field, "");
    modal.OnKeyEvent(Some(KeyConnect));
    calls := modal.log;
    ClearingFieldInvalidates(InitialCredentials, field);
    valid := calls[0].credentials.IsValid();
  }
}
