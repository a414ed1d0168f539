/**
 * The connection-state provider: four SDK events each write the three flags
 * isConnected, isConnecting and isDisconnected.
 */
module ConnectionContext {

  datatype ConnectionEvent = ConnectFailed | ConnectStarted | ConnectSucceeded | Disconnected

  datatype Flags = Flags(isConnected: bool, isConnecting: bool, isDisconnected: bool)

  /** The three useState(false) initial values. */
  const InitialFlags := Flags(false, false, false)

  predicate ExactlyOne(f: Flags) {
    (if f.isConnected then 1 else 0) + (if f.isConnecting then 1 else 0) + (if f.isDisconnected then 1 else 0) == 1
  }

  /**
   * The flags each listener writes. Every event leaves exactly one flag set;
   * a failed connect and a disconnect are indistinguishable afterwards.
   */
  function AfterEvent(e: ConnectionEvent): (r: Flags)
    ensures ExactlyOne(r)
    ensures r.isConnected <==> e == ConnectSucceeded
    ensures r.isConnecting <==> e == ConnectStarted
    ensures r.isDisconnected <==> (e == ConnectFailed || e == Disconnected)
  {
    match e
    case ConnectFailed => Flags(isConnected := false, isConnecting := false, isDisconnected := true)
    case ConnectStarted => Flags(isConnected := false, isConnecting := true, isDisconnected := false)
    case ConnectSucceeded => Flags(isConnected := true, isConnecting := false, isDisconnected := false)
    case Disconnected => Flags(isConnected := false, isConnecting := false, isDisconnected := true)
  }

  /** The flags after the listeners have seen `events`, in order, starting from `f`. */
  function Replay(f: Flags, events: seq<ConnectionEvent>): Flags
    decreases |events|
  {
    if events == [] then f else Replay(AfterEvent(events[0]), events[1..])
  }

  lemma {:induction false} ReplaySnoc(f: Flags, events: seq<ConnectionEvent>, e: ConnectionEvent)
    ensures Replay(f, events + [e]) == AfterEvent(e)
    decreases |events|
  {
    if events != [] {
      assert (events + [e])[1..] == events[1..] + [e];
      ReplaySnoc(AfterEvent(events[0]), events[1..], e);
    }
  }

  /** After at least one event the state is that of the last event alone, so exactly one flag is set. */
  lemma {:induction false} ReplayDependsOnLast(f: Flags, events: seq<ConnectionEvent>)
    requires events != []
    ensures Replay(f, events) == AfterEvent(events[|events| - 1])
    ensures ExactlyOne(Replay(f, events))
  {
    assert events == events[..|events| - 1] + [events[|events| - 1]];
    ReplaySnoc(f, events[..|events| - 1], events[|events| - 1]);
  }

  class ConnectionContextProvider {
    var isConnected: bool
    var isConnecting: bool
    var isDisconnected: bool
    ghost var events: seq<ConnectionEvent>

    ghost predicate Valid()
      reads this
    {
      Flags(isConnected, isConnecting, isDisconnected) == Replay(InitialFlags, events)
    }

    constructor ()
      ensures Valid() && events == []
      ensures !isConnected && !isConnecting && !isDisconnected
    {
      isConnected, isConnecting, isDisconnected := false, false, false;
      events := [];
    }

    method OnConnectFailed()
      requires Valid()
      modifies this
      ensures Valid() && events == old(events) + [ConnectFailed]
      ensures !isConnecting && !isConnected && isDisconnected
    {
      ReplaySnoc(InitialFlags, events, ConnectFailed);
      isConnecting := false;
      isConnected := false;
      isDisconnected := true;
      events := events + [ConnectFailed];
    }

    method OnConnectStarted()
      requires Valid()
      modifies this
      ensures Valid() && events == old(events) + [ConnectStarted]
      ensures isConnecting && !isConnected && !isDisconnected
    {
      ReplaySnoc(InitialFlags, events, ConnectStarted);
      isConnecting := true;
      isConnected := false;
      isDisconnected := false;
      events := events + [ConnectStarted];
    }

    method OnConnectSucceeded()
      requires Valid()
      modifies this
      ensures Valid() && events == old(events) + [ConnectSucceeded]
      ensures !isConnecting && isConnected && !isDisconnected
    {
      ReplaySnoc(InitialFlags, events, ConnectSucceeded);
      isConnecting := false;
      isConnected := true;
      isDisconnected := false;
      events := events + [ConnectSucceeded];
    }

    method OnDisconnected()
      requires Valid()
      modifies this
      ensures Valid() && events == old(events) + [Disconnected]
      ensures !isConnecting && !isConnected && isDisconnected
    {
      ReplaySnoc(InitialFlags, events, Disconnected);
      isConnected := false;
      isConnecting := false;
      isDisconnected := true;
      events := events + [Disconnected];
    }
  }
}
