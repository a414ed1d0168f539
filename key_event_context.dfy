/**
 * The key-event latch every screen reads: the code of the key the native
 * bridge last reported pressed, or null once any key is reported released.
 * There is one latch, not a stack of held keys.
 */
module KeyEventContext {
  import opened Sdk

  /** What the native bridge emits: "KeyEventDown" with a code, "KeyEventUp" with one. */
  datatype KeyInput = KeyDown(code: int) | KeyUp(code: int)

  /** The latch after one listener call; the up listener ignores which key was released. */
  function Next(latch: Option<int>, e: KeyInput): (r: Option<int>)
    ensures r.Some? <==> e.KeyDown?
    ensures e.KeyDown? ==> r == Some(e.code)
  {
    match e
    case KeyDown(code) => Some(code)
    case KeyUp(_) => None
  }

  /** The latch after the listeners have seen `events`, in order, starting from `latch`. */
  function Replay(latch: Option<int>, events: seq<KeyInput>): Option<int>
    decreases |events|
  {
    if events == [] then latch else Replay(Next(latch, events[0]), events[1..])
  }

  /** Replaying one more event is one more listener call. */
  lemma {:induction false} ReplaySnoc(latch: Option<int>, events: seq<KeyInput>, e: KeyInput)
    ensures Replay(latch, events + [e]) == Next(Replay(latch, events), e)
    decreases |events|
  {
    if events != [] {
      assert (events + [e])[1..] == events[1..] + [e];
      ReplaySnoc(Next(latch, events[0]), events[1..], e);
    }
  }

  /**
   * The latch depends only on the last event: the last down wins, and any up
   * (whichever key it names) empties the latch.
   */
  lemma {:induction false} ReplayIsLastEvent(latch: Option<int>, events: seq<KeyInput>)
    requires events != []
    ensures Replay(latch, events) == (match events[|events| - 1]
                                      case KeyDown(c) => Some(c)
                                      case KeyUp(_) => None)
    decreases |events|
  {
    if |events| > 1 {
      ReplayIsLastEvent(Next(latch, events[0]), events[1..]);
    }
  }

  class KeyEventProvider {
    var keyEvent: Option<int>
    ghost var history: seq<KeyInput>

    ghost predicate Valid()
      reads this
    {
      keyEvent == Replay(None, history)
    }

    /** useState<number | null>(null). */
    constructor ()
      ensures Valid() && history == [] && keyEvent == None
    {
      keyEvent := None;
      history := [];
    }

    /** The "KeyEventDown" listener. */
    method OnKeyDown(code: int)
      requires Valid()
      modifies this
      ensures Valid() && history == old(history) + [KeyDown(code)]
      ensures keyEvent == Some(code)
    {
      ReplaySnoc(None, history, KeyDown(code));
      keyEvent := Some(code);
      history := history + [KeyDown(code)];
    }

    /** The "KeyEventUp" listener: clears the latch whatever key was released. */
    method OnKeyUp(code: int)
      requires Valid()
      modifies this
      ensures Valid() && history == old(history) + [KeyUp(code)]
      ensures keyEvent == None
    {
      ReplaySnoc(None, history, KeyUp(code));
      keyEvent := None;
      history := history + [KeyUp(code)];
    }
  }
}
