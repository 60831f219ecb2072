/** The run/pause state, the global counters and the game-event system of src/state.rs. */
module States {
  import opened Wrappers
  import opened Config

  /** The two top-level game states; the game starts Running. */
  datatype GameState = Running | Paused

  const DefaultGameState: GameState := Running

  /** The events other systems send to the state system. */
  datatype GameEvent = TogglePause | PlayerDies

  /** The other state: the one a pause toggle switches to. */
  function Toggled(s: GameState): (r: GameState)
    ensures r != s
  {
    if s == Running then Paused else Running
  }

  /** The process-wide counters and flags, updated in place by the systems. */
  class GameGlobals {
    var score: nat
    var showGrid: bool
    var isDebug: bool
    var lives: int

    /** The resource as the state plugin inserts it: default fields, lives set. */
    constructor ()
      ensures score == 0 && !showGrid && !isDebug
      ensures lives == InitialLives
    {
      score := 0;
      showGrid := false;
      isDebug := false;
      lives := InitialLives;
    }
  }

  /**
   * One run of the event system over this frame's events. Every PlayerDies
   * takes one life (with no floor, so lives can go below zero). Every
   * TogglePause sets the pending state to the toggle of the state the frame
   * STARTED in, which the loop never re-reads: any number of toggles in one
   * batch act like one, and a batch with none leaves the pending state as
   * it was. Score and the two flags are not touched.
   */
  method ProcessGameEvents(globals: GameGlobals, state: GameState, pending: Option<GameState>, events: seq<GameEvent>)
    returns (nextState: Option<GameState>)
    modifies globals`lives
    ensures globals.lives == old(globals.lives) - multiset(events)[PlayerDies]
    ensures TogglePause in events ==> nextState == Some(Toggled(state))
    ensures TogglePause !in events ==> nextState == pending
  {
    nextState := pending;
    var i := 0;
    while i < |events|
      invariant 0 <= i <= |events|
      invariant globals.lives == old(globals.lives) - multiset(events[..i])[PlayerDies]
      invariant TogglePause in events[..i] ==> nextState == Some(Toggled(state))
      invariant TogglePause !in events[..i] ==> nextState == pending
    {
      assert events[..i + 1] == events[..i] + [events[i]];
      match events[i] {
      case TogglePause =>
        if state == Running {
          nextState := Some(Paused);
        } else {
          nextState := Some(Running);
        }
      case PlayerDies =>
        globals.lives := globals.lives - 1;
      }
      i := i + 1;
    }
    assert events[..i] == events;
  }

}
