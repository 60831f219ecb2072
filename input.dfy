/** The keyboard-to-direction mapping of src/input.rs. */
module Input {
  import opened Wrappers

  /** The keys the game reads, and every other key as one case. */
  datatype KeyCode =
    | KeyA | KeyD | KeyW | KeyS
    | ArrowLeft | ArrowRight | ArrowUp | ArrowDown
    | OtherKey(code: nat)

  /** A request to head in a direction. */
  datatype InputDirectionEvent = Up | Down | Left | Right

  predicate LeftHeld(pressed: set<KeyCode>)
  {
    KeyA in pressed || ArrowLeft in pressed
  }

  predicate RightHeld(pressed: set<KeyCode>)
  {
    KeyD in pressed || ArrowRight in pressed
  }

  predicate UpHeld(pressed: set<KeyCode>)
  {
    KeyW in pressed || ArrowUp in pressed
  }

  predicate DownHeld(pressed: set<KeyCode>)
  {
    KeyS in pressed || ArrowDown in pressed
  }

  /**
   * The event the input system sends for the keys held this frame, if any:
   * at most one, with left over right over up over down.
   */
  function ReadInputs(pressed: set<KeyCode>): (e: Option<InputDirectionEvent>)
    ensures e == Some(Left) <==> LeftHeld(pressed)
    ensures e == Some(Right) <==> !LeftHeld(pressed) && RightHeld(pressed)
    ensures e == Some(Up) <==> !LeftHeld(pressed) && !RightHeld(pressed) && UpHeld(pressed)
    ensures e == Some(Down) <==> !LeftHeld(pressed) && !RightHeld(pressed) && !UpHeld(pressed) && DownHeld(pressed)
    ensures e == None <==> !LeftHeld(pressed) && !RightHeld(pressed) && !UpHeld(pressed) && !DownHeld(pressed)
  {
    if KeyA in pressed || ArrowLeft in pressed then Some(Left)
    else if KeyD in pressed || ArrowRight in pressed then Some(Right)
    else if KeyW in pressed || ArrowUp in pressed then Some(Up)
    else if KeyS in pressed || ArrowDown in pressed then Some(Down)
    else None
  }

  /** The eight keys the mapping reads. */
  const DirectionKeys: set<KeyCode> := {KeyA, KeyD, KeyW, KeyS, ArrowLeft, ArrowRight, ArrowUp, ArrowDown}

  /** The letter key that stands for an arrow key; every other key is itself. */
  function AsLetter(k: KeyCode): KeyCode
  {
    match k
    case ArrowLeft => KeyA
    case ArrowRight => KeyD
    case ArrowUp => KeyW
    case ArrowDown => KeyS
    case _ => k
  }

  /** Every arrow key replaced by its letter. */
  function Letters(pressed: set<KeyCode>): set<KeyCode>
  {
    set k | k in pressed :: AsLetter(k)
  }

  /** Each arrow key and its letter key are interchangeable. */
  lemma ArrowsAreLetters(pressed: set<KeyCode>)
    ensures ReadInputs(Letters(pressed)) == ReadInputs(pressed)
  {
    assert LeftHeld(pressed) ==> KeyA in Letters(pressed) by {
      if ArrowLeft in pressed {
        assert AsLetter(ArrowLeft) == KeyA;
      }
    }
    assert RightHeld(pressed) ==> KeyD in Letters(pressed) by {
      if ArrowRight in pressed {
        assert AsLetter(ArrowRight) == KeyD;
      }
    }
    assert UpHeld(pressed) ==> KeyW in Letters(pressed) by {
      if ArrowUp in pressed {
        assert AsLetter(ArrowUp) == KeyW;
      }
    }
    assert DownHeld(pressed) ==> KeyS in Letters(pressed) by {
      if ArrowDown in pressed {
        assert AsLetter(ArrowDown) == KeyS;
      }
    }
  }

  /** Keys other than the eight direction keys never matter. */
  lemma OtherKeysIgnored(pressed: set<KeyCode>, others: set<KeyCode>)
    requires others !! DirectionKeys
    ensures ReadInputs(pressed + others) == ReadInputs(pressed)
  {
    assert KeyA !in others && KeyD !in others && KeyW !in others && KeyS !in others;
    assert ArrowLeft !in others && ArrowRight !in others && ArrowUp !in others && ArrowDown !in others;
  }

  /** Holding a left key on top of anything else yields Left. */
  lemma LeftDominates(pressed: set<KeyCode>)
    ensures ReadInputs(pressed + {ArrowLeft}) == Some(Left)
  {
  }
}
