/** The player's repeat mode and its toggle rule (BotRepeatState). */
module RepeatStates {

  datatype RepeatState = NONE | REPEAT | REPEAT_QUEUE

  /**
   * getNextState: selecting the active mode again switches repeating off;
   * selecting another mode switches to it directly.
   */
  function NextState(current: RepeatState, target: RepeatState): (r: RepeatState)
    ensures r == NONE || r == target
    ensures target != NONE ==> (r == target <==> current != target)
  {
    if current == target then NONE else target
  }

  /** Toggling the same target twice from NONE comes back to NONE. */
  lemma ToggleTwiceFromNone(target: RepeatState)
    ensures NextState(NextState(NONE, target), target) == NONE
  {
  }

  /** Toggling the same target twice from that target comes back to it. */
  lemma ToggleTwiceFromTarget(target: RepeatState)
    ensures NextState(NextState(target, target), target) == target
  {
  }

  /** Asking for NONE always yields NONE. */
  lemma ToggleToNone(current: RepeatState)
    ensures NextState(current, NONE) == NONE
  {
  }

  /** From either repeat mode, toggling the other one switches straight to it. */
  lemma SwitchBetweenModes()
    ensures NextState(REPEAT, REPEAT_QUEUE) == REPEAT_QUEUE
    ensures NextState(REPEAT_QUEUE, REPEAT) == REPEAT
  {
  }
}
