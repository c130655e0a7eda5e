/**
 * The rules shared by the four status updaters (the two BotGuildPlayerUpdater
 * classes and the two BotGifUpdater classes): the tri-state play state, the
 * snapshot of observable player fields and its change test, the rewind-window
 * countdown, and the three display-text rules.
 */
module UpdaterRules {
  import opened Wrappers
  import opened Tracks
  import opened RepeatStates

  /** BotPlayState. */
  datatype PlayState = STOP | PAUSE | PLAY

  /** getPlayerState: STOP without a track, PAUSE with a paused track, PLAY otherwise. */
  function PlayStateOf(track: Option<Track>, paused: bool): (r: PlayState)
    ensures r == STOP <==> track.None?
    ensures r == PAUSE <==> track.Some? && paused
    ensures r == PLAY <==> track.Some? && !paused
  {
    if track.Some? then (if paused then PAUSE else PLAY) else STOP
  }

  /**
   * The fields an updater remembers from its last render. `link` is None for
   * the null the field holds before the first render; `V` is the volume's
   * type (a Java float in the newer players, an int in the older ones).
   */
  datatype Snapshot<V> = Snapshot(play: PlayState, repeat: RepeatState, link: Option<string>,
                                  wholeLen: int, playedLen: int, volume: V)

  /** The field initialisers: STOP, NONE, null, 0, 0 and a zero volume. */
  function InitialSnapshot<V>(zero: V): Snapshot<V>
  {
    Snapshot(STOP, NONE, None, 0, 0, zero)
  }

  /** isNeedUpdate: the first render is pending, or some remembered field differs. */
  predicate NeedsUpdate<V(==)>(started: bool, previous: Snapshot<V>, current: Snapshot<V>)
  {
    || started
    || previous.play != current.play
    || previous.repeat != current.repeat
    || previous.link != current.link
    || previous.wholeLen != current.wholeLen
    || previous.playedLen != current.playedLen
    || previous.volume != current.volume
  }

  /** The field-by-field test is exactly "not first and nothing changed" negated. */
  lemma NeedsUpdateIff<V>(started: bool, previous: Snapshot<V>, current: Snapshot<V>)
    ensures NeedsUpdate(started, previous, current) <==> started || previous != current
  {
  }

  /** Right after a render the same state needs no other one. */
  lemma NoUpdateAfterRender<V>(current: Snapshot<V>)
    ensures !NeedsUpdate(false, current, current)
  {
  }

  /** The first snapshot always differs from the initial one, since a link is never null. */
  lemma FirstObservationDiffers<V>(zero: V, current: Snapshot<V>)
    requires current.link.Some?
    ensures NeedsUpdate(false, InitialSnapshot(zero), current)
  {
  }

  /**
   * One tick's bookkeeping: when the gate (an attached message, or a cleared
   * edit lock) is open and an update is needed, the current snapshot is
   * committed and `started` cleared before the render is attempted; a failing
   * render is swallowed and does not undo this. The result is the new
   * `started`, the new snapshot and whether a render was attempted.
   */
  function TickStep<V(==)>(gate: bool, started: bool, previous: Snapshot<V>, current: Snapshot<V>)
    : (r: (bool, Snapshot<V>, bool))
    ensures r.2 <==> gate && (started || previous != current)
    ensures r.2 ==> !r.0 && r.1 == current
    ensures !r.2 ==> r.0 == started && r.1 == previous
  {
    if gate && NeedsUpdate(started, previous, current) then (false, current, true)
    else (started, previous, false)
  }

  /** A tick that rendered leaves nothing for a second tick to render while the player is unchanged. */
  lemma {:induction false} TickSettles<V>(gate: bool, started: bool, previous: Snapshot<V>, current: Snapshot<V>)
    ensures var (st, pr, _) := TickStep(gate, started, previous, current);
      !TickStep(gate, st, pr, current).2
  {
    var (st, pr, rendered) := TickStep(gate, started, previous, current);
    if rendered {
      NoUpdateAfterRender(current);
    } else if gate {
      NeedsUpdateIff(started, previous, current);
    }
  }

  /** What a render request hands to the image builder. */
  datatype Frame<V> = Frame(position: int, length: int, volume: V, text: string,
                            play: PlayState, repeat: RepeatState)

  // ---- the rewind window --------------------------------------------------

  const DELAY_MILLIS: int := 1000

  /** One tick of the countdown: `Math.max(0, rewindTime - DELAY_MILLIS)`. */
  function TickRewind(rewindTime: int): (r: int)
    ensures r >= 0
    ensures rewindTime >= DELAY_MILLIS ==> r == rewindTime - DELAY_MILLIS
    ensures rewindTime <= DELAY_MILLIS ==> r == 0
  {
    if rewindTime - DELAY_MILLIS >= 0 then rewindTime - DELAY_MILLIS else 0
  }

  /** The window after k ticks. */
  function AfterTicks(rewindTime: int, k: nat): int
    decreases k
  {
    if k == 0 then rewindTime else AfterTicks(TickRewind(rewindTime), k - 1)
  }

  /** k ticks take at most k seconds off the window, never going below zero. */
  lemma {:induction false} AfterTicksValue(rewindTime: int, k: nat)
    ensures AfterTicks(rewindTime, k) == if rewindTime - k * DELAY_MILLIS >= 0 then rewindTime - k * DELAY_MILLIS else if k == 0 then rewindTime else 0
    decreases k
  {
    if k > 0 {
      AfterTicksValue(TickRewind(rewindTime), k - 1);
    }
  }

  /** A window of 3000 ms, as skip and playPrevious arm it, is open for two ticks and closed after three. */
  lemma RewindWindowLastsThreeTicks()
    ensures AfterTicks(3000, 2) > 0
    ensures AfterTicks(3000, 3) == 0
  {
    AfterTicksValue(3000, 2);
    AfterTicksValue(3000, 3);
  }

  // ---- display text -------------------------------------------------------

  /**
   * io.github.foloke.player.BotGuildPlayerUpdater: the motd, or the help
   * message when the motd is empty, while no track plays; the title otherwise.
   */
  function PlayerText(motd: string, help: string, track: Option<Track>): (text: string)
    ensures track.Some? ==> text == track.value.info.title
    ensures track.None? && motd != "" ==> text == motd
    ensures track.None? && motd == "" ==> text == help
  {
    var helpText := if motd == "" then help else motd;
    if track.None? then helpText else track.value.info.title
  }

  /**
   * io.github.foloke.BotGuildPlayerUpdater: the motd when the queue holds no
   * track at all, whatever plays; else the help message or the title.
   */
  function QueueAwareText(motd: string, help: string, wholeLen: int, track: Option<Track>): (text: string)
    ensures wholeLen == 0 ==> text == motd
    ensures wholeLen != 0 && track.None? ==> text == help
    ensures wholeLen != 0 && track.Some? ==> text == track.value.info.title
  {
    var trackText := if track.None? then help else track.value.info.title;
    if wholeLen == 0 then motd else trackText
  }

  const QUEUE_HINT: string := "Use the /q command to add YouTube tracks"
  const PLAY_HINT: string := "Hit that paly button! Or use the /q command to add more YouTube tracks"

  /** The BotGifUpdater classes: the same three-way rule with fixed hints. */
  function GifText(wholeLen: int, track: Option<Track>): (text: string)
    ensures wholeLen == 0 ==> text == QUEUE_HINT
    ensures wholeLen != 0 && track.None? ==> text == PLAY_HINT
    ensures wholeLen != 0 && track.Some? ==> text == track.value.info.title
  {
    if wholeLen == 0 then QUEUE_HINT
    else if track.None? then PLAY_HINT
    else track.value.info.title
  }

  /** The gif rule is the queue-aware rule with the hints in place of motd and help. */
  lemma GifTextIsQueueAware(wholeLen: int, track: Option<Track>)
    ensures GifText(wholeLen, track) == QueueAwareText(QUEUE_HINT, PLAY_HINT, wholeLen, track)
  {
  }

  // ---- attaching a message ------------------------------------------------

  /** A status message, known by its id. */
  type MessageId = nat

  /** What deleting the previous message answered. */
  datatype Deletion = Deleted | NotFound | DeleteFailed

  /**
   * The replacement rule of the BotGuildPlayerUpdater classes: only
   * replacing a message by one with another id deletes the old one and
   * re-arms the full render; a failed delete other than NOT_FOUND is rethrown
   * and changes nothing.
   */
  function Replace(message: Option<MessageId>, started: bool, next: MessageId, deletion: Deletion)
    : (r: (Option<MessageId>, bool, bool))
    ensures var (m, st, thrown) := r;
      && (thrown <==> message.Some? && message.value != next && deletion == DeleteFailed)
      && (thrown ==> m == message && st == started)
      && (!thrown ==> m == Some(next))
      && (!thrown && message.Some? && message.value != next ==> st)
      && (message.None? || message.value == next ==> st == started)
  {
    if message.Some? && message.value != next then
      if deletion == DeleteFailed then (message, started, true)
      else (Some(next), true, false)
    else (Some(next), started, false)
  }
}
