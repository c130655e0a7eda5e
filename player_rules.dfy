/**
 * The two player controls whose effect spans several queue calls, as
 * functions of the queue state: the play button and the previous button with
 * its rewind window. Both player façades (BotGuildPlayer and the older
 * BotPlayer) are proved to act as these functions say.
 */
module PlayerRules {
  import opened Wrappers
  import opened Tracks
  import opened RepeatStates
  import opened QueueSpec
  import opened QueueLaws

  /** How long after a skip or a previous-press a further press goes back a track, in ms. */
  const REWIND_DELAY: int := 3000

  /** play(): unpause when paused, else pause a playing track, else start the queue. */
  function PlayToggle(s: QueueState, repeat: RepeatState, vol: int): QueueState
  {
    if s.paused then s.(paused := false)
    else if s.playing.Some? then s.(paused := true)
    else NextSpec(s, repeat, vol)
  }

  /** play() as written: starting the queue goes through next(), which may throw. */
  function PlayToggleAsWritten(s: QueueState, repeat: RepeatState, vol: int): Outcome
  {
    if s.paused then Outcome(s.(paused := false), false)
    else if s.playing.Some? then Outcome(s.(paused := true), false)
    else NextAsWritten(s, repeat, vol)
  }

  /**
   * play() as written throws exactly when it has to start the queue under
   * REPEAT before any track was assigned, and then changes nothing; otherwise
   * it acts as PlayToggle.
   */
  lemma PlayToggleAsWrittenAgrees(s: QueueState, repeat: RepeatState, vol: int)
    ensures var o := PlayToggleAsWritten(s, repeat, vol);
      && (o.thrown <==> !s.paused && s.playing.None? && repeat == REPEAT && s.last.Unset?)
      && (o.thrown ==> o.state == s)
      && (!o.thrown ==> o.state == PlayToggle(s, repeat, vol))
  {
  }

  /** Pressing play twice on a playing track pauses and resumes it, leaving everything as it was. */
  lemma PauseResumeRoundTrip(s: QueueState, repeat: RepeatState, vol: int)
    requires s.playing.Some? && !s.paused
    ensures PlayToggle(s, repeat, vol).paused
    ensures PlayToggle(PlayToggle(s, repeat, vol), repeat, vol) == s
  {
  }

  /** With a track or a pause in place, play only flips the paused flag. */
  lemma PlayToggleFlipsPause(s: QueueState, repeat: RepeatState, vol: int)
    requires s.playing.Some? || s.paused
    ensures PlayToggle(s, repeat, vol) == s.(paused := !s.paused)
  {
  }

  /** With nothing playing and nothing paused, play starts the front of the work list. */
  lemma PlayStartsFront(s: QueueState, repeat: RepeatState, vol: int)
    requires s.playing.None? && !s.paused && !Replays(s, repeat) && s.work != []
    ensures var r := PlayToggle(s, repeat, vol);
      r.playing == Some(s.work[0]) && r.work == s.work[1..] && !r.paused && r.volume == vol
  {
    NextPopsFront(s, repeat, vol);
  }

  lemma PlayToggleKeepsFresh(s: QueueState, repeat: RepeatState, vol: int)
    requires Fresh(s)
    ensures Fresh(PlayToggle(s, repeat, vol))
  {
    if !s.paused && s.playing.None? {
      NextKeepsFresh(s, repeat, vol);
    }
  }

  /**
   * playPrevious(): inside the rewind window step back in the history first
   * (an exception there ends the press); then restart whatever plays.
   */
  function PreviousPress(s: QueueState, rewindTime: int): Outcome
  {
    if rewindTime > 0 then
      var o := PreviousSpec(s);
      if o.thrown then o else RewindSpec(o.state)
    else RewindSpec(s)
  }

  /** The window value a press leaves: re-armed, unless the history step threw. */
  function PressWindow(s: QueueState, rewindTime: int): (r: int)
    ensures r == if rewindTime > 0 && s.playing.None? then rewindTime else REWIND_DELAY
  {
    PreviousThrows(s);
    if rewindTime > 0 && PreviousSpec(s).thrown then rewindTime else REWIND_DELAY
  }

  /** A press throws exactly when nothing plays, inside or outside the window. */
  lemma PreviousPressThrows(s: QueueState, rewindTime: int)
    ensures PreviousPress(s, rewindTime).thrown <==> s.playing.None?
  {
    PreviousThrows(s);
  }

  /** Outside the window, a press restarts the playing track and touches no list. */
  lemma PreviousPressOutsideWindow(s: QueueState, rewindTime: int)
    requires rewindTime <= 0 && s.playing.Some?
    ensures var o := PreviousPress(s, rewindTime);
      && !o.thrown
      && o.state.playing.Some? && o.state.playing.value.info == s.playing.value.info
      && o.state.playing.value.id == s.nextId
      && o.state.queue == s.queue && o.state.work == s.work && o.state.previous == s.previous
  {
  }

  /**
   * Inside the window with a history, a press starts (a clone of) the oldest
   * history entry and puts (a clone of) the interrupted track in front of the
   * work list.
   */
  lemma PreviousPressInWindow(s: QueueState, rewindTime: int)
    requires rewindTime > 0 && s.previous != [] && s.playing.Some?
    ensures var o := PreviousPress(s, rewindTime);
      && !o.thrown
      && o.state.playing.Some? && o.state.playing.value.info == s.previous[0].info
      && o.state.previous == s.previous[1..]
      && Infos(o.state.work) == [s.playing.value.info] + Infos(s.work)
      && o.state.queue == s.queue && o.state.last == s.last
      && o.state.nextId == s.nextId + 2
  {
    var c := Clone(s.playing.value, s.nextId);
    InfosAppend([c], s.work);
  }

  /** Inside the window without a history, a press restarts the playing track twice over. */
  lemma PreviousPressWithoutHistory(s: QueueState, rewindTime: int)
    requires rewindTime > 0 && s.previous == [] && s.playing.Some?
    ensures var o := PreviousPress(s, rewindTime);
      && !o.thrown
      && o.state.playing.Some? && o.state.playing.value.info == s.playing.value.info
      && o.state.queue == s.queue && o.state.work == s.work && o.state.previous == []
      && o.state.nextId == s.nextId + 2
  {
  }

  lemma PreviousPressKeepsFresh(s: QueueState, rewindTime: int)
    requires Fresh(s)
    ensures Fresh(PreviousPress(s, rewindTime).state)
  {
    PreviousKeepsFresh(s);
    var o := PreviousSpec(s);
    if rewindTime > 0 && !o.thrown {
      RewindKeepsFresh(o.state);
    } else {
      RewindKeepsFresh(s);
    }
  }

  lemma RewindKeepsFresh(s: QueueState)
    requires Fresh(s)
    ensures Fresh(RewindSpec(s).state)
  {
  }
}
