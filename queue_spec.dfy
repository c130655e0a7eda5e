/**
 * The queue's transitions as functions of its state: the three track lists,
 * the remembered last track, and the engine state they act on. The BotQueue
 * classes (the newer one in io.github.foloke.player, the legacy one in
 * org.example) are proved to change their fields exactly as these functions
 * say; the lemmas below state what the queue promises.
 */
module QueueSpec {
  import opened Wrappers
  import opened Tracks
  import opened RepeatStates
  import opened Shuffling

  /**
   * The `lastTrack` field. The newer queue declares it as an Optional that
   * nothing initialises, so it starts as null (`Unset`) and becomes
   * `Optional.empty()` (`NoTrack`) when the queue runs dry.
   */
  datatype LastTrack = Unset | NoTrack | Last(track: Track)

  datatype QueueState = QueueState(
    queue: seq<Track>,      // every track ever added (used to repeat the queue)
    work: seq<Track>,       // tracks still to play
    previous: seq<Track>,   // clones of tracks already played
    last: LastTrack,
    playing: Option<Track>, // the engine's playing track
    paused: bool,           // the engine's paused flag
    volume: int,            // the engine's volume
    nextId: nat)            // identity of the next track object the engine creates

  /** The state after an operation, and whether it ended in a NullPointerException. */
  datatype Outcome = Outcome(state: QueueState, thrown: bool)

  /** Every track the state mentions was created before `nextId`. */
  ghost predicate Fresh(s: QueueState)
  {
    && IdsBelow(s.queue, s.nextId)
    && IdsBelow(s.work, s.nextId)
    && IdsBelow(s.previous, s.nextId)
    && (s.last.Last? ==> s.last.track.id < s.nextId)
    && (s.playing.Some? ==> s.playing.value.id < s.nextId)
  }

  /** The private `play(track)`: set the engine volume, start the track, remember it. */
  function Play(s: QueueState, t: Track, vol: int): QueueState
  {
    s.(volume := vol, playing := Some(t), last := Last(t))
  }

  /** trackLoaded / playlistLoaded: the tracks go to the end of both lists. */
  function Append(s: QueueState, ts: seq<Track>): QueueState
  {
    s.(queue := s.queue + ts, work := s.work + ts)
  }

  /** noMatches / loadFailed of the queue itself: the engine is stopped. */
  function Stop(s: QueueState): QueueState
  {
    s.(playing := None)
  }

  /**
   * next(), with the REPEAT check on a present last track. `vol` is the value
   * handed to the engine before each start.
   */
  function NextSpec(s: QueueState, repeat: RepeatState, vol: int): QueueState
    decreases if s.work == [] then 1 else 0
  {
    if repeat == REPEAT && s.last.Last? then
      Play(s.(nextId := s.nextId + 1), Clone(s.last.track, s.nextId), vol)
    else if s.work != [] then
      Play(s.(work := s.work[1..],
              previous := s.previous + [Clone(s.work[0], s.nextId)],
              nextId := s.nextId + 1),
           s.work[0], vol)
    else if repeat == REPEAT_QUEUE && s.queue != [] then
      NextSpec(s.(work := s.work + CloneAll(s.queue, s.nextId),
                  nextId := s.nextId + |s.queue|),
               repeat, vol)
    else
      s.(last := NoTrack, playing := None)
  }

  /**
   * next() as the newer queue writes it: `lastTrack.isPresent()` is evaluated
   * under REPEAT even while the field is still null.
   */
  function NextAsWritten(s: QueueState, repeat: RepeatState, vol: int): Outcome
  {
    if repeat == REPEAT && s.last.Unset? then Outcome(s, true)
    else Outcome(NextSpec(s, repeat, vol), false)
  }

  /** rewind(): replay a clone of the playing track; nothing playing throws. */
  function RewindSpec(s: QueueState): Outcome
  {
    if s.playing.None? then Outcome(s, true)
    else Outcome(s.(playing := Some(Clone(s.playing.value, s.nextId)), nextId := s.nextId + 1), false)
  }

  /**
   * previous(): take the front of the played list, put a clone of the playing
   * track in front of the work list and start the taken track; with nothing
   * played, rewind. The front has already been removed when a missing playing
   * track throws.
   */
  function PreviousSpec(s: QueueState): Outcome
  {
    if s.previous != [] then
      var back := s.previous[0];
      var s1 := s.(previous := s.previous[1..]);
      if s1.playing.None? then Outcome(s1, true)
      else Outcome(s1.(work := [Clone(s1.playing.value, s1.nextId)] + s1.work,
                       nextId := s1.nextId + 1,
                       playing := Some(back)), false)
    else RewindSpec(s)
  }

  /** The list shuffle() permutes: the work list, after a clone of `current`. */
  function ShufflePool(s: QueueState, current: Option<Track>): QueueState
  {
    if current.Some? then s.(work := [Clone(current.value, s.nextId)] + s.work, nextId := s.nextId + 1)
    else s
  }

  /** shuffle(currentTrack): re-queue a clone of it, permute, then next(). */
  function ShuffleSpec(s: QueueState, current: Option<Track>, draws: seq<nat>,
                       repeat: RepeatState, vol: int): QueueState
  {
    var pool := ShufflePool(s, current);
    NextSpec(pool.(work := Shuffle(pool.work, draws)), repeat, vol)
  }

  /** shuffle(currentTrack) as written: its next() throws like NextAsWritten. */
  function ShuffleAsWritten(s: QueueState, current: Option<Track>, draws: seq<nat>,
                            repeat: RepeatState, vol: int): Outcome
  {
    var pool := ShufflePool(s, current);
    NextAsWritten(pool.(work := Shuffle(pool.work, draws)), repeat, vol)
  }

  /** clear(): all three lists emptied and the engine stopped; lastTrack is kept. */
  function ClearSpec(s: QueueState): QueueState
  {
    s.(queue := [], work := [], previous := [], playing := None)
  }

  /** getQueueLen: tracks still to play. */
  function QueueLen(s: QueueState): int
  {
    |s.work|
  }

  /** getPlayedQueueLen of the newer queue: added minus still to play. */
  function PlayedLen(s: QueueState): int
  {
    |s.queue| - |s.work|
  }

  /** getPlayedQueueLen of the legacy queue: the size of the played list. */
  function LegacyPlayedLen(s: QueueState): int
  {
    |s.previous|
  }

  /** getWholeQueueLen: every track ever added. */
  function WholeLen(s: QueueState): int
  {
    |s.queue|
  }

  /** `getLink`: the playing track's uri, or "" with nothing playing. */
  function Link(s: QueueState): string
  {
    if s.playing.Some? then s.playing.value.info.uri else ""
  }
}
