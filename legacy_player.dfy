/**
 * The older player of org.example (BotPlayer) and the status updater it
 * creates (BotGifUpdater of the same package), which refer to each other. The
 * volume is a Java int on the engine's 0..100 scale and is applied at once.
 */
module LegacyPlayer {
  import opened Wrappers
  import opened Tracks
  import opened RepeatStates
  import Shuffling
  import opened AudioEngine
  import opened QueueSpec
  import opened QueueLaws
  import opened LegacyQueue
  import opened Volume
  import opened UpdaterRules
  import opened AudioLoading
  import opened PlayerRules

  class BotPlayer {
    const guildId: string
    const engine: Engine
    const queue: BotQueue
    /** Assigned once, by the constructor. */
    var updater: BotGifUpdater?
    var volume: int
    var rewindTime: int
    var repeat: RepeatState

    ghost predicate Valid()
      reads this, engine, queue
    {
      && queue.engine == engine && queue.Valid()
      && 0 <= volume <= 100
      && updater != null && updater.player == this
    }

    /** A new player: an empty queue, volume 20 applied to the engine, no repeat, a locked updater. */
    constructor (guildId: string)
      ensures Valid() && fresh(engine) && fresh(queue) && fresh(updater)
      ensures this.guildId == guildId
      ensures volume == LEGACY_DEFAULT_VOLUME && rewindTime == 0 && repeat == NONE
      ensures queue.State() == QueueState([], [], [], NoTrack, None, false, LEGACY_DEFAULT_VOLUME, 0)
      ensures updater.editLock && updater.message == None && updater.started
      ensures updater.previous == InitialSnapshot(0)
    {
      this.guildId := guildId;
      var e := new Engine();
      engine := e;
      queue := new BotQueue(e);
      volume := LEGACY_DEFAULT_VOLUME;
      rewindTime := 0;
      repeat := NONE;
      updater := null;
      new;
      engine.SetVolume(volume);
      updater := new BotGifUpdater(this);
    }

    /** addToQueue(link): the link's load result (a parameter) goes to the queue, its own load handler. */
    method AddToQueue(result: LoadResult)
      requires Valid()
      modifies engine, queue
      ensures Valid() && queue.State() == QueueHandled(old(queue.State()), result)
    {
      match result
      case TrackFound(info) =>
        DeliverTrack(info);
      case PlaylistFound(infos) =>
        DeliverPlaylist(infos);
      case NoMatch =>
        queue.NoMatches();
      case Failed(message) =>
        queue.LoadFailed(message);
    }

    /** A found track: the engine creates its track object and the queue's trackLoaded takes it. */
    method DeliverTrack(info: TrackInfo)
      requires Valid()
      modifies engine, queue
      ensures Valid() && queue.State() == LoadInto(old(queue.State()), TrackFound(info))
    {
      ghost var s := queue.State();
      var t := engine.NewTrack(info);
      assert queue.State() == s.(nextId := s.nextId + 1);
      FreshUnderNewIds(s, s.nextId + 1);
      var _ := queue.TrackLoaded(t);
    }

    /** A found playlist: the engine creates the track objects and the queue's playlistLoaded takes them. */
    method DeliverPlaylist(infos: seq<TrackInfo>)
      requires Valid()
      modifies engine, queue
      ensures Valid() && queue.State() == LoadInto(old(queue.State()), PlaylistFound(infos))
    {
      ghost var s := queue.State();
      var ts := engine.NewTracks(infos);
      assert ts == LoadedTracks(PlaylistFound(infos), s.nextId);
      assert queue.State() == s.(nextId := s.nextId + |ts|);
      FreshUnderNewIds(s, s.nextId + |ts|);
      queue.PlaylistLoaded(ts);
    }

    /** play(): unpause, or pause the playing track, or start the queue. */
    method Play()
      requires Valid()
      modifies engine, queue
      ensures Valid() && queue.State() == PlayToggle(old(queue.State()), repeat, volume)
    {
      if engine.paused {
        engine.SetPaused(false);
      } else if engine.playing.Some? {
        engine.SetPaused(true);
      } else {
        queue.Next(repeat, volume);
      }
    }

    /** skip(): the next track, and the rewind window opens. */
    method Skip()
      requires Valid()
      modifies this`rewindTime, engine, queue
      ensures Valid() && queue.State() == NextSpec(old(queue.State()), repeat, volume)
      ensures rewindTime == REWIND_DELAY
    {
      queue.Next(repeat, volume);
      rewindTime := REWIND_DELAY;
    }

    /** prev(): as playPrevious of the newer player. */
    method Prev() returns (thrown: bool)
      requires Valid()
      modifies this`rewindTime, engine, queue
      ensures Valid()
      ensures Outcome(queue.State(), thrown) == PreviousPress(old(queue.State()), old(rewindTime))
      ensures rewindTime == PressWindow(old(queue.State()), old(rewindTime))
    {
      if rewindTime > 0 {
        var t := queue.Previous();
        if t {
          return true;
        }
      }
      rewindTime := REWIND_DELAY;
      thrown := queue.Rewind();
    }

    /**
     * addVolume(amount): `setVolume(volume += amount)`, so the sum wraps
     * around as a Java int before it is clamped.
     */
    method AddVolume(amount: int)
      requires Valid() && IsInt32(amount)
      modifies this`volume, engine
      ensures Valid() && volume == LegacyAddVolume(old(volume), amount)
      ensures queue.State() == old(queue.State()).(volume := volume)
    {
      volume := WrapInt32(volume + amount);
      SetVolume(volume);
    }

    /** setVolume: clamp to [0, 100] and apply to the engine at once. */
    method SetVolume(amount: int)
      requires queue.engine == engine && queue.Valid() && updater != null && updater.player == this
      modifies this`volume, engine
      ensures Valid() && volume == LegacyClamp(amount)
      ensures queue.State() == old(queue.State()).(volume := volume)
    {
      volume := LegacyClamp(amount);
      engine.SetVolume(volume);
    }

    /** shuffle(): re-queue the playing track, permute, play the next. */
    method Shuffle(draws: seq<nat>)
      requires Valid()
      modifies engine, queue
      ensures Valid()
      ensures queue.State() == ShuffleSpec(old(queue.State()), old(engine.playing), draws, repeat, volume)
    {
      queue.Shuffle(engine.playing, draws, repeat, volume);
    }

    /** repeatQ(). */
    method RepeatQ()
      modifies this`repeat
      ensures repeat == NextState(old(repeat), REPEAT_QUEUE)
    {
      repeat := NextState(repeat, REPEAT_QUEUE);
    }

    /** repeat(). */
    method Repeat()
      modifies this`repeat
      ensures repeat == NextState(old(repeat), REPEAT)
    {
      repeat := NextState(repeat, REPEAT);
    }

    /** unload(): the queue is cleared and the engine stopped. */
    method Unload()
      requires Valid()
      modifies engine, queue
      ensures Valid() && queue.State() == ClearSpec(old(queue.State()))
    {
      queue.Clear();
    }

    method SetRewindTime(t: int)
      modifies this`rewindTime
      ensures rewindTime == t
    {
      rewindTime := t;
    }

    /** linkMessage: attach the message and lift the edit lock. */
    method LinkMessage(m: MessageId)
      requires Valid()
      modifies updater
      ensures Valid() && updater.message == Some(m) && !updater.editLock
      ensures updater.started == old(updater.started) && updater.previous == old(updater.previous)
    {
      updater.SetMessage(m);
      updater.UnlockEdit();
    }

    /**
     * What the updaters compare between ticks, through the player's getters;
     * the played length is the size of the played list here.
     */
    function Observed(): (o: Snapshot<int>)
      reads this, engine, queue, queue.engine
      ensures o.play == PlayStateOf(engine.playing, engine.paused) && o.repeat == repeat
      ensures o.link == Some(Link(queue.State())) && o.volume == volume
      ensures o.wholeLen == WholeLen(queue.State()) && o.playedLen == LegacyPlayedLen(queue.State())
    {
      Snapshot(PlayStateOf(engine.playing, engine.paused), repeat, Some(queue.GetLink()),
               queue.GetWholeQueueLen(), queue.GetPlayedQueueLen(), volume)
    }
  }

  /**
   * org.example.BotGifUpdater: renders only after unlockEdit, compares the
   * integer volume, and never re-arms the full render.
   */
  class BotGifUpdater {
    const player: BotPlayer
    var editLock: bool
    var message: Option<MessageId>
    var started: bool
    var previous: Snapshot<int>

    constructor (player: BotPlayer)
      ensures this.player == player
      ensures editLock && message == None && started && previous == InitialSnapshot(0)
    {
      this.player := player;
      editLock := true;
      message := None;
      started := true;
      previous := InitialSnapshot(0);
    }

    /** isNeedUpdate: the first render is pending or an observed field changed. */
    function IsNeedUpdate(): (b: bool)
      reads this, player, player.engine, player.queue, player.queue.engine
      ensures b <==> started || previous != player.Observed()
    {
      NeedsUpdateIff(started, previous, player.Observed());
      NeedsUpdate(started, previous, player.Observed())
    }

    /** getPlayerState. */
    function GetPlayerState(): (p: PlayState)
      reads player, player.engine
      ensures p == STOP <==> player.engine.playing.None?
      ensures p == PAUSE <==> player.engine.playing.Some? && player.engine.paused
    {
      PlayStateOf(player.engine.playing, player.engine.paused)
    }

    /**
     * One iteration of run(): count the rewind window down; once the edit
     * lock is lifted and an update is needed, commit the snapshot, clear
     * `started` and hand the frame to the renderer. The lock is left as it is.
     */
    method Tick() returns (frame: Option<Frame<int>>)
      requires player.Valid()
      modifies this, player`rewindTime
      ensures player.Valid() && player.rewindTime == TickRewind(old(player.rewindTime))
      ensures message == old(message) && editLock == old(editLock)
      ensures (started, previous, frame.Some?)
           == TickStep(!editLock, old(started), old(previous), player.Observed())
      ensures frame.Some? ==> frame.value == Frame(
                player.Observed().playedLen, player.Observed().wholeLen, player.volume,
                GifText(player.Observed().wholeLen, player.engine.playing),
                player.Observed().play, player.Observed().repeat)
    {
      var track := player.engine.playing;
      player.SetRewindTime(TickRewind(player.rewindTime));
      if !editLock && IsNeedUpdate() {
        var current := player.Observed();
        previous := current;
        started := false;
        var text := GifText(current.wholeLen, track);
        frame := Some(Frame(current.playedLen, current.wholeLen, current.volume,
                            text, current.play, current.repeat));
      } else {
        frame := None;
      }
    }

    /** unlockEdit: from now on ticks may render; nothing sets the lock again. */
    method UnlockEdit()
      modifies this
      ensures !editLock
      ensures message == old(message) && started == old(started) && previous == old(previous)
    {
      editLock := false;
    }

    /** setMessage: only the message changes; `started` is not re-armed. */
    method SetMessage(m: MessageId)
      modifies this
      ensures message == Some(m)
      ensures editLock == old(editLock) && started == old(started) && previous == old(previous)
    {
      message := Some(m);
    }
  }
}
