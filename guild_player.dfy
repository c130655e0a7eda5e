/**
 * io.github.foloke.player.BotGuildPlayer, the per-guild player façade, and
 * the status updater it creates (io.github.foloke.BotGuildPlayerUpdater);
 * the two refer to each other. Every control is proved to change the queue
 * and engine exactly as the functions of QueueSpec and PlayerRules say.
 */
module GuildPlayer {
  import opened Wrappers
  import opened Tracks
  import opened RepeatStates
  import Shuffling
  import opened AudioEngine
  import opened QueueSpec
  import opened QueueLaws
  import opened PlayerQueue
  import opened Volume
  import opened UpdaterRules
  import opened AudioLoading
  import opened PlayerRules

  class BotGuildPlayer {
    const guildId: string
    const motd: string
    const engine: Engine
    const queue: BotQueue
    /** Assigned once, by the constructor. */
    var updater: BotGuildPlayerUpdater?
    var volume: real
    var rewindTime: int
    var repeat: RepeatState

    ghost predicate Valid()
      reads this, engine, queue
    {
      && queue.engine == engine && queue.Valid()
      && 0.0 <= volume <= MAX_VOLUME && engine.volume >= 0
      && updater != null && updater.player == this
    }

    /** The objects that make up this player. */
    ghost function Parts(): set<object>
      reads this
    {
      if updater != null then {this, engine, queue, updater as object} else {this, engine, queue}
    }

    /** A new player: an empty queue, volume 2 applied to the engine, no repeat, an updater. */
    constructor (guildId: string, motd: string)
      ensures Valid() && fresh(Parts())
      ensures this.guildId == guildId && this.motd == motd
      ensures volume == DEFAULT_VOLUME && rewindTime == 0 && repeat == NONE
      ensures queue.State() == QueueState([], [], [], Unset, None, false, Truncate(DEFAULT_VOLUME), 0)
      ensures updater.message == None && updater.started && updater.previous == InitialSnapshot(0.0)
    {
      this.guildId := guildId;
      this.motd := motd;
      var e := new Engine();
      engine := e;
      queue := new BotQueue(e);
      volume := DEFAULT_VOLUME;
      rewindTime := 0;
      repeat := NONE;
      updater := null;
      new;
      engine.SetVolume(Truncate(volume));
      updater := new BotGuildPlayerUpdater(this);
    }

    /**
     * addToQueue(link) as this player writes it: the link's load result (a
     * parameter) goes to the queue, which is its own load handler.
     */
    method AddToQueue(result: LoadResult)
      requires Valid()
      modifies engine, queue
      ensures Valid() && queue.State() == QueueHandled(old(queue.State()), result)
    {
      match result
      case TrackFound(info) =>
        DeliverTrack(info);
      case PlaylistFound(infos) =>
        DeliverPlaylist(infos);
      case NoMatch =>
        queue.NoMatches();
      case Failed(message) =>
        queue.LoadFailed(message);
    }

    /** A found track: the engine creates its track object and the queue's trackLoaded takes it. */
    method DeliverTrack(info: TrackInfo)
      requires Valid()
      modifies engine, queue
      ensures Valid() && queue.State() == LoadInto(old(queue.State()), TrackFound(info))
    {
      ghost var s := queue.State();
      var t := engine.NewTrack(info);
      assert queue.State() == s.(nextId := s.nextId + 1);
      FreshUnderNewIds(s, s.nextId + 1);
      var _ := queue.TrackLoaded(t);
    }

    /** A found playlist: the engine creates the track objects and the queue's playlistLoaded takes them. */
    method DeliverPlaylist(infos: seq<TrackInfo>)
      requires Valid()
      modifies engine, queue
      ensures Valid() && queue.State() == LoadInto(old(queue.State()), PlaylistFound(infos))
    {
      ghost var s := queue.State();
      var ts := engine.NewTracks(infos);
      assert ts == LoadedTracks(PlaylistFound(infos), s.nextId);
      assert queue.State() == s.(nextId := s.nextId + |ts|);
      FreshUnderNewIds(s, s.nextId + |ts|);
      queue.PlaylistLoaded(ts);
    }

    /**
     * addToQueue as BotPlayersHolder and BotPlayerService call it: the load
     * goes through a fresh BotQueueAudioLoader and the collected errors, if
     * any, are raised as one AddToQueueException (`error`).
     */
    method AddToQueueReporting(result: LoadResult, localize: string -> string)
      returns (error: Option<AddToQueueException>)
      requires Valid()
      modifies engine, queue
      ensures Valid() && queue.State() == LoadInto(old(queue.State()), result)
      ensures error.None? <==> LoadErrors(result, localize) == []
      ensures error.Some? ==> GetErrors(error.value) == LoadErrors(result, localize)
    {
      ghost var s := queue.State();
      var loader := new BotQueueAudioLoader(queue, localize);
      loader.Deliver(result);
      LoadIntoAppends(s, result);
      var errors := loader.GetErrors();
      if errors != [] {
        error := Some(WithErrors(errors));
      } else {
        error := None;
      }
    }

    /**
     * play(): unpause, or pause the playing track, or start the queue;
     * `thrown` reports an exception of the queue's next().
     */
    method Play() returns (thrown: bool)
      requires Valid()
      modifies engine, queue
      ensures Valid()
      ensures Outcome(queue.State(), thrown) == PlayToggleAsWritten(old(queue.State()), repeat, Truncate(volume))
    {
      ghost var s := queue.State();
      thrown := false;
      if engine.paused {
        engine.SetPaused(false);
      } else if engine.playing.Some? {
        engine.SetPaused(true);
      } else {
        thrown := queue.Next(repeat, Truncate(volume));
        NextFrame(s, repeat, Truncate(volume));
      }
    }

    /**
     * skip(): the next track, and the rewind window opens; an exception of
     * next() (`thrown`) ends the press before the window is touched.
     */
    method Skip() returns (thrown: bool)
      requires Valid()
      modifies this`rewindTime, engine, queue
      ensures Valid()
      ensures Outcome(queue.State(), thrown) == NextAsWritten(old(queue.State()), repeat, Truncate(volume))
      ensures rewindTime == if thrown then old(rewindTime) else REWIND_DELAY
    {
      ghost var s := queue.State();
      thrown := queue.Next(repeat, Truncate(volume));
      NextFrame(s, repeat, Truncate(volume));
      if !thrown {
        rewindTime := REWIND_DELAY;
      }
    }

    /**
     * playPrevious(): step back in the history only inside the rewind window,
     * re-arm the window, restart the playing track. `thrown` reports the
     * NullPointerException of a press with nothing playing.
     */
    method PlayPrevious() returns (thrown: bool)
      requires Valid()
      modifies this`rewindTime, engine, queue
      ensures Valid()
      ensures Outcome(queue.State(), thrown) == PreviousPress(old(queue.State()), old(rewindTime))
      ensures rewindTime == PressWindow(old(queue.State()), old(rewindTime))
    {
      if rewindTime > 0 {
        var t := queue.Previous();
        if t {
          return true;
        }
      }
      rewindTime := REWIND_DELAY;
      thrown := queue.Rewind();
    }

    /** addVolume: one step (MAX_VOLUME / 20) up, clamped. */
    method AddVolume() returns (writes: seq<int>)
      requires Valid()
      modifies this`volume, engine
      ensures Valid() && volume == Clamp(old(volume) + VOLUME_STEP)
      ensures writes == RampWrites(old(engine.volume), volume)
      ensures queue.State() == old(queue.State()).(volume := engine.volume)
    {
      writes := SetVolume(volume + VOLUME_STEP);
    }

    /** reduceVolume: one step down, clamped. */
    method ReduceVolume() returns (writes: seq<int>)
      requires Valid()
      modifies this`volume, engine
      ensures Valid() && volume == Clamp(old(volume) - VOLUME_STEP)
      ensures writes == RampWrites(old(engine.volume), volume)
      ensures queue.State() == old(queue.State()).(volume := engine.volume)
    {
      writes := SetVolume(volume - VOLUME_STEP);
    }

    /**
     * setVolume: store the clamped volume, then ramp the engine towards it;
     * `writes` are the engine volumes the ramp sets, in order.
     */
    method SetVolume(amount: real) returns (writes: seq<int>)
      requires Valid()
      modifies this`volume, engine
      ensures Valid() && volume == Clamp(amount)
      ensures writes == RampWrites(old(engine.volume), volume)
      ensures engine.volume == if writes == [] then old(engine.volume) else Truncate(volume)
      ensures queue.State() == old(queue.State()).(volume := engine.volume)
    {
      volume := Clamp(amount);
      var current := engine.volume;
      writes := RunVolumeRamp(current, volume);
      RampWritesShape(current, volume);
    }

    /** The ramp's loop, run to completion: step i of n writes the truncated step value. */
    method RunVolumeRamp(current: int, target: real) returns (writes: seq<int>)
      requires current >= 0 && target >= 0.0
      modifies engine
      ensures writes == RampWrites(current, target)
      ensures engine.volume == if writes == [] then old(engine.volume) else writes[|writes| - 1]
      ensures engine.playing == old(engine.playing) && engine.paused == old(engine.paused)
      ensures engine.nextId == old(engine.nextId)
    {
      var n := Segments(current, target);
      writes := [];
      for i := 1 to n + 1
        invariant writes == RampWrites(current, target)[..i - 1]
        invariant engine.volume == if i == 1 then old(engine.volume) else writes[i - 2]
        invariant engine.playing == old(engine.playing) && engine.paused == old(engine.paused)
        invariant engine.nextId == old(engine.nextId)
      {
        RampTargetBetween(current, target, n, i);
        var v := Truncate(RampTarget(current, target, n, i));
        engine.SetVolume(v);
        writes := writes + [v];
      }
    }

    /** setVolumePercent: a percentage of MAX_VOLUME; reading it back gives it clamped to [0, 100]. */
    method SetVolumePercent(percent: real) returns (writes: seq<int>)
      requires Valid()
      modifies this`volume, engine
      ensures Valid() && volume == Clamp(PercentToVolume(percent))
      ensures GetVolumePercent() == ClampPercent(percent)
      ensures writes == RampWrites(old(engine.volume), volume)
      ensures queue.State() == old(queue.State()).(volume := engine.volume)
    {
      writes := SetVolume(PercentToVolume(percent));
      PercentRoundTrip(percent);
    }

    /** getVolumePercent: the volume as a share of MAX_VOLUME, between 0 and 100. */
    function GetVolumePercent(): (p: real)
      reads this
      requires 0.0 <= volume <= MAX_VOLUME
      ensures p == VolumePercent(volume) && 0.0 <= p <= 100.0
    {
      VolumePercentRange(volume);
      volume / MAX_VOLUME * 100.0
    }

    /**
     * shuffle(): re-queue the playing track, permute, play the next;
     * `thrown` reports an exception of the queue's next().
     */
    method Shuffle(draws: seq<nat>) returns (thrown: bool)
      requires Valid()
      modifies engine, queue
      ensures Valid()
      ensures Outcome(queue.State(), thrown) ==
        ShuffleAsWritten(old(queue.State()), old(engine.playing), draws, repeat, Truncate(volume))
    {
      ghost var s := queue.State();
      thrown := queue.Shuffle(engine.playing, draws, repeat, Truncate(volume));
      ghost var pool := ShufflePool(s, s.playing);
      NextFrame(pool.(work := Shuffling.Shuffle(pool.work, draws)), repeat, Truncate(volume));
    }

    method ToggleRepeatQueue()
      modifies this`repeat
      ensures repeat == NextState(old(repeat), REPEAT_QUEUE)
    {
      repeat := NextState(repeat, REPEAT_QUEUE);
    }

    method ToggleRepeatTrack()
      modifies this`repeat
      ensures repeat == NextState(old(repeat), REPEAT)
    {
      repeat := NextState(repeat, REPEAT);
    }

    /** unload(): the queue is cleared and the engine stopped. */
    method Unload()
      requires Valid()
      modifies engine, queue
      ensures Valid() && queue.State() == ClearSpec(old(queue.State()))
    {
      queue.Clear();
    }

    method SetRewindTime(t: int)
      modifies this`rewindTime
      ensures rewindTime == t
    {
      rewindTime := t;
    }

    /** pause(), which the voice-channel join uses; not part of the shown player. */
    method Pause()
      requires Valid()
      modifies engine
      ensures Valid() && queue.State() == old(queue.State()).(paused := true)
    {
      engine.SetPaused(true);
    }

    /** unPause(), the counterpart of pause(); not part of the shown player. */
    method UnPause()
      requires Valid()
      modifies engine
      ensures Valid() && queue.State() == old(queue.State()).(paused := false)
    {
      engine.SetPaused(false);
    }

    /** setMessage: handed to the updater. */
    method SetMessage(m: MessageId, deletion: Deletion) returns (thrown: bool)
      requires Valid()
      modifies updater
      ensures Valid()
      ensures (updater.message, updater.started, thrown)
           == Replace(old(updater.message), old(updater.started), m, deletion)
      ensures updater.previous == old(updater.previous)
    {
      thrown := updater.SetMessage(m, deletion);
    }

    /** getMessage: the updater's message, None for null. */
    function GetMessage(): (m: Option<MessageId>)
      reads this, engine, queue, updater
      requires Valid()
      ensures m == updater.message
    {
      updater.message
    }

    /**
     * What the updaters compare between ticks, through the player's getters:
     * the play state, getBotRepeatState, getLink, getWholeQueueLen,
     * getPlayedQueueLen and getVolume.
     */
    function Observed(): (o: Snapshot<real>)
      reads this, engine, queue, queue.engine
      ensures o.play == PlayStateOf(engine.playing, engine.paused) && o.repeat == repeat
      ensures o.link == Some(Link(queue.State())) && o.volume == volume
      ensures o.wholeLen == WholeLen(queue.State()) && o.playedLen == PlayedLen(queue.State())
    {
      Snapshot(PlayStateOf(engine.playing, engine.paused), repeat, Some(queue.GetLink()),
               queue.GetWholeQueueLen(), queue.GetPlayedQueueLen(), volume)
    }
  }

  /**
   * io.github.foloke.BotGuildPlayerUpdater: remembers what it last rendered
   * and re-renders the attached message when the player changed.
   */
  class BotGuildPlayerUpdater {
    const player: BotGuildPlayer
    var message: Option<MessageId>
    var started: bool
    var previous: Snapshot<real>

    constructor (player: BotGuildPlayer)
      ensures this.player == player
      ensures message == None && started && previous == InitialSnapshot(0.0)
    {
      this.player := player;
      message := None;
      started := true;
      previous := InitialSnapshot(0.0);
    }

    /** isNeedUpdate: the first render is pending or an observed field changed. */
    function IsNeedUpdate(): (b: bool)
      reads this, player, player.engine, player.queue, player.queue.engine
      ensures b <==> started || previous != player.Observed()
    {
      NeedsUpdateIff(started, previous, player.Observed());
      NeedsUpdate(started, previous, player.Observed())
    }

    /** getPlayerState. */
    function GetPlayerState(): (p: PlayState)
      reads player, player.engine
      ensures p == STOP <==> player.engine.playing.None?
      ensures p == PAUSE <==> player.engine.playing.Some? && player.engine.paused
    {
      PlayStateOf(player.engine.playing, player.engine.paused)
    }

    /**
     * One iteration of run(): count the rewind window down, and with a
     * message attached and an update needed commit the snapshot and hand a
     * frame to the renderer. Whether the render or the edit fails does not
     * matter to the state: the exception is swallowed.
     */
    method Tick(localize: string -> string) returns (frame: Option<Frame<real>>)
      requires player.Valid()
      modifies this, player`rewindTime
      ensures player.Valid() && player.rewindTime == TickRewind(old(player.rewindTime))
      ensures message == old(message)
      ensures (started, previous, frame.Some?)
           == TickStep(message.Some?, old(started), old(previous), player.Observed())
      ensures frame.Some? ==> frame.value == Frame(
                player.Observed().playedLen, player.Observed().wholeLen, player.GetVolumePercent(),
                QueueAwareText(player.motd, localize("player_help_message"),
                               player.Observed().wholeLen, player.engine.playing),
                player.Observed().play, player.Observed().repeat)
    {
      var track := player.engine.playing;
      player.SetRewindTime(TickRewind(player.rewindTime));
      if message.Some? && IsNeedUpdate() {
        var current := player.Observed();
        previous := current;
        started := false;
        var text := QueueAwareText(player.motd, localize("player_help_message"), current.wholeLen, track);
        frame := Some(Frame(current.playedLen, current.wholeLen, player.GetVolumePercent(),
                            text, current.play, current.repeat));
      } else {
        frame := None;
      }
    }

    /**
     * setMessage: a message with another id replaces the attached one, which
     * is deleted (already gone is fine) and the full render is re-armed; any
     * other delete failure is rethrown and nothing changes.
     */
    method SetMessage(m: MessageId, deletion: Deletion) returns (thrown: bool)
      modifies this
      ensures (message, started, thrown) == Replace(old(message), old(started), m, deletion)
      ensures previous == old(previous)
    {
      if message.Some? && message.value != m {
        if deletion == DeleteFailed {
          return true;
        }
        started := true;
      }
      message := Some(m);
      thrown := false;
    }
  }
}
