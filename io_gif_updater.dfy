/**
 * io.github.foloke.BotGifUpdater: the gif updater of the io.github.foloke
 * package. It is written against a player class that is not part of this
 * model (io.github.foloke.player.BotPlayer); the older org.example player,
 * which has the getters it uses with the same types, stands in for it.
 */
module IoGifUpdater {
  import opened Wrappers
  import opened UpdaterRules
  import opened LegacyPlayer

  class BotGifUpdater {
    const player: BotPlayer
    var message: Option<MessageId>
    var started: bool
    var previous: Snapshot<int>

    constructor (player: BotPlayer)
      ensures this.player == player
      ensures message == None && started && previous == InitialSnapshot(0)
    {
      this.player := player;
      message := None;
      started := true;
      previous := InitialSnapshot(0);
    }

    /** isNeedUpdate: the first render is pending or an observed field changed. */
    function IsNeedUpdate(): (b: bool)
      reads this, player, player.engine, player.queue, player.queue.engine
      ensures b <==> started || previous != player.Observed()
    {
      NeedsUpdateIff(started, previous, player.Observed());
      NeedsUpdate(started, previous, player.Observed())
    }

    /** getPlayerState. */
    function GetPlayerState(): (p: PlayState)
      reads player, player.engine
      ensures p == STOP <==> player.engine.playing.None?
      ensures p == PAUSE <==> player.engine.playing.Some? && player.engine.paused
    {
      PlayStateOf(player.engine.playing, player.engine.paused)
    }

    /**
     * One iteration of run(): count the rewind window down; with a message
     * attached and an update needed, commit the snapshot, clear `started` and
     * hand the frame to the renderer.
     */
    method Tick() returns (frame: Option<Frame<int>>)
      requires player.Valid()
      modifies this, player`rewindTime
      ensures player.Valid() && player.rewindTime == TickRewind(old(player.rewindTime))
      ensures message == old(message)
      ensures (started, previous, frame.Some?)
           == TickStep(message.Some?, old(started), old(previous), player.Observed())
      ensures frame.Some? ==> frame.value == Frame(
                player.Observed().playedLen, player.Observed().wholeLen, player.volume,
                GifText(player.Observed().wholeLen, player.engine.playing),
                player.Observed().play, player.Observed().repeat)
    {
      var track := player.engine.playing;
      player.SetRewindTime(TickRewind(player.rewindTime));
      if message.Some? && IsNeedUpdate() {
        var current := player.Observed();
        previous := current;
        started := false;
        var text := GifText(current.wholeLen, track);
        frame := Some(Frame(current.playedLen, current.wholeLen, current.volume,
                            text, current.play, current.repeat));
      } else {
        frame := None;
      }
    }

    /** setMessage: only the message changes; `started` is not re-armed. */
    method SetMessage(m: MessageId)
      modifies this
      ensures message == Some(m)
      ensures started == old(started) && previous == old(previous)
    {
      message := Some(m);
    }
  }
}
