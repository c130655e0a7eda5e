/**
 * io.github.foloke.player.BotGuildPlayerUpdater: the status updater of the
 * player package. It differs from the one the player creates only in its
 * display-text rule and in taking the localization as a constructor argument.
 */
module PlayerUpdater {
  import opened Wrappers
  import opened UpdaterRules
  import opened GuildPlayer

  class BotGuildPlayerUpdater {
    const player: BotGuildPlayer
    const localize: string -> string
    var message: Option<MessageId>
    var started: bool
    var previous: Snapshot<real>

    constructor (player: BotGuildPlayer, localize: string -> string)
      ensures this.player == player && this.localize == localize
      ensures message == None && started && previous == InitialSnapshot(0.0)
    {
      this.player := player;
      this.localize := localize;
      message := None;
      started := true;
      previous := InitialSnapshot(0.0);
    }

    /** isNeedUpdate: the first render is pending or an observed field changed. */
    function IsNeedUpdate(): (b: bool)
      reads this, player, player.engine, player.queue, player.queue.engine
      ensures b <==> started || previous != player.Observed()
    {
      NeedsUpdateIff(started, previous, player.Observed());
      NeedsUpdate(started, previous, player.Observed())
    }

    /** getPlayerState. */
    function GetPlayerState(): (p: PlayState)
      reads player, player.engine
      ensures p == STOP <==> player.engine.playing.None?
      ensures p == PAUSE <==> player.engine.playing.Some? && player.engine.paused
    {
      PlayStateOf(player.engine.playing, player.engine.paused)
    }

    /**
     * One iteration of run() followed by updatePlayerAndEditMessage: count
     * the rewind window down; with a message attached and an update needed,
     * commit the snapshot, clear `started` and hand the frame to the renderer.
     */
    method Tick() returns (frame: Option<Frame<real>>)
      requires player.Valid()
      modifies this, player`rewindTime
      ensures player.Valid() && player.rewindTime == TickRewind(old(player.rewindTime))
      ensures message == old(message)
      ensures (started, previous, frame.Some?)
           == TickStep(message.Some?, old(started), old(previous), player.Observed())
      ensures frame.Some? ==> frame.value == Frame(
                player.Observed().playedLen, player.Observed().wholeLen, player.GetVolumePercent(),
                PlayerText(player.motd, localize("player_help_message"), player.engine.playing),
                player.Observed().play, player.Observed().repeat)
    {
      var track := player.engine.playing;
      player.SetRewindTime(TickRewind(player.rewindTime));
      if message.Some? && IsNeedUpdate() {
        var current := player.Observed();
        previous := current;
        started := false;
        var text := PlayerText(player.motd, localize("player_help_message"), track);
        frame := Some(Frame(current.playedLen, current.wholeLen, player.GetVolumePercent(),
                            text, current.play, current.repeat));
      } else {
        frame := None;
      }
    }

    /**
     * setMessage: a message with another id replaces the attached one, which
     * is deleted (already gone is fine) and the full render is re-armed; any
     * other delete failure is rethrown and nothing changes.
     */
    method SetMessage(m: MessageId, deletion: Deletion) returns (thrown: bool)
      modifies this
      ensures (message, started, thrown) == Replace(old(message), old(started), m, deletion)
      ensures previous == old(previous)
    {
      if message.Some? && message.value != m {
        if deletion == DeleteFailed {
          return true;
        }
        started := true;
      }
      message := Some(m);
      thrown := false;
    }
  }
}
