/**
 * The button a search result offers (BotChooseTrackSearchResultButtonCommand):
 * its custom id carries the chosen video id as the second `%%`-separated
 * segment, and pressing it creates the player message if needed, then
 * connects and queues that video through the player service.
 */
module ChooseTrack {
  import opened Wrappers
  import opened JavaStrings
  import opened UpdaterRules
  import opened AudioLoading
  import opened PlayersHolder
  import opened PlayerService

  const COMMAND_NAME: string := "choose_track"
  /** BotButtonCommand.ID_PARAMS_SEPARATOR; it has no regular-expression meaning. */
  const ID_PARAMS_SEPARATOR: string := "%%"

  /**
   * The track id of a custom id: `split(ID_PARAMS_SEPARATOR)`, skip the first
   * segment, take the next one if there is one.
   */
  function TrackIdOf(customId: string): (id: Option<string>)
    ensures id.Some? <==> |Split(customId, ID_PARAMS_SEPARATOR)| >= 2
    ensures id.Some? ==> id.value == Split(customId, ID_PARAMS_SEPARATOR)[1]
  {
    var segments := Split(customId, ID_PARAMS_SEPARATOR);
    if |segments| >= 2 then Some(segments[1]) else None
  }

  /** Two separators after two `%`-free segments: those segments come first. */
  lemma SegmentsAfterTwoSeparators(a: string, b: string, rest: string)
    requires '%' !in a && '%' !in b
    ensures Pieces(a + ID_PARAMS_SEPARATOR + b + ID_PARAMS_SEPARATOR + rest, ID_PARAMS_SEPARATOR)
         == [a, b] + Pieces(rest, ID_PARAMS_SEPARATOR)
  {
    var sep := ID_PARAMS_SEPARATOR;
    assert a + sep + b + sep + rest == a + sep + (b + sep + rest);
    PiecesAfterPrefix(a, sep, b + sep + rest);
    PiecesAfterPrefix(b, sep, rest);
  }

  /**
   * The segment after the first separator is the track id, whatever follows
   * the next separator (the index segment and any later ones are ignored).
   */
  lemma TrackIdIgnoresLaterSegments(a: string, b: string, rest: string)
    requires '%' !in a && '%' !in b && b != ""
    ensures TrackIdOf(a + ID_PARAMS_SEPARATOR + b + ID_PARAMS_SEPARATOR + rest) == Some(b)
  {
    var s := a + ID_PARAMS_SEPARATOR + b + ID_PARAMS_SEPARATOR + rest;
    SegmentsAfterTwoSeparators(a, b, rest);
    var ps := Pieces(s, ID_PARAMS_SEPARATOR);
    var r := DropTrailingEmpty(ps);
    assert ps[1] == b;
  }

  /** The bare command name carries no track id. */
  lemma BareNameHasNoTrackId()
    ensures TrackIdOf(COMMAND_NAME) == None
  {
    assert '%' !in COMMAND_NAME;
    PiecesWithoutSep(COMMAND_NAME, ID_PARAMS_SEPARATOR);
  }

  /** A lone trailing separator carries none either: Java drops the trailing empty segment. */
  lemma TrailingSeparatorHasNoTrackId()
    ensures TrackIdOf(COMMAND_NAME + ID_PARAMS_SEPARATOR) == None
  {
    assert '%' !in COMMAND_NAME;
    assert COMMAND_NAME + ID_PARAMS_SEPARATOR == COMMAND_NAME + ID_PARAMS_SEPARATOR + "";
    PiecesAfterPrefix(COMMAND_NAME, ID_PARAMS_SEPARATOR, "");
    var ps := [COMMAND_NAME, ""];
    assert Pieces(COMMAND_NAME + ID_PARAMS_SEPARATOR, ID_PARAMS_SEPARATOR) == ps;
    assert ps[..1] == [COMMAND_NAME];
    assert DropTrailingEmpty(ps) == [COMMAND_NAME];
  }

  class BotChooseTrackSearchResultButtonCommand {
    const service: BotPlayerService

    constructor (service: BotPlayerService)
      ensures this.service == service
    {
      this.service := service;
    }

    /**
     * execute: without a track id nothing happens and there is no reply;
     * otherwise the player, its queue and the reply are as Choose leaves
     * them for that id.
     */
    method Execute(customId: string, guild: Option<string>, voice: Voice, created: Option<MessageId>,
                   resolve: string -> LoadResult) returns (reply: Option<Reply>)
      requires service.holder.Valid()
      modifies service.holder, service.holder.Repr
      ensures service.holder.Valid()
      ensures reply.None? <==> TrackIdOf(customId).None?
      ensures TrackIdOf(customId).None? ==> unchanged(service.holder) && unchanged(service.holder.Repr)
      ensures TrackIdOf(customId).Some? ==> reply.value.Raised? ==> guild.Some? && !Proceeds(voice)
      ensures TrackIdOf(customId).Some? && guild.None? ==>
        reply == Some(Text(Join(ErrorLines(service.localize, [service.localize("player_creation_error")]),
                                LINE_SEPARATOR)))
      ensures TrackIdOf(customId).Some? && guild.None? ==> unchanged(service.holder) && unchanged(service.holder.Repr)
      ensures TrackIdOf(customId).Some? && guild.Some? ==>
        var g := guild.value;
        && g in service.holder.players
        && service.holder.players == old(service.holder.players)[g := service.holder.players[g]]
        && service.Others(g) == old(service.Others(g))
        && service.MessageAttached(g, created)
      ensures TrackIdOf(customId).Some? && guild.Some? && !Proceeds(voice) ==>
        && reply == Some(Raised(JoinOutcome(voice, service.localize)))
        && service.ConnectedQueue(guild.value, voice, resolve)
      ensures TrackIdOf(customId).Some? && guild.Some? && Proceeds(voice) ==>
        var id, g := TrackIdOf(customId).value, guild.value;
        && g in service.holder.players
        && (g in old(service.holder.players) ==>
              service.holder.players[g].queue.State()
              == LoadInto(old(service.holder.players[g].queue.State()), resolve(id)))
        && (g !in old(service.holder.players) ==>
              HoldsDefaults(service.holder.players[g].queue.State(),
                            service.holder.DefaultInfos(resolve) + LoadedInfos(resolve(id))))
        && (LoadErrors(resolve(id), service.localize) != [] ==>
              reply == Some(Text(Join(ErrorLines(service.localize, LoadErrors(resolve(id), service.localize)),
                                      LINE_SEPARATOR))))
        && (LoadErrors(resolve(id), service.localize) == [] ==>
              reply == Some(Text(Join(SuccessLines(service.localize,
                                                   old(service.MessageOf(g)).None? && created.None?,
                                                   service.holder.players[g].repeat), LINE_SEPARATOR))))
    {
      var id := TrackIdOf(customId);
      if id.None? {
        return None;
      }
      var r := Choose(id.value, guild, voice, created, resolve);
      reply := Some(r);
    }

    /**
     * The chosen track: the player message is created if the player has
     * none, and the reply is connectAndAddToQueue's for the track id. Its
     * second attempt reports a created message exactly when the channel gave
     * none to the first. `created` is the message the channel creates, if it
     * creates one.
     */
    method Choose(id: string, guild: Option<string>, voice: Voice, created: Option<MessageId>,
                  resolve: string -> LoadResult) returns (reply: Reply)
      requires service.holder.Valid()
      modifies service.holder, service.holder.Repr
      ensures service.holder.Valid()
      ensures guild.None? ==>
        reply == Text(Join(ErrorLines(service.localize, [service.localize("player_creation_error")]), LINE_SEPARATOR))
      ensures guild.None? ==> unchanged(service.holder) && unchanged(service.holder.Repr)
      ensures guild.Some? ==>
        var g := guild.value;
        && g in service.holder.players
        && service.holder.players == old(service.holder.players)[g := service.holder.players[g]]
        && service.Others(g) == old(service.Others(g))
        && service.MessageAttached(g, created)
      ensures guild.Some? && !Proceeds(voice) ==>
        && reply == Raised(JoinOutcome(voice, service.localize))
        && service.ConnectedQueue(guild.value, voice, resolve)
      ensures guild.Some? && Proceeds(voice) ==>
        var g := guild.value;
        && g in service.holder.players
        && (g in old(service.holder.players) ==>
              service.holder.players[g].queue.State()
              == LoadInto(old(service.holder.players[g].queue.State()), resolve(id)))
        && (g !in old(service.holder.players) ==>
              HoldsDefaults(service.holder.players[g].queue.State(),
                            service.holder.DefaultInfos(resolve) + LoadedInfos(resolve(id))))
        && (LoadErrors(resolve(id), service.localize) != [] ==>
              reply == Text(Join(ErrorLines(service.localize, LoadErrors(resolve(id), service.localize)),
                                 LINE_SEPARATOR)))
        && (LoadErrors(resolve(id), service.localize) == [] ==>
              reply == Text(Join(SuccessLines(service.localize,
                                              old(service.MessageOf(g)).None? && created.None?,
                                              service.holder.players[g].repeat), LINE_SEPARATOR)))
    {
      if guild.None? {
        var _ := service.TryCreateMessage(guild, created, resolve);
        reply := service.ConnectAndAddToQueue(guild, voice, id, created, resolve);
      } else {
        reply := ChooseInGuild(id, guild.value, voice, created, resolve);
      }
    }

    /** Choose for an interaction in guild g. */
    method ChooseInGuild(id: string, g: string, voice: Voice, created: Option<MessageId>,
                         resolve: string -> LoadResult) returns (reply: Reply)
      requires service.holder.Valid()
      modifies service.holder, service.holder.Repr
      ensures service.holder.Valid()
      ensures g in service.holder.players
      ensures service.holder.players == old(service.holder.players)[g := service.holder.players[g]]
      ensures service.Others(g) == old(service.Others(g)) && service.MessageAttached(g, created)
      ensures !Proceeds(voice) ==>
        reply == Raised(JoinOutcome(voice, service.localize)) && service.ConnectedQueue(g, voice, resolve)
      ensures Proceeds(voice) ==>
        && (g in old(service.holder.players) ==>
              service.holder.players[g].queue.State()
              == LoadInto(old(service.holder.players[g].queue.State()), resolve(id)))
        && (g !in old(service.holder.players) ==>
              HoldsDefaults(service.holder.players[g].queue.State(),
                            service.holder.DefaultInfos(resolve) + LoadedInfos(resolve(id))))
        && (LoadErrors(resolve(id), service.localize) != [] ==>
              reply == Text(Join(ErrorLines(service.localize, LoadErrors(resolve(id), service.localize)),
                                 LINE_SEPARATOR)))
        && (LoadErrors(resolve(id), service.localize) == [] ==>
              reply == Text(Join(SuccessLines(service.localize,
                                              old(service.MessageOf(g)).None? && created.None?,
                                              service.holder.players[g].repeat), LINE_SEPARATOR)))
    {
      ghost var message := service.MessageOf(g);
      var _ := service.TryCreateMessage(Some(g), created, resolve);
      assert service.MessageOf(g) == (if message.None? then created else message);
      assert g in old(service.holder.players) ==>
        var p := service.holder.players[g];
        && p == old(service.holder.players[g])
        && p.queue.State() == old(p.queue.State());
      ghost var s1, mid := service.holder.players[g].queue.State(), service.holder.players;
      reply := service.ConnectAndAddToQueue(Some(g), voice, id, created, resolve);
      UpdateTwice(old(service.holder.players), g, mid[g], service.holder.players[g]);
      if g !in old(service.holder.players) && Proceeds(voice) {
        LoadIntoDefaults(s1, service.holder.DefaultInfos(resolve), resolve(id));
      }
    }
  }
}
