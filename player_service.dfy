/**
 * BotPlayerService: the rules the chat and button commands share. It
 * connects a guild's player to the member's voice channel, adds a track and
 * composes the reply, creates the player message once per player, and lays
 * out the player's buttons. The gateway's answers (the member's voice
 * channel, the bot's live connection, whether joining fails, the message the
 * channel creates) are parameters; `localize` stands for the message bundle.
 */
module PlayerService {
  import opened Wrappers
  import opened RepeatStates
  import opened QueueSpec
  import opened UpdaterRules
  import opened AudioLoading
  import opened JavaStrings
  import opened Components
  import opened GuildPlayer
  import opened PlayersHolder

  type ChannelId = nat

  /**
   * What the gateway reports when a player connects: the voice channel of the
   * member who asked, if any; the channel of the bot's live voice connection
   * in the guild, if any; and whether joining the member's channel fails.
   */
  datatype Voice = Voice(memberChannel: Option<ChannelId>, botChannel: Option<ChannelId>, joinFails: bool)

  /** How connect ends: joined, nothing to do, PlayerAccessException, or the join's exception. */
  datatype ConnectOutcome = Joined | AlreadyConnected | AccessDenied(message: string) | JoinFailed

  /** What connectAndAddToQueue hands back: a reply text, or an exception it lets through. */
  datatype Reply = Text(text: string) | Raised(outcome: ConnectOutcome)

  /** A player button command: its command name (the button's id) and its emoji. */
  datatype ButtonCommand = ButtonCommand(name: string, buttonText: string)

  const LINE_SEPARATOR: string := "\n"

  /**
   * getParamValue: the string value of the named option, or "" when the
   * option is absent or carries no value.
   */
  function GetParamValue(options: map<string, Option<string>>, name: string): (r: string)
    ensures name in options && options[name].Some? ==> r == options[name].value
    ensures !(name in options && options[name].Some?) ==> r == ""
  {
    if name in options then options[name].GetOr("") else ""
  }

  /** The lines of the reply to a successful add. */
  function SuccessLines(localize: string -> string, messageCreated: bool, repeat: RepeatState): (ls: seq<string>)
    ensures |ls| == 1 + (if messageCreated then 1 else 0) + (if repeat == REPEAT then 1 else 0)
    ensures ls[0] == localize("track_added_message")
    ensures messageCreated ==> ls[1] == localize("player_created_message")
    ensures repeat == REPEAT ==> ls[|ls| - 1] == localize("repeat_enabled_warning")
    ensures !messageCreated && repeat != REPEAT ==> ls == [localize("track_added_message")]
  {
    [localize("track_added_message")]
    + (if messageCreated then [localize("player_created_message")] else [])
    + (if repeat == REPEAT then [localize("repeat_enabled_warning")] else [])
  }

  /** The lines of the reply to a failed add: the header, then each error in order. */
  function ErrorLines(localize: string -> string, errors: seq<string>): (ls: seq<string>)
    ensures |ls| == |errors| + 1 && ls[0] == localize("track_add_error_message")
    ensures forall i :: 0 <= i < |errors| ==> ls[i + 1] == errors[i]
  {
    [localize("track_add_error_message")] + errors
  }

  /** No localized reply line spans several lines. */
  ghost predicate SingleLine(localize: string -> string, errors: seq<string>)
  {
    && (forall key :: '\n' !in localize(key))
    && (forall i :: 0 <= i < |errors| ==> '\n' !in errors[i])
  }

  /** A reader who splits a success reply at line breaks recovers its lines. */
  lemma SuccessReplyReadsBack(localize: string -> string, messageCreated: bool, repeat: RepeatState)
    requires SingleLine(localize, [])
    ensures Pieces(Join(SuccessLines(localize, messageCreated, repeat), LINE_SEPARATOR), LINE_SEPARATOR)
         == SuccessLines(localize, messageCreated, repeat)
  {
    var ls := SuccessLines(localize, messageCreated, repeat);
    assert forall i :: 0 <= i < |ls| ==> LINE_SEPARATOR[0] !in ls[i];
    JoinPieces(ls, LINE_SEPARATOR);
  }

  /** A reader who splits an error reply at line breaks recovers the header and every error. */
  lemma ErrorReplyReadsBack(localize: string -> string, errors: seq<string>)
    requires SingleLine(localize, errors)
    ensures Pieces(Join(ErrorLines(localize, errors), LINE_SEPARATOR), LINE_SEPARATOR)
         == ErrorLines(localize, errors)
  {
    var ls := ErrorLines(localize, errors);
    forall i | 0 <= i < |ls| ensures LINE_SEPARATOR[0] !in ls[i] {
      if i > 0 {
        assert ls[i] == errors[i - 1];
      }
    }
    JoinPieces(ls, LINE_SEPARATOR);
  }

  /** The StringBuilder of connectAndAddToQueue: the first line, then "\n" and each further line. */
  method BuildReply(lines: seq<string>) returns (text: string)
    requires |lines| >= 1
    ensures text == Join(lines, LINE_SEPARATOR)
  {
    text := lines[0];
    for i := 1 to |lines|
      invariant text == Join(lines[..i], LINE_SEPARATOR)
    {
      JoinSnoc(lines[..i], lines[i], LINE_SEPARATOR);
      assert lines[..i + 1] == lines[..i] + [lines[i]];
      text := text + LINE_SEPARATOR + lines[i];
    }
    assert lines[..|lines|] == lines;
  }

  class BotPlayerService {
    const holder: BotPlayersHolder
    const localize: string -> string
    const buttonCommands: seq<ButtonCommand>

    constructor (holder: BotPlayersHolder, localize: string -> string, buttonCommands: seq<ButtonCommand>)
      ensures this.holder == holder && this.localize == localize && this.buttonCommands == buttonCommands
    {
      this.holder := holder;
      this.localize := localize;
      this.buttonCommands := buttonCommands;
    }

    /** The guild's player and its updater, the objects its message lives in. */
    ghost function UpdaterOf(guild: Option<string>): set<object>
      reads holder, if guild.Some? && guild.value in holder.players then {holder.players[guild.value]} else {}
    {
      if guild.Some? && guild.value in holder.players && holder.players[guild.value].updater != null
      then {holder.players[guild.value].updater} else {}
    }

    /** The message of the guild's player; none for a guild without a player yet. */
    ghost function MessageOf(guildId: string): Option<MessageId>
      reads holder, if guildId in holder.players then {holder.players[guildId]} else {}, UpdaterOf(Some(guildId))
    {
      if guildId in holder.players && holder.players[guildId].updater != null
      then holder.players[guildId].updater.message else None
    }

    /** The guild player's `started` flag; a player created now starts with it set. */
    ghost function StartedOf(guildId: string): bool
      reads holder, if guildId in holder.players then {holder.players[guildId]} else {}, UpdaterOf(Some(guildId))
    {
      guildId !in holder.players || holder.players[guildId].updater == null || holder.players[guildId].updater.started
    }

    /**
     * Every guild other than g with its player, that player's queue and its
     * message: a method that keeps this keeps the other guilds as they were.
     */
    ghost function Others(g: string): map<string, (BotGuildPlayer, QueueState, Option<MessageId>)>
      requires holder.Valid()
      reads holder, holder.Repr
    {
      map h | h in holder.players && h != g :: (holder.players[h], holder.players[h].queue.State(), MessageOf(h))
    }

    /**
     * The queue connect leaves guild g with: its registered player's queue,
     * paused when the join failed, or a new player's default tracks.
     */
    twostate predicate ConnectedQueue(g: string, voice: Voice, resolve: string -> LoadResult)
      requires holder.Valid()
      reads holder, holder.Repr
    {
      && g in holder.players
      && (g in old(holder.players) && JoinOutcome(voice, localize) != JoinFailed ==>
            holder.players[g].queue.State() == old(holder.players[g].queue.State()))
      && (g in old(holder.players) && JoinOutcome(voice, localize) == JoinFailed ==>
            holder.players[g].queue.State() == old(holder.players[g].queue.State()).(paused := true))
      && (g !in old(holder.players) ==> HoldsDefaults(holder.players[g].queue.State(), holder.DefaultInfos(resolve)))
    }

    /** The message tryCreateMessage leaves: the created one when the player had none. */
    twostate predicate MessageAttached(g: string, created: Option<MessageId>)
      requires holder.Valid()
      reads holder, holder.Repr
    {
      MessageOf(g) == if old(MessageOf(g)).None? then created else old(MessageOf(g))
    }

    /** The engine of the guild's player, if the guild has one. */
    ghost function EngineOf(guildId: string): set<object>
      reads holder
    {
      if guildId in holder.players then {holder.players[guildId].engine} else {}
    }

    /**
     * getButtons: one secondary button per player command, in order, with the
     * command's name as id and its emoji, in rows of at most five.
     */
    function GetButtons(): (rows: seq<seq<Button>>)
      ensures |Flatten(rows)| == |buttonCommands|
      ensures forall i :: 0 <= i < |buttonCommands| ==>
        Flatten(rows)[i] == Button(Secondary, buttonCommands[i].name, buttonCommands[i].buttonText)
      ensures forall i :: 0 <= i < |rows| ==> 1 <= |rows[i]| <= ROW_SIZE
    {
      ActionRows(seq(|buttonCommands|, i requires 0 <= i < |buttonCommands| =>
                   Button(Secondary, buttonCommands[i].name, buttonCommands[i].buttonText)))
    }

    /** isPlayerButtonCommand: some player command has exactly this name. */
    function IsPlayerButtonCommand(commandName: string): (b: bool)
      ensures b <==> exists i :: 0 <= i < |buttonCommands| && buttonCommands[i].name == commandName
    {
      AnyMatch(buttonCommands, (c: ButtonCommand) => c.name == commandName)
    }

    /**
     * createMessage: when the channel created a message and the interaction
     * has a guild, the guild's player (created when missing) gets it.
     * `deletion` is how deleting the player's previous message, if any, ends;
     * `thrown` reports its exception.
     */
    method CreateMessage(guild: Option<string>, created: Option<MessageId>, deletion: Deletion,
                         resolve: string -> LoadResult) returns (thrown: bool)
      requires holder.Valid()
      modifies holder, UpdaterOf(guild)
      ensures holder.Valid() && fresh(holder.Repr - old(holder.Repr))
      ensures guild.Some? && created.Some? ==>
        guild.value in holder.players && holder.players == old(holder.players)[guild.value := holder.players[guild.value]]
      ensures guild.Some? && created.Some? && guild.value in old(holder.players) ==> holder.players == old(holder.players)
      ensures guild.None? || created.None? ==>
        && !thrown && holder.players == old(holder.players) && holder.Repr == old(holder.Repr)
        && unchanged(old(holder.Repr) - {holder})
      ensures guild.Some? && created.Some? ==>
        && guild.value in holder.players
        && (MessageOf(guild.value), StartedOf(guild.value), thrown)
           == Replace(old(MessageOf(guild.value)), old(StartedOf(guild.value)), created.value, deletion)
    {
      thrown := false;
      if created.Some? && guild.Some? {
        ghost var message, started := MessageOf(guild.value), StartedOf(guild.value);
        var p := holder.GetBotPlayer(guild.value, resolve);
        assert MessageOf(guild.value) == message && StartedOf(guild.value) == started;
        thrown := SetPlayerMessage(guild.value, p, created.value, deletion);
      }
    }

    /** setMessage on a registered player: only its updater changes. */
    method SetPlayerMessage(g: string, p: BotGuildPlayer, m: MessageId, deletion: Deletion) returns (thrown: bool)
      requires holder.Valid() && g in holder.players && holder.players[g] == p
      modifies p.updater
      ensures holder.Valid()
      ensures (MessageOf(g), StartedOf(g), thrown) == Replace(old(MessageOf(g)), old(StartedOf(g)), m, deletion)
    {
      thrown := p.SetMessage(m, deletion);
    }

    /**
     * tryCreateMessage: with a guild whose player (created when missing) has
     * no message, the message is created and the result is true; otherwise
     * nothing changes and the result is false.
     */
    method TryCreateMessage(guild: Option<string>, created: Option<MessageId>,
                            resolve: string -> LoadResult) returns (made: bool)
      requires holder.Valid()
      modifies holder, UpdaterOf(guild)
      ensures holder.Valid() && fresh(holder.Repr - old(holder.Repr))
      ensures made <==> guild.Some? && old(MessageOf(guild.value)).None?
      ensures made ==> guild.value in holder.players && MessageOf(guild.value) == created
      ensures !made ==> holder.players == old(holder.players) && holder.Repr == old(holder.Repr)
                        && unchanged(old(holder.Repr) - {holder})
      ensures guild.Some? ==>
        guild.value in holder.players && holder.players == old(holder.players)[guild.value := holder.players[guild.value]]
      ensures guild.Some? && guild.value in old(holder.players) ==>
        holder.players == old(holder.players) && holder.Repr == old(holder.Repr)
      ensures guild.None? ==> holder.players == old(holder.players) && unchanged(holder)
      ensures guild.Some? && guild.value !in old(holder.players) ==>
        HoldsDefaults(holder.players[guild.value].queue.State(), holder.DefaultInfos(resolve))
      ensures guild.Some? ==> MessageAttached(guild.value, created) && Others(guild.value) == old(Others(guild.value))
    {
      if guild.None? {
        return false;
      }
      var p := FetchPlayer(guild.value, resolve);
      made := AttachIfMissing(guild.value, p, created);
    }

    /** getBotPlayer as the service uses it: only guild g's entry may be new. */
    method FetchPlayer(g: string, resolve: string -> LoadResult) returns (p: BotGuildPlayer)
      requires holder.Valid()
      modifies holder
      ensures holder.Valid() && fresh(holder.Repr - old(holder.Repr))
      ensures g in holder.players && p == holder.players[g] && holder.players == old(holder.players)[g := p]
      ensures g in old(holder.players) ==> holder.players == old(holder.players) && holder.Repr == old(holder.Repr)
      ensures g !in old(holder.players) ==>
        fresh(p.Parts()) && HoldsDefaults(p.queue.State(), holder.DefaultInfos(resolve))
      ensures MessageOf(g) == old(MessageOf(g)) && Others(g) == old(Others(g))
    {
      p := holder.GetBotPlayer(g, resolve);
      OthersFramed(g);
    }

    /** The objects of guild g's player, if it has one. */
    ghost function PartsOf(g: string): set<object>
      reads holder, if g in holder.players then {holder.players[g]} else {}
    {
      if g in holder.players then holder.players[g].Parts() else {}
    }

    /**
     * With only the holder and guild g's player changed, and only g's entry
     * new, the other guilds are as they were.
     */
    twostate lemma OthersFramed(g: string)
      requires old(holder.Valid()) && holder.Valid()
      requires g in holder.players && holder.players == old(holder.players)[g := holder.players[g]]
      requires unchanged(old(holder.Repr) - {holder} - old(PartsOf(g)))
      ensures Others(g) == old(Others(g))
    {
      forall h | h in holder.players && h != g
        ensures h in old(Others(g)) && old(Others(g))[h] == Others(g)[h]
      {
        var q := holder.players[h];
        assert h in old(holder.players) && q == old(holder.players[h]);
        assert old(holder.OwnedBy(q, h));
        if g in old(holder.players) {
          assert old(holder.OwnedBy(holder.players[g], g));
        }
        assert unchanged(q, q.engine, q.queue, old(q.updater));
      }
      assert Others(g).Keys == old(Others(g)).Keys;
    }

    /**
     * The message check of tryCreateMessage on the fetched player: the
     * message is created exactly when the player has none.
     */
    method AttachIfMissing(g: string, p: BotGuildPlayer, created: Option<MessageId>) returns (made: bool)
      requires holder.Valid() && g in holder.players && holder.players[g] == p
      modifies p.updater
      ensures holder.Valid()
      ensures made <==> old(MessageOf(g)).None?
      ensures made ==> MessageOf(g) == created
      ensures !made ==> unchanged(p.updater)
      ensures MessageAttached(g, created) && Others(g) == old(Others(g))
    {
      if p.GetMessage().None? {
        CreateForPlayer(g, p, created);
        made := true;
      } else {
        made := false;
      }
    }

    /**
     * The createMessage call of tryCreateMessage: its getBotPlayer finds the
     * player just fetched, which has no message yet, so nothing is deleted
     * and only that player's updater changes.
     */
    method CreateForPlayer(g: string, p: BotGuildPlayer, created: Option<MessageId>)
      requires holder.Valid() && g in holder.players && holder.players[g] == p && MessageOf(g).None?
      modifies p.updater
      ensures holder.Valid() && MessageOf(g) == created && Others(g) == old(Others(g))
    {
      if created.Some? {
        var _ := SetPlayerMessage(g, p, created.value, Deleted);
      }
    }

    /**
     * connect(guildId, interaction): the guild's player (created when missing),
     * which then joins the member's voice channel. Without one it is
     * PlayerAccessException; already on that channel, nothing happens; after
     * a join the player is paused exactly when it was before.
     */
    method Connect(guildId: string, voice: Voice, resolve: string -> LoadResult)
      returns (p: BotGuildPlayer, outcome: ConnectOutcome)
      requires holder.Valid()
      modifies holder, EngineOf(guildId)
      ensures holder.Valid() && fresh(holder.Repr - old(holder.Repr))
      ensures guildId in holder.players && p == holder.players[guildId]
      ensures holder.players == old(holder.players)[guildId := p]
      ensures guildId in old(holder.players) ==> holder.players == old(holder.players)
      ensures outcome == JoinOutcome(voice, localize)
      ensures ConnectedQueue(guildId, voice, resolve)
      ensures MessageOf(guildId) == old(MessageOf(guildId)) && Others(guildId) == old(Others(guildId))
    {
      p := FetchPlayer(guildId, resolve);
      outcome := JoinGuildChannel(guildId, p, voice);
    }

    /** The voice part of connect on a registered player: only its engine changes. */
    method JoinGuildChannel(g: string, p: BotGuildPlayer, voice: Voice) returns (outcome: ConnectOutcome)
      requires holder.Valid() && g in holder.players && holder.players[g] == p
      modifies p.engine
      ensures holder.Valid()
      ensures outcome == JoinOutcome(voice, localize)
      ensures outcome != JoinFailed ==> p.queue.State() == old(p.queue.State())
      ensures outcome == JoinFailed ==> p.queue.State() == old(p.queue.State()).(paused := true)
      ensures holder.players == old(holder.players)
      ensures MessageOf(g) == old(MessageOf(g)) && Others(g) == old(Others(g))
    {
      outcome := JoinChannel(p, voice);
      assert holder.players == old(holder.players)[g := p];
      OthersFramed(g);
    }

    /**
     * The voice part of connect: pause, join, and resume unless the player
     * was paused before. A join that throws leaves the player paused.
     */
    method JoinChannel(p: BotGuildPlayer, voice: Voice) returns (outcome: ConnectOutcome)
      requires p.Valid()
      modifies p.engine
      ensures p.Valid()
      ensures outcome == JoinOutcome(voice, localize)
      ensures outcome != JoinFailed ==> p.queue.State() == old(p.queue.State())
      ensures outcome == JoinFailed ==> p.queue.State() == old(p.queue.State()).(paused := true)
    {
      if voice.memberChannel.None? {
        return AccessDenied(localize("join_channel_warning_message"));
      }
      if voice.botChannel == voice.memberChannel {
        return AlreadyConnected;
      }
      ghost var s := p.queue.State();
      var wasPaused := p.engine.paused;
      p.Pause();
      if voice.joinFails {
        return JoinFailed;
      }
      if !wasPaused {
        p.UnPause();
      }
      assert p.queue.State() == s;
      outcome := Joined;
    }

    /**
     * connectAndAddToQueue. A missing guild is reported as an add error with
     * "player_creation_error"; the connect exceptions pass through; a load
     * error is reported with the header and each error; otherwise the reply
     * says the track was added, that a player message was created if one was,
     * and warns when the player repeats its track.
     */
    method ConnectAndAddToQueue(guild: Option<string>, voice: Voice, link: string, created: Option<MessageId>,
                                resolve: string -> LoadResult) returns (reply: Reply)
      requires holder.Valid()
      modifies holder, holder.Repr
      ensures holder.Valid() && fresh(holder.Repr - old(holder.Repr))
      ensures guild.None? ==>
        && reply == Text(Join(ErrorLines(localize, [localize("player_creation_error")]), LINE_SEPARATOR))
        && unchanged(holder) && unchanged(holder.Repr)
      ensures guild.Some? ==>
        && guild.value in holder.players
        && holder.players == old(holder.players)[guild.value := holder.players[guild.value]]
        && Others(guild.value) == old(Others(guild.value))
      ensures guild.Some? && !Proceeds(voice) ==>
        && reply == Raised(JoinOutcome(voice, localize))
        && ConnectedQueue(guild.value, voice, resolve) && MessageOf(guild.value) == old(MessageOf(guild.value))
      ensures guild.Some? && Proceeds(voice) ==>
        && guild.value in holder.players
        && (guild.value in old(holder.players) ==>
              holder.players[guild.value].queue.State()
              == LoadInto(old(holder.players[guild.value].queue.State()), resolve(link)))
        && (guild.value !in old(holder.players) ==>
              HoldsDefaults(holder.players[guild.value].queue.State(),
                            holder.DefaultInfos(resolve) + LoadedInfos(resolve(link))))
        && (LoadErrors(resolve(link), localize) != [] ==>
              && reply == Text(Join(ErrorLines(localize, LoadErrors(resolve(link), localize)), LINE_SEPARATOR))
              && MessageOf(guild.value) == old(MessageOf(guild.value)))
        && (LoadErrors(resolve(link), localize) == [] ==>
              && reply == Text(Join(SuccessLines(localize, old(MessageOf(guild.value)).None?,
                                                 holder.players[guild.value].repeat), LINE_SEPARATOR))
              && MessageAttached(guild.value, created))
    {
      if guild.None? {
        var text := BuildReply(ErrorLines(localize, [localize("player_creation_error")]));
        return Text(text);
      }
      reply := ConnectAndAdd(guild.value, voice, link, created, resolve);
    }

    /** connectAndAddToQueue for an interaction in a guild. */
    method ConnectAndAdd(g: string, voice: Voice, link: string, created: Option<MessageId>,
                         resolve: string -> LoadResult) returns (reply: Reply)
      requires holder.Valid()
      modifies holder, holder.Repr
      ensures holder.Valid() && fresh(holder.Repr - old(holder.Repr))
      ensures g in holder.players && holder.players == old(holder.players)[g := holder.players[g]]
      ensures Others(g) == old(Others(g))
      ensures !Proceeds(voice) ==>
        && reply == Raised(JoinOutcome(voice, localize))
        && ConnectedQueue(g, voice, resolve) && MessageOf(g) == old(MessageOf(g))
      ensures Proceeds(voice) ==>
        && g in holder.players
        && (g in old(holder.players) ==>
              holder.players[g].queue.State() == LoadInto(old(holder.players[g].queue.State()), resolve(link)))
        && (g !in old(holder.players) ==>
              HoldsDefaults(holder.players[g].queue.State(), holder.DefaultInfos(resolve) + LoadedInfos(resolve(link))))
        && (LoadErrors(resolve(link), localize) != [] ==>
              && reply == Text(Join(ErrorLines(localize, LoadErrors(resolve(link), localize)), LINE_SEPARATOR))
              && MessageOf(g) == old(MessageOf(g)))
        && (LoadErrors(resolve(link), localize) == [] ==>
              && reply == Text(Join(SuccessLines(localize, old(MessageOf(g)).None?, holder.players[g].repeat),
                                    LINE_SEPARATOR))
              && MessageAttached(g, created))
    {
      var p, outcome := Connect(g, voice, resolve);
      if !outcome.Joined? && !outcome.AlreadyConnected? {
        return Raised(outcome);
      }
      assert MessageOf(g) == old(MessageOf(g));
      ghost var s := p.queue.State();
      reply := AddAndReply(g, p, link, created, resolve);
      if g !in old(holder.players) {
        LoadIntoDefaults(s, holder.DefaultInfos(resolve), resolve(link));
      }
    }

    /**
     * The rest of connectAndAddToQueue once the player is connected: add the
     * track, then reply with the errors, or with the success lines after
     * trying to create the player message.
     */
    method AddAndReply(g: string, p: BotGuildPlayer, link: string, created: Option<MessageId>,
                       resolve: string -> LoadResult) returns (reply: Reply)
      requires holder.Valid() && g in holder.players && holder.players[g] == p
      modifies holder, p.engine, p.queue, p.updater
      ensures holder.Valid() && holder.Repr == old(holder.Repr)
      ensures g in holder.players && holder.players[g] == p && holder.players == old(holder.players)
      ensures p.queue.State() == LoadInto(old(p.queue.State()), resolve(link))
      ensures LoadErrors(resolve(link), localize) != [] ==>
        && reply == Text(Join(ErrorLines(localize, LoadErrors(resolve(link), localize)), LINE_SEPARATOR))
        && MessageOf(g) == old(MessageOf(g))
      ensures LoadErrors(resolve(link), localize) == [] ==>
        && reply == Text(Join(SuccessLines(localize, old(MessageOf(g)).None?, p.repeat), LINE_SEPARATOR))
        && MessageAttached(g, created)
      ensures Others(g) == old(Others(g))
    {
      ghost var message := MessageOf(g);
      var error := AddToPlayer(g, p, resolve(link));
      assert MessageOf(g) == message;
      if error.Some? {
        var text := BuildReply(ErrorLines(localize, GetErrors(error.value)));
        return Text(text);
      }
      reply := ReplyAdded(g, p, created, resolve);
    }

    /**
     * The success reply of connectAndAddToQueue: the player message is
     * created if the player has none, and the lines say so.
     */
    method ReplyAdded(g: string, p: BotGuildPlayer, created: Option<MessageId>,
                      resolve: string -> LoadResult) returns (reply: Reply)
      requires holder.Valid() && g in holder.players && holder.players[g] == p
      modifies holder, p.updater
      ensures holder.Valid() && holder.Repr == old(holder.Repr)
      ensures g in holder.players && holder.players[g] == p && holder.players == old(holder.players)
      ensures reply == Text(Join(SuccessLines(localize, old(MessageOf(g)).None?, p.repeat), LINE_SEPARATOR))
      ensures MessageAttached(g, created) && Others(g) == old(Others(g))
    {
      var made := TryCreateMessage(Some(g), created, resolve);
      assert MessageAttached(g, created) && Others(g) == old(Others(g));
      var text := BuildReply(SuccessLines(localize, made, p.repeat));
      reply := Text(text);
    }

    /** addToQueue on a registered player: only its engine and queue change. */
    method AddToPlayer(g: string, p: BotGuildPlayer, result: LoadResult) returns (error: Option<AddToQueueException>)
      requires holder.Valid() && g in holder.players && holder.players[g] == p
      modifies p.engine, p.queue
      ensures holder.Valid() && p.queue.State() == LoadInto(old(p.queue.State()), result)
      ensures MessageOf(g) == old(MessageOf(g)) && Others(g) == old(Others(g))
      ensures error.None? <==> LoadErrors(result, localize) == []
      ensures error.Some? ==> GetErrors(error.value) == LoadErrors(result, localize)
    {
      error := p.AddToQueueReporting(result, localize);
      assert holder.players == old(holder.players)[g := p];
      OthersFramed(g);
    }
  }

  /** Registering guild g twice leaves only the second entry. */
  lemma UpdateTwice(players: map<string, BotGuildPlayer>, g: string, p: BotGuildPlayer, q: BotGuildPlayer)
    ensures players[g := p][g := q] == players[g := q]
  {
  }

  /** Whether connect returns normally: the member is on a channel and no join fails. */
  predicate Proceeds(voice: Voice)
  {
    voice.memberChannel.Some? && (voice.botChannel == voice.memberChannel || !voice.joinFails)
  }

  /** How connect ends for the given voice state. */
  function JoinOutcome(voice: Voice, localize: string -> string): (o: ConnectOutcome)
    ensures o.AccessDenied? <==> voice.memberChannel.None?
    ensures o.AccessDenied? ==> o.message == localize("join_channel_warning_message")
    ensures o == AlreadyConnected <==> voice.memberChannel.Some? && voice.botChannel == voice.memberChannel
    ensures o == JoinFailed <==> voice.memberChannel.Some? && voice.botChannel != voice.memberChannel && voice.joinFails
  {
    if voice.memberChannel.None? then AccessDenied(localize("join_channel_warning_message"))
    else if voice.botChannel == voice.memberChannel then AlreadyConnected
    else if voice.joinFails then JoinFailed
    else Joined
  }
}
