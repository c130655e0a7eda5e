/**
 * BotPlayersHolder: the registry of guild players. A player is created the
 * first time its guild is asked for, and receives the configured default
 * tracks; later requests return the same player.
 */
module PlayersHolder {
  import opened Wrappers
  import opened Tracks
  import opened QueueSpec
  import opened AudioLoading
  import opened JavaStrings
  import opened GuildPlayer

  /** TRACKS_REGEX. */
  const TRACKS_SEPARATOR: string := ","

  /** The infos the default-track links load, in order. */
  function LinksInfos(links: seq<string>, resolve: string -> LoadResult): seq<TrackInfo>
    decreases |links|
  {
    if links == [] then [] else LinksInfos(links[..|links| - 1], resolve) + LoadedInfos(resolve(links[|links| - 1]))
  }

  lemma LinksInfosSnoc(links: seq<string>, i: nat, resolve: string -> LoadResult)
    requires i < |links|
    ensures LinksInfos(links[..i + 1], resolve) == LinksInfos(links[..i], resolve) + LoadedInfos(resolve(links[i]))
  {
    assert links[..i + 1][..i] == links[..i];
  }

  /**
   * A queue as getNewBotPlayer leaves it: both track lists carry `infos`,
   * nothing has been played and nothing is playing.
   */
  predicate HoldsDefaults(s: QueueState, infos: seq<TrackInfo>)
  {
    Infos(s.queue) == infos && Infos(s.work) == infos && s.previous == [] && s.playing.None?
  }

  /** Adding a load result to such a queue appends the loaded infos to both lists. */
  lemma LoadIntoDefaults(s: QueueState, infos: seq<TrackInfo>, result: LoadResult)
    requires HoldsDefaults(s, infos)
    ensures HoldsDefaults(LoadInto(s, result), infos + LoadedInfos(result))
    ensures LoadInto(s, result).paused == s.paused
  {
    LoadIntoAppends(s, result);
  }

  /** The links a default-track list names: Java's split on commas. */
  function DefaultLinks(defaultTrackList: string): seq<string>
  {
    Split(defaultTrackList, TRACKS_SEPARATOR)
  }

  /** An empty setting still names one link, the empty one. */
  lemma EmptyListNamesOneLink()
    ensures DefaultLinks("") == [""]
  {
  }

  lemma CommasSeparateLinks()
    ensures DefaultLinks("a,b") == ["a", "b"]
  {
    PiecesWithoutSep("b", ",");
    assert "a,b" == "a" + "," + "b";
    PiecesAfterPrefix("a", ",", "b");
  }

  /** Trailing empty links are dropped. */
  lemma TrailingEmptyLinksDropped()
    ensures DefaultLinks("a,,") == ["a"]
  {
    assert "," == "" + "," + "";
    PiecesAfterPrefix("", ",", "");
    assert "a,," == "a" + "," + ",";
    PiecesAfterPrefix("a", ",", ",");
    var ps := ["a", "", ""];
    assert Pieces("a,,", ",") == ps;
    assert ps[..2] == ["a", ""];
    assert ps[..2][..1] == ["a"];
    assert DropTrailingEmpty(["a"]) == ["a"];
    assert DropTrailingEmpty(["a", ""]) == ["a"];
    assert DropTrailingEmpty(ps) == ["a"];
  }

  /** An empty link between commas is kept. */
  lemma InnerEmptyLinkKept()
    ensures DefaultLinks("a,,b") == ["a", "", "b"]
  {
    PiecesWithoutSep("b", ",");
    assert ",b" == "" + "," + "b";
    PiecesAfterPrefix("", ",", "b");
    assert "a,,b" == "a" + "," + ",b";
    PiecesAfterPrefix("a", ",", ",b");
  }

  /** A lone comma names no link at all. */
  lemma LoneCommaNamesNothing()
    ensures DefaultLinks(",") == []
  {
    assert "," == "" + "," + "";
    PiecesAfterPrefix("", ",", "");
    assert ["", ""][..1] == [""];
    assert [""][..0] == [];
  }

  class BotPlayersHolder {
    const defaultTrackList: string
    const motd: string
    const localize: string -> string
    var players: map<string, BotGuildPlayer>
    ghost var Repr: set<object>
    /** The guild each registered player's objects belong to. */
    ghost var owner: map<object, string>

    /** The infos a new player's queue starts with. */
    function DefaultInfos(resolve: string -> LoadResult): seq<TrackInfo>
    {
      LinksInfos(DefaultLinks(defaultTrackList), resolve)
    }

    /**
     * Every registered player is valid and its objects are inside Repr and
     * belong to its guild, so two guilds never share the player, the engine,
     * the queue or the updater.
     */
    ghost predicate Valid()
      reads this, Repr
    {
      && this in Repr
      && (forall g | g in players ::
            && players[g] in Repr && players[g].engine in Repr && players[g].queue in Repr
            && players[g].updater in Repr
            && players[g].Valid()
            && OwnedBy(players[g], g))
    }

    /** The player's objects are recorded as its guild's. */
    ghost predicate OwnedBy(p: BotGuildPlayer, g: string)
      reads this, p
    {
      && p in owner && owner[p] == g
      && p.engine in owner && owner[p.engine] == g
      && p.queue in owner && owner[p.queue] == g
      && p.updater in owner && owner[p.updater] == g
    }

    constructor (defaultTrackList: string, motd: string, localize: string -> string)
      ensures Valid() && players == map[]
      ensures this.defaultTrackList == defaultTrackList && this.motd == motd && this.localize == localize
    {
      this.defaultTrackList := defaultTrackList;
      this.motd := motd;
      this.localize := localize;
      players := map[];
      Repr := {this};
      owner := map[];
    }

    /**
     * getBotPlayer: the registered player of the guild, or a new one, which is
     * registered; no other entry changes. `resolve` stands for the engine's
     * link resolution.
     */
    method GetBotPlayer(guildId: string, resolve: string -> LoadResult) returns (p: BotGuildPlayer)
      requires Valid()
      modifies this
      ensures Valid() && fresh(Repr - old(Repr))
      ensures guildId in players && p == players[guildId] && p.Parts() <= Repr
      ensures guildId in old(players) ==> players == old(players) && Repr == old(Repr)
      ensures guildId !in old(players) ==>
        && players == old(players)[guildId := p] && fresh(p.Parts())
        && p.guildId == guildId && p.motd == motd && p.updater.message.None? && p.updater.started
        && p.queue.State().previous == [] && p.queue.State().playing.None?
        && Infos(p.queue.State().queue) == LinksInfos(DefaultLinks(defaultTrackList), resolve)
        && Infos(p.queue.State().work) == LinksInfos(DefaultLinks(defaultTrackList), resolve)
    {
      if guildId in players {
        p := players[guildId];
      } else {
        p := NewBotPlayer(guildId, resolve);
        Register(guildId, p);
      }
    }

    /** The registration step of getBotPlayer: the new player joins the map. */
    method Register(guildId: string, p: BotGuildPlayer)
      requires Valid() && guildId !in players
      requires p.Valid() && p.Parts() !! Repr
      modifies this
      ensures Valid() && players == old(players)[guildId := p] && Repr == old(Repr) + p.Parts()
    {
      assert p.updater in p.Parts();
      players := players[guildId := p];
      Repr := Repr + p.Parts();
      owner := owner[p := guildId][p.engine := guildId][p.queue := guildId][p.updater := guildId];
      forall h | h in players
        ensures players[h] in Repr && players[h].engine in Repr && players[h].queue in Repr
        ensures players[h].updater in Repr && players[h].Valid() && OwnedBy(players[h], h)
      {
        var q := players[h];
        if h != guildId {
          assert old(OwnedBy(q, h)) && old(q.Valid());
          assert q in old(Repr) && q.engine in old(Repr) && q.queue in old(Repr) && q.updater in old(Repr);
        }
      }
    }

    /**
     * getNewBotPlayer: a player whose queue receives each default link in
     * order; a link that fails to load is skipped and the others still load.
     */
    method NewBotPlayer(guildId: string, resolve: string -> LoadResult) returns (p: BotGuildPlayer)
      ensures p.Valid() && fresh(p.Parts())
      ensures p.guildId == guildId && p.motd == motd && p.updater.message.None? && p.updater.started
      ensures p.queue.State().previous == [] && p.queue.State().playing.None?
      ensures Infos(p.queue.State().queue) == LinksInfos(DefaultLinks(defaultTrackList), resolve)
      ensures Infos(p.queue.State().work) == LinksInfos(DefaultLinks(defaultTrackList), resolve)
    {
      p := new BotGuildPlayer(guildId, motd);
      var links := DefaultLinks(defaultTrackList);
      for i := 0 to |links|
        invariant p.Valid() && fresh(p.Parts())
        invariant p.guildId == guildId && p.motd == motd && p.updater.message.None? && p.updater.started
        invariant p.queue.State().previous == [] && p.queue.State().playing.None?
        invariant Infos(p.queue.State().queue) == LinksInfos(links[..i], resolve)
        invariant Infos(p.queue.State().work) == LinksInfos(links[..i], resolve)
      {
        ghost var s := p.queue.State();
        var _ := p.AddToQueueReporting(resolve(links[i]), localize);
        LoadIntoAppends(s, resolve(links[i]));
        LinksInfosSnoc(links, i, resolve);
      }
      assert links[..|links|] == links;
    }
  }
}
