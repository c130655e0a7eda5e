/**
 * Loading a link into the queue: the result the engine's resolver delivers,
 * the load handler that forwards tracks to the queue and collects error
 * messages, and the exception that carries those messages to the caller.
 */
module AudioLoading {
  import opened Tracks
  import opened QueueSpec
  import opened PlayerQueue

  /**
   * AddToQueueException: the error messages of one failed add. A sequence is
   * a value, so the copies its constructors and getErrors make are implicit:
   * nothing a caller later does to its own list reaches the exception.
   */
  datatype AddToQueueException = AddToQueueException(errors: seq<string>)

  /** The list constructor: the errors are the given ones, in order. */
  function WithErrors(errors: seq<string>): (e: AddToQueueException)
    ensures GetErrors(e) == errors
  {
    AddToQueueException(errors)
  }

  /** The single-message constructor: exactly one error. */
  function WithError(error: string): (e: AddToQueueException)
    ensures GetErrors(e) == [error]
  {
    AddToQueueException([error])
  }

  /** getErrors: the messages, in the order they were given. */
  function GetErrors(e: AddToQueueException): (r: seq<string>)
    ensures |r| == |e.errors| && forall i :: 0 <= i < |r| ==> r[i] == e.errors[i]
  {
    e.errors
  }

  /** What resolving one link delivers to the load handler. */
  datatype LoadResult =
    | TrackFound(info: TrackInfo)
    | PlaylistFound(infos: seq<TrackInfo>)
    | NoMatch
    | Failed(message: string)

  /** The infos of the tracks a result carries, in order. */
  function LoadedInfos(result: LoadResult): seq<TrackInfo>
  {
    match result
    case TrackFound(info) => [info]
    case PlaylistFound(infos) => infos
    case _ => []
  }

  /** The track objects the engine creates for a result, starting at identity `from`. */
  function LoadedTracks(result: LoadResult, from: nat): (ts: seq<Track>)
    ensures Infos(ts) == LoadedInfos(result)
    ensures IdsWithin(ts, from, from + |ts|)
  {
    var ts := Created(LoadedInfos(result), from);
    assert forall t | t in ts :: from <= t.id < from + |ts| by {
      forall t | t in ts ensures from <= t.id < from + |ts| {
        var i :| 0 <= i < |ts| && ts[i] == t;
      }
    }
    ts
  }

  /** The queue after a load: the new tracks go to the end of both lists. */
  function LoadInto(s: QueueState, result: LoadResult): QueueState
  {
    var ts := LoadedTracks(result, s.nextId);
    Append(s.(nextId := s.nextId + |ts|), ts)
  }

  /**
   * A load with the queue itself as the handler: its trackLoaded and
   * playlistLoaded append the tracks, its noMatches and loadFailed stop the
   * engine.
   */
  function QueueHandled(s: QueueState, result: LoadResult): (r: QueueState)
    ensures result.NoMatch? || result.Failed? ==> r == Stop(s)
    ensures result.TrackFound? || result.PlaylistFound? ==> r == LoadInto(s, result)
  {
    if result.NoMatch? || result.Failed? then Stop(s) else LoadInto(s, result)
  }

  /** The messages a load leaves with the handler. */
  function LoadErrors(result: LoadResult, localize: string -> string): (errs: seq<string>)
    ensures errs == [] <==> result.TrackFound? || result.PlaylistFound?
    ensures result.NoMatch? ==> errs == [localize("track_not_found")]
    ensures result.Failed? ==> errs == [result.message]
  {
    match result
    case NoMatch => [localize("track_not_found")]
    case Failed(message) => [message]
    case _ => []
  }

  /**
   * A load appends exactly the delivered tracks, in order, to both lists and
   * leaves the history, the engine and the remembered track alone; a load
   * that delivers nothing changes nothing.
   */
  lemma LoadIntoAppends(s: QueueState, result: LoadResult)
    ensures var r := LoadInto(s, result);
      && Infos(r.queue) == Infos(s.queue) + LoadedInfos(result)
      && Infos(r.work) == Infos(s.work) + LoadedInfos(result)
      && r.previous == s.previous && r.last == s.last
      && r.playing == s.playing && r.paused == s.paused && r.volume == s.volume
      && (LoadedInfos(result) == [] ==> r == s)
  {
    var ts := LoadedTracks(result, s.nextId);
    InfosAppend(s.queue, ts);
    InfosAppend(s.work, ts);
  }

  /** A load keeps every mentioned identity below the engine's counter. */
  lemma LoadIntoKeepsFresh(s: QueueState, result: LoadResult)
    requires Fresh(s)
    ensures Fresh(LoadInto(s, result))
  {
    var ts := LoadedTracks(result, s.nextId);
    var r := LoadInto(s, result);
    assert forall t | t in r.queue :: t.id < r.nextId by {
      forall t | t in r.queue ensures t.id < r.nextId {
        if t !in s.queue { assert t in ts; }
      }
    }
    assert forall t | t in r.work :: t.id < r.nextId by {
      forall t | t in r.work ensures t.id < r.nextId {
        if t !in s.work { assert t in ts; }
      }
    }
  }

  /** Creating new track objects keeps every identity in the state below the counter. */
  lemma FreshUnderNewIds(s: QueueState, n: nat)
    requires Fresh(s) && s.nextId <= n
    ensures Fresh(s.(nextId := n))
  {
  }

  /** BotQueueAudioLoader: forwards loaded tracks to the queue and keeps the error messages. */
  class BotQueueAudioLoader {
    const queue: BotQueue
    const localize: string -> string
    var errors: seq<string>

    constructor (queue: BotQueue, localize: string -> string)
      ensures this.queue == queue && this.localize == localize && errors == []
    {
      this.queue := queue;
      this.localize := localize;
      errors := [];
    }

    /** trackLoaded: the track goes to the queue once; no error is recorded. */
    method TrackLoaded(t: Track)
      requires queue.Valid() && t.id < queue.engine.nextId
      modifies queue
      ensures queue.Valid() && queue.State() == Append(old(queue.State()), [t])
    {
      queue.AddLoadedTrack(t);
    }

    /** playlistLoaded: every track goes to the queue, in playlist order. */
    method PlaylistLoaded(ts: seq<Track>)
      requires queue.Valid() && IdsBelow(ts, queue.engine.nextId)
      modifies queue
      ensures queue.Valid() && queue.State() == Append(old(queue.State()), ts)
    {
      for i := 0 to |ts|
        invariant queue.Valid() && queue.State() == Append(old(queue.State()), ts[..i])
      {
        assert ts[i] in ts;
        queue.AddLoadedTrack(ts[i]);
        assert ts[..i + 1] == ts[..i] + [ts[i]];
      }
      assert ts[..|ts|] == ts;
    }

    /** noMatches: one localized "track_not_found" message is added. */
    method NoMatches()
      modifies this
      ensures errors == old(errors) + [localize("track_not_found")]
    {
      errors := errors + [localize("track_not_found")];
    }

    /** loadFailed: the failure's own message is added. */
    method LoadFailed(message: string)
      modifies this
      ensures errors == old(errors) + [message]
    {
      errors := errors + [message];
    }

    /** getErrors: a read-only view of the messages, in arrival order. */
    function GetErrors(): (r: seq<string>)
      reads this
      ensures |r| == |errors| && forall i :: 0 <= i < |r| ==> r[i] == errors[i]
    {
      errors
    }

    /**
     * What the engine's resolver does with the handler: it creates the track
     * objects for the result and calls the one matching callback.
     */
    method Deliver(result: LoadResult)
      requires queue.Valid()
      modifies this, queue, queue.engine
      ensures queue.Valid() && queue.State() == LoadInto(old(queue.State()), result)
      ensures errors == old(errors) + LoadErrors(result, localize)
    {
      match result
      case TrackFound(info) =>
        DeliverTrack(info);
      case PlaylistFound(infos) =>
        DeliverPlaylist(infos);
      case NoMatch =>
        NoMatches();
      case Failed(message) =>
        LoadFailed(message);
    }

    /** A found track: the engine creates its track object and trackLoaded takes it. */
    method DeliverTrack(info: TrackInfo)
      requires queue.Valid()
      modifies this, queue, queue.engine
      ensures queue.Valid() && queue.State() == LoadInto(old(queue.State()), TrackFound(info))
      ensures errors == old(errors)
    {
      ghost var s := queue.State();
      var t := queue.engine.NewTrack(info);
      assert queue.State() == s.(nextId := s.nextId + 1);
      FreshUnderNewIds(s, s.nextId + 1);
      TrackLoaded(t);
    }

    /** A found playlist: the engine creates the track objects and playlistLoaded takes them. */
    method DeliverPlaylist(infos: seq<TrackInfo>)
      requires queue.Valid()
      modifies this, queue, queue.engine
      ensures queue.Valid() && queue.State() == LoadInto(old(queue.State()), PlaylistFound(infos))
      ensures errors == old(errors)
    {
      ghost var s := queue.State();
      var ts := queue.engine.NewTracks(infos);
      assert ts == LoadedTracks(PlaylistFound(infos), s.nextId);
      assert queue.State() == s.(nextId := s.nextId + |ts|);
      FreshUnderNewIds(s, s.nextId + |ts|);
      PlaylistLoaded(ts);
    }
  }
}
