/**
 * The legacy queue of org.example (BotQueue). It has the same lists and
 * branches as the newer queue; its lastTrack is a nullable reference that
 * starts null and is reset to null when the queue runs dry, so the
 * repeat-track check never dereferences an unassigned field. Its played
 * length is the size of the played list.
 */
module LegacyQueue {
  import opened Wrappers
  import opened Tracks
  import opened RepeatStates
  import opened Shuffling
  import opened AudioEngine
  import opened QueueSpec
  import opened QueueLaws

  class BotQueue {
    const engine: Engine
    /** Every track ever added (used to repeat the queue). */
    var queue: seq<Track>
    /** Tracks still to play. */
    var work: seq<Track>
    /** Clones of tracks already played. */
    var previous: seq<Track>
    /** The nullable lastTrack reference. */
    var lastTrack: Option<Track>

    ghost function State(): QueueState
      reads this, engine
    {
      QueueState(queue, work, previous, if lastTrack.Some? then Last(lastTrack.value) else NoTrack,
                 engine.playing, engine.paused, engine.volume, engine.nextId)
    }

    ghost predicate Valid()
      reads this, engine
    {
      Fresh(State())
    }

    /** A new queue is empty and its lastTrack is null. */
    constructor (engine: Engine)
      requires engine.Valid()
      ensures this.engine == engine && Valid()
      ensures queue == [] && work == [] && previous == [] && lastTrack == None
    {
      this.engine := engine;
      queue := [];
      work := [];
      previous := [];
      lastTrack := None;
    }

    /**
     * trackLoaded: the track goes to the end of both lists. The console line
     * that follows reads the playing track's title, and throws when none plays.
     */
    method TrackLoaded(t: Track) returns (thrown: bool)
      requires Valid() && t.id < engine.nextId
      modifies this
      ensures Valid() && State() == Append(old(State()), [t])
      ensures thrown <==> engine.playing.None?
    {
      queue := queue + [t];
      work := work + [t];
      thrown := engine.playing.None?;
    }

    /** playlistLoaded: each track, in playlist order, goes to the end of both lists. */
    method PlaylistLoaded(ts: seq<Track>)
      requires Valid() && IdsBelow(ts, engine.nextId)
      modifies this
      ensures Valid() && State() == Append(old(State()), ts)
    {
      for i := 0 to |ts|
        invariant queue == old(queue) + ts[..i] && work == old(work) + ts[..i]
        invariant previous == old(previous) && lastTrack == old(lastTrack)
        invariant Valid()
      {
        assert ts[..i + 1] == ts[..i] + [ts[i]];
        assert ts[i] in ts;
        queue := queue + [ts[i]];
        work := work + [ts[i]];
      }
      assert ts[..|ts|] == ts;
    }

    /** noMatches: the engine is stopped. */
    method NoMatches()
      requires Valid()
      modifies engine
      ensures Valid() && State() == Stop(old(State()))
    {
      engine.StopTrack();
    }

    /** loadFailed: the engine is stopped (the failure itself is only logged). */
    method LoadFailed(message: string)
      requires Valid()
      modifies engine
      ensures Valid() && State() == Stop(old(State()))
    {
      engine.StopTrack();
    }

    /** onTrackEnd: only a finished track or a failed load advances the queue. */
    method OnTrackEnd(reason: EndReason, repeat: RepeatState, vol: int)
      requires Valid()
      modifies this, engine
      ensures Valid()
      ensures reason == FINISHED || reason == LOAD_FAILED ==> State() == NextSpec(old(State()), repeat, vol)
      ensures !(reason == FINISHED || reason == LOAD_FAILED) ==> State() == old(State())
    {
      if reason == FINISHED || reason == LOAD_FAILED {
        Next(repeat, vol);
      }
    }

    /** onTrackStuck: the stuck track is abandoned for the next one. */
    method OnTrackStuck(repeat: RepeatState, vol: int)
      requires Valid()
      modifies this, engine
      ensures Valid() && State() == NextSpec(old(State()), repeat, vol)
    {
      Next(repeat, vol);
    }

    /** next(): repeat the last track if there is one, else pop, refill or stop. */
    method Next(repeat: RepeatState, vol: int)
      requires Valid()
      modifies this, engine
      ensures Valid() && State() == NextSpec(old(State()), repeat, vol)
      decreases if work == [] then 1 else 0, 1
    {
      if repeat == REPEAT && lastTrack.Some? {
        ReplayLast(repeat, vol);
      } else if work != [] {
        PopAndPlay(repeat, vol);
      } else if repeat == REPEAT_QUEUE && queue != [] {
        RefillAndNext(repeat, vol);
      } else {
        RunDry(repeat, vol);
      }
    }

    /** The repeat-track branch of next(): a clone of the last track is played. */
    method ReplayLast(repeat: RepeatState, vol: int)
      requires Valid() && repeat == REPEAT && lastTrack.Some?
      modifies this, engine
      ensures Valid() && State() == NextSpec(old(State()), repeat, vol)
    {
      NextKeepsFresh(State(), repeat, vol);
      var c := engine.MakeClone(lastTrack.value);
      Play(c, vol);
    }

    /** The pop branch of next(): play the front, keep its clone as played. */
    method PopAndPlay(repeat: RepeatState, vol: int)
      requires Valid() && !(repeat == REPEAT && lastTrack.Some?) && work != []
      modifies this, engine
      ensures Valid() && State() == NextSpec(old(State()), repeat, vol)
    {
      NextKeepsFresh(State(), repeat, vol);
      var t := work[0];
      work := work[1..];
      var c := engine.MakeClone(t);
      previous := previous + [c];
      Play(t, vol);
    }

    /** The refill branch of next(): the work list is refilled and next() runs again. */
    method RefillAndNext(repeat: RepeatState, vol: int)
      requires Valid() && !(repeat == REPEAT && lastTrack.Some?) && work == []
      requires repeat == REPEAT_QUEUE && queue != []
      modifies this, engine
      ensures Valid() && State() == NextSpec(old(State()), repeat, vol)
      decreases 1, 0
    {
      NextRefillStep(State(), repeat, vol);
      Refill();
      Next(repeat, vol);
    }

    /** The last branch of next(): the engine stops and no track is remembered. */
    method RunDry(repeat: RepeatState, vol: int)
      requires Valid() && !(repeat == REPEAT && lastTrack.Some?) && work == []
      requires !(repeat == REPEAT_QUEUE && queue != [])
      modifies this, engine
      ensures Valid() && State() == NextSpec(old(State()), repeat, vol)
    {
      lastTrack := None;
      engine.StopTrack();
    }

    /** The refill of next(): clones of every added track, in order, become the work list. */
    method Refill()
      requires Valid() && work == []
      modifies this, engine
      ensures Valid()
      ensures State() == old(State()).(work := CloneAll(old(queue), old(engine.nextId)),
                                       nextId := old(engine.nextId) + |old(queue)|)
    {
      var cs := engine.MakeClones(queue);
      CloneAllInfos(queue, old(engine.nextId));
      work := cs;
    }

    /** The private play(track): the player's integer volume, start, remember it. */
    method Play(t: Track, vol: int)
      modifies this, engine
      ensures State() == QueueSpec.Play(old(State()), t, vol)
    {
      engine.SetVolume(vol);
      engine.PlayTrack(t);
      lastTrack := Some(t);
    }

    /** clear(): all three lists emptied and the engine stopped. */
    method Clear()
      requires Valid()
      modifies this, engine
      ensures Valid() && State() == ClearSpec(old(State()))
    {
      queue := [];
      work := [];
      previous := [];
      engine.StopTrack();
    }

    /** previous(); `thrown` reports the NullPointerException of an idle engine. */
    method Previous() returns (thrown: bool)
      requires Valid()
      modifies this, engine
      ensures Valid() && Outcome(State(), thrown) == PreviousSpec(old(State()))
    {
      PreviousKeepsFresh(State());
      if previous != [] {
        var back := previous[0];
        previous := previous[1..];
        if engine.playing.None? {
          return true;
        }
        var c := engine.MakeClone(engine.playing.value);
        work := [c] + work;
        engine.PlayTrack(back);
        thrown := false;
      } else {
        thrown := Rewind();
      }
    }

    /** rewind(); `thrown` reports the NullPointerException of an idle engine. */
    method Rewind() returns (thrown: bool)
      requires Valid()
      modifies engine
      ensures Valid() && Outcome(State(), thrown) == RewindSpec(old(State()))
    {
      if engine.playing.None? {
        return true;
      }
      var c := engine.MakeClone(engine.playing.value);
      engine.PlayTrack(c);
      thrown := false;
    }

    /**
     * shuffle(currentTrack): a clone of the current track goes in front, the
     * work list is permuted by Collections.shuffle with the given draws, and
     * next() runs.
     */
    method Shuffle(current: Option<Track>, draws: seq<nat>, repeat: RepeatState, vol: int)
      requires Valid() && (current.Some? ==> current.value.id < engine.nextId)
      modifies this, engine
      ensures Valid() && State() == ShuffleSpec(old(State()), current, draws, repeat, vol)
    {
      PermuteWork(current, draws);
      Next(repeat, vol);
    }

    /** The part of shuffle(currentTrack) before next(): re-queue the current track and permute. */
    method PermuteWork(current: Option<Track>, draws: seq<nat>)
      requires Valid() && (current.Some? ==> current.value.id < engine.nextId)
      modifies this, engine
      ensures Valid()
      ensures var pool := ShufflePool(old(State()), current);
        State() == pool.(work := Shuffling.Shuffle(pool.work, draws))
    {
      ghost var pool := ShufflePool(State(), current);
      if current.Some? {
        var c := engine.MakeClone(current.value);
        work := [c] + work;
      }
      assert State() == pool;
      ShufflePermutes(work, draws);
      work := Shuffling.Shuffle(work, draws);
      assert State() == pool.(work := Shuffling.Shuffle(pool.work, draws));
      assert Fresh(State()) by {
        forall t | t in work ensures t.id < engine.nextId {
          assert t in multiset(work);
        }
      }
    }

    function GetQueueLen(): (n: int)
      reads this
      ensures n == QueueLen(State()) && n >= 0
    {
      |work|
    }

    /** getPlayedQueueLen: the size of the played list, never negative. */
    function GetPlayedQueueLen(): (n: int)
      reads this
      ensures n == LegacyPlayedLen(State()) && n >= 0
    {
      |previous|
    }

    function GetWholeQueueLen(): (n: int)
      reads this
      ensures n == WholeLen(State()) && n >= 0
    {
      |queue|
    }

    function GetLink(): (link: string)
      reads this, engine
      ensures link == Link(State())
      ensures engine.playing.Some? ==> link == engine.playing.value.info.uri
      ensures engine.playing.None? ==> link == ""
    {
      if engine.playing.Some? then engine.playing.value.info.uri else ""
    }
  }
}
