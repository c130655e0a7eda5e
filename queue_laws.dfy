/**
 * What the queue transitions of QueueSpec promise: the branches of next(),
 * the effect of previous(), rewind(), shuffle() and clear(), freshness of the
 * track identities, and how the list lengths evolve.
 */
module QueueLaws {
  import opened Wrappers
  import opened Tracks
  import opened RepeatStates
  import opened Shuffling
  import opened QueueSpec

  /** next() takes the repeat-track branch. */
  predicate Replays(s: QueueState, repeat: RepeatState)
  {
    repeat == REPEAT && s.last.Last?
  }

  /** next() takes the repeat-queue refill branch. */
  predicate Refills(s: QueueState, repeat: RepeatState)
  {
    !Replays(s, repeat) && s.work == [] && repeat == REPEAT_QUEUE && s.queue != []
  }

  // ---- loading -------------------------------------------------------------

  /** Loaded tracks land, in order, at the end of both lists; nothing else moves. */
  lemma AppendAtEnd(s: QueueState, ts: seq<Track>)
    ensures var r := Append(s, ts);
      && r.queue[..|s.queue|] == s.queue && r.queue[|s.queue|..] == ts
      && r.work[..|s.work|] == s.work && r.work[|s.work|..] == ts
      && r.previous == s.previous && r.playing == s.playing && r.last == s.last
  {
    var r := Append(s, ts);
    assert r.queue[..|s.queue|] == s.queue;
    assert r.work[..|s.work|] == s.work;
  }

  lemma AppendKeepsFresh(s: QueueState, ts: seq<Track>)
    requires Fresh(s) && IdsBelow(ts, s.nextId)
    ensures Fresh(Append(s, ts))
  {
  }

  // ---- next() --------------------------------------------------------------

  /** Repeat-track: a clone of the last track plays; the three lists stay as they are. */
  lemma NextReplaysLast(s: QueueState, repeat: RepeatState, vol: int)
    requires Replays(s, repeat)
    ensures var r := NextSpec(s, repeat, vol);
      && r.queue == s.queue && r.work == s.work && r.previous == s.previous
      && r.playing.Some? && r.playing.value.info == s.last.track.info
      && r.playing.value.id == s.nextId && r.last == Last(r.playing.value)
      && r.volume == vol && r.paused == s.paused
  {
  }

  /**
   * The pop branch: the front of the work list plays and becomes the last
   * track, and its clone goes to the back of the played list.
   */
  lemma NextPopsFront(s: QueueState, repeat: RepeatState, vol: int)
    requires !Replays(s, repeat) && s.work != []
    ensures var r := NextSpec(s, repeat, vol);
      && r.playing == Some(s.work[0]) && r.last == Last(s.work[0])
      && r.work == s.work[1..]
      && r.previous == s.previous + [Clone(s.work[0], s.nextId)]
      && r.queue == s.queue && r.volume == vol && r.paused == s.paused
      && |r.work| + |r.previous| == |s.work| + |s.previous|
  {
  }

  /** Refilling is one step of next(): next() then runs on the refilled state. */
  lemma NextRefillStep(s: QueueState, repeat: RepeatState, vol: int)
    requires Refills(s, repeat)
    ensures NextSpec(s, repeat, vol)
         == NextSpec(s.(work := CloneAll(s.queue, s.nextId), nextId := s.nextId + |s.queue|), repeat, vol)
  {
    assert s.work + CloneAll(s.queue, s.nextId) == CloneAll(s.queue, s.nextId);
  }

  /**
   * The refill branch: the work list is refilled with clones of every track
   * ever added, and the first of them plays at once.
   */
  lemma {:induction false} NextRefills(s: QueueState, repeat: RepeatState, vol: int)
    requires Refills(s, repeat)
    ensures var r := NextSpec(s, repeat, vol);
      && r.playing.Some? && r.playing.value.info == s.queue[0].info
      && r.playing.value.id == s.nextId
      && Infos(r.work) == Infos(s.queue[1..])
      && Infos(r.previous) == Infos(s.previous) + [s.queue[0].info]
      && r.queue == s.queue && r.nextId == s.nextId + |s.queue| + 1
      && |r.work| + |r.previous| == |s.work| + |s.previous| + |s.queue|
  {
    var cs := CloneAll(s.queue, s.nextId);
    var s1 := s.(work := cs, nextId := s.nextId + |s.queue|);
    assert s.work + cs == cs;
    assert NextSpec(s, repeat, vol) == NextSpec(s1, repeat, vol);
    var r := NextSpec(s1, repeat, vol);
    assert Infos(r.work) == Infos(s.queue[1..]) by {
      assert r.work == cs[1..];
    }
    InfosAppend(s.previous, [Clone(cs[0], s1.nextId)]);
  }

  /** Exhaustion: nothing plays, the last track is forgotten, the lists stay. */
  lemma NextExhausted(s: QueueState, repeat: RepeatState, vol: int)
    requires !Replays(s, repeat) && s.work == [] && !Refills(s, repeat)
    ensures var r := NextSpec(s, repeat, vol);
      && r.playing == None && Link(r) == "" && r.last == NoTrack
      && r.queue == s.queue && r.work == s.work && r.previous == s.previous
  {
  }

  /** next() never changes the list of added tracks and only consumes identities. */
  lemma NextFrame(s: QueueState, repeat: RepeatState, vol: int)
    ensures var r := NextSpec(s, repeat, vol);
      && r.queue == s.queue && r.paused == s.paused && r.nextId >= s.nextId
      && (r.volume == s.volume || r.volume == vol)
  {
    if Refills(s, repeat) {
      NextRefills(s, repeat, vol);
    }
  }

  lemma {:induction false} NextKeepsFresh(s: QueueState, repeat: RepeatState, vol: int)
    requires Fresh(s)
    ensures Fresh(NextSpec(s, repeat, vol))
    decreases if s.work == [] then 1 else 0
  {
    if Replays(s, repeat) {
    } else if s.work != [] {
      assert s.work[0] in s.work;
      forall t | t in s.work[1..] ensures t.id < s.nextId + 1 {
        assert t in s.work;
      }
    } else if Refills(s, repeat) {
      var cs := CloneAll(s.queue, s.nextId);
      CloneAllInfos(s.queue, s.nextId);
      var s1 := s.(work := cs, nextId := s.nextId + |s.queue|);
      NextRefillStep(s, repeat, vol);
      assert Fresh(s1);
      NextKeepsFresh(s1, repeat, vol);
    }
  }

  /** A fresh clone is a new instance: no track the state mentions shares its identity. */
  lemma FreshIdIsNew(s: QueueState)
    requires Fresh(s)
    ensures forall t :: t in s.queue || t in s.work || t in s.previous ==> t.id != s.nextId
    ensures s.playing.Some? ==> s.playing.value.id != s.nextId
    ensures s.last.Last? ==> s.last.track.id != s.nextId
  {
  }

  /** next() on an empty queue without repeat stops, and nothing is thrown. */
  lemma NextOnEmptyStops(s: QueueState, vol: int)
    requires s.work == []
    ensures !NextAsWritten(s, NONE, vol).thrown
    ensures Link(NextAsWritten(s, NONE, vol).state) == ""
  {
  }

  // ---- next() as written: the uninitialised lastTrack --------------------

  /** As written, next() under REPEAT throws while lastTrack has never been assigned. */
  lemma NextAsWrittenThrowsBeforeFirstPlay(s: QueueState, vol: int)
    requires s.last == Unset
    ensures NextAsWritten(s, REPEAT, vol).thrown
    ensures NextAsWritten(s, REPEAT, vol).state == s
  {
  }

  /** Concretely: a fresh queue holding one track, with repeat on, cannot start playing. */
  lemma FreshRepeatQueueCannotStart()
    ensures var a := Track(0, TrackInfo("trackA", "A"));
      var s := QueueState([a], [a], [], Unset, None, false, 0, 1);
      NextAsWritten(s, REPEAT, 2).thrown && NextAsWritten(s, REPEAT, 2).state.playing == None
  {
  }

  /** Everywhere else the code as written and the corrected next() coincide. */
  lemma NextAsWrittenAgrees(s: QueueState, repeat: RepeatState, vol: int)
    requires !(repeat == REPEAT && s.last == Unset)
    ensures NextAsWritten(s, repeat, vol) == Outcome(NextSpec(s, repeat, vol), false)
  {
  }

  /**
   * shuffle(currentTrack) as written throws exactly when next() does, leaving
   * the permuted work list in place; otherwise it is ShuffleSpec.
   */
  lemma ShuffleAsWrittenAgrees(s: QueueState, current: Option<Track>, draws: seq<nat>,
                               repeat: RepeatState, vol: int)
    ensures var o := ShuffleAsWritten(s, current, draws, repeat, vol);
      var pool := ShufflePool(s, current);
      && (o.thrown <==> repeat == REPEAT && s.last.Unset?)
      && (o.thrown ==> o.state == pool.(work := Shuffle(pool.work, draws)))
      && (!o.thrown ==> o.state == ShuffleSpec(s, current, draws, repeat, vol))
  {
  }

  /** Corrected: with repeat on and nothing played yet, next() starts the front of the work list. */
  lemma NextRepeatBeforeFirstPlay(s: QueueState, vol: int)
    requires s.last == Unset && s.work != []
    ensures NextSpec(s, REPEAT, vol).playing == Some(s.work[0])
    ensures NextSpec(s, REPEAT, vol).last == Last(s.work[0])
  {
  }

  // ---- previous() and rewind() ---------------------------------------------

  /** rewind() throws exactly when nothing plays; otherwise a clone of the playing track plays. */
  lemma RewindReplays(s: QueueState)
    ensures RewindSpec(s).thrown <==> s.playing.None?
    ensures !RewindSpec(s).thrown ==>
      var r := RewindSpec(s).state;
      && r.playing.value.info == s.playing.value.info && r.playing.value.id == s.nextId
      && r.queue == s.queue && r.work == s.work && r.previous == s.previous && r.last == s.last
  {
  }

  /** previous() with an empty played list is rewind(). */
  lemma PreviousWithoutHistoryRewinds(s: QueueState)
    requires s.previous == []
    ensures PreviousSpec(s) == RewindSpec(s)
  {
  }

  /** previous() throws exactly when nothing plays. */
  lemma PreviousThrows(s: QueueState)
    ensures PreviousSpec(s).thrown <==> s.playing.None?
  {
  }

  /**
   * previous() with history: the front (oldest) played clone starts, a clone
   * of the interrupted track becomes the next to play, lastTrack is not touched,
   * and the two lists together keep their length.
   */
  lemma PreviousTakesFront(s: QueueState)
    requires s.previous != [] && s.playing.Some?
    ensures var o := PreviousSpec(s);
      && !o.thrown && o.state.playing == Some(s.previous[0])
      && o.state.previous == s.previous[1..]
      && o.state.work == [Clone(s.playing.value, s.nextId)] + s.work
      && o.state.last == s.last && o.state.queue == s.queue
      && |o.state.work| + |o.state.previous| == |s.work| + |s.previous|
  {
  }

  /**
   * Because next() appends at the back and previous() takes the front, going
   * back after a skip returns to the oldest played track, not to the one just left.
   */
  lemma {:induction false} PreviousAfterNextIsOldest(s: QueueState, repeat: RepeatState, vol: int)
    requires !Replays(s, repeat) && s.work != [] && s.previous != []
    ensures PreviousSpec(NextSpec(s, repeat, vol)).state.playing == Some(s.previous[0])
  {
    NextPopsFront(s, repeat, vol);
  }

  /** With no history, previous() after next() undoes it, as far as a listener can tell. */
  lemma {:induction false} PreviousUndoesFirstNext(s: QueueState, repeat: RepeatState, vol: int)
    requires !Replays(s, repeat) && s.work != [] && s.previous == []
    ensures var o := PreviousSpec(NextSpec(s, repeat, vol));
      && !o.thrown && o.state.playing.value.info == s.work[0].info
      && Infos(o.state.work) == Infos(s.work) && o.state.previous == []
  {
    NextPopsFront(s, repeat, vol);
    var r := NextSpec(s, repeat, vol);
    var o := PreviousSpec(r);
    assert o.state.work == [Clone(s.work[0], r.nextId)] + s.work[1..];
    InfosAppend([Clone(s.work[0], r.nextId)], s.work[1..]);
    InfosAppend([s.work[0]], s.work[1..]);
    assert [s.work[0]] + s.work[1..] == s.work;
  }

  lemma PreviousKeepsFresh(s: QueueState)
    requires Fresh(s)
    ensures Fresh(PreviousSpec(s).state)
  {
    if s.previous != [] {
      assert s.previous[0] in s.previous;
      forall t | t in s.previous[1..] ensures t.id < s.nextId {
        assert t in s.previous;
      }
    }
  }

  // ---- shuffle() -----------------------------------------------------------

  /** The list that is permuted: the work list, after a clone of the current track. */
  lemma ShufflePoolContents(s: QueueState, current: Option<Track>)
    ensures var pool := ShufflePool(s, current);
      && |pool.work| == |s.work| + (if current.Some? then 1 else 0)
      && (current.Some? ==> pool.work == [Clone(current.value, s.nextId)] + s.work)
      && (current.None? ==> pool.work == s.work)
      && pool.queue == s.queue && pool.previous == s.previous && pool.last == s.last
  {
  }

  /**
   * shuffle() then next(): unless the last track is replayed, exactly one
   * track of the pool starts and the rest of the pool, permuted, is left to play.
   */
  lemma {:induction false} ShufflePlaysOneOfPool(s: QueueState, current: Option<Track>, draws: seq<nat>,
                                                 repeat: RepeatState, vol: int)
    requires !Replays(s, repeat)
    requires s.work != [] || current.Some?
    ensures var pool := ShufflePool(s, current);
      var r := ShuffleSpec(s, current, draws, repeat, vol);
      && r.playing.Some?
      && multiset(r.work) + multiset{r.playing.value} == multiset(pool.work)
      && |r.work| == |pool.work| - 1
      && r.queue == s.queue
  {
    var pool := ShufflePool(s, current);
    var sh := Shuffle(pool.work, draws);
    ShufflePermutes(pool.work, draws);
    var p := pool.(work := sh);
    assert !Replays(p, repeat);
    NextPopsFront(p, repeat, vol);
    assert sh == [sh[0]] + sh[1..];
  }

  /** Shuffling with nothing to play and nothing to refill from is a stop. */
  lemma ShuffleEmptyStops(s: QueueState, draws: seq<nat>, repeat: RepeatState, vol: int)
    requires s.work == [] && !Replays(s, repeat) && !Refills(s, repeat)
    ensures ShuffleSpec(s, None, draws, repeat, vol).playing == None
    ensures ShuffleSpec(s, None, draws, repeat, vol).last == NoTrack
  {
  }

  lemma {:induction false} ShuffleKeepsFresh(s: QueueState, current: Option<Track>, draws: seq<nat>,
                                             repeat: RepeatState, vol: int)
    requires Fresh(s) && (current.Some? ==> current.value.id < s.nextId)
    ensures Fresh(ShuffleSpec(s, current, draws, repeat, vol))
  {
    var pool := ShufflePool(s, current);
    var sh := Shuffle(pool.work, draws);
    ShufflePermutes(pool.work, draws);
    forall t | t in sh ensures t.id < pool.nextId {
      assert t in multiset(sh);
      assert t in pool.work;
    }
    NextKeepsFresh(pool.(work := sh), repeat, vol);
  }

  // ---- clear() ------------------------------------------------------------

  lemma ClearEmpties(s: QueueState)
    ensures var r := ClearSpec(s);
      && r.queue == [] && r.work == [] && r.previous == [] && r.playing == None
      && r.last == s.last && Link(r) == ""
  {
  }

  /**
   * clear() keeps lastTrack, so with repeat on the next next() replays the
   * cleared track.
   */
  lemma ClearThenNextReplays(s: QueueState, vol: int)
    requires s.last.Last?
    ensures NextSpec(ClearSpec(s), REPEAT, vol).playing.Some?
    ensures NextSpec(ClearSpec(s), REPEAT, vol).playing.value.info == s.last.track.info
  {
  }

  // ---- lengths ----------------------------------------------------------

  /** Tracks waiting or played never outnumber the tracks added. */
  ghost predicate Bounded(s: QueueState)
  {
    |s.work| + |s.previous| <= |s.queue|
  }

  /** Without repeat-queue, next(), previous(), rewind() and clear() keep the bound. */
  lemma {:induction false} BoundedUnderNext(s: QueueState, repeat: RepeatState, vol: int)
    requires Bounded(s) && repeat != REPEAT_QUEUE
    ensures Bounded(NextSpec(s, repeat, vol))
  {
    if !Replays(s, repeat) && s.work != [] {
      NextPopsFront(s, repeat, vol);
    }
  }

  lemma BoundedUnderPrevious(s: QueueState)
    requires Bounded(s)
    ensures Bounded(PreviousSpec(s).state)
  {
  }

  lemma BoundedUnderAppendAndClear(s: QueueState, ts: seq<Track>)
    requires Bounded(s)
    ensures Bounded(Append(s, ts)) && Bounded(ClearSpec(s))
  {
  }

  /**
   * The legacy played length counts the played list: one more per popping
   * next(), one less per popping previous(), none after clear().
   */
  lemma LegacyPlayedLenSteps(s: QueueState, repeat: RepeatState, vol: int)
    ensures !Replays(s, repeat) && s.work != [] ==>
      LegacyPlayedLen(NextSpec(s, repeat, vol)) == LegacyPlayedLen(s) + 1
    ensures s.previous != [] ==> LegacyPlayedLen(PreviousSpec(s).state) == LegacyPlayedLen(s) - 1
    ensures LegacyPlayedLen(ClearSpec(s)) == 0
  {
  }

  /** Under the bound the played length is never negative. */
  lemma BoundedPlayedLen(s: QueueState)
    requires Bounded(s)
    ensures 0 <= PlayedLen(s) <= |s.queue|
  {
  }

  /**
   * With repeat-queue the bound fails: one track, two skips and two steps back
   * leave two tracks waiting in a queue of one, and a played length of -1.
   */
  lemma PlayedLenCanBeNegative()
    ensures var a := Track(0, TrackInfo("trackA", "A"));
      var s0 := Append(QueueState([], [], [], NoTrack, None, false, 0, 1), [a]);
      var s2 := NextSpec(NextSpec(s0, REPEAT_QUEUE, 2), REPEAT_QUEUE, 2);
      var s4 := PreviousSpec(PreviousSpec(s2).state).state;
      |s4.work| == 2 && |s4.queue| == 1 && PlayedLen(s4) == -1
  {
    var a := Track(0, TrackInfo("trackA", "A"));
    var s0 := Append(QueueState([], [], [], NoTrack, None, false, 0, 1), [a]);
    var s1 := NextSpec(s0, REPEAT_QUEUE, 2);
    NextPopsFront(s0, REPEAT_QUEUE, 2);
    var s2 := NextSpec(s1, REPEAT_QUEUE, 2);
    NextRefills(s1, REPEAT_QUEUE, 2);
    assert |s2.previous| == 2 && s2.work == [] && s2.playing.Some?;
  }

  /**
   * Without repeat-queue the bound fails too: shuffle re-queues a clone of
   * the playing track that was never added, so one track, a shuffle and two
   * steps back again leave a played length of -1, whatever the draws.
   */
  lemma ShuffleThenBackTwiceNegative(draws: seq<nat>)
    ensures var a := Track(0, TrackInfo("trackA", "A"));
      var s0 := Append(QueueState([], [], [], NoTrack, None, false, 0, 1), [a]);
      var s1 := NextSpec(s0, NONE, 2);
      var s2 := ShuffleSpec(s1, s1.playing, draws, NONE, 2);
      var s4 := PreviousSpec(PreviousSpec(s2).state).state;
      |s4.work| == 2 && |s4.queue| == 1 && PlayedLen(s4) == -1
  {
    var a := Track(0, TrackInfo("trackA", "A"));
    var s0 := Append(QueueState([], [], [], NoTrack, None, false, 0, 1), [a]);
    var s1 := NextSpec(s0, NONE, 2);
    NextPopsFront(s0, NONE, 2);
    var pool := ShufflePool(s1, s1.playing);
    assert |pool.work| == 1;
    var s2 := NextSpec(pool.(work := Shuffle(pool.work, draws)), NONE, 2);
    NextPopsFront(pool.(work := Shuffle(pool.work, draws)), NONE, 2);
    assert |s2.previous| == 2 && s2.work == [] && s2.playing.Some? && |s2.queue| == 1;
  }

  // ---- a whole cycle ------------------------------------------------------

  /**
   * Repeat-queue over [A, B, C]: four calls of next() play A, B, C and then a
   * new instance carrying A's info.
   */
  lemma {:induction false} RepeatQueueCycle(s: QueueState, vol: int)
    requires Fresh(s) && |s.queue| == 3 && s.work == s.queue
    ensures var r1 := NextSpec(s, REPEAT_QUEUE, vol);
      var r2 := NextSpec(r1, REPEAT_QUEUE, vol);
      var r3 := NextSpec(r2, REPEAT_QUEUE, vol);
      var r4 := NextSpec(r3, REPEAT_QUEUE, vol);
      && r1.playing == Some(s.queue[0]) && r2.playing == Some(s.queue[1])
      && r3.playing == Some(s.queue[2])
      && r4.playing.Some? && r4.playing.value.info == s.queue[0].info
      && r4.playing.value != s.queue[0]
  {
    var r1 := NextSpec(s, REPEAT_QUEUE, vol);
    NextPopsFront(s, REPEAT_QUEUE, vol);
    var r2 := NextSpec(r1, REPEAT_QUEUE, vol);
    NextPopsFront(r1, REPEAT_QUEUE, vol);
    var r3 := NextSpec(r2, REPEAT_QUEUE, vol);
    NextPopsFront(r2, REPEAT_QUEUE, vol);
    assert r3.work == [] && r3.queue == s.queue && r3.nextId == s.nextId + 3;
    NextRefills(r3, REPEAT_QUEUE, vol);
    assert s.queue[0] in s.queue;
  }
}
