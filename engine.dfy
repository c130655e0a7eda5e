/**
 * The audio engine (lavaplayer's AudioPlayer and its track factory) reduced to
 * what the bot observes and commands: the playing track, the paused flag, the
 * integer volume, and a counter that gives every new track object its identity.
 */
module AudioEngine {
  import opened Wrappers
  import opened Tracks

  /** How a track ended, as the engine reports it to its listeners. */
  datatype EndReason = FINISHED | LOAD_FAILED | STOPPED | REPLACED | CLEANUP

  class Engine {
    var playing: Option<Track>
    var paused: bool
    var volume: int
    /** Identity that the next track object the engine creates receives. */
    var nextId: nat

    /** Every track the engine refers to was created by it. */
    ghost predicate Valid()
      reads this
    {
      playing.Some? ==> playing.value.id < nextId
    }

    constructor ()
      ensures Valid()
      ensures playing == None && !paused && volume == 100 && nextId == 0
    {
      playing := None;
      paused := false;
      volume := 100;
      nextId := 0;
    }

    /** playTrack: the track starts; the paused flag is kept. */
    method PlayTrack(t: Track)
      modifies this
      ensures playing == Some(t)
      ensures paused == old(paused) && volume == old(volume) && nextId == old(nextId)
    {
      playing := Some(t);
    }

    /** stopTrack: nothing plays any more. */
    method StopTrack()
      modifies this
      ensures playing == None
      ensures paused == old(paused) && volume == old(volume) && nextId == old(nextId)
    {
      playing := None;
    }

    method SetVolume(v: int)
      modifies this
      ensures volume == v
      ensures playing == old(playing) && paused == old(paused) && nextId == old(nextId)
    {
      volume := v;
    }

    method SetPaused(p: bool)
      modifies this
      ensures paused == p
      ensures playing == old(playing) && volume == old(volume) && nextId == old(nextId)
    {
      paused := p;
    }

    /** makeClone: an independent track object with the same info. */
    method MakeClone(t: Track) returns (c: Track)
      modifies this
      ensures c == Clone(t, old(nextId)) && nextId == old(nextId) + 1
      ensures playing == old(playing) && paused == old(paused) && volume == old(volume)
    {
      c := Clone(t, nextId);
      nextId := nextId + 1;
    }

    /** `tracks.stream().map(AudioTrack::makeClone)`: one clone per track, in order. */
    method MakeClones(ts: seq<Track>) returns (cs: seq<Track>)
      modifies this
      ensures cs == CloneAll(ts, old(nextId)) && nextId == old(nextId) + |ts|
      ensures playing == old(playing) && paused == old(paused) && volume == old(volume)
    {
      cs := [];
      var i := 0;
      while i < |ts|
        invariant 0 <= i <= |ts| && nextId == old(nextId) + i
        invariant |cs| == i && forall k :: 0 <= k < i ==> cs[k] == Clone(ts[k], old(nextId) + k)
        invariant playing == old(playing) && paused == old(paused) && volume == old(volume)
      {
        var c := MakeClone(ts[i]);
        cs := cs + [c];
        i := i + 1;
      }
    }

    /** A track object the engine creates while resolving a link. */
    method NewTrack(info: TrackInfo) returns (t: Track)
      modifies this
      ensures t == Track(old(nextId), info) && nextId == old(nextId) + 1
      ensures playing == old(playing) && paused == old(paused) && volume == old(volume)
    {
      t := Track(nextId, info);
      nextId := nextId + 1;
    }

    /** The track objects the engine creates while resolving a playlist, in playlist order. */
    method NewTracks(infos: seq<TrackInfo>) returns (ts: seq<Track>)
      modifies this
      ensures ts == Created(infos, old(nextId)) && nextId == old(nextId) + |infos|
      ensures playing == old(playing) && paused == old(paused) && volume == old(volume)
    {
      ts := [];
      var i := 0;
      while i < |infos|
        invariant 0 <= i <= |infos| && nextId == old(nextId) + i
        invariant |ts| == i && forall k :: 0 <= k < i ==> ts[k] == Track(old(nextId) + k, infos[k])
        invariant playing == old(playing) && paused == old(paused) && volume == old(volume)
      {
        var t := NewTrack(infos[i]);
        ts := ts + [t];
        i := i + 1;
      }
    }
  }
}
