/**
 * Audio tracks as the playback engine hands them out: an identity (the Java
 * object) and the information the bot reads from it (`getInfo().uri`,
 * `getInfo().title`). `makeClone` is modelled as the same information under a
 * new identity.
 */
module Tracks {

  datatype TrackInfo = TrackInfo(uri: string, title: string)

  datatype Track = Track(id: nat, info: TrackInfo)

  /** The clone of `t` that receives identity `id`. */
  function Clone(t: Track, id: nat): (c: Track)
    ensures c.info == t.info && c.id == id
  {
    Track(id, t.info)
  }

  /** Clones of `ts`, in order, with identities `from`, `from + 1`, ... */
  function CloneAll(ts: seq<Track>, from: nat): (cs: seq<Track>)
    ensures |cs| == |ts|
    ensures forall i :: 0 <= i < |ts| ==> cs[i].info == ts[i].info && cs[i].id == from + i
    decreases |ts|
  {
    if ts == [] then [] else [Clone(ts[0], from)] + CloneAll(ts[1..], from + 1)
  }

  /** New track objects for `infos`, in order, with identities `from`, `from + 1`, ... */
  function Created(infos: seq<TrackInfo>, from: nat): (ts: seq<Track>)
    ensures |ts| == |infos|
    ensures forall i :: 0 <= i < |infos| ==> ts[i] == Track(from + i, infos[i])
    decreases |infos|
  {
    if infos == [] then [] else [Track(from, infos[0])] + Created(infos[1..], from + 1)
  }

  /** Every track of `ts` has an identity below `n`. */
  ghost predicate IdsBelow(ts: seq<Track>, n: nat)
  {
    forall t :: t in ts ==> t.id < n
  }

  /** Every track of `ts` has an identity in `[lo, hi)`. */
  ghost predicate IdsWithin(ts: seq<Track>, lo: nat, hi: nat)
  {
    forall t :: t in ts ==> lo <= t.id < hi
  }

  /** What a listener sees of a list of tracks: their infos, in order. */
  function Infos(ts: seq<Track>): (r: seq<TrackInfo>)
    ensures |r| == |ts|
    ensures forall i :: 0 <= i < |ts| ==> r[i] == ts[i].info
    decreases |ts|
  {
    if ts == [] then [] else [ts[0].info] + Infos(ts[1..])
  }

  lemma {:induction false} InfosAppend(a: seq<Track>, b: seq<Track>)
    ensures Infos(a + b) == Infos(a) + Infos(b)
  {
    assert |Infos(a + b)| == |Infos(a) + Infos(b)|;
    forall i | 0 <= i < |a + b| ensures Infos(a + b)[i] == (Infos(a) + Infos(b))[i] {
      if i < |a| {
        assert (a + b)[i] == a[i];
      } else {
        assert (a + b)[i] == b[i - |a|];
      }
    }
  }

  /** The clones of a list carry exactly its infos, and fresh identities. */
  lemma CloneAllInfos(ts: seq<Track>, from: nat)
    ensures Infos(CloneAll(ts, from)) == Infos(ts)
    ensures IdsWithin(CloneAll(ts, from), from, from + |ts|)
  {
    var cs := CloneAll(ts, from);
    forall c | c in cs ensures from <= c.id < from + |ts| {
      var i :| 0 <= i < |cs| && cs[i] == c;
    }
  }
}
