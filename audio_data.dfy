/** The record the registry keeps per loaded sound or opened stream
    (AudioDataBase, SoundData and SoundStreamData). */
module AudioData {
  import opened Playback

  /** audioID_t; the 32-bit width is not modelled. */
  type AudioID = nat

  datatype Option<T> = None | Some(value: T)

  /** The AudioDataBase fields, the playback object `audio` (None while it is
      still the null pointer a record holds until first played) and the
      engine-specific payload: the decoded sample buffer of a sound, nothing
      for a stream. */
  datatype AudioRecord<P> = AudioRecord(
    looping: bool,
    volume: real,
    pitch: real,
    path: string,
    played: bool,
    ID: AudioID,
    audio: Option<Handle>,
    data: P)

  /** Every record owns a playback object exactly when it has been played. */
  predicate WellFormed<P>(rec: AudioRecord<P>) {
    rec.played <==> rec.audio.Some?
  }

  /** What no call of the manager changes in a record that stays registered:
      the settings given at load time, the path, the id and the payload; and
      a record once played stays played. */
  ghost predicate Evolves<P>(before: map<AudioID, AudioRecord<P>>, after: map<AudioID, AudioRecord<P>>) {
    forall k :: k in before && k in after ==> RecordEvolves(before[k], after[k])
  }

  ghost predicate RecordEvolves<P>(r0: AudioRecord<P>, r1: AudioRecord<P>) {
    && r1.looping == r0.looping && r1.volume == r0.volume && r1.pitch == r0.pitch
    && r1.path == r0.path && r1.ID == r0.ID && r1.data == r0.data
    && (r0.played ==> r1.played)
  }

  // ---- iteration order of the registry's map ----
  // The model fixes one order: a new key goes last, and erasing a key keeps
  // the others in place. The C++ map does not promise either position.

  predicate Distinct(s: seq<AudioID>) {
    forall i, j :: 0 <= i < j < |s| ==> s[i] != s[j]
  }

  /** `s` lists every key of `keys` exactly once. */
  ghost predicate IsOrderOf(s: seq<AudioID>, keys: set<AudioID>) {
    && Distinct(s)
    && |s| == |keys|
    && (forall i :: 0 <= i < |s| ==> s[i] in keys)
    && (forall k :: k in keys ==> k in s)
  }

  /** `s` with `x` taken out, the others keeping their relative order
      (what erasing a key does to the iteration order). */
  function Without(s: seq<AudioID>, x: AudioID): (r: seq<AudioID>)
    ensures |r| <= |s|
    ensures forall y :: y in r <==> y in s && y != x
  {
    if s == [] then []
    else if s[0] == x then Without(s[1..], x)
    else [s[0]] + Without(s[1..], x)
  }

  lemma {:induction false} WithoutDistinct(s: seq<AudioID>, x: AudioID)
    requires Distinct(s) && x in s
    ensures Distinct(Without(s, x)) && |Without(s, x)| == |s| - 1
  {
    if s[0] == x {
      assert x !in s[1..];
      WithoutAbsent(s[1..], x);
    } else {
      WithoutDistinct(s[1..], x);
      var r := Without(s[1..], x);
      assert s[0] !in r;
    }
  }

  lemma {:induction false} WithoutAbsent(s: seq<AudioID>, x: AudioID)
    requires x !in s
    ensures Without(s, x) == s
  {
    if s != [] {
      WithoutAbsent(s[1..], x);
    }
  }

  /** Erasing the first key visited leaves the rest of the order as it was. */
  lemma WithoutFirst(s: seq<AudioID>)
    requires Distinct(s) && s != []
    ensures Without(s, s[0]) == s[1..]
  {
    assert s[0] !in s[1..];
    WithoutAbsent(s[1..], s[0]);
  }

  /** Erasing a registered key keeps `IsOrderOf`. */
  lemma EraseKeepsOrder(s: seq<AudioID>, keys: set<AudioID>, x: AudioID)
    requires IsOrderOf(s, keys) && x in keys
    ensures IsOrderOf(Without(s, x), keys - {x})
  {
    WithoutDistinct(s, x);
    var r, rest := Without(s, x), keys - {x};
    assert keys == rest + {x} && x !in rest;
    assert |rest| == |keys| - 1;
    forall i | 0 <= i < |r| ensures r[i] in rest {
      assert r[i] in r;
    }
  }

  /** Walking a distinct order one position further visits exactly one new key. */
  lemma PrefixStep(s: seq<AudioID>, i: nat)
    requires Distinct(s) && i < |s|
    ensures s[i] !in s[..i]
    ensures forall k :: k in s[..i + 1] <==> k in s[..i] || k == s[i]
  {
    assert s[..i + 1] == s[..i] + [s[i]];
  }

  /** Inserting a fresh key at the end keeps `IsOrderOf`. */
  lemma InsertKeepsOrder(s: seq<AudioID>, keys: set<AudioID>, x: AudioID)
    requires IsOrderOf(s, keys) && x !in keys
    ensures IsOrderOf(s + [x], keys + {x})
  {
  }
}
