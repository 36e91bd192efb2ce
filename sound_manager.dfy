/** SoundManager: the engine whose records own a decoded sample buffer and
    an sf::Sound created on first play. */
module SoundEngine {
  import opened Playback
  import opened AudioData
  import opened ErrorCodes
  import opened FileTypes
  import opened Mixing
  import opened Control
  import opened AudioManager

  type SoundRecord = AudioRecord<SampleBuffer>

  /** A sound record as LoadSound or MixSounds registers it: not yet played,
      no playback object. */
  function NewSound(looping: bool, volume: real, pitch: real, path: string, id: AudioID,
                    buffer: SampleBuffer): (rec: SoundRecord)
    ensures WellFormed(rec) && !rec.played && rec.ID == id && rec.data == buffer
  {
    AudioRecord(looping, volume, pitch, path, false, id, None, buffer)
  }

  /** The body PlaySound and PlayAll run on one record: the first play
      creates the sf::Sound from the record's volume, pitch and looping flag
      and its buffer's duration; later plays reuse it, with whatever setters
      changed since. Either way the sound is then played. */
  function PlaySoundStep(rec: SoundRecord): (r: SoundRecord)
    requires WellFormed(rec)
    ensures WellFormed(r) && r.played && RecordEvolves(rec, r)
    ensures r == rec.(played := true, audio := r.audio)
    ensures r.audio.value.status == Playing
    ensures !rec.played ==>
              var h := r.audio.value;
              h.volume == rec.volume && h.pitch == rec.pitch && h.loop == rec.looping &&
              h.offset == 0 && h.duration == DurationMs(rec.data)
    ensures rec.played ==> r.audio.value == rec.audio.value.(status := Playing, offset := r.audio.value.offset)
    ensures rec.played && rec.audio.value.status == Paused ==> r.audio.value.offset == rec.audio.value.offset
  {
    var h := if rec.played then rec.audio.value
             else Create(rec.volume, rec.pitch, rec.looping, DurationMs(rec.data));
    rec.(played := true, audio := Some(h.Play()))
  }

  /** The buffers of the given ids, in the order given. */
  ghost function Buffers(m: map<AudioID, SoundRecord>, ids: seq<AudioID>): (bufs: seq<SampleBuffer>)
    requires forall i :: 0 <= i < |ids| ==> ids[i] in m
    ensures |bufs| == |ids| && forall i :: 0 <= i < |ids| ==> bufs[i] == m[ids[i]].data
  {
    seq(|ids|, i requires 0 <= i < |ids| => m[ids[i]].data)
  }

  /** The first loop of MixSounds: looks every id up in the order given,
      stopping at the first unknown one, and collects the sources' buffers,
      the longest sample count and (when asked) the sum of their rates. */
  method FindSounds(m: map<AudioID, SoundRecord>, ids: seq<AudioID>, sumRates: bool)
    returns (found: bool, bufs: seq<SampleBuffer>, count: nat, rateSum: nat)
    ensures found <==> forall i :: 0 <= i < |ids| ==> ids[i] in m
    ensures found ==> bufs == Buffers(m, ids) && count == MaxSampleCount(bufs)
    ensures found && sumRates ==> rateSum == RateSum(bufs)
  {
    bufs, count, rateSum := [], 0, 0;
    for i := 0 to |ids|
      invariant |bufs| == i
      invariant forall j :: 0 <= j < i ==> ids[j] in m && bufs[j] == m[ids[j]].data
      invariant count == MaxSampleCount(bufs)
      invariant sumRates ==> rateSum == RateSum(bufs)
    {
      if ids[i] !in m {
        return false, bufs, count, rateSum;
      }
      var buf := m[ids[i]].data;
      AppendOne(bufs, buf);
      bufs := bufs + [buf];
      if |buf.samples| > count {
        count := |buf.samples|;
      }
      if sumRates {
        rateSum := rateSum + buf.sampleRate;
      }
    }
    return true, bufs, count, rateSum;
  }

  class SoundManager {
    const base: AudioManagerBase<SampleBuffer>

    ghost predicate Valid()
      reads this, base
    {
      base.Valid()
    }

    constructor ()
      ensures Valid() && fresh(base)
      ensures base.audioMap == map[] && base.order == [] && base.IDCounter == 0
    {
      base := new AudioManagerBase();
    }

    /** Checks the extension, then the capacity, then loads the file (the
        `loaded` buffer, None when the file cannot be read); only a load
        that succeeds takes an id and registers the record. */
    method LoadSound(path: string, looping: bool, initVolume: real, pitch: real,
                     loaded: Option<SampleBuffer>) returns (r: int)
      requires Valid() && '.' in path
      modifies base
      ensures Valid()
      ensures !IsTypeSupported(path) ==> r == UNSUPPORTED_FILE
      ensures IsTypeSupported(path) && |old(base.audioMap)| >= AUDIO_LIMIT ==> r == AUDIO_LIMIT_EXCEEDED
      ensures IsTypeSupported(path) && |old(base.audioMap)| < AUDIO_LIMIT && loaded.None? ==> r == FILE_NOT_FOUND
      ensures r <= 0 ==> unchanged(base)
      ensures r > 0 <==> IsTypeSupported(path) && |old(base.audioMap)| < AUDIO_LIMIT && loaded.Some?
      ensures r > 0 ==>
                && r == base.IDCounter == old(base.IDCounter) + 1
                && r !in old(base.audioMap)
                && base.audioMap == old(base.audioMap)[r := NewSound(looping, initVolume, pitch, path, r, loaded.value)]
                && |base.audioMap| == |old(base.audioMap)| + 1
                && base.order == old(base.order) + [r]
    {
      if !IsTypeSupported(path) {
        return UNSUPPORTED_FILE;
      }
      if |base.audioMap| >= AUDIO_LIMIT {
        return AUDIO_LIMIT_EXCEEDED;
      }
      if loaded.None? {
        return FILE_NOT_FOUND;
      }
      var id := base.GenerateID();
      base.Emplace(NewSound(looping, initVolume, pitch, path, id, loaded.value));
      return id;
    }

    /** Removes the record, dropping its playback object. */
    method UnloadSound(audioID: AudioID) returns (r: int)
      requires Valid()
      modifies base`audioMap, base`order
      ensures Valid()
      ensures r == (if audioID in old(base.audioMap) then SUCCESS else INVALID_AUDIO_ID)
      ensures base.audioMap == old(base.audioMap) - {audioID}
      ensures base.order == Without(old(base.order), audioID)
    {
      var ad := base.ReturnAudioData(audioID);
      if ad.None? {
        WithoutAbsent(base.order, audioID);
        assert base.audioMap - {audioID} == base.audioMap;
        return INVALID_AUDIO_ID;
      }
      base.Erase(audioID);
      return SUCCESS;
    }

    /** Mixes the sounds of `ids`: all must be registered (the first unknown
        one ends the call with INVALID_AUDIO_ID); the samples are summed with
        16-bit wrap-around into a buffer as long as the longest source, with
        two channels at half the requested rate (with -1, half the mean of
        the sources' rates); only then is the capacity checked, and the mix
        is registered with an empty path. */
    method MixSounds(looping: bool, initVolume: real, pitch: real, sampleRate: int,
                     ids: seq<AudioID>) returns (r: int)
      requires Valid()
      requires sampleRate == -1 ==> |ids| > 0
      modifies base
      ensures Valid()
      ensures (exists i :: 0 <= i < |ids| && ids[i] !in old(base.audioMap)) ==> r == INVALID_AUDIO_ID
      ensures (forall i :: 0 <= i < |ids| ==> ids[i] in old(base.audioMap)) && |old(base.audioMap)| >= AUDIO_LIMIT ==>
                r == AUDIO_LIMIT_EXCEEDED
      ensures r <= 0 ==> unchanged(base)
      ensures r > 0 <==> (forall i :: 0 <= i < |ids| ==> ids[i] in old(base.audioMap)) && |old(base.audioMap)| < AUDIO_LIMIT
      ensures r > 0 ==>
                var bufs := Buffers(old(base.audioMap), ids);
                && r == base.IDCounter == old(base.IDCounter) + 1
                && r !in old(base.audioMap)
                && base.audioMap == old(base.audioMap)[r :=
                     NewSound(looping, initVolume, pitch, "", r, SampleBuffer(Mix(bufs), MixedRate(sampleRate, bufs), 2))]
                && |base.audioMap| == |old(base.audioMap)| + 1
                && base.order == old(base.order) + [r]
    {
      var found, bufs, count, rateSum := FindSounds(base.audioMap, ids, sampleRate == -1);
      if !found {
        return INVALID_AUDIO_ID;
      }
      var averageSampleRate: int := 0;
      if sampleRate == -1 {
        averageSampleRate := rateSum / |ids|;
      }
      var mixed := MixSamples(bufs, count);
      if |base.audioMap| < AUDIO_LIMIT {
        var rate := if sampleRate == -1 then averageSampleRate / 2 else ToUnsigned32(TruncDiv(sampleRate, 2));
        assert rate == MixedRate(sampleRate, bufs);
        var id := base.GenerateID();
        base.Emplace(NewSound(looping, initVolume, pitch, "", id, SampleBuffer(mixed, rate, 2)));
        return id;
      }
      return AUDIO_LIMIT_EXCEEDED;
    }

    /** Plays one sound, creating its playback object on the first play. */
    method PlaySound(audioID: AudioID) returns (r: int)
      requires Valid()
      modifies base`audioMap
      ensures Valid() && Evolves(old(base.audioMap), base.audioMap)
      ensures r == (if audioID in old(base.audioMap) then SUCCESS else INVALID_AUDIO_ID)
      ensures audioID !in old(base.audioMap) ==> base.audioMap == old(base.audioMap)
      ensures audioID in old(base.audioMap) ==>
                base.audioMap == old(base.audioMap)[audioID := PlaySoundStep(old(base.audioMap)[audioID])]
      ensures r == SUCCESS ==> base.IsPlaying(audioID) == 1
    {
      var ad := base.ReturnAudioData(audioID);
      if ad.None? {
        return INVALID_AUDIO_ID;
      }
      base.Update(PlaySoundStep(ad.value));
      return SUCCESS;
    }

    /** Plays every sound in iteration order; always SUCCESS. */
    method PlayAll() returns (r: int)
      requires Valid()
      modifies base`audioMap
      ensures Valid() && Evolves(old(base.audioMap), base.audioMap)
      ensures r == SUCCESS
      ensures base.audioMap.Keys == old(base.audioMap).Keys
      ensures forall k :: k in base.audioMap ==> base.audioMap[k] == PlaySoundStep(old(base.audioMap)[k])
      ensures forall k :: k in base.audioMap ==> base.IsPlaying(k) == 1
    {
      var m := MapRecords(base.audioMap, base.order, PlaySoundStep);
      base.Assign(m);
      return SUCCESS;
    }
  }
}
