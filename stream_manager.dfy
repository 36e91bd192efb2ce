/** SoundStreamManager: the engine whose records only name a file, streamed
    by a fresh sf::Music every time the record is played. */
module StreamEngine {
  import opened Playback
  import opened AudioData
  import opened ErrorCodes
  import opened FileTypes
  import opened Control
  import opened AudioManager

  type StreamRecord = AudioRecord<()>

  /** What opening a file for streaming gives: its duration in milliseconds,
      or None when the file cannot be opened. */
  type Opener = string -> Option<nat>

  /** A stream record as OpenStream registers it: not yet played. */
  function NewStream(looping: bool, volume: real, pitch: real, path: string, id: AudioID): (rec: StreamRecord)
    ensures WellFormed(rec) && !rec.played && rec.ID == id && rec.path == path
  {
    AudioRecord(looping, volume, pitch, path, false, id, None, ())
  }

  /** A new sf::Music opened on the path and configured from the record's
      settings, then played; play() leaves a stream that failed to open
      stopped. */
  function StreamHandle(rec: StreamRecord, file: Option<nat>): (h: Handle)
    ensures h.volume == rec.volume && h.pitch == rec.pitch && h.loop == rec.looping && h.offset == 0
    ensures h.status == (if file.Some? then Playing else Stopped)
    ensures h.duration == (if file.Some? then file.value else 0)
  {
    var h := Create(rec.volume, rec.pitch, rec.looping, if file.Some? then file.value else 0);
    if file.Some? then h.Play() else h
  }

  /** The body PlayStream and PlayAll run on one record: whatever playback
      object it had is replaced by a fresh one, and it counts as played. */
  function PlayStreamStep(rec: StreamRecord, open: Opener): (r: StreamRecord)
    ensures WellFormed(r) && r.played && RecordEvolves(rec, r)
    ensures r == rec.(played := true, audio := r.audio)
    ensures r.audio.Some? && r.audio.value == StreamHandle(rec, open(rec.path))
  {
    rec.(played := true, audio := Some(StreamHandle(rec, open(rec.path))))
  }

  class SoundStreamManager {
    const base: AudioManagerBase<()>

    ghost predicate Valid()
      reads this, base
    {
      base.Valid()
    }

    constructor ()
      ensures Valid() && fresh(base)
      ensures base.audioMap == map[] && base.order == [] && base.IDCounter == 0
    {
      base := new AudioManagerBase();
    }

    /** Checks the extension, then the capacity; the file itself is not
        opened until the stream is played. */
    method OpenStream(path: string, looping: bool, initVolume: real, pitch: real) returns (r: int)
      requires Valid() && '.' in path
      modifies base
      ensures Valid()
      ensures !IsTypeSupported(path) ==> r == UNSUPPORTED_FILE
      ensures IsTypeSupported(path) && |old(base.audioMap)| >= AUDIO_LIMIT ==> r == AUDIO_LIMIT_EXCEEDED
      ensures r <= 0 ==> unchanged(base)
      ensures r > 0 <==> IsTypeSupported(path) && |old(base.audioMap)| < AUDIO_LIMIT
      ensures r > 0 ==>
                && r == base.IDCounter == old(base.IDCounter) + 1
                && r !in old(base.audioMap)
                && base.audioMap == old(base.audioMap)[r := NewStream(looping, initVolume, pitch, path, r)]
                && |base.audioMap| == |old(base.audioMap)| + 1
                && base.order == old(base.order) + [r]
    {
      if !IsTypeSupported(path) {
        return UNSUPPORTED_FILE;
      }
      if |base.audioMap| < AUDIO_LIMIT {
        var id := base.GenerateID();
        base.Emplace(NewStream(looping, initVolume, pitch, path, id));
        return id;
      }
      return AUDIO_LIMIT_EXCEEDED;
    }

    /** Removes the first record in iteration order, whatever id is passed;
        INVALID_AUDIO_ID only when there is none. */
    method CloseStream(audioID: AudioID) returns (r: int)
      requires Valid()
      modifies base`audioMap, base`order
      ensures Valid()
      ensures r == (if old(base.order) == [] then INVALID_AUDIO_ID else SUCCESS)
      ensures old(base.order) == [] ==> base.audioMap == old(base.audioMap) && base.order == []
      ensures old(base.order) != [] ==>
                base.audioMap == old(base.audioMap) - {old(base.order)[0]} && base.order == old(base.order)[1..]
      ensures |base.audioMap| == if old(base.order) == [] then 0 else |old(base.audioMap)| - 1
    {
      if base.order == [] {
        assert base.audioMap.Keys == {};
        return INVALID_AUDIO_ID;
      }
      var first := base.order[0];
      WithoutFirst(base.order);
      base.Erase(first);
      return SUCCESS;
    }

    /** Plays one stream from the start with a fresh playback object built
        from the record's load-time settings. */
    method PlayStream(audioID: AudioID, open: Opener) returns (r: int)
      requires Valid()
      modifies base`audioMap
      ensures Valid() && Evolves(old(base.audioMap), base.audioMap)
      ensures r == (if audioID in old(base.audioMap) then SUCCESS else INVALID_AUDIO_ID)
      ensures base.audioMap.Keys == old(base.audioMap).Keys
      ensures audioID !in old(base.audioMap) ==> base.audioMap == old(base.audioMap)
      ensures audioID in old(base.audioMap) ==>
                base.audioMap == old(base.audioMap)[audioID := PlayStreamStep(old(base.audioMap)[audioID], open)]
      ensures r == SUCCESS ==>
                base.IsPlaying(audioID) == (if open(base.audioMap[audioID].path).Some? then 1 else 0) &&
                base.GetPlayingPosition(audioID) == 0
    {
      var ad := base.ReturnAudioData(audioID);
      if ad.None? {
        return INVALID_AUDIO_ID;
      }
      base.Update(PlayStreamStep(ad.value, open));
      return SUCCESS;
    }

    /** Plays every stream in iteration order; always SUCCESS. */
    method PlayAll(open: Opener) returns (r: int)
      requires Valid()
      modifies base`audioMap
      ensures Valid() && Evolves(old(base.audioMap), base.audioMap)
      ensures r == SUCCESS
      ensures base.audioMap.Keys == old(base.audioMap).Keys
      ensures forall k :: k in base.audioMap ==> base.audioMap[k] == PlayStreamStep(old(base.audioMap)[k], open)
    {
      var m := MapRecords(base.audioMap, base.order, (rec: StreamRecord) => PlayStreamStep(rec, open));
      base.Assign(m);
      return SUCCESS;
    }
  }
}
