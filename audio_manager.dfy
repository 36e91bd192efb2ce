/** AudioManagerBase<T>: the id-keyed registry both engines share, with its id
    generator and its control, setter and query calls. */
module AudioManager {
  import opened Playback
  import opened AudioData
  import opened ErrorCodes
  import opened Control

  /** The most records a registry holds at once. */
  const AUDIO_LIMIT: nat := 255

  /** The registry of one engine; P is the engine's payload type. */
  class AudioManagerBase<P> {
    var audioMap: map<AudioID, AudioRecord<P>>
    /** The order in which iterating over audioMap visits its keys. */
    var order: seq<AudioID>
    /** The last id handed out (0 before the first). */
    var IDCounter: nat

    /** Keys are ids handed out so far, each record carries its own key as
        its ID and owns a playback object exactly when played, the registry
        stays within AUDIO_LIMIT, and `order` lists every key once. */
    ghost predicate Valid()
      reads this
    {
      && |audioMap| <= AUDIO_LIMIT
      && (forall k :: k in audioMap ==> 1 <= k <= IDCounter && audioMap[k].ID == k && WellFormed(audioMap[k]))
      && IsOrderOf(order, audioMap.Keys)
    }

    ghost predicate AllPlayed()
      reads this
    {
      forall k :: k in audioMap ==> audioMap[k].played
    }

    constructor ()
      ensures Valid()
      ensures audioMap == map[] && order == [] && IDCounter == 0
    {
      audioMap := map[];
      order := [];
      IDCounter := 0;
    }

    // ---- utility ----

    /** Pre-increments the counter: the first id is 1, each next one is one
        more than the last, and none is a key already in use. */
    method GenerateID() returns (id: AudioID)
      requires Valid()
      modifies this`IDCounter
      ensures Valid()
      ensures IDCounter == old(IDCounter) + 1 && id == IDCounter
      ensures id >= 1 && id !in audioMap
    {
      IDCounter := IDCounter + 1;
      id := IDCounter;
    }

    /** Linear search of the map for the id. */
    method ReturnAudioData(audioID: AudioID) returns (ad: Option<AudioRecord<P>>)
      requires Valid()
      ensures ad.Some? <==> audioID in audioMap
      ensures ad.Some? ==> ad.value == audioMap[audioID]
    {
      for i := 0 to |order|
        invariant forall j :: 0 <= j < i ==> order[j] != audioID
      {
        if order[i] == audioID {
          return Some(audioMap[order[i]]);
        }
      }
      return None;
    }

    /** `audioMap[ID] = record` for a freshly generated ID. The C++ map leaves
        the new key's place in the iteration order unspecified; appending it
        is this model's choice. */
    method Emplace(rec: AudioRecord<P>)
      requires Valid()
      requires 1 <= rec.ID <= IDCounter && rec.ID !in audioMap && WellFormed(rec)
      requires |audioMap| < AUDIO_LIMIT
      modifies this`audioMap, this`order
      ensures Valid()
      ensures audioMap == old(audioMap)[rec.ID := rec] && order == old(order) + [rec.ID]
    {
      InsertKeepsOrder(order, audioMap.Keys, rec.ID);
      audioMap := audioMap[rec.ID := rec];
      order := order + [rec.ID];
    }

    /** `audioMap.erase(id)`. */
    method Erase(audioID: AudioID)
      requires Valid() && audioID in audioMap
      modifies this`audioMap, this`order
      ensures Valid()
      ensures audioMap == old(audioMap) - {audioID} && order == Without(old(order), audioID)
      ensures |audioMap| == |old(audioMap)| - 1
    {
      EraseKeepsOrder(order, audioMap.Keys, audioID);
      assert (audioMap - {audioID}).Keys == audioMap.Keys - {audioID};
      audioMap := audioMap - {audioID};
      order := Without(order, audioID);
    }

    /** Replaces a played record's playback object (what `ad->audio->...` does in place). */
    method SetHandle(audioID: AudioID, h: Handle)
      requires Valid() && audioID in audioMap && audioMap[audioID].played
      modifies this`audioMap
      ensures Valid()
      ensures audioMap == old(audioMap)[audioID := old(audioMap)[audioID].(audio := Some(h))]
    {
      var m := audioMap[audioID := audioMap[audioID].(audio := Some(h))];
      assert m.Keys == audioMap.Keys;
      audioMap := m;
    }

    /** Writes back a registered record through the pointer the search returned. */
    method Update(rec: AudioRecord<P>)
      requires Valid() && rec.ID in audioMap && WellFormed(rec)
      modifies this`audioMap
      ensures Valid()
      ensures audioMap == old(audioMap)[rec.ID := rec]
    {
      var m := audioMap[rec.ID := rec];
      assert m.Keys == audioMap.Keys;
      audioMap := m;
    }

    /** Writes back every record a loop over the map has updated in place. */
    method Assign(m: map<AudioID, AudioRecord<P>>)
      requires Valid() && m.Keys == audioMap.Keys
      requires forall k :: k in m ==> m[k].ID == k && WellFormed(m[k])
      modifies this`audioMap
      ensures Valid() && audioMap == m
    {
      audioMap := m;
    }

    /** Applies `f` to every record's playback object, visiting the records
        in iteration order. */
    method UpdateAllHandles(f: Handle -> Handle)
      requires Valid() && AllPlayed()
      modifies this`audioMap
      ensures Valid() && audioMap.Keys == old(audioMap).Keys
      ensures forall k :: k in audioMap ==>
                audioMap[k] == old(audioMap)[k].(audio := Some(f(old(audioMap)[k].audio.value)))
    {
      var m := MapRecords(audioMap, order, (rec: AudioRecord<P>) requires rec.audio.Some? =>
                            rec.(audio := Some(f(rec.audio.value))));
      audioMap := m;
    }

    // ---- control ----

    /** Looks the id up and runs one control step on its record. */
    method RunStep(audioID: AudioID, op: Op) returns (r: int)
      requires Valid() && (audioID in audioMap ==> Applicable(op, audioMap[audioID]))
      modifies this`audioMap
      ensures Valid() && Evolves(old(audioMap), audioMap)
      ensures var s := StepOn(old(audioMap), audioID, op);
              r == Code(s) && audioMap == Commit(old(audioMap), audioID, s)
    {
      var ad := ReturnAudioData(audioID);
      if ad.None? {
        return INVALID_AUDIO_ID;
      }
      var s := Apply(op, ad.value);
      if s.Halt? {
        return s.code;
      }
      SetHandle(audioID, s.rec.audio.value);
      return SUCCESS;
    }

    /** Pauses a played record; an unknown id gives INVALID_AUDIO_ID and a
        never-played record AUDIO_NOT_PLAYED, both changing nothing. */
    method Pause(audioID: AudioID) returns (r: int)
      requires Valid()
      modifies this`audioMap
      ensures Valid() && Evolves(old(audioMap), audioMap)
      ensures var s := StepOn(old(audioMap), audioID, PauseOp);
              r == Code(s) && audioMap == Commit(old(audioMap), audioID, s)
      ensures r == INVALID_AUDIO_ID <==> audioID !in old(audioMap)
      ensures r == AUDIO_NOT_PLAYED <==> audioID in old(audioMap) && !old(audioMap)[audioID].played
      ensures r == SUCCESS <==> old(IsPlaying(audioID)) in {0, 1}
      ensures old(IsPlaying(audioID)) == 1 ==> IsPaused(audioID) == 1
    {
      r := RunStep(audioID, PauseOp);
    }

    /** Resumes a paused record. A playing one gives AUDIO_NOT_PAUSED, a
        never-played one AUDIO_NOT_PLAYED and a stopped one AUDIO_STOPPED. */
    method Resume(audioID: AudioID) returns (r: int)
      requires Valid()
      modifies this`audioMap
      ensures Valid() && Evolves(old(audioMap), audioMap)
      ensures var s := StepOn(old(audioMap), audioID, ResumeOp);
              r == Code(s) && audioMap == Commit(old(audioMap), audioID, s)
      ensures r == INVALID_AUDIO_ID <==> audioID !in old(audioMap)
      ensures r == AUDIO_NOT_PLAYED <==> audioID in old(audioMap) && !old(audioMap)[audioID].played
      ensures r == SUCCESS <==> old(IsPaused(audioID)) == 1
      ensures r == AUDIO_NOT_PAUSED <==> old(IsPlaying(audioID)) == 1
      ensures r == AUDIO_STOPPED <==> old(IsPlaying(audioID)) == 0 && old(IsPaused(audioID)) == 0
      ensures r == SUCCESS ==> IsPlaying(audioID) == 1
    {
      r := RunStep(audioID, ResumeOp);
    }

    /** Stops a played record; same errors as Pause. */
    method Stop(audioID: AudioID) returns (r: int)
      requires Valid()
      modifies this`audioMap
      ensures Valid() && Evolves(old(audioMap), audioMap)
      ensures var s := StepOn(old(audioMap), audioID, StopOp);
              r == Code(s) && audioMap == Commit(old(audioMap), audioID, s)
      ensures r == INVALID_AUDIO_ID <==> audioID !in old(audioMap)
      ensures r == AUDIO_NOT_PLAYED <==> audioID in old(audioMap) && !old(audioMap)[audioID].played
      ensures r == SUCCESS ==> IsPlaying(audioID) == 0 && IsPaused(audioID) == 0 && GetPlayingPosition(audioID) == 0
    {
      r := RunStep(audioID, StopOp);
    }

    /** Seeks a record: INVALID_AUDIO_ID for an unknown id, then
        POSITION_OUT_OF_RANGE outside 0 ..= its duration. */
    method SetPlayingPosition(audioID: AudioID, position: int) returns (r: int)
      requires Valid()
      requires audioID in audioMap && position >= 0 ==> audioMap[audioID].played
      modifies this`audioMap
      ensures Valid() && Evolves(old(audioMap), audioMap)
      ensures var s := StepOn(old(audioMap), audioID, SeekOp(position));
              r == Code(s) && audioMap == Commit(old(audioMap), audioID, s)
      ensures r == INVALID_AUDIO_ID <==> audioID !in old(audioMap)
      ensures r == POSITION_OUT_OF_RANGE <==>
              audioID in old(audioMap) && !(0 <= position <= old(GetDuration(audioID)))
      ensures r == SUCCESS ==> GetPlayingPosition(audioID) == position
    {
      r := RunStep(audioID, SeekOp(position));
    }

    /** Runs a fail-fast batch over the records in iteration order: the
        first halting record ends the call with its code, the records before
        it keep their update and the rest are untouched. */
    method RunBatch(op: Op) returns (r: int)
      requires Valid() && BatchApplicable(audioMap, order, op)
      modifies this`audioMap
      ensures Valid() && Evolves(old(audioMap), audioMap)
      ensures audioMap.Keys == old(audioMap).Keys
      ensures r == BatchCode(old(audioMap), order, op)
      ensures forall i :: 0 <= i < |order| ==> audioMap[order[i]] == BatchRecord(old(audioMap), order, op, i)
    {
      var m;
      r, m := StepAll(audioMap, order, op);
      audioMap := m;
    }

    /** Pauses every record, failing fast with AUDIO_NOT_PLAYED at the first never-played one. */
    method PauseAll() returns (r: int)
      requires Valid()
      modifies this`audioMap
      ensures Valid() && Evolves(old(audioMap), audioMap) && audioMap.Keys == old(audioMap).Keys
      ensures BatchApplicable(old(audioMap), order, PauseOp)
      ensures r == BatchCode(old(audioMap), order, PauseOp)
      ensures forall i :: 0 <= i < |order| ==> audioMap[order[i]] == BatchRecord(old(audioMap), order, PauseOp, i)
      ensures r == (if exists k :: k in old(audioMap) && !old(audioMap)[k].played then AUDIO_NOT_PLAYED else SUCCESS)
    {
      PauseStopAllCode(audioMap, order, PauseOp);
      r := RunBatch(PauseOp);
    }

    /** Resumes every record, failing fast; a never-played record halts it with AUDIO_NOT_PAUSED. */
    method ResumeAll() returns (r: int)
      requires Valid()
      modifies this`audioMap
      ensures Valid() && Evolves(old(audioMap), audioMap) && audioMap.Keys == old(audioMap).Keys
      ensures BatchApplicable(old(audioMap), order, ResumeAllOp)
      ensures r == BatchCode(old(audioMap), order, ResumeAllOp)
      ensures forall i :: 0 <= i < |order| ==> audioMap[order[i]] == BatchRecord(old(audioMap), order, ResumeAllOp, i)
      ensures r != AUDIO_NOT_PLAYED
    {
      ResumeAllCode(audioMap, order);
      r := RunBatch(ResumeAllOp);
    }

    /** Stops every record, failing fast with AUDIO_NOT_PLAYED at the first never-played one. */
    method StopAll() returns (r: int)
      requires Valid()
      modifies this`audioMap
      ensures Valid() && Evolves(old(audioMap), audioMap) && audioMap.Keys == old(audioMap).Keys
      ensures BatchApplicable(old(audioMap), order, StopOp)
      ensures r == BatchCode(old(audioMap), order, StopOp)
      ensures forall i :: 0 <= i < |order| ==> audioMap[order[i]] == BatchRecord(old(audioMap), order, StopOp, i)
      ensures r == (if exists k :: k in old(audioMap) && !old(audioMap)[k].played then AUDIO_NOT_PLAYED else SUCCESS)
    {
      PauseStopAllCode(audioMap, order, StopOp);
      r := RunBatch(StopOp);
    }

    /** Seeks every record, failing fast with POSITION_OUT_OF_RANGE at the
        first record whose duration the position exceeds. A never-played
        record is only reached (and its missing playback object read) when no
        earlier record stopped the loop. */
    method SetPlayingPositionAll(position: int) returns (r: int)
      requires Valid()
      requires position >= 0 ==>
                 forall i :: 0 <= i < |order| && !audioMap[order[i]].played ==>
                   exists j :: 0 <= j < i && audioMap[order[j]].audio.Some? && position > audioMap[order[j]].audio.value.duration
      modifies this`audioMap
      ensures Valid() && Evolves(old(audioMap), audioMap) && audioMap.Keys == old(audioMap).Keys
      ensures BatchApplicable(old(audioMap), order, SeekOp(position))
      ensures r == BatchCode(old(audioMap), order, SeekOp(position))
      ensures forall i :: 0 <= i < |order| ==> audioMap[order[i]] == BatchRecord(old(audioMap), order, SeekOp(position), i)
      ensures r == SUCCESS || r == POSITION_OUT_OF_RANGE
      ensures r == SUCCESS <==>
                forall i :: 0 <= i < |order| ==>
                  old(audioMap)[order[i]].played && 0 <= position <= old(audioMap)[order[i]].audio.value.duration
    {
      SeekApplicable(audioMap, order, position);
      SeekAllCode(audioMap, order, position);
      r := RunBatch(SeekOp(position));
    }

    // ---- setters ----

    /** Sets the playback object's pitch; INVALID_AUDIO_ID for an unknown id
        comes before PITCH_OUT_OF_RANGE for a negative pitch. The record's
        own pitch field is not touched. */
    method SetPitch(audioID: AudioID, pitch: real) returns (r: int)
      requires Valid()
      requires audioID in audioMap && pitch >= 0.0 ==> audioMap[audioID].played
      modifies this`audioMap
      ensures Valid() && Evolves(old(audioMap), audioMap)
      ensures r == INVALID_AUDIO_ID <==> audioID !in old(audioMap)
      ensures r == PITCH_OUT_OF_RANGE <==> audioID in old(audioMap) && pitch < 0.0
      ensures r == SUCCESS <==> audioID in old(audioMap) && pitch >= 0.0
      ensures r != SUCCESS ==> audioMap == old(audioMap)
      ensures r == SUCCESS ==>
                var rec := old(audioMap)[audioID];
                audioMap == old(audioMap)[audioID := rec.(audio := Some(rec.audio.value.WithPitch(pitch)))]
      ensures r == SUCCESS && IsPlaying(audioID) == 1 ==> GetPitch(audioID) == pitch
    {
      var ad := ReturnAudioData(audioID);
      if ad.Some? && !(pitch < 0.0) {
        var rec := ad.value;
        audioMap := audioMap[audioID := rec.(audio := Some(rec.audio.value.WithPitch(pitch)))];
        return SUCCESS;
      } else if ad.None? {
        return INVALID_AUDIO_ID;
      } else {
        // here pitch < 0
        return PITCH_OUT_OF_RANGE;
      }
    }

    /** Sets the playback object's volume, accepted in 0 ..= 100;
        INVALID_AUDIO_ID for an unknown id comes before VOLUME_OUT_OF_RANGE. */
    method SetVolume(audioID: AudioID, volume: real) returns (r: int)
      requires Valid()
      requires audioID in audioMap && 0.0 <= volume <= 100.0 ==> audioMap[audioID].played
      modifies this`audioMap
      ensures Valid() && Evolves(old(audioMap), audioMap)
      ensures r == INVALID_AUDIO_ID <==> audioID !in old(audioMap)
      ensures r == VOLUME_OUT_OF_RANGE <==> audioID in old(audioMap) && !(0.0 <= volume <= 100.0)
      ensures r == SUCCESS <==> audioID in old(audioMap) && 0.0 <= volume <= 100.0
      ensures r != SUCCESS ==> audioMap == old(audioMap)
      ensures r == SUCCESS ==>
                var rec := old(audioMap)[audioID];
                audioMap == old(audioMap)[audioID := rec.(audio := Some(rec.audio.value.WithVolume(volume)))]
      ensures r == SUCCESS && IsPlaying(audioID) == 1 ==> GetVolume(audioID) == volume
    {
      var ad := ReturnAudioData(audioID);
      if ad.Some? && volume >= 0.0 && volume <= 100.0 {
        var rec := ad.value;
        audioMap := audioMap[audioID := rec.(audio := Some(rec.audio.value.WithVolume(volume)))];
        return SUCCESS;
      } else if ad.None? {
        return INVALID_AUDIO_ID;
      } else {
        // here !(volume > 0 && volume < 100) holds as well
        return VOLUME_OUT_OF_RANGE;
      }
    }

    /** Rejects a negative pitch before touching any record; otherwise sets
        every playback object's pitch. */
    method SetPitchAll(pitch: real) returns (r: int)
      requires Valid()
      requires pitch >= 0.0 ==> AllPlayed()
      modifies this`audioMap
      ensures Valid() && Evolves(old(audioMap), audioMap) && audioMap.Keys == old(audioMap).Keys
      ensures r == if pitch < 0.0 then PITCH_OUT_OF_RANGE else SUCCESS
      ensures r != SUCCESS ==> audioMap == old(audioMap)
      ensures r == SUCCESS ==> forall k :: k in audioMap ==>
                audioMap[k] == old(audioMap)[k].(audio := Some(old(audioMap)[k].audio.value.WithPitch(pitch)))
    {
      if pitch < 0.0 {
        return PITCH_OUT_OF_RANGE;
      }
      UpdateAllHandles((h: Handle) => h.WithPitch(pitch));
      return SUCCESS;
    }

    /** Validates the volume before touching any record, against the bounds
        `volume >= 0 && volume <= 00` as written, so only 0 is accepted;
        then sets every playback object's volume. */
    method SetVolumeAll(volume: real) returns (r: int)
      requires Valid()
      requires volume == 0.0 ==> AllPlayed()
      modifies this`audioMap
      ensures Valid() && Evolves(old(audioMap), audioMap) && audioMap.Keys == old(audioMap).Keys
      ensures r == if volume == 0.0 then SUCCESS else VOLUME_OUT_OF_RANGE
      ensures r != SUCCESS ==> audioMap == old(audioMap)
      ensures r == SUCCESS ==> forall k :: k in audioMap ==>
                audioMap[k] == old(audioMap)[k].(audio := Some(old(audioMap)[k].audio.value.WithVolume(volume)))
    {
      if !(volume >= 0.0 && volume <= 0.0) {
        return VOLUME_OUT_OF_RANGE;
      }
      UpdateAllHandles((h: Handle) => h.WithVolume(volume));
      return SUCCESS;
    }

    // ---- queries ----

    /** INVALID_AUDIO_ID, AUDIO_NOT_PLAYED, or 1/0 for paused/not paused. */
    function IsPaused(audioID: AudioID): (r: int)
      reads this
      requires Valid()
      ensures r in {INVALID_AUDIO_ID, AUDIO_NOT_PLAYED, 0, 1}
      ensures r == INVALID_AUDIO_ID <==> audioID !in audioMap
      ensures r == AUDIO_NOT_PLAYED <==> audioID in audioMap && !audioMap[audioID].played
      ensures r == 1 <==> audioID in audioMap && audioMap[audioID].audio.Some? && audioMap[audioID].audio.value.status == Paused
    {
      if audioID !in audioMap then INVALID_AUDIO_ID
      else if !audioMap[audioID].played then AUDIO_NOT_PLAYED
      else if audioMap[audioID].audio.value.status == Paused then 1
      else 0
    }

    /** INVALID_AUDIO_ID, AUDIO_NOT_PLAYED, or 1/0 for playing/not playing. */
    function IsPlaying(audioID: AudioID): (r: int)
      reads this
      requires Valid()
      ensures r in {INVALID_AUDIO_ID, AUDIO_NOT_PLAYED, 0, 1}
      ensures r == INVALID_AUDIO_ID <==> audioID !in audioMap
      ensures r == AUDIO_NOT_PLAYED <==> audioID in audioMap && !audioMap[audioID].played
      ensures r == 1 <==> audioID in audioMap && audioMap[audioID].audio.Some? && audioMap[audioID].audio.value.status == Playing
    {
      if audioID !in audioMap then INVALID_AUDIO_ID
      else if !audioMap[audioID].played then AUDIO_NOT_PLAYED
      else if audioMap[audioID].audio.value.status == Playing then 1
      else 0
    }

    /** The playback object's pitch while playing; INVALID_AUDIO_ID for an
        unknown id and AUDIO_NOT_PLAYED for a played record not playing now. */
    function GetPitch(audioID: AudioID): (r: real)
      reads this
      requires Valid()
      requires audioID in audioMap ==> audioMap[audioID].played
      ensures audioID !in audioMap ==> r == INVALID_AUDIO_ID as real
      ensures IsPlaying(audioID) == 1 ==> r == audioMap[audioID].audio.value.pitch
      ensures IsPlaying(audioID) == 0 ==> r == AUDIO_NOT_PLAYED as real
    {
      if audioID in audioMap && IsPlaying(audioID) != 0 then audioMap[audioID].audio.value.pitch
      else if audioID !in audioMap then INVALID_AUDIO_ID as real
      else AUDIO_NOT_PLAYED as real
    }

    /** The playback object's volume while playing; INVALID_AUDIO_ID for an
        unknown id and AUDIO_NOT_PLAYED for a played record not playing now. */
    function GetVolume(audioID: AudioID): (r: real)
      reads this
      requires Valid()
      requires audioID in audioMap ==> audioMap[audioID].played
      ensures audioID !in audioMap ==> r == INVALID_AUDIO_ID as real
      ensures IsPlaying(audioID) == 1 ==> r == audioMap[audioID].audio.value.volume
      ensures IsPlaying(audioID) == 0 ==> r == AUDIO_NOT_PLAYED as real
    {
      if audioID in audioMap && IsPlaying(audioID) != 0 then audioMap[audioID].audio.value.volume
      else if audioID !in audioMap then INVALID_AUDIO_ID as real
      else AUDIO_NOT_PLAYED as real
    }

    /** The playback object's duration in milliseconds, or INVALID_AUDIO_ID. */
    function GetDuration(audioID: AudioID): (r: int)
      reads this
      requires Valid()
      requires audioID in audioMap ==> audioMap[audioID].played
      ensures audioID !in audioMap ==> r == INVALID_AUDIO_ID
      ensures audioID in audioMap ==> r == audioMap[audioID].audio.value.duration
    {
      if audioID !in audioMap then INVALID_AUDIO_ID
      else audioMap[audioID].audio.value.duration
    }

    /** The playback object's offset in milliseconds, or INVALID_AUDIO_ID. */
    function GetPlayingPosition(audioID: AudioID): (r: int)
      reads this
      requires Valid()
      requires audioID in audioMap ==> audioMap[audioID].played
      ensures audioID !in audioMap ==> r == INVALID_AUDIO_ID
      ensures audioID in audioMap ==> r == audioMap[audioID].audio.value.offset
    {
      if audioID in audioMap then audioMap[audioID].audio.value.offset
      else INVALID_AUDIO_ID
    }

    /** One id per record, in iteration order. */
    method GetAllIDs() returns (ids: seq<int>)
      requires Valid()
      ensures |ids| == |audioMap| && ids == order
      ensures forall k :: k in audioMap <==> k in ids
      ensures forall i, j :: 0 <= i < j < |ids| ==> ids[i] != ids[j]
    {
      ids := [];
      for i := 0 to |order|
        invariant ids == order[..i]
      {
        ids := ids + [audioMap[order[i]].ID];
      }
    }

    /** IsPlaying of the last record visited, as a bool: false for an empty
        registry, true when that record is playing and also when it was
        never played (AUDIO_NOT_PLAYED is non-zero), whatever the others do. */
    method IsManagerActive() returns (active: bool)
      requires Valid()
      ensures active <==> |order| > 0 && IsPlaying(order[|order| - 1]) != 0
      ensures active <==> |order| > 0 &&
                          (!audioMap[order[|order| - 1]].played || IsPlaying(order[|order| - 1]) == 1)
    {
      active := false;
      for i := 0 to |order|
        invariant i == 0 ==> !active
        invariant i > 0 ==> (active <==> IsPlaying(order[i - 1]) != 0)
      {
        active := IsPlaying(order[i]) != 0;
      }
    }

    /** The number of records, never above AUDIO_LIMIT. */
    function GetAudioCount(): (n: nat)
      reads this
      requires Valid()
      ensures n == |order| && n <= AUDIO_LIMIT
    {
      |audioMap|
    }

    /** The record's path, or the text "-3" (INVALID_AUDIO_ID spelled out)
        for an unknown id. */
    function GetPath(audioID: AudioID): (path: string)
      reads this
      requires Valid()
      ensures audioID !in audioMap ==> path == "-3"
      ensures audioID in audioMap ==> path == audioMap[audioID].path
    {
      if audioID !in audioMap then "-3" else audioMap[audioID].path
    }
  }
}
