# SFML audio manager: a Dafny model of its bookkeeping layer

The audio manager keeps a registry of sounds and streams on top of SFML.
Each registry is an `unordered_map` from a numeric id to a record. A record
holds:

- the looping flag, the volume and pitch given at load time;
- the file path;
- a `played` flag;
- its own id;
- once played, an SFML playback object.

Every command (load, open, mix, unload, close, play, pause, resume, stop,
seek and the setters) returns an in-band error code (`ErrorCodes`, 0 to -10)
or a fresh id. The queries return their own values: 1/0 for `IsPaused` and
`IsPlaying`, the pitch or volume as a number, the path as a string, the ids
as a list, the record count, and a flag for `IsManagerActive`. Where a query
fails, it answers with an error code instead (or its text, for `GetPath`).

Both engines share the template `AudioManagerBase<T>`:

- an id generator that pre-increments a counter;
- a capacity of 255 records;
- a check of the file extension against a fixed allow-list;
- per-record and fail-fast "all" control calls (pause, resume, stop, seek);
- range-checked setters and the queries;
- the table of error-code texts.

The two engines are:

- **`SoundManager`** loads whole sample buffers, mixes several sounds into a
  new one with 16-bit wrapping sums, and creates a sound's playback object
  on its first play.
- **`SoundStreamManager`** only records a path. It opens a fresh `sf::Music`
  on every play, and closes whichever stream the map visits first.

Modules, one concept each:

| module | file | contents |
|---|---|---|
| `Playback` | playback.dfy | The SFML playback object as a value. It holds the status (the `AudioStates` enumeration), volume, pitch, loop, offset and duration, plus what `play`, `pause`, `stop` and the setters do to it. |
| `AudioData` | audio_data.dfy | The record (`AudioDataBase` with its payload). Also the evolution relation every call keeps, and the explicit iteration order of the map with its insert and erase rules. |
| `ErrorCodes` | error_codes.dfy | The error codes and `FormatErrorCode`. |
| `FileTypes` | file_types.dfy | The allow-list and `IsTypeSupported`. |
| `Control` | control.dfy | The per-record bodies of `Pause`, `Resume`, `ResumeAll`, `Stop` and the position check. Also the meaning of a fail-fast batch (`FirstHalt`, `BatchCode`, `BatchRecord`), and the batch loops over values. |
| `AudioManager` | audio_manager.dfy | `class AudioManagerBase<P>`, whose fields are `audioMap`, `order` (the map's iteration order) and `IDCounter`. `Valid()` holds the registry invariant. |
| `Mixing` | mixing.dfy | The int16 arithmetic of `MixSounds`: the wrap, the zero-padded sums, the mix length, the output rate and a buffer's duration. |
| `SoundEngine` | sound_manager.dfy | `class SoundManager`. It holds its registry as `const base: AudioManagerBase<SampleBuffer>`. |
| `StreamEngine` | stream_manager.dfy | `class SoundStreamManager`. It holds `base: AudioManagerBase<()>`. |

The registry invariant `AudioManagerBase.Valid()` is kept by every call. It states:

- every key is between 1 and `IDCounter`;
- each record's `ID` is its key;
- a record owns a playback object exactly when it has been played;
- the map holds at most 255 records;
- `order` lists every key exactly once.

Each call that changes records also ensures `Evolves(old, new)`. A record
that stays registered keeps its looping flag, volume, pitch, path, id and
payload, and `played` never returns to false. No setter touches the stored
`volume`/`pitch`; only the playback object changes.

Inputs the model cannot compute are parameters:

- `LoadSound` takes the decoded buffer, or `None` when `loadFromFile` fails.
- `PlayStream` and the stream `PlayAll` take an `Opener`. It maps a path to
  the stream's duration, or to `None` when `openFromFile` fails.

## Model

| member | source | states |
|---|---|---|
| AudioData.Without | SoundManager.cpp:34-36 | erasing a key from the iteration order keeps exactly the other keys |
| AudioData.EraseKeepsOrder | SoundManager.cpp:34-36 | after `erase`, the remaining order still lists every remaining key exactly once |
| AudioData.InsertKeepsOrder | SoundManager.cpp:24 | inserting a fresh key at the end of the order lists every key of the grown map exactly once |
| AudioData.WithoutFirst | SoundStreamManager.cpp:29-33 | erasing the first-iterated key leaves the rest of the order as it was |
| ErrorCodes.FormatErrorCode | AudioManager.h:56-97 | the text is "Invalid Error Code" exactly for values outside the 11 codes; otherwise it starts with "Error Code <value> (<NAME>): " |
| ErrorCodes.CodeText | AudioManager.h:56-97 | the value in the text is the code's decimal spelling: "0", a minus sign and one digit for -1 to -9, and "-10" |
| ErrorCodes.FormatErrorCodeExamples | AudioManager.h:56-97 | the full SUCCESS text; 1 and -11 get the generic text |
| FileTypes.LastDot | AudioManager.h:105 | `find_last_of('.')`: a dot with no dot after it |
| FileTypes.Extension | AudioManager.h:105-106 | the suffix starting at the last dot: it starts with the dot, holds no other dot, and the path ends with it |
| FileTypes.IsTypeSupported | AudioManager.h:103-109 | the extension after the last dot is, character for character, one of the 23 allow-list entries; its meaning as "the path ends with an entry" is proved in `SupportedIffEndsWithExtension` |
| FileTypes.ExtensionsAreDotted | AudioManager.h:385-387 | every allow-list entry is a dot followed by dot-free text |
| FileTypes.ExtensionOfDottedSuffix | AudioManager.h:105-106 | a path ending in a dot and dot-free text has exactly that suffix as its extension |
| FileTypes.SupportedIffEndsWithExtension | AudioManager.h:103-109 | a path is supported iff it ends with one of the 23 entries (case-sensitive) |
| FileTypes.SupportedExamples | AudioManager.h:103-109 | "a.tar.ogg" is supported and "x.ogg.bak" is not: only the text after the last dot counts |
| FileTypes.UpperCaseUnsupported | AudioManager.h:103-109 | "x.WAV" is not supported: the match is case-sensitive |
| Control.Apply | AudioManager.h:121-189 | a control step changes only the playback object; when it halts, the code is a negative error code |
| Control.FirstHalt | AudioManager.h:134-201 | the index of the first record whose step halts: every record before it goes through |
| Control.StepAll | AudioManager.h:134-230 | the fail-fast loop: records before the first halting one are stepped, the rest are untouched, and the result is the halting code or SUCCESS |
| Control.MapRecords | AudioManager.h:204-219 | the loop of `SetPitchAll`/`SetVolumeAll` (and of both engines' `PlayAll`): every record listed in the iteration order is replaced by its update, and every other record is kept |
| Control.BatchSucceedsIffNoHalt | AudioManager.h:134-201 | a batch returns SUCCESS iff every record may be stepped and no record's step halts |
| Control.SeekApplicable | AudioManager.h:220-230 | the seek loop is safe when every never-played record comes after a played record whose duration the position exceeds, since the loop returns there first |
| Control.SeekStopsBeforeUnplayed | AudioManager.h:222-225 | with a played record of duration 100 ahead of a never-played one, a seek to 200 may run, returns POSITION_OUT_OF_RANGE at the first record and leaves the second untouched |
| Control.PauseStopAllCode | AudioManager.h:134-201 | `PauseAll`/`StopAll` return AUDIO_NOT_PLAYED iff some record was never played, otherwise SUCCESS |
| Control.ResumeAllCode | AudioManager.h:163-178 | `ResumeAll` never returns AUDIO_NOT_PLAYED; a never-played record halts it with AUDIO_NOT_PAUSED; it succeeds iff every record is played and paused |
| Control.SeekAllCode | AudioManager.h:220-230 | `SetPlayingPositionAll` succeeds iff every record is played and the position lies within its duration, and otherwise returns POSITION_OUT_OF_RANGE |
| AudioManager.AudioManagerBase.constructor | AudioManager.h:383-394 | an empty registry with counter 0 satisfies the invariant |
| AudioManager.AudioManagerBase.GenerateID | AudioManager.h:98-102 | the counter grows by exactly one and the id returned is its new value, never a key in use |
| AudioManager.AudioManagerBase.ReturnAudioData | AudioManager.h:110-118 | the search finds a record iff the id is a key, and then returns that key's record |
| AudioManager.AudioManagerBase.Emplace | SoundManager.cpp:22-25 | `audioMap[ID] = record` adds exactly that key, appended to the order, and keeps the invariant |
| AudioManager.AudioManagerBase.Erase | SoundManager.cpp:34-36 | removes exactly that key from the map and from the order; the size drops by one |
| AudioManager.AudioManagerBase.SetHandle | AudioManager.h:131 | replaces one played record's playback object and nothing else |
| AudioManager.AudioManagerBase.Update | SoundManager.cpp:122-130 | writes one registered record back, keeping the invariant |
| AudioManager.AudioManagerBase.Assign | SoundManager.cpp:139-152 | writes back the records a loop changed in place, over the same keys |
| AudioManager.AudioManagerBase.UpdateAllHandles | AudioManager.h:208-209 | every record's playback object is transformed, and nothing else changes |
| AudioManager.AudioManagerBase.RunStep | AudioManager.h:123-131 | an unknown id gives INVALID_AUDIO_ID; otherwise the record's step decides both the code and the new record |
| AudioManager.AudioManagerBase.Pause | AudioManager.h:121-133 | INVALID_AUDIO_ID iff unknown, AUDIO_NOT_PLAYED iff never played, nothing changed on failure; a playing record ends up paused |
| AudioManager.AudioManagerBase.Resume | AudioManager.h:145-162 | SUCCESS iff paused (then playing); AUDIO_NOT_PAUSED iff playing; AUDIO_NOT_PLAYED iff never played; AUDIO_STOPPED iff stopped |
| AudioManager.AudioManagerBase.Stop | AudioManager.h:179-189 | same errors as Pause; on success the record is neither playing nor paused, at offset 0 |
| AudioManager.AudioManagerBase.SetPlayingPosition | AudioManager.h:259-276 | INVALID_AUDIO_ID iff unknown; POSITION_OUT_OF_RANGE iff the position is outside 0..duration; on success the offset is the position |
| AudioManager.AudioManagerBase.RunBatch | AudioManager.h:134-230 | the registry after a fail-fast batch is the batch specification applied to the old one |
| AudioManager.AudioManagerBase.PauseAll | AudioManager.h:134-144 | fail-fast pause in iteration order; AUDIO_NOT_PLAYED iff some record was never played |
| AudioManager.AudioManagerBase.ResumeAll | AudioManager.h:163-178 | fail-fast resume in iteration order; never AUDIO_NOT_PLAYED |
| AudioManager.AudioManagerBase.StopAll | AudioManager.h:190-201 | fail-fast stop in iteration order; AUDIO_NOT_PLAYED iff some record was never played |
| AudioManager.AudioManagerBase.SetPlayingPositionAll | AudioManager.h:220-230 | fail-fast seek: earlier records are already moved when a later one is out of range; SUCCESS iff every record is played and the position is within its duration, else POSITION_OUT_OF_RANGE; a never-played record is allowed after the record that stops the loop |
| AudioManager.AudioManagerBase.SetPitch | AudioManager.h:231-244 | SUCCESS iff the id is known and the pitch is not negative; INVALID_AUDIO_ID before PITCH_OUT_OF_RANGE; only the playback object's pitch changes, and `GetPitch` then reads it back |
| AudioManager.AudioManagerBase.SetVolume | AudioManager.h:245-258 | SUCCESS iff the id is known and the volume is within 0..100 inclusive; INVALID_AUDIO_ID before VOLUME_OUT_OF_RANGE; only the playback object's volume changes, and `GetVolume` then reads it back |
| AudioManager.AudioManagerBase.SetPitchAll | AudioManager.h:204-211 | a negative pitch is rejected before any record is touched; otherwise every playback object gets the pitch |
| AudioManager.AudioManagerBase.SetVolumeAll | AudioManager.h:212-219 | only volume 0 is accepted (the `<= 00` bound), checked before any record is touched |
| AudioManager.AudioManagerBase.IsPaused | AudioManager.h:302-312 | INVALID_AUDIO_ID iff unknown, AUDIO_NOT_PLAYED iff never played, 1 iff paused, else 0 |
| AudioManager.AudioManagerBase.IsPlaying | AudioManager.h:313-323 | INVALID_AUDIO_ID iff unknown, AUDIO_NOT_PLAYED iff never played, 1 iff playing, else 0 |
| AudioManager.AudioManagerBase.GetPitch | AudioManager.h:280-290 | the playback object's pitch while playing; INVALID_AUDIO_ID when unknown; AUDIO_NOT_PLAYED while not playing |
| AudioManager.AudioManagerBase.GetVolume | AudioManager.h:291-301 | the playback object's volume while playing; INVALID_AUDIO_ID when unknown; AUDIO_NOT_PLAYED while not playing |
| AudioManager.AudioManagerBase.GetDuration | AudioManager.h:324-332 | the playback object's duration, or INVALID_AUDIO_ID |
| AudioManager.AudioManagerBase.GetPlayingPosition | AudioManager.h:333-343 | the playback object's offset, or INVALID_AUDIO_ID |
| AudioManager.AudioManagerBase.GetAllIDs | AudioManager.h:344-350 | one id per record, without repetition, in iteration order |
| AudioManager.AudioManagerBase.IsManagerActive | AudioManager.h:351-357 | false on an empty map; otherwise true iff the last-iterated record is playing or was never played |
| AudioManager.AudioManagerBase.GetAudioCount | AudioManager.h:358-361 | the number of records, never above 255 |
| AudioManager.AudioManagerBase.GetPath | AudioManager.h:362-370 | the record's path, or "-3" for an unknown id |
| Mixing.Wrap16 | SoundManager.cpp:80-87 | the int16 conversion: congruent to the sum modulo 2^16, and the identity inside the int16 range |
| Mixing.Wrap16Add | SoundManager.cpp:80-90 | wrapping after each addition equals wrapping the total |
| Mixing.MaxSampleCountBounds | SoundManager.cpp:56-57 | the mix length is at least every source's sample count, and equal to one of them (0 for none) |
| Mixing.AppendOne | SoundManager.cpp:56-65 | one more source updates the longest count and the rate sum as the lookup loop does |
| Mixing.MixAt | SoundManager.cpp:80-90 | the inner loop's 16-bit total is the wrapped sum of the sources' samples at that index, zero-padded |
| Mixing.MixSamples | SoundManager.cpp:77-91 | the mix is as long as the longest source, and sample i is the wrapped sum of the samples at i |
| Mixing.SampleSumAppend | SoundManager.cpp:81-89 | the sums of two lists of sources add up index by index |
| Mixing.MaxOfAppend | SoundManager.cpp:56-57 | the longest of two lists of sources is the longer of their longest |
| Mixing.MixOrderIrrelevant | SoundManager.cpp:78-91 | the order of the ids does not change the mix |
| Mixing.MixOfOne | SoundManager.cpp:78-91 | mixing a single source gives back its samples |
| Mixing.MixWithItself | SoundManager.cpp:78-91 | a repeated id is summed twice: its samples doubled modulo 2^16 |
| Mixing.TruncDiv | SoundManager.cpp:101 | C++ integer division, rounding towards zero |
| Mixing.ToUnsigned32 | SoundManager.cpp:101 | the int to `unsigned int` conversion modulo 2^32 |
| Mixing.MixedRate | SoundManager.cpp:98-101 | with -1, half the integer mean of the sources' rates; else half the request, and a negative request becomes a huge rate |
| Mixing.MixedRateExample | SoundManager.cpp:64-65 | sources at 44100 and 22050 Hz mixed with -1 give 16537 Hz |
| Mixing.DurationMs | SoundManager.cpp:164 | whole milliseconds the samples last at the buffer's rate and channel count |
| SoundEngine.NewSound | SoundManager.cpp:17 | a new record is unplayed, has no playback object and carries the given id and buffer |
| SoundEngine.PlaySoundStep | SoundManager.cpp:122-133 | first play: a playback object from the record's volume, pitch, looping and buffer duration; later plays reuse the existing one; either way it ends up playing |
| SoundEngine.Buffers | SoundManager.cpp:49-63 | the buffers of the given ids, in the order given, repeats included |
| SoundEngine.SoundManager.constructor | AudioManager.h:398-407 | a sound manager over an empty registry |
| SoundEngine.SoundManager.LoadSound | SoundManager.cpp:9-26 | checks extension, then capacity, then the load; failures change nothing and take no id; success inserts one unplayed record under a fresh id and returns it |
| SoundEngine.SoundManager.UnloadSound | SoundManager.cpp:27-38 | INVALID_AUDIO_ID iff unknown; removes exactly that key |
| SoundEngine.FindSounds | SoundManager.cpp:48-63 | succeeds iff every id is registered, collecting the sources, the longest count and the rate sum |
| SoundEngine.SoundManager.MixSounds | SoundManager.cpp:39-114 | an unknown id gives INVALID_AUDIO_ID; a full registry is reported only after mixing; success registers the mix (2 channels, mixed rate, empty path) under a fresh id |
| SoundEngine.SoundManager.PlaySound | SoundManager.cpp:115-136 | INVALID_AUDIO_ID iff unknown; otherwise the play step, leaving the record playing |
| SoundEngine.SoundManager.PlayAll | SoundManager.cpp:137-154 | always SUCCESS; every record is played and playing over the same keys |
| StreamEngine.NewStream | SoundStreamManager.cpp:16 | a new stream record is unplayed with the given path and id |
| StreamEngine.StreamHandle | SoundStreamManager.cpp:43-48 | a fresh playback object from the record's stored settings at offset 0; playing iff the file opened |
| StreamEngine.PlayStreamStep | SoundStreamManager.cpp:43-49 | the record is played and gets a fresh playback object, discarding any earlier setter changes |
| StreamEngine.SoundStreamManager.constructor | AudioManager.h:410-418 | a stream manager over an empty registry |
| StreamEngine.SoundStreamManager.OpenStream | SoundStreamManager.cpp:9-26 | UNSUPPORTED_FILE, then AUDIO_LIMIT_EXCEEDED with nothing changed; otherwise one unplayed record under a fresh id, file untouched |
| StreamEngine.SoundStreamManager.CloseStream | SoundStreamManager.cpp:27-36 | ignores its id: removes the first-iterated record (size minus one), INVALID_AUDIO_ID only on an empty map |
| StreamEngine.SoundStreamManager.PlayStream | SoundStreamManager.cpp:37-55 | INVALID_AUDIO_ID iff unknown; otherwise SUCCESS, even if the open failed; the key set is unchanged and the offset is 0 |
| StreamEngine.SoundStreamManager.PlayAll | SoundStreamManager.cpp:56-69 | always SUCCESS; every record gets a fresh playback object and is played, over the same keys |

## Left out

- Inheritance: the two engines hold their `AudioManagerBase` as a field
  (`base`) instead of deriving from it. Base calls are reached through that
  field.
- Iteration order of `std::unordered_map`: the C++ standard leaves the
  position of a newly inserted key unspecified, even when no rehash
  happens (libstdc++, for one, links a key that lands in an empty bucket
  at the front, so ids 1, 2, 3 may be visited as 3, 2, 1), and a rehash
  may reorder every key. The model makes the order explicit as `order`
  and chooses one rule: insertion appends, and erasure keeps the relative
  order of the other keys. Every statement about which record comes first
  follows from that choice only, not from the source: that `CloseStream`
  closes the oldest stream, that `IsManagerActive` reads the newest
  record, and that the `*All` batches visit the records in load order
  (which decides the record a fail-fast batch halts at).
- `audioID_t` is 32 bits: `IDCounter` is unbounded, so its wrap-around
  after 2^32 ids is not modelled.
- MixSounds takes its ids as a sequence of non-negative ids. The
  `va_list`/`numArgs` plumbing and negative `int` arguments are not
  modelled.
- MixSounds: the `sampleMatrix` block (SoundManager.cpp:67-74) is not
  modelled. Its result is never read. It can also write past the array
  when there are more sources than samples.
- MixSounds requires at least one id when `sampleRate` is -1, because the
  source then divides by `numArgs`.
- MixedRate: the `int` accumulator of the rates is unbounded. Overflow
  above 2^31 is not modelled, and nor is the `int`/`unsigned` mixing in
  `+=`.
- MixSounds: SFML's own validation in `loadFromSamples` (rejecting zero
  samples or a zero rate) is not modelled. The stored buffer is always the
  mix at the computed rate with 2 channels.
- DurationMs: the float rounding of `sf::Time` is not modelled. The
  duration is exact integer milliseconds.
- PlayStreamStep: a stream whose file fails to open is left stopped, as
  SFML's `play()` leaves a stream with no audio format. The call still
  returns SUCCESS and marks the record played.
- Undefined behaviour becomes preconditions:
  - a null playback object dereferenced by the setters, by
    `SetPlayingPosition` and by
    `GetPitch`/`GetVolume`/`GetDuration`/`GetPlayingPosition` on a
    never-played record;
  - the same null dereference in `SetPlayingPositionAll`, for a
    never-played record that the loop reaches;
  - a path without a dot, for which `IsTypeSupported` throws
    `std::out_of_range`.
- Volume and pitch are `real`. Float NaN and rounding are not modelled.
- `DBToVolume` and `VolumeTodB` (AudioManager.h:373-380): these are
  floating-point `powf`/`log10f` helpers that nothing else calls.
- `SoundManager::GetDuration` (SoundManager.cpp:157-165) is defined but
  never declared in the class. The base `GetDuration` is modelled instead,
  but its body calls `getDuration()` on an `sf::Sound*` (AudioManager.h:331),
  which `sf::Sound` does not have. So the model's sound playback object
  carries the buffer's duration, `DurationMs(buffer)`, set by
  `PlaySoundStep`: the value SoundManager.cpp:164 computes, returned under
  the base version's precondition that the record has been played.
- The `getstatus` spelling in `Resume` (AudioManager.h:156 and 160) is
  treated as `getStatus`; `ResumeAll` spells it correctly. `Resume` has a missing final return; it is unreachable,
  because the three statuses are exhaustive.
- Heap ownership (`new`/`delete`, the leaked playback objects in
  `PlayStream`/`PlayAll`) and the unused `IDVec` are not modelled.
- The description text of AUDIO_LIMIT_EXCEEDED says "256", while the limit
  is 255. Both are kept as written.
- main.cpp is not part of this model. It is a console demo with a polling
  loop.
- SFML's mixing and output threads, and the actual audio, are not
  modelled.
- Playback status changes only through the manager's own calls. In SFML
  a non-looping sound or stream that reaches its end becomes `Stopped` on
  its own, and its offset advances while it plays. In the model such a
  record stays `Playing` at its offset. So `IsPlaying`, `IsPaused`,
  `IsManagerActive`, `GetPlayingPosition` and the AUDIO_NOT_PAUSED /
  AUDIO_STOPPED split in `Resume`/`ResumeAll` see the status the last call
  left, not the status after time has passed.
