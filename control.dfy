/** The per-record bodies of the control calls (pause, resume, stop, seek),
    shared by the single-id calls and by the fail-fast batch calls, and the
    meaning of a fail-fast batch over the registry's iteration order. */
module Control {
  import opened Playback
  import opened AudioData
  import opened ErrorCodes

  /** One record's outcome: its updated form, or the error code that halts the call. */
  datatype Step<P> = Done(rec: AudioRecord<P>) | Halt(code: int)

  /** Pause, Resume (single id), ResumeAll's loop body, Stop, and the
      position check-and-seek of SetPlayingPosition. */
  datatype Op = PauseOp | ResumeOp | ResumeAllOp | StopOp | SeekOp(position: int)

  /** The record's playback object may be dereferenced where the body does:
      a seek to a non-negative position reads the duration first. */
  predicate Applicable<P>(op: Op, rec: AudioRecord<P>) {
    WellFormed(rec) && (op.SeekOp? && op.position >= 0 ==> rec.played)
  }

  /** A step only ever changes the playback object, and a halting step
      reports a negative error code. */
  function Apply<P>(op: Op, rec: AudioRecord<P>): (s: Step<P>)
    requires Applicable(op, rec)
    ensures s.Done? ==> s.rec == rec.(audio := s.rec.audio) && s.rec.audio.Some? && WellFormed(s.rec)
    ensures s.Halt? ==> s.code < 0 && IsErrorCode(s.code)
  {
    match op
    case PauseOp =>
      if !rec.played then Halt(AUDIO_NOT_PLAYED)
      else Done(rec.(audio := Some(rec.audio.value.Pause())))
    case ResumeOp => Resume(rec, AUDIO_NOT_PLAYED)
    case ResumeAllOp => Resume(rec, AUDIO_NOT_PAUSED)
    case StopOp =>
      if rec.played then Done(rec.(audio := Some(rec.audio.value.Stop())))
      else Halt(AUDIO_NOT_PLAYED)
    case SeekOp(position) =>
      if position < 0 || position > rec.audio.value.duration then Halt(POSITION_OUT_OF_RANGE)
      else Done(rec.(audio := Some(rec.audio.value.Seek(position))))
  }

  /** Resume's chain of tests; a never-played record reports `notPlayed`. */
  function Resume<P>(rec: AudioRecord<P>, notPlayed: int): Step<P>
    requires WellFormed(rec)
  {
    if rec.played && rec.audio.value.status == Paused then
      Done(rec.(audio := Some(rec.audio.value.Play())))
    else if rec.played && rec.audio.value.status == Playing then
      Halt(AUDIO_NOT_PAUSED)
    else if !rec.played then
      Halt(notPlayed)
    else
      Halt(AUDIO_STOPPED)
  }

  /** The step a single-id call takes: INVALID_AUDIO_ID for an unknown id. */
  function StepOn<P>(m: map<AudioID, AudioRecord<P>>, id: AudioID, op: Op): Step<P>
    requires id in m ==> Applicable(op, m[id])
  {
    if id !in m then Halt(INVALID_AUDIO_ID) else Apply(op, m[id])
  }

  /** The code a step makes the call return. */
  function Code<P>(s: Step<P>): int {
    if s.Done? then SUCCESS else s.code
  }

  /** The registry after a single-id call: unchanged when the step halts. */
  function Commit<P>(m: map<AudioID, AudioRecord<P>>, id: AudioID, s: Step<P>): map<AudioID, AudioRecord<P>> {
    if s.Done? then m[id := s.rec] else m
  }

  // ---- fail-fast batches ----

  /** Every listed key is registered, and every record the fail-fast loop
      reaches may be stepped: a record that may not be stepped must come
      after one that halts the loop. */
  ghost predicate BatchApplicable<P>(m: map<AudioID, AudioRecord<P>>, order: seq<AudioID>, op: Op) {
    && (forall i :: 0 <= i < |order| ==> order[i] in m && WellFormed(m[order[i]]))
    && (forall i :: 0 <= i < |order| ==> Applicable(op, m[order[i]]) || HaltsBefore(m, order, op, i))
  }

  /** Some record before position i may be stepped and halts the loop. */
  ghost predicate HaltsBefore<P>(m: map<AudioID, AudioRecord<P>>, order: seq<AudioID>, op: Op, i: nat) {
    exists j :: 0 <= j < i && j < |order| && order[j] in m && Applicable(op, m[order[j]]) && Apply(op, m[order[j]]).Halt?
  }

  /** A seek to a non-negative position may run over records never played
      as long as each of them comes after a played record whose duration the
      position exceeds: the loop returns there before reaching it. */
  lemma SeekApplicable<P>(m: map<AudioID, AudioRecord<P>>, order: seq<AudioID>, position: int)
    requires forall i :: 0 <= i < |order| ==> order[i] in m && WellFormed(m[order[i]])
    requires position >= 0 ==>
               forall i :: 0 <= i < |order| && !m[order[i]].played ==>
                 exists j :: 0 <= j < i && m[order[j]].audio.Some? && position > m[order[j]].audio.value.duration
    ensures BatchApplicable(m, order, SeekOp(position))
  {
    forall i | 0 <= i < |order| && !Applicable(SeekOp(position), m[order[i]])
      ensures HaltsBefore(m, order, SeekOp(position), i)
    {
      var j :| 0 <= j < i && m[order[j]].audio.Some? && position > m[order[j]].audio.value.duration;
      assert Apply(SeekOp(position), m[order[j]]).Halt?;
    }
  }

  /** A seek past the end of the first record returns there, so a
      never-played record after it is never reached and stays as it was. */
  lemma SeekStopsBeforeUnplayed()
    ensures var played := AudioRecord(false, 100.0, 1.0, "a.ogg", true, 1, Some(Create(100.0, 1.0, false, 100)), ());
            var unplayed := AudioRecord(false, 100.0, 1.0, "b.ogg", false, 2, None, ());
            var m := map[1 := played, 2 := unplayed];
            && BatchApplicable(m, [1, 2], SeekOp(200))
            && BatchCode(m, [1, 2], SeekOp(200)) == POSITION_OUT_OF_RANGE
            && BatchRecord(m, [1, 2], SeekOp(200), 1) == unplayed
  {
    var played := AudioRecord(false, 100.0, 1.0, "a.ogg", true, 1, Some(Create(100.0, 1.0, false, 100)), ());
    var unplayed := AudioRecord(false, 100.0, 1.0, "b.ogg", false, 2, None, ());
    var m := map[1 := played, 2 := unplayed];
    var order := [1, 2];
    assert m[order[0]].audio.Some? && 200 > m[order[0]].audio.value.duration;
    forall i | 0 <= i < |order| && !m[order[i]].played
      ensures exists j :: 0 <= j < i && m[order[j]].audio.Some? && 200 > m[order[j]].audio.value.duration
    {
      assert i == 1;
    }
    SeekApplicable(m, order, 200);
    assert FirstHalt(m, [1, 2], SeekOp(200)) == 0;
  }

  /** The index, in iteration order, of the first record whose step halts
      (|order| when none does): every record before it goes through. */
  function FirstHalt<P>(m: map<AudioID, AudioRecord<P>>, order: seq<AudioID>, op: Op): (f: nat)
    requires BatchApplicable(m, order, op)
    ensures f <= |order|
    ensures forall i :: 0 <= i < |order| && i <= f ==> Applicable(op, m[order[i]])
    ensures forall i :: 0 <= i < f ==> Apply(op, m[order[i]]).Done?
    ensures f < |order| ==> Apply(op, m[order[f]]).Halt?
  {
    FirstHaltFrom(m, order, op, 0)
  }

  /** The search for the first halting record, from position `start` on,
      every record before which goes through. */
  function FirstHaltFrom<P>(m: map<AudioID, AudioRecord<P>>, order: seq<AudioID>, op: Op, start: nat): (f: nat)
    requires BatchApplicable(m, order, op) && start <= |order|
    requires forall i :: 0 <= i < start ==> Applicable(op, m[order[i]]) && Apply(op, m[order[i]]).Done?
    ensures start <= f <= |order|
    ensures forall i :: 0 <= i < |order| && i <= f ==> Applicable(op, m[order[i]])
    ensures forall i :: 0 <= i < f ==> Apply(op, m[order[i]]).Done?
    ensures f < |order| ==> Apply(op, m[order[f]]).Halt?
    decreases |order| - start
  {
    if start == |order| then start
    else
      assert !HaltsBefore(m, order, op, start);
      if Apply(op, m[order[start]]).Halt? then start
      else FirstHaltFrom(m, order, op, start + 1)
  }

  /** What a batch returns: the halting record's code, or SUCCESS. */
  function BatchCode<P>(m: map<AudioID, AudioRecord<P>>, order: seq<AudioID>, op: Op): int
    requires BatchApplicable(m, order, op)
  {
    var f := FirstHalt(m, order, op);
    if f < |order| then Apply(op, m[order[f]]).code else SUCCESS
  }

  /** The record at position i after a batch: stepped if it came before the
      halting record, untouched from the halting record on. */
  function BatchRecord<P>(m: map<AudioID, AudioRecord<P>>, order: seq<AudioID>, op: Op, i: nat): AudioRecord<P>
    requires BatchApplicable(m, order, op) && i < |order|
  {
    if i < FirstHalt(m, order, op) then Apply(op, m[order[i]]).rec else m[order[i]]
  }

  /** The fail-fast loop of PauseAll, ResumeAll, StopAll and
      SetPlayingPositionAll over the registry's records, visited in `order`:
      the records before the first halting one are stepped, the rest keep
      their state, and the call reports the halting code or SUCCESS. */
  method StepAll<P>(m: map<AudioID, AudioRecord<P>>, order: seq<AudioID>, op: Op)
    returns (r: int, m': map<AudioID, AudioRecord<P>>)
    requires Distinct(order) && BatchApplicable(m, order, op)
    ensures r == BatchCode(m, order, op)
    ensures m'.Keys == m.Keys
    ensures forall k :: k in m ==>
              m'[k] == if k in order[..FirstHalt(m, order, op)] then Apply(op, m[k]).rec else m[k]
    ensures forall i :: 0 <= i < |order| ==> m'[order[i]] == BatchRecord(m, order, op, i)
    ensures forall k :: k in m ==> m'[k] == m[k].(audio := m'[k].audio) && (WellFormed(m[k]) ==> WellFormed(m'[k]))
  {
    ghost var f := FirstHalt(m, order, op);
    m' := m;
    var i := 0;
    r := SUCCESS;
    while i < |order|
      invariant 0 <= i <= f
      invariant m'.Keys == m.Keys
      invariant forall k :: k in m ==> m'[k] == if k in order[..i] then Apply(op, m[k]).rec else m[k]
    {
      var k := order[i];
      PrefixStep(order, i);
      var s := Apply(op, m'[k]);
      if s.Halt? {
        r := s.code;
        break;
      }
      assert i < f;
      m' := m'[k := s.rec];
      i := i + 1;
    }
    assert i == f;
    forall j | 0 <= j < |order|
      ensures m'[order[j]] == BatchRecord(m, order, op, j)
    {
      assert order[j] in order[..i] <==> j < i;
    }
  }

  /** The loop shared by SetPitchAll, SetVolumeAll and the engines' PlayAll:
      every record listed in `order` is replaced by what `g` makes of it, and
      every other record is kept. */
  method MapRecords<P>(m: map<AudioID, AudioRecord<P>>, order: seq<AudioID>, g: AudioRecord<P> --> AudioRecord<P>)
    returns (m': map<AudioID, AudioRecord<P>>)
    requires Distinct(order)
    requires forall k :: k in order ==> k in m && g.requires(m[k])
    ensures m'.Keys == m.Keys
    ensures forall k :: k in m ==> m'[k] == if k in order then g(m[k]) else m[k]
  {
    m' := m;
    for i := 0 to |order|
      invariant m'.Keys == m.Keys
      invariant forall k :: k in m ==> m'[k] == if k in order[..i] then g(m[k]) else m[k]
    {
      var k := order[i];
      PrefixStep(order, i);
      m' := m'[k := g(m'[k])];
    }
    assert order[..|order|] == order;
  }

  /** A batch succeeds exactly when no record halts it. */
  lemma BatchSucceedsIffNoHalt<P>(m: map<AudioID, AudioRecord<P>>, order: seq<AudioID>, op: Op)
    requires BatchApplicable(m, order, op)
    ensures BatchCode(m, order, op) == SUCCESS <==>
            forall i :: 0 <= i < |order| ==> Applicable(op, m[order[i]]) && Apply(op, m[order[i]]).Done?
  {
  }

  /** PauseAll and StopAll fail with AUDIO_NOT_PLAYED exactly when some record was never played. */
  lemma PauseStopAllCode<P>(m: map<AudioID, AudioRecord<P>>, order: seq<AudioID>, op: Op)
    requires op == PauseOp || op == StopOp
    requires BatchApplicable(m, order, op)
    ensures BatchCode(m, order, op) ==
            if exists i :: 0 <= i < |order| && !m[order[i]].played then AUDIO_NOT_PLAYED else SUCCESS
  {
    var f := FirstHalt(m, order, op);
    if f < |order| {
      assert !m[order[f]].played;
    }
  }

  /** ResumeAll never answers AUDIO_NOT_PLAYED: a never-played record halts it
      with AUDIO_NOT_PAUSED; it succeeds exactly when every record is paused. */
  lemma ResumeAllCode<P>(m: map<AudioID, AudioRecord<P>>, order: seq<AudioID>)
    requires BatchApplicable(m, order, ResumeAllOp)
    ensures BatchCode(m, order, ResumeAllOp) != AUDIO_NOT_PLAYED
    ensures BatchCode(m, order, ResumeAllOp) == SUCCESS <==>
            forall i :: 0 <= i < |order| ==> m[order[i]].played && m[order[i]].audio.value.status == Paused
    ensures var f := FirstHalt(m, order, ResumeAllOp);
            f < |order| && !m[order[f]].played ==> BatchCode(m, order, ResumeAllOp) == AUDIO_NOT_PAUSED
  {
    BatchSucceedsIffNoHalt(m, order, ResumeAllOp);
  }

  /** SetPlayingPositionAll succeeds exactly when the position lies within
      every record's duration (or there is no record). */
  lemma SeekAllCode<P>(m: map<AudioID, AudioRecord<P>>, order: seq<AudioID>, position: int)
    requires BatchApplicable(m, order, SeekOp(position))
    ensures BatchCode(m, order, SeekOp(position)) == SUCCESS <==>
            forall i :: 0 <= i < |order| ==> m[order[i]].played && 0 <= position <= m[order[i]].audio.value.duration
    ensures BatchCode(m, order, SeekOp(position)) != SUCCESS ==>
            BatchCode(m, order, SeekOp(position)) == POSITION_OUT_OF_RANGE
  {
    BatchSucceedsIffNoHalt(m, order, SeekOp(position));
  }
}
