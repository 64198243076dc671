/**
 * The player's transport: play/pause/stop, seeking by bar and by section,
 * tempo changes, and the per-frame tick that maps the clock onto the
 * timeline, sounds each instance's chord on entry and drives the metronome.
 *
 * The host's frame callback becomes a call of Tick(now), the clock is the
 * parameter `now` (milliseconds), and the audio engine is replaced by the
 * ghost log `sounds` of the clicks and chords it would have been asked for.
 */
module Transport {
  import opened SongTypes
  import opened Timeline

  /** A request to the audio engine. */
  datatype Sound = Click(downbeat: bool) | Strum(position: ChordPosition, seconds: real)

  predicate Contains(e: TimedEvent, beats: real)
  {
    e.start as real <= beats < e.end as real
  }

  /** The first instance whose [start, end) holds `beats`, or -1. */
  function FindCurrent(tl: seq<TimedEvent>, beats: real): (i: int)
    ensures -1 <= i < |tl|
    ensures i >= 0 ==> Contains(tl[i], beats)
    ensures forall j :: 0 <= j < |tl| && (i == -1 || j < i) ==> !Contains(tl[j], beats)
  {
    if |tl| == 0 then -1
    else if Contains(tl[0], beats) then 0
    else
      var k := FindCurrent(tl[1..], beats);
      if k == -1 then -1 else k + 1
  }

  /** The first instance of section s, or -1. */
  function FirstOfSection(tl: seq<TimedEvent>, s: int): (i: int)
    ensures -1 <= i < |tl|
    ensures i >= 0 ==> tl[i].flat.sectionIndex == s
    ensures forall j :: 0 <= j < |tl| && (i == -1 || j < i) ==> tl[j].flat.sectionIndex != s
  {
    if |tl| == 0 then -1
    else if tl[0].flat.sectionIndex == s then 0
    else
      var k := FirstOfSection(tl[1..], s);
      if k == -1 then -1 else k + 1
  }

  /** The first instance of a section after section s, or -1. */
  function FirstAfterSection(tl: seq<TimedEvent>, s: int): (i: int)
    ensures -1 <= i < |tl|
    ensures i >= 0 ==> tl[i].flat.sectionIndex > s
    ensures forall j :: 0 <= j < |tl| && (i == -1 || j < i) ==> tl[j].flat.sectionIndex <= s
  {
    if |tl| == 0 then -1
    else if tl[0].flat.sectionIndex > s then 0
    else
      var k := FirstAfterSection(tl[1..], s);
      if k == -1 then -1 else k + 1
  }

  /** `Math.max(0, Math.min(index, n - 1))`. */
  function Clamp(index: int, n: nat): (t: int)
    requires n > 0
    ensures 0 <= t < n
    ensures 0 <= index < n ==> t == index
    ensures index < 0 ==> t == 0
    ensures index >= n ==> t == n - 1
  {
    if index < 0 then 0 else if index > n - 1 then n - 1 else index
  }

  /** Target of "previous section": the current section's start, or the previous section's start when already there. */
  function PrevSectionTarget(tl: seq<TimedEvent>, active: nat): (t: int)
    requires active < |tl|
    ensures -1 <= t < |tl|
    ensures var cur := tl[active].flat.sectionIndex;
            var first := FirstOfSection(tl, cur);
            0 <= first <= active
            && (active > first ==> t == first)
            && (active == first ==> t == FirstOfSection(tl, if cur - 1 < 0 then 0 else cur - 1))
  {
    var cur := tl[active].flat.sectionIndex;
    var first := FirstOfSection(tl, cur);
    if active > first then first
    else FirstOfSection(tl, if cur - 1 < 0 then 0 else cur - 1)
  }

  /** Target of "next section": the first instance of a later section, or the last instance. */
  function NextSectionTarget(tl: seq<TimedEvent>, active: nat): (t: int)
    requires active < |tl|
    ensures 0 <= t < |tl|
    ensures var cur := tl[active].flat.sectionIndex;
            if exists j :: 0 <= j < |tl| && tl[j].flat.sectionIndex > cur
            then tl[t].flat.sectionIndex > cur && forall j :: 0 <= j < t ==> tl[j].flat.sectionIndex <= cur
            else t == |tl| - 1
  {
    var next := FirstAfterSection(tl, tl[active].flat.sectionIndex);
    if next != -1 then next else |tl| - 1
  }

  /** `(currentBeat % beatsPerMeasure) === 0`; a zero measure length gives NaN, never a downbeat. */
  function IsDownbeat(beat: int, beatsPerMeasure: int): bool
  {
    beatsPerMeasure != 0 && beat % beatsPerMeasure == 0
  }

  function RealMin(a: real, b: real): real
  {
    if a < b then a else b
  }

  ghost predicate PositiveDurations(tl: seq<TimedEvent>)
  {
    forall i :: 0 <= i < |tl| ==> tl[i].flat.event.duration > 0
  }

  ghost predicate SongPositiveDurations(song: Song)
  {
    forall s, e :: 0 <= s < |song.sections| && 0 <= e < |song.sections[s].events| ==>
      song.sections[s].events[e].duration > 0
  }

  // ---------------------------------------------------------------- timeline facts

  /** Instances are laid out left to right: a later instance starts no earlier than an earlier one ends. */
  lemma {:induction false} EndsBeforeStart(tl: seq<TimedEvent>, i: nat, j: nat)
    requires WellTimed(tl) && PositiveDurations(tl)
    requires i < j < |tl|
    ensures tl[i].end <= tl[j].start
    decreases j - i
  {
    if i + 1 < j {
      EndsBeforeStart(tl, i, j - 1);
    }
  }

  /** In a timeline of positive durations, every instance lies within [0, totalBeats]. */
  lemma {:induction false} Bounds(tl: seq<TimedEvent>, i: nat)
    requires WellTimed(tl) && PositiveDurations(tl)
    requires i < |tl|
    ensures 0 <= tl[i].start < tl[i].end <= TotalBeats(tl)
  {
    if i > 0 {
      EndsBeforeStart(tl, 0, i);
    }
    if i < |tl| - 1 {
      EndsBeforeStart(tl, i, |tl| - 1);
    }
  }

  lemma {:induction false} ContainedFrom(tl: seq<TimedEvent>, beats: real, k: nat)
    requires WellTimed(tl) && PositiveDurations(tl)
    requires k < |tl| && tl[k].start as real <= beats < TotalBeats(tl) as real
    ensures exists j :: k <= j < |tl| && Contains(tl[j], beats)
    decreases |tl| - k
  {
    if beats < tl[k].end as real {
      assert Contains(tl[k], beats);
    } else {
      ContainedFrom(tl, beats, k + 1);
    }
  }

  /** While 0 <= beats < totalBeats, some instance contains beats. */
  lemma FindCurrentFound(tl: seq<TimedEvent>, beats: real)
    requires WellTimed(tl) && PositiveDurations(tl)
    requires 0.0 <= beats < TotalBeats(tl) as real
    ensures FindCurrent(tl, beats) != -1
  {
    ContainedFrom(tl, beats, 0);
  }

  /** Later clock readings never locate an earlier instance. */
  lemma FindCurrentMonotone(tl: seq<TimedEvent>, b1: real, b2: real)
    requires WellTimed(tl) && PositiveDurations(tl)
    requires b1 <= b2 && FindCurrent(tl, b1) != -1 && FindCurrent(tl, b2) != -1
    ensures FindCurrent(tl, b1) <= FindCurrent(tl, b2)
  {
    var i1, i2 := FindCurrent(tl, b1), FindCurrent(tl, b2);
    if i2 < i1 {
      EndsBeforeStart(tl, i2, i1);
    }
  }

  /** Every instance of a song with positive durations has a positive duration. */
  lemma TimelinePositive(song: Song)
    requires SongPositiveDurations(song)
    ensures PositiveDurations(TimelineOf(song))
  {
    var flat := Flatten(song.sections);
    ScheduleWellTimed(flat);
    FlattenOrdered(song.sections);
    forall i | 0 <= i < |flat| ensures TimelineOf(song)[i].flat.event.duration > 0 {
      assert FromSong(song.sections, flat[i]);
    }
  }

  /** Beats elapsed after `elapsedMs` at `tempo` BPM, plus the beats already reached at the origin. */
  lemma RebaseReadsBack(p: real, total: real, tempo: real, now: real)
    requires tempo > 0.0
    ensures var start := now - (p / 100.0) * ((total * 60.0) / tempo) * 1000.0;
            (now - start) / 1000.0 * (tempo / 60.0) == p / 100.0 * total
  {
    var x := (total * 60.0) / tempo;
    assert x * tempo == total * 60.0;
    var start := now - (p / 100.0) * x * 1000.0;
    assert (now - start) / 1000.0 == (p / 100.0) * x;
    assert (p / 100.0) * x * (tempo / 60.0) == (p / 100.0) * (x * tempo) / 60.0;
  }

  /** An origin placed `beats·60/tempo` seconds before `now` reads back `beats` at `now`. */
  lemma JumpReadsBack(beats: real, tempo: real, now: real)
    requires tempo > 0.0
    ensures var start := now - ((beats * 60.0) / tempo) * 1000.0;
            (now - start) / 1000.0 * (tempo / 60.0) == beats
  {
    var x := (beats * 60.0) / tempo;
    assert x * tempo == beats * 60.0;
    var start := now - x * 1000.0;
    assert (now - start) / 1000.0 == x;
  }

  /** A position at or below the total reads as a percentage in [0, 100]. */
  lemma Percent(a: real, total: real)
    requires 0.0 <= a <= total && total > 0.0
    ensures 0.0 <= a / total * 100.0 <= 100.0
  {
    assert a / total <= 1.0 by {
      assert (a / total) * total == a;
    }
  }

  lemma NonNegativeShare(a: real, total: real)
    requires a >= 0.0 && total > 0.0
    ensures a / total * 100.0 >= 0.0
  {
    assert a / total >= 0.0;
  }

  /** Beats elapsed since an origin split at an intermediate reading. */
  lemma ElapsedSplits(origin: real, mid: real, t: real, rate: real)
    ensures (t - origin) / 1000.0 * rate == (mid - origin) / 1000.0 * rate + (t - mid) / 1000.0 * rate
  {
  }

  lemma NonNegativeProduct(x: real, y: real)
    requires x >= 0.0 && y >= 0.0
    ensures x * y >= 0.0
  {
  }

  // ---------------------------------------------------------------- the player

  class Player {
    const timeline: seq<TimedEvent>
    const totalBeats: int
    const beatsPerMeasure: int
    var tempo: int
    var metronomeEnabled: bool
    var isPlaying: bool
    var activeFlatIndex: int
    var progress: real
    /** `startTimeRef`: the clock reading (ms) at which beat 0 would have been played. */
    var startTime: real
    /** `lastEventIdRef`: the instance entered last, whose chord is not sounded again. */
    var lastEventId: Option<InstanceId>
    /** `lastBeatRef`: the last whole beat a metronome click was considered for. */
    var lastBeat: int
    /** Whether an animation frame is requested (`playbackRef`); a tick runs only then. */
    var framePending: bool
    ghost var sounds: seq<Sound>
    /** The latest clock reading seen; the clock never runs backwards. */
    ghost var clock: real

    ghost predicate Valid()
      reads this
    {
      && WellTimed(timeline)
      && PositiveDurations(timeline)
      && totalBeats == TotalBeats(timeline)
      && tempo > 0
      && 0.0 <= progress <= 100.0
      && startTime <= clock
      && (isPlaying ==> totalBeats > 0)
      && (framePending ==> isPlaying)
      && lastBeat >= -1
    }

    /** Beats elapsed at clock reading `now` since the origin `startTime`. */
    function BeatsAt(now: real): real
      reads this`startTime, this`tempo
    {
      (now - startTime) / 1000.0 * (tempo as real / 60.0)
    }

    constructor (song: Song, now: real)
      requires song.tempo > 0 && now >= 0.0
      requires SongPositiveDurations(song)
      ensures Valid()
      ensures timeline == TimelineOf(song) && totalBeats == TotalBeats(timeline)
      ensures tempo == song.tempo && beatsPerMeasure == song.timeSignature.0
      ensures !isPlaying && !framePending && !metronomeEnabled && activeFlatIndex == 0 && progress == 0.0
      ensures lastEventId == None && lastBeat == -1 && sounds == [] && clock == now
    {
      timeline := TimelineOf(song);
      totalBeats := TotalBeats(TimelineOf(song));
      beatsPerMeasure := song.timeSignature.0;
      tempo := song.tempo;
      metronomeEnabled := false;
      isPlaying := false;
      framePending := false;
      activeFlatIndex := 0;
      progress := 0.0;
      startTime := 0.0;
      lastEventId := None;
      lastBeat := -1;
      sounds := [];
      clock := now;
      new;
      TimelineTotal(song);
      TimelinePositive(song);
    }

    /** What a jump to `index` leaves behind (`jumpToEvent`). */
    twostate predicate JumpedTo(index: int, now: real)
      reads this
    {
      && isPlaying == old(isPlaying) && framePending == old(framePending)
      && tempo == old(tempo) && metronomeEnabled == old(metronomeEnabled)
      && sounds == old(sounds) && clock == now
      && (|timeline| == 0 ==>
            && activeFlatIndex == old(activeFlatIndex) && progress == old(progress)
            && startTime == old(startTime) && lastEventId == old(lastEventId) && lastBeat == old(lastBeat))
      && (|timeline| > 0 && totalBeats > 0 && tempo > 0 ==>
            var t := Clamp(index, |timeline|);
            && activeFlatIndex == t
            && progress == timeline[t].start as real / totalBeats as real * 100.0
            && (old(isPlaying) ==> lastEventId == None && lastBeat == -1 && BeatsAt(now) == timeline[t].start as real)
            && (!old(isPlaying) ==> lastEventId == old(lastEventId) && lastBeat == old(lastBeat) && startTime == old(startTime)))
    }

    method JumpToEvent(index: int, now: real)
      requires Valid() && now >= clock
      modifies this`clock, this`activeFlatIndex, this`progress, this`startTime, this`lastEventId, this`lastBeat
      ensures Valid()
      ensures JumpedTo(index, now)
      ensures |timeline| > 0 ==> totalBeats > 0
    {
      clock := now;
      if |timeline| == 0 {
        return;
      }
      var targetIdx := Clamp(index, |timeline|);
      Bounds(timeline, targetIdx);
      Bounds(timeline, |timeline| - 1);
      Percent(timeline[targetIdx].start as real, totalBeats as real);
      var targetBeats := timeline[targetIdx].start;
      activeFlatIndex := targetIdx;
      progress := targetBeats as real / totalBeats as real * 100.0;
      if isPlaying {
        Rebase(targetBeats as real, now);
      }
    }

    /** A jump while playing: the origin moves so that the clock reads back the target beat, and the memories are cleared. */
    method Rebase(targetBeats: real, now: real)
      requires Valid() && 0.0 <= targetBeats && clock == now
      modifies this`startTime, this`lastEventId, this`lastBeat
      ensures Valid()
      ensures BeatsAt(now) == targetBeats && lastEventId == None && lastBeat == -1
    {
      var newSeconds := (targetBeats * 60.0) / tempo as real;
      startTime := now - newSeconds * 1000.0;
      lastEventId := None;
      lastBeat := -1;
      JumpReadsBack(targetBeats, tempo as real, now);
    }

    /** `handleReset`: stop (cancelling the pending frame) and rewind to the first instance. */
    method Reset()
      requires Valid()
      modifies this
      ensures Valid()
      ensures !isPlaying && !framePending && lastEventId == None && lastBeat == -1 && activeFlatIndex == 0 && progress == 0.0
      ensures tempo == old(tempo) && metronomeEnabled == old(metronomeEnabled) && startTime == old(startTime)
      ensures sounds == old(sounds) && clock == old(clock)
    {
      isPlaying := false;
      framePending := false;
      lastEventId := None;
      lastBeat := -1;
      activeFlatIndex := 0;
      progress := 0.0;
    }

    /** `handleStop`: pause in place while playing, otherwise rewind. */
    method Stop()
      requires Valid()
      modifies this
      ensures Valid() && !isPlaying && !framePending
      ensures old(isPlaying) ==>
        && activeFlatIndex == old(activeFlatIndex) && progress == old(progress)
        && lastEventId == old(lastEventId) && lastBeat == old(lastBeat)
      ensures !old(isPlaying) ==> lastEventId == None && lastBeat == -1 && activeFlatIndex == 0 && progress == 0.0
      ensures tempo == old(tempo) && metronomeEnabled == old(metronomeEnabled) && startTime == old(startTime)
      ensures sounds == old(sounds) && clock == old(clock)
    {
      if isPlaying {
        // the effect's cleanup cancels the pending frame
        isPlaying := false;
        framePending := false;
      } else {
        Reset();
      }
    }

    method PrevBar(now: real)
      requires Valid() && now >= clock
      modifies this
      ensures Valid() && JumpedTo(old(activeFlatIndex) - 1, now)
    {
      JumpToEvent(activeFlatIndex - 1, now);
    }

    method NextBar(now: real)
      requires Valid() && now >= clock
      modifies this
      ensures Valid() && JumpedTo(old(activeFlatIndex) + 1, now)
    {
      JumpToEvent(activeFlatIndex + 1, now);
    }

    /** `handlePrevSection`; nothing happens when the active index names no instance. */
    method PrevSection(now: real)
      requires Valid() && now >= clock
      modifies this
      ensures Valid()
      ensures 0 <= old(activeFlatIndex) < |timeline| ==> JumpedTo(PrevSectionTarget(timeline, old(activeFlatIndex)), now)
      ensures !(0 <= old(activeFlatIndex) < |timeline|) ==> unchanged(this)
    {
      if !(0 <= activeFlatIndex < |timeline|) {
        return;
      }
      var currentSectionIdx := timeline[activeFlatIndex].flat.sectionIndex;
      var currentSectionStartIdx := FirstOfSection(timeline, currentSectionIdx);
      if activeFlatIndex > currentSectionStartIdx {
        JumpToEvent(currentSectionStartIdx, now);
      } else {
        var prevSectionIdx := if currentSectionIdx < 1 then 0 else currentSectionIdx - 1;
        var prevSectionStartIdx := FirstOfSection(timeline, prevSectionIdx);
        JumpToEvent(prevSectionStartIdx, now);
      }
    }

    /** `handleNextSection`; nothing happens when the active index names no instance. */
    method NextSection(now: real)
      requires Valid() && now >= clock
      modifies this
      ensures Valid()
      ensures 0 <= old(activeFlatIndex) < |timeline| ==> JumpedTo(NextSectionTarget(timeline, old(activeFlatIndex)), now)
      ensures !(0 <= old(activeFlatIndex) < |timeline|) ==> unchanged(this)
    {
      if !(0 <= activeFlatIndex < |timeline|) {
        return;
      }
      var currentSectionIdx := timeline[activeFlatIndex].flat.sectionIndex;
      var nextSectionStartIdx := FirstAfterSection(timeline, currentSectionIdx);
      if nextSectionStartIdx != -1 {
        JumpToEvent(nextSectionStartIdx, now);
      } else {
        JumpToEvent(|timeline| - 1, now);
      }
    }

    /**
     * The playback effect that runs whenever playing starts or a setting it
     * depends on changes while playing: the origin is placed so that `now`
     * reads back the position `progress` stands for.
     */
    method Resume(now: real)
      requires Valid() && isPlaying && now >= clock
      modifies this`startTime, this`clock, this`framePending
      ensures Valid() && clock == now && framePending
      ensures BeatsAt(now) == progress / 100.0 * totalBeats as real
      ensures forall later :: BeatsAt(later) == progress / 100.0 * totalBeats as real + (later - now) / 1000.0 * (tempo as real / 60.0)
    {
      var startOffsetSeconds := (progress / 100.0) * ((totalBeats as real * 60.0) / tempo as real);
      startTime := now - startOffsetSeconds * 1000.0;
      clock := now;
      framePending := true;
      RebaseReadsBack(progress, totalBeats as real, tempo as real, now);
      forall later
        ensures BeatsAt(later) == progress / 100.0 * totalBeats as real + (later - now) / 1000.0 * (tempo as real / 60.0)
      {
        ElapsedSplits(startTime, now, later, tempo as real / 60.0);
      }
    }

    /** `handlePlayPause`: start (rewinding first after a finished run), or pause. */
    method PlayPause(now: real)
      requires Valid() && now >= clock
      modifies this
      ensures Valid() && clock == now
      ensures isPlaying <==> !old(isPlaying) && totalBeats > 0
      ensures framePending == isPlaying
      ensures isPlaying && old(progress) >= 100.0 ==>
        progress == 0.0 && activeFlatIndex == 0 && lastEventId == None && lastBeat == -1
      ensures isPlaying && old(progress) < 100.0 ==>
        progress == old(progress) && activeFlatIndex == old(activeFlatIndex)
        && lastEventId == old(lastEventId) && lastBeat == old(lastBeat)
      ensures isPlaying ==> BeatsAt(now) == progress / 100.0 * totalBeats as real
      ensures !isPlaying ==>
        && progress == old(progress) && activeFlatIndex == old(activeFlatIndex)
        && lastEventId == old(lastEventId) && lastBeat == old(lastBeat) && startTime == old(startTime)
      ensures tempo == old(tempo) && metronomeEnabled == old(metronomeEnabled) && sounds == old(sounds)
    {
      if !isPlaying && totalBeats > 0 {
        if progress >= 100.0 {
          Reset();
        }
        isPlaying := true;
        Resume(now);
      } else {
        isPlaying := false;
        framePending := false;
        clock := now;
      }
    }

    /** `handleTempoChange`: a parsed value strictly between 0 and 400 becomes the tempo; playback is re-based on a change. */
    method SetTempo(parsed: Option<int>, now: real)
      requires Valid() && now >= clock
      modifies this
      ensures Valid() && clock == now
      ensures tempo == if parsed.Some? && 0 < parsed.value < 400 then parsed.value else old(tempo)
      ensures isPlaying == old(isPlaying) && progress == old(progress) && activeFlatIndex == old(activeFlatIndex)
      ensures lastEventId == old(lastEventId) && lastBeat == old(lastBeat) && sounds == old(sounds)
      ensures metronomeEnabled == old(metronomeEnabled)
      ensures isPlaying && tempo != old(tempo) ==> BeatsAt(now) == progress / 100.0 * totalBeats as real
      ensures isPlaying && tempo != old(tempo) ==> framePending
      ensures !(isPlaying && tempo != old(tempo)) ==> startTime == old(startTime) && framePending == old(framePending)
    {
      clock := now;
      if parsed.Some? && 0 < parsed.value < 400 {
        var changed := parsed.value != tempo;
        tempo := parsed.value;
        if changed && isPlaying {
          Resume(now);
        }
      }
    }

    /** The metronome toggle; playback is re-based because the effect depends on it. */
    method ToggleMetronome(now: real)
      requires Valid() && now >= clock
      modifies this
      ensures Valid() && clock == now
      ensures metronomeEnabled == !old(metronomeEnabled)
      ensures isPlaying == old(isPlaying) && progress == old(progress) && activeFlatIndex == old(activeFlatIndex)
      ensures lastEventId == old(lastEventId) && lastBeat == old(lastBeat) && sounds == old(sounds) && tempo == old(tempo)
      ensures isPlaying ==> BeatsAt(now) == progress / 100.0 * totalBeats as real && framePending
      ensures !isPlaying ==> startTime == old(startTime) && framePending == old(framePending)
    {
      metronomeEnabled := !metronomeEnabled;
      clock := now;
      if isPlaying {
        Resume(now);
      }
    }

    /** The click a tick at whole beat `whole` asks for: one on each new whole beat while the metronome is on. */
    ghost function ClickFor(whole: int): seq<Sound>
      reads this`lastBeat, this`metronomeEnabled
    {
      if whole > lastBeat && metronomeEnabled then [Click(IsDownbeat(whole, beatsPerMeasure))] else []
    }

    /** Whether reaching instance i enters it afresh (its id differs from the last one entered). */
    predicate Enters(i: int)
      reads this`lastEventId
      requires -1 <= i < |timeline|
    {
      i != -1 && lastEventId != Some(timeline[i].flat.uniqueId)
    }

    /** The chord a tick at instance i asks for: only on a fresh entry, and only for an instance holding a chord. */
    ghost function StrumFor(i: int): seq<Sound>
      reads this`lastEventId, this`tempo
      requires -1 <= i < |timeline| && tempo > 0
    {
      if Enters(i) && timeline[i].flat.event.chord.Some? && PositionOf(timeline[i].flat.event).Some?
      then [Strum(PositionOf(timeline[i].flat.event).value, (timeline[i].flat.event.duration as real * 60.0) / tempo as real)]
      else []
    }

    /**
     * Whether entering instance i hands the audio engine a position the chord
     * does not have (`positions[positionIndex]` is undefined): the engine
     * throws, and the rest of the frame does not run.
     */
    predicate ChordMissing(i: int)
      reads this`lastEventId
      requires -1 <= i < |timeline|
    {
      Enters(i) && timeline[i].flat.event.chord.Some? && PositionOf(timeline[i].flat.event).None?
    }

    /** The metronome half of a tick. */
    method Metronome(currentBeat: int)
      requires Valid() && currentBeat >= 0
      modifies this`lastBeat, this`sounds
      ensures Valid()
      ensures sounds == old(sounds) + old(ClickFor(currentBeat))
      ensures lastBeat == if currentBeat > old(lastBeat) then currentBeat else old(lastBeat)
    {
      if currentBeat > lastBeat {
        if metronomeEnabled {
          sounds := sounds + [Click(IsDownbeat(currentBeat, beatsPerMeasure))];
        }
        lastBeat := currentBeat;
      }
    }

    /**
     * The chord half of a tick, for the instance found at the current beat (or -1);
     * `ok` is false where the audio engine throws, and then nothing is recorded.
     */
    method Enter(currentEventIdx: int) returns (ok: bool)
      requires Valid() && -1 <= currentEventIdx < |timeline|
      modifies this`lastEventId, this`activeFlatIndex, this`sounds
      ensures Valid()
      ensures ok <==> !old(ChordMissing(currentEventIdx))
      ensures sounds == old(sounds) + old(StrumFor(currentEventIdx))
      ensures ok ==> lastEventId == if currentEventIdx == -1 then old(lastEventId) else Some(timeline[currentEventIdx].flat.uniqueId)
      ensures ok ==> activeFlatIndex == if old(Enters(currentEventIdx)) then currentEventIdx else old(activeFlatIndex)
      ensures !ok ==> lastEventId == old(lastEventId) && activeFlatIndex == old(activeFlatIndex)
    {
      ok := true;
      if currentEventIdx != -1 {
        var event := timeline[currentEventIdx].flat;
        if lastEventId != Some(event.uniqueId) {
          if event.event.chord.Some? {
            var position := PositionOf(event.event);
            if position.None? {
              ok := false;
              return;
            }
            var durationSeconds := (event.event.duration as real * 60.0) / tempo as real;
            sounds := sounds + [Strum(position.value, durationSeconds)];
          }
          lastEventId := Some(event.uniqueId);
          activeFlatIndex := currentEventIdx;
        }
      }
    }

    /**
     * One animation frame of playback. Where the audio engine throws, the frame
     * stops after the metronome: the entry, the active instance and the progress
     * stay as they were, and no further frame is requested while the player
     * still reads as playing.
     */
    method Tick(now: real)
      requires Valid() && framePending && now >= clock
      modifies this`clock, this`lastBeat, this`sounds, this`lastEventId, this`activeFlatIndex
      modifies this`isPlaying, this`framePending, this`progress
      ensures Valid() && clock == now
      ensures var b := old(BeatsAt(now));
              var i := FindCurrent(timeline, b);
              && 0.0 <= b
              && sounds == old(sounds) + old(ClickFor(b.Floor)) + old(StrumFor(i))
              && (old(ChordMissing(i)) ==>
                    && isPlaying && !framePending
                    && lastBeat == (if b.Floor > old(lastBeat) then b.Floor else old(lastBeat))
                    && lastEventId == old(lastEventId) && activeFlatIndex == old(activeFlatIndex)
                    && progress == old(progress))
              && (!old(ChordMissing(i)) && b >= totalBeats as real ==>
                    && !isPlaying && !framePending
                    && lastEventId == None && lastBeat == -1 && activeFlatIndex == 0 && progress == 0.0)
              && (!old(ChordMissing(i)) && b < totalBeats as real ==>
                    && isPlaying && framePending
                    && i != -1
                    && progress == RealMin(b / totalBeats as real * 100.0, 100.0)
                    && lastBeat == (if b.Floor > old(lastBeat) then b.Floor else old(lastBeat))
                    && lastBeat >= old(lastBeat)
                    && !Enters(i)
                    && lastEventId == Some(timeline[i].flat.uniqueId)
                    && activeFlatIndex == (if old(Enters(i)) then i else old(activeFlatIndex)))
      ensures tempo == old(tempo) && metronomeEnabled == old(metronomeEnabled) && startTime == old(startTime)
    {
      var beatsElapsed := BeatsAt(now);
      NonNegativeProduct((now - startTime) / 1000.0, tempo as real / 60.0);
      clock := now;
      Advance(beatsElapsed);
    }

    /** The tick once the beats elapsed are known: metronome, entry, then the end check or the progress. */
    method Advance(beatsElapsed: real)
      requires Valid() && framePending && 0.0 <= beatsElapsed
      modifies this`lastBeat, this`sounds, this`lastEventId, this`activeFlatIndex
      modifies this`isPlaying, this`framePending, this`progress
      ensures Valid()
      ensures var b := beatsElapsed;
              var i := FindCurrent(timeline, b);
              && sounds == old(sounds) + old(ClickFor(b.Floor)) + old(StrumFor(i))
              && (old(ChordMissing(i)) ==>
                    && isPlaying && !framePending
                    && lastBeat == (if b.Floor > old(lastBeat) then b.Floor else old(lastBeat))
                    && lastEventId == old(lastEventId) && activeFlatIndex == old(activeFlatIndex)
                    && progress == old(progress))
              && (!old(ChordMissing(i)) && b >= totalBeats as real ==>
                    && !isPlaying && !framePending
                    && lastEventId == None && lastBeat == -1 && activeFlatIndex == 0 && progress == 0.0)
              && (!old(ChordMissing(i)) && b < totalBeats as real ==>
                    && isPlaying && framePending
                    && i != -1
                    && progress == RealMin(b / totalBeats as real * 100.0, 100.0)
                    && lastBeat == (if b.Floor > old(lastBeat) then b.Floor else old(lastBeat))
                    && lastBeat >= old(lastBeat)
                    && !Enters(i)
                    && lastEventId == Some(timeline[i].flat.uniqueId)
                    && activeFlatIndex == (if old(Enters(i)) then i else old(activeFlatIndex)))
    {
      var currentBeat := beatsElapsed.Floor;
      Metronome(currentBeat);
      var currentEventIdx := FindCurrent(timeline, beatsElapsed);
      var ok := Enter(currentEventIdx);
      if !ok {
        framePending := false;
        return;
      }

      if beatsElapsed < totalBeats as real {
        FindCurrentFound(timeline, beatsElapsed);
      }
      Settle(beatsElapsed);
    }

    /** The end of a tick: at or past the total, stop and rewind; before it, show the progress and request the next frame. */
    method Settle(beatsElapsed: real)
      requires Valid() && framePending && 0.0 <= beatsElapsed
      modifies this`isPlaying, this`framePending, this`lastEventId, this`lastBeat, this`activeFlatIndex, this`progress
      ensures Valid()
      ensures beatsElapsed >= totalBeats as real ==>
                && !isPlaying && !framePending
                && lastEventId == None && lastBeat == -1 && activeFlatIndex == 0 && progress == 0.0
      ensures beatsElapsed < totalBeats as real ==>
                && isPlaying && framePending
                && progress == RealMin(beatsElapsed / totalBeats as real * 100.0, 100.0)
                && lastEventId == old(lastEventId) && lastBeat == old(lastBeat) && activeFlatIndex == old(activeFlatIndex)
    {
      if beatsElapsed >= totalBeats as real {
        isPlaying := false;
        framePending := false;
        lastEventId := None;
        lastBeat := -1;
        activeFlatIndex := 0;
        progress := 0.0;
        return;
      }

      NonNegativeShare(beatsElapsed, totalBeats as real);
      progress := RealMin(beatsElapsed / totalBeats as real * 100.0, 100.0);
    }
  }
}
