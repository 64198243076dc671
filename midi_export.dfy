/**
 * The song exporter: a format-0 Standard MIDI File with one track holding
 * the track name, tempo, time signature and program change, then for every
 * instance of the song (the same section/repeat/event expansion the player
 * uses) an optional section marker and either the chord's note-on/note-off
 * pairs or a spacer text event for a rest, and finally the end of track.
 *
 * The track is first described as a list of (delta time, event bytes)
 * pairs; `ExportSongToMidi` writes exactly the serialisation of that list.
 */
module MidiExport {
  import opened SongTypes
  import opened Arithmetic
  import opened Timeline
  import opened MidiWriting

  const TICKS_PER_BEAT: int := 480

  /** Open-string note numbers in standard tuning, lowest string first: E2 A2 D3 G3 B3 E4. */
  const STRING_MIDI_BASE: seq<int> := [40, 45, 50, 55, 59, 64]

  /** One track event: the delta time before it and the bytes after the delta. */
  datatype MidiEvent = MidiEvent(delta: nat, data: seq<int>)

  /** The track body: each event as its delta-time quantity followed by its bytes. */
  function Serialize(evs: seq<MidiEvent>): seq<int>
  {
    if |evs| == 0 then []
    else Serialize(evs[..|evs| - 1]) + VarInt(evs[|evs| - 1].delta) + evs[|evs| - 1].data
  }

  function TotalDelta(evs: seq<MidiEvent>): int
  {
    if |evs| == 0 then 0 else TotalDelta(evs[..|evs| - 1]) + evs[|evs| - 1].delta
  }

  lemma SerializeSnoc(evs: seq<MidiEvent>, e: MidiEvent)
    ensures Serialize(evs + [e]) == Serialize(evs) + VarInt(e.delta) + e.data
  {
    assert (evs + [e])[..|evs|] == evs;
  }

  lemma {:induction false} SerializeAppend(a: seq<MidiEvent>, b: seq<MidiEvent>)
    ensures Serialize(a + b) == Serialize(a) + Serialize(b)
    decreases |b|
  {
    if |b| > 0 {
      var b' := b[..|b| - 1];
      assert (a + b)[..|a + b| - 1] == a + b';
      SerializeAppend(a, b');
    } else {
      assert a + b == a;
    }
  }

  lemma {:induction false} TotalDeltaAppend(a: seq<MidiEvent>, b: seq<MidiEvent>)
    ensures TotalDelta(a + b) == TotalDelta(a) + TotalDelta(b)
    decreases |b|
  {
    if |b| > 0 {
      var b' := b[..|b| - 1];
      assert (a + b)[..|a + b| - 1] == a + b';
      TotalDeltaAppend(a, b');
    } else {
      assert a + b == a;
    }
  }

  lemma {:induction false} ZeroDeltas(evs: seq<MidiEvent>)
    requires forall k :: 0 <= k < |evs| ==> evs[k].delta == 0
    ensures TotalDelta(evs) == 0
  {
    if |evs| > 0 {
      ZeroDeltas(evs[..|evs| - 1]);
    }
  }

  // ---------------------------------------------------------------- the track prelude

  /**
   * `Math.round(60000000 / tempo)`, the microseconds per quarter note: the
   * nearest integer, halves rounding up. A zero tempo divides to Infinity,
   * which the byte conversion turns into 0.
   */
  function MicrosecondsPerBeat(tempo: int): int
  {
    if tempo > 0 then (120_000_000 + tempo) / (2 * tempo)
    else if tempo < 0 then (-120_000_000 - tempo) / (-2 * tempo)
    else 0
  }

  /** The rounding: m is within half a step of 60000000 / tempo, halves going up. */
  lemma MicrosecondsRounding(tempo: int)
    ensures var m := MicrosecondsPerBeat(tempo);
            && (tempo > 0 ==> 2 * m * tempo - tempo <= 120_000_000 < 2 * m * tempo + tempo)
            && (tempo < 0 ==> 2 * m * tempo + tempo < 120_000_000 <= 2 * m * tempo - tempo)
            && (tempo == 0 ==> m == 0)
  {
    var m := MicrosecondsPerBeat(tempo);
    if tempo > 0 {
      var d := 2 * tempo;
      DivModUnique(120_000_000 + tempo, d, m, (120_000_000 + tempo) % d);
      assert m * d <= 120_000_000 + tempo < m * d + d;
    } else if tempo < 0 {
      var d := -2 * tempo;
      DivModUnique(-120_000_000 - tempo, d, m, (-120_000_000 - tempo) % d);
      assert m * d <= -120_000_000 - tempo < m * d + d;
    }
  }

  /** The three tempo bytes: bits 16-23, 8-15 and 0-7 of the rounded microseconds. */
  function TempoBytes(tempo: int): seq<int>
  {
    var m := MicrosecondsPerBeat(tempo);
    [(m / 0x1_0000) % 256, (m / 0x100) % 256, m % 256]
  }

  /** From 4 BPM up the rounded value fits three bytes, so they spell it exactly (120 BPM gives 07 A1 20). */
  lemma TempoBytesValue(tempo: int)
    requires tempo >= 4
    ensures BigEndianValue(TempoBytes(tempo)) == MicrosecondsPerBeat(tempo)
    ensures tempo == 120 ==> TempoBytes(tempo) == [0x07, 0xA1, 0x20]
  {
    TempoFits(tempo);
    ThreeBytesValue(MicrosecondsPerBeat(tempo));
  }

  lemma TempoFits(tempo: int)
    requires tempo >= 4
    ensures 0 <= MicrosecondsPerBeat(tempo) < 0x100_0000
  {
    var m := MicrosecondsPerBeat(tempo);
    MicrosecondsRounding(tempo);
    if m >= 0x100_0000 {
      MulLeq(0x100_0000, m, tempo);
    }
  }

  lemma ThreeBytesValue(m: int)
    requires 0 <= m < 0x100_0000
    ensures BigEndianValue([(m / 0x1_0000) % 256, (m / 0x100) % 256, m % 256]) == m
  {
    var bs: seq<int> := [(m / 0x1_0000) % 256, (m / 0x100) % 256, m % 256];
    assert bs[..2] == [bs[0], bs[1]];
    assert [bs[0], bs[1]][..1] == [bs[0]] && [bs[0]][..0] == [];
    assert BigEndianValue([bs[0]]) == bs[0];
    assert BigEndianValue([bs[0], bs[1]]) == bs[0] * 256 + bs[1];
    assert BigEndianValue(bs) == (bs[0] * 256 + bs[1]) * 256 + bs[2];
    LowBytes(m, 0x100);
    LowBytes(m, 0x1_0000);
  }

  function Pow2(k: nat): (p: nat)
    ensures p >= 1
  {
    if k == 0 then 1 else 2 * Pow2(k - 1)
  }

  /** The whole part of the base-2 logarithm. */
  function FloorLog2(n: int): nat
    requires n >= 1
  {
    if n == 1 then 0 else 1 + FloorLog2(n / 2)
  }

  lemma {:induction false} FloorLog2Bounds(n: int)
    requires n >= 1
    ensures Pow2(FloorLog2(n)) <= n < Pow2(FloorLog2(n) + 1)
  {
    if n > 1 {
      FloorLog2Bounds(n / 2);
    }
  }

  /**
   * The time-signature denominator byte: `Math.log2(den)`, whose fraction the
   * byte conversion drops; a zero or negative denominator gives -Infinity or
   * NaN, which convert to 0.
   */
  function DenominatorCode(den: int): nat
  {
    if den >= 1 then FloorLog2(den) else 0
  }

  lemma {:induction false} Pow2Monotone(a: nat, b: nat)
    requires a <= b
    ensures Pow2(a) <= Pow2(b)
    decreases b
  {
    if a < b {
      Pow2Monotone(a, b - 1);
    }
  }

  /** A power-of-two denominator 2^k is written as k, as the Standard MIDI Files time signature requires. */
  lemma DenominatorOfPower(k: nat)
    ensures DenominatorCode(Pow2(k)) == k
  {
    var n := Pow2(k);
    var j := FloorLog2(n);
    FloorLog2Bounds(n);
    if j < k {
      Pow2Monotone(j + 1, k);
      assert false;
    } else if j > k {
      Pow2Monotone(k + 1, j);
      assert false;
    }
    assert DenominatorCode(n) == j;
  }

  /** Text-like meta event bytes: FF, the type, the length as a quantity, the character codes. */
  function TextMeta(kind: int, text: string): seq<int>
  {
    [0xFF, kind] + VarInt(|text|) + CharCodes(text)
  }

  /** Track name, tempo, time signature (24 clocks per click, 8 32nds per quarter), program 24 on channel 0. */
  function Prelude(song: Song): seq<MidiEvent>
  {
    [ MidiEvent(0, TextMeta(0x03, song.title)),
      MidiEvent(0, [0xFF, 0x51, 0x03] + TempoBytes(song.tempo)),
      MidiEvent(0, [0xFF, 0x58, 0x04, song.timeSignature.0, DenominatorCode(song.timeSignature.1), 0x18, 0x08]),
      MidiEvent(0, [0xC0, 24]) ]
  }

  const END_OF_TRACK: MidiEvent := MidiEvent(TICKS_PER_BEAT, [0xFF, 0x2F, 0x00])

  // ---------------------------------------------------------------- one instance

  /** The note of a string held at a fret; a seventh string has no base note (NaN), which converts to 0. */
  function Pitch(stringIdx: nat, fret: nat): int
  {
    if stringIdx < |STRING_MIDI_BASE| then STRING_MIDI_BASE[stringIdx] + fret else 0
  }

  /** The notes of a fingering: one per string that is not muted, in string order. */
  function Pitches(frets: seq<Fret>): seq<int>
  {
    if |frets| == 0 then []
    else
      var last := |frets| - 1;
      Pitches(frets[..last]) + (if frets[last].Muted? then [] else [Pitch(last, frets[last].n)])
  }

  lemma {:induction false} PitchesSilent(frets: seq<Fret>)
    ensures Pitches(frets) == [] <==> forall i :: 0 <= i < |frets| ==> frets[i].Muted?
    ensures |Pitches(frets)| <= |frets|
  {
    if |frets| > 0 {
      var last := |frets| - 1;
      PitchesSilent(frets[..last]);
      if Pitches(frets) == [] {
        forall i | 0 <= i < |frets| ensures frets[i].Muted? {
          if i < last {
            assert frets[..last][i] == frets[i];
          }
        }
      }
    }
  }

  /** The marker naming a section, at delta 0. */
  function SectionMarker(name: string): MidiEvent
  {
    MidiEvent(0, TextMeta(0x06, name))
  }

  /** The marker slot: the first event of the first pass, for a section with a name (an empty name is falsy). */
  predicate HasMarker(f: FlatEvent)
  {
    f.repeatIndex == 0 && f.eventIndexInSection == 0 && f.sectionName != ""
  }

  /** The marker an instance writes: its section's, in the marker slot, and none elsewhere. */
  function SlotMarker(f: FlatEvent): seq<MidiEvent>
  {
    if HasMarker(f) then [SectionMarker(f.sectionName)] else []
  }

  /** A note-on per note, at delta 0 and velocity 100. */
  function NoteOns(notes: seq<int>): seq<MidiEvent>
  {
    if |notes| == 0 then []
    else NoteOns(notes[..|notes| - 1]) + [MidiEvent(0, [0x90, notes[|notes| - 1], 100])]
  }

  /** A note-off per note, the first carrying the chord's length in ticks. */
  function NoteOffs(notes: seq<int>, ticks: int): seq<MidiEvent>
    requires |notes| == 0 || ticks >= 0
  {
    if |notes| == 0 then []
    else NoteOffs(notes[..|notes| - 1], ticks) + [MidiEvent(if |notes| == 1 then ticks else 0, [0x80, notes[|notes| - 1], 0])]
  }

  /**
   * The events one instance adds. None when the export stops there: a chord
   * whose position index names no position (the original throws a
   * TypeError), or a negative delta time (the original's quantity loop never
   * ends).
   */
  function InstanceEvents(f: FlatEvent): Option<seq<MidiEvent>>
  {
    match InstanceBody(f)
    case None => None
    case Some(body) => Some(SlotMarker(f) + body)
  }

  /** What an instance writes after its marker: a rest, or the chord's note-ons and note-offs. */
  function InstanceBody(f: FlatEvent): Option<seq<MidiEvent>>
  {
    var ticks := f.event.duration * TICKS_PER_BEAT;
    if f.event.chord.None? then
      if ticks < 0 then None else Some([MidiEvent(ticks, [0xFF, 0x01, 0x00])])
    else
      match PositionOf(f.event)
      case None => None
      case Some(position) =>
        var notes := Pitches(position.frets);
        if |notes| > 0 && ticks < 0 then None
        else Some(NoteOns(notes) + NoteOffs(notes, ticks))
  }

  function Events(flat: seq<FlatEvent>): Option<seq<MidiEvent>>
  {
    if |flat| == 0 then Some([])
    else
      match Events(flat[..|flat| - 1])
      case None => None
      case Some(before) =>
        match InstanceEvents(flat[|flat| - 1])
        case None => None
        case Some(last) => Some(before + last)
  }

  function TrackEvents(song: Song): Option<seq<MidiEvent>>
  {
    match Events(Flatten(song.sections))
    case None => None
    case Some(body) => Some(Prelude(song) + body + [END_OF_TRACK])
  }

  /** The whole file: header chunk (format 0, one track, 480 ticks per quarter) and the track chunk. */
  function FileBytes(track: seq<Byte>): seq<Byte>
  {
    Octets(CharCodes("MThd") + Uint32Bytes(6) + Uint16Bytes(0) + Uint16Bytes(1) + Uint16Bytes(TICKS_PER_BEAT)
      + CharCodes("MTrk") + Uint32Bytes(|track|) + track)
  }

  function Export(song: Song): Option<seq<Byte>>
  {
    match TrackEvents(song)
    case None => None
    case Some(evs) => Some(FileBytes(Octets(Serialize(evs))))
  }

  // ---------------------------------------------------------------- properties

  /** The header chunk is exactly 'MThd' 00 00 00 06 00 00 00 01 01 E0; the track chunk is 'MTrk', its length, its bytes. */
  lemma FileLayout(track: seq<Byte>)
    ensures var file := FileBytes(track);
            && |file| == 22 + |track|
            && file[..14] == [0x4D, 0x54, 0x68, 0x64, 0, 0, 0, 6, 0, 0, 0, 1, 0x01, 0xE0]
            && file[14..18] == [0x4D, 0x54, 0x72, 0x6B]
            && file[18..22] == Uint32Bytes(|track|)
            && (|track| < 0x1_0000_0000 ==> BigEndianValue(file[18..22]) == |track|)
            && file[22..] == track
  {
    var header := CharCodes("MThd") + Uint32Bytes(6) + Uint16Bytes(0) + Uint16Bytes(1) + Uint16Bytes(TICKS_PER_BEAT);
    HeaderBytes();
    assert CharCodes("MTrk") == [0x4D, 0x54, 0x72, 0x6B];
    var head: seq<Byte> := [0x4D, 0x54, 0x68, 0x64, 0, 0, 0, 6, 0, 0, 0, 1, 0x01, 0xE0, 0x4D, 0x54, 0x72, 0x6B] + Uint32Bytes(|track|);
    assert header + CharCodes("MTrk") + Uint32Bytes(|track|) + track == head + track;
    OctetsAppend(head, track);
    OctetsOfBytes(head);
    OctetsOfBytes(track);
    assert FileBytes(track) == head + track;
    Uint32RoundTrip(|track|);
  }

  lemma HeaderBytes()
    ensures CharCodes("MThd") + Uint32Bytes(6) + Uint16Bytes(0) + Uint16Bytes(1) + Uint16Bytes(TICKS_PER_BEAT)
      == [0x4D, 0x54, 0x68, 0x64, 0, 0, 0, 6, 0, 0, 0, 1, 0x01, 0xE0]
  {
    assert CharCodes("MThd") == [0x4D, 0x54, 0x68, 0x64];
  }

  /** An export that fails at some instance fails as a whole. */
  lemma {:induction false} EventsPrefixNone(flat: seq<FlatEvent>, j: nat)
    requires j <= |flat| && Events(flat[..j]).None?
    ensures Events(flat).None?
    decreases |flat|
  {
    if j < |flat| {
      var init := flat[..|flat| - 1];
      assert init[..j] == flat[..j];
      EventsPrefixNone(init, j);
    } else {
      assert flat[..j] == flat;
    }
  }

  /** The beats an instance sounds for in the file: a rest, or a chord with at least one string played. */
  predicate Sounds(f: FlatEvent)
  {
    f.event.chord.None? || (PositionOf(f.event).Some? && Pitches(PositionOf(f.event).value.frets) != [])
  }

  function SoundedBeats(flat: seq<FlatEvent>): int
  {
    if |flat| == 0 then 0
    else SoundedBeats(flat[..|flat| - 1]) + (if Sounds(flat[|flat| - 1]) then flat[|flat| - 1].event.duration else 0)
  }

  lemma BodyDelta(f: FlatEvent)
    requires InstanceBody(f).Some?
    ensures TotalDelta(InstanceBody(f).value) == if Sounds(f) then f.event.duration * TICKS_PER_BEAT else 0
  {
    var ticks := f.event.duration * TICKS_PER_BEAT;
    if f.event.chord.None? {
      var rest := [MidiEvent(ticks, [0xFF, 0x01, 0x00])];
      assert rest[..0] == [];
    } else {
      var notes := Pitches(PositionOf(f.event).value.frets);
      NoteOnsDelta(notes);
      NoteOffsDelta(notes, ticks);
      TotalDeltaAppend(NoteOns(notes), NoteOffs(notes, ticks));
    }
  }

  lemma InstanceDelta(f: FlatEvent)
    requires InstanceEvents(f).Some?
    ensures TotalDelta(InstanceEvents(f).value) == if Sounds(f) then f.event.duration * TICKS_PER_BEAT else 0
  {
    var marker := SlotMarker(f);
    ZeroDeltas(marker);
    BodyDelta(f);
    TotalDeltaAppend(marker, InstanceBody(f).value);
  }

  lemma {:induction false} NoteOnsDelta(notes: seq<int>)
    ensures TotalDelta(NoteOns(notes)) == 0
  {
    if |notes| > 0 {
      NoteOnsDelta(notes[..|notes| - 1]);
      TotalDeltaAppend(NoteOns(notes[..|notes| - 1]), [MidiEvent(0, [0x90, notes[|notes| - 1], 100])]);
    }
  }

  lemma {:induction false} NoteOffsDelta(notes: seq<int>, ticks: int)
    requires |notes| == 0 || ticks >= 0
    ensures TotalDelta(NoteOffs(notes, ticks)) == if |notes| == 0 then 0 else ticks
  {
    if |notes| > 0 {
      var init := notes[..|notes| - 1];
      NoteOffsDelta(init, ticks);
      TotalDeltaAppend(NoteOffs(init, ticks), [MidiEvent(if |notes| == 1 then ticks else 0, [0x80, notes[|notes| - 1], 0])]);
    }
  }

  lemma {:induction false} EventsDelta(flat: seq<FlatEvent>)
    requires Events(flat).Some?
    ensures TotalDelta(Events(flat).value) == SoundedBeats(flat) * TICKS_PER_BEAT
  {
    if |flat| > 0 {
      var init := flat[..|flat| - 1];
      EventsDelta(init);
      InstanceDelta(flat[|flat| - 1]);
      TotalDeltaAppend(Events(init).value, InstanceEvents(flat[|flat| - 1]).value);
    }
  }

  /** The delta times of the track add up to one beat per sounded beat of the song, plus the beat before the end of track. */
  lemma TrackDelta(song: Song)
    requires TrackEvents(song).Some?
    ensures TotalDelta(TrackEvents(song).value) == (SoundedBeats(Flatten(song.sections)) + 1) * TICKS_PER_BEAT
  {
    var body := Events(Flatten(song.sections)).value;
    EventsDelta(Flatten(song.sections));
    var pre := Prelude(song);
    ZeroDeltas(pre);
    TotalDeltaAppend(pre, body);
    TotalDeltaAppend(pre + body, [END_OF_TRACK]);
    assert [END_OF_TRACK][..0] == [];
  }

  /** Every chord of the song has a position at its index and at least one string played. */
  ghost predicate ChordsSound(song: Song)
  {
    forall s, e :: 0 <= s < |song.sections| && 0 <= e < |song.sections[s].events| && song.sections[s].events[e].chord.Some? ==>
      var ev := song.sections[s].events[e];
      PositionOf(ev).Some? && Pitches(PositionOf(ev).value.frets) != []
  }

  lemma {:induction false} SoundedIsBeats(flat: seq<FlatEvent>)
    requires forall k :: 0 <= k < |flat| ==> Sounds(flat[k])
    ensures SoundedBeats(flat) == Beats(flat)
  {
    if |flat| > 0 {
      SoundedIsBeats(flat[..|flat| - 1]);
    }
  }

  /** When every chord sounds, the exported track lasts exactly the player's timeline plus one beat. */
  lemma ExportMatchesTimeline(song: Song)
    requires TrackEvents(song).Some? && ChordsSound(song)
    ensures TotalDelta(TrackEvents(song).value) == (TotalBeats(TimelineOf(song)) + 1) * TICKS_PER_BEAT
  {
    var flat := Flatten(song.sections);
    FlattenOrdered(song.sections);
    forall k | 0 <= k < |flat| ensures Sounds(flat[k]) {
      assert FromSong(song.sections, flat[k]);
    }
    SoundedIsBeats(flat);
    FlattenBeats(song.sections);
    TimelineTotal(song);
    TrackDelta(song);
  }

  // ---------------------------------------------------------------- section markers

  /** A marker meta event: FF 06. */
  predicate IsMarker(e: MidiEvent)
  {
    |e.data| >= 2 && e.data[0] == 0xFF && e.data[1] == 0x06
  }

  /** The marker events among evs, in order. */
  function Markers(evs: seq<MidiEvent>): seq<MidiEvent>
  {
    if |evs| == 0 then []
    else Markers(evs[..|evs| - 1]) + (if IsMarker(evs[|evs| - 1]) then [evs[|evs| - 1]] else [])
  }

  /** A section that is marked in the file: it has events, at least one pass and a non-empty name. */
  predicate Marked(sec: SongSection)
  {
    |sec.events| > 0 && RepeatCount(sec.repeat) > 0 && sec.name != ""
  }

  /** The markers the sections call for: one per marked section, named after it, in section order. */
  function SectionMarkers(sections: seq<SongSection>): seq<MidiEvent>
  {
    if |sections| == 0 then []
    else
      var last := sections[|sections| - 1];
      SectionMarkers(sections[..|sections| - 1]) + (if Marked(last) then [SectionMarker(last.name)] else [])
  }

  /** The markers the instances call for: one per marker slot, in timeline order. */
  function SlotMarkers(flat: seq<FlatEvent>): seq<MidiEvent>
  {
    if |flat| == 0 then []
    else
      var last := flat[|flat| - 1];
      SlotMarkers(flat[..|flat| - 1]) + (if HasMarker(last) then [SectionMarker(last.sectionName)] else [])
  }

  lemma {:induction false} MarkersAppend(a: seq<MidiEvent>, b: seq<MidiEvent>)
    ensures Markers(a + b) == Markers(a) + Markers(b)
    decreases |b|
  {
    if |b| == 0 {
      assert a + b == a;
    } else {
      var init := b[..|b| - 1];
      assert (a + b)[..|a + b| - 1] == a + init;
      MarkersAppend(a, init);
    }
  }

  lemma {:induction false} MarkersNone(evs: seq<MidiEvent>)
    requires forall k :: 0 <= k < |evs| ==> !IsMarker(evs[k])
    ensures Markers(evs) == []
  {
    if |evs| > 0 {
      MarkersNone(evs[..|evs| - 1]);
    }
  }

  lemma {:induction false} SlotMarkersAppend(a: seq<FlatEvent>, b: seq<FlatEvent>)
    ensures SlotMarkers(a + b) == SlotMarkers(a) + SlotMarkers(b)
    decreases |b|
  {
    if |b| == 0 {
      assert a + b == a;
    } else {
      var init := b[..|b| - 1];
      assert (a + b)[..|a + b| - 1] == a + init;
      SlotMarkersAppend(a, init);
    }
  }

  lemma {:induction false} SlotMarkersNone(flat: seq<FlatEvent>)
    requires forall k :: 0 <= k < |flat| ==> !HasMarker(flat[k])
    ensures SlotMarkers(flat) == []
  {
    if |flat| > 0 {
      SlotMarkersNone(flat[..|flat| - 1]);
    }
  }

  lemma {:induction false} NoteOnsUnmarked(notes: seq<int>)
    ensures Markers(NoteOns(notes)) == []
  {
    if |notes| > 0 {
      var on := MidiEvent(0, [0x90, notes[|notes| - 1], 100]);
      NoteOnsUnmarked(notes[..|notes| - 1]);
      MarkersAppend(NoteOns(notes[..|notes| - 1]), [on]);
      MarkersNone([on]);
    }
  }

  lemma {:induction false} NoteOffsUnmarked(notes: seq<int>, ticks: int)
    requires |notes| == 0 || ticks >= 0
    ensures Markers(NoteOffs(notes, ticks)) == []
  {
    if |notes| > 0 {
      var off := MidiEvent(if |notes| == 1 then ticks else 0, [0x80, notes[|notes| - 1], 0]);
      NoteOffsUnmarked(notes[..|notes| - 1], ticks);
      MarkersAppend(NoteOffs(notes[..|notes| - 1], ticks), [off]);
      MarkersNone([off]);
    }
  }

  /** An instance in a marker slot writes its section's marker first; no instance writes any other marker. */
  lemma InstanceMarkers(f: FlatEvent)
    requires InstanceEvents(f).Some?
    ensures var evs := InstanceEvents(f).value;
            && Markers(evs) == (if HasMarker(f) then [SectionMarker(f.sectionName)] else [])
            && (HasMarker(f) ==> evs[0] == SectionMarker(f.sectionName))
  {
    var marker := SlotMarker(f);
    var body := InstanceBody(f).value;
    assert InstanceEvents(f).value == marker + body;
    SlotMarkerIsMarker(f);
    BodyUnmarked(f);
    MarkersAppend(marker, body);
  }

  lemma BodyUnmarked(f: FlatEvent)
    requires InstanceBody(f).Some?
    ensures Markers(InstanceBody(f).value) == []
  {
    var ticks := f.event.duration * TICKS_PER_BEAT;
    if f.event.chord.None? {
      MarkersNone(InstanceBody(f).value);
    } else {
      var notes := Pitches(PositionOf(f.event).value.frets);
      NoteOnsUnmarked(notes);
      NoteOffsUnmarked(notes, ticks);
      MarkersAppend(NoteOns(notes), NoteOffs(notes, ticks));
    }
  }

  lemma SlotMarkerIsMarker(f: FlatEvent)
    ensures Markers(SlotMarker(f)) == SlotMarker(f)
  {
    if HasMarker(f) {
      var marker := SlotMarker(f);
      assert marker[..0] == [];
      assert IsMarker(marker[0]);
    }
  }

  lemma {:induction false} EventsMarkers(flat: seq<FlatEvent>)
    requires Events(flat).Some?
    ensures Markers(Events(flat).value) == SlotMarkers(flat)
  {
    if |flat| > 0 {
      var init := flat[..|flat| - 1];
      EventsMarkers(init);
      InstanceMarkers(flat[|flat| - 1]);
      MarkersAppend(Events(init).value, InstanceEvents(flat[|flat| - 1]).value);
    }
  }

  /** One pass holds a marker slot only when it is the first pass and the section has events and a name. */
  lemma PassMarkers(sec: SongSection, sIdx: nat, rIdx: nat)
    ensures SlotMarkers(Pass(sec, sIdx, rIdx)) == if rIdx == 0 && |sec.events| > 0 && sec.name != "" then [SectionMarker(sec.name)] else []
  {
    var p := Pass(sec, sIdx, rIdx);
    if |p| > 0 {
      var rest := p[1..];
      assert p == [p[0]] + rest;
      SlotMarkersAppend([p[0]], rest);
      assert [p[0]][..0] == [];
      forall k | 0 <= k < |rest| ensures !HasMarker(rest[k]) {
        assert rest[k] == Instance(sec, sIdx, rIdx, k + 1);
      }
      SlotMarkersNone(rest);
    }
  }

  lemma {:induction false} PassesMarkers(sec: SongSection, sIdx: nat, n: nat)
    ensures SlotMarkers(Passes(sec, sIdx, n)) == if n > 0 && |sec.events| > 0 && sec.name != "" then [SectionMarker(sec.name)] else []
  {
    if n > 0 {
      var before := Passes(sec, sIdx, n - 1);
      var pass := Pass(sec, sIdx, n - 1);
      assert Passes(sec, sIdx, n) == before + pass;
      PassesMarkers(sec, sIdx, n - 1);
      PassMarkers(sec, sIdx, n - 1);
      SlotMarkersAppend(before, pass);
      if n == 1 {
        assert SlotMarkers(before) == [];
      } else {
        assert SlotMarkers(pass) == [];
      }
    }
  }

  lemma {:induction false} FlattenMarkers(sections: seq<SongSection>)
    ensures SlotMarkers(Flatten(sections)) == SectionMarkers(sections)
  {
    if |sections| > 0 {
      var last := |sections| - 1;
      FlattenMarkers(sections[..last]);
      PassesMarkers(sections[last], last, RepeatCount(sections[last].repeat));
      SlotMarkersAppend(Flatten(sections[..last]), SectionInstances(sections[last], last));
    }
  }

  /**
   * The markers of the exported track are exactly one per section that has
   * events, is played at least once and has a non-empty name, carrying that
   * name at delta 0, in section order.
   */
  lemma TrackMarkers(song: Song)
    requires TrackEvents(song).Some?
    ensures Markers(TrackEvents(song).value) == SectionMarkers(song.sections)
  {
    var pre := Prelude(song);
    var body := Events(Flatten(song.sections)).value;
    MarkersNone(pre);
    MarkersNone([END_OF_TRACK]);
    MarkersAppend(pre, body);
    MarkersAppend(pre + body, [END_OF_TRACK]);
    EventsMarkers(Flatten(song.sections));
    FlattenMarkers(song.sections);
  }

  /** With every duration non-negative and every chord position present, the export produces a file. */
  lemma {:induction false} EventsSucceed(flat: seq<FlatEvent>)
    requires forall k :: 0 <= k < |flat| ==> flat[k].event.duration >= 0 && (flat[k].event.chord.Some? ==> PositionOf(flat[k].event).Some?)
    ensures Events(flat).Some?
  {
    if |flat| > 0 {
      EventsSucceed(flat[..|flat| - 1]);
    }
  }

  /** The track opens with the name event 00 FF 03 and closes with a one-beat delta and end of track, 83 60 FF 2F 00. */
  lemma TrackBoundaries(song: Song)
    requires TrackEvents(song).Some?
    ensures var bytes := Serialize(TrackEvents(song).value);
            && |bytes| >= 8
            && bytes[..3] == [0x00, 0xFF, 0x03]
            && bytes[|bytes| - 5..] == [0x83, 0x60, 0xFF, 0x2F, 0x00]
  {
    var pre := Prelude(song);
    var rest := pre[1..] + Events(Flatten(song.sections)).value;
    assert TrackEvents(song).value == [pre[0]] + rest + [END_OF_TRACK];
    SerializeSnoc([], pre[0]);
    var head := Serialize([pre[0]]);
    assert head[..3] == [0x00, 0xFF, 0x03];
    SerializeAppend([pre[0]], rest);
    var front := head + Serialize(rest);
    SerializeSnoc([pre[0]] + rest, END_OF_TRACK);
    assert VarInt(TICKS_PER_BEAT) == [0x83, 0x60];
    assert Serialize(TrackEvents(song).value) == front + [0x83, 0x60, 0xFF, 0x2F, 0x00];
  }

  // ---------------------------------------------------------------- the exporter

  /** Song title, section names and tick counts the 28-bit quantity encoder accepts. */
  ghost predicate Exportable(song: Song)
  {
    && |song.title| < VARINT_LIMIT
    && (forall s :: 0 <= s < |song.sections| ==> |song.sections[s].name| < VARINT_LIMIT)
    && (forall s, e :: 0 <= s < |song.sections| && 0 <= e < |song.sections[s].events| ==>
          song.sections[s].events[e].duration * TICKS_PER_BEAT < VARINT_LIMIT)
  }

  /** An instance whose marker length and tick count the quantity encoder accepts. */
  predicate Writable(f: FlatEvent)
  {
    |f.sectionName| < VARINT_LIMIT && f.event.duration * TICKS_PER_BEAT < VARINT_LIMIT
  }

  /** The notes loop: one note per string that is not muted. */
  method ChordNotes(frets: seq<Fret>) returns (notes: seq<int>)
    ensures notes == Pitches(frets)
  {
    notes := [];
    var stringIdx := 0;
    while stringIdx < |frets|
      invariant 0 <= stringIdx <= |frets|
      invariant notes == Pitches(frets[..stringIdx])
    {
      assert frets[..stringIdx + 1][..stringIdx] == frets[..stringIdx];
      if !frets[stringIdx].Muted? {
        notes := notes + [Pitch(stringIdx, frets[stringIdx].n)];
      }
      stringIdx := stringIdx + 1;
    }
    assert frets[..stringIdx] == frets;
  }

  /** `writeVarInt(delta); writeBytes(data)`: one event appended to the track written so far. */
  method WriteEvent(track: MidiWriter, e: MidiEvent, ghost base: seq<int>, ghost done: seq<MidiEvent>)
    requires e.delta < VARINT_LIMIT
    requires track.bytes == base + Serialize(done)
    modifies track
    ensures track.bytes == base + Serialize(done + [e])
  {
    track.WriteVarInt(e.delta);
    track.WriteBytes(e.data);
    SerializeSnoc(done, e);
  }

  /** A text-like meta event at delta 0: FF, its type, the text length, then the text written character by character. */
  method WriteTextEvent(track: MidiWriter, kind: int, text: string, ghost base: seq<int>, ghost done: seq<MidiEvent>)
    requires |text| < VARINT_LIMIT
    requires track.bytes == base + Serialize(done)
    modifies track
    ensures track.bytes == base + Serialize(done + [MidiEvent(0, TextMeta(kind, text))])
  {
    track.WriteVarInt(0);
    track.WriteBytes([0xFF, kind]);
    track.WriteVarInt(|text|);
    track.WriteString(text);
    SerializeSnoc(done, MidiEvent(0, TextMeta(kind, text)));
  }

  /** The note-on loop: every note at delta 0, velocity 100. */
  method WriteNoteOns(track: MidiWriter, notes: seq<int>, ghost base: seq<int>, ghost done: seq<MidiEvent>)
    requires track.bytes == base + Serialize(done)
    modifies track
    ensures track.bytes == base + Serialize(done + NoteOns(notes))
  {
    ghost var written := done;
    var k := 0;
    assert notes[..0] == [];
    while k < |notes|
      invariant 0 <= k <= |notes|
      invariant written == done + NoteOns(notes[..k])
      invariant track.bytes == base + Serialize(written)
    {
      var e := MidiEvent(0, [0x90, notes[k], 100]);
      WriteEvent(track, e, base, written);
      NoteOnsStep(notes, k);
      written := written + [e];
      k := k + 1;
    }
    assert notes[..k] == notes;
  }

  lemma NoteOnsStep(notes: seq<int>, k: nat)
    requires k < |notes|
    ensures NoteOns(notes[..k + 1]) == NoteOns(notes[..k]) + [MidiEvent(0, [0x90, notes[k], 100])]
  {
    assert notes[..k + 1][..k] == notes[..k];
  }

  lemma NoteOffsStep(notes: seq<int>, k: nat, ticks: int)
    requires k < |notes| && ticks >= 0
    ensures NoteOffs(notes[..k + 1], ticks) == NoteOffs(notes[..k], ticks) + [MidiEvent(if k == 0 then ticks else 0, [0x80, notes[k], 0])]
  {
    assert notes[..k + 1][..k] == notes[..k];
  }

  /** The note-off loop: the first note-off waits the chord's length, the others follow at delta 0. */
  method WriteNoteOffs(track: MidiWriter, notes: seq<int>, durationTicks: int, ghost base: seq<int>, ghost done: seq<MidiEvent>)
    requires |notes| == 0 || 0 <= durationTicks < VARINT_LIMIT
    requires track.bytes == base + Serialize(done)
    modifies track
    ensures track.bytes == base + Serialize(done + NoteOffs(notes, durationTicks))
  {
    ghost var written := done;
    var k := 0;
    assert notes[..0] == [];
    while k < |notes|
      invariant 0 <= k <= |notes|
      invariant written == done + NoteOffs(notes[..k], durationTicks)
      invariant track.bytes == base + Serialize(written)
    {
      var e := MidiEvent(if k == 0 then durationTicks else 0, [0x80, notes[k], 0]);
      WriteEvent(track, e, base, written);
      NoteOffsStep(notes, k, durationTicks);
      written := written + [e];
      k := k + 1;
    }
    assert notes[..k] == notes;
  }

  /** The body of the per-instance loop; false where the original stops with an error. */
  method WriteInstance(track: MidiWriter, f: FlatEvent) returns (ok: bool)
    requires Writable(f)
    modifies track
    ensures ok == InstanceEvents(f).Some?
    ensures ok ==> track.bytes == old(track.bytes) + Serialize(InstanceEvents(f).value)
  {
    ghost var base := track.bytes;
    ghost var marker := SlotMarker(f);
    if HasMarker(f) {
      WriteTextEvent(track, 0x06, f.sectionName, base, []);
      assert [] + [SectionMarker(f.sectionName)] == marker;
    } else {
      assert base + Serialize(marker) == base;
    }
    ok := WriteBody(track, f, base, marker);
  }

  /** The rest, or the chord's note-ons and note-offs, after the marker; false where the exporter throws. */
  method WriteBody(track: MidiWriter, f: FlatEvent, ghost base: seq<int>, ghost marker: seq<MidiEvent>) returns (ok: bool)
    requires Writable(f) && marker == SlotMarker(f)
    requires track.bytes == base + Serialize(marker)
    modifies track
    ensures ok == InstanceEvents(f).Some?
    ensures ok ==> track.bytes == base + Serialize(InstanceEvents(f).value)
  {
    var durationTicks := f.event.duration * TICKS_PER_BEAT;
    if f.event.chord.Some? {
      var positions := f.event.chord.value.positions;
      if !(0 <= f.event.positionIndex < |positions|) {
        assert InstanceBody(f).None?;
        return false;
      }
      var notes := ChordNotes(positions[f.event.positionIndex].frets);
      if |notes| > 0 && durationTicks < 0 {
        assert InstanceBody(f).None?;
        return false;
      }
      assert InstanceBody(f) == Some(NoteOns(notes) + NoteOffs(notes, durationTicks));
      assert marker + (NoteOns(notes) + NoteOffs(notes, durationTicks)) == marker + NoteOns(notes) + NoteOffs(notes, durationTicks);
      WriteNoteOns(track, notes, base, marker);
      WriteNoteOffs(track, notes, durationTicks, base, marker + NoteOns(notes));
    } else {
      if durationTicks < 0 {
        assert InstanceBody(f).None?;
        return false;
      }
      assert InstanceBody(f) == Some([MidiEvent(durationTicks, [0xFF, 0x01, 0x00])]);
      WriteEvent(track, MidiEvent(durationTicks, [0xFF, 0x01, 0x00]), base, marker);
    }
    return true;
  }

  /** Track name, tempo, time signature and program change, each at delta 0. */
  method WritePrelude(track: MidiWriter, song: Song)
    requires |song.title| < VARINT_LIMIT
    modifies track
    ensures track.bytes == old(track.bytes) + Serialize(Prelude(song))
  {
    ghost var base := track.bytes;
    ghost var pre := Prelude(song);
    assert pre[..1] == [] + [pre[0]];
    assert pre[..2] == pre[..1] + [pre[1]];
    assert pre[..3] == pre[..2] + [pre[2]];
    assert pre == pre[..3] + [pre[3]];
    WriteTextEvent(track, 0x03, song.title, base, []);
    var microsecondsPerBeat := MicrosecondsPerBeat(song.tempo);
    var tempoBytes := [(microsecondsPerBeat / 0x1_0000) % 256, (microsecondsPerBeat / 0x100) % 256, microsecondsPerBeat % 256];
    WriteEvent(track, MidiEvent(0, [0xFF, 0x51, 0x03] + tempoBytes), base, pre[..1]);
    var num := song.timeSignature.0;
    var den := DenominatorCode(song.timeSignature.1);
    WriteEvent(track, MidiEvent(0, [0xFF, 0x58, 0x04, num, den, 0x18, 0x08]), base, pre[..2]);
    WriteEvent(track, MidiEvent(0, [0xC0, 24]), base, pre[..3]);
  }

  /** The file around the track bytes: the header chunk, then 'MTrk', the track length and the track. */
  method WriteFile(trackBytes: seq<Byte>) returns (bytes: seq<Byte>)
    ensures bytes == FileBytes(trackBytes)
  {
    var file := new MidiWriter();
    file.WriteString("MThd");
    file.WriteUint32(6);
    file.WriteUint16(0);
    file.WriteUint16(1);
    file.WriteUint16(TICKS_PER_BEAT);
    file.WriteString("MTrk");
    file.WriteUint32(|trackBytes|);
    file.WriteBytes(trackBytes);
    assert file.bytes == CharCodes("MThd") + Uint32Bytes(6) + Uint16Bytes(0) + Uint16Bytes(1) + Uint16Bytes(TICKS_PER_BEAT)
      + CharCodes("MTrk") + Uint32Bytes(|trackBytes|) + trackBytes;
    bytes := file.GetBytes();
    assert bytes == Octets(file.bytes);
  }

  /** The `forEach` over the song's instances. */
  method WriteEvents(track: MidiWriter, flat: seq<FlatEvent>) returns (ok: bool)
    requires forall k :: 0 <= k < |flat| ==> Writable(flat[k])
    modifies track
    ensures ok == Events(flat).Some?
    ensures ok ==> track.bytes == old(track.bytes) + Serialize(Events(flat).value)
  {
    ghost var base := track.bytes;
    var i := 0;
    assert flat[..0] == [];
    while i < |flat|
      invariant 0 <= i <= |flat|
      invariant Events(flat[..i]).Some?
      invariant track.bytes == base + Serialize(Events(flat[..i]).value)
    {
      ok := WriteStep(track, flat, i, base);
      if !ok {
        return;
      }
      i := i + 1;
    }
    assert flat[..i] == flat;
    ok := true;
  }

  /** One turn of the `forEach`: the instance at i after the instances before it. */
  method WriteStep(track: MidiWriter, flat: seq<FlatEvent>, i: nat, ghost base: seq<int>) returns (ok: bool)
    requires i < |flat| && Writable(flat[i])
    requires Events(flat[..i]).Some? && track.bytes == base + Serialize(Events(flat[..i]).value)
    modifies track
    ensures !ok ==> Events(flat).None?
    ensures ok ==> Events(flat[..i + 1]).Some? && track.bytes == base + Serialize(Events(flat[..i + 1]).value)
  {
    ghost var before := track.bytes;
    ok := WriteInstance(track, flat[i]);
    if !ok {
      EventsStop(flat, i);
      return;
    }
    StepBytes(flat, i, base, before, track.bytes);
  }

  lemma StepBytes(flat: seq<FlatEvent>, i: nat, base: seq<int>, before: seq<int>, after: seq<int>)
    requires i < |flat| && Events(flat[..i]).Some? && InstanceEvents(flat[i]).Some?
    requires before == base + Serialize(Events(flat[..i]).value)
    requires after == before + Serialize(InstanceEvents(flat[i]).value)
    ensures Events(flat[..i + 1]).Some? && after == base + Serialize(Events(flat[..i + 1]).value)
  {
    var done := Events(flat[..i]).value;
    var added := InstanceEvents(flat[i]).value;
    EventsStep(flat, i, done);
    SerializeCompose(base, done, added, before, after);
  }

  lemma SerializeCompose(base: seq<int>, done: seq<MidiEvent>, added: seq<MidiEvent>, before: seq<int>, after: seq<int>)
    requires before == base + Serialize(done) && after == before + Serialize(added)
    ensures after == base + Serialize(done + added)
  {
    SerializeAppend(done, added);
    assert base + Serialize(done) + Serialize(added) == base + (Serialize(done) + Serialize(added));
  }

  lemma EventsStep(flat: seq<FlatEvent>, i: nat, done: seq<MidiEvent>)
    requires i < |flat| && Events(flat[..i]) == Some(done) && InstanceEvents(flat[i]).Some?
    ensures Events(flat[..i + 1]) == Some(done + InstanceEvents(flat[i]).value)
  {
    assert flat[..i + 1][..i] == flat[..i];
  }

  lemma EventsStop(flat: seq<FlatEvent>, i: nat)
    requires i < |flat| && InstanceEvents(flat[i]).None?
    ensures Events(flat).None?
  {
    assert flat[..i + 1][..i] == flat[..i];
    EventsPrefixNone(flat, i + 1);
  }

  /** The file the exporter builds once every instance was written. */
  lemma ExportOf(song: Song, body: seq<MidiEvent>)
    requires Events(Flatten(song.sections)) == Some(body)
    ensures Export(song) == Some(FileBytes(Octets(Serialize(Prelude(song) + body + [END_OF_TRACK]))))
  {
  }

  lemma ExportableInstances(song: Song)
    requires Exportable(song)
    ensures forall k :: 0 <= k < |Flatten(song.sections)| ==> Writable(Flatten(song.sections)[k])
  {
    var flat := Flatten(song.sections);
    FlattenOrdered(song.sections);
    forall k | 0 <= k < |flat|
      ensures Writable(flat[k])
    {
      assert FromSong(song.sections, flat[k]);
    }
  }

  /** `exportSongToMidi` up to the download: the bytes of the file, or None where the original throws. */
  method ExportSongToMidi(song: Song) returns (file: Option<seq<Byte>>)
    requires Exportable(song)
    ensures file == Export(song)
  {
    var track := new MidiWriter();
    WritePrelude(track, song);

    var flatEvents := Flatten(song.sections);
    ExportableInstances(song);
    var ok := WriteEvents(track, flatEvents);
    if !ok {
      return None;
    }
    ghost var body := Events(flatEvents).value;
    SerializeAppend(Prelude(song), body);

    WriteEvent(track, END_OF_TRACK, [], Prelude(song) + body);

    var trackBytes := track.GetBytes();
    assert trackBytes == Octets(Serialize(Prelude(song) + body + [END_OF_TRACK]));
    var bytes := WriteFile(trackBytes);
    ExportOf(song, body);
    file := Some(bytes);
  }
}
