# Chord-O-Matic, modelled in Dafny

Chord-O-Matic is a songwriting tool. A song is a list of sections; each section
holds chord events (a chord shape and a length in beats) and is played a number
of times. The web application lets the user edit the song (`EditorTab`), play it
back with a transport and a metronome (`PlayerTab`), see its length in the status
bar (`App`), draw chord diagrams (`ChordDiagram`) and export it as a Standard
MIDI File (`MidiExporter`). The Android application picks chords by key
(`ChordSelector`), keeps the song's chord list (`SongChordAdapter`, `SongChord`)
and draws a chord on a fretboard (`ChordView`).

The modules follow those files:

- `SongTypes`: the song records of `types.ts`.
- `Timeline`: the player's flattening of a song into instances (one per event per pass) and their running-total schedule.
- `Transport`: the player as a class `Player`, whose methods are the transport buttons, the tempo field, the metronome toggle and one animation frame (`Tick`).
- `MidiWriting`: the exporter's byte writer as a class `MidiWriter`, with the big-endian and variable-length encodings specified and decoded back.
- `MidiExport`: the file the exporter builds, as a function of the song, and the method that writes it through a `MidiWriter`.
- `Editor`: the editor's state updates, the enharmonic lookup and the chord browser's filter.
- `Summary`: the status bar's total beats, whole seconds and `m:ss` text.
- `ChordDiagram`: which markers, dots, barres, nut and base-fret label a diagram shows.
- `ChordViewing`: the Android fretboard's fret decoding and drawing, as the list of drawing calls.
- `SongChords`: Java equality and hashing of song chords, the adapter over a shared list, and the selector's click handlers.

## Model

| member | source | states |
|---|---|---|
| SongTypes.RepeatOrOne | components/PlayerTab.tsx:42 | `repeat \|\| 1` is never zero: an absent or zero repeat reads as 1, any other value is kept |
| Timeline.RepeatCount | components/PlayerTab.tsx:42-43 | the number of passes is 1 for an absent or zero repeat, the repeat itself when positive, and none when negative |
| Timeline.PassesAt | components/PlayerTab.tsx:43-53 | n passes hold n times the section's events; instance k is event k mod len of pass k div len |
| Timeline.FlattenLength | components/PlayerTab.tsx:40-56 | the flattening has, per section, events times passes instances |
| Timeline.FlattenBlock | components/PlayerTab.tsx:40-56 | section i occupies one consecutive block right after the instances of the earlier sections, and that block is its passes |
| Timeline.FlattenOrdered | components/PlayerTab.tsx:40-56 | instances come in (section, pass, event) order, and each carries its own section's index, name and event |
| Timeline.InstanceIdsDistinctInSection | components/PlayerTab.tsx:47 | two instances of one section never share a `uniqueId`, whatever ids the events have |
| Timeline.InstanceIdsDistinct | components/PlayerTab.tsx:47 | with distinct section ids, every instance in the song has its own `uniqueId` |
| Timeline.FlattenBeats | components/PlayerTab.tsx:40-56 | the flattening's durations add up to each section's beats per pass times its passes |
| Timeline.ScheduleAt | components/PlayerTab.tsx:59-66 | instance i starts after the durations of all instances before it and ends its own duration later |
| Timeline.ScheduleSpans | components/PlayerTab.tsx:59-66 | every scheduled instance is the flattened instance at its index and spans exactly that instance's duration |
| Timeline.ScheduleContiguous | components/PlayerTab.tsx:59-66 | each instance ends where the next one starts |
| Timeline.ScheduleEnds | components/PlayerTab.tsx:59-71 | the schedule starts at its origin, and `totalBeats` (the last end, or 0) is the sum of all durations |
| Timeline.ScheduleWellTimed | components/PlayerTab.tsx:59-71 | the schedule is contiguous from beat 0, each instance spans its duration, and the total is the sum of durations |
| Timeline.TimelineTotal | components/PlayerTab.tsx:40-71 | the player's `totalBeats` equals the per-section sum of one pass's beats times the passes, and the timeline has one entry per instance |
| Transport.FindCurrent | components/PlayerTab.tsx:192 | `findIndex`: the first instance whose [start, end) holds the beat, or -1 exactly when none does |
| Transport.FirstOfSection | components/PlayerTab.tsx:136 | the first instance of the given section, or -1 exactly when the section has none |
| Transport.FirstAfterSection | components/PlayerTab.tsx:156 | the first instance of a later section, or -1 exactly when there is none |
| Transport.Clamp | components/PlayerTab.tsx:84 | the target index always lies in the timeline; an index inside is kept and one outside goes to the nearer end |
| Transport.PrevSectionTarget | components/PlayerTab.tsx:130-148 | past the first instance of the current section, the target is that instance; on it, the target is the first instance of the section before (of section 0 when already in it), or -1 when that section has none |
| Transport.NextSectionTarget | components/PlayerTab.tsx:150-164 | the target is the first instance of a later section when one exists, otherwise the last instance |
| Transport.EndsBeforeStart | components/PlayerTab.tsx:59-66 | with positive durations, a later instance starts no earlier than an earlier one ends |
| Transport.Bounds | components/PlayerTab.tsx:59-71 | with positive durations, every instance lies inside [0, totalBeats] |
| Transport.FindCurrentFound | components/PlayerTab.tsx:192-206 | while 0 <= beats < totalBeats, some instance holds the beat, so playback always finds an instance to enter |
| Transport.FindCurrentMonotone | components/PlayerTab.tsx:192 | a later clock reading never locates an earlier instance |
| Transport.TimelinePositive | components/PlayerTab.tsx:40-66 | if every event of the song has a positive duration, so does every instance of the timeline |
| Transport.RebaseReadsBack | components/PlayerTab.tsx:166-172 | the origin placed by the playback effect reads back, at the same clock reading, the beat the progress percentage stands for |
| Transport.JumpReadsBack | components/PlayerTab.tsx:94-96 | the origin a jump places reads back the target's start beat at the same clock reading |
| Transport.Percent | components/PlayerTab.tsx:90 | a position between 0 and the total reads as a percentage in [0, 100] |
| Transport.Player.constructor | components/PlayerTab.tsx:14-24 | the player starts stopped at instance 0 with progress 0, metronome off, no entered instance and no counted beat, over the song's timeline, with no animation frame pending |
| Transport.Player.JumpToEvent | components/PlayerTab.tsx:81-101 | an empty timeline leaves everything alone; otherwise the clamped instance becomes active, progress is its start as a percentage, and while playing the clock reads back that start and the chord and click memories are cleared |
| Transport.Player.Rebase | components/PlayerTab.tsx:94-99 | while playing, the origin moves so that the current reading is the target beat, and the entered instance and counted beat are cleared |
| Transport.Player.Reset | components/PlayerTab.tsx:103-109 | stops, cancels the pending frame and rewinds to instance 0 with progress 0 and cleared memories; tempo and metronome are kept |
| Transport.Player.Stop | components/PlayerTab.tsx:114-120 | while playing, pauses in place and cancels the pending frame; when already stopped, rewinds as `Reset` does |
| Transport.Player.PrevBar | components/PlayerTab.tsx:122-124 | a jump to the instance before the active one |
| Transport.Player.NextBar | components/PlayerTab.tsx:126-128 | a jump to the instance after the active one |
| Transport.Player.PrevSection | components/PlayerTab.tsx:130-148 | a jump to `PrevSectionTarget` of the active instance, and nothing when the active index names no instance |
| Transport.Player.NextSection | components/PlayerTab.tsx:150-164 | a jump to `NextSectionTarget` of the active instance, and nothing when the active index names no instance |
| Transport.Player.Resume | components/PlayerTab.tsx:166-172 | the new origin makes the current reading show the progress's beat, and every later reading advances from it at tempo/60 beats per second; a frame is requested |
| Transport.Player.PlayPause | components/PlayerTab.tsx:228-238 | play starts only with a non-empty song and rewinds first after a finished run; pause keeps the position; playing always resumes from the progress's beat; a frame is pending exactly while playing |
| Transport.Player.SetTempo | components/PlayerTab.tsx:240-245 | only a value strictly between 0 and 400 is taken; a changed tempo while playing re-bases so the position does not jump and requests a frame; nothing else changes |
| Transport.Player.ToggleMetronome | components/PlayerTab.tsx:183-189 | flips the metronome, keeps the position, and re-bases playback while playing |
| Transport.Player.Metronome | components/PlayerTab.tsx:183-189 | a click sounds only for a beat beyond the last one counted and only with the metronome on; the counted beat never goes back |
| Transport.Player.Enter | components/PlayerTab.tsx:192-206 | an instance found and not just entered is entered: its chord is strummed for its duration at the tempo, if it has one, and it becomes active; when its chord names no position the strum throws, nothing is entered and `ok` is false exactly then |
| Transport.Player.Tick | components/PlayerTab.tsx:174-220 | at or beyond the end, playback stops and rewinds; before it, the click for the current beat and the strum of a newly entered instance are sounded, the instance holding the beat is entered, and progress is the beat's percentage capped at 100, with the next frame requested; when the entered chord names no position the tick aborts after the click: playback stays on, no frame is requested, and the entered instance, active index and progress are unchanged |
| Transport.Player.Advance | components/PlayerTab.tsx:182-218 | the tick from the beats elapsed on: the click and strum sounded, the abort on a chord with no position, the stop at the end, and otherwise the entered instance and the capped progress |
| Transport.Player.Settle | components/PlayerTab.tsx:208-218 | at or beyond the total, playback stops, no frame is requested, and everything rewinds; before it, progress is the capped percentage and the next frame is requested |
| MidiWriting.Uint16RoundTrip | services/MidiExporter.ts:21-24 | the two bytes written read back, big-endian, as the value modulo 2^16 |
| MidiWriting.Uint32RoundTrip | services/MidiExporter.ts:26-31 | the four bytes written read back, big-endian, as the value modulo 2^32 |
| MidiWriting.VarIntShape | services/MidiExporter.ts:33-44 | bit 7 is set on every byte of a quantity but the last, and a single byte suffices exactly below 128 |
| MidiWriting.VarIntLength | services/MidiExporter.ts:33-44 | every value below 2^28 takes one to four bytes |
| MidiWriting.VarIntRoundTrip | services/MidiExporter.ts:33-44 | decoding an encoded quantity, whatever follows it, gives back the value and the number of bytes it took |
| MidiWriting.PackGroups | services/MidiExporter.ts:34-38 | the first loop packs the 7-bit groups into a buffer that fits 31 bits and whose bytes, emitted from the low end while bit 7 is set, are the quantity |
| MidiWriting.MidiWriter.constructor | services/MidiExporter.ts:9 | a writer starts with no bytes |
| MidiWriting.MidiWriter.WriteString | services/MidiExporter.ts:11-15 | appends one code per character, in order |
| MidiWriting.MidiWriter.WriteUint8 | services/MidiExporter.ts:17-19 | appends the value's low byte |
| MidiWriting.MidiWriter.WriteUint16 | services/MidiExporter.ts:21-24 | appends the two big-endian bytes, which read back as the value modulo 2^16 |
| MidiWriting.MidiWriter.WriteUint32 | services/MidiExporter.ts:26-31 | appends the four big-endian bytes, which read back as the value modulo 2^32 |
| MidiWriting.MidiWriter.WriteVarInt | services/MidiExporter.ts:33-44 | appends exactly the variable-length quantity of the value, which decodes back to it |
| MidiWriting.MidiWriter.WriteBytes | services/MidiExporter.ts:46-48 | appends the given values in order |
| MidiWriting.MidiWriter.GetBytes | services/MidiExporter.ts:50-53 | the buffer as octets: same length, each value reduced modulo 256 |
| MidiExport.MicrosecondsRounding | services/MidiExporter.ts:69-70 | microseconds per beat are 60000000/tempo rounded to the nearest integer, halves going up |
| MidiExport.TempoBytesValue | services/MidiExporter.ts:69-76 | from 4 BPM up the three tempo bytes spell the rounded value exactly (120 BPM gives 07 A1 20) |
| MidiExport.DenominatorOfPower | services/MidiExporter.ts:81-84 | a time-signature denominator 2^k is written as k |
| MidiExport.PitchesSilent | services/MidiExporter.ts:122-126 | a chord gives no notes exactly when every string is muted, and never more notes than strings |
| MidiExport.FileLayout | services/MidiExporter.ts:185-195 | the file is the 14-byte header chunk 'MThd' 6 0 1 480, then 'MTrk', the track length and the track bytes |
| MidiExport.EventsPrefixNone | services/MidiExporter.ts:106-175 | an export that fails at some instance fails as a whole |
| MidiExport.InstanceDelta | services/MidiExporter.ts:117-173 | an instance advances the track by its duration in ticks when it sounds, and by nothing otherwise |
| MidiExport.EventsDelta | services/MidiExporter.ts:106-175 | the instances' delta times add up to 480 ticks per sounded beat |
| MidiExport.TrackDelta | services/MidiExporter.ts:62-179 | the track's delta times add up to one beat per sounded beat of the song, plus the beat before the end of track |
| MidiExport.ExportMatchesTimeline | services/MidiExporter.ts:94-179 | when every chord sounds, the exported track lasts exactly the player's timeline plus one beat |
| MidiExport.InstanceMarkers | services/MidiExporter.ts:108-113 | an instance in the marker slot (first pass, first event, non-empty section name) writes `FF 06` with the section name at delta 0 before its notes; no instance writes any other marker |
| MidiExport.TrackMarkers | services/MidiExporter.ts:100-113 | the markers of the whole track are exactly one per section with events, at least one pass and a non-empty name, carrying that name at delta 0, in section order |
| MidiExport.EventsSucceed | services/MidiExporter.ts:117-148 | with non-negative durations and every chord's position present, the export produces a file |
| MidiExport.TrackBoundaries | services/MidiExporter.ts:62-179 | the track opens with the name event 00 FF 03 and closes with a one-beat delta and end of track, 83 60 FF 2F 00 |
| MidiExport.ChordNotes | services/MidiExporter.ts:122-126 | the notes loop yields one note per string that is not muted, in string order |
| MidiExport.WriteNoteOns | services/MidiExporter.ts:130-134 | the note-on loop appends one note-on per note at delta 0, velocity 100 |
| MidiExport.WriteNoteOffs | services/MidiExporter.ts:139-142 | the note-off loop appends one note-off per note, the first waiting the chord's length and the rest at delta 0 |
| MidiExport.WriteInstance | services/MidiExporter.ts:106-175 | writes exactly the instance's events, and reports failure exactly where the exporter throws |
| MidiExport.WriteBody | services/MidiExporter.ts:115-173 | after the marker, writes the rest or the chord's note-ons and note-offs, and reports failure exactly where the exporter throws |
| MidiExport.WritePrelude | services/MidiExporter.ts:62-89 | writes the track name, tempo, time signature and program change, each at delta 0 |
| MidiExport.WriteFile | services/MidiExporter.ts:182-195 | wraps the track in its header and chunk as `FileLayout` lays out |
| MidiExport.WriteEvents | services/MidiExporter.ts:106-175 | the `forEach` writes every instance's events in order, and fails exactly when some instance fails |
| MidiExport.ExportSongToMidi | services/MidiExporter.ts:55-196 | the bytes written are the file `Export` describes, or none exactly where the exporter throws |
| Editor.InitialState | components/EditorTab.tsx:30 | the song is the one given; the first section's id is active, or the empty id when the song has none, and the active id is valid |
| Editor.AddToSectionEffect | components/EditorTab.tsx:72-90 | with a section active, the new four-beat event is appended to exactly the sections with the active id; with none, nothing changes |
| Editor.AddToSectionBeats | components/EditorTab.tsx:72-90 | every pass of the active section gets four more beats and one more instance |
| Editor.AddThenRemove | components/EditorTab.tsx:72-145 | removing the event just added, when its id is unused in the active section, gives the song back |
| Editor.AddNewSectionEffect | components/EditorTab.tsx:98-111 | the new section is appended last, empty, named 'Verse', played once, and becomes active |
| Editor.AddNewThenRemove | components/EditorTab.tsx:98-121 | removing the section just added, with a fresh id, gives the song back |
| Editor.FirstOtherIdSpec | components/EditorTab.tsx:118-119 | the id of the first section with another id, or empty exactly when every section has this id |
| Editor.RemoveSectionEffect | components/EditorTab.tsx:113-121 | the sections become `KeptSections` of the old ones; the active id stays valid, moving to the first remaining section when it was removed |
| Editor.KeptSectionsSpec | components/EditorTab.tsx:116 | no sections keep none; a single section is kept exactly when its id differs; the filter splits over concatenation, so order and every copy are preserved |
| Editor.UpdateSectionNameEffect | components/EditorTab.tsx:123-128 | renames exactly the sections with the id; timeline length and beats are unchanged |
| Editor.ClampRepeat | components/EditorTab.tsx:131 | the repeat is kept in 1..99, moving to the nearer bound when outside |
| Editor.UpdateSectionRepeatEffect | components/EditorTab.tsx:130-136 | the targeted sections get the clamped repeat, which is exactly their number of passes; nothing else changes |
| Editor.RemoveChordEffect | components/EditorTab.tsx:138-145 | only the targeted sections change, and their events become `KeptEvents` of the old ones, losing every copy of the id; ids, names and repeats are kept |
| Editor.KeptEventsSpec | components/EditorTab.tsx:138-145 | no events keep none; a single event is kept exactly when its id differs; the filter splits over concatenation, so order and every copy are preserved |
| Editor.UpdateChordDurationEffect | components/EditorTab.tsx:147-154 | the targeted events get the new duration; ids, order and the number of timeline instances stay |
| Editor.EnharmonicInvolution | components/EditorTab.tsx:19-25 | the enharmonic map pairs each key with a different key that maps back to it |
| Editor.ReplaceFirstAt | components/EditorTab.tsx:42-46 | `replace` of one character acts at its first occurrence only |
| Editor.TryKeysSpec | components/EditorTab.tsx:40-47 | the spellings tried are the non-empty ones, the selected key first, its enharmonic twin among them |
| Editor.TryKeysSharp | components/EditorTab.tsx:40-47 | with C# selected the spellings tried are C#, Csharp, C#, Db, Db, Dflat |
| Editor.FirstListedSpec | components/EditorTab.tsx:49-54 | the first spelling that has chords in the library gives its list; empty exactly when none has any |
| Editor.AllChordsMembers | components/EditorTab.tsx:55-59 | a chord is in the whole-library list exactly when some key's list holds it |
| Editor.SelectedKeyShown | components/EditorTab.tsx:40-54 | a selected key with chords of its own shows exactly those |
| Editor.NoKeyShowsAll | components/EditorTab.tsx:55-59 | without a selected key the browser offers every chord of the library |
| Editor.IncludesSpec | components/EditorTab.tsx:63-66 | `includes` holds exactly when the term occurs at some position |
| Editor.SearchFilterSpec | components/EditorTab.tsx:61-67 | the search keeps exactly the chords whose `key+suffix` or `key+' '+suffix`, lower-cased, contains the lower-cased term, in order; an empty term keeps all; the filter splits over concatenation |
| Editor.DisplayedChords | components/EditorTab.tsx:36-70 | the list shown is the search applied to the selected key's chords, or to every chord when no key is selected |
| Summary.AppTotalMatchesTimeline | App.tsx:22-27 | with no negative repeat, the status bar's total equals the player timeline's total |
| Summary.NegativeRepeatDiverges | App.tsx:22-27 | with repeat -1 the status bar counts a section's beats negatively, while the player skips it |
| Summary.TotalSecondsCeil | App.tsx:29 | the whole seconds are the least integer at or above totalBeats·60/tempo, for either sign of tempo |
| Summary.TotalSecondsFormula | App.tsx:29 | for a positive tempo the seconds are (beats·60 + tempo - 1) div tempo |
| Summary.NatTextRoundTrip | App.tsx:87 | a number's decimal text is digits only, has no leading zero, and reads back as the number |
| Summary.FooterMinutesSeconds | App.tsx:87 | for a non-negative duration the footer is the minutes, a colon and two second digits, which add back up to the duration |
| Summary.EmptySongFooter | App.tsx:87 | an empty song shows 0:00 at any non-zero tempo |
| Summary.FooterExamples | App.tsx:29-87 | at 120 BPM, 100 beats show as 0:50 and 250 beats as 2:05 |
| ChordDiagram.DimensionsTable | components/ChordDiagram.tsx:11-16 | `sm` is 120×130, `md` (the default) 160×180, any other size 240×260, and every diagram is taller than wide |
| ChordDiagram.Markers | components/ChordDiagram.tsx:71-83 | one marker slot per string |
| ChordDiagram.MarkersSpec | components/ChordDiagram.tsx:71-83 | a cross exactly on muted strings and a circle exactly on open ones |
| ChordDiagram.DotOfSpec | components/ChordDiagram.tsx:110-125 | a string gets a dot exactly when fretted above 0 on rows 1..5, on that row, with a finger number only when the entry is truthy |
| ChordDiagram.DotsSpec | components/ChordDiagram.tsx:110-113 | the dots are exactly those of the strings that have one, in string order |
| ChordDiagram.StringsAtSpec | components/ChordDiagram.tsx:91 | exactly the strings at the fret, in increasing order |
| ChordDiagram.MinMaxSpec | components/ChordDiagram.tsx:93-94 | the minimum and maximum are members and bound every member |
| ChordDiagram.BarreSpec | components/ChordDiagram.tsx:86-94 | a barre is drawn exactly on rows 1..5 with two or more strings at its fret, spanning the lowest to the highest of them |
| ChordDiagram.BarresSpec | components/ChordDiagram.tsx:86-107 | the drawn barres are exactly the listed barres that pass the test |
| ChordDiagram.NutOrLabel | components/ChordDiagram.tsx:33-53 | nut and base-fret label never appear together; from base fret 1 up exactly one appears |
| ChordDiagram.OpenShapeExample | components/ChordDiagram.tsx:15-125 | an open A minor at base fret 1 shows the nut, no label, a cross, two circles, no barre |
| ChordViewing.FretValueSpec | app/src/main/java/tohoc/chord_o_matic/selection/ChordView.java:68-98 | fret characters decode into 0..24; 'x', '0' and 'p' read as 0, and every other decoding is its own fret's character |
| ChordViewing.ScanBounds | app/src/main/java/tohoc/chord_o_matic/selection/ChordView.java:102-132 | the bounds hold the barre and every fretted string's fret, and only those move them |
| ChordViewing.StringBarreSpec | app/src/main/java/tohoc/chord_o_matic/selection/ChordView.java:128-131 | `stringBarre` lists, in increasing order, exactly the fretted strings whose fret is the barre |
| ChordViewing.ScanCallsMarks | app/src/main/java/tohoc/chord_o_matic/selection/ChordView.java:102-132 | the first loop draws only the muted and open marks |
| ChordViewing.PlacementSpec | app/src/main/java/tohoc/chord_o_matic/selection/ChordView.java:133-146 | every fretted string gets one dot, at its fret shifted when the chord is high, in string order, and nothing else does |
| ChordViewing.LayoutNutOrLabel | app/src/main/java/tohoc/chord_o_matic/selection/ChordView.java:147-161 | the nut is drawn exactly when no fret exceeds 4; otherwise the lowest fret is written instead |
| ChordViewing.LayoutShifted | app/src/main/java/tohoc/chord_o_matic/selection/ChordView.java:140-145 | when the chord is shifted, every dot lands on row 1 or below |
| ChordViewing.LayoutBarre | app/src/main/java/tohoc/chord_o_matic/selection/ChordView.java:162-165 | a barre line is drawn exactly for two or more strings on the barre, from the first to the last, shifted like the dots |
| ChordViewing.ChordView.constructor | app/src/main/java/tohoc/chord_o_matic/selection/ChordView.java:283-284 | the view starts with barre 2 and the shape x32010 |
| ChordViewing.ChordView.SetChord | app/src/main/java/tohoc/chord_o_matic/selection/ChordView.java:56-61 | the view keeps the caller's array itself, not a copy |
| ChordViewing.ChordView.DrawChordOnFretboard | app/src/main/java/tohoc/chord_o_matic/selection/ChordView.java:100-166 | the drawing calls are exactly the layout of the first six strings |
| ChordViewing.InitialShapeLayout | app/src/main/java/tohoc/chord_o_matic/selection/ChordView.java:100-166 | the initial shape draws open and muted marks, three dots at their own frets, the nut and no barre line |
| ChordViewing.HighShapeLayout | app/src/main/java/tohoc/chord_o_matic/selection/ChordView.java:100-166 | a chord above fret 4 has its dots shifted to rows 1..3, the label 8 and a barre over strings 1 to 6 |
| SongChords.Equals | app/src/main/java/tohoc/chord_o_matic/selection/SongChord.java:18-23 | `equals` holds exactly against a song chord with the same key and suffix |
| SongChords.EqualsIsEquivalence | app/src/main/java/tohoc/chord_o_matic/selection/SongChord.java:18-23 | `equals` is reflexive, symmetric and transitive, and false against null and other classes |
| SongChords.Int32 | app/src/main/java/tohoc/chord_o_matic/selection/SongChord.java:27-29 | Java `int` wrap-around: the value in the 32-bit range congruent modulo 2^32 |
| SongChords.EqualsSameHash | app/src/main/java/tohoc/chord_o_matic/selection/SongChord.java:18-29 | equal song chords have equal hash codes |
| SongChords.HashOfConcatenation | app/src/main/java/tohoc/chord_o_matic/selection/SongChord.java:27-29 | the hash depends only on key and suffix joined together |
| SongChords.HashCollision | app/src/main/java/tohoc/chord_o_matic/selection/SongChord.java:18-29 | key "A" with suffix "b" and key "Ab" with no suffix differ but hash alike |
| SongChords.HashExample | app/src/main/java/tohoc/chord_o_matic/selection/SongChord.java:27-29 | A minor hashes to 2155 |
| SongChords.AddIfAbsentSpec | app/src/main/java/tohoc/chord_o_matic/selection/ChordSelector.java:131-139 | after the click the chord is present, nothing else is new, the list grows only when it was absent, and stays free of duplicates |
| SongChords.RemoveAtSpec | app/src/main/java/tohoc/chord_o_matic/selection/ChordSelector.java:142-146 | removing by position from a duplicate-free list drops exactly that chord and keeps it duplicate-free |
| SongChords.SongChordAdapter.constructor | app/src/main/java/tohoc/chord_o_matic/selection/SongChordAdapter.java:57-61 | the adapter holds the caller's list itself |
| SongChords.SongChordAdapter.HasSongChord | app/src/main/java/tohoc/chord_o_matic/selection/SongChordAdapter.java:22-25 | `contains` by `equals` holds exactly when the chord is in the list |
| SongChords.SongChordAdapter.AddSongChord | app/src/main/java/tohoc/chord_o_matic/selection/SongChordAdapter.java:27-32 | the chord goes in at position 0 and the count grows by one |
| SongChords.SongChordAdapter.RemoveSongChord | app/src/main/java/tohoc/chord_o_matic/selection/SongChordAdapter.java:34-39 | the chord at the position goes, the later ones move left, the count drops by one |
| SongChords.AdapterSharesList | app/src/main/java/tohoc/chord_o_matic/selection/ChordSelector.java:113-116 | a chord added through the adapter is seen in the selector's own list |
| SongChords.CollectionsWellFormed | app/src/main/java/tohoc/chord_o_matic/selection/ChordSelector.java:67-82 | twelve distinct keys; fifteen chords with distinct suffixes, each giving a fret for all six strings |
| SongChords.ChordSelector.constructor | app/src/main/java/tohoc/chord_o_matic/selection/ChordSelector.java:50-65 | twelve keys with the first selected, no chords shown, an empty song list shared with its adapter |
| SongChords.ChordSelector.OnChordClick | app/src/main/java/tohoc/chord_o_matic/selection/ChordSelector.java:131-139 | the clicked chord of the selected key goes in front only when absent, and only then is the user notified |
| SongChords.ChordSelector.OnSongChordClick | app/src/main/java/tohoc/chord_o_matic/selection/ChordSelector.java:142-146 | removes the song chord at the position and notifies |
| SongChords.ChordSelector.OnKeyClick | app/src/main/java/tohoc/chord_o_matic/selection/ChordSelector.java:149-157 | selects the key and shows exactly the fifteen chords, whatever was shown before |
| SongChords.ChordSelector.LoadChordCollection | app/src/main/java/tohoc/chord_o_matic/selection/ChordSelector.java:159-177 | appends the fifteen chords in order |
| SongChords.ChordSelector.ClearChordCollection | app/src/main/java/tohoc/chord_o_matic/selection/ChordSelector.java:179-183 | empties the chord list |
| SongChords.KeyClickIdempotent | app/src/main/java/tohoc/chord_o_matic/selection/ChordSelector.java:149-157 | clicking a key twice shows the same chords and selection as clicking it once |

## Left out

- Sound output is not modelled. The player records the clicks and strums it would play in a ghost log (`sounds`). The audio engine, its volumes and the mixer are not part of this model.
- The clock (`performance.now`) is a parameter `now`. Animation-frame scheduling is reduced to a flag (`framePending`) saying whether a next frame is requested; the deferred `setTimeout` that starts playback is not modelled, and the model acts at the moment it fires.
- Floating-point arithmetic is not modelled. The player computes with `real`, and with integer beats, tempos and durations.
- Durations are whole beats, and a repeat is a whole number.
- React rendering, the PDF export (`PdfExporter.ts`), file downloads and the generation of random ids are not modelled. New ids are parameters.
- `toLowerCase` is modelled on ASCII letters only.
- The chord library's `Record` is an association list with its keys assumed distinct. Prototype keys of JavaScript objects are not modelled.
- `String.hashCode` is modelled over Dafny characters. A character outside the Basic Multilingual Plane counts once, where Java counts two UTF-16 units.
- Null keys and suffixes of a song chord are not modelled. The `this == o` shortcut of `equals` gives the same answer as field equality, so it is folded into it.
- Key objects are reduced to their names.
- The RecyclerView notifications are counted (`notifications`) but not drawn. Canvas painting, `onLayout` and the view holders are not modelled.
- The chord adapter and key adapter, `Chord.java`, `Key.java`, `SongPlayer.java`, `SectionsPagerAdapter.java` and `SongComposer.java` are not part of this model.
- MidiWriting.MidiWriter.WriteString: text lengths and character codes count Dafny characters, where JavaScript's `length` and `charCodeAt` count UTF-16 code units. A title or section name with a character outside the Basic Multilingual Plane gets a shorter length and different codes than the exporter writes; this holds for `MidiExport.ExportSongToMidi`, `MidiExport.TextMeta` and `MidiWriting.CharCodes` too.
- MidiExport.ExportSongToMidi: requires every duration and text length to fit the 2^28 range of the variable-length encoder. A negative duration makes the exporter's loop run forever, and longer values overflow the 32-bit buffer. Where the exporter throws, the model returns `None`.
- MidiWriting.MidiWriter.WriteVarInt: requires 0 <= value < 2^28. Beyond that the 32-bit buffer of the source overflows, and that overflow is not modelled.
- Transport.Player.constructor: requires a positive tempo and positive event durations. With a zero or negative duration the `findIndex` search can miss every instance, and the model does not follow that path.
- ChordViewing.ChordView.DrawChordOnFretboard: requires at least six frets. With fewer, the Java array access throws, and the model does not follow that path.
- SongChords.ChordSelector.OnChordClick: requires a valid position and a valid selected key. Otherwise Java throws `IndexOutOfBoundsException`.
- SongChords.ChordSelector.OnSongChordClick: requires a valid position. Otherwise Java throws `IndexOutOfBoundsException`.
- SongChords.SongChordAdapter.RemoveSongChord: requires a valid position. Otherwise Java throws `IndexOutOfBoundsException`.
