/**
 * The song editor: immutable edits of the song (sections and their events)
 * together with the id of the active section, and the chord browser's
 * list of chords to display (key lookup through enharmonic spellings,
 * then the search filter).
 *
 * Fresh ids (the original draws them at random) are parameters.
 */
module Editor {
  import opened SongTypes
  import opened Timeline
  import opened Arithmetic

  // ---------------------------------------------------------------- sequences

  /** `xs.filter(keep)`: the kept elements, in their order. */
  function Filter<T>(xs: seq<T>, keep: T -> bool): seq<T>
  {
    if |xs| == 0 then []
    else Filter(xs[..|xs| - 1], keep) + (if keep(xs[|xs| - 1]) then [xs[|xs| - 1]] else [])
  }

  lemma {:induction false} FilterMembers<T>(xs: seq<T>, keep: T -> bool)
    ensures forall x :: x in Filter(xs, keep) <==> x in xs && keep(x)
    ensures |Filter(xs, keep)| <= |xs|
  {
    if |xs| > 0 {
      FilterMembers(xs[..|xs| - 1], keep);
      assert xs == xs[..|xs| - 1] + [xs[|xs| - 1]];
    }
  }

  /** Filtering distributes over concatenation, so it keeps the relative order of what it keeps. */
  lemma {:induction false} FilterAppend<T>(a: seq<T>, b: seq<T>, keep: T -> bool)
    ensures Filter(a + b, keep) == Filter(a, keep) + Filter(b, keep)
    decreases |b|
  {
    if |b| == 0 {
      assert a + b == a;
    } else {
      assert (a + b)[..|a + b| - 1] == a + b[..|b| - 1];
      FilterAppend(a, b[..|b| - 1], keep);
    }
  }

  lemma FilterSingle<T>(xs: seq<T>, keep: T -> bool)
    requires |xs| == 1
    ensures Filter(xs, keep) == if keep(xs[0]) then xs else []
  {
    assert xs[..0] == [];
    assert xs == [xs[0]];
  }

  lemma {:induction false} FilterKeepsAll<T>(xs: seq<T>, keep: T -> bool)
    requires forall x :: x in xs ==> keep(x)
    ensures Filter(xs, keep) == xs
  {
    if |xs| > 0 {
      assert forall x :: x in xs[..|xs| - 1] ==> x in xs;
      FilterKeepsAll(xs[..|xs| - 1], keep);
    }
  }

  /** `sections.map(s => s.id === id ? f(s) : s)` */
  function MapWhere(sections: seq<SongSection>, id: string, f: SongSection -> SongSection): seq<SongSection>
  {
    seq(|sections|, i requires 0 <= i < |sections| => if sections[i].id == id then f(sections[i]) else sections[i])
  }

  // ---------------------------------------------------------------- editor state

  datatype EditorState = EditorState(song: Song, activeSectionId: string)

  /** `song.sections[0]?.id || ''` */
  function InitialState(song: Song): (st: EditorState)
    ensures st.song == song
    ensures st.activeSectionId == if |song.sections| > 0 then song.sections[0].id else ""
    ensures ActiveValid(st)
  {
    if |song.sections| > 0 then
      assert SectionIds(song.sections)[0] == song.sections[0].id;
      EditorState(song, song.sections[0].id)
    else EditorState(song, "")
  }

  function SectionIds(sections: seq<SongSection>): seq<string>
  {
    seq(|sections|, i requires 0 <= i < |sections| => sections[i].id)
  }

  /** The active id is empty (no section selected) or names a section of the song. */
  predicate ActiveValid(st: EditorState)
  {
    st.activeSectionId == "" || st.activeSectionId in SectionIds(st.song.sections)
  }

  /** Title, tempo and time signature are the same. */
  predicate SameHeader(a: Song, b: Song)
  {
    a.title == b.title && a.tempo == b.tempo && a.timeSignature == b.timeSignature
  }

  const NEW_EVENT_DURATION: int := 4

  /** Appends a 4-beat event to the active section; with no active section nothing changes. */
  function AddToSection(st: EditorState, newId: string, chord: Option<ChordDefinition>, positionIndex: int): EditorState
  {
    if st.activeSectionId == "" then st
    else
      var ev := SongEvent(newId, chord, positionIndex, NEW_EVENT_DURATION);
      st.(song := st.song.(sections := MapWhere(st.song.sections, st.activeSectionId, (s: SongSection) => WithEvent(s, ev))))
  }

  /** Appends an empty 'Verse' section played once and makes it active. */
  function AddNewSection(st: EditorState, newId: string): EditorState
  {
    EditorState(st.song.(sections := st.song.sections + [SongSection(newId, "Verse", [], Some(1))]), newId)
  }

  /** The first section whose id differs from `id`, as `find(...)?.id || ''`. */
  function FirstOtherId(sections: seq<SongSection>, id: string): string
  {
    if |sections| == 0 then ""
    else if sections[0].id != id then sections[0].id
    else FirstOtherId(sections[1..], id)
  }

  /** `sections.filter(s => s.id !== id)` */
  function KeptSections(sections: seq<SongSection>, id: string): seq<SongSection>
  {
    Filter(sections, (s: SongSection) => s.id != id)
  }

  /**
   * The kept sections are determined section by section: the filter splits
   * over concatenation, keeps a single section exactly when its id differs,
   * and keeps nothing of nothing. So the kept sections keep their order and
   * their copies.
   */
  lemma KeptSectionsSpec(id: string)
    ensures KeptSections([], id) == []
    ensures forall xs: seq<SongSection> :: |xs| == 1 ==> KeptSections(xs, id) == if xs[0].id != id then xs else []
    ensures forall a, b :: KeptSections(a + b, id) == KeptSections(a, id) + KeptSections(b, id)
  {
    var keep := (s: SongSection) => s.id != id;
    forall xs: seq<SongSection> | |xs| == 1
      ensures KeptSections(xs, id) == if xs[0].id != id then xs else []
    {
      FilterSingle(xs, keep);
    }
    forall a, b ensures KeptSections(a + b, id) == KeptSections(a, id) + KeptSections(b, id) {
      FilterAppend(a, b, keep);
    }
  }

  /** Drops every section with that id; if it was active, the first other section becomes active. */
  function RemoveSection(st: EditorState, id: string): EditorState
  {
    var kept := KeptSections(st.song.sections, id);
    var active := if st.activeSectionId == id then FirstOtherId(st.song.sections, id) else st.activeSectionId;
    EditorState(st.song.(sections := kept), active)
  }

  function UpdateSectionName(st: EditorState, id: string, name: string): EditorState
  {
    st.(song := st.song.(sections := MapWhere(st.song.sections, id, (s: SongSection) => s.(name := name))))
  }

  /** `Math.max(1, Math.min(99, repeat))` */
  function ClampRepeat(repeat: int): (r: int)
    ensures 1 <= r <= 99
    ensures 1 <= repeat <= 99 ==> r == repeat
    ensures repeat < 1 ==> r == 1
    ensures repeat > 99 ==> r == 99
  {
    if repeat < 1 then 1 else if repeat > 99 then 99 else repeat
  }

  function UpdateSectionRepeat(st: EditorState, id: string, repeat: int): EditorState
  {
    var r := ClampRepeat(repeat);
    st.(song := st.song.(sections := MapWhere(st.song.sections, id, (s: SongSection) => s.(repeat := Some(r)))))
  }

  /** `events.filter(e => e.id !== eventId)` */
  function KeptEvents(events: seq<SongEvent>, eventId: string): seq<SongEvent>
  {
    Filter(events, (e: SongEvent) => e.id != eventId)
  }

  /**
   * The kept events are determined event by event: the filter splits over
   * concatenation, keeps a single event exactly when its id differs, and keeps
   * nothing of nothing; so the kept events keep their order and their copies.
   */
  lemma KeptEventsSpec(eventId: string)
    ensures KeptEvents([], eventId) == []
    ensures forall xs: seq<SongEvent> :: |xs| == 1 ==> KeptEvents(xs, eventId) == if xs[0].id != eventId then xs else []
    ensures forall a, b :: KeptEvents(a + b, eventId) == KeptEvents(a, eventId) + KeptEvents(b, eventId)
  {
    var keep := (e: SongEvent) => e.id != eventId;
    forall xs: seq<SongEvent> | |xs| == 1
      ensures KeptEvents(xs, eventId) == if xs[0].id != eventId then xs else []
    {
      FilterSingle(xs, keep);
    }
    forall a, b ensures KeptEvents(a + b, eventId) == KeptEvents(a, eventId) + KeptEvents(b, eventId) {
      FilterAppend(a, b, keep);
    }
  }

  function WithoutEvent(s: SongSection, eventId: string): SongSection
  {
    s.(events := KeptEvents(s.events, eventId))
  }

  function RemoveChordFromSection(st: EditorState, sectionId: string, eventId: string): EditorState
  {
    st.(song := st.song.(sections := MapWhere(st.song.sections, sectionId, (s: SongSection) => WithoutEvent(s, eventId))))
  }

  function SetDuration(events: seq<SongEvent>, eventId: string, duration: int): seq<SongEvent>
  {
    seq(|events|, j requires 0 <= j < |events| => if events[j].id == eventId then events[j].(duration := duration) else events[j])
  }

  function UpdateChordDuration(st: EditorState, sectionId: string, eventId: string, duration: int): EditorState
  {
    st.(song := st.song.(sections := MapWhere(st.song.sections, sectionId, (s: SongSection) => s.(events := SetDuration(s.events, eventId, duration)))))
  }

  // ---------------------------------------------------------------- properties of the edits

  lemma MapWhereIds(sections: seq<SongSection>, id: string, f: SongSection -> SongSection)
    requires forall s :: f(s).id == s.id
    ensures SectionIds(MapWhere(sections, id, f)) == SectionIds(sections)
  {
  }

  /**
   * Adding to the active section appends the new event to exactly the
   * sections with the active id; everything else is unchanged.
   */
  lemma AddToSectionEffect(st: EditorState, newId: string, chord: Option<ChordDefinition>, positionIndex: int)
    ensures var r := AddToSection(st, newId, chord, positionIndex);
            && (st.activeSectionId == "" ==> r == st)
            && SameHeader(r.song, st.song) && r.activeSectionId == st.activeSectionId
            && |r.song.sections| == |st.song.sections|
            && forall i :: 0 <= i < |st.song.sections| ==>
                 var (old_, new_) := (st.song.sections[i], r.song.sections[i]);
                 && new_.id == old_.id && new_.name == old_.name && new_.repeat == old_.repeat
                 && new_.events == (if st.activeSectionId != "" && old_.id == st.activeSectionId
                                    then old_.events + [SongEvent(newId, chord, positionIndex, 4)] else old_.events)
    ensures ActiveValid(st) ==> ActiveValid(AddToSection(st, newId, chord, positionIndex))
  {
    if st.activeSectionId != "" {
      var ev := SongEvent(newId, chord, positionIndex, NEW_EVENT_DURATION);
      MapWhereIds(st.song.sections, st.activeSectionId, (s: SongSection) => WithEvent(s, ev));
    }
  }

  /** How many passes the sections with this id contribute to the timeline. */
  function PassesWithId(sections: seq<SongSection>, id: string): nat
  {
    if |sections| == 0 then 0
    else
      var last := sections[|sections| - 1];
      PassesWithId(sections[..|sections| - 1], id) + (if last.id == id then RepeatCount(last.repeat) else 0)
  }

  /** Every pass of the active section gets four more beats, so the timeline grows by 4 beats per pass. */
  lemma {:induction false} AddToSectionBeats(st: EditorState, newId: string, chord: Option<ChordDefinition>, positionIndex: int)
    requires st.activeSectionId != ""
    ensures SectionsBeats(AddToSection(st, newId, chord, positionIndex).song.sections)
         == SectionsBeats(st.song.sections) + 4 * PassesWithId(st.song.sections, st.activeSectionId)
    ensures InstanceCount(AddToSection(st, newId, chord, positionIndex).song.sections)
         == InstanceCount(st.song.sections) + PassesWithId(st.song.sections, st.activeSectionId)
  {
    var ev := SongEvent(newId, chord, positionIndex, NEW_EVENT_DURATION);
    AppendBeats(st.song.sections, st.activeSectionId, ev);
    AppendCount(st.song.sections, st.activeSectionId, ev);
  }

  function WithEvent(s: SongSection, ev: SongEvent): SongSection
  {
    s.(events := s.events + [ev])
  }

  lemma PassBeatsSnoc(events: seq<SongEvent>, ev: SongEvent)
    ensures PassBeats(events + [ev]) == PassBeats(events) + ev.duration
  {
    assert (events + [ev])[..|events|] == events;
  }

  lemma {:induction false} AppendBeats(sections: seq<SongSection>, id: string, ev: SongEvent)
    ensures SectionsBeats(MapWhere(sections, id, (s: SongSection) => WithEvent(s, ev)))
         == SectionsBeats(sections) + ev.duration * PassesWithId(sections, id)
  {
    if |sections| > 0 {
      var n := |sections| - 1;
      var f := (s: SongSection) => WithEvent(s, ev);
      var r := MapWhere(sections, id, f);
      AppendBeats(sections[..n], id, ev);
      MapWherePrefix(sections, id, f, n);
      var last := sections[n];
      var k := RepeatCount(last.repeat);
      var added := if last.id == id then k else 0;
      assert SectionsBeats(r) == SectionsBeats(r[..n]) + PassBeats(r[n].events) * k;
      assert SectionsBeats(sections) == SectionsBeats(sections[..n]) + PassBeats(last.events) * k;
      assert PassesWithId(sections, id) == PassesWithId(sections[..n], id) + added;
      MulAdd(ev.duration, PassesWithId(sections[..n], id), added);
      if last.id == id {
        PassBeatsSnoc(last.events, ev);
        assert r[n].events == last.events + [ev];
        MulAdd(k, PassBeats(last.events), ev.duration);
      } else {
        assert r[n] == last;
      }
    }
  }

  lemma MapWherePrefix(sections: seq<SongSection>, id: string, f: SongSection -> SongSection, n: nat)
    requires n <= |sections|
    ensures MapWhere(sections, id, f)[..n] == MapWhere(sections[..n], id, f)
  {
  }

  lemma {:induction false} AppendCount(sections: seq<SongSection>, id: string, ev: SongEvent)
    ensures InstanceCount(MapWhere(sections, id, (s: SongSection) => WithEvent(s, ev)))
         == InstanceCount(sections) + PassesWithId(sections, id)
  {
    if |sections| > 0 {
      var n := |sections| - 1;
      var f := (s: SongSection) => WithEvent(s, ev);
      var r := MapWhere(sections, id, f);
      AppendCount(sections[..n], id, ev);
      MapWherePrefix(sections, id, f, n);
      var last := sections[n];
      var k := RepeatCount(last.repeat);
      if last.id == id {
        assert |r[n].events| == |last.events| + 1;
        MulAdd(k, |last.events|, 1);
      } else {
        assert r[n] == last;
      }
    }
  }

  /** Removing the event just added (with an id unused in the active section) gives the song back. */
  lemma AddThenRemove(st: EditorState, newId: string, chord: Option<ChordDefinition>, positionIndex: int)
    requires forall s, e :: s in st.song.sections && s.id == st.activeSectionId && e in s.events ==> e.id != newId
    ensures RemoveChordFromSection(AddToSection(st, newId, chord, positionIndex), st.activeSectionId, newId) == st
  {
    var ev := SongEvent(newId, chord, positionIndex, NEW_EVENT_DURATION);
    var keep := (e: SongEvent) => e.id != newId;
    var r := RemoveChordFromSection(AddToSection(st, newId, chord, positionIndex), st.activeSectionId, newId);
    forall i | 0 <= i < |st.song.sections|
      ensures r.song.sections[i] == st.song.sections[i]
    {
      var s := st.song.sections[i];
      if s.id == st.activeSectionId {
        FilterKeepsAll(s.events, keep);
        if st.activeSectionId != "" {
          FilterAppend(s.events, [ev], keep);
          assert [ev][..0] == [];
        }
      }
    }
  }

  /** The new section comes last, is empty, named 'Verse', played once, and active. */
  lemma AddNewSectionEffect(st: EditorState, newId: string)
    ensures var r := AddNewSection(st, newId);
            && SameHeader(r.song, st.song)
            && r.song.sections == st.song.sections + [SongSection(newId, "Verse", [], Some(1))]
            && r.activeSectionId == newId
            && ActiveValid(r)
            && SectionsBeats(r.song.sections) == SectionsBeats(st.song.sections)
  {
    var r := AddNewSection(st, newId);
    assert SectionIds(r.song.sections)[|st.song.sections|] == newId;
    assert r.song.sections[..|st.song.sections|] == st.song.sections;
  }

  /** Removing the section just added (with a fresh id) gives the song back. */
  lemma AddNewThenRemove(st: EditorState, newId: string)
    requires newId !in SectionIds(st.song.sections)
    ensures RemoveSection(AddNewSection(st, newId), newId).song == st.song
  {
    var keep := (s: SongSection) => s.id != newId;
    forall s | s in st.song.sections ensures keep(s) {
      var i :| 0 <= i < |st.song.sections| && st.song.sections[i] == s;
      assert SectionIds(st.song.sections)[i] == s.id;
    }
    FilterKeepsAll(st.song.sections, keep);
    var added := [SongSection(newId, "Verse", [], Some(1))];
    FilterAppend(st.song.sections, added, keep);
    assert added[..0] == [];
  }

  /** `find`: the id of the first section with another id, or empty when every section has this id. */
  lemma {:induction false} FirstOtherIdSpec(sections: seq<SongSection>, id: string)
    ensures var r := FirstOtherId(sections, id);
            && (r == "" || (r in SectionIds(sections) && r != id))
            && ((forall i :: 0 <= i < |sections| ==> sections[i].id == id) ==> r == "")
            && forall j :: 0 <= j < |sections| && sections[j].id != id && (forall i :: 0 <= i < j ==> sections[i].id == id)
                 ==> r == sections[j].id
  {
    if |sections| > 0 && sections[0].id == id {
      var tail := sections[1..];
      FirstOtherIdSpec(tail, id);
      var r := FirstOtherId(sections, id);
      if r != "" {
        var j :| 0 <= j < |tail| && SectionIds(tail)[j] == r;
        assert SectionIds(sections)[j + 1] == r;
      }
      forall j | 0 <= j < |sections| && sections[j].id != id && (forall i :: 0 <= i < j ==> sections[i].id == id)
        ensures r == sections[j].id
      {
        assert tail[j - 1] == sections[j];
        forall i | 0 <= i < j - 1 ensures tail[i].id == id {
          assert tail[i] == sections[i + 1];
        }
      }
      if forall i :: 0 <= i < |sections| ==> sections[i].id == id {
        forall i | 0 <= i < |tail| ensures tail[i].id == id {
          assert tail[i] == sections[i + 1];
        }
      }
    } else if |sections| > 0 {
      assert SectionIds(sections)[0] == sections[0].id;
    }
  }

  /**
   * Removing a section keeps exactly the sections with other ids, in order;
   * the active id stays valid, moving to the first other section when the
   * active one was removed.
   */
  lemma RemoveSectionEffect(st: EditorState, id: string)
    ensures var r := RemoveSection(st, id);
            && SameHeader(r.song, st.song)
            && r.song.sections == KeptSections(st.song.sections, id)
            && (forall s :: s in r.song.sections <==> s in st.song.sections && s.id != id)
            && |r.song.sections| <= |st.song.sections|
            && (st.activeSectionId != id ==> r.activeSectionId == st.activeSectionId)
            && (st.activeSectionId == id ==> r.activeSectionId == FirstOtherId(st.song.sections, id))
    ensures ActiveValid(st) ==> ActiveValid(RemoveSection(st, id))
  {
    var keep := (s: SongSection) => s.id != id;
    FilterMembers(st.song.sections, keep);
    var r := RemoveSection(st, id);
    if ActiveValid(st) && r.activeSectionId != "" {
      var a := r.activeSectionId;
      if st.activeSectionId == id {
        FirstOtherIdSpec(st.song.sections, id);
      }
      var j :| 0 <= j < |st.song.sections| && SectionIds(st.song.sections)[j] == a;
      var s := st.song.sections[j];
      assert s in r.song.sections;
      var k :| 0 <= k < |r.song.sections| && r.song.sections[k] == s;
      assert SectionIds(r.song.sections)[k] == a;
    }
  }

  lemma UpdateSectionNameEffect(st: EditorState, id: string, name: string)
    ensures var r := UpdateSectionName(st, id, name);
            && SameHeader(r.song, st.song) && r.activeSectionId == st.activeSectionId
            && |r.song.sections| == |st.song.sections|
            && (forall i :: 0 <= i < |st.song.sections| ==>
                 r.song.sections[i] == if st.song.sections[i].id == id then st.song.sections[i].(name := name) else st.song.sections[i])
            && SectionIds(r.song.sections) == SectionIds(st.song.sections)
            && SectionsBeats(r.song.sections) == SectionsBeats(st.song.sections)
            && InstanceCount(r.song.sections) == InstanceCount(st.song.sections)
    ensures ActiveValid(st) ==> ActiveValid(UpdateSectionName(st, id, name))
  {
    SameShape(st.song.sections, id, (s: SongSection) => s.(name := name));
  }

  /** An edit that keeps ids, events and repeats keeps the timeline's length and beats. */
  lemma {:induction false} SameShape(sections: seq<SongSection>, id: string, f: SongSection -> SongSection)
    requires forall s :: f(s).id == s.id && f(s).events == s.events && f(s).repeat == s.repeat
    ensures SectionIds(MapWhere(sections, id, f)) == SectionIds(sections)
    ensures SectionsBeats(MapWhere(sections, id, f)) == SectionsBeats(sections)
    ensures InstanceCount(MapWhere(sections, id, f)) == InstanceCount(sections)
  {
    if |sections| > 0 {
      var n := |sections| - 1;
      SameShape(sections[..n], id, f);
      assert MapWhere(sections, id, f)[..n] == MapWhere(sections[..n], id, f);
    }
  }

  /** The targeted sections get the clamped repeat, which is exactly their number of passes. */
  lemma UpdateSectionRepeatEffect(st: EditorState, id: string, repeat: int)
    ensures var r := UpdateSectionRepeat(st, id, repeat);
            && SameHeader(r.song, st.song) && r.activeSectionId == st.activeSectionId
            && |r.song.sections| == |st.song.sections|
            && (forall i :: 0 <= i < |st.song.sections| ==>
                 if st.song.sections[i].id == id then
                   r.song.sections[i] == st.song.sections[i].(repeat := Some(ClampRepeat(repeat)))
                   && 1 <= RepeatCount(r.song.sections[i].repeat) <= 99
                   && RepeatCount(r.song.sections[i].repeat) == ClampRepeat(repeat)
                 else r.song.sections[i] == st.song.sections[i])
            && SectionIds(r.song.sections) == SectionIds(st.song.sections)
    ensures UpdateSectionRepeat(UpdateSectionRepeat(st, id, repeat), id, repeat) == UpdateSectionRepeat(st, id, repeat)
  {
    var once := UpdateSectionRepeat(st, id, repeat);
    var twice := UpdateSectionRepeat(once, id, repeat);
    assert twice.song.sections == once.song.sections;
  }

  /** Only the targeted sections lose the event (every copy of its id); nothing else changes. */
  lemma RemoveChordEffect(st: EditorState, sectionId: string, eventId: string)
    ensures var r := RemoveChordFromSection(st, sectionId, eventId);
            && SameHeader(r.song, st.song) && r.activeSectionId == st.activeSectionId
            && |r.song.sections| == |st.song.sections|
            && SectionIds(r.song.sections) == SectionIds(st.song.sections)
            && forall i :: 0 <= i < |st.song.sections| ==>
                 var (old_, new_) := (st.song.sections[i], r.song.sections[i]);
                 && new_.name == old_.name && new_.repeat == old_.repeat
                 && if old_.id == sectionId then
                      && new_.events == KeptEvents(old_.events, eventId)
                      && forall e :: e in new_.events <==> e in old_.events && e.id != eventId
                    else new_.events == old_.events
  {
    MapWhereIds(st.song.sections, sectionId, (s: SongSection) => WithoutEvent(s, eventId));
    forall i | 0 <= i < |st.song.sections| && st.song.sections[i].id == sectionId {
      FilterMembers(st.song.sections[i].events, (e: SongEvent) => e.id != eventId);
    }
  }

  function EventIds(events: seq<SongEvent>): seq<string>
  {
    seq(|events|, j requires 0 <= j < |events| => events[j].id)
  }

  /** The targeted events get the new duration; ids, order and the number of timeline instances stay. */
  lemma UpdateChordDurationEffect(st: EditorState, sectionId: string, eventId: string, duration: int)
    ensures var r := UpdateChordDuration(st, sectionId, eventId, duration);
            && SameHeader(r.song, st.song) && r.activeSectionId == st.activeSectionId
            && |r.song.sections| == |st.song.sections|
            && SectionIds(r.song.sections) == SectionIds(st.song.sections)
            && InstanceCount(r.song.sections) == InstanceCount(st.song.sections)
            && forall i :: 0 <= i < |st.song.sections| ==>
                 var (old_, new_) := (st.song.sections[i], r.song.sections[i]);
                 && new_.name == old_.name && new_.repeat == old_.repeat
                 && EventIds(new_.events) == EventIds(old_.events)
                 && forall j :: 0 <= j < |old_.events| ==>
                      new_.events[j] == if old_.id == sectionId && old_.events[j].id == eventId
                                        then old_.events[j].(duration := duration) else old_.events[j]
  {
    DurationKeepsCount(st.song.sections, sectionId, eventId, duration);
  }

  lemma {:induction false} DurationKeepsCount(sections: seq<SongSection>, sectionId: string, eventId: string, duration: int)
    ensures InstanceCount(MapWhere(sections, sectionId, (s: SongSection) => s.(events := SetDuration(s.events, eventId, duration))))
         == InstanceCount(sections)
  {
    if |sections| > 0 {
      var n := |sections| - 1;
      var f := (s: SongSection) => s.(events := SetDuration(s.events, eventId, duration));
      DurationKeepsCount(sections[..n], sectionId, eventId, duration);
      assert MapWhere(sections, sectionId, f)[..n] == MapWhere(sections[..n], sectionId, f);
    }
  }

  // ---------------------------------------------------------------- the chord browser

  /** The chord library: its keys and suffixes, and the chord lists by key in the object's key order. */
  datatype ChordLibrary = ChordLibrary(keys: seq<string>, suffixes: seq<string>, chords: seq<(string, seq<ChordDefinition>)>)

  /** `chords[k]`: the list stored under k, or None (undefined). */
  function Lookup(chords: seq<(string, seq<ChordDefinition>)>, k: string): Option<seq<ChordDefinition>>
  {
    if |chords| == 0 then None
    else if chords[0].0 == k then Some(chords[0].1)
    else Lookup(chords[1..], k)
  }

  /** The spellings some chord databases use instead: each sharp key and its flat twin. */
  const ENHARMONIC_MAP: map<string, string> := map[
    "C#" := "Db", "Db" := "C#",
    "D#" := "Eb", "Eb" := "D#",
    "F#" := "Gb", "Gb" := "F#",
    "G#" := "Ab", "Ab" := "G#",
    "A#" := "Bb", "Bb" := "A#"]

  /** Mapping a key twice gives it back, and the ten keys come in five pairs. */
  lemma EnharmonicInvolution()
    ensures forall k :: k in ENHARMONIC_MAP ==> ENHARMONIC_MAP[k] in ENHARMONIC_MAP && ENHARMONIC_MAP[ENHARMONIC_MAP[k]] == k
    ensures forall k :: k in ENHARMONIC_MAP ==> ENHARMONIC_MAP[k] != k
  {
    forall k | k in ENHARMONIC_MAP
      ensures ENHARMONIC_MAP[k] in ENHARMONIC_MAP && ENHARMONIC_MAP[ENHARMONIC_MAP[k]] == k && ENHARMONIC_MAP[k] != k
    {
      assert k in ENHARMONIC_MAP.Keys;
    }
  }

  /** `s.replace(c, rep)` with a one-character pattern: only the first occurrence is replaced. */
  function ReplaceFirst(s: string, c: char, rep: string): string
  {
    if |s| == 0 then s
    else if s[0] == c then rep + s[1..]
    else [s[0]] + ReplaceFirst(s[1..], c, rep)
  }

  lemma {:induction false} ReplaceFirstAbsent(s: string, c: char, rep: string)
    requires c !in s
    ensures ReplaceFirst(s, c, rep) == s
  {
    if |s| > 0 {
      ReplaceFirstAbsent(s[1..], c, rep);
    }
  }

  /** The replacement happens at the first occurrence, and only there. */
  lemma {:induction false} ReplaceFirstAt(s: string, c: char, rep: string, i: nat)
    requires i < |s| && s[i] == c && c !in s[..i]
    ensures ReplaceFirst(s, c, rep) == s[..i] + rep + s[i + 1..]
  {
    if i > 0 {
      assert s[0] in s[..i];
      assert s[1..][..i - 1] == s[1..i];
      ReplaceFirstAt(s[1..], c, rep, i - 1);
      assert s[1..][i..] == s[i + 1..];
    }
  }

  /** The key, its sharp/flat words, then its enharmonic twin and the twin's words. */
  function Spellings(k: string): seq<string>
  {
    var own := [k, ReplaceFirst(k, '#', "sharp"), ReplaceFirst(k, 'b', "flat")];
    var twin := if k in ENHARMONIC_MAP then
                  var e := ENHARMONIC_MAP[k];
                  [e, ReplaceFirst(e, '#', "sharp"), ReplaceFirst(e, 'b', "flat")]
                else [];
    own + twin
  }

  /** The spellings tried for a selected key, empty ones dropped (`filter(Boolean)`). */
  function TryKeys(k: string): seq<string>
  {
    Filter(Spellings(k), (s: string) => s != "")
  }

  lemma TryKeysFirst(k: string)
    requires k != ""
    ensures |TryKeys(k)| > 0 && TryKeys(k)[0] == k
  {
    var keep := (s: string) => s != "";
    var sp := Spellings(k);
    FilterAppend([sp[0]], sp[1..], keep);
    assert [sp[0]] + sp[1..] == sp;
    assert [sp[0]][..0] == [];
  }

  lemma TryKeysTwin(k: string)
    requires k in ENHARMONIC_MAP
    ensures ENHARMONIC_MAP[k] in TryKeys(k)
  {
    FilterMembers(Spellings(k), (s: string) => s != "");
    EnharmonicInvolution();
    assert Spellings(k)[3] == ENHARMONIC_MAP[k];
  }

  /** The selected key is tried first, no empty spelling is tried, and the enharmonic twin is among them. */
  lemma TryKeysSpec(k: string)
    ensures forall s :: s in TryKeys(k) <==> s in Spellings(k) && s != ""
    ensures k != "" ==> |TryKeys(k)| > 0 && TryKeys(k)[0] == k
    ensures k in ENHARMONIC_MAP ==> ENHARMONIC_MAP[k] in TryKeys(k)
  {
    TryKeysMembers(k);
    if k != "" {
      TryKeysFirst(k);
    }
    if k in ENHARMONIC_MAP {
      TryKeysTwin(k);
    }
  }

  lemma TryKeysMembers(k: string)
    ensures forall s :: s in TryKeys(k) <==> s in Spellings(k) && s != ""
  {
    FilterMembers(Spellings(k), (s: string) => s != "");
  }

  /** With C# selected the browser tries C#, Csharp, C# again, then Db, Db again and Dflat. */
  lemma TryKeysSharp()
    ensures TryKeys("C#") == ["C#", "Csharp", "C#", "Db", "Db", "Dflat"]
  {
    assert ReplaceFirst("C#", '#', "sharp") == "Csharp";
    assert ReplaceFirst("C#", 'b', "flat") == "C#";
    assert ReplaceFirst("Db", '#', "sharp") == "Db";
    assert ReplaceFirst("Db", 'b', "flat") == "Dflat";
    var sp := Spellings("C#");
    assert sp == ["C#", "Csharp", "C#", "Db", "Db", "Dflat"];
    FilterKeepsAll(sp, (s: string) => s != "");
  }

  predicate Listed(chords: seq<(string, seq<ChordDefinition>)>, k: string)
  {
    Lookup(chords, k).Some? && |Lookup(chords, k).value| > 0
  }

  /** The list of the first spelling with a non-empty list, or nothing. */
  function FirstListed(chords: seq<(string, seq<ChordDefinition>)>, ks: seq<string>): seq<ChordDefinition>
  {
    if |ks| == 0 then []
    else if Listed(chords, ks[0]) then Lookup(chords, ks[0]).value
    else FirstListed(chords, ks[1..])
  }

  lemma {:induction false} FirstListedSpec(chords: seq<(string, seq<ChordDefinition>)>, ks: seq<string>)
    ensures var r := FirstListed(chords, ks);
            && (r == [] <==> forall i :: 0 <= i < |ks| ==> !Listed(chords, ks[i]))
            && (r != [] ==> exists j :: 0 <= j < |ks| && Listed(chords, ks[j]) && Lookup(chords, ks[j]).value == r
                                        && forall i :: 0 <= i < j ==> !Listed(chords, ks[i]))
  {
    if |ks| > 0 && !Listed(chords, ks[0]) {
      FirstListedSpec(chords, ks[1..]);
      var r := FirstListed(chords, ks);
      if r != [] {
        var j :| 0 <= j < |ks[1..]| && Listed(chords, ks[1..][j]) && Lookup(chords, ks[1..][j]).value == r
                 && forall i :: 0 <= i < j ==> !Listed(chords, ks[1..][i]);
        assert ks[j + 1] == ks[1..][j];
        forall i | 0 <= i < j + 1 ensures !Listed(chords, ks[i]) {
          if i > 0 {
            assert ks[i] == ks[1..][i - 1];
          }
        }
      } else {
        forall i | 0 <= i < |ks| ensures !Listed(chords, ks[i]) {
          if i > 0 {
            assert ks[i] == ks[1..][i - 1];
          }
        }
      }
    } else if |ks| > 0 {
      assert Listed(chords, ks[0]);
    }
  }

  /** Every list of the library, concatenated in key order. */
  function AllChords(chords: seq<(string, seq<ChordDefinition>)>): seq<ChordDefinition>
  {
    if |chords| == 0 then [] else AllChords(chords[..|chords| - 1]) + chords[|chords| - 1].1
  }

  lemma {:induction false} AllChordsHas(chords: seq<(string, seq<ChordDefinition>)>, j: nat, c: ChordDefinition)
    requires j < |chords| && c in chords[j].1
    ensures c in AllChords(chords)
  {
    var n := |chords| - 1;
    if j < n {
      assert chords[..n][j] == chords[j];
      AllChordsHas(chords[..n], j, c);
    }
  }

  lemma {:induction false} AllChordsFrom(chords: seq<(string, seq<ChordDefinition>)>, c: ChordDefinition) returns (j: nat)
    requires c in AllChords(chords)
    ensures j < |chords| && c in chords[j].1
  {
    var n := |chords| - 1;
    if c in chords[n].1 {
      j := n;
    } else {
      j := AllChordsFrom(chords[..n], c);
      assert chords[..n][j] == chords[j];
    }
  }

  /** A chord is in the whole-library list exactly when some key's list holds it. */
  lemma AllChordsMembers(chords: seq<(string, seq<ChordDefinition>)>)
    ensures forall c :: c in AllChords(chords) <==> exists j :: 0 <= j < |chords| && c in chords[j].1
  {
    forall c | c in AllChords(chords) ensures exists j :: 0 <= j < |chords| && c in chords[j].1 {
      var j := AllChordsFrom(chords, c);
    }
    forall c, j | 0 <= j < |chords| && c in chords[j].1 ensures c in AllChords(chords) {
      AllChordsHas(chords, j, c);
    }
  }

  /** The browser's list before the search: the selected key's list, or the whole library. */
  function Candidates(library: ChordLibrary, selectedKey: Option<string>): seq<ChordDefinition>
  {
    if selectedKey.Some? && selectedKey.value != "" then FirstListed(library.chords, TryKeys(selectedKey.value))
    else AllChords(library.chords)
  }

  /** A selected key that has chords of its own shows exactly those. */
  lemma SelectedKeyShown(library: ChordLibrary, k: string)
    requires k != "" && Listed(library.chords, k)
    ensures Candidates(library, Some(k)) == Lookup(library.chords, k).value
  {
    TryKeysSpec(k);
  }

  /** Without a selected key the browser offers every chord of the library. */
  lemma NoKeyShowsAll(library: ChordLibrary, c: ChordDefinition)
    ensures c in Candidates(library, None) <==> exists j :: 0 <= j < |library.chords| && c in library.chords[j].1
  {
    AllChordsMembers(library.chords);
  }

  /** `toLowerCase` on the ASCII letters. */
  function Lower(s: string): (r: string)
    ensures |r| == |s|
  {
    seq(|s|, i requires 0 <= i < |s| => if 'A' <= s[i] <= 'Z' then (s[i] as int + 32) as char else s[i])
  }

  /** `s.includes(t)` */
  predicate Includes(s: string, t: string)
    decreases |s|
  {
    if |s| < |t| then false else s[..|t|] == t || (|s| > 0 && Includes(s[1..], t))
  }

  predicate OccursAt(s: string, t: string, i: int)
  {
    0 <= i && i + |t| <= |s| && s[i..i + |t|] == t
  }

  lemma {:induction false} IncludesAt(s: string, t: string, i: int)
    requires OccursAt(s, t, i)
    ensures Includes(s, t)
    decreases i
  {
    if i > 0 && s[..|t|] != t {
      assert s[1..][i - 1..i - 1 + |t|] == s[i..i + |t|];
      IncludesAt(s[1..], t, i - 1);
    }
  }

  lemma {:induction false} IncludesWitness(s: string, t: string) returns (i: int)
    requires Includes(s, t)
    ensures OccursAt(s, t, i)
    decreases |s|
  {
    if s[..|t|] == t {
      i := 0;
    } else {
      var j := IncludesWitness(s[1..], t);
      assert s[1..][j..j + |t|] == s[j + 1..j + 1 + |t|];
      i := j + 1;
    }
  }

  /** `includes` holds exactly when the term occurs at some position. */
  lemma IncludesSpec(s: string, t: string)
    ensures Includes(s, t) <==> exists i :: OccursAt(s, t, i)
  {
    if Includes(s, t) {
      var i := IncludesWitness(s, t);
    }
    if exists i :: OccursAt(s, t, i) {
      var i :| OccursAt(s, t, i);
      IncludesAt(s, t, i);
    }
  }

  /** The search test: `key+suffix` or `key+' '+suffix`, lowercased, contains the lowercased term. */
  predicate Matches(c: ChordDefinition, lowerTerm: string)
  {
    Includes(Lower(c.key + c.suffix), lowerTerm) || Includes(Lower(c.key + " " + c.suffix), lowerTerm)
  }

  function SearchFilter(list: seq<ChordDefinition>, searchTerm: string): seq<ChordDefinition>
  {
    if searchTerm == "" then list else Filter(list, (c: ChordDefinition) => Matches(c, Lower(searchTerm)))
  }

  /** The search keeps exactly the matching chords, in order; an empty term keeps everything. */
  lemma SearchFilterSpec(list: seq<ChordDefinition>, searchTerm: string)
    ensures var r := SearchFilter(list, searchTerm);
            && |r| <= |list|
            && (searchTerm == "" ==> r == list)
            && forall c :: c in r <==> c in list && (searchTerm == "" || Matches(c, Lower(searchTerm)))
    ensures forall a, b :: list == a + b ==> SearchFilter(list, searchTerm) == SearchFilter(a, searchTerm) + SearchFilter(b, searchTerm)
  {
    if searchTerm != "" {
      var keep := (c: ChordDefinition) => Matches(c, Lower(searchTerm));
      FilterMembers(list, keep);
      forall a, b | list == a + b
        ensures SearchFilter(list, searchTerm) == SearchFilter(a, searchTerm) + SearchFilter(b, searchTerm)
      {
        FilterAppend(a, b, keep);
      }
    }
  }

  /** `displayedChords`: the candidate list (first listed spelling, or every list in key order), then the search. */
  method DisplayedChords(library: ChordLibrary, selectedKey: Option<string>, searchTerm: string) returns (list: seq<ChordDefinition>)
    ensures list == SearchFilter(Candidates(library, selectedKey), searchTerm)
  {
    list := [];
    if selectedKey.Some? && selectedKey.value != "" {
      var tryKeys := TryKeys(selectedKey.value);
      var i := 0;
      while i < |tryKeys|
        invariant 0 <= i <= |tryKeys|
        invariant FirstListed(library.chords, tryKeys) == FirstListed(library.chords, tryKeys[i..])
        invariant list == []
      {
        var found := Lookup(library.chords, tryKeys[i]);
        if found.Some? && |found.value| > 0 {
          list := found.value;
          break;
        }
        assert tryKeys[i..][1..] == tryKeys[i + 1..];
        i := i + 1;
      }
    } else {
      var j := 0;
      while j < |library.chords|
        invariant 0 <= j <= |library.chords|
        invariant list == AllChords(library.chords[..j])
      {
        assert library.chords[..j + 1][..j] == library.chords[..j];
        list := list + library.chords[j].1;
        j := j + 1;
      }
      assert library.chords[..j] == library.chords;
    }
    if searchTerm != "" {
      var lowerSearch := Lower(searchTerm);
      list := Filter(list, (c: ChordDefinition) => Matches(c, lowerSearch));
    }
  }
}
