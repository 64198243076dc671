/**
 * The player's timeline: sections are expanded into one instance per event
 * per repeat (section-major, then repeat-major, then event order), and each
 * instance is given a contiguous [start, end) interval in beats.
 */
module Timeline {
  import opened SongTypes
  import opened Arithmetic

  /** The tracking key of one instance; the player joins these four parts with dashes. */
  datatype InstanceId = InstanceId(sectionId: string, repeatIndex: nat, eventId: string, eventIndex: nat)

  datatype FlatEvent = FlatEvent(
    event: SongEvent,
    uniqueId: InstanceId,
    sectionName: string,
    sectionIndex: nat,
    eventIndexInSection: nat,
    repeatIndex: nat,
    totalRepeats: int)

  datatype TimedEvent = TimedEvent(flat: FlatEvent, start: int, end: int)

  /** Number of passes: `Array.from({length: repeat || 1})`, where a negative length reads as 0. */
  function RepeatCount(repeat: Option<int>): (n: nat)
    ensures repeat.None? ==> n == 1
    ensures repeat.Some? && repeat.value <= 0 ==> n == (if repeat.value == 0 then 1 else 0)
    ensures repeat.Some? && repeat.value > 0 ==> n == repeat.value
  {
    var r := RepeatOrOne(repeat);
    if r < 0 then 0 else r
  }

  function Instance(sec: SongSection, sIdx: nat, rIdx: nat, eIdx: nat): FlatEvent
    requires eIdx < |sec.events|
  {
    var ev := sec.events[eIdx];
    FlatEvent(ev, InstanceId(sec.id, rIdx, ev.id, eIdx), sec.name, sIdx, eIdx, rIdx, RepeatOrOne(sec.repeat))
  }

  /** One pass (repeat number rIdx) through the events of a section. */
  function Pass(sec: SongSection, sIdx: nat, rIdx: nat): (r: seq<FlatEvent>)
    ensures |r| == |sec.events|
  {
    seq(|sec.events|, e requires 0 <= e < |sec.events| => Instance(sec, sIdx, rIdx, e))
  }

  /** The first n passes through a section. */
  function Passes(sec: SongSection, sIdx: nat, n: nat): seq<FlatEvent>
  {
    if n == 0 then [] else Passes(sec, sIdx, n - 1) + Pass(sec, sIdx, n - 1)
  }

  function SectionInstances(sec: SongSection, sIdx: nat): seq<FlatEvent>
  {
    Passes(sec, sIdx, RepeatCount(sec.repeat))
  }

  /** `flattenedEvents`: the instances of all sections, in song order. */
  function Flatten(sections: seq<SongSection>): seq<FlatEvent>
  {
    if |sections| == 0 then []
    else Flatten(sections[..|sections| - 1]) + SectionInstances(sections[|sections| - 1], |sections| - 1)
  }

  /** Number of instances the flattening yields: events times passes, summed over sections. */
  function InstanceCount(sections: seq<SongSection>): nat
  {
    if |sections| == 0 then 0
    else InstanceCount(sections[..|sections| - 1]) + |sections[|sections| - 1].events| * RepeatCount(sections[|sections| - 1].repeat)
  }

  /** Beats the timeline spans: one pass's beats times passes, summed over sections. */
  function SectionsBeats(sections: seq<SongSection>): int
  {
    if |sections| == 0 then 0
    else SectionsBeats(sections[..|sections| - 1]) + PassBeats(sections[|sections| - 1].events) * RepeatCount(sections[|sections| - 1].repeat)
  }

  /** Sum of the durations of a run of instances. */
  function Beats(flat: seq<FlatEvent>): int
  {
    if |flat| == 0 then 0 else Beats(flat[..|flat| - 1]) + flat[|flat| - 1].event.duration
  }

  /** `timedEvents`: the running-total fold that places each instance after the previous one. */
  function Schedule(flat: seq<FlatEvent>, from: int): (r: seq<TimedEvent>)
    ensures |r| == |flat|
  {
    if |flat| == 0 then []
    else [TimedEvent(flat[0], from, from + flat[0].event.duration)] + Schedule(flat[1..], from + flat[0].event.duration)
  }

  function TimelineOf(song: Song): seq<TimedEvent>
  {
    Schedule(Flatten(song.sections), 0)
  }

  /** `totalBeats`: the end of the last instance, 0 for an empty timeline. */
  function TotalBeats(timed: seq<TimedEvent>): int
  {
    if |timed| == 0 then 0 else timed[|timed| - 1].end
  }

  /** The interval invariant of a timeline: it starts at 0, each instance ends where the next starts, and spans its duration. */
  ghost predicate WellTimed(timed: seq<TimedEvent>)
  {
    && (|timed| > 0 ==> timed[0].start == 0)
    && (forall i :: 0 <= i < |timed| - 1 ==> timed[i].end == timed[i + 1].start)
    && (forall i :: 0 <= i < |timed| ==> timed[i].end - timed[i].start == timed[i].flat.event.duration)
  }

  /** Lexicographic order on (section, repeat, event) positions. */
  predicate Before(a: FlatEvent, b: FlatEvent)
  {
    || a.sectionIndex < b.sectionIndex
    || (a.sectionIndex == b.sectionIndex && a.repeatIndex < b.repeatIndex)
    || (a.sectionIndex == b.sectionIndex && a.repeatIndex == b.repeatIndex && a.eventIndexInSection < b.eventIndexInSection)
  }

  /** The instance is event eIdx of section sIdx, and its id is built from that section, repeat and event position. */
  ghost predicate FromSection(sec: SongSection, sIdx: nat, f: FlatEvent)
  {
    && f.sectionIndex == sIdx
    && f.eventIndexInSection < |sec.events|
    && f.event == sec.events[f.eventIndexInSection]
    && f.sectionName == sec.name
    && f.uniqueId == InstanceId(sec.id, f.repeatIndex, f.event.id, f.eventIndexInSection)
  }

  ghost predicate FromSong(sections: seq<SongSection>, f: FlatEvent)
  {
    f.sectionIndex < |sections| && FromSection(sections[f.sectionIndex], f.sectionIndex, f)
  }

  ghost predicate Ordered(flat: seq<FlatEvent>)
  {
    forall a, b :: 0 <= a < b < |flat| ==> Before(flat[a], flat[b])
  }

  ghost predicate DistinctSectionIds(sections: seq<SongSection>)
  {
    forall i, j :: 0 <= i < j < |sections| ==> sections[i].id != sections[j].id
  }

  // ---------------------------------------------------------------- lemmas

  /** n passes hold n times the events, the k-th being event k % len of repeat k / len. */
  lemma {:induction false} PassesAt(sec: SongSection, sIdx: nat, n: nat, k: nat)
    requires k < n * |sec.events|
    ensures |Passes(sec, sIdx, n)| == n * |sec.events|
    ensures Passes(sec, sIdx, n)[k] == Instance(sec, sIdx, k / |sec.events|, k % |sec.events|)
  {
    var m := |sec.events|;
    PassesLength(sec, sIdx, n - 1);
    assert n * m == (n - 1) * m + m;
    if k < (n - 1) * m {
      PassesAt(sec, sIdx, n - 1, k);
    } else {
      DivModUnique(k, m, n - 1, k - (n - 1) * m);
    }
  }

  lemma {:induction false} PassesLength(sec: SongSection, sIdx: nat, n: nat)
    ensures |Passes(sec, sIdx, n)| == n * |sec.events|
  {
    if n > 0 {
      PassesLength(sec, sIdx, n - 1);
      assert n * |sec.events| == (n - 1) * |sec.events| + |sec.events|;
    }
  }

  /** Repeat expansion: a section of k events and r passes contributes k*r instances. */
  lemma {:induction false} FlattenLength(sections: seq<SongSection>)
    ensures |Flatten(sections)| == InstanceCount(sections)
  {
    if |sections| > 0 {
      FlattenLength(sections[..|sections| - 1]);
      PassesLength(sections[|sections| - 1], |sections| - 1, RepeatCount(sections[|sections| - 1].repeat));
    }
  }

  lemma {:induction false} FlattenPrefix(sections: seq<SongSection>, j: nat)
    requires j <= |sections|
    ensures Flatten(sections[..j]) <= Flatten(sections)
  {
    if j < |sections| {
      var init := sections[..|sections| - 1];
      assert init[..j] == sections[..j];
      FlattenPrefix(init, j);
    } else {
      assert sections[..j] == sections;
    }
  }

  /**
   * Section i occupies one consecutive block of the flattening, right after
   * the instances of the sections before it, and that block is its passes.
   */
  lemma FlattenBlock(sections: seq<SongSection>, i: nat)
    requires i < |sections|
    ensures var off := |Flatten(sections[..i])|;
            && off + |SectionInstances(sections[i], i)| <= |Flatten(sections)|
            && Flatten(sections)[off..off + |SectionInstances(sections[i], i)|] == SectionInstances(sections[i], i)
  {
    FlattenPrefix(sections, i + 1);
    var pre := sections[..i + 1];
    assert pre[..|pre| - 1] == sections[..i];
    assert Flatten(pre) == Flatten(sections[..i]) + SectionInstances(sections[i], i);
  }

  lemma {:induction false} PassesOrdered(sec: SongSection, sIdx: nat, n: nat)
    ensures Ordered(Passes(sec, sIdx, n))
    ensures forall k :: 0 <= k < |Passes(sec, sIdx, n)| ==>
      FromSection(sec, sIdx, Passes(sec, sIdx, n)[k]) && Passes(sec, sIdx, n)[k].repeatIndex < n
  {
    if n > 0 {
      PassesOrdered(sec, sIdx, n - 1);
      var a, b := Passes(sec, sIdx, n - 1), Pass(sec, sIdx, n - 1);
      assert Passes(sec, sIdx, n) == a + b;
      forall x, y | 0 <= x < y < |a + b| ensures Before((a + b)[x], (a + b)[y]) {
        if y < |a| {
        } else if x < |a| {
          assert (a + b)[y] == b[y - |a|];
        } else {
          assert (a + b)[x] == b[x - |a|] && (a + b)[y] == b[y - |a|];
        }
      }
    }
  }

  /** The flattening is in (section, repeat, event) order and every instance comes from its own section. */
  lemma {:induction false} FlattenOrdered(sections: seq<SongSection>)
    ensures Ordered(Flatten(sections))
    ensures forall k :: 0 <= k < |Flatten(sections)| ==> FromSong(sections, Flatten(sections)[k])
  {
    if |sections| > 0 {
      var n := |sections| - 1;
      var init := sections[..n];
      FlattenOrdered(init);
      PassesOrdered(sections[n], n, RepeatCount(sections[n].repeat));
      var a, b := Flatten(init), SectionInstances(sections[n], n);
      forall k | 0 <= k < |a + b| ensures FromSong(sections, (a + b)[k]) {
        if k < |a| {
          assert FromSong(init, a[k]);
        } else {
          assert (a + b)[k] == b[k - |a|];
        }
      }
      forall x, y | 0 <= x < y < |a + b| ensures Before((a + b)[x], (a + b)[y]) {
        if y < |a| {
        } else if x < |a| {
          assert FromSong(init, a[x]);
          assert (a + b)[y] == b[y - |a|];
        } else {
          assert (a + b)[x] == b[x - |a|] && (a + b)[y] == b[y - |a|];
        }
      }
    }
  }

  /** Two instances of one section never share an id, whatever the ids in the song. */
  lemma InstanceIdsDistinctInSection(sections: seq<SongSection>, a: nat, b: nat)
    requires a < b < |Flatten(sections)|
    requires Flatten(sections)[a].sectionIndex == Flatten(sections)[b].sectionIndex
    ensures Flatten(sections)[a].uniqueId != Flatten(sections)[b].uniqueId
  {
    FlattenOrdered(sections);
    assert FromSong(sections, Flatten(sections)[a]) && FromSong(sections, Flatten(sections)[b]);
  }

  /** With distinct section ids, every instance of the song has its own id. */
  lemma InstanceIdsDistinct(sections: seq<SongSection>, a: nat, b: nat)
    requires DistinctSectionIds(sections)
    requires a < b < |Flatten(sections)|
    ensures Flatten(sections)[a].uniqueId != Flatten(sections)[b].uniqueId
  {
    FlattenOrdered(sections);
    var fa, fb := Flatten(sections)[a], Flatten(sections)[b];
    assert FromSong(sections, fa) && FromSong(sections, fb);
    if fa.sectionIndex != fb.sectionIndex {
      assert fa.sectionIndex < fb.sectionIndex;
      assert sections[fa.sectionIndex].id != sections[fb.sectionIndex].id;
    }
  }

  lemma {:induction false} BeatsAppend(a: seq<FlatEvent>, b: seq<FlatEvent>)
    ensures Beats(a + b) == Beats(a) + Beats(b)
  {
    if |b| > 0 {
      assert (a + b)[..|a + b| - 1] == a + b[..|b| - 1];
      BeatsAppend(a, b[..|b| - 1]);
    } else {
      assert a + b == a;
    }
  }

  lemma {:induction false} BeatsOfPass(sec: SongSection, sIdx: nat, rIdx: nat, k: nat)
    requires k <= |sec.events|
    ensures Beats(Pass(sec, sIdx, rIdx)[..k]) == PassBeats(sec.events[..k])
  {
    if k > 0 {
      BeatsOfPass(sec, sIdx, rIdx, k - 1);
      assert Pass(sec, sIdx, rIdx)[..k][..k - 1] == Pass(sec, sIdx, rIdx)[..k - 1];
      assert sec.events[..k][..k - 1] == sec.events[..k - 1];
    }
  }

  lemma {:induction false} BeatsOfPasses(sec: SongSection, sIdx: nat, n: nat)
    ensures Beats(Passes(sec, sIdx, n)) == PassBeats(sec.events) * n
  {
    if n > 0 {
      BeatsOfPasses(sec, sIdx, n - 1);
      BeatsAppend(Passes(sec, sIdx, n - 1), Pass(sec, sIdx, n - 1));
      BeatsOfPass(sec, sIdx, n - 1, |sec.events|);
      assert Pass(sec, sIdx, n - 1)[..|sec.events|] == Pass(sec, sIdx, n - 1);
      assert sec.events[..|sec.events|] == sec.events;
      assert PassBeats(sec.events) * n == PassBeats(sec.events) * (n - 1) + PassBeats(sec.events);
    }
  }

  /** The flattening spans, per section, one pass's beats times its passes. */
  lemma {:induction false} FlattenBeats(sections: seq<SongSection>)
    ensures Beats(Flatten(sections)) == SectionsBeats(sections)
  {
    if |sections| > 0 {
      var n := |sections| - 1;
      FlattenBeats(sections[..n]);
      BeatsAppend(Flatten(sections[..n]), SectionInstances(sections[n], n));
      BeatsOfPasses(sections[n], n, RepeatCount(sections[n].repeat));
    }
  }

  /** Instance i of a schedule starts after the durations of the instances before it. */
  lemma {:induction false} ScheduleAt(flat: seq<FlatEvent>, from: int, i: nat)
    requires i < |flat|
    ensures Schedule(flat, from)[i].flat == flat[i]
    ensures Schedule(flat, from)[i].start == from + Beats(flat[..i])
    ensures Schedule(flat, from)[i].end == from + Beats(flat[..i + 1])
  {
    if i == 0 {
      assert flat[..1] == [] + [flat[0]];
    } else {
      var d := flat[0].event.duration;
      ScheduleAt(flat[1..], from + d, i - 1);
      BeatsAppend([flat[0]], flat[1..][..i - 1]);
      assert [flat[0]] + flat[1..][..i - 1] == flat[..i];
      assert [flat[0]][..0] == [];
      BeatsAppend([flat[0]], flat[1..][..i]);
      assert [flat[0]] + flat[1..][..i] == flat[..i + 1];
    }
  }

  lemma ScheduleSpans(flat: seq<FlatEvent>, from: int)
    ensures forall i :: 0 <= i < |flat| ==>
              Schedule(flat, from)[i].flat == flat[i] && Schedule(flat, from)[i].end - Schedule(flat, from)[i].start == flat[i].event.duration
  {
    forall i | 0 <= i < |flat|
      ensures Schedule(flat, from)[i].flat == flat[i] && Schedule(flat, from)[i].end - Schedule(flat, from)[i].start == flat[i].event.duration
    {
      ScheduleAt(flat, from, i);
      assert flat[..i + 1][..i] == flat[..i];
    }
  }

  lemma ScheduleContiguous(flat: seq<FlatEvent>, from: int)
    ensures forall i :: 0 <= i < |flat| - 1 ==> Schedule(flat, from)[i].end == Schedule(flat, from)[i + 1].start
  {
    forall i | 0 <= i < |flat| - 1
      ensures Schedule(flat, from)[i].end == Schedule(flat, from)[i + 1].start
    {
      ScheduleAt(flat, from, i);
      ScheduleAt(flat, from, i + 1);
    }
  }

  lemma ScheduleEnds(flat: seq<FlatEvent>, from: int)
    ensures |flat| > 0 ==> Schedule(flat, from)[0].start == from
    ensures TotalBeats(Schedule(flat, 0)) == Beats(flat)
  {
    if |flat| > 0 {
      ScheduleAt(flat, 0, |flat| - 1);
      assert flat[..|flat|] == flat;
    }
  }

  /** The schedule is contiguous from 0, each instance spans its duration, and the total is the sum of durations. */
  lemma ScheduleWellTimed(flat: seq<FlatEvent>)
    ensures WellTimed(Schedule(flat, 0))
    ensures TotalBeats(Schedule(flat, 0)) == Beats(flat)
    ensures forall i :: 0 <= i < |flat| ==> Schedule(flat, 0)[i].flat == flat[i]
  {
    ScheduleSpans(flat, 0);
    ScheduleContiguous(flat, 0);
    ScheduleEnds(flat, 0);
  }

  /** `totalBeats` of the player equals the per-section sum of one pass's beats times its passes. */
  lemma TimelineTotal(song: Song)
    ensures TotalBeats(TimelineOf(song)) == SectionsBeats(song.sections)
    ensures WellTimed(TimelineOf(song))
    ensures |TimelineOf(song)| == InstanceCount(song.sections)
  {
    ScheduleWellTimed(Flatten(song.sections));
    FlattenBeats(song.sections);
    FlattenLength(song.sections);
  }
}
