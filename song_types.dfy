/**
 * The song model shared by the editor, the player and the exporters:
 * chord definitions with their fingering positions, and a song as a list of
 * repeatable sections of chord-or-rest events.
 */
module SongTypes {

  datatype Option<+T> = None | Some(value: T)

  /** One string of a fingering: muted ('x') or held at a fret (0 = open). */
  datatype Fret = Muted | Fretted(n: nat)

  datatype ChordPosition = ChordPosition(
    frets: seq<Fret>,
    fingers: seq<Option<int>>,
    barres: seq<int>,
    capo: Option<bool>,
    baseFret: int,
    midi: Option<seq<int>>)

  datatype ChordDefinition = ChordDefinition(key: string, suffix: string, positions: seq<ChordPosition>)

  /** An event holds a chord (None = rest) and a duration in whole beats. */
  datatype SongEvent = SongEvent(id: string, chord: Option<ChordDefinition>, positionIndex: int, duration: int)

  datatype SongSection = SongSection(id: string, name: string, events: seq<SongEvent>, repeat: Option<int>)

  datatype Song = Song(title: string, tempo: int, timeSignature: (int, int), sections: seq<SongSection>)

  /** The value of `section.repeat || 1`: an absent or zero repeat reads as 1. */
  function RepeatOrOne(repeat: Option<int>): (r: int)
    ensures r != 0
    ensures repeat.Some? && repeat.value != 0 ==> r == repeat.value
    ensures repeat.None? ==> r == 1
  {
    match repeat
    case None => 1
    case Some(n) => if n == 0 then 1 else n
  }

  /** Sum of the event durations of one pass through a section. */
  function PassBeats(events: seq<SongEvent>): int
  {
    if |events| == 0 then 0 else PassBeats(events[..|events| - 1]) + events[|events| - 1].duration
  }

  /** `chord.positions[positionIndex]`, or None (undefined) when the index is out of range. */
  function PositionOf(ev: SongEvent): Option<ChordPosition>
    requires ev.chord.Some?
  {
    var ps := ev.chord.value.positions;
    if 0 <= ev.positionIndex < |ps| then Some(ps[ev.positionIndex]) else None
  }
}
