/**
 * The Android chord selector: a list of keys, the fixed chord collection
 * shown for the selected key, and the song's chord list, kept free of
 * duplicates, into which a clicked chord is inserted at the front.
 */
module SongChords {
  import opened ChordViewing

  /** A chord of the song, named by its key and its suffix. */
  datatype SongChord = SongChord(key: string, suffix: string)

  /** What `equals` may be handed: nothing, a song chord, or an object of another class. */
  datatype Obj = Null | ASongChord(chord: SongChord) | OtherObject

  /** `SongChord.equals`: a song chord with the same key and the same suffix. */
  function Equals(self: SongChord, o: Obj): (r: bool)
    ensures r <==> o == ASongChord(self)
  {
    match o
    case ASongChord(other) => self.key == other.key && self.suffix == other.suffix
    case _ => false
  }

  /** `equals` is reflexive, symmetric and transitive, and never holds against null or another class. */
  lemma EqualsIsEquivalence(a: SongChord, b: SongChord, c: SongChord)
    ensures Equals(a, ASongChord(a))
    ensures Equals(a, ASongChord(b)) ==> Equals(b, ASongChord(a))
    ensures Equals(a, ASongChord(b)) && Equals(b, ASongChord(c)) ==> Equals(a, ASongChord(c))
    ensures !Equals(a, Null) && !Equals(a, OtherObject)
  {
  }

  const TWO_31: int := 0x8000_0000
  const TWO_32: int := 0x1_0000_0000

  /** Java `int` arithmetic: the value in [-2^31, 2^31) congruent to x modulo 2^32. */
  function Int32(x: int): (r: int)
    ensures -TWO_31 <= r < TWO_31
    ensures (x - r) % TWO_32 == 0
  {
    (x + TWO_31) % TWO_32 - TWO_31
  }

  /** `String.hashCode`: h = 31·h + c over the characters, in `int` arithmetic. */
  function StringHash(s: string): (h: int)
    ensures -TWO_31 <= h < TWO_31
  {
    if |s| == 0 then 0 else Int32(31 * StringHash(s[..|s| - 1]) + s[|s| - 1] as int)
  }

  /** `SongChord.hashCode`: `Objects.hash(key + suffix)`, that is 31 + the string's hash. */
  function HashCode(c: SongChord): (h: int)
    ensures -TWO_31 <= h < TWO_31
  {
    Int32(31 + StringHash(c.key + c.suffix))
  }

  /** Equal song chords have equal hashes: `hashCode` is consistent with `equals`. */
  lemma EqualsSameHash(a: SongChord, b: SongChord)
    requires Equals(a, ASongChord(b))
    ensures HashCode(a) == HashCode(b)
  {
  }

  /** The hash only sees the concatenation of key and suffix. */
  lemma HashOfConcatenation(a: SongChord, b: SongChord)
    requires a.key + a.suffix == b.key + b.suffix
    ensures HashCode(a) == HashCode(b)
  {
  }

  /** Key "A" with suffix "b" and key "Ab" with no suffix differ but collide. */
  lemma HashCollision()
    ensures !Equals(SongChord("A", "b"), ASongChord(SongChord("Ab", "")))
    ensures HashCode(SongChord("A", "b")) == HashCode(SongChord("Ab", ""))
  {
    assert "A" + "b" == "Ab" + "";
    HashOfConcatenation(SongChord("A", "b"), SongChord("Ab", ""));
  }

  /** A minor: "Am".hashCode() is 65·31 + 109 = 2124, so the song chord hashes to 2155. */
  lemma HashExample()
    ensures HashCode(SongChord("A", "m")) == 2155
  {
    var s := "A" + "m";
    assert s[..1] == "A" && s[..1][..0] == "";
    assert StringHash(s[..1]) == 65;
    assert StringHash(s) == 2124;
  }

  /** No element occurs twice (for song chords, value equality is `equals`). */
  predicate NoDuplicates<T(==)>(xs: seq<T>)
  {
    forall i, j :: 0 <= i < j < |xs| ==> xs[i] != xs[j]
  }

  /** `java.util.ArrayList`, as far as this module uses it. */
  class ArrayList<T> {
    var elements: seq<T>

    constructor ()
      ensures elements == []
    {
      elements := [];
    }

    method Add(x: T)
      modifies this
      ensures elements == old(elements) + [x]
    {
      elements := elements + [x];
    }

    method Insert(index: int, x: T)
      requires 0 <= index <= |elements|
      modifies this
      ensures elements == old(elements)[..index] + [x] + old(elements)[index..]
    {
      elements := elements[..index] + [x] + elements[index..];
    }

    method Remove(index: int)
      requires 0 <= index < |elements|
      modifies this
      ensures elements == old(elements)[..index] + old(elements)[index + 1..]
    {
      elements := elements[..index] + elements[index + 1..];
    }

    method Clear()
      modifies this
      ensures elements == []
    {
      elements := [];
    }
  }

  /** The song chords with `c` put in front, when no element equals it yet. */
  function AddIfAbsent(songChords: seq<SongChord>, c: SongChord): seq<SongChord>
  {
    if c in songChords then songChords else [c] + songChords
  }

  /** Adding a chord that is absent keeps the list free of duplicates, and afterwards the chord is present and nothing else is new. */
  lemma AddIfAbsentSpec(songChords: seq<SongChord>, c: SongChord)
    ensures var r := AddIfAbsent(songChords, c);
            && c in r
            && (forall x :: x in r <==> x == c || x in songChords)
            && |r| == (if c in songChords then |songChords| else |songChords| + 1)
            && (NoDuplicates(songChords) ==> NoDuplicates(r))
  {
    var r := AddIfAbsent(songChords, c);
    if c !in songChords && NoDuplicates(songChords) {
      forall i, j | 0 <= i < j < |r| ensures r[i] != r[j] {
        assert r[j] == songChords[j - 1];
        if i > 0 {
          assert r[i] == songChords[i - 1];
        }
      }
    }
  }

  /** Removing by position from a duplicate-free list drops exactly that chord and keeps the list duplicate-free. */
  lemma RemoveAtSpec(songChords: seq<SongChord>, p: int)
    requires 0 <= p < |songChords| && NoDuplicates(songChords)
    ensures var r := songChords[..p] + songChords[p + 1..];
            && |r| == |songChords| - 1
            && NoDuplicates(r)
            && (forall x :: x in r <==> x in songChords && x != songChords[p])
  {
    var r := songChords[..p] + songChords[p + 1..];
    assert forall i :: 0 <= i < |r| ==> r[i] == songChords[if i < p then i else i + 1];
    forall x ensures x in r <==> x in songChords && x != songChords[p] {
      if x in songChords && x != songChords[p] {
        var i :| 0 <= i < |songChords| && songChords[i] == x;
        assert r[if i < p then i else i - 1] == x;
      }
    }
  }

  /** The adapter of the song's chord list; it works on the very list it was given. */
  class SongChordAdapter {
    const songChordCollection: ArrayList<SongChord>

    constructor (songChordCollection: ArrayList<SongChord>)
      ensures this.songChordCollection == songChordCollection
    {
      this.songChordCollection := songChordCollection;
    }

    /** `List.contains`: some element `equals` the chord, which is the chord being in the list. */
    function HasSongChord(songChord: SongChord): (r: bool)
      reads songChordCollection
      ensures r <==> songChord in songChordCollection.elements
    {
      exists i :: 0 <= i < |songChordCollection.elements| && Equals(songChord, ASongChord(songChordCollection.elements[i]))
    }

    /** Inserts at position 0: the old chords move one place to the right. */
    method AddSongChord(songChord: SongChord)
      modifies songChordCollection
      ensures songChordCollection.elements == [songChord] + old(songChordCollection.elements)
      ensures GetItemCount() == old(GetItemCount()) + 1
    {
      songChordCollection.Insert(0, songChord);
    }

    /** Removes the chord at the position; the later ones move one place to the left. */
    method RemoveSongChord(position: int)
      requires 0 <= position < |songChordCollection.elements|
      modifies songChordCollection
      ensures songChordCollection.elements == old(songChordCollection.elements)[..position] + old(songChordCollection.elements)[position + 1..]
      ensures GetItemCount() == old(GetItemCount()) - 1
    {
      songChordCollection.Remove(position);
    }

    function GetItemCount(): nat
      reads songChordCollection
    {
      |songChordCollection.elements|
    }
  }

  /** The adapter does not copy its list: a chord it adds is seen through the caller's own reference. */
  method AdapterSharesList(c: SongChord) returns (seen: seq<SongChord>, count: nat)
    ensures seen == [c] && count == 1
  {
    var list := new ArrayList<SongChord>();
    var adapter := new SongChordAdapter(list);
    adapter.AddSongChord(c);
    seen := list.elements;
    count := adapter.GetItemCount();
  }

  /** A chord of the collection: suffix, fret characters for strings 1..6, barre fret. */
  datatype Chord = Chord(suffix: string, frets: seq<char>, barre: int)

  const KEY_NAMES: seq<string> := ["A", "Ab", "B", "Bb", "C", "C#", "D", "E", "Eb", "F", "F#", "G"]

  /** The chords `loadChordCollection` adds, in order; the same for every key. */
  const CHORD_SET: seq<Chord> := [
    Chord("m", "x32010", 0),
    Chord("11", "0320xx", 0),
    Chord("m7", "x22010", 2),
    Chord("m9", "0320xx", 0),
    Chord("major", "57756x", 5),
    Chord("dim7", "02200x", 2),
    Chord("aug9", "8a89a8", 8),
    Chord("m9bis", "0320xx", 0),
    Chord("majbis", "x32010", 0),
    Chord("dim7bis", "0320xx", 0),
    Chord("aug9bis", "x32010", 0),
    Chord("m9ter", "0320xx", 0),
    Chord("majter", "x32010", 0),
    Chord("dim7ter", "0320xx", 0),
    Chord("aug9ter", "x32010", 0)
  ]

  /** Twelve distinct keys, fifteen chords with distinct suffixes, each chord giving a fret for every string the view draws. */
  lemma CollectionsWellFormed()
    ensures |KEY_NAMES| == 12 && NoDuplicates(KEY_NAMES)
    ensures |CHORD_SET| == 15
    ensures forall i, j :: 0 <= i < j < |CHORD_SET| ==> CHORD_SET[i].suffix != CHORD_SET[j].suffix
    ensures forall i :: 0 <= i < |CHORD_SET| ==> |CHORD_SET[i].frets| == STRING_NUMBER
  {
  }

  /** Appending the fifteen chords one at a time appends the chord set. */
  lemma ChordSetAppended(s: seq<Chord>)
    ensures s
            + [Chord("m", "x32010", 0)]
            + [Chord("11", "0320xx", 0)]
            + [Chord("m7", "x22010", 2)]
            + [Chord("m9", "0320xx", 0)]
            + [Chord("major", "57756x", 5)]
            + [Chord("dim7", "02200x", 2)]
            + [Chord("aug9", "8a89a8", 8)]
            + [Chord("m9bis", "0320xx", 0)]
            + [Chord("majbis", "x32010", 0)]
            + [Chord("dim7bis", "0320xx", 0)]
            + [Chord("aug9bis", "x32010", 0)]
            + [Chord("m9ter", "0320xx", 0)]
            + [Chord("majter", "x32010", 0)]
            + [Chord("dim7ter", "0320xx", 0)]
            + [Chord("aug9ter", "x32010", 0)]
            == s + CHORD_SET
  {
  }

  /** The selector's state: the keys, the selected key, the chords shown and the song's chord list. */
  class ChordSelector {
    const keyCollection: seq<string>
    var selectedKey: int
    const chordCollection: ArrayList<Chord>
    const songChordAdapter: SongChordAdapter
    /** How many times the listener was told of a successful operation. */
    var notifications: nat

    ghost predicate Valid()
      reads this, songChordAdapter, songChordAdapter.songChordCollection
    {
      && songChordAdapter.songChordCollection as object != chordCollection as object
      && NoDuplicates(songChordAdapter.songChordCollection.elements)
    }

    /** The fields and `onCreateView`: the twelve keys with the first selected, no chords shown yet, an empty song list. */
    constructor ()
      ensures Valid()
      ensures keyCollection == KEY_NAMES && selectedKey == 0
      ensures chordCollection.elements == [] && songChordAdapter.songChordCollection.elements == []
      ensures fresh(chordCollection) && fresh(songChordAdapter) && fresh(songChordAdapter.songChordCollection)
      ensures notifications == 0
    {
      keyCollection := KEY_NAMES;
      selectedKey := 0;
      chordCollection := new ArrayList<Chord>();
      var songChords := new ArrayList<SongChord>();
      songChordAdapter := new SongChordAdapter(songChords);
      notifications := 0;
    }

    /** The song chord a click on the chord at `position` names, under the selected key. */
    function ClickedChord(position: int): SongChord
      requires 0 <= selectedKey < |keyCollection|
      requires 0 <= position < |chordCollection.elements|
      reads this, chordCollection
    {
      SongChord(keyCollection[selectedKey], chordCollection.elements[position].suffix)
    }

    /** Adds the clicked chord at the front only when the list lacks it, and only then notifies. */
    method OnChordClick(position: int)
      requires Valid()
      requires 0 <= selectedKey < |keyCollection|
      requires 0 <= position < |chordCollection.elements|
      modifies songChordAdapter.songChordCollection, this`notifications
      ensures Valid()
      ensures var c := old(ClickedChord(position));
              && songChordAdapter.songChordCollection.elements == AddIfAbsent(old(songChordAdapter.songChordCollection.elements), c)
              && notifications == old(notifications) + (if c in old(songChordAdapter.songChordCollection.elements) then 0 else 1)
    {
      var songChord := SongChord(keyCollection[selectedKey], chordCollection.elements[position].suffix);
      AddIfAbsentSpec(songChordAdapter.songChordCollection.elements, songChord);
      if !songChordAdapter.HasSongChord(songChord) {
        songChordAdapter.AddSongChord(songChord);
        notifications := notifications + 1;
      }
    }

    /** Removes the song chord at `position`, then notifies. */
    method OnSongChordClick(position: int)
      requires Valid()
      requires 0 <= position < |songChordAdapter.songChordCollection.elements|
      modifies songChordAdapter.songChordCollection, this`notifications
      ensures Valid()
      ensures var old_ := old(songChordAdapter.songChordCollection.elements);
              songChordAdapter.songChordCollection.elements == old_[..position] + old_[position + 1..]
      ensures notifications == old(notifications) + 1
    {
      RemoveAtSpec(songChordAdapter.songChordCollection.elements, position);
      songChordAdapter.RemoveSongChord(position);
      notifications := notifications + 1;
    }

    /** Selects the key and reloads the chords: whatever was shown before, exactly the fixed fifteen are shown after. */
    method OnKeyClick(position: int)
      requires Valid()
      modifies this`selectedKey, chordCollection, this`notifications
      ensures Valid()
      ensures selectedKey == position
      ensures chordCollection.elements == CHORD_SET
      ensures notifications == old(notifications) + 1
    {
      selectedKey := position;
      ClearChordCollection();
      LoadChordCollection();
      notifications := notifications + 1;
    }

    /** Appends the fifteen chords, in order. */
    method LoadChordCollection()
      modifies chordCollection
      ensures chordCollection.elements == old(chordCollection.elements) + CHORD_SET
    {
      ghost var before := chordCollection.elements;
      chordCollection.Add(Chord("m", "x32010", 0));
      chordCollection.Add(Chord("11", "0320xx", 0));
      chordCollection.Add(Chord("m7", "x22010", 2));
      chordCollection.Add(Chord("m9", "0320xx", 0));
      chordCollection.Add(Chord("major", "57756x", 5));
      chordCollection.Add(Chord("dim7", "02200x", 2));
      chordCollection.Add(Chord("aug9", "8a89a8", 8));
      chordCollection.Add(Chord("m9bis", "0320xx", 0));
      chordCollection.Add(Chord("majbis", "x32010", 0));
      chordCollection.Add(Chord("dim7bis", "0320xx", 0));
      chordCollection.Add(Chord("aug9bis", "x32010", 0));
      chordCollection.Add(Chord("m9ter", "0320xx", 0));
      chordCollection.Add(Chord("majter", "x32010", 0));
      chordCollection.Add(Chord("dim7ter", "0320xx", 0));
      chordCollection.Add(Chord("aug9ter", "x32010", 0));
      ChordSetAppended(before);
    }

    method ClearChordCollection()
      modifies chordCollection
      ensures chordCollection.elements == []
    {
      chordCollection.Clear();
    }
  }

  /** Clicking the same key twice leaves the same state as clicking it once, bar the extra notification. */
  method KeyClickIdempotent(position: int) returns (once: seq<Chord>, twice: seq<Chord>, key: int)
    ensures once == twice == CHORD_SET && key == position
  {
    var selector := new ChordSelector();
    selector.OnKeyClick(position);
    once := selector.chordCollection.elements;
    selector.OnKeyClick(position);
    twice := selector.chordCollection.elements;
    key := selector.selectedKey;
  }
}
