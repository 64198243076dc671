/**
 * The Android chord view: a chord is a barre fret and one character per
 * string ('x' muted, '0' open, '1'..'9' and 'a'..'o' for frets 1..24).
 * Drawing first scans the strings for the lowest and highest fret and the
 * strings lying on the barre, then places each fretted string, shifted to
 * the lowest fret when the chord reaches above fret 4. The Canvas calls are
 * recorded as a list of draw commands instead of being painted.
 */
module ChordViewing {

  const STRING_NUMBER: nat := 6

  /** `convertFretCharToInteger`: '1'..'9' are frets 1..9, 'a'..'o' frets 10..24, anything else 0. */
  function FretValue(c: char): int
  {
    if '1' <= c <= '9' then c as int - '0' as int
    else if 'a' <= c <= 'o' then c as int - 'a' as int + 10
    else 0
  }

  /** The character that stands for fret v, for 1 <= v <= 24. */
  function FretChar(v: int): char
    requires 1 <= v <= 24
  {
    if v <= 9 then ('0' as int + v) as char else ('a' as int + v - 10) as char
  }

  /** The decoding stays in 0..24; it undoes FretChar, and every character decoding above 0 is that fret's own character. */
  lemma FretValueSpec(c: char, v: int)
    ensures 0 <= FretValue(c) <= 24
    ensures 1 <= v <= 24 ==> FretValue(FretChar(v)) == v
    ensures FretValue(c) != 0 ==> FretChar(FretValue(c)) == c
    ensures c == 'x' || c == '0' || c == 'p' ==> FretValue(c) == 0
  {
  }

  /** A string that the scan counts: neither muted ('x') nor open ('0'). */
  predicate Counted(c: char)
  {
    c != 'x' && c != '0'
  }

  /** What drawing asks the canvas to paint, strings numbered from 1. */
  datatype DrawCall =
    | NotPlayedString(str: int)
    | NotFrettedString(str: int)
    | FrettedString(fret: int, str: int)
    | ThickNut
    | FretLabel(minimumFret: int)
    | BarreLine(fret: int, fromString: int, toString: int)

  datatype Scan = Scan(maximumFret: int, minimumFret: int, stringBarre: seq<int>, calls: seq<DrawCall>)

  /** The first loop over strings 1..|fs|: the fret bounds, starting at the barre, the strings on the barre, and the open/muted marks. */
  function ScanStrings(barre: int, fs: seq<char>): Scan
  {
    if |fs| == 0 then Scan(barre, barre, [], [])
    else
      var sc := ScanStrings(barre, fs[..|fs| - 1]);
      var str := |fs|;
      var c := fs[|fs| - 1];
      if c == 'x' then sc.(calls := sc.calls + [NotPlayedString(str)])
      else if c == '0' then sc.(calls := sc.calls + [NotFrettedString(str)])
      else
        var fret := FretValue(c);
        Scan(if sc.maximumFret < fret then fret else sc.maximumFret,
             if sc.minimumFret > fret then fret else sc.minimumFret,
             if barre == fret then sc.stringBarre + [str] else sc.stringBarre,
             sc.calls)
  }

  /**
   * The bounds hold the barre and every counted string's fret, and each is
   * reached by the barre or by a counted string: muted and open strings
   * never move them.
   */
  lemma {:induction false} ScanBounds(barre: int, fs: seq<char>)
    ensures var sc := ScanStrings(barre, fs);
            && sc.minimumFret <= barre <= sc.maximumFret
            && (forall i :: 0 <= i < |fs| && Counted(fs[i]) ==> sc.minimumFret <= FretValue(fs[i]) <= sc.maximumFret)
            && (sc.maximumFret == barre || exists i :: 0 <= i < |fs| && Counted(fs[i]) && FretValue(fs[i]) == sc.maximumFret)
            && (sc.minimumFret == barre || exists i :: 0 <= i < |fs| && Counted(fs[i]) && FretValue(fs[i]) == sc.minimumFret)
  {
    if |fs| > 0 {
      var n := |fs| - 1;
      ScanBounds(barre, fs[..n]);
      assert forall i :: 0 <= i < n ==> fs[..n][i] == fs[i];
      var sc := ScanStrings(barre, fs[..n]);
      if sc.maximumFret != barre && (!Counted(fs[n]) || sc.maximumFret >= FretValue(fs[n])) {
        var i :| 0 <= i < n && Counted(fs[..n][i]) && FretValue(fs[..n][i]) == sc.maximumFret;
      }
      if sc.minimumFret != barre && (!Counted(fs[n]) || sc.minimumFret <= FretValue(fs[n])) {
        var i :| 0 <= i < n && Counted(fs[..n][i]) && FretValue(fs[..n][i]) == sc.minimumFret;
      }
    }
  }

  lemma {:induction false} StringBarreMembers(barre: int, fs: seq<char>)
    ensures forall s :: s in ScanStrings(barre, fs).stringBarre <==> 1 <= s <= |fs| && Counted(fs[s - 1]) && FretValue(fs[s - 1]) == barre
  {
    if |fs| > 0 {
      var n := |fs| - 1;
      StringBarreMembers(barre, fs[..n]);
      var pre := ScanStrings(barre, fs[..n]).stringBarre;
      forall s ensures s in ScanStrings(barre, fs).stringBarre <==> 1 <= s <= |fs| && Counted(fs[s - 1]) && FretValue(fs[s - 1]) == barre {
        if 1 <= s <= n {
          assert fs[..n][s - 1] == fs[s - 1];
        }
      }
    }
  }

  predicate Increasing(xs: seq<int>)
  {
    forall j, k :: 0 <= j < k < |xs| ==> xs[j] < xs[k]
  }

  /** `stringBarre` lists, in increasing order, exactly the counted strings whose fret is the barre. */
  lemma {:induction false} StringBarreSpec(barre: int, fs: seq<char>)
    ensures var sb := ScanStrings(barre, fs).stringBarre;
            && Increasing(sb)
            && (forall s :: s in sb <==> 1 <= s <= |fs| && Counted(fs[s - 1]) && FretValue(fs[s - 1]) == barre)
  {
    StringBarreMembers(barre, fs);
    if |fs| > 0 {
      var n := |fs| - 1;
      StringBarreSpec(barre, fs[..n]);
      var pre := ScanStrings(barre, fs[..n]).stringBarre;
      var sb := ScanStrings(barre, fs).stringBarre;
      assert Increasing(pre);
      if sb != pre {
        assert sb == pre + [n + 1];
        forall j, k | 0 <= j < k < |sb| ensures sb[j] < sb[k] {
          assert sb[j] == pre[j] && pre[j] in pre;
          if k < |pre| {
            assert sb[k] == pre[k];
          }
        }
      }
    }
  }

  /** Where a counted string's dot goes: its own fret, or shifted so the lowest fret is row 1. */
  function PlacedFret(fret: int, maximumFret: int, minimumFret: int): int
  {
    if maximumFret > 4 then fret - minimumFret + 1 else fret
  }

  /** The second loop: one dot per counted string, in string order. */
  function Placement(fs: seq<char>, maximumFret: int, minimumFret: int): seq<DrawCall>
  {
    if |fs| == 0 then []
    else
      var n := |fs| - 1;
      Placement(fs[..n], maximumFret, minimumFret)
        + (if Counted(fs[n]) then [FrettedString(PlacedFret(FretValue(fs[n]), maximumFret, minimumFret), n + 1)] else [])
  }

  lemma {:induction false} PlacementMembers(fs: seq<char>, maximumFret: int, minimumFret: int)
    ensures forall d :: d in Placement(fs, maximumFret, minimumFret) ==>
              d.FrettedString? && 1 <= d.str <= |fs| && Counted(fs[d.str - 1])
              && d.fret == PlacedFret(FretValue(fs[d.str - 1]), maximumFret, minimumFret)
  {
    if |fs| > 0 {
      var n := |fs| - 1;
      PlacementMembers(fs[..n], maximumFret, minimumFret);
      forall d | d in Placement(fs[..n], maximumFret, minimumFret) ensures fs[..n][d.str - 1] == fs[d.str - 1] { }
    }
  }

  lemma {:induction false} PlacementComplete(fs: seq<char>, maximumFret: int, minimumFret: int)
    ensures |Placement(fs, maximumFret, minimumFret)| <= |fs|
    ensures forall i :: 0 <= i < |fs| && Counted(fs[i]) ==>
              FrettedString(PlacedFret(FretValue(fs[i]), maximumFret, minimumFret), i + 1) in Placement(fs, maximumFret, minimumFret)
  {
    if |fs| > 0 {
      var n := |fs| - 1;
      PlacementComplete(fs[..n], maximumFret, minimumFret);
      forall i | 0 <= i < n ensures fs[..n][i] == fs[i] { }
    }
  }

  /** Every placed dot is a counted string at its (possibly shifted) fret, every counted string gets one, in string order. */
  lemma {:induction false} PlacementSpec(fs: seq<char>, maximumFret: int, minimumFret: int)
    ensures var ps := Placement(fs, maximumFret, minimumFret);
            && |ps| <= |fs|
            && (forall j, k :: 0 <= j < k < |ps| ==> ps[j].FrettedString? && ps[k].FrettedString? && ps[j].str < ps[k].str)
            && (forall d :: d in ps ==>
                  d.FrettedString? && 1 <= d.str <= |fs| && Counted(fs[d.str - 1])
                  && d.fret == PlacedFret(FretValue(fs[d.str - 1]), maximumFret, minimumFret))
            && forall i :: 0 <= i < |fs| && Counted(fs[i]) ==>
                 FrettedString(PlacedFret(FretValue(fs[i]), maximumFret, minimumFret), i + 1) in ps
  {
    PlacementMembers(fs, maximumFret, minimumFret);
    PlacementComplete(fs, maximumFret, minimumFret);
    if |fs| > 0 {
      var n := |fs| - 1;
      PlacementSpec(fs[..n], maximumFret, minimumFret);
      PlacementMembers(fs[..n], maximumFret, minimumFret);
      var pre := Placement(fs[..n], maximumFret, minimumFret);
      var ps := Placement(fs, maximumFret, minimumFret);
      forall j, k | 0 <= j < k < |ps| ensures ps[j].FrettedString? && ps[k].FrettedString? && ps[j].str < ps[k].str {
        assert ps[j] in ps && ps[k] in ps;
        if k >= |pre| {
          assert ps[k].str == n + 1;
          assert ps[j] == pre[j] && pre[j] in pre;
        }
      }
    }
  }

  /** Everything drawn for a chord, in the order the view draws it. */
  function Layout(barre: int, fs: seq<char>): seq<DrawCall>
  {
    var sc := ScanStrings(barre, fs);
    var sb := sc.stringBarre;
    sc.calls
      + Placement(fs, sc.maximumFret, sc.minimumFret)
      + [if sc.maximumFret <= 4 then ThickNut else FretLabel(sc.minimumFret)]
      + (if |sb| >= 2 then [BarreLine(PlacedFret(barre, sc.maximumFret, sc.minimumFret), sb[0], sb[|sb| - 1])] else [])
  }

  /** The nut is drawn exactly when no fret exceeds 4; otherwise the lowest fret is written instead. */
  lemma LayoutNutOrLabel(barre: int, fs: seq<char>)
    ensures var sc := ScanStrings(barre, fs);
            var out := Layout(barre, fs);
            && (ThickNut in out <==> sc.maximumFret <= 4)
            && (FretLabel(sc.minimumFret) in out <==> sc.maximumFret > 4)
  {
    var sc := ScanStrings(barre, fs);
    var placed := Placement(fs, sc.maximumFret, sc.minimumFret);
    var sb := sc.stringBarre;
    var tail := if |sb| >= 2 then [BarreLine(PlacedFret(barre, sc.maximumFret, sc.minimumFret), sb[0], sb[|sb| - 1])] else [];
    ScanCallsMarks(barre, fs);
    PlacementSpec(fs, sc.maximumFret, sc.minimumFret);
    var mark := if sc.maximumFret <= 4 then ThickNut else FretLabel(sc.minimumFret);
    assert Layout(barre, fs) == sc.calls + placed + [mark] + tail;
    assert ThickNut !in sc.calls && ThickNut !in placed && ThickNut !in tail;
    assert FretLabel(sc.minimumFret) !in sc.calls && FretLabel(sc.minimumFret) !in placed && FretLabel(sc.minimumFret) !in tail;
  }

  /** When the chord is shifted, every dot lands on row 1 or below it. */
  lemma LayoutShifted(barre: int, fs: seq<char>)
    ensures var sc := ScanStrings(barre, fs);
            sc.maximumFret > 4 ==>
              forall d :: d in Placement(fs, sc.maximumFret, sc.minimumFret) ==> d.FrettedString? && d.fret >= 1
  {
    var sc := ScanStrings(barre, fs);
    ScanBounds(barre, fs);
    PlacementSpec(fs, sc.maximumFret, sc.minimumFret);
  }

  /** A barre line is drawn only for two or more strings on the barre, from the first to the last of them, shifted like the dots. */
  lemma LayoutBarre(barre: int, fs: seq<char>)
    ensures var sc := ScanStrings(barre, fs);
            var sb := sc.stringBarre;
            var out := Layout(barre, fs);
            && ((exists d :: d in out && d.BarreLine?) <==> |sb| >= 2)
            && forall d :: d in out && d.BarreLine? ==>
                 && d.fromString == sb[0] && d.toString == sb[|sb| - 1] && d.fromString < d.toString
                 && d.fret == PlacedFret(barre, sc.maximumFret, sc.minimumFret)
  {
    var sc := ScanStrings(barre, fs);
    var placed := Placement(fs, sc.maximumFret, sc.minimumFret);
    var sb := sc.stringBarre;
    var tail := if |sb| >= 2 then [BarreLine(PlacedFret(barre, sc.maximumFret, sc.minimumFret), sb[0], sb[|sb| - 1])] else [];
    ScanCallsMarks(barre, fs);
    PlacementSpec(fs, sc.maximumFret, sc.minimumFret);
    StringBarreSpec(barre, fs);
    var mark := if sc.maximumFret <= 4 then ThickNut else FretLabel(sc.minimumFret);
    var out := sc.calls + placed + [mark] + tail;
    assert Layout(barre, fs) == out;
    assert forall d :: d in out && d.BarreLine? ==> d in tail;
    if |sb| >= 2 {
      assert tail[0] in out;
      assert sb[0] < sb[|sb| - 1];
    }
  }

  /** The scan itself draws only the muted and open marks. */
  lemma {:induction false} ScanCallsMarks(barre: int, fs: seq<char>)
    ensures forall d :: d in ScanStrings(barre, fs).calls ==> d.NotPlayedString? || d.NotFrettedString?
  {
    if |fs| > 0 {
      ScanCallsMarks(barre, fs[..|fs| - 1]);
    }
  }

  class ChordView {
    var barre: int
    var frets: array<char>

    /** The view starts with barre 2 and the shape x32010. */
    constructor ()
      ensures barre == 2 && frets[..] == ['x', '3', '2', '0', '1', '0'] && fresh(frets)
    {
      barre := 2;
      frets := new char[] ['x', '3', '2', '0', '1', '0'];
    }

    /** `setChord` keeps the caller's array itself, so later writes to it change what is drawn. */
    method SetChord(barre: int, frets: array<char>)
      modifies this
      ensures this.barre == barre && this.frets == frets
    {
      this.barre := barre;
      this.frets := frets;
    }

    /** `drawChordOnFretboard`: both loops over the six strings, then the nut or label and the barre. */
    method DrawChordOnFretboard() returns (calls: seq<DrawCall>)
      requires frets.Length >= STRING_NUMBER
      ensures calls == Layout(barre, frets[..STRING_NUMBER])
    {
      var maximumFret := barre;
      var minimumFret := barre;
      var stringBarre: seq<int> := [];
      calls := [];
      var str := 1;
      while str <= STRING_NUMBER
        invariant 1 <= str <= STRING_NUMBER + 1
        invariant Scan(maximumFret, minimumFret, stringBarre, calls) == ScanStrings(barre, frets[..str - 1])
      {
        var fretChar := frets[str - 1];
        assert frets[..str][..str - 1] == frets[..str - 1];
        if fretChar == 'x' {
          calls := calls + [NotPlayedString(str)];
        } else if fretChar == '0' {
          calls := calls + [NotFrettedString(str)];
        } else {
          var fret := FretValue(fretChar);
          if maximumFret < fret {
            maximumFret := fret;
          }
          if minimumFret > fret {
            minimumFret := fret;
          }
          if barre == fret {
            stringBarre := stringBarre + [str];
          }
        }
        str := str + 1;
      }
      var fs := frets[..STRING_NUMBER];
      var placed: seq<DrawCall> := [];
      str := 1;
      while str <= STRING_NUMBER
        invariant 1 <= str <= STRING_NUMBER + 1
        invariant placed == Placement(fs[..str - 1], maximumFret, minimumFret)
      {
        var fretChar := frets[str - 1];
        assert fs[..str][..str - 1] == fs[..str - 1];
        if fretChar != 'x' && fretChar != '0' {
          var fret := FretValue(fretChar);
          if maximumFret > 4 {
            fret := fret - minimumFret + 1;
          }
          placed := placed + [FrettedString(fret, str)];
        }
        str := str + 1;
      }
      assert fs[..STRING_NUMBER] == fs;
      calls := calls + placed;
      if maximumFret <= 4 {
        calls := calls + [ThickNut];
      } else {
        calls := calls + [FretLabel(minimumFret)];
      }
      if |stringBarre| != 0 && |stringBarre| >= 2 {
        calls := calls + [BarreLine(if maximumFret > 4 then barre - minimumFret + 1 else barre, stringBarre[0], stringBarre[|stringBarre| - 1])];
      }
    }
  }

  /** The view's initial shape: open and muted marks, three dots at their own frets, the nut, no barre line (one string on fret 2). */
  lemma InitialShapeLayout()
    ensures Layout(2, "x32010") ==
      [NotPlayedString(1), NotFrettedString(4), NotFrettedString(6),
       FrettedString(3, 2), FrettedString(2, 3), FrettedString(1, 5), ThickNut]
  {
    var fs := "x32010";
    assert fs[..1] == "x" && fs[..1][..0] == [];
    assert fs[..2][..1] == fs[..1] && fs[..3][..2] == fs[..2] && fs[..4][..3] == fs[..3];
    assert fs[..5][..4] == fs[..4] && fs[..6][..5] == fs[..5] && fs[..6] == fs;
    assert ScanStrings(2, fs[..1]) == Scan(2, 2, [], [NotPlayedString(1)]);
    assert ScanStrings(2, fs[..2]) == Scan(3, 2, [], [NotPlayedString(1)]);
    assert ScanStrings(2, fs[..3]) == Scan(3, 2, [3], [NotPlayedString(1)]);
    assert ScanStrings(2, fs[..4]) == Scan(3, 2, [3], [NotPlayedString(1), NotFrettedString(4)]);
    assert ScanStrings(2, fs[..5]) == Scan(3, 1, [3], [NotPlayedString(1), NotFrettedString(4)]);
    assert ScanStrings(2, fs) == Scan(3, 1, [3], [NotPlayedString(1), NotFrettedString(4), NotFrettedString(6)]);
    assert Placement(fs[..1], 3, 1) == [];
    assert Placement(fs[..2], 3, 1) == [FrettedString(3, 2)];
    assert Placement(fs[..3], 3, 1) == [FrettedString(3, 2), FrettedString(2, 3)];
    assert Placement(fs[..5], 3, 1) == [FrettedString(3, 2), FrettedString(2, 3), FrettedString(1, 5)];
  }

  /** A chord above fret 4 (barre 8, frets 8 10 8 9 10 8): dots shifted to rows 1..3, the label 8, a barre over strings 1 to 6 on row 1. */
  lemma HighShapeLayout()
    ensures Layout(8, "8a89a8") ==
      [FrettedString(1, 1), FrettedString(3, 2), FrettedString(1, 3), FrettedString(2, 4), FrettedString(3, 5), FrettedString(1, 6),
       FretLabel(8), BarreLine(1, 1, 6)]
  {
    var fs := "8a89a8";
    assert fs[..1] == "8" && fs[..1][..0] == [];
    assert fs[..2][..1] == fs[..1] && fs[..3][..2] == fs[..2] && fs[..4][..3] == fs[..3];
    assert fs[..5][..4] == fs[..4] && fs[..6][..5] == fs[..5] && fs[..6] == fs;
    assert ScanStrings(8, fs[..1]) == Scan(8, 8, [1], []);
    assert ScanStrings(8, fs[..2]) == Scan(10, 8, [1], []);
    assert ScanStrings(8, fs[..3]) == Scan(10, 8, [1, 3], []);
    assert ScanStrings(8, fs[..4]) == Scan(10, 8, [1, 3], []);
    assert ScanStrings(8, fs[..5]) == Scan(10, 8, [1, 3], []);
    assert ScanStrings(8, fs) == Scan(10, 8, [1, 3, 6], []);
    assert Placement(fs[..1], 10, 8) == [FrettedString(1, 1)];
    assert Placement(fs[..2], 10, 8) == [FrettedString(1, 1), FrettedString(3, 2)];
    assert Placement(fs[..3], 10, 8) == [FrettedString(1, 1), FrettedString(3, 2), FrettedString(1, 3)];
    assert Placement(fs[..4], 10, 8) == [FrettedString(1, 1), FrettedString(3, 2), FrettedString(1, 3), FrettedString(2, 4)];
    assert Placement(fs[..5], 10, 8) == [FrettedString(1, 1), FrettedString(3, 2), FrettedString(1, 3), FrettedString(2, 4), FrettedString(3, 5)];
  }
}
