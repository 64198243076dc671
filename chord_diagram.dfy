/**
 * What the web chord diagram shows for a chord position: its size, the
 * marker above each string, the finger dots at their fret relative to the
 * base fret, the barres, and the nut or the base-fret label. Coordinates
 * and SVG elements are not modelled; each visible element is a value.
 */
module ChordDiagram {
  import opened SongTypes

  /** Width and height by size name: small, medium, anything else large. */
  function Dimensions(size: string): (int, int)
  {
    if size == "sm" then (120, 130) else if size == "md" then (160, 180) else (240, 260)
  }

  /** The default size is "md". */
  function DefaultSize(): string { "md" }

  /** The size table: small 120×130, medium (the default) 160×180, anything else 240×260; always taller than wide. */
  lemma DimensionsTable(size: string)
    ensures Dimensions("sm") == (120, 130)
    ensures Dimensions("md") == (160, 180)
    ensures Dimensions(DefaultSize()) == (160, 180)
    ensures size != "sm" && size != "md" ==> Dimensions(size) == (240, 260)
    ensures Dimensions(size).0 < Dimensions(size).1
  {
  }

  datatype Marker = Cross | OpenCircle | NoMarker

  /** The marker above a string: a cross for a muted string, a circle for an open one. */
  function MarkerOf(fret: Fret): Marker
  {
    if fret.Muted? then Cross else if fret.n == 0 then OpenCircle else NoMarker
  }

  function Markers(frets: seq<Fret>): (r: seq<Marker>)
    ensures |r| == |frets|
  {
    if |frets| == 0 then [] else Markers(frets[..|frets| - 1]) + [MarkerOf(frets[|frets| - 1])]
  }

  /** One marker per string, a cross exactly on the muted strings and a circle exactly on the open ones. */
  lemma {:induction false} MarkersSpec(frets: seq<Fret>)
    ensures forall i :: 0 <= i < |frets| ==>
              (Markers(frets)[i] == Cross <==> frets[i] == Muted)
              && (Markers(frets)[i] == OpenCircle <==> frets[i] == Fretted(0))
  {
    if |frets| > 0 {
      var n := |frets| - 1;
      MarkersSpec(frets[..n]);
      forall i | 0 <= i < n ensures Markers(frets)[i] == Markers(frets[..n])[i] && frets[i] == frets[..n][i] { }
    }
  }

  /** `fret - baseFret + 1`: the row of the grid a fret falls on. */
  function RelativeFret(fret: int, baseFret: int): int
  {
    fret - baseFret + 1
  }

  function InGrid(row: int): bool
  {
    !(row <= 0 || row > 5)
  }

  /** `fingers[i]` when truthy: a missing, null or zero entry shows no number. */
  function FingerLabel(fingers: seq<Option<int>>, i: int): Option<int>
  {
    if 0 <= i < |fingers| && fingers[i].Some? && fingers[i].value != 0 then fingers[i] else None
  }

  datatype Dot = Dot(stringIdx: nat, row: int, finger: Option<int>)

  /** The dot of string i, if one is drawn. */
  function DotOf(frets: seq<Fret>, fingers: seq<Option<int>>, baseFret: int, i: nat): Option<Dot>
    requires i < |frets|
  {
    match frets[i]
    case Muted => None
    case Fretted(n) =>
      if n == 0 then None
      else
        var row := RelativeFret(n, baseFret);
        if !InGrid(row) then None else Some(Dot(i, row, FingerLabel(fingers, i)))
  }

  /** The dots, string by string. */
  function Dots(frets: seq<Fret>, fingers: seq<Option<int>>, baseFret: int): seq<Dot>
  {
    if |frets| == 0 then []
    else
      var n := |frets| - 1;
      Dots(frets[..n], fingers, baseFret) + (match DotOf(frets, fingers, baseFret, n) case None => [] case Some(d) => [d])
  }

  /**
   * String i gets a dot exactly when it is fretted above 0 and its relative
   * fret lies in rows 1..5; the dot sits on that row and shows the finger
   * number only when that entry is truthy.
   */
  lemma DotOfSpec(frets: seq<Fret>, fingers: seq<Option<int>>, baseFret: int, i: nat)
    requires i < |frets|
    ensures DotOf(frets, fingers, baseFret, i).Some? <==>
              frets[i].Fretted? && frets[i].n != 0 && 1 <= frets[i].n - baseFret + 1 <= 5
    ensures DotOf(frets, fingers, baseFret, i).Some? ==>
              var d := DotOf(frets, fingers, baseFret, i).value;
              && d.stringIdx == i && 1 <= d.row <= 5 && AtFret(frets[i], d.row + baseFret - 1)
              && d.finger == FingerLabel(fingers, i)
  {
  }

  /** The dots are those of the strings that have one, in string order. */
  lemma {:induction false} DotsSpec(frets: seq<Fret>, fingers: seq<Option<int>>, baseFret: int)
    ensures var ds := Dots(frets, fingers, baseFret);
            && |ds| <= |frets|
            && (forall j, k :: 0 <= j < k < |ds| ==> ds[j].stringIdx < ds[k].stringIdx)
            && (forall d :: d in ds ==> d.stringIdx < |frets| && DotOf(frets, fingers, baseFret, d.stringIdx) == Some(d))
            && forall i :: 0 <= i < |frets| && DotOf(frets, fingers, baseFret, i).Some? ==>
                 DotOf(frets, fingers, baseFret, i).value in ds
  {
    if |frets| > 0 {
      var n := |frets| - 1;
      var pre := frets[..n];
      DotsSpec(pre, fingers, baseFret);
      assert forall i :: 0 <= i < n ==> DotOf(pre, fingers, baseFret, i) == DotOf(frets, fingers, baseFret, i);
      var ds := Dots(pre, fingers, baseFret);
      assert forall d :: d in ds ==> d.stringIdx < n;
    }
  }

  datatype BarreSpan = BarreSpan(start: nat, end: nat, row: int)

  /** `fret === f` for a number f: a muted string is never at a fret. */
  predicate AtFret(fret: Fret, f: int)
  {
    fret.Fretted? && fret.n == f
  }

  /** The indices of the strings fretted exactly at fret f, in increasing order. */
  function StringsAt(frets: seq<Fret>, f: int): seq<nat>
  {
    if |frets| == 0 then []
    else
      var n := |frets| - 1;
      StringsAt(frets[..n], f) + (if AtFret(frets[n], f) then [n] else [])
  }

  lemma {:induction false} StringsAtMembers(frets: seq<Fret>, f: int)
    ensures forall i: nat :: i in StringsAt(frets, f) <==> i < |frets| && AtFret(frets[i], f)
  {
    if |frets| > 0 {
      var n := |frets| - 1;
      StringsAtMembers(frets[..n], f);
      assert forall i :: 0 <= i < n ==> frets[..n][i] == frets[i];
    }
  }

  /** Exactly the strings at fret f, listed in increasing order. */
  lemma {:induction false} StringsAtSpec(frets: seq<Fret>, f: int)
    ensures var ps := StringsAt(frets, f);
            && (forall j, k :: 0 <= j < k < |ps| ==> ps[j] < ps[k])
            && (forall i: nat :: i in ps <==> i < |frets| && AtFret(frets[i], f))
  {
    StringsAtMembers(frets, f);
    if |frets| > 0 {
      var n := |frets| - 1;
      var pre := StringsAt(frets[..n], f);
      StringsAtSpec(frets[..n], f);
      var ps := StringsAt(frets, f);
      forall j, k | 0 <= j < k < |ps| ensures ps[j] < ps[k] {
        if k >= |pre| {
          assert ps[j] == pre[j] && pre[j] in pre;
        }
      }
    }
  }

  function MinOf(xs: seq<nat>): nat
    requires |xs| > 0
  {
    if |xs| == 1 then xs[0] else var m := MinOf(xs[..|xs| - 1]); if xs[|xs| - 1] < m then xs[|xs| - 1] else m
  }

  function MaxOf(xs: seq<nat>): nat
    requires |xs| > 0
  {
    if |xs| == 1 then xs[0] else var m := MaxOf(xs[..|xs| - 1]); if xs[|xs| - 1] > m then xs[|xs| - 1] else m
  }

  lemma {:induction false} MinMaxSpec(xs: seq<nat>)
    requires |xs| > 0
    ensures MinOf(xs) in xs && MaxOf(xs) in xs
    ensures forall x :: x in xs ==> MinOf(xs) <= x <= MaxOf(xs)
  {
    if |xs| > 1 {
      MinMaxSpec(xs[..|xs| - 1]);
      assert xs == xs[..|xs| - 1] + [xs[|xs| - 1]];
    }
  }

  /** The barre listed at fret f: drawn when its row is on the grid and at least two strings are at f. */
  function BarreOf(frets: seq<Fret>, baseFret: int, f: int): Option<BarreSpan>
  {
    var row := RelativeFret(f, baseFret);
    if !InGrid(row) then None
    else
      var ps := StringsAt(frets, f);
      if |ps| < 2 then None else Some(BarreSpan(MinOf(ps), MaxOf(ps), row))
  }

  /**
   * A barre is drawn exactly when its row is in 1..5 and two or more strings
   * are fretted at it; it spans from the lowest to the highest such string,
   * and every such string lies within the span.
   */
  lemma BarreSpec(frets: seq<Fret>, baseFret: int, f: int)
    ensures BarreOf(frets, baseFret, f).Some? <==>
              1 <= f - baseFret + 1 <= 5 && |StringsAt(frets, f)| >= 2
    ensures BarreOf(frets, baseFret, f).Some? ==>
              var b := BarreOf(frets, baseFret, f).value;
              && b.start < b.end < |frets|
              && AtFret(frets[b.start], f) && AtFret(frets[b.end], f)
              && (forall i :: 0 <= i < |frets| && AtFret(frets[i], f) ==> b.start <= i <= b.end)
              && b.row == f - baseFret + 1
  {
    var ps := StringsAt(frets, f);
    StringsAtSpec(frets, f);
    if |ps| >= 2 {
      MinMaxSpec(ps);
      assert ps[0] in ps && ps[1] in ps;
      assert ps[0] < ps[1];
    }
  }

  function Barres(frets: seq<Fret>, baseFret: int, barres: seq<int>): seq<BarreSpan>
  {
    if |barres| == 0 then []
    else
      var n := |barres| - 1;
      Barres(frets, baseFret, barres[..n]) + (match BarreOf(frets, baseFret, barres[n]) case None => [] case Some(b) => [b])
  }

  lemma {:induction false} BarresSound(frets: seq<Fret>, baseFret: int, barres: seq<int>)
    ensures var bs := Barres(frets, baseFret, barres);
            && |bs| <= |barres|
            && (forall b :: b in bs ==> exists j :: 0 <= j < |barres| && BarreOf(frets, baseFret, barres[j]) == Some(b))
  {
    if |barres| > 0 {
      var n := |barres| - 1;
      BarresSound(frets, baseFret, barres[..n]);
      var pre := Barres(frets, baseFret, barres[..n]);
      var last := BarreOf(frets, baseFret, barres[n]);
      var bs := Barres(frets, baseFret, barres);
      assert bs == pre + (match last case None => [] case Some(b) => [b]);
      forall b | b in bs ensures exists j :: 0 <= j < |barres| && BarreOf(frets, baseFret, barres[j]) == Some(b) {
        if b in pre {
          var j :| 0 <= j < n && BarreOf(frets, baseFret, barres[..n][j]) == Some(b);
          assert barres[..n][j] == barres[j];
        } else {
          assert last == Some(b);
        }
      }
    }
  }

  lemma {:induction false} BarresComplete(frets: seq<Fret>, baseFret: int, barres: seq<int>)
    ensures forall j :: 0 <= j < |barres| && BarreOf(frets, baseFret, barres[j]).Some? ==>
              BarreOf(frets, baseFret, barres[j]).value in Barres(frets, baseFret, barres)
  {
    if |barres| > 0 {
      var n := |barres| - 1;
      BarresComplete(frets, baseFret, barres[..n]);
      var pre := Barres(frets, baseFret, barres[..n]);
      var last := BarreOf(frets, baseFret, barres[n]);
      var bs := Barres(frets, baseFret, barres);
      assert bs == pre + (match last case None => [] case Some(b) => [b]);
      forall j | 0 <= j < |barres| && BarreOf(frets, baseFret, barres[j]).Some?
        ensures BarreOf(frets, baseFret, barres[j]).value in bs
      {
        if j < n {
          assert barres[..n][j] == barres[j];
        }
      }
    }
  }

  /** The drawn barres are exactly the listed barres that pass the test, in list order. */
  lemma BarresSpec(frets: seq<Fret>, baseFret: int, barres: seq<int>)
    ensures var bs := Barres(frets, baseFret, barres);
            && |bs| <= |barres|
            && (forall b :: b in bs ==> exists j :: 0 <= j < |barres| && BarreOf(frets, baseFret, barres[j]) == Some(b))
            && forall j :: 0 <= j < |barres| && BarreOf(frets, baseFret, barres[j]).Some? ==>
                 BarreOf(frets, baseFret, barres[j]).value in bs
  {
    BarresSound(frets, baseFret, barres);
    BarresComplete(frets, baseFret, barres);
  }

  /** The thick nut line is drawn at base fret 1. */
  function ShowsNut(baseFret: int): bool
  {
    baseFret == 1
  }

  /** The `Nfr` label is drawn above base fret 1. */
  function ShowsBaseFretLabel(baseFret: int): bool
  {
    baseFret > 1
  }

  /** Nut and label never appear together; below 1 (a malformed base fret) neither does. */
  lemma NutOrLabel(baseFret: int)
    ensures !(ShowsNut(baseFret) && ShowsBaseFretLabel(baseFret))
    ensures baseFret >= 1 ==> ShowsNut(baseFret) || ShowsBaseFretLabel(baseFret)
    ensures baseFret < 1 ==> !ShowsNut(baseFret) && !ShowsBaseFretLabel(baseFret)
  {
  }

  /** Everything the diagram shows for a position. */
  datatype Diagram = Diagram(width: int, height: int, baseFretLabel: Option<int>, nut: bool,
                             markers: seq<Marker>, barres: seq<BarreSpan>, dots: seq<Dot>)

  function DiagramOf(position: ChordPosition, size: string): Diagram
  {
    var (w, h) := Dimensions(size);
    Diagram(w, h,
            if ShowsBaseFretLabel(position.baseFret) then Some(position.baseFret) else None,
            ShowsNut(position.baseFret),
            Markers(position.frets),
            Barres(position.frets, position.baseFret, position.barres),
            Dots(position.frets, position.fingers, position.baseFret))
  }

  /** An open A minor shape at base fret 1: nut, no label, a cross on string 0, circles on strings 1 and 5, no barre. */
  lemma OpenShapeExample()
    ensures var p := ChordPosition([Muted, Fretted(0), Fretted(2), Fretted(2), Fretted(1), Fretted(0)],
                                   [None, None, Some(2), Some(3), Some(1), None], [], None, 1, None);
            var d := DiagramOf(p, "sm");
            && d.width == 120 && d.nut && d.baseFretLabel.None?
            && d.markers == [Cross, OpenCircle, NoMarker, NoMarker, NoMarker, OpenCircle]
            && d.barres == []
            && d.dots == [Dot(2, 2, Some(2)), Dot(3, 2, Some(3)), Dot(4, 1, Some(1))]
  {
    var frets := [Muted, Fretted(0), Fretted(2), Fretted(2), Fretted(1), Fretted(0)];
    var fingers := [None, None, Some(2), Some(3), Some(1), None];
    assert frets[..1] == [Muted] && frets[..1][..0] == [];
    assert frets[..2][..1] == frets[..1];
    assert frets[..3][..2] == frets[..2];
    assert frets[..4][..3] == frets[..3];
    assert frets[..5][..4] == frets[..4];
    assert frets[..5] == frets[..6][..5];
    assert Markers(frets[..2]) == [Cross, OpenCircle];
    assert Markers(frets[..4]) == [Cross, OpenCircle, NoMarker, NoMarker];
    assert Dots(frets[..1], fingers, 1) == [];
    assert DotOf(frets[..2], fingers, 1, 1) == None;
    assert Dots(frets[..2], fingers, 1) == [];
    assert Dots(frets[..3], fingers, 1) == [Dot(2, 2, Some(2))];
    assert Dots(frets[..5], fingers, 1) == [Dot(2, 2, Some(2)), Dot(3, 2, Some(3)), Dot(4, 1, Some(1))];
  }
}
