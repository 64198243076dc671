/**
 * The application's status bar: the song's total beats, its duration in
 * whole seconds (rounded up) and the `m:ss` text shown in the footer.
 */
module Summary {
  import opened SongTypes
  import opened Timeline
  import opened Arithmetic

  /** The status bar's `totalBeats`: one pass's beats times `repeat || 1`, summed over sections. */
  function AppTotalBeats(sections: seq<SongSection>): int
  {
    if |sections| == 0 then 0
    else
      var last := sections[|sections| - 1];
      AppTotalBeats(sections[..|sections| - 1]) + PassBeats(last.events) * RepeatOrOne(last.repeat)
  }

  predicate RepeatsNonNegative(sections: seq<SongSection>)
  {
    forall i :: 0 <= i < |sections| && sections[i].repeat.Some? ==> sections[i].repeat.value >= 0
  }

  /** With no negative repeat, the status bar's total is the player timeline's total. */
  lemma {:induction false} AppTotalMatchesTimeline(song: Song)
    requires RepeatsNonNegative(song.sections)
    ensures AppTotalBeats(song.sections) == TotalBeats(TimelineOf(song))
  {
    TimelineTotal(song);
    SameTotals(song.sections);
  }

  lemma {:induction false} SameTotals(sections: seq<SongSection>)
    requires RepeatsNonNegative(sections)
    ensures AppTotalBeats(sections) == SectionsBeats(sections)
  {
    if |sections| > 0 {
      var n := |sections| - 1;
      assert RepeatsNonNegative(sections[..n]) by {
        forall i | 0 <= i < n ensures sections[..n][i] == sections[i] { }
      }
      SameTotals(sections[..n]);
      assert RepeatOrOne(sections[n].repeat) == RepeatCount(sections[n].repeat);
    }
  }

  /** A section played -1 times: the status bar counts its beats negatively, the timeline skips it. */
  lemma NegativeRepeatDiverges()
    ensures var s := [SongSection("s", "Verse", [SongEvent("e", None, 0, 4)], Some(-1))];
            AppTotalBeats(s) == -4 && SectionsBeats(s) == 0
  {
    var s := [SongSection("s", "Verse", [SongEvent("e", None, 0, 4)], Some(-1))];
    assert s[..0] == [];
    assert PassBeats(s[0].events) == 4 by {
      assert s[0].events[..0] == [];
    }
  }

  /** A JavaScript number as far as the footer can see it: an integer or one of the non-finite values. */
  datatype Seconds = Finite(n: int) | PosInfinity | NegInfinity | NaN

  /** `Math.ceil(totalBeats * 60 / tempo)` */
  function TotalSeconds(totalBeats: int, tempo: int): Seconds
  {
    var n := totalBeats * 60;
    if tempo > 0 then Finite(-((-n) / tempo))
    else if tempo < 0 then Finite(-(n / (-tempo)))
    else if n > 0 then PosInfinity
    else if n < 0 then NegInfinity
    else NaN
  }

  /** The whole seconds are the least integer at or above the exact duration totalBeats·60/tempo. */
  lemma TotalSecondsCeil(totalBeats: int, tempo: int)
    requires tempo != 0
    ensures var r := TotalSeconds(totalBeats, tempo);
            && r.Finite?
            && (tempo > 0 ==> r.n * tempo >= totalBeats * 60 && (r.n - 1) * tempo < totalBeats * 60)
            && (tempo < 0 ==> r.n * tempo <= totalBeats * 60 && (r.n - 1) * tempo > totalBeats * 60)
  {
    var n := totalBeats * 60;
    if tempo > 0 {
      var q := (-n) / tempo;
      assert -n == q * tempo + (-n) % tempo;
      assert -q * tempo == q * -tempo;
      assert (-q - 1) * tempo == -q * tempo - tempo;
    } else {
      var d := -tempo;
      var q := n / d;
      assert n == q * d + n % d;
      assert -q * tempo == q * d;
      assert (-q - 1) * tempo == q * d + d;
    }
  }

  /** For a positive tempo the rounding is the integer formula (b·60 + tempo - 1) / tempo. */
  lemma TotalSecondsFormula(totalBeats: int, tempo: int)
    requires tempo > 0
    ensures TotalSeconds(totalBeats, tempo) == Finite((totalBeats * 60 + tempo - 1) / tempo)
  {
    TotalSecondsCeil(totalBeats, tempo);
    var r := TotalSeconds(totalBeats, tempo).n;
    var n := totalBeats * 60;
    DivModUnique(n + tempo - 1, tempo, r, n + tempo - 1 - r * tempo);
  }

  function DigitChar(d: int): char
    requires 0 <= d < 10
  {
    ('0' as int + d) as char
  }

  /** `n.toString()` for a natural number. */
  function NatText(n: nat): (s: string)
    ensures |s| >= 1
  {
    if n < 10 then [DigitChar(n)] else NatText(n / 10) + [DigitChar(n % 10)]
  }

  /** Reading decimal digits back. */
  function DigitsValue(s: string): int
  {
    if |s| == 0 then 0 else DigitsValue(s[..|s| - 1]) * 10 + (s[|s| - 1] as int - '0' as int)
  }

  /** The decimal text is digits only, has no leading zero, and reads back as the number. */
  lemma {:induction false} NatTextRoundTrip(n: nat)
    ensures DigitsValue(NatText(n)) == n
    ensures forall i :: 0 <= i < |NatText(n)| ==> '0' <= NatText(n)[i] <= '9'
    ensures |NatText(n)| > 1 ==> NatText(n)[0] != '0'
  {
    if n >= 10 {
      NatTextRoundTrip(n / 10);
      var s := NatText(n);
      assert s[..|s| - 1] == NatText(n / 10);
      assert s[0] == NatText(n / 10)[0];
    }
  }

  /** `i.toString()` */
  function IntText(i: int): string
  {
    if i < 0 then "-" + NatText(-i) else NatText(i)
  }

  /** `padStart(2, '0')` */
  function PadTwo(s: string): (r: string)
    ensures |r| == if |s| >= 2 then |s| else 2
  {
    if |s| >= 2 then s else if |s| == 1 then "0" + s else "00"
  }

  /** JavaScript's `%`, whose remainder takes the sign of the dividend. */
  function JsRem(a: int, b: int): int
    requires b > 0
  {
    if a >= 0 then a % b else -((-a) % b)
  }

  /** The footer's `m:ss`: `Math.floor(s / 60)`, a colon, then `s % 60` padded to two digits. */
  function Footer(s: Seconds): string
  {
    match s
    case Finite(n) => IntText(n / 60) + ":" + PadTwo(IntText(JsRem(n, 60)))
    case PosInfinity => "Infinity:NaN"
    case NegInfinity => "-Infinity:NaN"
    case NaN => "NaN:NaN"
  }

  /** The duration text the status bar shows for a song. */
  function DurationText(song: Song): string
  {
    Footer(TotalSeconds(AppTotalBeats(song.sections), song.tempo))
  }

  /** For a non-negative duration the footer is minutes, a colon and exactly two second digits, and they add back up to s. */
  lemma FooterMinutesSeconds(s: int)
    requires s >= 0
    ensures var m, sec := s / 60, s % 60;
            && 0 <= sec < 60 && m * 60 + sec == s
            && Footer(Finite(s)) == NatText(m) + ":" + [DigitChar(sec / 10), DigitChar(sec % 10)]
            && DigitsValue([DigitChar(sec / 10), DigitChar(sec % 10)]) == sec
  {
    var sec := s % 60;
    assert JsRem(s, 60) == sec;
    if sec < 10 {
      assert IntText(sec) == [DigitChar(sec)];
    } else {
      assert NatText(sec / 10) == [DigitChar(sec / 10)];
    }
    var two := [DigitChar(sec / 10), DigitChar(sec % 10)];
    assert two[..1] == [DigitChar(sec / 10)];
    assert two[..1][..0] == [];
    assert DigitsValue(two[..1]) == sec / 10;
    assert DigitsValue(two) == (sec / 10) * 10 + sec % 10;
  }

  /** An empty song shows 0:00 at any non-zero tempo. */
  lemma EmptySongFooter(song: Song)
    requires song.sections == [] && song.tempo != 0
    ensures DurationText(song) == "0:00"
  {
    assert TotalSeconds(0, song.tempo) == Finite(0);
    FooterMinutesSeconds(0);
  }

  /** At 120 beats per minute, 100 beats last 50 seconds, shown as 0:50; 250 beats as 2:05. */
  lemma FooterExamples()
    ensures Footer(TotalSeconds(100, 120)) == "0:50"
    ensures Footer(TotalSeconds(250, 120)) == "2:05"
  {
    assert TotalSeconds(100, 120) == Finite(50);
    FooterMinutesSeconds(50);
    assert TotalSeconds(250, 120) == Finite(125);
    FooterMinutesSeconds(125);
  }
}
