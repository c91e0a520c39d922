/**
 * One row of the history list: the score coloured by one of four bands, a
 * background of the same band, and the five metric glyphs rendered as
 * animated emojis.
 */
module HistoryCard {
  import opened Bands
  import opened Emoji

  /** The scores at which the card moves to the next colour band. */
  const ScoreThresholds: seq<int> := [20, 40, 60]

  const ColorClasses: seq<string> := ["text-accent", "text-primary", "text-secondary", "text-destructive"]
  const BgClasses: seq<string> := ["bg-accent/10", "bg-primary/10", "bg-secondary/10", "bg-destructive/10"]

  /** The band of a score over the card's thresholds, as an if-chain would pick it. */
  lemma CardBand(score: int)
    ensures Band(ScoreThresholds, score) ==
      if score < 20 then 0 else if score < 40 then 1 else if score < 60 then 2 else 3
  {
    var b := if score < 20 then 0 else if score < 40 then 1 else if score < 60 then 2 else 3;
    BandIs(ScoreThresholds, score, b);
  }

  /** The text colour of a score: the class of the band the score falls in. */
  function ScoreColor(score: int): (c: string)
    ensures c == ColorClasses[Band(ScoreThresholds, score)]
  {
    CardBand(score);
    if score < 20 then "text-accent"
    else if score < 40 then "text-primary"
    else if score < 60 then "text-secondary"
    else "text-destructive"
  }

  /** The background of a score: the class of the band the score falls in. */
  function ScoreBg(score: int): (c: string)
    ensures c == BgClasses[Band(ScoreThresholds, score)]
  {
    CardBand(score);
    if score < 20 then "bg-accent/10"
    else if score < 40 then "bg-primary/10"
    else if score < 60 then "bg-secondary/10"
    else "bg-destructive/10"
  }

  /** The four colour bands as score ranges, in both directions. */
  lemma ScoreColorBands(score: int)
    ensures ScoreColor(score) == "text-accent" <==> score < 20
    ensures ScoreColor(score) == "text-primary" <==> 20 <= score < 40
    ensures ScoreColor(score) == "text-secondary" <==> 40 <= score < 60
    ensures ScoreColor(score) == "text-destructive" <==> 60 <= score
  {
  }

  /** Every score picks exactly one colour: the one at its band index. */
  lemma ColorIsExactlyOne(score: int, i: nat)
    requires i < |ColorClasses|
    ensures ScoreColor(score) == ColorClasses[i] <==> i == Band(ScoreThresholds, score)
  {
  }

  /** Colour and background always pick the same band. */
  lemma ColorAndBgAgree(score: int, i: nat)
    requires i < |ColorClasses|
    ensures ScoreColor(score) == ColorClasses[i] <==> ScoreBg(score) == BgClasses[i]
  {
  }

  /** A higher score never gets an earlier colour band. */
  lemma ColorBandMonotone(s1: int, s2: int, i: nat, j: nat)
    requires s1 <= s2
    requires i < |ColorClasses| && j < |ColorClasses|
    requires ScoreColor(s1) == ColorClasses[i] && ScoreColor(s2) == ColorClasses[j]
    ensures i <= j
  {
    BandMonotone(ScoreThresholds, s1, s2);
  }

  // The five metric glyphs, as UTF-16 code units.
  const Car: seq<Unit> := [0xD83D, 0xDE97]               // U+1F697
  const Calendar: seq<Unit> := [0xD83D, 0xDCC5]          // U+1F4C5
  const AlarmClock: seq<Unit> := [0x23F0]                // U+23F0
  const Couch: seq<Unit> := [0xD83D, 0xDECB, 0xFE0F]     // U+1F6CB U+FE0F
  const HotBeverage: seq<Unit> := [0x2615]               // U+2615

  const MetricGlyphs: seq<seq<Unit>> := [Car, Calendar, AlarmClock, Couch, HotBeverage]

  /** A glyph that is one scalar, possibly followed by more units, is keyed by that scalar. */
  lemma GlyphKey(glyph: seq<Unit>, cp: int, rest: seq<Unit>)
    requires IsScalar(cp) && cp != 0 && cp != VariationSelector as int
    requires glyph == Utf16(cp) + rest
    ensures UnicodeKey(glyph) == Hex(cp) && AnimationUrl(glyph) != ""
  {
    KeyOfLeadingCodePoint(cp, rest);
  }

  // The hexadecimal of the glyphs' code points, one digit at a time.
  lemma CarHex() ensures Hex(0x1F697) == "1f697" {
    assert Hex(0x1F) == "1f";
    assert Hex(0x1F6) == "1f6";
    assert Hex(0x1F69) == "1f69";
  }
  lemma CalendarHex() ensures Hex(0x1F4C5) == "1f4c5" {
    assert Hex(0x1F) == "1f";
    assert Hex(0x1F4) == "1f4";
    assert Hex(0x1F4C) == "1f4c";
  }
  lemma AlarmClockHex() ensures Hex(0x23F0) == "23f0" {
    assert Hex(0x23) == "23";
    assert Hex(0x23F) == "23f";
  }
  lemma CouchHex() ensures Hex(0x1F6CB) == "1f6cb" {
    assert Hex(0x1F) == "1f";
    assert Hex(0x1F6) == "1f6";
    assert Hex(0x1F6C) == "1f6c";
  }
  lemma HotBeverageHex() ensures Hex(0x2615) == "2615" {
    assert Hex(0x26) == "26";
    assert Hex(0x261) == "261";
  }

  lemma CarKey() ensures UnicodeKey(Car) == "1f697" {
    CarHex();
    GlyphKey(Car, 0x1F697, []);
  }
  lemma CalendarKey() ensures UnicodeKey(Calendar) == "1f4c5" {
    CalendarHex();
    GlyphKey(Calendar, 0x1F4C5, []);
  }
  lemma AlarmClockKey() ensures UnicodeKey(AlarmClock) == "23f0" {
    AlarmClockHex();
    GlyphKey(AlarmClock, 0x23F0, []);
  }
  /** The couch's selector does not change its key. */
  lemma CouchKey() ensures UnicodeKey(Couch) == "1f6cb" == UnicodeKey(Couch[..2]) {
    CouchHex();
    var pair := Utf16(0x1F6CB);
    assert Couch == pair + [VariationSelector] && Couch[..2] == pair + [];
    GlyphKey(Couch, 0x1F6CB, [VariationSelector]);
    GlyphKey(Couch[..2], 0x1F6CB, []);
  }
  lemma HotBeverageKey() ensures UnicodeKey(HotBeverage) == "2615" {
    HotBeverageHex();
    GlyphKey(HotBeverage, 0x2615, []);
  }

  /**
   * Each metric glyph has a non-empty key, so none of them takes the
   * empty-URL error path.
   */
  lemma MetricGlyphUrls()
    ensures forall g :: g in MetricGlyphs ==> UnicodeKey(g) != "" && AnimationUrl(g) != ""
  {
    forall g | g in MetricGlyphs
      ensures UnicodeKey(g) != "" && AnimationUrl(g) != ""
    {
      if g == Car {
        GlyphKey(Car, 0x1F697, []);
      } else if g == Calendar {
        GlyphKey(Calendar, 0x1F4C5, []);
      } else if g == AlarmClock {
        GlyphKey(AlarmClock, 0x23F0, []);
      } else if g == Couch {
        GlyphKey(Couch, 0x1F6CB, [VariationSelector]);
      } else {
        GlyphKey(HotBeverage, 0x2615, []);
      }
    }
  }
}
