/**
 * The chaos meter: a mood glyph and label chosen from six score bands, and a
 * bounce animation above 60.
 */
module ChaosMeter {
  import opened Bands
  import Tracker

  /** The six mood glyphs, kept as distinct opaque constants. */
  datatype Glyph = Relieved | Smiling | SweatSmile | AnxiousSweat | HotFace | Fire

  /**
   * The scores at which the meter moves to the next mood band; the first
   * band holds the score 0 alone.
   */
  const MoodThresholds: seq<int> := [1, 20, 40, 60, 80]

  const Glyphs: seq<Glyph> := [Relieved, Smiling, SweatSmile, AnxiousSweat, HotFace, Fire]

  const Moods: seq<string> := [
    "Zen Master", "Slightly Spicy", "Warming Up", "Getting Toasty", "Full Chaos Mode", "ABSOLUTE INFERNO"
  ]

  /** The band of a non-negative score over the meter's thresholds, as an if-chain would pick it. */
  lemma MeterBand(score: int)
    ensures score >= 0 ==>
      Band(MoodThresholds, score) ==
        if score == 0 then 0 else if score < 20 then 1 else if score < 40 then 2
        else if score < 60 then 3 else if score < 80 then 4 else 5
  {
    if score >= 0 {
      var b := if score == 0 then 0 else if score < 20 then 1 else if score < 40 then 2
        else if score < 60 then 3 else if score < 80 then 4 else 5;
      BandIs(MoodThresholds, score, b);
    }
  }

  /**
   * The mood glyph: the glyph of the score's band. A negative score is not
   * 0 and is below 20, so it gets the second glyph.
   */
  function GetEmoji(score: int): (g: Glyph)
    ensures score >= 0 ==> g == Glyphs[Band(MoodThresholds, score)]
    ensures score < 0 ==> g == Glyphs[1]
  {
    MeterBand(score);
    if score == 0 then Relieved
    else if score < 20 then Smiling
    else if score < 40 then SweatSmile
    else if score < 60 then AnxiousSweat
    else if score < 80 then HotFace
    else Fire
  }

  /** The mood label: the label of the score's band (the second for a negative score). */
  function GetMessage(score: int): (m: string)
    ensures score >= 0 ==> m == Moods[Band(MoodThresholds, score)]
    ensures score < 0 ==> m == Moods[1]
  {
    MeterBand(score);
    if score == 0 then "Zen Master"
    else if score < 20 then "Slightly Spicy"
    else if score < 40 then "Warming Up"
    else if score < 60 then "Getting Toasty"
    else if score < 80 then "Full Chaos Mode"
    else "ABSOLUTE INFERNO"
  }

  /** Whether the glyph bounces: only ever in one of the two top bands. */
  function Bounces(score: int): (b: bool)
    ensures b ==> GetMessage(score) == "Full Chaos Mode" || GetMessage(score) == "ABSOLUTE INFERNO"
  {
    score > 60
  }

  /** The six labels as score ranges, in both directions. */
  lemma MessageBands(score: int)
    ensures GetMessage(score) == "Zen Master" <==> score == 0
    ensures GetMessage(score) == "Slightly Spicy" <==> score < 0 || 1 <= score < 20
    ensures GetMessage(score) == "Warming Up" <==> 20 <= score < 40
    ensures GetMessage(score) == "Getting Toasty" <==> 40 <= score < 60
    ensures GetMessage(score) == "Full Chaos Mode" <==> 60 <= score < 80
    ensures GetMessage(score) == "ABSOLUTE INFERNO" <==> 80 <= score
  {
  }

  /** Glyph and label always pick the same band. */
  lemma EmojiAndMessageAgree(score: int, i: nat)
    requires i < |Moods|
    ensures GetEmoji(score) == Glyphs[i] <==> GetMessage(score) == Moods[i]
  {
  }

  /** On non-negative scores a higher score never gets an earlier label. */
  lemma MessageBandMonotone(s1: int, s2: int, i: nat, j: nat)
    requires 0 <= s1 <= s2
    requires i < |Moods| && j < |Moods|
    requires GetMessage(s1) == Moods[i] && GetMessage(s2) == Moods[j]
    ensures i <= j
  {
    BandMonotone(MoodThresholds, s1, s2);
  }

  /**
   * The glyph bounces exactly in the two top bands, except at 60 itself:
   * a score of 60 is "Full Chaos Mode" without bounce.
   */
  lemma BounceIffChaosBand(score: int)
    requires score >= 0
    ensures Bounces(score) <==> Band(MoodThresholds, score) >= 4 && score != 60
    ensures GetMessage(60) == "Full Chaos Mode" && !Bounces(60)
  {
    MeterBand(score);
  }

  /** Every score the page can compute lands in a band by the meter's own index. */
  lemma MeterOfPageScore(m: Tracker.Metrics)
    requires Tracker.InRange(m)
    ensures GetMessage(Tracker.Score(m)) == Moods[Band(MoodThresholds, Tracker.Score(m))]
    ensures GetEmoji(Tracker.Score(m)) == Glyphs[Band(MoodThresholds, Tracker.Score(m))]
  {
    Tracker.ScoreInRange(m);
  }
}
