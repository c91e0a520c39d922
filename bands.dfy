/**
 * A reference definition for the threshold classifiers of the UI:
 * an if-chain `if score < t0 ... else if score < t1 ... else ...` over
 * ascending thresholds selects the band whose index is the number of
 * thresholds the score has reached.
 */
module Bands {

  /** Number of thresholds in `thresholds` that `score` has reached. */
  function Band(thresholds: seq<int>, score: int): (b: nat)
    ensures b <= |thresholds|
  {
    if thresholds == [] then 0
    else (if thresholds[0] <= score then 1 else 0) + Band(thresholds[1..], score)
  }

  predicate Ascending(thresholds: seq<int>) {
    forall i, j :: 0 <= i < j < |thresholds| ==> thresholds[i] < thresholds[j]
  }

  /** A higher score never reaches fewer thresholds. */
  lemma {:induction false} BandMonotone(thresholds: seq<int>, s1: int, s2: int)
    requires s1 <= s2
    ensures Band(thresholds, s1) <= Band(thresholds, s2)
  {
    if thresholds != [] {
      BandMonotone(thresholds[1..], s1, s2);
    }
  }

  /**
   * Over ascending thresholds the band is the one an if-chain picks: every
   * threshold below the band index has been reached and the one at the
   * band index (if any) has not.
   */
  lemma {:induction false} BandIsFirstUnreached(thresholds: seq<int>, score: int)
    requires Ascending(thresholds)
    ensures var b := Band(thresholds, score);
      && (forall i :: 0 <= i < b ==> thresholds[i] <= score)
      && (b < |thresholds| ==> score < thresholds[b])
  {
    if thresholds != [] {
      var rest := thresholds[1..];
      assert Ascending(rest) by {
        forall i, j | 0 <= i < j < |rest| ensures rest[i] < rest[j] {
          assert rest[i] == thresholds[i + 1] && rest[j] == thresholds[j + 1];
        }
      }
      BandIsFirstUnreached(rest, score);
      var b := Band(thresholds, score);
      if thresholds[0] <= score {
        forall i | 0 <= i < b ensures thresholds[i] <= score {
          if i > 0 { assert thresholds[i] == rest[i - 1]; }
        }
      } else {
        // every later threshold is larger still, so none is reached
        BandZeroBelowFirst(thresholds, score);
      }
    }
  }

  lemma {:induction false} BandZeroBelowFirst(thresholds: seq<int>, score: int)
    requires Ascending(thresholds) && thresholds != [] && score < thresholds[0]
    ensures Band(thresholds, score) == 0
  {
    var rest := thresholds[1..];
    if rest != [] {
      assert rest[0] == thresholds[1];
      assert Ascending(rest) by {
        forall i, j | 0 <= i < j < |rest| ensures rest[i] < rest[j] {
          assert rest[i] == thresholds[i + 1] && rest[j] == thresholds[j + 1];
        }
      }
      BandZeroBelowFirst(rest, score);
    }
  }

  /** Conversely, the band is the only index with that property. */
  lemma BandIs(thresholds: seq<int>, score: int, b: nat)
    requires Ascending(thresholds) && b <= |thresholds|
    requires forall i :: 0 <= i < b ==> thresholds[i] <= score
    requires b < |thresholds| ==> score < thresholds[b]
    ensures Band(thresholds, score) == b
  {
    BandIsFirstUnreached(thresholds, score);
  }
}
