/**
 * The Hot Mess Tracker page: five severity sliders, the chaos score derived
 * from them, and the Save / Reset actions that maintain a newest-first,
 * ten-entry history mirrored into the browser's `chaosHistory` storage slot.
 */
module Tracker {
  import opened Wrappers

  /** The five slider readings of one day. */
  datatype Metrics = Metrics(
    lateForWork: int,
    meetingConflict: int,
    deadlineMissed: int,
    procrastination: int,
    coffeeConsumption: int)
  {
    function Get(d: Dimension): int {
      match d
      case LateForWork => lateForWork
      case MeetingConflict => meetingConflict
      case DeadlineMissed => deadlineMissed
      case Procrastination => procrastination
      case CoffeeConsumption => coffeeConsumption
    }

    /** The `{ ...metrics, <field>: value }` update of one slider. */
    function With(d: Dimension, value: int): (m: Metrics)
      ensures m.Get(d) == value
      ensures forall e :: e != d ==> m.Get(e) == Get(e)
    {
      match d
      case LateForWork => this.(lateForWork := value)
      case MeetingConflict => this.(meetingConflict := value)
      case DeadlineMissed => this.(deadlineMissed := value)
      case Procrastination => this.(procrastination := value)
      case CoffeeConsumption => this.(coffeeConsumption := value)
    }
  }

  datatype Dimension = LateForWork | MeetingConflict | DeadlineMissed | Procrastination | CoffeeConsumption

  /** One saved snapshot: display date, score, metrics copy and the message shown. */
  datatype Entry = Entry(date: string, score: int, metrics: Metrics, message: string)

  const Zero := Metrics(0, 0, 0, 0, 0)

  /** The largest value a slider reports (`max={100}`, `step={1}`, minimum 0). */
  const SliderMax := 100

  /** Number of entries the history keeps. */
  const MaxHistory := 10

  const MotivationalMessages: seq<string> := [
    "At least you're consistently chaotic. We love that for you! \U{1F485}",
    "Your chaos is an art form. Keep painting! \U{1F3A8}",
    "Tomorrow is another day to be a hot mess. Can't wait! \U{2728}",
    "You're not messy, you're just living life in surround sound. \U{1F50A}",
    "Chaos level: Expert. Your resume looks great! \U{1F4DD}",
    "Some people plan their day. You're not some people. \U{1F31F}",
    "Your organizational skills are... creative! We stan! \U{1F496}",
    "You make chaos look iconic, honestly. \U{1F451}",
    "Procrastination is just aggressive relaxation. Own it! \U{1F6CB}\U{FE0F}",
    "Who needs schedules when you have vibes? \U{1F308}"
  ]

  /** Every slider reading is a value a slider can report. */
  predicate InRange(m: Metrics) {
    && 0 <= m.lateForWork <= SliderMax
    && 0 <= m.meetingConflict <= SliderMax
    && 0 <= m.deadlineMissed <= SliderMax
    && 0 <= m.procrastination <= SliderMax
    && 0 <= m.coffeeConsumption <= SliderMax
  }

  /** Setting one reading to a slider value keeps all readings in range. */
  lemma WithInRange(m: Metrics, d: Dimension, value: int)
    requires InRange(m) && 0 <= value <= SliderMax
    ensures InRange(m.With(d, value))
  {
    match d
    case LateForWork =>
    case MeetingConflict =>
    case DeadlineMissed =>
    case Procrastination =>
    case CoffeeConsumption =>
  }

  function Sum(m: Metrics): int {
    m.lateForWork + m.meetingConflict + m.deadlineMissed + m.procrastination + m.coffeeConsumption
  }

  /** The arithmetic mean of the five readings. */
  function Mean(m: Metrics): real {
    Sum(m) as real / 5.0
  }

  /** JavaScript's `Math.round`: the floor of x + 1/2, so halves round up. */
  function MathRound(x: real): (r: int)
    ensures r as real - 0.5 <= x < r as real + 0.5
  {
    (x + 0.5).Floor
  }

  /**
   * The chaos score, computed in integers: it is `Math.round` of the mean
   * of the five readings, which is the integer nearest to the mean.
   */
  function Score(m: Metrics): (r: int)
    ensures r == MathRound(Mean(m))
    ensures r as real - 0.5 <= Mean(m) < r as real + 0.5
  {
    RoundHalfUpOfFifth(Sum(m));
    (Sum(m) + 2) / 5
  }

  /** For an integer s, floor(s/5 + 1/2) is (s + 2) div 5: s/5 never ends in exactly .5. */
  lemma RoundHalfUpOfFifth(s: int)
    ensures MathRound(s as real / 5.0) == (s + 2) / 5
  {
    var q, r := (s + 2) / 5, (s + 2) % 5;
    assert s == 5 * q + r - 2;
    assert s as real / 5.0 + 0.5 == q as real + (2 * r + 1) as real / 10.0;
  }

  /** Scores of in-range readings are themselves in [0, 100]. */
  lemma ScoreInRange(m: Metrics)
    requires InRange(m)
    ensures 0 <= Score(m) <= SliderMax
  {
  }

  /** Raising one slider never lowers the score. */
  lemma ScoreMonotone(m: Metrics, d: Dimension, value: int)
    requires m.Get(d) <= value
    ensures Score(m) <= Score(m.With(d, value))
  {
    assert Sum(m.With(d, value)) == Sum(m) + (value - m.Get(d));
  }

  lemma ScoreExamples()
    ensures Score(Zero) == 0
    ensures Score(Metrics(100, 100, 100, 100, 100)) == 100
    ensures Score(Metrics(10, 20, 30, 40, 50)) == 30
    ensures Score(Metrics(40, 40, 40, 40, 40)) == 40
  {
  }

  /** `s.slice(0, n)`: the first n elements, or all of them when there are fewer. */
  function Take<T>(s: seq<T>, n: nat): (r: seq<T>)
    ensures |r| == if n < |s| then n else |s|
    ensures forall i :: 0 <= i < |r| ==> r[i] == s[i]
  {
    if n < |s| then s[..n] else s
  }

  /**
   * `[newEntry, ...history].slice(0, 10)`: the new entry first, then the old
   * history in order, cut to ten entries.
   */
  function Prepend(e: Entry, history: seq<Entry>): (r: seq<Entry>)
    ensures |r| == if |history| + 1 < MaxHistory then |history| + 1 else MaxHistory
    ensures r[0] == e
    ensures forall i :: 1 <= i < |r| ==> r[i] == history[i - 1]
  {
    Take([e] + history, MaxHistory)
  }

  /** A full history loses exactly its oldest (index 9) entry and nothing else. */
  lemma PrependFullEvictsOldest(e: Entry, history: seq<Entry>)
    requires |history| == MaxHistory
    ensures Prepend(e, history) == [e] + history[..MaxHistory - 1]
  {
  }

  /** A history shorter than ten loses nothing. */
  lemma PrependShortKeepsAll(e: Entry, history: seq<Entry>)
    requires |history| < MaxHistory
    ensures Prepend(e, history) == [e] + history
  {
  }

  /** The history after saving `entries` one after another, first to last. */
  function SaveAll(history: seq<Entry>, entries: seq<Entry>): (r: seq<Entry>)
    ensures entries != [] ==> |r| <= MaxHistory
    ensures |history| <= MaxHistory ==> |r| <= MaxHistory
    decreases |entries|
  {
    if entries == [] then history else SaveAll(Prepend(entries[0], history), entries[1..])
  }

  /**
   * However many saves follow each other the history never exceeds ten
   * entries, grows by one per save until then, and starts with the last
   * entry saved.
   */
  lemma {:induction false} SaveAllBounded(history: seq<Entry>, entries: seq<Entry>)
    ensures entries != [] ==> 0 < |SaveAll(history, entries)| <= MaxHistory
    ensures entries != [] ==> SaveAll(history, entries)[0] == entries[|entries| - 1]
    ensures |history| <= MaxHistory ==>
      |SaveAll(history, entries)| == if |history| + |entries| < MaxHistory then |history| + |entries| else MaxHistory
    decreases |entries|
  {
    if entries != [] {
      var h' := Prepend(entries[0], history);
      SaveAllBounded(h', entries[1..]);
      if entries[1..] != [] {
        assert entries[1..][|entries[1..]| - 1] == entries[|entries| - 1];
      }
    }
  }

  /** The page component's state. */
  class HotMessTracker {
    var metrics: Metrics
    var history: seq<Entry>
    /** The `chaosHistory` slot of local storage; None when never written. */
    var stored: Option<seq<Entry>>
    var showMessage: bool
    var currentMessage: string

    ghost predicate Valid()
      reads this
    {
      InRange(metrics)
    }

    /** The current chaos score shown by the meter. */
    function ChaosScore(): (r: int)
      reads this
      requires Valid()
      ensures r == Score(metrics)
      ensures 0 <= r <= SliderMax
    {
      ScoreInRange(metrics);
      Score(metrics)
    }

    /**
     * Mount: all sliders at zero, no message, and the history taken from the
     * storage slot when it holds one (otherwise empty).
     */
    constructor(saved: Option<seq<Entry>>)
      ensures Valid()
      ensures metrics == Zero
      ensures history == (if saved.Some? then saved.value else [])
      ensures stored == saved
      ensures !showMessage && currentMessage == ""
    {
      metrics := Zero;
      stored := saved;
      showMessage := false;
      currentMessage := "";
      history := if saved.Some? then saved.value else [];
    }

    /** A slider reports a new integer value in [0, 100]. */
    method SetMetric(d: Dimension, value: int)
      requires Valid()
      requires 0 <= value <= SliderMax
      modifies this
      ensures Valid()
      ensures metrics == old(metrics).With(d, value)
      ensures history == old(history) && stored == old(stored)
      ensures showMessage == old(showMessage) && currentMessage == old(currentMessage)
    {
      WithInRange(metrics, d, value);
      metrics := metrics.With(d, value);
    }

    /**
     * Save: pick message `pick` (the random choice), record an entry with
     * the current score and a copy of the metrics at the head of the history,
     * keep ten entries, write the whole history to storage and show the message.
     */
    method Save(pick: nat, date: string)
      requires Valid()
      requires pick < |MotivationalMessages|
      modifies this
      ensures Valid()
      ensures history == Prepend(Entry(date, Score(old(metrics)), old(metrics), MotivationalMessages[pick]), old(history))
      ensures history[0].score == Score(metrics) && history[0].metrics == metrics
      ensures |history| <= MaxHistory
      ensures stored == Some(history)
      ensures currentMessage == MotivationalMessages[pick] && showMessage
      ensures metrics == old(metrics)
    {
      var message := MotivationalMessages[pick];
      var newEntry := Entry(date, Score(metrics), metrics, message);
      var updatedHistory := Prepend(newEntry, history);
      history := updatedHistory;
      stored := Some(updatedHistory);
      currentMessage := message;
      showMessage := true;
    }

    /** Reset: every slider back to zero and the message hidden; history untouched. */
    method Reset()
      modifies this
      ensures Valid()
      ensures metrics == Zero && Score(metrics) == 0
      ensures !showMessage
      ensures history == old(history) && stored == old(stored)
      ensures currentMessage == old(currentMessage)
    {
      metrics := Zero;
      showMessage := false;
    }
  }

  /** All sliders at 40, then Save: the new entry scores 40 and the history grows by one, up to ten. */
  method SaveAtForty(t: HotMessTracker, pick: nat, date: string)
    requires t.Valid() && pick < |MotivationalMessages|
    modifies t
    ensures |t.history| == if |old(t.history)| < MaxHistory then |old(t.history)| + 1 else MaxHistory
    ensures t.history[0].score == 40
    ensures t.history[0].metrics == Metrics(40, 40, 40, 40, 40)
    ensures t.history[0].message in MotivationalMessages
  {
    t.SetMetric(LateForWork, 40);
    t.SetMetric(MeetingConflict, 40);
    t.SetMetric(DeadlineMissed, 40);
    t.SetMetric(Procrastination, 40);
    t.SetMetric(CoffeeConsumption, 40);
    t.Save(pick, date);
  }
}
