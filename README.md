# Hot Mess Tracker — a Dafny model of its core

The Hot Mess Tracker is a small React page. The user sets five sliders (transport
problems, meeting conflicts, missed deadlines, procrastination, coffee) to whole
numbers from 0 to 100. The page shows a chaos score, which is the rounded mean of
the five. **Save** records a history entry and shows a random affirmation.
**Reset** sets the sliders back to zero. Scores are drawn in colour bands, and
small emoji glyphs are drawn as Noto animations fetched by code point.

This project models that logic in Dafny and proves what it promises:

- `tracker.dfy` (module `Tracker`, from `frontend/app/page.tsx`). It holds the
  score as `Math.round` over reals, proved equal to `(sum + 2) div 5` and to the
  nearest integer to the mean. It holds the ten-entry, newest-first history update
  `[entry, ...history].slice(0, 10)`. It holds the page state as a class
  `HotMessTracker` with fields `metrics`, `history`, `stored` (the `chaosHistory`
  storage slot), `showMessage` and `currentMessage`, and methods `SetMetric`,
  `Save` and `Reset`.
- `emoji.dfy` (module `Emoji`, from `frontend/components/animated-emoji.tsx`). It
  models strings as sequences of UTF-16 code units. It covers `codePointAt`, the
  removal of U+FE0F, the `emojiToUnicode` loop (a method proved equal to the
  specification function `UnicodeKey`), hexadecimal with its inverse, the
  animation URL, JSON values with JavaScript truthiness, the Lottie payload check,
  and the component state (`emoji`, `animationData`, `error`) as a class.
- `history_card.dfy` (module `HistoryCard`). It models the four colour and
  background bands and the keys of the five metric glyphs.
- `chaos_meter.dfy` (module `ChaosMeter`). It models the six mood glyphs and
  labels, and the bounce test.
- `bands.dfy` (module `Bands`). It gives a reference meaning for an ascending
  if-chain of thresholds: the band index is the number of thresholds the score
  has reached. Both classifiers are proved against it.
- `wrappers.dfy`: `Option`, used for `undefined` and for the storage slot.

Two behaviours of the code are worth stating:

- Loading history calls `JSON.parse` without a guard, so a corrupt stored value
  throws. It does not fall back to an empty history.
- The emoji effect has no request identity. A fetch that settles late for an
  earlier emoji still commits: `AnimatedEmoji.Settle` accepts any outcome.
  Stale results are not discarded.

## Model

| member | source | states |
|---|---|---|
| `Tracker.Metrics.With` | frontend/app/page.tsx:137-143 | a slider update changes exactly its own reading and keeps the other four |
| `Tracker.WithInRange` | frontend/app/page.tsx:137-143 | a slider update with a value in [0,100] keeps all five readings in [0,100] |
| `Tracker.MathRound` | frontend/app/page.tsx:47-49 | `Math.round` gives the integer r with r - 1/2 <= x < r + 1/2, so halves round up |
| `Tracker.Score` | frontend/app/page.tsx:47-49 | `Math.round` of the mean is the integer nearest to the mean (halves up) and equals (sum + 2) div 5 |
| `Tracker.RoundHalfUpOfFifth` | frontend/app/page.tsx:47-49 | for an integer sum, floor(sum/5 + 1/2) is (sum + 2) div 5 |
| `Tracker.ScoreInRange` | frontend/app/page.tsx:137-143 | readings in [0,100] give a score in [0,100] |
| `Tracker.ScoreMonotone` | frontend/app/page.tsx:47-49 | raising any one reading never lowers the score |
| `Tracker.ScoreExamples` | frontend/app/page.tsx:47-49 | all 0 gives 0, all 100 gives 100, 10..50 gives 30, all 40 gives 40 |
| `Tracker.Take` | frontend/app/page.tsx:79 | `slice(0, n)` keeps min(n, length) elements, each the original at its index |
| `Tracker.Prepend` | frontend/app/page.tsx:79 | the new entry is first, the length is min(old + 1, 10), and entry i is old entry i-1 |
| `Tracker.PrependFullEvictsOldest` | frontend/app/page.tsx:79 | a full history loses exactly its index-9 entry and keeps the rest unaltered |
| `Tracker.PrependShortKeepsAll` | frontend/app/page.tsx:79 | a history shorter than ten loses nothing |
| `Tracker.SaveAll` | frontend/app/page.tsx:79 | after one or more saves, or from a history of at most ten, the history holds at most ten entries |
| `Tracker.SaveAllBounded` | frontend/app/page.tsx:79 | any run of saves leaves at most ten entries, grows by one per save up to ten, and starts with the last saved entry |
| `Tracker.HotMessTracker.ChaosScore` | frontend/app/page.tsx:47-49 | the displayed score is the score of the current readings, and for valid readings it lies in [0,100] |
| `Tracker.HotMessTracker.constructor` | frontend/app/page.tsx:26-44 | mount: readings zero, no message, history taken from the storage slot when it holds one, otherwise empty |
| `Tracker.HotMessTracker.SetMetric` | frontend/app/page.tsx:137-143 | a slider value in [0,100] replaces one reading; history, storage and message are unchanged |
| `Tracker.HotMessTracker.Save` | frontend/app/page.tsx:64-87 | the history gains an entry with the chosen message, the current score and a copy of the readings, capped at ten; storage then equals the history; the message shows; the readings are unchanged |
| `Tracker.HotMessTracker.Reset` | frontend/app/page.tsx:89-98 | all readings become 0, so the score is 0; the message is hidden; history and storage are unchanged |
| `Tracker.SaveAtForty` | frontend/app/page.tsx:64-81 | five sliders at 40 then Save: the new entry scores 40, holds the readings, carries a message from the fixed list, and the history grows by one, or stays at ten when already full |
| `Emoji.Utf16` | frontend/components/animated-emoji.tsx:13-18 | one scalar becomes one unit, or a high-low surrogate pair above 0xFFFF; no other scalar yields U+FE0F |
| `Emoji.CodePointAt` | frontend/components/animated-emoji.tsx:14-15 | the result exceeds 0xFFFF exactly when a high surrogate is followed by a low one; otherwise it is the unit itself |
| `Emoji.Utf16RoundTrip` | frontend/components/animated-emoji.tsx:14-18 | decoding the first code point of an encoded scalar gives the scalar back, whatever follows |
| `Emoji.StripVariationSelectors` | frontend/components/animated-emoji.tsx:9 | the cleaned string holds no U+FE0F and is no longer than the input |
| `Emoji.StripAppend` | frontend/components/animated-emoji.tsx:9 | cleaning distributes over concatenation (units are removed one by one, order kept) |
| `Emoji.StripKeepsOthers` | frontend/components/animated-emoji.tsx:9 | a string without U+FE0F is kept whole and in order |
| `Emoji.StripIdempotent` | frontend/components/animated-emoji.tsx:9 | cleaning twice equals cleaning once |
| `Emoji.StripIgnoresSelector` | frontend/components/animated-emoji.tsx:8-9 | a U+FE0F inserted anywhere is removed by cleaning |
| `Emoji.HexDigit` | frontend/components/animated-emoji.tsx:17-20 | each digit value below 16 has one lower-case hex digit, which reads back as that value |
| `Emoji.Hex` | frontend/components/animated-emoji.tsx:17-20 | `toString(16)` gives a non-empty string of `0-9a-f`, with no leading zero for a positive number |
| `Emoji.HexRoundTrip` | frontend/components/animated-emoji.tsx:17-20 | reading the hex string back gives the number |
| `Emoji.HexInjective` | frontend/components/animated-emoji.tsx:17-20 | different code points give different hex strings |
| `Emoji.DecodeFrom` | frontend/components/animated-emoji.tsx:12-22 | the loop pushes only code points in (0, 0x10FFFF]: pairs are joined, zero is skipped |
| `Emoji.DecodeAdvance` | frontend/components/animated-emoji.tsx:13-21 | one loop turn: a pair adds its code point and skips two units, a non-zero unit adds itself, a zero unit adds nothing |
| `Emoji.UnicodeKey` | frontend/components/animated-emoji.tsx:7-26 | the key is `0-9a-f` only, with no leading zero |
| `Emoji.EmojiToUnicode` | frontend/components/animated-emoji.tsx:7-26 | the loop over the cleaned string returns exactly the key: the hex of the first non-zero code point, or "" |
| `Emoji.KeyOfLeadingCodePoint` | frontend/components/animated-emoji.tsx:24-25 | for an encoded non-zero scalar followed by anything, the key is that scalar's hex; later code points never matter |
| `Emoji.KeyIgnoresSelector` | frontend/components/animated-emoji.tsx:8-9 | inserting or removing U+FE0F anywhere leaves the key unchanged |
| `Emoji.KeysDistinguishCodePoints` | frontend/components/animated-emoji.tsx:24-25 | emojis that start with different scalars get different keys |
| `Emoji.ToLower` | frontend/components/animated-emoji.tsx:35 | lower-casing keeps the length |
| `Emoji.ToLowerOnHex` | frontend/components/animated-emoji.tsx:35 | lower-casing a key is a no-op |
| `Emoji.AnimationUrl` | frontend/components/animated-emoji.tsx:29-37 | the URL is "" exactly when the key is empty; otherwise it is the fixed prefix, the key and `/lottie.json` |
| `Emoji.UrlDeterminesKey` | frontend/components/animated-emoji.tsx:29-37 | the key can be read back from a non-empty URL |
| `Emoji.UrlInjective` | frontend/components/animated-emoji.tsx:29-37 | distinct non-empty keys give distinct URLs |
| `Emoji.Truthy` | frontend/components/animated-emoji.tsx:78 | a parsed JSON value is falsy exactly when it is null, false, 0 or the empty string |
| `Emoji.Property` | frontend/components/animated-emoji.tsx:78 | a property is defined only on an object that has that member |
| `Emoji.IsLottie` | frontend/components/animated-emoji.tsx:78 | a payload is accepted exactly when it is an object with a truthy `v` or an `fr` member of any value |
| `Emoji.LottieExamples` | frontend/components/animated-emoji.tsx:78 | `{v:"5.7.4"}`, `{fr:0}` and `{fr:null}` are accepted; `{v:""}`, `null` and an array are not |
| `Emoji.AnimatedEmoji.Render` | frontend/components/animated-emoji.tsx:91-98 | the glyph is shown exactly when an error is set or no data is held; an animation is always an accepted payload |
| `Emoji.AnimatedEmoji.constructor` | frontend/components/animated-emoji.tsx:54-62 | mount: no data; the error is set exactly when the URL is empty; the glyph is shown |
| `Emoji.AnimatedEmoji.ReceiveEmoji` | frontend/components/animated-emoji.tsx:47-56 | a new emoji prop keeps the previous data and error until the effect runs |
| `Emoji.AnimatedEmoji.Effect` | frontend/components/animated-emoji.tsx:58-66 | an empty URL sets the error at once; otherwise data and error are cleared; either way the glyph shows |
| `Emoji.AnimatedEmoji.Settle` | frontend/components/animated-emoji.tsx:69-88 | an accepted payload is held and animated; a network failure, HTTP error, unparsable body or rejected payload sets the error and shows the glyph |
| `Bands.Band` | frontend/components/history-card.tsx:23-28 | the band index is at most the number of thresholds |
| `Bands.BandMonotone` | frontend/components/chaos-meter.tsx:19-35 | a higher score never reaches fewer thresholds |
| `Bands.BandIsFirstUnreached` | frontend/components/history-card.tsx:23-28 | over ascending thresholds, the band index is the first threshold the score is below, as an if-chain picks |
| `Bands.BandIs` | frontend/components/history-card.tsx:23-28 | that index is unique |
| `HistoryCard.CardBand` | frontend/components/history-card.tsx:23-35 | the card's band index is 0 below 20, 1 below 40, 2 below 60, and 3 otherwise |
| `HistoryCard.ScoreColor` | frontend/components/history-card.tsx:23-28 | the colour is the class of the score's band over thresholds 20/40/60 |
| `HistoryCard.ScoreBg` | frontend/components/history-card.tsx:30-35 | the background is the class of the same band |
| `HistoryCard.ScoreColorBands` | frontend/components/history-card.tsx:23-28 | accent iff < 20, primary iff in [20,40), secondary iff in [40,60), destructive iff ≥ 60 |
| `HistoryCard.ColorIsExactlyOne` | frontend/components/history-card.tsx:23-28 | every score picks exactly one of the four colours |
| `HistoryCard.ColorAndBgAgree` | frontend/components/history-card.tsx:23-35 | colour and background always pick the same band |
| `HistoryCard.ColorBandMonotone` | frontend/components/history-card.tsx:23-28 | a higher score never gets an earlier colour band |
| `HistoryCard.GlyphKey` | frontend/components/history-card.tsx:59-63 | a glyph that starts with an encoded scalar is keyed by that scalar, and its URL is non-empty |
| `HistoryCard.CarKey` | frontend/components/history-card.tsx:59 | 🚗 has key `1f697` |
| `HistoryCard.CalendarKey` | frontend/components/history-card.tsx:60 | 📅 has key `1f4c5` |
| `HistoryCard.AlarmClockKey` | frontend/components/history-card.tsx:61 | ⏰ has key `23f0` |
| `HistoryCard.CouchKey` | frontend/components/history-card.tsx:62 | 🛋️ has key `1f6cb`, the same with or without its selector |
| `HistoryCard.HotBeverageKey` | frontend/components/history-card.tsx:63 | ☕ has key `2615` |
| `HistoryCard.MetricGlyphUrls` | frontend/components/history-card.tsx:59-63 | none of the five glyphs takes the empty-URL error path |
| `ChaosMeter.MeterBand` | frontend/components/chaos-meter.tsx:19-35 | for a score ≥ 0, the band index is 0 at 0, then 1..5 below 20/40/60/80 and above |
| `ChaosMeter.GetEmoji` | frontend/components/chaos-meter.tsx:19-26 | the glyph is the one of the score's band; a negative score gets the second glyph |
| `ChaosMeter.GetMessage` | frontend/components/chaos-meter.tsx:28-35 | the label is the one of the score's band; a negative score gets 'Slightly Spicy' |
| `ChaosMeter.MessageBands` | frontend/components/chaos-meter.tsx:28-35 | 'Zen Master' iff 0, 'Slightly Spicy' iff < 0 or 1..19, 'Warming Up' iff 20..39, 'Getting Toasty' iff 40..59, 'Full Chaos Mode' iff 60..79, 'ABSOLUTE INFERNO' iff ≥ 80 |
| `ChaosMeter.EmojiAndMessageAgree` | frontend/components/chaos-meter.tsx:19-35 | glyph and label always pick the same band |
| `ChaosMeter.MessageBandMonotone` | frontend/components/chaos-meter.tsx:28-35 | on scores ≥ 0, a higher score never gets an earlier label |
| `ChaosMeter.Bounces` | frontend/components/chaos-meter.tsx:45 | a bouncing glyph always carries the 'Full Chaos Mode' or 'ABSOLUTE INFERNO' label |
| `ChaosMeter.BounceIffChaosBand` | frontend/components/chaos-meter.tsx:45 | the glyph bounces iff the score is in the top two bands and is not 60; 60 is 'Full Chaos Mode' without bounce |
| `ChaosMeter.MeterOfPageScore` | frontend/components/chaos-meter.tsx:19-35 | every score the page computes from valid readings is classified by the meter's band index |

## Left out

- Rendering is not modelled: JSX, styling, the Card, Slider and Button widgets, and the Lottie player with its loop and autoplay flags (frontend/components/animated-emoji.tsx:100-115). This is presentation and library code.
- The network fetch is not modelled. Its outcome is the parameter of `AnimatedEmoji.Settle`. Any number of fetches may be in flight, and any of them may settle at any time. A stale-request guard is not proved, because the code has none.
- Storage I/O is not modelled. `JSON.stringify`/`JSON.parse` are taken as lossless: the slot holds the history value itself. A `localStorage.setItem` failure and the exception from parsing a corrupt value are not modelled. An empty-string slot, which `if (saved)` skips, is also not modelled.
- `Math.random` is not modelled. The message index is a parameter of `Save` in [0, 10).
- `toLocaleDateString` is not modelled. The date text is an opaque parameter of `Save`.
- Timers are not modelled: the 5-second message hide (frontend/app/page.tsx:86) and the delayed `displayScore` update of the meter (frontend/components/chaos-meter.tsx:12-17).
- The `Math.sin` rotation above 80 is not modelled, because it is floating-point animation.
- `ChaosMeter.GetEmoji`: the six glyph literals in the source are mis-encoded text. They are modelled as six distinct opaque constants, not as their character data.
- `Emoji.ToLower`: lower-cases ASCII letters only, not all of Unicode. It is only ever applied to hex keys, where both are the identity.
- `console.warn` on a failed load is not modelled, because it is logging only.
