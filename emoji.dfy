/**
 * The animated emoji component: an emoji string (UTF-16 code units) is
 * turned into the lower-case hexadecimal of its first code point, that key
 * into a Noto Emoji Animation URL, and a fetched Lottie payload is accepted
 * or the plain glyph is shown instead.
 */
module Emoji {
  import opened Wrappers

  /** A UTF-16 code unit, the element of a JavaScript string. */
  type Unit = u: int | 0 <= u < 0x1_0000

  /** U+FE0F VARIATION SELECTOR-16, removed before the key is derived. */
  const VariationSelector: Unit := 0xFE0F

  predicate IsHighSurrogate(u: int) { 0xD800 <= u <= 0xDBFF }
  predicate IsLowSurrogate(u: int) { 0xDC00 <= u <= 0xDFFF }

  /** A Unicode scalar value: a code point that is not a surrogate. */
  predicate IsScalar(cp: int) { 0 <= cp <= 0x10FFFF && !(0xD800 <= cp <= 0xDFFF) }

  // ---------------------------------------------------------------------------
  // UTF-16

  /** The UTF-16 encoding of one scalar value: one unit, or a surrogate pair. */
  function Utf16(cp: int): (u: seq<Unit>)
    requires IsScalar(cp)
    ensures |u| == if cp > 0xFFFF then 2 else 1
    ensures cp > 0xFFFF ==> IsHighSurrogate(u[0]) && IsLowSurrogate(u[1])
    ensures VariationSelector !in u || cp == VariationSelector as int
  {
    if cp <= 0xFFFF then [cp]
    else
      var v := cp - 0x1_0000;
      [0xD800 + v / 0x400, 0xDC00 + v % 0x400]
  }

  /**
   * `s.codePointAt(i)`: a high surrogate followed by a low surrogate is
   * joined into one code point above 0xFFFF; any other unit, a lone
   * surrogate included, is its own code point.
   */
  function CodePointAt(s: seq<Unit>, i: nat): (c: nat)
    requires i < |s|
    ensures c > 0xFFFF <==> i + 1 < |s| && IsHighSurrogate(s[i]) && IsLowSurrogate(s[i + 1])
    ensures c <= 0x10FFFF
    ensures c <= 0xFFFF ==> c == s[i]
  {
    if IsHighSurrogate(s[i]) && i + 1 < |s| && IsLowSurrogate(s[i + 1]) then
      (s[i] as int - 0xD800) * 0x400 + (s[i + 1] as int - 0xDC00) + 0x1_0000
    else
      s[i]
  }

  /** Reading back the first code point of an encoded scalar gives the scalar, whatever follows. */
  lemma Utf16RoundTrip(cp: int, rest: seq<Unit>)
    requires IsScalar(cp)
    ensures CodePointAt(Utf16(cp) + rest, 0) == cp
  {
    var s := Utf16(cp) + rest;
    if cp > 0xFFFF {
      var v := cp - 0x1_0000;
      assert s[0] == 0xD800 + v / 0x400 && s[1] == 0xDC00 + v % 0x400;
      assert (v / 0x400) * 0x400 + v % 0x400 == v;
    }
  }

  // ---------------------------------------------------------------------------
  // Removing variation selectors: `replace(/\uFE0F/g, '')`

  function StripVariationSelectors(s: seq<Unit>): (r: seq<Unit>)
    ensures |r| <= |s|
    ensures VariationSelector !in r
  {
    if s == [] then []
    else (if s[0] == VariationSelector then [] else [s[0]]) + StripVariationSelectors(s[1..])
  }

  /** Stripping works unit by unit, so it distributes over concatenation. */
  lemma {:induction false} StripAppend(a: seq<Unit>, b: seq<Unit>)
    ensures StripVariationSelectors(a + b) == StripVariationSelectors(a) + StripVariationSelectors(b)
  {
    if a != [] {
      assert (a + b)[0] == a[0] && (a + b)[1..] == a[1..] + b;
      StripAppend(a[1..], b);
    } else {
      assert a + b == b;
    }
  }

  /** A string without selectors is kept whole, every unit in order. */
  lemma {:induction false} StripKeepsOthers(s: seq<Unit>)
    requires VariationSelector !in s
    ensures StripVariationSelectors(s) == s
  {
    if s != [] {
      StripKeepsOthers(s[1..]);
    }
  }

  /** Cleaning twice is cleaning once. */
  lemma StripIdempotent(s: seq<Unit>)
    ensures StripVariationSelectors(StripVariationSelectors(s)) == StripVariationSelectors(s)
  {
    StripKeepsOthers(StripVariationSelectors(s));
  }

  /** A selector inserted anywhere disappears in cleaning. */
  lemma StripIgnoresSelector(a: seq<Unit>, b: seq<Unit>)
    ensures StripVariationSelectors(a + [VariationSelector] + b) == StripVariationSelectors(a + b)
  {
    var sel: seq<Unit> := [VariationSelector];
    assert StripVariationSelectors(sel) == [] by {
      assert sel[1..] == [];
    }
    StripAppend(a, sel);
    assert StripVariationSelectors(a + sel) == StripVariationSelectors(a);
    StripAppend(a + sel, b);
    StripAppend(a, b);
  }

  // ---------------------------------------------------------------------------
  // Hexadecimal: `code.toString(16)`

  predicate IsHexDigit(c: char) { '0' <= c <= '9' || 'a' <= c <= 'f' }

  predicate IsHex(s: string) { forall k :: 0 <= k < |s| ==> IsHexDigit(s[k]) }

  function DigitValue(c: char): (d: nat)
    requires IsHexDigit(c)
    ensures d < 16
  {
    if c <= '9' then c as int - '0' as int else c as int - 'a' as int + 10
  }

  function HexDigit(d: nat): (c: char)
    requires d < 16
    ensures IsHexDigit(c) && DigitValue(c) == d
  {
    if d < 10 then ('0' as int + d) as char else ('a' as int + d - 10) as char
  }

  /** Lower-case hexadecimal without leading zeros. */
  function Hex(n: nat): (s: string)
    ensures |s| >= 1 && IsHex(s)
    ensures n > 0 ==> s[0] != '0'
    decreases n
  {
    if n < 16 then [HexDigit(n)] else Hex(n / 16) + [HexDigit(n % 16)]
  }

  /** The number a hexadecimal string denotes. */
  function HexValue(s: string): nat
    requires IsHex(s)
    decreases |s|
  {
    if s == [] then 0 else 16 * HexValue(s[..|s| - 1]) + DigitValue(s[|s| - 1])
  }

  lemma {:induction false} HexRoundTrip(n: nat)
    ensures HexValue(Hex(n)) == n
    decreases n
  {
    if n >= 16 {
      HexRoundTrip(n / 16);
      var s := Hex(n);
      assert s[..|s| - 1] == Hex(n / 16);
    }
  }

  /** Different code points have different hexadecimal keys. */
  lemma HexInjective(a: nat, b: nat)
    requires Hex(a) == Hex(b)
    ensures a == b
  {
    HexRoundTrip(a);
    HexRoundTrip(b);
  }

  // ---------------------------------------------------------------------------
  // The key: `emojiToUnicode`

  /**
   * The code points the loop pushes from unit i on: a surrogate pair gives
   * one code point and both its units are consumed; a zero code point is
   * falsy and is skipped.
   */
  function DecodeFrom(s: seq<Unit>, i: nat): (cps: seq<nat>)
    requires i <= |s|
    ensures forall k :: 0 <= k < |cps| ==> 0 < cps[k] <= 0x10FFFF
    decreases |s| - i
  {
    if i == |s| then []
    else
      var code := CodePointAt(s, i);
      if code > 0xFFFF then [code] + DecodeFrom(s, i + 2)
      else if code != 0 then [code] + DecodeFrom(s, i + 1)
      else DecodeFrom(s, i + 1)
  }

  /**
   * The key of an emoji: the hexadecimal of the first non-zero code point of
   * the cleaned string, or "" when there is none. It is made of lower-case
   * hexadecimal digits only, without a leading zero.
   */
  function UnicodeKey(emoji: seq<Unit>): (key: string)
    ensures IsHex(key)
    ensures key != "" ==> key[0] != '0'
  {
    var cps := DecodeFrom(StripVariationSelectors(emoji), 0);
    if cps == [] then "" else Hex(cps[0])
  }

  /**
   * One turn of the decoding loop: with `decoded` holding the code points
   * before position i, the code point at i (if non-zero) joins them and the
   * scan resumes after its one or two units.
   */
  lemma DecodeAdvance(s: seq<Unit>, i: nat, decoded: seq<nat>)
    requires i < |s|
    requires DecodeFrom(s, 0) == decoded + DecodeFrom(s, i)
    ensures CodePointAt(s, i) > 0xFFFF ==>
      i + 2 <= |s| && DecodeFrom(s, 0) == (decoded + [CodePointAt(s, i)]) + DecodeFrom(s, i + 2)
    ensures 0 < CodePointAt(s, i) <= 0xFFFF ==>
      DecodeFrom(s, 0) == (decoded + [CodePointAt(s, i)]) + DecodeFrom(s, i + 1)
    ensures CodePointAt(s, i) == 0 ==> DecodeFrom(s, 0) == decoded + DecodeFrom(s, i + 1)
  {
    var c := CodePointAt(s, i);
    if c > 0xFFFF {
      assert DecodeFrom(s, i) == [c] + DecodeFrom(s, i + 2);
    } else if c != 0 {
      assert DecodeFrom(s, i) == [c] + DecodeFrom(s, i + 1);
    }
  }

  /** The loop of `emojiToUnicode`, collecting every code point and returning the first. */
  method EmojiToUnicode(emoji: seq<Unit>) returns (key: string)
    ensures key == UnicodeKey(emoji)
  {
    var clean := StripVariationSelectors(emoji);
    ghost var decoded: seq<nat> := [];
    var codePoints: seq<string> := [];
    var i := 0;
    while i < |clean|
      invariant 0 <= i <= |clean|
      invariant DecodeFrom(clean, 0) == decoded + DecodeFrom(clean, i)
      invariant |codePoints| == |decoded|
      invariant codePoints != [] ==> codePoints[0] == Hex(decoded[0])
      decreases |clean| - i
    {
      DecodeAdvance(clean, i, decoded);
      var code := CodePointAt(clean, i);
      if code != 0 && code > 0xFFFF {
        codePoints := codePoints + [Hex(code)];
        decoded := decoded + [code];
        i := i + 1;
      } else if code != 0 {
        codePoints := codePoints + [Hex(code)];
        decoded := decoded + [code];
      }
      i := i + 1;
    }
    key := if codePoints != [] then codePoints[0] else "";
  }

  /**
   * The first code point decides the key: whatever follows an encoded
   * non-zero scalar (other than the selector itself), the key is that
   * scalar's hexadecimal.
   */
  lemma KeyOfLeadingCodePoint(cp: int, rest: seq<Unit>)
    requires IsScalar(cp) && cp != 0 && cp != VariationSelector as int
    ensures UnicodeKey(Utf16(cp) + rest) == Hex(cp)
  {
    var u := Utf16(cp);
    StripAppend(u, rest);
    StripKeepsOthers(u);
    var clean := u + StripVariationSelectors(rest);
    Utf16RoundTrip(cp, StripVariationSelectors(rest));
    assert DecodeFrom(clean, 0)[0] == cp;
  }

  /** Adding or removing a variation selector anywhere leaves the key unchanged. */
  lemma KeyIgnoresSelector(a: seq<Unit>, b: seq<Unit>)
    ensures UnicodeKey(a + [VariationSelector] + b) == UnicodeKey(a + b)
  {
    StripIgnoresSelector(a, b);
  }

  /** Emojis whose first code points differ have different keys. */
  lemma KeysDistinguishCodePoints(cp1: int, rest1: seq<Unit>, cp2: int, rest2: seq<Unit>)
    requires IsScalar(cp1) && cp1 != 0 && cp1 != VariationSelector as int
    requires IsScalar(cp2) && cp2 != 0 && cp2 != VariationSelector as int
    requires cp1 != cp2
    ensures UnicodeKey(Utf16(cp1) + rest1) != UnicodeKey(Utf16(cp2) + rest2)
  {
    KeyOfLeadingCodePoint(cp1, rest1);
    KeyOfLeadingCodePoint(cp2, rest2);
    if Hex(cp1) == Hex(cp2) {
      HexInjective(cp1, cp2);
    }
  }

  // ---------------------------------------------------------------------------
  // The URL: `getAnimationUrl`

  const UrlPrefix := "https://fonts.gstatic.com/s/e/notoemoji/latest/"
  const UrlSuffix := "/lottie.json"

  /** `toLowerCase` on the ASCII letters, the only letters a key can hold. */
  function ToLower(s: string): (r: string)
    ensures |r| == |s|
  {
    if s == [] then []
    else [if 'A' <= s[0] <= 'Z' then (s[0] as int + 32) as char else s[0]] + ToLower(s[1..])
  }

  /** Lower-casing a hexadecimal key changes nothing. */
  lemma {:induction false} ToLowerOnHex(s: string)
    requires IsHex(s)
    ensures ToLower(s) == s
  {
    if s != [] {
      ToLowerOnHex(s[1..]);
    }
  }

  /**
   * The animation URL of an emoji: "" exactly when its key is empty,
   * otherwise the fixed prefix, the key and `/lottie.json`.
   */
  function AnimationUrl(emoji: seq<Unit>): (url: string)
    ensures url == "" <==> UnicodeKey(emoji) == ""
    ensures url != "" ==> url == UrlPrefix + UnicodeKey(emoji) + UrlSuffix
  {
    var unicode := UnicodeKey(emoji);
    if unicode == "" then ""
    else
      ToLowerOnHex(unicode);
      UrlPrefix + ToLower(unicode) + UrlSuffix
  }

  /** The key a non-empty animation URL was built from. */
  function KeyOfUrl(url: string): string
    requires |UrlPrefix| + |UrlSuffix| <= |url|
  {
    url[|UrlPrefix|..|url| - |UrlSuffix|]
  }

  /** The URL gives back its key, so distinct keys give distinct URLs. */
  lemma UrlDeterminesKey(emoji: seq<Unit>)
    requires AnimationUrl(emoji) != ""
    ensures |UrlPrefix| + |UrlSuffix| <= |AnimationUrl(emoji)|
    ensures KeyOfUrl(AnimationUrl(emoji)) == UnicodeKey(emoji)
  {
    var key := UnicodeKey(emoji);
    var url := UrlPrefix + key + UrlSuffix;
    assert url[|UrlPrefix|..|url| - |UrlSuffix|] == key;
  }

  lemma UrlInjective(e1: seq<Unit>, e2: seq<Unit>)
    requires UnicodeKey(e1) != "" && UnicodeKey(e1) != UnicodeKey(e2)
    ensures AnimationUrl(e1) != AnimationUrl(e2)
  {
    UrlDeterminesKey(e1);
    if AnimationUrl(e2) != "" {
      UrlDeterminesKey(e2);
    }
  }

  // ---------------------------------------------------------------------------
  // The payload: what `response.json()` yields, and the Lottie check

  datatype JsonValue =
    | JNull
    | JBool(b: bool)
    | JNumber(n: real)
    | JString(s: string)
    | JArray(items: seq<JsonValue>)
    | JObject(members: map<string, JsonValue>)

  /**
   * JavaScript truthiness of a parsed JSON value: the falsy ones are null,
   * false, zero and the empty string (JSON has no NaN and no undefined).
   */
  function Truthy(v: JsonValue): (b: bool)
    ensures !b <==> v in {JNull, JBool(false), JNumber(0.0), JString("")}
  {
    match v
    case JNull => false
    case JBool(b) => b
    case JNumber(n) => n != 0.0
    case JString(s) => s != ""
    case JArray(_) => true
    case JObject(_) => true
  }

  /** `value.key`: only objects have the properties `v` and `fr`; None is `undefined`. */
  function Property(v: JsonValue, key: string): (r: Option<JsonValue>)
    ensures r.Some? <==> v.JObject? && key in v.members
  {
    if v.JObject? && key in v.members then Some(v.members[key]) else None
  }

  /**
   * `data && (data.v || data.fr !== undefined)`: accepted exactly when the
   * payload is an object with a truthy `v` or with an `fr` member of any value.
   */
  predicate IsLottie(data: JsonValue)
    ensures IsLottie(data) <==>
      data.JObject? && (("v" in data.members && Truthy(data.members["v"])) || "fr" in data.members)
  {
    && Truthy(data)
    && (var v := Property(data, "v"); (v.Some? && Truthy(v.value)) || Property(data, "fr").Some?)
  }

  lemma LottieExamples()
    ensures IsLottie(JObject(map["v" := JString("5.7.4")]))
    ensures IsLottie(JObject(map["fr" := JNumber(0.0)]))
    ensures IsLottie(JObject(map["fr" := JNull]))
    ensures !IsLottie(JObject(map["v" := JString("")]))
    ensures !IsLottie(JNull)
    ensures !IsLottie(JArray([JObject(map["v" := JNumber(5.0)])]))
  {
  }

  // ---------------------------------------------------------------------------
  // The component state

  /** How the fetch started by the effect settles. */
  datatype FetchOutcome =
    | NetworkFailure
    | HttpError(status: int)   // `response.ok` is false
    | MalformedBody            // `response.json()` rejects
    | Payload(data: JsonValue)

  /** What the component renders. */
  datatype View = StaticGlyph(glyph: seq<Unit>) | Animation(data: JsonValue)

  class AnimatedEmoji {
    var emoji: seq<Unit>
    var animationData: Option<JsonValue>
    var error: bool

    /** Only accepted payloads are ever held. */
    ghost predicate Valid()
      reads this
    {
      animationData.Some? ==> IsLottie(animationData.value)
    }

    /**
     * The render: the plain glyph when an error is set or no data is held,
     * otherwise the held payload, which is always an accepted one.
     */
    function Render(): (v: View)
      reads this
      requires Valid()
      ensures v.StaticGlyph? <==> error || animationData.None?
      ensures v.StaticGlyph? ==> v.glyph == emoji
      ensures v.Animation? ==> IsLottie(v.data) && animationData == Some(v.data)
    {
      if error || animationData.None? then StaticGlyph(emoji) else Animation(animationData.value)
    }

    /** Mount: no data, no error, then the effect runs once. */
    constructor(emoji: seq<Unit>)
      ensures Valid() && this.emoji == emoji && animationData == None
      ensures error <==> AnimationUrl(emoji) == ""
      ensures Render() == StaticGlyph(emoji)
    {
      this.emoji := emoji;
      animationData := None;
      error := AnimationUrl(emoji) == "";
    }

    /**
     * A new `emoji` prop: the next render uses it with the state of the old
     * one (the effect has not run yet).
     */
    method ReceiveEmoji(e: seq<Unit>)
      requires Valid()
      modifies this
      ensures Valid() && emoji == e
      ensures animationData == old(animationData) && error == old(error)
    {
      emoji := e;
    }

    /**
     * The effect body: an empty URL sets the error at once; otherwise the
     * state is cleared before the fetch starts. Either way the glyph shows.
     */
    method Effect()
      requires Valid()
      modifies this
      ensures Valid() && emoji == old(emoji)
      ensures AnimationUrl(emoji) == "" ==> error && animationData == old(animationData)
      ensures AnimationUrl(emoji) != "" ==> !error && animationData == None
      ensures Render() == StaticGlyph(emoji)
    {
      if AnimationUrl(emoji) == "" {
        error := true;
        return;
      }
      animationData := None;
      error := false;
    }

    /**
     * A fetch settles: an accepted payload is held and shown, every other
     * outcome sets the error and leaves the glyph. Nothing identifies which
     * fetch is settling, so a late one for an earlier emoji commits too.
     */
    method Settle(outcome: FetchOutcome)
      requires Valid()
      modifies this
      ensures Valid() && emoji == old(emoji)
      ensures outcome.Payload? && IsLottie(outcome.data) ==>
        animationData == Some(outcome.data) && !error && Render() == Animation(outcome.data)
      ensures !(outcome.Payload? && IsLottie(outcome.data)) ==>
        error && animationData == old(animationData) && Render() == StaticGlyph(emoji)
    {
      match outcome
      case Payload(data) =>
        if IsLottie(data) {
          animationData := Some(data);
          error := false;
        } else {
          error := true;
        }
      case _ =>
        error := true;
    }
  }
}
