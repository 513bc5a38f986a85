/**
 * The second colour parser of the program, helpers/color.ts: `hexToRGBA`
 * reads a hexadecimal colour into four channels with alpha 1. Unlike the codec
 * of lib/color/index.ts, it demands the leading `#`.
 */
module ColorHelpers {
  import opened Wrappers
  import opened Color

  /** A colour with alpha, the four floats of the source's `Float32Array`. */
  datatype RGBA = RGBA(r: real, g: real, b: real, a: real)

  const BLACK_RGBA: RGBA := RGBA(0.0, 0.0, 0.0, 1.0)
  const WHITE_RGBA: RGBA := RGBA(1.0, 1.0, 1.0, 1.0)

  /** `HEX`: `#` and exactly six hexadecimal digits. */
  predicate MatchesHashHex(s: string) {
    |s| == 7 && s[0] == '#' && AllHex(s[1..])
  }

  /** `HEX_SHORT`: `#` and exactly three hexadecimal digits. */
  predicate MatchesHashHexShort(s: string) {
    |s| == 4 && s[0] == '#' && AllHex(s[1..])
  }

  /**
   * `hexToRGBA`: the long pattern first, then the short one, whose single
   * digits are doubled before `parseInt(…, 16)`; each value is divided by 255
   * and alpha 1 is appended.
   */
  function HexToRGBA(s: string): (c: Option<RGBA>)
    ensures c.Some? ==> c.value.a == 1.0
    ensures c.Some? ==> 0.0 <= c.value.r <= 1.0 && 0.0 <= c.value.g <= 1.0 && 0.0 <= c.value.b <= 1.0
    ensures (|s| == 0 || s[0] != '#') ==> c.None?
  {
    if MatchesHashHex(s) then
      assert IsHexDigit(s[1..][0]) && IsHexDigit(s[1..][1]) && IsHexDigit(s[1..][2]);
      assert IsHexDigit(s[1..][3]) && IsHexDigit(s[1..][4]) && IsHexDigit(s[1..][5]);
      Some(RGBA(PairValue(s[1], s[2]) as real / 255.0,
                PairValue(s[3], s[4]) as real / 255.0,
                PairValue(s[5], s[6]) as real / 255.0,
                1.0))
    else if MatchesHashHexShort(s) then
      assert IsHexDigit(s[1..][0]) && IsHexDigit(s[1..][1]) && IsHexDigit(s[1..][2]);
      Some(RGBA(PairValue(s[1], s[1]) as real / 255.0,
                PairValue(s[2], s[2]) as real / 255.0,
                PairValue(s[3], s[3]) as real / 255.0,
                1.0))
    else None
  }

  /** The colour with alpha 1 appended. */
  function WithAlpha(c: RGB): RGBA {
    RGBA(c.r, c.g, c.b, 1.0)
  }

  // ---------------------------------------------------------------------------
  // Properties
  // ---------------------------------------------------------------------------

  /**
   * On a string that starts with `#`, `hexToRGBA` agrees with the hex branch
   * of `toRGB` and adds alpha 1; anything else it rejects.
   */
  lemma HexToRGBAOfParseHex(s: string)
    ensures HexToRGBA(s) ==
      if |s| > 0 && s[0] == '#' then
        (match ParseHex(s) case Some(c) => Some(WithAlpha(c)) case None => None)
      else None
  {
    if |s| > 0 && s[0] == '#' {
      assert AfterHash(s) == s[1..];
      assert MatchesHashHex(s) <==> MatchesHex(s);
      assert MatchesHashHexShort(s) <==> MatchesHexShort(s);
    }
  }

  /** `#` and six digits map each pair of digits to `n / 255`. */
  lemma LongFormPairs(d: string)
    requires |d| == 6 && AllHex(d)
    ensures HexToRGBA("#" + d) ==
      Some(RGBA(PairValue(d[0], d[1]) as real / 255.0,
                PairValue(d[2], d[3]) as real / 255.0,
                PairValue(d[4], d[5]) as real / 255.0,
                1.0))
  {
    var s := "#" + d;
    assert s[1..] == d;
    assert MatchesHashHex(s);
  }

  /** `#` and three digits read as if each digit were written twice. */
  lemma ShortFormDoubles(d: string)
    requires |d| == 3 && AllHex(d)
    ensures HexToRGBA("#" + d) == HexToRGBA("#" + [d[0], d[0], d[1], d[1], d[2], d[2]])
  {
    var s := "#" + d;
    var long := [d[0], d[0], d[1], d[1], d[2], d[2]];
    var t := "#" + long;
    assert s[1..] == d;
    assert t[1..] == long;
    assert AllHex(long);
    assert MatchesHashHexShort(s) && !MatchesHashHex(s);
    assert MatchesHashHex(t);
  }

  /** A hexadecimal colour without `#`, accepted by the codec, is refused here. */
  lemma HashRequired(d: string)
    requires |d| == 6 && AllHex(d)
    ensures HexToRGBA(d) == None
    ensures ParseHex(d).Some?
  {
    assert IsHexDigit(d[0]);
    assert AfterHash(d) == d;
  }
}
