/**
 * The colour codec of lib/color/index.ts: parsing of hexadecimal and triplet
 * colour strings into RGB triples with channels in [0, 1], serialisation back
 * to strings, and the Euclidean distance between two colours.
 *
 * The regular expressions of the source are written out as predicates over the
 * string; JavaScript's `parseInt`, `parseFloat` and `toFixed` are the function
 * values of a `JsNumerics` record, and `NaN` is `None`.
 */
module Color {
  import opened Wrappers
  import opened Numerics

  /** A colour triple. */
  datatype RGB = RGB(r: real, g: real, b: real)

  /** The text formats of a colour. */
  datatype Format = Hex | Rgb | Arith | Pct

  const BLACK: RGB := RGB(0.0, 0.0, 0.0)
  const WHITE: RGB := RGB(1.0, 1.0, 1.0)
  const GRAY: RGB := RGB(0.5, 0.5, 0.5)
  const RED: RGB := RGB(1.0, 0.0, 0.0)
  const GREEN: RGB := RGB(0.0, 1.0, 0.0)
  const BLUE: RGB := RGB(0.0, 0.0, 1.0)

  predicate InUnitCube(c: RGB) {
    0.0 <= c.r <= 1.0 && 0.0 <= c.g <= 1.0 && 0.0 <= c.b <= 1.0
  }

  /**
   * JavaScript's number parsing and formatting. `parseInt` and `parseFloat`
   * answer `None` for `NaN`; `toFixed(x, d)` is `x.toFixed(d)`.
   */
  datatype JsNumerics = JsNumerics(
    parseInt: string -> Option<real>,
    parseFloat: string -> Option<real>,
    toFixed: (real, nat) -> string)

  // ---------------------------------------------------------------------------
  // Characters and strings
  // ---------------------------------------------------------------------------

  predicate IsHexDigit(c: char) {
    ('0' <= c <= '9') || ('A' <= c <= 'F') || ('a' <= c <= 'f')
  }

  predicate AllHex(s: string) {
    forall i :: 0 <= i < |s| ==> IsHexDigit(s[i])
  }

  /** The value of one hexadecimal digit, either case. */
  function HexValue(c: char): (v: nat)
    requires IsHexDigit(c)
    ensures v < 16
  {
    if '0' <= c <= '9' then c as int - '0' as int
    else if 'A' <= c <= 'F' then c as int - 'A' as int + 10
    else c as int - 'a' as int + 10
  }

  /** `parseInt` in base 16 of two digits. */
  function PairValue(hi: char, lo: char): (v: nat)
    requires IsHexDigit(hi) && IsHexDigit(lo)
    ensures v < 256
  {
    16 * HexValue(hi) + HexValue(lo)
  }

  /** The digit `Number.prototype.toString(16)` writes for `v`. */
  function LowerHexDigit(v: nat): (c: char)
    requires v < 16
    ensures IsHexDigit(c) && HexValue(c) == v
  {
    if v < 10 then ('0' as int + v) as char else ('a' as int + v - 10) as char
  }

  /** The upper-case digit for `v`. */
  function UpperHexDigit(v: nat): (c: char)
    requires v < 16
    ensures IsUpperHexDigit(c) && HexValue(c) == v
  {
    if v < 10 then ('0' as int + v) as char else ('A' as int + v - 10) as char
  }

  /** `toUpperCase` on the characters it can meet here: ASCII letters. */
  function UpperChar(c: char): char {
    if 'a' <= c <= 'z' then (c as int - 32) as char else c
  }

  function UpperString(s: string): string {
    seq(|s|, i requires 0 <= i < |s| => UpperChar(s[i]))
  }

  predicate IsUpperHexDigit(c: char) {
    ('0' <= c <= '9') || ('A' <= c <= 'F')
  }

  /** `String.prototype.padStart(n, pad)` with a one-character pad. */
  function PadStart(s: string, n: nat, pad: char): (r: string)
    ensures |r| == if |s| >= n then |s| else n
    ensures r[|r| - |s|..] == s
    ensures forall i :: 0 <= i < |r| - |s| ==> r[i] == pad
  {
    if |s| >= n then s else seq(n - |s|, _ => pad) + s
  }

  /** `n.toString(16)` of a natural number. */
  function HexNat(n: nat): (s: string)
    ensures |s| >= 1
    decreases n
  {
    if n < 16 then [LowerHexDigit(n)] else HexNat(n / 16) + [LowerHexDigit(n % 16)]
  }

  /** `n.toString(16)` of an integer. */
  function HexInt(n: int): string {
    if n < 0 then "-" + HexNat(-n) else HexNat(n)
  }

  function DecimalDigit(v: nat): char
    requires v < 10
  {
    "0123456789"[v]
  }

  function DecimalNat(n: nat): (s: string)
    ensures |s| >= 1
    decreases n
  {
    if n < 10 then [DecimalDigit(n)] else DecimalNat(n / 10) + [DecimalDigit(n % 10)]
  }

  /** `n.toString()` of an integer. */
  function DecimalInt(n: int): string {
    if n < 0 then "-" + DecimalNat(-n) else DecimalNat(n)
  }

  /** `Array.prototype.join(sep)` on strings. */
  function Join(parts: seq<string>, sep: string): string {
    if |parts| == 0 then ""
    else if |parts| == 1 then parts[0]
    else parts[0] + sep + Join(parts[1..], sep)
  }

  /** `String.prototype.split(sep)` with a one-character separator. */
  function Split(s: string, sep: char): (parts: seq<string>)
    ensures |parts| >= 1
    ensures forall k :: 0 <= k < |parts| ==> sep !in parts[k]
  {
    if |s| == 0 then [""]
    else
      var rest := Split(s[1..], sep);
      if s[0] == sep then [""] + rest else [[s[0]] + rest[0]] + rest[1..]
  }

  /** A string without the separator splits into itself alone. */
  lemma {:induction false} SplitWithoutSeparator(s: string, sep: char)
    requires sep !in s
    ensures Split(s, sep) == [s]
  {
    if |s| > 0 {
      SplitWithoutSeparator(s[1..], sep);
      assert [s[0]] + s[1..] == s;
    }
  }

  /** Splitting at the first separator. */
  lemma {:induction false} SplitAtSeparator(a: string, b: string, sep: char)
    requires sep !in a
    ensures Split(a + [sep] + b, sep) == [a] + Split(b, sep)
  {
    var s := a + [sep] + b;
    if |a| == 0 {
      assert s == [sep] + b;
      assert s[1..] == b;
    } else {
      assert s[1..] == a[1..] + [sep] + b;
      SplitAtSeparator(a[1..], b, sep);
      assert [a[0]] + a[1..] == a;
    }
  }

  /** `split` undoes `join` on pieces that do not hold the separator. */
  lemma {:induction false} SplitJoin(parts: seq<string>, sep: char)
    requires |parts| >= 1
    requires forall k :: 0 <= k < |parts| ==> sep !in parts[k]
    ensures Split(Join(parts, [sep]), sep) == parts
  {
    if |parts| == 1 {
      SplitWithoutSeparator(parts[0], sep);
    } else {
      SplitJoin(parts[1..], sep);
      SplitAtSeparator(parts[0], Join(parts[1..], [sep]), sep);
      assert [parts[0]] + parts[1..] == parts;
    }
  }

  /** `join` undoes `split`. */
  lemma {:induction false} JoinSplit(s: string, sep: char)
    ensures Join(Split(s, sep), [sep]) == s
  {
    if |s| > 0 {
      var rest := Split(s[1..], sep);
      JoinSplit(s[1..], sep);
      if s[0] == sep {
        assert Split(s, sep) == [""] + rest;
        assert ([""] + rest)[1..] == rest;
        assert [s[0]] + s[1..] == s;
      } else if |rest| == 1 {
        assert [s[0]] + s[1..] == s;
      } else {
        assert Split(s, sep)[1..] == rest[1..];
        assert Join(rest, [sep]) == rest[0] + [sep] + Join(rest[1..], [sep]);
        assert [s[0]] + s[1..] == s;
      }
    }
  }

  /** The characters of JavaScript's `\s`, which are also those `trim` removes. */
  predicate IsSpace(c: char) {
    var n := c as int;
    n == 0x09 || n == 0x0A || n == 0x0B || n == 0x0C || n == 0x0D || n == 0x20 ||
    n == 0xA0 || n == 0x1680 || (0x2000 <= n <= 0x200A) || n == 0x2028 || n == 0x2029 ||
    n == 0x202F || n == 0x205F || n == 0x3000 || n == 0xFEFF
  }

  /** The characters a regular-expression `.` does not match. */
  predicate IsLineTerminator(c: char) {
    var n := c as int;
    n == 0x0A || n == 0x0D || n == 0x2028 || n == 0x2029
  }

  function TrimStart(s: string): string {
    if |s| > 0 && IsSpace(s[0]) then TrimStart(s[1..]) else s
  }

  function TrimEnd(s: string): string {
    if |s| > 0 && IsSpace(s[|s| - 1]) then TrimEnd(s[..|s| - 1]) else s
  }

  /** `String.prototype.trim`. */
  function Trim(s: string): string {
    TrimEnd(TrimStart(s))
  }

  // ---------------------------------------------------------------------------
  // Hexadecimal colours (lib/color/index.ts:28, 31, 84-96)
  // ---------------------------------------------------------------------------

  /** What follows the optional `#` the patterns admit. */
  function AfterHash(s: string): string {
    if |s| > 0 && s[0] == '#' then s[1..] else s
  }

  /** `HEX`: an optional `#` and exactly six hexadecimal digits. */
  predicate MatchesHex(s: string) {
    var d := AfterHash(s); |d| == 6 && AllHex(d)
  }

  /** `HEX_SHORT`: an optional `#` and exactly three hexadecimal digits. */
  predicate MatchesHexShort(s: string) {
    var d := AfterHash(s); |d| == 3 && AllHex(d)
  }

  /** The `hex` branch of `toRGB`: the long form first, then the short form. */
  function ParseHex(s: string): (c: Option<RGB>)
    ensures c.Some? <==> MatchesHex(s) || MatchesHexShort(s)
    ensures c.Some? ==> InUnitCube(c.value)
  {
    var d := AfterHash(s);
    if MatchesHex(s) then
      Some(RGB(PairValue(d[0], d[1]) as real / 255.0,
               PairValue(d[2], d[3]) as real / 255.0,
               PairValue(d[4], d[5]) as real / 255.0))
    else if MatchesHexShort(s) then
      Some(RGB(PairValue(d[0], d[0]) as real / 255.0,
               PairValue(d[1], d[1]) as real / 255.0,
               PairValue(d[2], d[2]) as real / 255.0))
    else None
  }

  // ---------------------------------------------------------------------------
  // Triplets (lib/color/index.ts:34, 37, 51-82)
  // ---------------------------------------------------------------------------

  predicate IsWordChar(c: char) {
    ('a' <= c <= 'z') || ('A' <= c <= 'Z') || ('0' <= c <= '9') || c == '_'
  }

  /** A component of `TRIPLET`: one or more of `[\w.%]`. */
  predicate IsComponent(s: string) {
    |s| > 0 && forall i :: 0 <= i < |s| ==> IsWordChar(s[i]) || s[i] == '.' || s[i] == '%'
  }

  /** `s` without the opening parenthesis and the closing one, each optional. */
  function Unparenthesized(s: string): string {
    var a := if |s| > 0 && s[0] == '(' then s[1..] else s;
    if |a| > 0 && a[|a| - 1] == ')' then a[..|a| - 1] else a
  }

  /**
   * The three groups `TRIPLET` captures. A component holds no space, comma or
   * parenthesis, so the match is unique: strip the optional parentheses, split
   * at the commas, and each piece must be a component padded with spaces.
   */
  function MatchTriplet(s: string): (groups: Option<seq<string>>)
    ensures groups.Some? ==> |groups.value| == 3
    ensures groups.Some? ==> forall k :: 0 <= k < 3 ==> IsComponent(groups.value[k])
  {
    var parts := Split(Unparenthesized(s), ',');
    if |parts| == 3 && IsComponent(Trim(parts[0])) && IsComponent(Trim(parts[1])) && IsComponent(Trim(parts[2]))
    then Some([Trim(parts[0]), Trim(parts[1]), Trim(parts[2])])
    else None
  }

  /**
   * `PARENTHESES.test(s)`. The first alternative wants `(`, then characters
   * other than line terminators, then `)` at the end; the second has no end
   * anchor, so it accepts any string whose first character is not `(`.
   */
  predicate ParenthesesOk(s: string) {
    (|s| >= 2 && s[0] == '(' && s[|s| - 1] == ')' &&
     forall i :: 1 <= i < |s| - 1 ==> !IsLineTerminator(s[i]))
    || (|s| >= 1 && s[0] != '(')
  }

  /** `c.slice(0, -1)`. */
  function DropLast(c: string): string {
    if |c| == 0 then c else c[..|c| - 1]
  }

  /** The value one captured component maps to in a triplet format, `None` for `NaN`. */
  function TripletChannel(c: string, f: Format, js: JsNumerics): Option<real> {
    match f
    case Rgb =>
      var asInt := js.parseInt(c);
      var asFloat := js.parseFloat(c);
      if asInt.Some? && asFloat.Some? && asInt.value == asFloat.value then Some(asInt.value / 255.0) else None
    case Arith =>
      (match js.parseFloat(c) case Some(x) => Some(x / 255.0) case None => None)
    case Pct =>
      (match js.parseFloat(DropLast(c)) case Some(x) => Some(x / 25500.0) case None => None)
    case Hex => None
  }

  /** The `rgb`, `arith` and `pct` branches of `toRGB`. */
  function ParseTriplet(s: string, f: Format, js: JsNumerics): Option<RGB>
    requires f != Hex
  {
    match MatchTriplet(s)
    case None => None
    case Some(g) =>
      if !ParenthesesOk(s) then None
      else
        var r := TripletChannel(g[0], f, js);
        var gr := TripletChannel(g[1], f, js);
        var b := TripletChannel(g[2], f, js);
        if r.Some? && gr.Some? && b.Some? then Some(RGB(r.value, gr.value, b.value)) else None
  }

  /** `toRGB(str, format)`. */
  function ToRGB(s: string, f: Format, js: JsNumerics): Option<RGB> {
    if f == Hex then ParseHex(s) else ParseTriplet(s, f, js)
  }

  // ---------------------------------------------------------------------------
  // Serialisation (lib/color/index.ts:106-144)
  // ---------------------------------------------------------------------------

  /** One channel of `toHex`: `Math.trunc(ch * 255).toString(16).toUpperCase().padStart(2, '0')`. */
  function HexChannel(ch: real): string {
    PadStart(UpperString(HexInt(Trunc(ch * 255.0))), 2, '0')
  }

  /** `toHex`: the reduction over the three channels, starting from `#`. */
  function ToHex(c: RGB): string {
    "#" + HexChannel(c.r) + HexChannel(c.g) + HexChannel(c.b)
  }

  /** One channel of the `rgb` format: `Math.trunc(ch * 255).toString().padStart(3)`. */
  function RgbComponent(ch: real): string {
    PadStart(DecimalInt(Trunc(ch * 255.0)), 3, ' ')
  }

  /** One channel of `toRGBArithmetic`: `ch.toFixed(4)`. */
  function ArithComponent(ch: real, js: JsNumerics): string {
    js.toFixed(ch, 4)
  }

  /** One channel of `toRGBPercentage`: `(ch * 100).toFixed(2).padStart(6) + '%'`. */
  function PctComponent(ch: real, js: JsNumerics): string {
    PadStart(js.toFixed(ch * 100.0, 2), 6, ' ') + "%"
  }

  /** `( a, b, c )`, the frame of the three triplet formats. */
  function Parenthesized(a: string, b: string, c: string): string {
    "( " + Join([a, b, c], ", ") + " )"
  }

  /** `toRGBString(rgb, format)`. */
  function ToRGBString(c: RGB, f: Format, js: JsNumerics): string {
    match f
    case Hex => ToHex(c)
    case Rgb => Parenthesized(RgbComponent(c.r), RgbComponent(c.g), RgbComponent(c.b))
    case Arith => Parenthesized(ArithComponent(c.r, js), ArithComponent(c.g, js), ArithComponent(c.b, js))
    case Pct => Parenthesized(PctComponent(c.r, js), PctComponent(c.g, js), PctComponent(c.b, js))
  }

  // ---------------------------------------------------------------------------
  // Distance (lib/color/index.ts:163-169)
  // ---------------------------------------------------------------------------

  function SquaredDistance(p: RGB, q: RGB): real {
    Square(p.r - q.r) + Square(p.g - q.g) + Square(p.b - q.b)
  }

  /** `distanceRGB`. */
  function DistanceRGB(p: RGB, q: RGB, m: MathLib): real {
    m.sqrt(SquaredDistance(p, q))
  }

  // ---------------------------------------------------------------------------
  // Properties
  // ---------------------------------------------------------------------------

  /** Six digits, with or without `#`, parse pair by pair to `n / 255`. */
  lemma HexLongForm(d: string, hash: bool)
    requires |d| == 6 && AllHex(d)
    ensures ParseHex(if hash then "#" + d else d) ==
      Some(RGB(PairValue(d[0], d[1]) as real / 255.0,
               PairValue(d[2], d[3]) as real / 255.0,
               PairValue(d[4], d[5]) as real / 255.0))
  {
    var s := if hash then "#" + d else d;
    assert AfterHash(s) == d by {
      if hash { assert s[1..] == d; } else { assert IsHexDigit(d[0]); }
    }
  }

  /** Three digits are read as if each were written twice. */
  lemma HexShortDoubles(d: string, hash: bool)
    requires |d| == 3 && AllHex(d)
    ensures var long := [d[0], d[0], d[1], d[1], d[2], d[2]];
      ParseHex(if hash then "#" + d else d) == ParseHex(if hash then "#" + long else long)
  {
    var long := [d[0], d[0], d[1], d[1], d[2], d[2]];
    var s := if hash then "#" + d else d;
    var t := if hash then "#" + long else long;
    assert AfterHash(s) == d by {
      if hash { assert s[1..] == d; } else { assert IsHexDigit(d[0]); }
    }
    assert AfterHash(t) == long by {
      if hash { assert t[1..] == long; } else { assert IsHexDigit(long[0]); }
    }
    assert AllHex(long);
  }

  lemma UpperCharHex(c: char)
    ensures IsHexDigit(UpperChar(c)) <==> IsHexDigit(c)
    ensures IsHexDigit(c) ==> HexValue(UpperChar(c)) == HexValue(c)
    ensures UpperChar(c) == '#' <==> c == '#'
  {
  }

  /** Parsing ignores the case of the digits. */
  lemma HexCaseInsensitive(s: string)
    ensures ParseHex(UpperString(s)) == ParseHex(s)
  {
    var u := UpperString(s);
    var d, e := AfterHash(s), AfterHash(u);
    if |s| > 0 {
      UpperCharHex(s[0]);
    }
    assert |e| == |d| && forall i :: 0 <= i < |d| ==> e[i] == UpperChar(d[i]);
    forall i | 0 <= i < |d|
      ensures IsHexDigit(e[i]) <==> IsHexDigit(d[i])
      ensures IsHexDigit(d[i]) ==> HexValue(e[i]) == HexValue(d[i])
    {
      UpperCharHex(d[i]);
    }
    assert AllHex(e) <==> AllHex(d);
  }

  /** The two upper-case digits of a byte. */
  function ByteHex(t: nat): string
    requires t < 256
  {
    [UpperHexDigit(t / 16), UpperHexDigit(t % 16)]
  }

  /** Two upper-case hexadecimal digits. */
  predicate UpperPair(x: string) {
    |x| == 2 && IsUpperHexDigit(x[0]) && IsUpperHexDigit(x[1])
  }

  /** `trunc(ch * 255)` is a byte for a channel in [0, 1]. */
  lemma ChannelByte(ch: real)
    requires 0.0 <= ch <= 1.0
    ensures 0 <= Trunc(ch * 255.0) < 256
  {
  }

  /** A channel whose byte is `t` is written as the two digits of `t`. */
  lemma HexChannelOfByte(t: nat, ch: real)
    requires t < 256 && Trunc(ch * 255.0) == t
    ensures HexChannel(ch) == ByteHex(t)
  {
    if t < 16 {
      assert HexInt(t) == [LowerHexDigit(t)];
      assert UpperString([LowerHexDigit(t)]) == [UpperHexDigit(t)];
    } else {
      assert HexNat(t / 16) == [LowerHexDigit(t / 16)];
      assert HexInt(t) == [LowerHexDigit(t / 16), LowerHexDigit(t % 16)];
      assert UpperString(HexInt(t)) == [UpperHexDigit(t / 16), UpperHexDigit(t % 16)];
    }
  }

  /** A channel reduced to the multiple of 1/255 that `toHex` writes for it. */
  function Quantize(ch: real): real {
    Trunc(ch * 255.0) as real / 255.0
  }

  /**
   * A channel in [0, 1] is written as two upper-case digits whose value is
   * `trunc(ch * 255)`.
   */
  lemma HexChannelShape(ch: real)
    requires 0.0 <= ch <= 1.0
    ensures UpperPair(HexChannel(ch))
    ensures PairValue(HexChannel(ch)[0], HexChannel(ch)[1]) == Trunc(ch * 255.0)
    ensures PairValue(HexChannel(ch)[0], HexChannel(ch)[1]) as real / 255.0 == Quantize(ch)
  {
    ChannelByte(ch);
    HexChannelOfByte(Trunc(ch * 255.0), ch);
  }

  /** `HexChannelShape` for the three channels at once. */
  lemma ThreeChannelShapes(r: real, g: real, b: real)
    requires 0.0 <= r <= 1.0 && 0.0 <= g <= 1.0 && 0.0 <= b <= 1.0
    ensures UpperPair(HexChannel(r)) && UpperPair(HexChannel(g)) && UpperPair(HexChannel(b))
    ensures PairValue(HexChannel(r)[0], HexChannel(r)[1]) == Trunc(r * 255.0)
    ensures PairValue(HexChannel(g)[0], HexChannel(g)[1]) == Trunc(g * 255.0)
    ensures PairValue(HexChannel(b)[0], HexChannel(b)[1]) == Trunc(b * 255.0)
    ensures PairValue(HexChannel(r)[0], HexChannel(r)[1]) as real / 255.0 == Quantize(r)
    ensures PairValue(HexChannel(g)[0], HexChannel(g)[1]) as real / 255.0 == Quantize(g)
    ensures PairValue(HexChannel(b)[0], HexChannel(b)[1]) as real / 255.0 == Quantize(b)
  {
    HexChannelShape(r);
    HexChannelShape(g);
    HexChannelShape(b);
  }

  lemma ToHexParts(c: RGB)
    ensures ToHex(c) == "#" + HexChannel(c.r) + HexChannel(c.g) + HexChannel(c.b)
  {
  }

  /** `#` and three upper-case pairs, position by position. */
  lemma HashAndPairs(x: string, y: string, z: string)
    requires UpperPair(x) && UpperPair(y) && UpperPair(z)
    ensures var h := "#" + x + y + z;
      |h| == 7 && h[0] == '#' && (forall i :: 1 <= i < 7 ==> IsUpperHexDigit(h[i])) &&
      h[1] == x[0] && h[2] == x[1] && h[3] == y[0] && h[4] == y[1] && h[5] == z[0] && h[6] == z[1]
  {
  }

  /** `#` and three upper-case pairs match `HEX` and parse pair by pair. */
  lemma ParseHashAndPairs(x: string, y: string, z: string)
    requires UpperPair(x) && UpperPair(y) && UpperPair(z)
    ensures ParseHex("#" + x + y + z) ==
      Some(RGB(PairValue(x[0], x[1]) as real / 255.0,
               PairValue(y[0], y[1]) as real / 255.0,
               PairValue(z[0], z[1]) as real / 255.0))
  {
    var h := "#" + x + y + z;
    assert AfterHash(h) == [x[0], x[1], y[0], y[1], z[0], z[1]];
  }

  /**
   * For channels in [0, 1], `toHex` writes `#` and six upper-case digits, the
   * pair for each channel being `trunc(c * 255)`.
   */
  lemma ToHexShape(c: RGB)
    requires InUnitCube(c)
    ensures var h := ToHex(c);
      |h| == 7 && h[0] == '#' &&
      (forall i :: 1 <= i < 7 ==> IsUpperHexDigit(h[i])) &&
      PairValue(h[1], h[2]) == Trunc(c.r * 255.0) &&
      PairValue(h[3], h[4]) == Trunc(c.g * 255.0) &&
      PairValue(h[5], h[6]) == Trunc(c.b * 255.0)
  {
    ThreeChannelShapes(c.r, c.g, c.b);
    ToHexParts(c);
    HashAndPairs(HexChannel(c.r), HexChannel(c.g), HexChannel(c.b));
  }

  lemma ParseOfPairs(x: string, y: string, z: string, r: real, g: real, b: real)
    requires UpperPair(x) && UpperPair(y) && UpperPair(z)
    requires PairValue(x[0], x[1]) as real / 255.0 == r
    requires PairValue(y[0], y[1]) as real / 255.0 == g
    requires PairValue(z[0], z[1]) as real / 255.0 == b
    ensures ParseHex("#" + x + y + z) == Some(RGB(r, g, b))
  {
    ParseHashAndPairs(x, y, z);
  }

  lemma ParseOfHexChannels(r: real, g: real, b: real)
    requires 0.0 <= r <= 1.0 && 0.0 <= g <= 1.0 && 0.0 <= b <= 1.0
    ensures ParseHex("#" + HexChannel(r) + HexChannel(g) + HexChannel(b)) == Some(RGB(Quantize(r), Quantize(g), Quantize(b)))
  {
    ThreeChannelShapes(r, g, b);
    ParseOfPairs(HexChannel(r), HexChannel(g), HexChannel(b), Quantize(r), Quantize(g), Quantize(b));
  }

  /** The other round trip: `toRGB(toHex(c))` quantizes each channel to 1/255. */
  lemma HexParseOfToHex(c: RGB)
    requires InUnitCube(c)
    ensures ParseHex(ToHex(c)) == Some(RGB(Quantize(c.r), Quantize(c.g), Quantize(c.b)))
  {
    ToHexParts(c);
    ParseOfHexChannels(c.r, c.g, c.b);
  }

  /** An upper-case digit is its own upper case, and a lower-case one becomes it. */
  lemma UpperOfHexValue(c: char)
    requires IsHexDigit(c)
    ensures UpperHexDigit(HexValue(c)) == UpperChar(c)
  {
  }

  /** A channel that is a pair over 255, written back, is the pair in upper case. */
  lemma ChannelOfPair(ch: real, hi: char, lo: char)
    requires IsHexDigit(hi) && IsHexDigit(lo)
    requires ch == PairValue(hi, lo) as real / 255.0
    ensures HexChannel(ch) == [UpperChar(hi), UpperChar(lo)]
  {
    TruncOfChannel(ch, PairValue(hi, lo));
    HexChannelOfByte(PairValue(hi, lo), ch);
    ByteHexOfPair(hi, lo);
  }

  lemma TruncOfChannel(ch: real, v: nat)
    requires ch == v as real / 255.0
    ensures Trunc(ch * 255.0) == v
  {
    assert ch * 255.0 == v as real;
  }

  lemma ByteHexOfPair(hi: char, lo: char)
    requires IsHexDigit(hi) && IsHexDigit(lo)
    ensures ByteHex(PairValue(hi, lo)) == [UpperChar(hi), UpperChar(lo)]
  {
    var a, b := HexValue(hi), HexValue(lo);
    DigitsOfByte(a, b);
    assert ByteHex(PairValue(hi, lo)) == [UpperHexDigit(a), UpperHexDigit(b)];
    UpperOfHexValue(hi);
    UpperOfHexValue(lo);
  }

  /** The two base-16 digits of `16 a + b`. */
  lemma DigitsOfByte(a: nat, b: nat)
    requires a < 16 && b < 16
    ensures (16 * a + b) / 16 == a && (16 * a + b) % 16 == b
  {
  }

  lemma UpperStringOfPairs(d: string)
    requires |d| == 6
    ensures "#" + UpperString(d) ==
      "#" + [UpperChar(d[0]), UpperChar(d[1])] + [UpperChar(d[2]), UpperChar(d[3])] + [UpperChar(d[4]), UpperChar(d[5])]
  {
    assert "#" + UpperString(d) == ['#', UpperChar(d[0]), UpperChar(d[1]), UpperChar(d[2]), UpperChar(d[3]), UpperChar(d[4]), UpperChar(d[5])];
  }

  /** The colour six digits parse to. */
  function DigitsColor(d: string): RGB
    requires |d| == 6 && AllHex(d)
  {
    RGB(PairValue(d[0], d[1]) as real / 255.0,
        PairValue(d[2], d[3]) as real / 255.0,
        PairValue(d[4], d[5]) as real / 255.0)
  }

  lemma ToHexOfChannels(r: real, g: real, b: real, x: string, y: string, z: string)
    requires HexChannel(r) == x && HexChannel(g) == y && HexChannel(b) == z
    ensures ToHex(RGB(r, g, b)) == "#" + x + y + z
  {
  }

  lemma ToHexOfDigits(d: string)
    requires |d| == 6 && AllHex(d)
    ensures ToHex(DigitsColor(d)) == "#" + UpperString(d)
  {
    var c := DigitsColor(d);
    ChannelOfPair(c.r, d[0], d[1]);
    ChannelOfPair(c.g, d[2], d[3]);
    ChannelOfPair(c.b, d[4], d[5]);
    ToHexOfChannels(c.r, c.g, c.b, [UpperChar(d[0]), UpperChar(d[1])], [UpperChar(d[2]), UpperChar(d[3])], [UpperChar(d[4]), UpperChar(d[5])]);
    UpperStringOfPairs(d);
  }

  /** `toHex(toRGB(h))` gives back `#` and the digits of `h` in upper case. */
  lemma HexRoundTrip(s: string)
    requires MatchesHex(s)
    ensures ParseHex(s).Some? && ToHex(ParseHex(s).value) == "#" + UpperString(AfterHash(s))
  {
    assert ParseHex(s) == Some(DigitsColor(AfterHash(s)));
    ToHexOfDigits(AfterHash(s));
  }

  /**
   * In the `rgb` format a triplet is accepted exactly when every component has
   * equal `parseInt` and `parseFloat` values, and each channel is that value / 255.
   */
  lemma RgbTripletIntegers(s: string, js: JsNumerics)
    ensures var c := ToRGB(s, Rgb, js);
      c.Some? <==>
        MatchTriplet(s).Some? && ParenthesesOk(s) &&
        forall k :: 0 <= k < 3 ==>
          var comp := MatchTriplet(s).value[k];
          js.parseInt(comp).Some? && js.parseFloat(comp).Some? &&
          js.parseInt(comp).value == js.parseFloat(comp).value
    ensures var c := ToRGB(s, Rgb, js);
      c.Some? ==>
        var g := MatchTriplet(s).value;
        c.value == RGB(js.parseInt(g[0]).value / 255.0, js.parseInt(g[1]).value / 255.0, js.parseInt(g[2]).value / 255.0)
  {
  }

  /** A triplet that opens a parenthesis it does not close is rejected in every triplet format. */
  lemma OpenParenthesisMustClose(s: string, f: Format, js: JsNumerics)
    requires f != Hex
    requires |s| > 0 && s[0] == '(' && s[|s| - 1] != ')'
    ensures ToRGB(s, f, js) == None
  {
  }

  /**
   * The converse does not hold: the second alternative of `PARENTHESES` has no
   * end anchor, so a closing parenthesis without an opening one passes, and
   * only `TRIPLET` then decides.
   */
  lemma CloseWithoutOpenPasses(s: string, f: Format, js: JsNumerics)
    requires f != Hex
    requires |s| > 0 && s[0] != '('
    ensures ParenthesesOk(s)
    ensures ToRGB(s, f, js) == ParseTripletGroups(MatchTriplet(s), f, js)
  {
  }

  /** The channels of the groups, `None` if a group is `NaN` or there are no groups. */
  function ParseTripletGroups(groups: Option<seq<string>>, f: Format, js: JsNumerics): Option<RGB>
    requires groups.Some? ==> |groups.value| == 3
  {
    match groups
    case None => None
    case Some(g) =>
      var r := TripletChannel(g[0], f, js);
      var gr := TripletChannel(g[1], f, js);
      var b := TripletChannel(g[2], f, js);
      if r.Some? && gr.Some? && b.Some? then Some(RGB(r.value, gr.value, b.value)) else None
  }

  /** `"1,2,3)"` passes both patterns, with groups `1`, `2` and `3`. */
  lemma UnopenedTripletExample()
    ensures MatchTriplet("1,2,3)") == Some(["1", "2", "3"])
    ensures ParenthesesOk("1,2,3)")
  {
    var s := "1,2,3)";
    assert Unparenthesized(s) == "1,2,3";
    assert Join(["3"], [',']) == "3";
    assert Join(["2", "3"], [',']) == "2,3";
    assert Join(["1", "2", "3"], [',']) == "1,2,3";
    SplitJoin(["1", "2", "3"], ',');
    assert Split(Unparenthesized(s), ',') == ["1", "2", "3"];
    SingleDigitComponent('1');
    SingleDigitComponent('2');
    SingleDigitComponent('3');
  }

  /** A one-digit string trims to itself and is a component. */
  lemma SingleDigitComponent(d: char)
    requires '0' <= d <= '9'
    ensures Trim([d]) == [d] && IsComponent([d])
  {
    assert TrimStart([d]) == [d];
    assert TrimEnd([d]) == [d];
  }

  /** A number below 1000 is written with at most three digits. */
  lemma DecimalNatWidth(n: nat)
    requires n < 1000
    ensures |DecimalNat(n)| <= 3
  {
    if n >= 100 {
      assert 10 <= n / 10 < 100 && n / 10 / 10 < 10;
      assert |DecimalNat(n / 10)| == 2;
    } else if n >= 10 {
      assert n / 10 < 10;
    }
  }

  /** One `rgb` component of a channel in [0, 1]: its byte padded to exactly three places. */
  lemma RgbComponentWidth(ch: real)
    requires 0.0 <= ch <= 1.0
    ensures |RgbComponent(ch)| == 3
  {
    ChannelByte(ch);
    DecimalNatWidth(Trunc(ch * 255.0));
  }

  /** The frame adds eight characters: two separators and the parentheses with their spaces. */
  lemma ParenthesizedWidth(a: string, b: string, c: string)
    ensures |Parenthesized(a, b, c)| == |a| + |b| + |c| + 8
  {
    assert [a, b, c][1..] == [b, c] && [b, c][1..] == [c];
    assert Join([b, c], ", ") == b + ", " + c;
    assert Join([a, b, c], ", ") == a + ", " + (b + ", " + c);
  }

  /**
   * For channels in [0, 1], the `rgb` format writes each byte in three places,
   * so the string always has 17 characters and lines up in a column.
   */
  lemma RgbStringWidth(c: RGB, js: JsNumerics)
    requires InUnitCube(c)
    ensures |ToRGBString(c, Rgb, js)| == 17
  {
    assert ToRGBString(c, Rgb, js) == Parenthesized(RgbComponent(c.r), RgbComponent(c.g), RgbComponent(c.b));
    RgbComponentWidth(c.r);
    RgbComponentWidth(c.g);
    RgbComponentWidth(c.b);
    ParenthesizedWidth(RgbComponent(c.r), RgbComponent(c.g), RgbComponent(c.b));
  }

  /** The squared distance is never negative and is zero between equal colours. */
  lemma SquaredDistanceSign(p: RGB, q: RGB)
    ensures SquaredDistance(p, q) >= 0.0
    ensures p == q ==> SquaredDistance(p, q) == 0.0
  {
    SquareNonNegative(p.r - q.r);
    SquareNonNegative(p.g - q.g);
    SquareNonNegative(p.b - q.b);
    if p == q {
      SquareOfZero(p.r - q.r);
      SquareOfZero(p.g - q.g);
      SquareOfZero(p.b - q.b);
    }
  }

  /**
   * With a square root that is correct at the squared distance,
   * `distanceRGB` is never negative, and between equal colours it is the
   * non-negative number whose square is 0.
   */
  lemma DistanceSign(p: RGB, q: RGB, m: MathLib)
    requires SqrtAt(m, SquaredDistance(p, q))
    ensures DistanceRGB(p, q, m) >= 0.0
    ensures p == q ==> Square(DistanceRGB(p, q, m)) == 0.0
  {
    SquaredDistanceSign(p, q);
  }

  /** `distanceRGB` is symmetric. */
  lemma DistanceSymmetric(p: RGB, q: RGB, m: MathLib)
    ensures DistanceRGB(p, q, m) == DistanceRGB(q, p, m)
  {
    assert Square(p.r - q.r) == Square(q.r - p.r);
    assert Square(p.g - q.g) == Square(q.g - p.g);
    assert Square(p.b - q.b) == Square(q.b - p.b);
  }
}
