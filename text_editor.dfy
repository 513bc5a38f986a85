/**
 * The palette text editor of components/modal/text-editor.tsx, without its
 * markup: `handleTextChange` imports a palette from text, one colour per line,
 * and `formatPalette` writes the imported palette back as text in a format.
 * The React state `text`, `palette` and `error` are the fields of a class;
 * the `format` prop and the `setFormat` callback are a field and a flag.
 */
module TextEditor {
  import opened Wrappers
  import opened Color

  // ---------------------------------------------------------------------------
  // Lines of the text (components/modal/text-editor.tsx:49-52)
  // ---------------------------------------------------------------------------

  function TrimAll(ls: seq<string>): (r: seq<string>)
    ensures |r| == |ls|
  {
    seq(|ls|, i requires 0 <= i < |ls| => Trim(ls[i]))
  }

  /** `filter(line => line.length > 0)`. */
  function NonEmpty(ls: seq<string>): seq<string> {
    if |ls| == 0 then []
    else if |ls[0]| > 0 then [ls[0]] + NonEmpty(ls[1..])
    else NonEmpty(ls[1..])
  }

  /** The filter keeps exactly the non-empty lines. */
  lemma {:induction false} NonEmptyMembers(ls: seq<string>)
    ensures |NonEmpty(ls)| <= |ls|
    ensures forall x :: x in NonEmpty(ls) <==> x in ls && |x| > 0
  {
    if |ls| > 0 {
      NonEmptyMembers(ls[1..]);
      assert ls == [ls[0]] + ls[1..];
    }
  }

  /** The lines `handleTextChange` parses: split at `\n`, trimmed, blank ones dropped. */
  function Lines(value: string): seq<string> {
    NonEmpty(TrimAll(Split(value, '\n')))
  }

  // ---------------------------------------------------------------------------
  // The import loop (components/modal/text-editor.tsx:54-69)
  // ---------------------------------------------------------------------------

  /** `line => toRGB(line, format)`, the parser the loop applies to each line. */
  function LineParser(f: Format, js: JsNumerics): string -> Option<RGB> {
    line => ToRGB(line, f, js)
  }

  /**
   * The loop over the lines: the colours parsed before the first line the
   * parser rejects, and whether such a line was met.
   */
  function ImportLines(ls: seq<string>, parse: string -> Option<RGB>): (seq<RGB>, bool) {
    if |ls| == 0 then ([], false)
    else
      match parse(ls[0])
      case None => ([], true)
      case Some(c) =>
        var rest := ImportLines(ls[1..], parse);
        ([c] + rest.0, rest.1)
  }

  /**
   * The loop reads a prefix of the lines: each colour is its line parsed, and
   * it stops early exactly when a line is rejected, at that line.
   */
  lemma {:induction false} ImportLinesPrefix(ls: seq<string>, parse: string -> Option<RGB>)
    ensures var r := ImportLines(ls, parse);
      |r.0| <= |ls| &&
      (forall i :: 0 <= i < |r.0| ==> parse(ls[i]) == Some(r.0[i])) &&
      (r.1 <==> |r.0| < |ls|) &&
      (r.1 ==> parse(ls[|r.0|]) == None)
  {
    if |ls| > 0 && parse(ls[0]).Some? {
      ImportLinesPrefix(ls[1..], parse);
    }
  }

  /** One turn of the loop: the line at `i` is parsed, and on success the rest follow. */
  lemma ImportLinesStep(ls: seq<string>, i: nat, parse: string -> Option<RGB>)
    requires i < |ls|
    ensures parse(ls[i]).None? ==> ImportLines(ls[i..], parse) == ([], true)
    ensures parse(ls[i]).Some? ==>
      ImportLines(ls[i..], parse) ==
        ([parse(ls[i]).value] + ImportLines(ls[i + 1..], parse).0, ImportLines(ls[i + 1..], parse).1)
  {
    assert ls[i..][0] == ls[i];
    assert ls[i..][1..] == ls[i + 1..];
  }

  /**
   * The `for … of` loop of `handleTextChange` with its early `break`: the
   * colours pushed, and whether a line was rejected.
   */
  method ParseLines(lines: seq<string>, parse: string -> Option<RGB>) returns (parsed: seq<RGB>, failed: bool)
    ensures (parsed, failed) == ImportLines(lines, parse)
  {
    parsed := [];
    failed := false;
    var i := 0;
    assert lines[i..] == lines;
    assert parsed + ImportLines(lines, parse).0 == ImportLines(lines, parse).0;
    while i < |lines|
      invariant 0 <= i <= |lines|
      invariant !failed ==>
        ImportLines(lines, parse) == (parsed + ImportLines(lines[i..], parse).0, ImportLines(lines[i..], parse).1)
      invariant failed ==> ImportLines(lines, parse) == (parsed, true)
      decreases if failed then 0 else |lines| - i
    {
      var c := parse(lines[i]);
      ImportLinesStep(lines, i, parse);
      if c.None? {
        assert parsed + [] == parsed;
        failed := true;
        break;
      }
      assert parsed + ([c.value] + ImportLines(lines[i + 1..], parse).0) ==
        (parsed + [c.value]) + ImportLines(lines[i + 1..], parse).0;
      parsed := parsed + [c.value];
      i := i + 1;
    }
    if !failed {
      assert lines[i..] == [];
      assert ImportLines(lines[i..], parse) == ([], false);
      assert parsed + [] == parsed;
    }
  }

  /** The palette and error flag `handleTextChange` computes from the text. */
  function Import(value: string, f: Format, js: JsNumerics): (seq<RGB>, bool) {
    var r := ImportLines(Lines(value), LineParser(f, js));
    (r.0, r.1 || |r.0| < 2)
  }

  /** The text `formatPalette` writes: one line per colour, in palette order. */
  function PaletteText(palette: seq<RGB>, f: Format, js: JsNumerics): string {
    Join(seq(|palette|, i requires 0 <= i < |palette| => ToRGBString(palette[i], f, js)), "\n")
  }

  class Editor {
    /** The text area's contents. */
    var text: string
    /** The last palette imported without error; `None` until then. */
    var palette: Option<seq<RGB>>
    /** Whether the last import failed. */
    var error: bool
    /** The `format` prop, `hex` when the prop is absent. */
    var format: Format
    /** Whether a `setFormat` callback was given. */
    const canSetFormat: bool
    const js: JsNumerics

    constructor(format: Format, canSetFormat: bool, js: JsNumerics)
      ensures this.text == "" && this.palette == None && !this.error
      ensures this.format == format && this.canSetFormat == canSetFormat && this.js == js
    {
      this.text := "";
      this.palette := None;
      this.error := false;
      this.format := format;
      this.canSetFormat := canSetFormat;
      this.js := js;
    }

    /**
     * `handleTextChange(value)`: parse the lines until the first bad one; an
     * error if one was bad or fewer than two colours were read. The palette is
     * replaced only without error; the text is always stored as typed.
     */
    method HandleTextChange(value: string)
      modifies this
      ensures text == value
      ensures error == Import(value, format, js).1
      ensures palette == if error then old(palette) else Some(Import(value, format, js).0)
      ensures format == old(format)
    {
      var parsed, failed := ParseLines(Lines(value), LineParser(format, js));
      failed := failed || |parsed| < 2;
      if !failed {
        palette := Some(parsed);
      }
      text := value;
      error := failed;
    }

    /**
     * `formatPalette(f)`: nothing without a palette, after an error or without
     * `setFormat`; otherwise the format is set and the palette written out.
     */
    method FormatPalette(f: Format)
      modifies this
      ensures old(error) || !canSetFormat || old(palette).None? ==>
        text == old(text) && format == old(format)
      ensures !old(error) && canSetFormat && old(palette).Some? ==>
        format == f && text == PaletteText(old(palette).value, f, js)
      ensures palette == old(palette) && error == old(error)
    {
      if error || !canSetFormat || palette.None? {
        return;
      }
      format := f;
      text := PaletteText(palette.value, f, js);
    }
  }

  // ---------------------------------------------------------------------------
  // Properties
  // ---------------------------------------------------------------------------

  lemma {:induction false} TrimStartShape(s: string)
    ensures |TrimStart(s)| <= |s|
    ensures TrimStart(s) == s[|s| - |TrimStart(s)|..]
    ensures |TrimStart(s)| == 0 || !IsSpace(TrimStart(s)[0])
  {
    if |s| > 0 && IsSpace(s[0]) {
      TrimStartShape(s[1..]);
    }
  }

  lemma {:induction false} TrimEndShape(s: string)
    ensures |TrimEnd(s)| <= |s|
    ensures TrimEnd(s) == s[..|TrimEnd(s)|]
    ensures |TrimEnd(s)| == 0 || !IsSpace(TrimEnd(s)[|TrimEnd(s)| - 1])
  {
    if |s| > 0 && IsSpace(s[|s| - 1]) {
      TrimEndShape(s[..|s| - 1]);
    }
  }

  /** `trim` leaves a string alone when it neither starts nor ends with a space. */
  lemma TrimUnchanged(s: string)
    requires |s| > 0 && !IsSpace(s[0]) && !IsSpace(s[|s| - 1])
    ensures Trim(s) == s
  {
  }

  /** A trimmed string trims to itself. */
  lemma TrimIdempotent(s: string)
    ensures Trim(Trim(s)) == Trim(s)
  {
    var t := TrimStart(s);
    var u := TrimEnd(t);
    TrimStartShape(s);
    TrimEndShape(t);
    if |u| > 0 {
      assert u[0] == t[0];
      TrimUnchanged(u);
    }
  }

  /** Every line `handleTextChange` parses is non-empty and already trimmed. */
  lemma LinesAreTrimmed(value: string)
    ensures forall k :: 0 <= k < |Lines(value)| ==> |Lines(value)[k]| > 0 && Trim(Lines(value)[k]) == Lines(value)[k]
  {
    var ls := Lines(value);
    forall k | 0 <= k < |ls|
      ensures |ls[k]| > 0 && Trim(ls[k]) == ls[k]
    {
      var ts := TrimAll(Split(value, '\n'));
      NonEmptyMembers(ts);
      assert ls[k] in ts;
      var j :| 0 <= j < |ts| && ts[j] == ls[k];
      TrimIdempotent(Split(value, '\n')[j]);
    }
  }

  /** Text is imported without error only when at least two colours were read. */
  lemma ImportNeedsTwo(value: string, f: Format, js: JsNumerics)
    ensures !Import(value, f, js).1 ==> |Import(value, f, js).0| >= 2
    ensures !Import(value, f, js).1 ==> |Import(value, f, js).0| == |Lines(value)|
  {
    ImportLinesPrefix(Lines(value), LineParser(f, js));
  }

  /** An import fails at the first line `toRGB` rejects; the lines before it were all read. */
  lemma ImportStopsAtFirstBadLine(value: string, f: Format, js: JsNumerics, k: nat)
    requires k < |Lines(value)|
    requires ToRGB(Lines(value)[k], f, js) == None
    requires forall i :: 0 <= i < k ==> ToRGB(Lines(value)[i], f, js).Some?
    ensures Import(value, f, js).1
    ensures Import(value, f, js).0 == seq(k, i requires 0 <= i < k => ToRGB(Lines(value)[i], f, js).value)
  {
    ImportLinesPrefix(Lines(value), LineParser(f, js));
  }

  function HexLines(palette: seq<RGB>): (r: seq<string>)
    ensures |r| == |palette|
    ensures forall k :: 0 <= k < |r| ==> r[k] == ToHex(palette[k])
  {
    seq(|palette|, k requires 0 <= k < |palette| => ToHex(palette[k]))
  }

  function QuantizeRGB(c: RGB): RGB {
    RGB(Quantize(c.r), Quantize(c.g), Quantize(c.b))
  }

  function QuantizeAll(palette: seq<RGB>): (r: seq<RGB>)
    ensures |r| == |palette|
    ensures forall k :: 0 <= k < |r| ==> r[k] == QuantizeRGB(palette[k])
  {
    seq(|palette|, k requires 0 <= k < |palette| => QuantizeRGB(palette[k]))
  }

  lemma {:induction false} NonEmptyOfNonEmpty(ls: seq<string>)
    requires forall k :: 0 <= k < |ls| ==> |ls[k]| > 0
    ensures NonEmpty(ls) == ls
  {
    if |ls| > 0 {
      NonEmptyOfNonEmpty(ls[1..]);
      assert [ls[0]] + ls[1..] == ls;
    }
  }

  lemma HexLineImport(c: RGB, js: JsNumerics)
    requires InUnitCube(c)
    ensures LineParser(Hex, js)(ToHex(c)) == Some(QuantizeRGB(c))
  {
    HexParseOfToHex(c);
  }

  lemma {:induction false} ImportOfHexLines(palette: seq<RGB>, js: JsNumerics)
    requires forall k :: 0 <= k < |palette| ==> InUnitCube(palette[k])
    ensures ImportLines(HexLines(palette), LineParser(Hex, js)) == (QuantizeAll(palette), false)
  {
    if |palette| > 0 {
      var hs, parse := HexLines(palette), LineParser(Hex, js);
      HexLineImport(palette[0], js);
      ImportOfHexLines(palette[1..], js);
      assert hs[1..] == HexLines(palette[1..]);
      ImportLinesCons(hs, parse, QuantizeRGB(palette[0]));
      assert QuantizeAll(palette) == [QuantizeRGB(palette[0])] + QuantizeAll(palette[1..]);
    }
  }

  /** A first line that parses contributes its colour ahead of the rest of the import. */
  lemma ImportLinesCons(ls: seq<string>, parse: string -> Option<RGB>, c: RGB)
    requires |ls| > 0 && parse(ls[0]) == Some(c)
    ensures ImportLines(ls, parse) == ([c] + ImportLines(ls[1..], parse).0, ImportLines(ls[1..], parse).1)
  {
  }

  /**
   * Writing a palette out in hex and reading the text back gives the palette
   * with each channel quantized to 1/255, without error when it has at least
   * two colours.
   */
  lemma HexPaletteRoundTrip(palette: seq<RGB>, js: JsNumerics)
    requires |palette| >= 2
    requires forall k :: 0 <= k < |palette| ==> InUnitCube(palette[k])
    ensures Import(PaletteText(palette, Hex, js), Hex, js) == (QuantizeAll(palette), false)
  {
    LinesOfHexText(palette, js);
    ImportOfHexLines(palette, js);
  }

  /**
   * `formatPalette`'s text splits back at `\n` into one line per colour, in
   * palette order, whenever no colour's string holds a `\n` itself.
   */
  lemma PaletteLines(palette: seq<RGB>, f: Format, js: JsNumerics)
    requires |palette| >= 1
    requires forall k :: 0 <= k < |palette| ==> '\n' !in ToRGBString(palette[k], f, js)
    ensures var ls := Split(PaletteText(palette, f, js), '\n');
      |ls| == |palette| && forall k :: 0 <= k < |palette| ==> ls[k] == ToRGBString(palette[k], f, js)
  {
    var ws := seq(|palette|, i requires 0 <= i < |palette| => ToRGBString(palette[i], f, js));
    SplitJoin(ws, '\n');
  }

  /** Lines that hold no `\n`, are not blank and are already trimmed survive `Lines` of their join. */
  lemma LinesOfCleanLines(hs: seq<string>)
    requires |hs| >= 1
    requires forall k :: 0 <= k < |hs| ==> '\n' !in hs[k] && |hs[k]| > 0 && Trim(hs[k]) == hs[k]
    ensures Lines(Join(hs, "\n")) == hs
  {
    SplitJoin(hs, '\n');
    assert TrimAll(hs) == hs;
    NonEmptyOfNonEmpty(hs);
  }

  /** A `#` and six hexadecimal digits form a clean line. */
  lemma HashDigitsClean(h: string)
    requires |h| == 7 && h[0] == '#'
    requires forall i :: 1 <= i < 7 ==> IsUpperHexDigit(h[i])
    ensures '\n' !in h && |h| > 0 && Trim(h) == h
  {
    assert IsUpperHexDigit(h[6]);
    TrimUnchanged(h);
  }

  /** A hex line is not blank, holds no `\n` and is left alone by `trim`. */
  lemma HexLineClean(c: RGB)
    requires InUnitCube(c)
    ensures '\n' !in ToHex(c) && |ToHex(c)| > 0 && Trim(ToHex(c)) == ToHex(c)
  {
    ToHexShape(c);
    HashDigitsClean(ToHex(c));
  }

  /** In the hex format the text is the hex lines joined with `\n`. */
  lemma PaletteTextHex(palette: seq<RGB>, js: JsNumerics)
    ensures PaletteText(palette, Hex, js) == Join(HexLines(palette), "\n")
  {
    var ws := seq(|palette|, i requires 0 <= i < |palette| => ToRGBString(palette[i], Hex, js));
    assert ws == HexLines(palette);
  }

  /** The hex lines of a palette of unit-cube colours are clean. */
  lemma HexLinesClean(palette: seq<RGB>)
    requires forall k :: 0 <= k < |palette| ==> InUnitCube(palette[k])
    ensures forall k :: 0 <= k < |HexLines(palette)| ==>
      '\n' !in HexLines(palette)[k] && |HexLines(palette)[k]| > 0 && Trim(HexLines(palette)[k]) == HexLines(palette)[k]
  {
    forall k | 0 <= k < |palette|
      ensures '\n' !in ToHex(palette[k]) && |ToHex(palette[k])| > 0 && Trim(ToHex(palette[k])) == ToHex(palette[k])
    {
      HexLineClean(palette[k]);
    }
  }

  /** The hex text of a palette splits back into one line per colour. */
  lemma LinesOfHexText(palette: seq<RGB>, js: JsNumerics)
    requires |palette| >= 1
    requires forall k :: 0 <= k < |palette| ==> InUnitCube(palette[k])
    ensures Lines(PaletteText(palette, Hex, js)) == HexLines(palette)
  {
    PaletteTextHex(palette, js);
    HexLinesClean(palette);
    LinesOfCleanLines(HexLines(palette));
  }
}
