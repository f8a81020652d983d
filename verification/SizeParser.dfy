/**
 Door sizes (backend/pipeline/parsers/size.py): the four-digit shorthand, the explicit
 feet-and-inches form, and the printer. Texts are ASCII but for the multiplication sign.
 */
module SizeParser {
  import opened Prelude
  import opened Texts
  import opened Digits
  import opened Sorting
  import opened Backtracking

  datatype Reason = NoSize | ZeroFeet | InchesOutOfRange | NotASize

  /** Both dimensions in inches, or a flag with neither. */
  datatype ParsedSize = Size(width: int, height: int) | Flagged(reason: Reason)

  const MAX_INCHES := 11

  const DIGITS_1_2 := Piece(IsDigit, 1, Some(2))
  const DIGITS_0_2 := Piece(IsDigit, 0, Some(2))
  const SPACES := Piece(IsSpace, 0, None)
  const FEET_MARK := Piece((c: char) => c == '\'', 1, Some(1))
  const INCH_MARK := Piece((c: char) => c == '"', 0, Some(1))
  const DASH := Piece((c: char) => c == '-' || IsSpace(c), 0, Some(1))
  const TIMES := Piece((c: char) => c == 'x' || c == 'X' || c == '\U{D7}', 0, Some(1))

  /** `\d{1,2} \s* ' \s* [-\s]? \s* (\d{1,2})? \s* "?`, then `rest`. */
  function Dimension(rest: seq<Piece>): (r: seq<Piece>)
    ensures |r| == 9 + |rest|
  {
    [DIGITS_1_2] + ([SPACES] + ([FEET_MARK] + AfterFeet(rest)))
  }

  function AfterFeet(rest: seq<Piece>): (r: seq<Piece>)
    ensures |r| == 6 + |rest|
  {
    [SPACES] + ([DASH] + ([SPACES] + ([DIGITS_0_2] + ([SPACES] + ([INCH_MARK] + rest)))))
  }

  /** The separator, `\s* (x \s*)?`, then `rest`. */
  function Separator(rest: seq<Piece>): (r: seq<Piece>)
    ensures |r| == 3 + |rest|
  {
    [SPACES] + ([TIMES] + ([SPACES] + rest))
  }

  /** The explicit pattern: two dimensions with a separator between them. */
  function Explicit(): (r: seq<Piece>)
    ensures |r| == 21 && r[0] == r[12] == DIGITS_1_2 && r[6] == r[18] == DIGITS_0_2
  {
    Dimension(Separator(Dimension([])))
  }

  /** `re.sub(r"[\s\-]", "", text)` */
  function Squeezed(text: string): string {
    Filter(text, (c: char) => !IsSpace(c) && c != '-')
  }

  predicate IsFourDigits(s: string) {
    |s| == 4 && AllDigits(s)
  }

  lemma {:induction false} PartsFit(pieces: seq<Piece>, s: string, parts: seq<string>, i: nat)
    requires IsMatch(pieces, s, parts) && i < |pieces|
    ensures |parts| == |pieces| && Fits(pieces[i], parts[i])
  {
    if i > 0 {
      PartsFit(pieces[1..], s[|parts[0]|..], parts[1..], i - 1);
    } else if |pieces| > 1 {
      PartsFit(pieces[1..], s[|parts[0]|..], parts[1..], 0);
    }
  }

  /** The four groups the explicit pattern captures: an absent one is the empty text. */
  datatype Groups = Groups(widthFeet: string, widthInches: string, heightFeet: string, heightInches: string)

  predicate AreNumerals(g: Groups) {
    && AllDigits(g.widthFeet) && AllDigits(g.widthInches) && AllDigits(g.heightFeet) && AllDigits(g.heightInches)
    && 1 <= |g.widthFeet| <= 2 && |g.widthInches| <= 2 && 1 <= |g.heightFeet| <= 2 && |g.heightInches| <= 2
  }

  function Captured(parts: seq<string>): Groups
    requires |parts| == 21
  {
    Groups(parts[0], parts[6], parts[12], parts[18])
  }

  /** `EXPLICIT.match(text)` */
  function MatchExplicit(text: string): (g: Option<Groups>)
    ensures g.Some? ==> AreNumerals(g.value)
  {
    var parts := Match(Explicit(), text);
    if parts.None? then
      None
    else
      MatchIsSound(Explicit(), text);
      PartsFit(Explicit(), text, parts.value, 0);
      PartsFit(Explicit(), text, parts.value, 6);
      PartsFit(Explicit(), text, parts.value, 12);
      PartsFit(Explicit(), text, parts.value, 18);
      Some(Captured(parts.value))
  }

  function FromShorthand(s: string): ParsedSize
    requires IsFourDigits(s)
  {
    var wFt, wIn, hFt, hIn := DigitValue(s[0]), DigitValue(s[1]), DigitValue(s[2]), DigitValue(s[3]);
    if wFt == 0 || hFt == 0 then Flagged(ZeroFeet) else Size(wFt * 12 + wIn, hFt * 12 + hIn)
  }

  function FromGroups(g: Groups): ParsedSize
    requires AreNumerals(g)
  {
    if Int(g.widthInches) > MAX_INCHES || Int(g.heightInches) > MAX_INCHES then Flagged(InchesOutOfRange)
    else Size(Int(g.widthFeet) * 12 + Int(g.widthInches), Int(g.heightFeet) * 12 + Int(g.heightInches))
  }

  function ParseSize(raw: Option<string>): ParsedSize {
    if raw.None? || Strip(raw.value) == "" then
      Flagged(NoSize)
    else
      var text := Upper(Strip(raw.value));
      if IsFourDigits(Squeezed(text)) then
        FromShorthand(Squeezed(text))
      else
        var groups := MatchExplicit(text);
        if groups.Some? then FromGroups(groups.value) else Flagged(NotASize)
  }

  function FormatDimension(inches: int): string {
    StrOfInt(inches / 12) + "'-" + StrOfInt(inches % 12) + "\""
  }

  function FormatSize(width: Option<int>, height: Option<int>): string {
    if width.None? || height.None? then "" else FormatDimension(width.value) + " x " + FormatDimension(height.value)
  }

  // The range of what parses.

  lemma IntOfShort(s: string)
    requires AllDigits(s) && |s| <= 2
    ensures 0 <= Int(s) < 100
  {
    if |s| == 2 {
      assert s[..1][..0] == "";
      assert Int(s) == 10 * Int(s[..1]) + DigitValue(s[1]);
    } else if |s| == 1 {
      assert s[..0] == "";
    }
  }

  /** Nothing parses to a dimension outside 0 to 1199 inches, whatever the text. */
  lemma ParsedSizesAreInRange(raw: Option<string>)
    ensures ParseSize(raw).Size? ==> 0 <= ParseSize(raw).width < 1200 && 0 <= ParseSize(raw).height < 1200
  {
    if raw.Some? {
      var groups := MatchExplicit(Upper(Strip(raw.value)));
      if groups.Some? {
        var g := groups.value;
        IntOfShort(g.widthFeet);
        IntOfShort(g.widthInches);
        IntOfShort(g.heightFeet);
        IntOfShort(g.heightInches);
      }
    }
  }

  // The printed form.

  lemma ShortStr(n: nat)
    requires n < 100
    ensures |Str(n)| <= 2
  {
  }

  /** Matching `run` with the first piece is the first choice, and the rest is matched as given. */
  lemma Step(piece: Piece, rest: seq<Piece>, run: string, tail: string, s: string, parts: seq<string>)
    requires Fits(piece, run) && Match(rest, tail) == Some(parts) && s == run + tail
    requires tail != "" && (piece.max.Some? ==> |run| < piece.max.value) ==> !piece.accepts(tail[0])
    ensures Match([piece] + rest, s) == Some([run] + parts)
  {
    assert ([piece] + rest)[1..] == rest;
    FirstChoice([piece] + rest, run, tail);
  }

  function AfterFeetParts(inches: string, rest: seq<string>): seq<string> {
    [""] + (["-"] + ([""] + ([inches] + ([""] + (["\""] + rest)))))
  }

  function DimensionParts(feet: string, inches: string, rest: seq<string>): seq<string> {
    [feet] + ([""] + (["'"] + AfterFeetParts(inches, rest)))
  }

  lemma MatchInches(inches: string, rest: seq<Piece>, tail: string, parts: seq<string>)
    requires 1 <= |inches| <= 2 && AllDigits(inches) && Match(rest, tail) == Some(parts)
    ensures Match(AfterFeet(rest), "-" + inches + "\"" + tail) == Some(AfterFeetParts(inches, parts))
  {
    var mark := "\"" + tail;
    MatchMark(rest, tail, parts);
    var r2, p2 := [SPACES] + ([INCH_MARK] + rest), [""] + (["\""] + parts);
    Step(DIGITS_0_2, r2, inches, mark, inches + mark, p2);
    assert IsDigit((inches + mark)[0]);
    MatchDash([DIGITS_0_2] + r2, inches + mark, [inches] + p2);
    assert "-" + (inches + mark) == "-" + inches + "\"" + tail;
  }

  lemma MatchMark(rest: seq<Piece>, tail: string, parts: seq<string>)
    requires Match(rest, tail) == Some(parts)
    ensures Match([SPACES] + ([INCH_MARK] + rest), "\"" + tail) == Some([""] + (["\""] + parts))
  {
    var mark := "\"" + tail;
    Step(INCH_MARK, rest, "\"", tail, mark, parts);
    Step(SPACES, [INCH_MARK] + rest, "", mark, mark, ["\""] + parts);
  }

  lemma MatchDash(rest: seq<Piece>, digits: string, parts: seq<string>)
    requires Match(rest, digits) == Some(parts) && digits != "" && IsDigit(digits[0])
    ensures Match([SPACES] + ([DASH] + ([SPACES] + rest)), "-" + digits) == Some([""] + (["-"] + ([""] + parts)))
  {
    Step(SPACES, rest, "", digits, digits, parts);
    var r1, p1 := [SPACES] + rest, [""] + parts;
    var dash := "-" + digits;
    Step(DASH, r1, "-", digits, dash, p1);
    Step(SPACES, [DASH] + r1, "", dash, dash, ["-"] + p1);
  }

  lemma MatchFeet(feet: string, rest: seq<Piece>, after: string, parts: seq<string>)
    requires 1 <= |feet| <= 2 && AllDigits(feet) && Match(rest, after) == Some(parts)
    ensures Match([DIGITS_1_2] + ([SPACES] + ([FEET_MARK] + rest)), feet + ("'" + after))
      == Some([feet] + ([""] + (["'"] + parts)))
  {
    var mark := "'" + after;
    Step(FEET_MARK, rest, "'", after, mark, parts);
    var r1, p1 := [FEET_MARK] + rest, ["'"] + parts;
    Step(SPACES, r1, "", mark, mark, p1);
    Step(DIGITS_1_2, [SPACES] + r1, feet, mark, feet + mark, [""] + p1);
  }

  lemma MatchDimension(feet: string, inches: string, rest: seq<Piece>, tail: string, parts: seq<string>)
    requires 1 <= |feet| <= 2 && AllDigits(feet) && 1 <= |inches| <= 2 && AllDigits(inches)
    requires Match(rest, tail) == Some(parts)
    ensures Match(Dimension(rest), feet + "'-" + inches + "\"" + tail) == Some(DimensionParts(feet, inches, parts))
  {
    var after := "-" + inches + "\"" + tail;
    MatchInches(inches, rest, tail, parts);
    MatchFeet(feet, AfterFeet(rest), after, AfterFeetParts(inches, parts));
    assert feet + ("'" + after) == feet + "'-" + inches + "\"" + tail;
  }

  lemma MatchSeparator(rest: seq<Piece>, tail: string, parts: seq<string>)
    requires Match(rest, tail) == Some(parts) && tail != "" && IsDigit(tail[0])
    ensures Match(Separator(rest), " X " + tail) == Some([" "] + (["X"] + ([" "] + parts)))
  {
    Step(SPACES, rest, " ", tail, " " + tail, parts);
    var times := "X" + (" " + tail);
    Step(TIMES, [SPACES] + rest, "X", " " + tail, times, [" "] + parts);
    Step(SPACES, [TIMES] + ([SPACES] + rest), " ", times, " " + times, ["X"] + ([" "] + parts));
    assert " " + times == " X " + tail;
  }

  /** The text the parser sees when it is given a printed size. */
  function Printed(wf: string, wi: string, hf: string, hi: string): string {
    wf + "'-" + wi + "\"" + (" X " + (hf + "'-" + hi + "\"" + ""))
  }

  lemma MatchPrinted(wf: string, wi: string, hf: string, hi: string)
    requires AreNumerals(Groups(wf, wi, hf, hi)) && wi != "" && hi != ""
    ensures MatchExplicit(Printed(wf, wi, hf, hi)) == Some(Groups(wf, wi, hf, hi))
  {
    var second := hf + "'-" + hi + "\"" + "";
    MatchDimension(hf, hi, [], "", []);
    MatchSeparator(Dimension([]), second, DimensionParts(hf, hi, []));
    var p := [" "] + (["X"] + ([" "] + DimensionParts(hf, hi, [])));
    MatchDimension(wf, wi, Separator(Dimension([])), " X " + second, p);
    CapturedParts(wf, wi, hf, hi);
  }

  lemma CapturedParts(wf: string, wi: string, hf: string, hi: string)
    ensures var parts := DimensionParts(wf, wi, [" "] + (["X"] + ([" "] + DimensionParts(hf, hi, []))));
      |parts| == 21 && Captured(parts) == Groups(wf, wi, hf, hi)
  {
  }

  lemma UpperOfDigits(s: string)
    requires AllDigits(s)
    ensures Upper(s) == s
  {
  }

  function LowerPrinted(wf: string, wi: string, hf: string, hi: string): string {
    wf + "'-" + wi + "\"" + " x " + (hf + "'-" + hi + "\"")
  }

  lemma UpperOfPrinted(wf: string, wi: string, hf: string, hi: string)
    requires AllDigits(wf) && AllDigits(wi) && AllDigits(hf) && AllDigits(hi)
    ensures Upper(LowerPrinted(wf, wi, hf, hi)) == Printed(wf, wi, hf, hi)
  {
    var a, b := LowerPrinted(wf, wi, hf, hi), Printed(wf, wi, hf, hi);
    assert |a| == |b|;
    forall i | 0 <= i < |a| ensures UpperChar(a[i]) == b[i] {
    }
  }

  lemma PrintedIsTrimmed(wf: string, wi: string, hf: string, hi: string)
    requires AllDigits(wf) && wf != ""
    ensures Strip(LowerPrinted(wf, wi, hf, hi)) == LowerPrinted(wf, wi, hf, hi)
  {
    var s := LowerPrinted(wf, wi, hf, hi);
    assert s[0] == wf[0] && s[|s| - 1] == '"';
  }

  lemma PrintedIsNotShorthand(wf: string, wi: string, hf: string, hi: string)
    ensures !IsFourDigits(Squeezed(Printed(wf, wi, hf, hi)))
  {
    var text := Printed(wf, wi, hf, hi);
    var keep := (c: char) => !IsSpace(c) && c != '-';
    assert text[|wf|] == '\'';
    FilterKeepsAll(text, keep, |wf|);
    var j :| 0 <= j < |Squeezed(text)| && Squeezed(text)[j] == '\'';
  }

  lemma PrintedNumeralsParse(wf: string, wi: string, hf: string, hi: string)
    requires AreNumerals(Groups(wf, wi, hf, hi)) && wi != "" && hi != ""
    ensures ParseSize(Some(LowerPrinted(wf, wi, hf, hi))) == FromGroups(Groups(wf, wi, hf, hi))
  {
    PrintedIsTrimmed(wf, wi, hf, hi);
    UpperOfPrinted(wf, wi, hf, hi);
    PrintedIsNotShorthand(wf, wi, hf, hi);
    MatchPrinted(wf, wi, hf, hi);
  }

  lemma GroupsOfInches(width: nat, height: nat)
    requires width < 1200 && height < 1200
    ensures var g := Groups(Str(width / 12), Str(width % 12), Str(height / 12), Str(height % 12));
      AreNumerals(g) && FromGroups(g) == Size(width, height)
  {
    ShortStr(width / 12);
    ShortStr(width % 12);
    ShortStr(height / 12);
    ShortStr(height % 12);
    IntOfStr(width / 12);
    IntOfStr(width % 12);
    IntOfStr(height / 12);
    IntOfStr(height % 12);
  }

  lemma PrintedParses(width: nat, height: nat)
    requires width < 1200 && height < 1200
    ensures ParseSize(Some(FormatSize(Some(width), Some(height)))) == Size(width, height)
  {
    GroupsOfInches(width, height);
    PrintedNumeralsParse(Str(width / 12), Str(width % 12), Str(height / 12), Str(height % 12));
    assert FormatSize(Some(width), Some(height))
        == LowerPrinted(Str(width / 12), Str(width % 12), Str(height / 12), Str(height % 12));
  }

  /** Printing and parsing undo each other exactly on dimensions from 0 to 1199 inches. */
  lemma RoundTripIff(width: int, height: int)
    ensures ParseSize(Some(FormatSize(Some(width), Some(height)))) == Size(width, height)
      <==> 0 <= width < 1200 && 0 <= height < 1200
  {
    ParsedSizesAreInRange(Some(FormatSize(Some(width), Some(height))));
    if 0 <= width < 1200 && 0 <= height < 1200 {
      PrintedParses(width, height);
    }
  }

  /** Printing what parsed, and parsing that, gives the same size: for any text at all. */
  lemma ReparsingChangesNothing(raw: Option<string>)
    requires ParseSize(raw).Size?
    ensures var p := ParseSize(raw);
      ParseSize(Some(FormatSize(Some(p.width), Some(p.height)))) == p
  {
    ParsedSizesAreInRange(raw);
    PrintedParses(ParseSize(raw).width, ParseSize(raw).height);
  }

  /** A missing dimension prints as nothing, which is flagged as no size. */
  lemma MissingDimensionIsFlagged(width: Option<int>, height: Option<int>)
    requires width.None? || height.None?
    ensures ParseSize(Some(FormatSize(width, height))) == Flagged(NoSize)
  {
  }

  /** The fixed rule: four digits are feet, inches, feet, inches, and no dimension has zero feet. */
  lemma ShorthandRule(s: string)
    requires IsFourDigits(s)
    ensures ParseSize(Some(s)) == FromShorthand(s)
    ensures ParseSize(Some(s)).Flagged? <==> s[0] == '0' || s[2] == '0'
  {
    assert Strip(s) == s;
    UpperOfDigits(s);
    KeepsAll(s, (c: char) => !IsSpace(c) && c != '-');
  }

  lemma {:induction false} KeepsAll(s: string, keep: char -> bool)
    requires forall i :: 0 <= i < |s| ==> keep(s[i])
    ensures Filter(s, keep) == s
  {
    if s != "" {
      KeepsAll(s[..|s| - 1], keep);
      assert s == s[..|s| - 1] + [s[|s| - 1]];
    }
  }

  /**
   A trimmed text that is no shorthand is read exactly when it can be read as two dimensions at
   all, and then by the reading that takes longer runs first, with up to 11 inches.
   */
  lemma ExplicitParsesIff(text: string)
    requires Strip(text) == text && text != "" && !IsFourDigits(Squeezed(Upper(text)))
    ensures ParseSize(Some(text)) != Flagged(NotASize) <==> CanMatch(Explicit(), Upper(text))
    ensures ParseSize(Some(text)) != Flagged(NotASize) ==>
      MatchExplicit(Upper(text)).Some? && ParseSize(Some(text)) == FromGroups(MatchExplicit(Upper(text)).value)
  {
    MatchIffPossible(Explicit(), Upper(text));
  }
}
