/** Which texts are sizes and what they come to, stated on the characters of the text. */
module SizeReadings {
  import opened Prelude
  import opened Texts
  import opened Digits
  import opened Sorting
  import opened Backtracking
  import opened SizeParser

  // ------------------------------------------------------------------------
  // The shorthand
  // ------------------------------------------------------------------------

  predicate IsKept(c: char) {
    !IsSpace(c) && c != '-'
  }

  lemma {:induction false} UpperKeeps(s: string)
    ensures Filter(Upper(s), IsKept) == Upper(Filter(s, IsKept))
  {
    if s != "" {
      var before, last := s[..|s| - 1], s[|s| - 1];
      UpperKeeps(before);
      assert Upper(s)[..|s| - 1] == Upper(before);
      assert Upper(Filter(before, IsKept) + [last]) == Upper(Filter(before, IsKept)) + [UpperChar(last)];
    }
  }

  lemma SqueezedIs(text: string)
    ensures Squeezed(text) == Filter(text, IsKept)
  {
    SameFilter(text, (c: char) => !IsSpace(c) && c != '-', IsKept);
  }

  lemma StripKeeps(s: string)
    ensures Filter(Strip(s), IsKept) == Filter(s, IsKept)
  {
    var before, after := StripIs(s);
    FilterInParts(before + Strip(s), after, IsKept);
    FilterInParts(before, Strip(s), IsKept);
    FilterNone(before, IsKept);
    FilterNone(after, IsKept);
  }

  /** What is left of the text without spaces and dashes. */
  function Bare(raw: string): string {
    Filter(raw, IsKept)
  }

  predicate FourDigits(s: string) {
    |s| == 4 && forall i :: 0 <= i < 4 ==> '0' <= s[i] <= '9'
  }

  lemma BareIs(raw: string)
    ensures Squeezed(Upper(Strip(raw))) == Upper(Bare(raw))
    ensures IsFourDigits(Upper(Bare(raw))) <==> FourDigits(Bare(raw))
    ensures FourDigits(Bare(raw)) ==> Upper(Bare(raw)) == Bare(raw)
  {
    SqueezedIs(Upper(Strip(raw)));
    UpperKeeps(Strip(raw));
    StripKeeps(raw);
    var bare := Bare(raw);
    assert forall i :: 0 <= i < |bare| ==> (IsDigit(Upper(bare)[i]) <==> IsDigit(bare[i]));
    if FourDigits(bare) {
      UpperOfDigits(bare);
    }
  }

  lemma {:induction false} BlankHasNothing(s: string)
    ensures Strip(s) == "" ==> Bare(s) == ""
  {
    StripKeeps(s);
  }

  /**
   A text that is four digits but for spaces and dashes is feet, inches, feet, inches; zero feet are
   flagged.
   */
  lemma ShorthandReads(raw: string)
    requires FourDigits(Bare(raw))
    ensures var d, r := Bare(raw), ParseSize(Some(raw));
      && (d[0] == '0' || d[2] == '0' ==> r == Flagged(ZeroFeet))
      && (d[0] != '0' && d[2] != '0' ==>
            r == Size(12 * (d[0] - '0') as int + (d[1] - '0') as int, 12 * (d[2] - '0') as int + (d[3] - '0') as int))
  {
    BareIs(raw);
    BlankHasNothing(raw);
  }

  // ------------------------------------------------------------------------
  // The explicit form
  // ------------------------------------------------------------------------

  function Concat(parts: seq<string>): string {
    if parts == [] then "" else parts[0] + Concat(parts[1..])
  }

  lemma {:induction false} MatchIs(pieces: seq<Piece>, s: string, parts: seq<string>)
    ensures IsMatch(pieces, s, parts)
      <==> |parts| == |pieces| && s == Concat(parts) && forall i :: 0 <= i < |pieces| ==> Fits(pieces[i], parts[i])
    decreases |pieces|
  {
    if pieces != [] && parts != [] {
      var rest := pieces[1..];
      assert forall i :: 0 <= i < |rest| ==> rest[i] == pieces[i + 1];
      assert forall i :: 0 <= i < |parts[1..]| ==> parts[1..][i] == parts[i + 1];
      if parts[0] <= s {
        MatchIs(rest, s[|parts[0]|..], parts[1..]);
        assert s == parts[0] + s[|parts[0]|..];
        assert s == Concat(parts) <==> s[|parts[0]|..] == Concat(parts[1..]);
        assert (forall i :: 0 <= i < |pieces| && |parts| == |pieces| ==> Fits(pieces[i], parts[i]))
          <==> |parts| == |pieces| ==> Fits(pieces[0], parts[0]) && forall i :: 0 <= i < |rest| ==> Fits(rest[i], parts[i + 1]);
      }
    }
  }

  predicate IsNumeral(part: string, least: nat) {
    least <= |part| <= 2 && forall i :: 0 <= i < |part| ==> '0' <= part[i] <= '9'
  }

  /** Feet, the foot mark, perhaps a dash, inches or none, perhaps the inch mark, with spaces between. */
  predicate SpellsDimension(parts: seq<string>, from: nat)
    requires from + 9 <= |parts|
  {
    && IsNumeral(parts[from], 1) && AllSpace(parts[from + 1]) && parts[from + 2] == "'" && AllSpace(parts[from + 3])
    && (parts[from + 4] == "" || parts[from + 4] == "-" || (|parts[from + 4]| == 1 && IsSpace(parts[from + 4][0])))
    && AllSpace(parts[from + 5]) && IsNumeral(parts[from + 6], 0) && AllSpace(parts[from + 7])
    && (parts[from + 8] == "" || parts[from + 8] == "\"")
  }

  /** Two dimensions, with spaces and perhaps a cross between them. */
  predicate SpellsSize(parts: seq<string>) {
    && |parts| == 21 && SpellsDimension(parts, 0) && SpellsDimension(parts, 12)
    && AllSpace(parts[9]) && AllSpace(parts[11])
    && (parts[10] == "" || parts[10] == "x" || parts[10] == "X" || parts[10] == "\U{D7}")
  }

  lemma ExplicitIs()
    ensures Explicit() ==
      [DIGITS_1_2, SPACES, FEET_MARK, SPACES, DASH, SPACES, DIGITS_0_2, SPACES, INCH_MARK, SPACES, TIMES, SPACES,
       DIGITS_1_2, SPACES, FEET_MARK, SPACES, DASH, SPACES, DIGITS_0_2, SPACES, INCH_MARK]
  {
  }

  lemma NumeralFits(part: string)
    ensures Fits(DIGITS_1_2, part) <==> IsNumeral(part, 1)
    ensures Fits(DIGITS_0_2, part) <==> IsNumeral(part, 0)
    ensures Fits(SPACES, part) <==> AllSpace(part)
  {
  }

  lemma MarkFits(part: string)
    ensures Fits(FEET_MARK, part) <==> part == "'"
    ensures Fits(INCH_MARK, part) <==> part == "" || part == "\""
    ensures Fits(DASH, part) <==> part == "" || part == "-" || (|part| == 1 && IsSpace(part[0]))
    ensures Fits(TIMES, part) <==> part == "" || part == "x" || part == "X" || part == "\U{D7}"
  {
    assert |part| == 1 ==> part == [part[0]];
  }

  ghost predicate AllFit(pieces: seq<Piece>, parts: seq<string>) {
    |parts| == |pieces| && forall i :: 0 <= i < |pieces| ==> Fits(pieces[i], parts[i])
  }

  ghost predicate FitBetween(pieces: seq<Piece>, parts: seq<string>, low: nat, high: nat)
    requires low <= high <= |pieces| == |parts|
  {
    forall i :: low <= i < high ==> Fits(pieces[i], parts[i])
  }

  ghost predicate IsDimension(pieces: seq<Piece>, from: nat)
    requires from + 9 <= |pieces|
  {
    && pieces[from] == DIGITS_1_2 && pieces[from + 1] == SPACES && pieces[from + 2] == FEET_MARK && pieces[from + 3] == SPACES
    && pieces[from + 4] == DASH && pieces[from + 5] == SPACES && pieces[from + 6] == DIGITS_0_2
    && pieces[from + 7] == SPACES && pieces[from + 8] == INCH_MARK
  }

  lemma FeetFit(pieces: seq<Piece>, parts: seq<string>, from: nat)
    requires from + 9 <= |pieces| == |parts| && IsDimension(pieces, from)
    ensures FitBetween(pieces, parts, from, from + 4)
      <==> IsNumeral(parts[from], 1) && AllSpace(parts[from + 1]) && parts[from + 2] == "'" && AllSpace(parts[from + 3])
  {
    NumeralFits(parts[from]);
    NumeralFits(parts[from + 1]);
    MarkFits(parts[from + 2]);
    NumeralFits(parts[from + 3]);
  }

  lemma InchesFit(pieces: seq<Piece>, parts: seq<string>, from: nat)
    requires from + 9 <= |pieces| == |parts| && IsDimension(pieces, from)
    ensures FitBetween(pieces, parts, from + 4, from + 9)
      <==> (parts[from + 4] == "" || parts[from + 4] == "-" || (|parts[from + 4]| == 1 && IsSpace(parts[from + 4][0])))
           && AllSpace(parts[from + 5]) && IsNumeral(parts[from + 6], 0) && AllSpace(parts[from + 7])
           && (parts[from + 8] == "" || parts[from + 8] == "\"")
  {
    MarkFits(parts[from + 4]);
    NumeralFits(parts[from + 5]);
    NumeralFits(parts[from + 6]);
    NumeralFits(parts[from + 7]);
    MarkFits(parts[from + 8]);
  }

  lemma DimensionFits(pieces: seq<Piece>, parts: seq<string>, from: nat)
    requires from + 9 <= |pieces| == |parts| && IsDimension(pieces, from)
    ensures FitBetween(pieces, parts, from, from + 9) <==> SpellsDimension(parts, from)
  {
    FeetFit(pieces, parts, from);
    InchesFit(pieces, parts, from);
    assert FitBetween(pieces, parts, from, from + 9)
      <==> FitBetween(pieces, parts, from, from + 4) && FitBetween(pieces, parts, from + 4, from + 9);
  }

  lemma SeparatorFits(pieces: seq<Piece>, parts: seq<string>)
    requires 12 <= |pieces| == |parts| && pieces[9] == SPACES && pieces[10] == TIMES && pieces[11] == SPACES
    ensures FitBetween(pieces, parts, 9, 12)
      <==> AllSpace(parts[9]) && AllSpace(parts[11])
           && (parts[10] == "" || parts[10] == "x" || parts[10] == "X" || parts[10] == "\U{D7}")
  {
    NumeralFits(parts[9]);
    MarkFits(parts[10]);
    NumeralFits(parts[11]);
  }

  lemma PiecesAre()
    ensures var pieces := Explicit();
      && |pieces| == 21 && IsDimension(pieces, 0) && IsDimension(pieces, 12)
      && pieces[9] == SPACES && pieces[10] == TIMES && pieces[11] == SPACES
  {
    ExplicitIs();
  }

  lemma SizeFits(parts: seq<string>)
    ensures AllFit(Explicit(), parts) <==> SpellsSize(parts)
  {
    PiecesAre();
    if |parts| == 21 {
      SizeFitsInParts(Explicit(), parts);
    }
  }

  lemma SizeFitsInParts(pieces: seq<Piece>, parts: seq<string>)
    requires |pieces| == 21 == |parts| && IsDimension(pieces, 0) && IsDimension(pieces, 12)
    requires pieces[9] == SPACES && pieces[10] == TIMES && pieces[11] == SPACES
    ensures AllFit(pieces, parts) <==> SpellsSize(parts)
  {
    DimensionFits(pieces, parts, 0);
    SeparatorFits(pieces, parts);
    DimensionFits(pieces, parts, 12);
    assert AllFit(pieces, parts)
      <==> FitBetween(pieces, parts, 0, 9) && FitBetween(pieces, parts, 9, 12) && FitBetween(pieces, parts, 12, 21);
  }

  /** The parts are a way to read the text as a size. */
  ghost predicate Spells(parts: seq<string>, text: string) {
    SpellsSize(parts) && text == Concat(parts)
  }

  lemma MatchSpells(text: string, parts: seq<string>)
    ensures IsMatch(Explicit(), text, parts) <==> Spells(parts, text)
  {
    MatchIs(Explicit(), text, parts);
    SizeFits(parts);
  }

  /** What a numeral of at most two digits says; none says zero. */
  function Value(numeral: string): int
    requires IsNumeral(numeral, 0)
  {
    if |numeral| == 0 then 0
    else if |numeral| == 1 then (numeral[0] - '0') as int
    else 10 * (numeral[0] - '0') as int + (numeral[1] - '0') as int
  }

  lemma ValueIs(numeral: string)
    requires IsNumeral(numeral, 0)
    ensures AllDigits(numeral) && Int(numeral) == Value(numeral)
  {
    if |numeral| == 2 {
      assert numeral[..1][..0] == "";
      assert Int(numeral[..1]) == DigitValue(numeral[0]);
    } else if |numeral| == 1 {
      assert numeral[..0] == "";
    }
  }

  /** What the parts come to: more than eleven inches are flagged. */
  predicate ReadsAs(parts: seq<string>, size: ParsedSize)
    requires SpellsSize(parts)
  {
    if Value(parts[6]) > 11 || Value(parts[18]) > 11 then size == Flagged(InchesOutOfRange)
    else size == Size(12 * Value(parts[0]) + Value(parts[6]), 12 * Value(parts[12]) + Value(parts[18]))
  }

  /** The reading takes longer parts first. */
  ghost predicate IsPreferred(parts: seq<string>, text: string) {
    Spells(parts, text) && forall other :: Spells(other, text) ==> Prefers(parts, other)
  }

  lemma GroupsRead(parts: seq<string>)
    requires SpellsSize(parts)
    ensures AreNumerals(Captured(parts)) && ReadsAs(parts, FromGroups(Captured(parts)))
  {
    ValueIs(parts[0]);
    ValueIs(parts[6]);
    ValueIs(parts[12]);
    ValueIs(parts[18]);
  }

  lemma MatchReads(text: string)
    ensures MatchExplicit(text).None? ==> forall parts :: !Spells(parts, text)
    ensures MatchExplicit(text).Some? ==>
      exists parts :: IsPreferred(parts, text) && ReadsAs(parts, FromGroups(MatchExplicit(text).value))
  {
    MatchIffPossible(Explicit(), text);
    forall parts ensures IsMatch(Explicit(), text, parts) <==> Spells(parts, text) {
      MatchSpells(text, parts);
    }
    var found := Match(Explicit(), text);
    if found.Some? {
      assert IsPreferred(found.value, text);
      GroupsRead(found.value);
    }
  }

  /** Nothing but whitespace is no size. */
  lemma BlankIsNoSize(raw: Option<string>)
    ensures ParseSize(raw) == Flagged(NoSize) <==> raw.None? || AllSpace(raw.value)
  {
    if raw.Some? {
      var before, after := StripIs(raw.value);
      if Strip(raw.value) != "" {
        assert raw.value[|before|] == Strip(raw.value)[0];
      }
    }
  }

  /**
   Any other text that is not blank is read exactly when, trimmed and in upper case, it spells two
   dimensions at all; then by the reading that takes longer parts first.
   */
  lemma ExplicitReads(raw: string)
    requires !AllSpace(raw) && !FourDigits(Bare(raw))
    ensures var text, r := Upper(Strip(raw)), ParseSize(Some(raw));
      && (r == Flagged(NotASize) <==> forall parts :: !Spells(parts, text))
      && (r != Flagged(NotASize) ==> exists parts :: IsPreferred(parts, text) && ReadsAs(parts, r))
  {
    BareIs(raw);
    BlankIsNoSize(Some(raw));
    MatchReads(Upper(Strip(raw)));
  }
}
