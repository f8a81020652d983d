/**
 A backtracking matcher for patterns that are a row of greedy repetitions, which is what the size
 patterns are. It is proved against the declarative notion of a match: it finds one exactly when
 there is one, and the one it finds prefers longer pieces from the left, as Python's `re` does.
 */
module Backtracking {
  import opened Prelude

  /** Between `min` and `max` characters of a class, as many as possible. */
  datatype Piece = Piece(accepts: char -> bool, min: nat, max: Option<nat>)

  predicate Fits(piece: Piece, part: string) {
    && piece.min <= |part| && (piece.max.Some? ==> |part| <= piece.max.value)
    && forall i :: 0 <= i < |part| ==> piece.accepts(part[i])
  }

  /** `parts` are consecutive pieces of `s`, each fitting its place, and make up all of it. */
  ghost predicate IsMatch(pieces: seq<Piece>, s: string, parts: seq<string>) {
    if pieces == [] then
      parts == [] && s == ""
    else
      && parts != [] && parts[0] <= s && Fits(pieces[0], parts[0])
      && IsMatch(pieces[1..], s[|parts[0]|..], parts[1..])
  }

  /** The longest run of accepted characters, up to the maximum. */
  function Longest(piece: Piece, s: string, n: nat): (r: nat)
    requires n <= |s|
    ensures n <= r <= |s|
    decreases |s| - n
  {
    if n < |s| && (piece.max.Some? ==> n < piece.max.value) && piece.accepts(s[n]) then Longest(piece, s, n + 1) else n
  }

  function Match(pieces: seq<Piece>, s: string): Option<seq<string>>
    decreases |pieces|, |s| + 1
  {
    if pieces == [] then
      if s == "" then Some([]) else None
    else
      Try(pieces, s, Longest(pieces[0], s, 0))
  }

  /** Take `n` characters for the first piece, and fewer if the rest then fails. */
  function Try(pieces: seq<Piece>, s: string, n: nat): Option<seq<string>>
    requires pieces != [] && n <= |s|
    decreases |pieces|, n
  {
    if n < pieces[0].min then
      None
    else
      var rest := Match(pieces[1..], s[n..]);
      if rest.Some? then Some([s[..n]] + rest.value) else if n == 0 then None else Try(pieces, s, n - 1)
  }

  lemma {:induction false} LongestIsLongest(piece: Piece, s: string, n: nat, m: nat)
    requires n <= |s| && (forall i :: 0 <= i < n ==> piece.accepts(s[i])) && (piece.max.Some? ==> n <= piece.max.value)
    ensures var r := Longest(piece, s, n);
      && (forall i :: 0 <= i < r ==> piece.accepts(s[i])) && (piece.max.Some? ==> r <= piece.max.value)
      && (m <= |s| && Fits(piece, s[..m]) ==> m <= r)
    decreases |s| - n
  {
    if n < |s| && (piece.max.Some? ==> n < piece.max.value) && piece.accepts(s[n]) {
      LongestIsLongest(piece, s, n + 1, m);
    } else if m <= |s| && Fits(piece, s[..m]) && m > n {
      assert s[..m][n] == s[n];
    }
  }

  /** What the matcher finds is a match. */
  lemma {:induction false} MatchIsSound(pieces: seq<Piece>, s: string)
    ensures Match(pieces, s).Some? ==> IsMatch(pieces, s, Match(pieces, s).value)
    decreases |pieces|, |s| + 1
  {
    if pieces != [] {
      LongestIsLongest(pieces[0], s, 0, 0);
      TryIsSound(pieces, s, Longest(pieces[0], s, 0));
    }
  }

  lemma {:induction false} TryIsSound(pieces: seq<Piece>, s: string, n: nat)
    requires pieces != [] && n <= |s|
    requires (forall i :: 0 <= i < n ==> pieces[0].accepts(s[i])) && (pieces[0].max.Some? ==> n <= pieces[0].max.value)
    ensures Try(pieces, s, n).Some? ==> IsMatch(pieces, s, Try(pieces, s, n).value)
    decreases |pieces|, n
  {
    if n >= pieces[0].min {
      MatchIsSound(pieces[1..], s[n..]);
      var rest := Match(pieces[1..], s[n..]);
      if rest.Some? {
        assert ([s[..n]] + rest.value)[1..] == rest.value;
      } else if n > 0 {
        TryIsSound(pieces, s, n - 1);
      }
    }
  }

  /** `a` takes at least as much as `b` at the first place where they differ. */
  ghost predicate Prefers(a: seq<string>, b: seq<string>) {
    a == [] || b == [] || |a[0]| > |b[0]| || (|a[0]| == |b[0]| && Prefers(a[1..], b[1..]))
  }

  /** Whenever there is a match the matcher finds one, and one preferred to it. */
  lemma {:induction false} MatchIsComplete(pieces: seq<Piece>, s: string, parts: seq<string>)
    requires IsMatch(pieces, s, parts)
    ensures Match(pieces, s).Some? && Prefers(Match(pieces, s).value, parts)
    decreases |pieces|, |s| + 1
  {
    if pieces != [] {
      assert s[..|parts[0]|] == parts[0];
      LongestIsLongest(pieces[0], s, 0, |parts[0]|);
      TryIsComplete(pieces, s, Longest(pieces[0], s, 0), parts);
    }
  }

  lemma {:induction false} TryIsComplete(pieces: seq<Piece>, s: string, n: nat, parts: seq<string>)
    requires pieces != [] && n <= |s| && IsMatch(pieces, s, parts) && |parts[0]| <= n
    ensures Try(pieces, s, n).Some? && Prefers(Try(pieces, s, n).value, parts)
    decreases |pieces|, n
  {
    var rest := Match(pieces[1..], s[n..]);
    if n == |parts[0]| {
      MatchIsComplete(pieces[1..], s[n..], parts[1..]);
      assert ([s[..n]] + rest.value)[1..] == rest.value;
    } else if rest.None? {
      TryIsComplete(pieces, s, n - 1, parts);
    }
  }

  ghost predicate CanMatch(pieces: seq<Piece>, s: string) {
    exists parts :: IsMatch(pieces, s, parts)
  }

  /** There is a match exactly when one is found, and it is preferred to every other. */
  lemma MatchIffPossible(pieces: seq<Piece>, s: string)
    ensures Match(pieces, s).Some? <==> CanMatch(pieces, s)
    ensures Match(pieces, s).Some? ==> IsMatch(pieces, s, Match(pieces, s).value)
    ensures Match(pieces, s).Some? ==> forall parts :: IsMatch(pieces, s, parts) ==> Prefers(Match(pieces, s).value, parts)
  {
    MatchIsSound(pieces, s);
    forall parts | IsMatch(pieces, s, parts)
      ensures Match(pieces, s).Some? && Prefers(Match(pieces, s).value, parts)
    {
      MatchIsComplete(pieces, s, parts);
    }
  }

  /**
   When the first piece's run cannot be longer than `run` and the rest matches, the first choice
   is the right one.
   */
  lemma FirstChoice(pieces: seq<Piece>, run: string, tail: string)
    requires pieces != [] && Fits(pieces[0], run) && Match(pieces[1..], tail).Some?
    requires tail != "" && (pieces[0].max.Some? ==> |run| < pieces[0].max.value) ==> !pieces[0].accepts(tail[0])
    ensures Match(pieces, run + tail) == Some([run] + Match(pieces[1..], tail).value)
  {
    var s := run + tail;
    StopsAt(pieces[0], run, tail, 0);
    assert s[..|run|] == run && s[|run|..] == tail;
  }

  lemma {:induction false} StopsAt(piece: Piece, run: string, tail: string, n: nat)
    requires Fits(piece, run) && n <= |run|
    requires tail != "" && (piece.max.Some? ==> |run| < piece.max.value) ==> !piece.accepts(tail[0])
    ensures Longest(piece, run + tail, n) == |run|
    decreases |run| - n
  {
    if n < |run| {
      assert (run + tail)[n] == run[n];
      StopsAt(piece, run, tail, n + 1);
    } else if tail != "" {
      assert (run + tail)[n] == tail[0];
    }
  }
}
