/** Textract block ids and their sort order, which is what `sorted(...)` uses on strings. */
module BlockIds {
  import opened Prelude

  type BlockId = s: string | s != "" witness "b"

  /** Lexicographic order on strings. */
  predicate Less(a: string, b: string) {
    if b == "" then false
    else if a == "" then true
    else a[0] < b[0] || (a[0] == b[0] && Less(a[1..], b[1..]))
  }

  lemma {:induction false} LessIsTransitive(a: string, b: string, c: string)
    requires Less(a, b) && Less(b, c)
    ensures Less(a, c)
  {
    if a != "" && a[0] == b[0] == c[0] {
      LessIsTransitive(a[1..], b[1..], c[1..]);
    }
  }

  lemma {:induction false} LessIsTotal(a: string, b: string)
    ensures (if Less(a, b) then 1 else 0) + (if Less(b, a) then 1 else 0) + (if a == b then 1 else 0) == 1
  {
    if a != "" && b != "" && a[0] == b[0] {
      LessIsTotal(a[1..], b[1..]);
      assert a == [a[0]] + a[1..] && b == [b[0]] + b[1..];
    }
  }

  /** How many of `ids` sort before `id`. */
  function Rank(ids: set<BlockId>, id: BlockId): (r: nat) {
    |set k | k in ids && Less(k, id)|
  }

  ghost predicate SortedIds(s: seq<BlockId>) {
    forall i, j :: 0 <= i < j < |s| ==> Less(s[i], s[j])
  }

  /** `sorted(ids).index(id)` is the rank of `id`, so the model may use either. */
  lemma SortedIndexIsRank(ids: set<BlockId>, s: seq<BlockId>, i: nat)
    requires SortedIds(s) && (forall id :: id in ids <==> id in s) && i < |s|
    ensures Rank(ids, s[i]) == i
  {
    var below := set k | k in ids && Less(k, s[i]);
    forall k | k in below
      ensures k in s[..i]
    {
      var j :| 0 <= j < |s| && s[j] == k;
      if j >= i {
        NotBefore(s, i, j);
      }
    }
    assert below == Members(s[..i]);
    DistinctPrefixSize(s, i);
  }

  lemma NotBefore(s: seq<BlockId>, i: nat, j: nat)
    requires SortedIds(s) && i <= j < |s|
    ensures !Less(s[j], s[i])
  {
    LessIsTotal(s[i], s[j]);
    assert i < j ==> Less(s[i], s[j]);
  }

  ghost function Members(s: seq<BlockId>): set<BlockId> {
    set k | k in s
  }

  lemma NotInPrefix(s: seq<BlockId>, n: nat)
    requires SortedIds(s) && n < |s|
    ensures s[n] !in Members(s[..n])
  {
    forall j | 0 <= j < n ensures s[j] != s[n] {
      assert Less(s[j], s[n]);
      LessIsTotal(s[j], s[n]);
    }
  }

  lemma {:induction false} DistinctPrefixSize(s: seq<BlockId>, n: nat)
    requires SortedIds(s) && n <= |s|
    ensures |Members(s[..n])| == n
  {
    if n > 0 {
      DistinctPrefixSize(s, n - 1);
      NotInPrefix(s, n - 1);
      OneMoreMember(s[..n - 1], s[n - 1]);
      assert s[..n] == s[..n - 1] + [s[n - 1]];
    }
  }

  lemma OneMoreMember(s: seq<BlockId>, x: BlockId)
    requires x !in Members(s)
    ensures |Members(s + [x])| == |Members(s)| + 1
  {
    assert Members(s + [x]) == Members(s) + {x};
  }

  /** On distinct ids of one set, the rank orders exactly as the sort order does. */
  lemma RankIsStrictlyMonotone(ids: set<BlockId>, a: BlockId, b: BlockId)
    requires a in ids && b in ids
    ensures Less(a, b) <==> Rank(ids, a) < Rank(ids, b)
  {
    LessIsTotal(a, b);
    if Less(a, b) {
      RankGrows(ids, a, b);
    } else if Less(b, a) {
      RankGrows(ids, b, a);
    }
  }

  lemma RankGrows(ids: set<BlockId>, a: BlockId, b: BlockId)
    requires a in ids && Less(a, b)
    ensures Rank(ids, a) < Rank(ids, b)
  {
    var belowA := set k | k in ids && Less(k, a);
    var belowB := set k | k in ids && Less(k, b);
    forall k | k in belowA
      ensures k in belowB
    {
      LessIsTransitive(k, a, b);
    }
    LessIsTotal(a, a);
    assert a in belowB && a !in belowA;
    SubsetSize(belowA, belowB);
  }
}
