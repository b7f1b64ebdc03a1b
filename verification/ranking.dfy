/** Ranking of scored memory records: the sort by non-increasing score and the
    `slice(0, topK)` that `OrbitMemory.search` applies to it. */
module Ranking {

  /** One search result: a record's id and text with its similarity to the query. */
  datatype Hit = Hit(id: string, text: string, score: real)

  /** Scores never increase along the sequence. */
  predicate Ranked(s: seq<Hit>)
  {
    forall i, j :: 0 <= i < j < |s| ==> s[i].score >= s[j].score
  }

  /** A hit that scores at least as much as every hit of a ranked sequence can lead it. */
  lemma RankedCons(x: Hit, s: seq<Hit>)
    requires Ranked(s)
    requires forall k :: 0 <= k < |s| ==> x.score >= s[k].score
    ensures Ranked([x] + s)
  {
  }

  /** Puts `h` into a ranked sequence ahead of every hit that does not outscore it. */
  function Insert(h: Hit, s: seq<Hit>): (r: seq<Hit>)
    requires Ranked(s)
    ensures Ranked(r)
    ensures multiset(r) == multiset(s) + multiset{h}
    decreases |s|
  {
    if |s| == 0 || h.score >= s[0].score then
      RankedCons(h, s);
      [h] + s
    else
      var rest := Insert(h, s[1..]);
      assert s == [s[0]] + s[1..];
      assert forall k :: 0 <= k < |rest| ==> s[0].score >= rest[k].score by {
        forall k | 0 <= k < |rest|
          ensures s[0].score >= rest[k].score
        {
          assert rest[k] in multiset(rest);
          if rest[k] != h {
            assert rest[k] in s[1..];
          }
        }
      }
      RankedCons(s[0], rest);
      [s[0]] + rest
  }

  /** The array sort with a comparator by descending score: a stable insertion sort, so hits of equal
      score keep their original order, as JavaScript's sort does. */
  function SortByScore(s: seq<Hit>): (r: seq<Hit>)
    ensures Ranked(r)
    ensures multiset(r) == multiset(s)
    decreases |s|
  {
    if |s| == 0 then []
    else
      assert s == [s[0]] + s[1..];
      Insert(s[0], SortByScore(s[1..]))
  }

  /** How many leading elements `slice(0, k)` keeps of an array of length `n`:
      a negative `k` counts back from the end. */
  function SliceEnd(n: nat, k: int): (e: nat)
    ensures e <= n
  {
    if k >= 0 then (if k < n then k else n)
    else if n + k > 0 then n + k
    else 0
  }

  /** `s.slice(0, k)`. */
  function TakeFirst(s: seq<Hit>, k: int): (prefix: seq<Hit>)
  {
    s[..SliceEnd(|s|, k)]
  }

  /** Every hit in `kept` scores at least as much as every hit in `dropped`. */
  ghost predicate Dominates(kept: seq<Hit>, dropped: multiset<Hit>)
  {
    forall x, y :: x in kept && y in dropped ==> x.score >= y.score
  }

  /** Every hit of a ranked prefix scores at least as much as every hit left behind. */
  lemma PrefixDominates(s: seq<Hit>, e: nat)
    requires Ranked(s) && e <= |s|
    ensures multiset(s) == multiset(s[..e]) + multiset(s[e..])
    ensures Dominates(s[..e], multiset(s) - multiset(s[..e]))
  {
    assert s == s[..e] + s[e..];
    forall x, y | x in s[..e] && y in multiset(s) - multiset(s[..e])
      ensures x.score >= y.score
    {
      assert y in multiset(s[e..]);
      assert y in s[e..];
    }
  }

  /** Sort, then `slice(0, k)`: the `k` best hits (all but the last `-k` when `k` is
      negative), best first, drawn from `s`, and no hit left out beats a hit kept. */
  function TopK(s: seq<Hit>, k: int): (r: seq<Hit>)
    ensures |r| == SliceEnd(|s|, k)
    ensures Ranked(r)
    ensures multiset(r) <= multiset(s)
    ensures Dominates(r, multiset(s) - multiset(r))
    ensures k >= |s| ==> multiset(r) == multiset(s)
  {
    var ranked := SortByScore(s);
    var r := TakeFirst(ranked, k);
    PrefixDominates(ranked, |r|);
    assert k >= |s| ==> r == ranked;
    r
  }
}
