/**
 The occurrence count built by the win evaluation: a `symbolCounts` object
 whose keys keep insertion order, the `find` of the first key counted twice,
 and the positions of a symbol on the reels.
 */
module Tally {
  import opened Options
  import opened Symbols

  /** Reference definition: how often `s` occurs in `g`. */
  function Count(g: seq<Sym>, s: Sym): nat
  {
    multiset(g)[s]
  }

  /** A tally from symbol to count, keys in insertion order. */
  type Counts = seq<(Sym, nat)>

  predicate DistinctKeys(t: Counts)
  {
    forall i, j :: 0 <= i < j < |t| ==> t[i].0 != t[j].0
  }

  /** The value stored under `s`, or 0 when `s` has no key. */
  function Lookup(t: Counts, s: Sym): nat
  {
    if |t| == 0 then 0
    else if t[0].0 == s then t[0].1
    else Lookup(t[1..], s)
  }

  /** Every key's count is stored under that key. */
  lemma {:induction false} LookupAtKey(t: Counts, k: nat)
    requires DistinctKeys(t)
    requires k < |t|
    ensures Lookup(t, t[k].0) == t[k].1
  {
    if k > 0 {
      assert t[1..][k - 1] == t[k];
      LookupAtKey(t[1..], k - 1);
    }
  }

  /** One increment of the count of `s`, a missing count reading as 0: bump
      an existing key in place or append a new key with count 1. */
  function Bump(t: Counts, s: Sym): Counts
  {
    if |t| == 0 then [(s, 1)]
    else if t[0].0 == s then [(s, t[0].1 + 1)] + t[1..]
    else [t[0]] + Bump(t[1..], s)
  }

  /** Bumping keeps the keys distinct, adds one to the count of `s` only,
      and introduces no key other than `s`. */
  lemma BumpSpec(t: Counts, s: Sym)
    requires DistinctKeys(t)
    ensures var r := Bump(t, s);
      && DistinctKeys(r)
      && (forall x :: Lookup(r, x) == Lookup(t, x) + (if x == s then 1 else 0))
      && (forall k :: 0 <= k < |r| ==> r[k].0 == s || exists j :: 0 <= j < |t| && t[j] == r[k])
  {
    BumpLookup(t, s);
    BumpKeys(t, s);
    BumpDistinct(t, s);
  }

  lemma {:induction false} BumpLookup(t: Counts, s: Sym)
    ensures forall x :: Lookup(Bump(t, s), x) == Lookup(t, x) + (if x == s then 1 else 0)
  {
    if |t| > 0 && t[0].0 != s {
      BumpLookup(t[1..], s);
      var r := Bump(t, s);
      assert r[1..] == Bump(t[1..], s);
    }
  }

  lemma {:induction false} BumpKeys(t: Counts, s: Sym)
    ensures forall k :: 0 <= k < |Bump(t, s)| ==>
      Bump(t, s)[k].0 == s || exists j :: 0 <= j < |t| && t[j] == Bump(t, s)[k]
  {
    if |t| > 0 && t[0].0 != s {
      var rest := Bump(t[1..], s);
      BumpKeys(t[1..], s);
      var r := [t[0]] + rest;
      forall k | 0 <= k < |r| && r[k].0 != s
        ensures exists j :: 0 <= j < |t| && t[j] == r[k]
      {
        if k == 0 {
          assert t[0] == r[0];
        } else {
          assert r[k] == rest[k - 1];
          var j :| 0 <= j < |t[1..]| && t[1..][j] == rest[k - 1];
          assert t[j + 1] == r[k];
        }
      }
    }
  }

  lemma {:induction false} BumpDistinct(t: Counts, s: Sym)
    requires DistinctKeys(t)
    ensures DistinctKeys(Bump(t, s))
  {
    if |t| > 0 && t[0].0 != s {
      var rest := Bump(t[1..], s);
      BumpDistinct(t[1..], s);
      BumpKeys(t[1..], s);
      forall k | 0 <= k < |rest|
        ensures rest[k].0 != t[0].0
      {
        if rest[k].0 != s {
          var j :| 0 <= j < |t[1..]| && t[1..][j] == rest[k];
          assert t[j + 1] == rest[k];
        }
      }
      var r := [t[0]] + rest;
      assert forall k :: 1 <= k < |r| ==> r[k] == rest[k - 1];
    } else if |t| > 0 {
      var r := Bump(t, s);
      assert forall k :: 1 <= k < |r| ==> r[k] == t[k];
    }
  }

  /** Every stored count is at least one. */
  predicate Positive(t: Counts)
  {
    forall k :: 0 <= k < |t| ==> t[k].1 >= 1
  }

  /** The tally the forEach over the grid builds, reel by reel. */
  function CountSymbols(g: seq<Sym>): Counts
  {
    if |g| == 0 then [] else Bump(CountSymbols(g[..|g| - 1]), g[|g| - 1])
  }

  /** The tally has one key per symbol present, each holding that symbol's
      number of occurrences. */
  lemma {:induction false} CountSymbolsSpec(g: seq<Sym>)
    ensures var t := CountSymbols(g);
      && DistinctKeys(t)
      && Positive(t)
      && (forall x :: Lookup(t, x) == Count(g, x))
  {
    if |g| > 0 {
      var front := g[..|g| - 1];
      CountSymbolsSpec(front);
      assert g == front + [g[|g| - 1]];
      var t := CountSymbols(g);
      BumpSpec(CountSymbols(front), g[|g| - 1]);
      forall k | 0 <= k < |t|
        ensures t[k].1 >= 1
      {
        LookupAtKey(t, k);
      }
    }
  }

  /** The first key, in insertion order, whose count is exactly 2. */
  function FindPair(t: Counts): Option<Sym>
  {
    if |t| == 0 then None
    else if t[0].1 == 2 then Some(t[0].0)
    else FindPair(t[1..])
  }

  /** The search finds a key exactly when some key is counted twice, and
      what it finds is such a key. */
  lemma {:induction false} FindPairSpec(t: Counts)
    ensures FindPair(t).Some? <==> exists k :: 0 <= k < |t| && t[k].1 == 2
    ensures FindPair(t).Some? ==> exists k :: 0 <= k < |t| && t[k] == (FindPair(t).value, 2)
  {
    if |t| > 0 && t[0].1 != 2 {
      FindPairSpec(t[1..]);
      assert forall k :: 1 <= k < |t| ==> t[k] == t[1..][k - 1];
    }
  }

  /** The pair symbol the source finds is a symbol occurring exactly twice,
      and it finds none exactly when no symbol occurs twice. */
  lemma PairFoundIffCountTwo(g: seq<Sym>)
    ensures FindPair(CountSymbols(g)).Some? ==> Count(g, FindPair(CountSymbols(g)).value) == 2
    ensures FindPair(CountSymbols(g)).None? <==> forall s :: Count(g, s) != 2
  {
    var t := CountSymbols(g);
    CountSymbolsSpec(g);
    FindPairSpec(t);
    match FindPair(t)
    case Some(p) =>
      var k :| 0 <= k < |t| && t[k] == (p, 2);
      LookupAtKey(t, k);
    case None =>
      forall s
        ensures Count(g, s) != 2
      {
        LookupNotTwo(t, s);
      }
  }

  /** With no stored count equal to 2, no lookup yields 2. */
  lemma {:induction false} LookupNotTwo(t: Counts, s: Sym)
    requires forall k :: 0 <= k < |t| ==> t[k].1 != 2
    ensures Lookup(t, s) != 2
  {
    if |t| > 0 && t[0].0 != s {
      assert forall k :: 0 <= k < |t[1..]| ==> t[1..][k] == t[k + 1];
      LookupNotTwo(t[1..], s);
    }
  }

  /** The reel indices holding `p`, in increasing order (the pair highlight). */
  function Positions(g: seq<Sym>, p: Sym): seq<nat>
  {
    if |g| == 0 then []
    else Positions(g[..|g| - 1], p) + (if g[|g| - 1] == p then [|g| - 1] else [])
  }

  /** The positions are exactly the indices holding `p`, ascending, one per
      occurrence. */
  lemma {:induction false} PositionsSpec(g: seq<Sym>, p: Sym)
    ensures var r := Positions(g, p);
      && |r| == Count(g, p)
      && (forall k :: 0 <= k < |r| ==> r[k] < |g| && g[r[k]] == p)
      && (forall i :: 0 <= i < |g| && g[i] == p ==> i in r)
      && (forall a, b :: 0 <= a < b < |r| ==> r[a] < r[b])
  {
    if |g| > 0 {
      var front := g[..|g| - 1];
      var last := g[|g| - 1];
      PositionsSpec(front, p);
      assert g == front + [last];
      assert Count(g, p) == Count(front, p) + (if last == p then 1 else 0);
      var prev := Positions(front, p);
      var r := Positions(g, p);
      assert r == prev + (if last == p then [|g| - 1] else []);
      forall i | 0 <= i < |g| && g[i] == p
        ensures i in r
      {
        if i < |g| - 1 {
          assert front[i] == g[i];
          assert i in prev;
        }
      }
    }
  }
}
