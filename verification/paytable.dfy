/**
 The two literal multiplier tables of the win evaluation and the lookup
 that reads them, falling back to a default on a missing entry.
 */
module Paytable {
  import opened Options
  import opened Symbols

  /** A table read with a JavaScript logical-or default: a missing entry or a
      zero entry counts as false, so the fallback is taken. */
  function OrElse(entry: Option<real>, fallback: real): (r: real)
    ensures entry.Some? && entry.value != 0.0 ==> r == entry.value
    ensures entry.None? ==> r == fallback
  {
    match entry
    case Some(v) => if v != 0.0 then v else fallback
    case None => fallback
  }

  /** The three-of-a-kind table as keyed in the source. The entry written for
      the target glyph is keyed by a U+FFFD replacement character, which is
      none of the six symbols, so Target is deliberately left without an entry
      here and a triple of targets reaches the fallback. */
  function TripleEntry(s: Sym): (r: Option<real>)
    ensures r.None? <==> s == Target
    ensures r.Some? ==> r.value >= 3.0
  {
    match s
    case Skull => Some(3.0)
    case Pill => Some(5.0)
    case Target => None
    case Gear => Some(15.0)
    case Gun => Some(25.0)
    case Radiation => Some(100.0)
  }

  const TripleFallback: real := 2.0

  /** The pair table; every symbol has an entry. */
  function PairEntry(s: Sym): (r: Option<real>)
    ensures r.Some? && r.value >= 1.5
  {
    match s
    case Skull => Some(1.5)
    case Pill => Some(2.0)
    case Target => Some(2.5)
    case Gear => Some(3.0)
    case Gun => Some(4.0)
    case Radiation => Some(10.0)
  }

  const PairFallback: real := 1.0

  /** The triple table entry of `s`, or the fallback 2 when it has none. */
  function TripleMultiplier(s: Sym): (r: real)
    ensures r >= TripleFallback
    ensures r == TripleFallback <==> s == Target
  {
    OrElse(TripleEntry(s), TripleFallback)
  }

  /** The pair table entry of `s`, or the fallback 1, which is never taken. */
  function PairMultiplier(s: Sym): (r: real)
    ensures r == PairEntry(s).value
    ensures r > PairFallback
  {
    OrElse(PairEntry(s), PairFallback)
  }

  /** Because of the unmapped key, a triple of targets (at multiplier 1)
      pays less than a pair of targets; every other symbol pays more for a
      triple than for a pair. */
  lemma TripleOutpaysPairExceptTarget(s: Sym)
    ensures TripleMultiplier(s) > PairMultiplier(s) <==> s != Target
    ensures TripleMultiplier(Target) == 2.0 && PairMultiplier(Target) == 2.5
  {
  }
}
