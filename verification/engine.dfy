/**
 The win evaluation and progression ("pinball objectives") of one settled
 spin: a pure function from the three centre symbols, the objectives before
 the spin and the bet to the payout, its classification and the objectives
 after the spin.
 */
module Engine {
  import opened Options
  import opened Symbols
  import opened Paytable
  import opened Tally

  const ReelCount: nat := 3

  const JackpotGoal: nat := 100
  const TripleProgress: nat := 5
  const PairProgress: nat := 1
  const MultiplierStep: real := 0.5
  const MultiplierDecay: real := 0.1
  const MultiplierFloor: real := 1.0
  /** Every `StreakPeriod`-th streak increment on a triple raises the multiplier. */
  const StreakPeriod: nat := 3

  /** The scene's `objectives` record. */
  datatype Objectives = Objectives(
    streak: nat,
    collected: set<Sym>,
    bonusMultiplier: real,
    jackpotProgress: nat)

  /** The objectives a scene starts with. */
  const Fresh: Objectives := Objectives(0, {}, 1.0, 0)

  predicate Valid(o: Objectives)
  {
    o.bonusMultiplier >= MultiplierFloor
  }

  datatype WinClass = NoMatch | Pair | ThreeOfAKind

  /** What a spin pays and what the presentation layer highlights. */
  datatype SpinResult = SpinResult(
    payout: real,
    kind: WinClass,
    winningReels: seq<nat>,
    fullSetBonus: bool,
    jackpot: bool)

  datatype Evaluation = Evaluation(result: SpinResult, next: Objectives)

  function Max(a: real, b: real): real
  {
    if a >= b then a else b
  }

  /** Every reel shows the same symbol as the first. */
  predicate AllMatch(g: seq<Sym>)
    requires |g| > 0
  {
    forall i :: 0 <= i < |g| ==> g[i] == g[0]
  }

  /** The classification exactly as the source reaches it: the all-equal
      test first, then the tally-based pair search. */
  function Classify(g: seq<Sym>): (c: WinClass)
    requires |g| == ReelCount
    ensures c == ThreeOfAKind <==> g[0] == g[1] == g[2]
  {
    if AllMatch(g) then ThreeOfAKind
    else if FindPair(CountSymbols(g)).Some? then Pair
    else NoMatch
  }

  /** The three centre symbols are a triple, a pair, or all distinct, and
      the source's classification agrees with the occurrence counts. */
  lemma ClassifyByCounts(g: seq<Sym>)
    requires |g| == ReelCount
    ensures Classify(g) == ThreeOfAKind <==> g[0] == g[1] == g[2]
    ensures Classify(g) == ThreeOfAKind <==> Count(g, g[0]) == 3
    ensures Classify(g) == Pair <==> exists s :: Count(g, s) == 2
    ensures Classify(g) == NoMatch <==> forall s :: Count(g, s) <= 1
  {
    forall s
      ensures Count(g, s) == Hit(g[0], s) + Hit(g[1], s) + Hit(g[2], s)
    {
      CountOfThree(g, s);
    }
    if g[0] == g[1] == g[2] {
      assert AllMatch(g);
      assert forall s :: Count(g, s) != 2;
    } else {
      assert !AllMatch(g);
      PairFoundIffCountTwo(g);
      if FindPair(CountSymbols(g)).None? {
        forall s
          ensures Count(g, s) <= 1
        {
          assert Count(g, s) != 2 && Count(g, s) != 3;
        }
      }
    }
  }

  function Hit(a: Sym, s: Sym): nat
  {
    if a == s then 1 else 0
  }

  /** How often a symbol occurs in a three-reel grid. */
  lemma CountOfThree(g: seq<Sym>, s: Sym)
    requires |g| == ReelCount
    ensures Count(g, s) == Hit(g[0], s) + Hit(g[1], s) + Hit(g[2], s)
  {
    assert g == [g[0]] + [g[1]] + [g[2]];
  }

  /** By pigeonhole, three reels hold at most one symbol twice. */
  lemma PairSymbolUnique(g: seq<Sym>, s: Sym, t: Sym)
    requires |g| == ReelCount
    requires Count(g, s) == 2 && Count(g, t) == 2
    ensures s == t
  {
    assert g == [g[0], g[1], g[2]];
  }

  /** The objectives after a spin. The all-symbols check reads the collection
      after this spin's symbols were added. */
  function Progress(g: seq<Sym>, o: Objectives): (n: Objectives)
    requires |g| == ReelCount
    ensures Valid(o) ==> Valid(n)
    ensures o.collected + Elements(g) <= n.collected || n.collected == {}
  {
    var seen := o.collected + Elements(g);
    if AllMatch(g) then TripleObjectives(o, seen)
    else if FindPair(CountSymbols(g)).Some? then PairObjectives(o, seen)
    else MissObjectives(o, seen)
  }

  /** A triple: the streak rises, every third step raises the multiplier,
      a complete collection is cleared, the progress rises by 5 and resets
      once it reaches the goal. */
  function TripleObjectives(o: Objectives, seen: set<Sym>): Objectives
  {
    var streak := o.streak + 1;
    var progress := o.jackpotProgress + TripleProgress;
    Objectives(
      streak,
      if |seen| == SymbolCount then {} else seen,
      if streak % StreakPeriod == 0 then o.bonusMultiplier + MultiplierStep else o.bonusMultiplier,
      if progress >= JackpotGoal then 0 else progress)
  }

  /** A pair: the streak and the progress rise by one, nothing resets. */
  function PairObjectives(o: Objectives, seen: set<Sym>): Objectives
  {
    Objectives(o.streak + 1, seen, o.bonusMultiplier, o.jackpotProgress + PairProgress)
  }

  /** A miss: the streak resets and the multiplier decays towards 1. */
  function MissObjectives(o: Objectives, seen: set<Sym>): Objectives
  {
    Objectives(0, seen, Max(MultiplierFloor, o.bonusMultiplier - MultiplierDecay), o.jackpotProgress)
  }

  /** The payout of a spin. A triple is paid at the multiplier in force before
      this spin's update, doubled when the collection is complete and tripled
      when the jackpot fires; a pair ignores the multiplier. */
  function Payout(g: seq<Sym>, o: Objectives, bet: real): (r: SpinResult)
    requires |g| == ReelCount
    ensures r.kind == Classify(g)
    ensures r.fullSetBonus || r.jackpot ==> r.kind == ThreeOfAKind
  {
    if AllMatch(g) then TriplePay(g[0], o, o.collected + Elements(g), bet)
    else PairPay(g, bet)
  }

  /** A grid that is not three of a kind: a pair pays bet × the pair table
      and lights the two reels holding it, anything else pays nothing. */
  function PairPay(g: seq<Sym>, bet: real): SpinResult
  {
    match FindPair(CountSymbols(g))
    case Some(p) => SpinResult(bet * PairMultiplier(p), Pair, Positions(g, p), false, false)
    case None => SpinResult(0.0, NoMatch, [], false, false)
  }

  /** A triple of `s`, with `seen` the collection after this spin. */
  function TriplePay(s: Sym, o: Objectives, seen: set<Sym>, bet: real): SpinResult
  {
    var full := |seen| == SymbolCount;
    var jackpot := o.jackpotProgress + TripleProgress >= JackpotGoal;
    var win := bet * TripleMultiplier(s) * o.bonusMultiplier;
    var win := if full then win * 2.0 else win;
    var win := if jackpot then win * 3.0 else win;
    SpinResult(win, ThreeOfAKind, [0, 1, 2], full, jackpot)
  }

  /** `checkWin` on a settled grid. */
  function Evaluate(g: seq<Sym>, o: Objectives, bet: real): (e: Evaluation)
    requires |g| == ReelCount
    ensures e.result.kind == Classify(g)
    ensures Valid(o) ==> Valid(e.next)
  {
    Evaluation(Payout(g, o, bet), Progress(g, o))
  }
}
