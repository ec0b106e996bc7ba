/**
 What one evaluation promises, branch by branch, stated against the
 occurrence counts rather than the source's own tests.
 */
module EngineFacts {
  import opened Options
  import opened Symbols
  import opened Paytable
  import opened Tally
  import opened Engine

  /** Three equal symbols take the triple branch of both halves, and the
      outcome depends on the grid only through its one symbol, which is all
      the collection gains. */
  lemma TripleOutcome(g: seq<Sym>, o: Objectives, bet: real)
    requires |g| == ReelCount && g[0] == g[1] == g[2]
    ensures var seen := o.collected + {g[0]};
      Evaluate(g, o, bet) == Evaluation(TriplePay(g[0], o, seen, bet), TripleObjectives(o, seen))
  {
    assert AllMatch(g);
    assert Elements(g) == {g[0]};
  }

  /** A triple of `s` pays bet × base × the multiplier held before the spin,
      ×2 exactly when the collection is complete and ×3 exactly when the
      progress reaches the goal, and lights all three reels. */
  lemma TriplePayFacts(s: Sym, o: Objectives, seen: set<Sym>, bet: real)
    ensures var r := TriplePay(s, o, seen, bet);
      var jackpot := o.jackpotProgress + 5 >= 100;
      && r.kind == ThreeOfAKind
      && r.payout
         == bet * TripleMultiplier(s) * o.bonusMultiplier
            * (if seen == Universe then 2.0 else 1.0)
            * (if jackpot then 3.0 else 1.0)
      && r.fullSetBonus == (seen == Universe)
      && r.jackpot == jackpot
      && r.winningReels == [0, 1, 2]
  {
    FullIffUniverse(seen);
    ApplyBonuses(bet * TripleMultiplier(s) * o.bonusMultiplier, seen == Universe, o.jackpotProgress + 5 >= 100);
  }

  /** After a triple the streak rises by one, the multiplier by 0.5 when the
      new streak is a multiple of 3, a complete collection empties and the
      progress rises by 5, back to 0 once it reaches 100. */
  lemma TripleObjectivesFacts(o: Objectives, seen: set<Sym>)
    ensures var n := TripleObjectives(o, seen);
      && n.streak == o.streak + 1
      && n.bonusMultiplier
         == o.bonusMultiplier + (if (o.streak + 1) % 3 == 0 then 0.5 else 0.0)
      && n.collected == (if seen == Universe then {} else seen)
      && n.jackpotProgress == (if o.jackpotProgress + 5 >= 100 then 0 else o.jackpotProgress + 5)
  {
    FullIffUniverse(seen);
  }

  /** A triple raises the streak and, on every third step, the multiplier. */
  lemma TripleStreak(g: seq<Sym>, o: Objectives)
    requires |g| == ReelCount && g[0] == g[1] == g[2]
    ensures Progress(g, o).streak == o.streak + 1
    ensures Progress(g, o).bonusMultiplier
      == o.bonusMultiplier + (if (o.streak + 1) % 3 == 0 then 0.5 else 0.0)
  {
    assert AllMatch(g);
  }

  /** The two optional bonus factors of a triple, applied in turn. */
  lemma ApplyBonuses(w: real, full: bool, jackpot: bool)
    ensures var w2 := if full then w * 2.0 else w;
      (if jackpot then w2 * 3.0 else w2)
      == w * (if full then 2.0 else 1.0) * (if jackpot then 3.0 else 1.0)
  {
  }

  /** Exactly two equal symbols: bet × pair table, the multiplier is neither
      applied nor changed, the streak and the progress rise by one, and the
      highlighted reels are exactly the two holding the pair symbol. */
  lemma PairOutcome(g: seq<Sym>, o: Objectives, bet: real, s: Sym)
    requires |g| == ReelCount && Count(g, s) == 2
    ensures var e := Evaluate(g, o, bet);
      && e.result.kind == Pair
      && e.result.payout == bet * PairMultiplier(s)
      && !e.result.fullSetBonus && !e.result.jackpot
      && |e.result.winningReels| == 2
      && (forall i :: 0 <= i < |g| ==> (g[i] == s <==> i in e.result.winningReels))
      && e.next.streak == o.streak + 1
      && e.next.bonusMultiplier == o.bonusMultiplier
      && e.next.collected == o.collected + Elements(g)
      && e.next.jackpotProgress == o.jackpotProgress + 1
  {
    ClassifyByCounts(g);
    assert !AllMatch(g) by {
      assert g == [g[0], g[1], g[2]];
    }
    PairFoundIffCountTwo(g);
    var p := FindPair(CountSymbols(g)).value;
    PairSymbolUnique(g, s, p);
    PairBranch(g, o, bet, s);
    PositionsSpec(g, s);
  }

  /** The pair branch of the evaluation, once the pair symbol is known. */
  lemma PairBranch(g: seq<Sym>, o: Objectives, bet: real, p: Sym)
    requires |g| == ReelCount && !AllMatch(g) && FindPair(CountSymbols(g)) == Some(p)
    ensures Payout(g, o, bet) == SpinResult(bet * PairMultiplier(p), Pair, Positions(g, p), false, false)
    ensures Progress(g, o)
      == Objectives(o.streak + 1, o.collected + Elements(g), o.bonusMultiplier, o.jackpotProgress + 1)
  {
    PairPayBranch(g, o, bet, p);
    PairProgressBranch(g, o, p);
  }

  lemma PairPayBranch(g: seq<Sym>, o: Objectives, bet: real, p: Sym)
    requires |g| == ReelCount && !AllMatch(g) && FindPair(CountSymbols(g)) == Some(p)
    ensures Payout(g, o, bet) == SpinResult(bet * PairMultiplier(p), Pair, Positions(g, p), false, false)
  {
    assert Payout(g, o, bet) == PairPay(g, bet);
  }

  lemma PairProgressBranch(g: seq<Sym>, o: Objectives, p: Sym)
    requires |g| == ReelCount && !AllMatch(g) && FindPair(CountSymbols(g)) == Some(p)
    ensures Progress(g, o)
      == Objectives(o.streak + 1, o.collected + Elements(g), o.bonusMultiplier, o.jackpotProgress + 1)
  {
  }

  /** Three distinct symbols: nothing is paid, the streak restarts, the
      multiplier decays by 0.1 but not below 1, the progress is kept. */
  lemma NoMatchOutcome(g: seq<Sym>, o: Objectives, bet: real)
    requires |g| == ReelCount && g[0] != g[1] && g[1] != g[2] && g[0] != g[2]
    ensures var e := Evaluate(g, o, bet);
      && e.result.kind == NoMatch
      && e.result.payout == 0.0
      && e.result.winningReels == []
      && e.next.streak == 0
      && e.next.bonusMultiplier == Max(1.0, o.bonusMultiplier - 0.1)
      && e.next.collected == o.collected + Elements(g)
      && e.next.jackpotProgress == o.jackpotProgress
  {
    assert g == [g[0], g[1], g[2]];
    assert forall s :: Count(g, s) <= 1;
    ClassifyByCounts(g);
  }

  /** The multiplier only rises on a triple whose incremented streak is a
      multiple of 3, by 0.5; it only falls on a spin without a match. */
  lemma MultiplierMoves(g: seq<Sym>, o: Objectives, bet: real)
    requires |g| == ReelCount && Valid(o)
    ensures var e := Evaluate(g, o, bet);
      && (e.next.bonusMultiplier > o.bonusMultiplier
          <==> e.result.kind == ThreeOfAKind && (o.streak + 1) % 3 == 0)
      && (e.next.bonusMultiplier > o.bonusMultiplier
          ==> e.next.bonusMultiplier == o.bonusMultiplier + 0.5)
      && (e.next.bonusMultiplier < o.bonusMultiplier ==> e.result.kind == NoMatch)
  {
  }

  /** The collection gains every grid symbol; it is emptied exactly when a
      triple completes it, so a pair or a miss never clears a full set. */
  lemma CollectionClears(g: seq<Sym>, o: Objectives, bet: real)
    requires |g| == ReelCount
    ensures var e := Evaluate(g, o, bet);
      var seen := o.collected + Elements(g);
      && (e.next.collected == {} <==> e.result.kind == ThreeOfAKind && seen == Universe)
      && (e.next.collected != {} ==> e.next.collected == seen)
      && (e.result.fullSetBonus <==> e.next.collected == {})
      && e.next.collected <= Universe
  {
    var seen := o.collected + Elements(g);
    FullIffUniverse(seen);
    FullIffUniverse(Progress(g, o).collected);
    assert g[0] in seen;
  }

  /** Progress drops only through a jackpot, which only a triple fires; a
      triple always leaves it under the goal, a pair may carry it past. */
  lemma JackpotProgressMoves(g: seq<Sym>, o: Objectives, bet: real)
    requires |g| == ReelCount
    ensures var e := Evaluate(g, o, bet);
      && (e.next.jackpotProgress < o.jackpotProgress ==> e.result.jackpot)
      && (e.result.jackpot <==> e.result.kind == ThreeOfAKind && o.jackpotProgress + 5 >= 100)
      && (e.result.jackpot ==> e.next.jackpotProgress == 0)
      && (e.result.kind == ThreeOfAKind ==> e.next.jackpotProgress < 100)
      && (e.result.kind == Pair ==> e.next.jackpotProgress == o.jackpotProgress + 1)
      && (e.result.kind == NoMatch ==> e.next.jackpotProgress == o.jackpotProgress)
  {
  }

  /** With a positive bet and a valid multiplier a spin pays something
      exactly when it matches, and never a negative amount. */
  lemma PayoutSign(g: seq<Sym>, o: Objectives, bet: real)
    requires |g| == ReelCount && Valid(o) && bet > 0.0
    ensures var e := Evaluate(g, o, bet);
      && e.result.payout >= 0.0
      && (e.result.payout > 0.0 <==> e.result.kind != NoMatch)
  {
    if AllMatch(g) {
      TriplePaysPositive(g, o, bet);
    } else if FindPair(CountSymbols(g)).Some? {
      PairBranch(g, o, bet, FindPair(CountSymbols(g)).value);
      PositiveProduct(bet, PairMultiplier(FindPair(CountSymbols(g)).value));
    }
  }

  lemma TriplePaysPositive(g: seq<Sym>, o: Objectives, bet: real)
    requires |g| == ReelCount && AllMatch(g) && Valid(o) && bet > 0.0
    ensures Payout(g, o, bet).payout > 0.0
  {
    var base := bet * TripleMultiplier(g[0]) * o.bonusMultiplier;
    PositiveProduct(bet, TripleMultiplier(g[0]));
    PositiveProduct(bet * TripleMultiplier(g[0]), o.bonusMultiplier);
    assert Payout(g, o, bet).payout >= base;
  }

  lemma PositiveProduct(a: real, b: real)
    requires a > 0.0 && b > 0.0
    ensures a * b > 0.0
  {
  }
}
