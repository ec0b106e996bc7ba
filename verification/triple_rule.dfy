/**
 The three-of-a-kind rule stated on the evaluation itself: what one spin
 whose three reels agree flags and does to the objectives. Its payout is
 `EngineFacts.TriplePayFacts` through `EngineFacts.TripleOutcome`.
 */
module TripleRule {
  import opened Symbols
  import opened Paytable
  import opened Engine
  import opened EngineFacts

  /** One evaluation of three equal symbols is a three of a kind that lights
      all three reels, flags the full-set bonus exactly when the collection
      becomes complete and the jackpot exactly when the progress reaches the
      goal. */
  lemma TripleEvaluationFlags(g: seq<Sym>, o: Objectives, bet: real)
    requires |g| == ReelCount && g[0] == g[1] == g[2]
    ensures var r := Evaluate(g, o, bet).result;
      && r.kind == ThreeOfAKind
      && r.fullSetBonus == (o.collected + {g[0]} == Universe)
      && r.jackpot == (o.jackpotProgress + 5 >= 100)
      && r.winningReels == [0, 1, 2]
  {
    var s, seen := g[0], o.collected + {g[0]};
    assert Evaluate(g, o, bet).result == TriplePay(s, o, seen, bet) by {
      TripleOutcome(g, o, bet);
    }
    TriplePayFacts(s, o, seen, bet);
  }

  /** What one evaluation of three equal symbols does to the objectives:
      streak +1, multiplier +0.5 on every third streak step, a complete
      collection emptied, progress +5 and back to 0 once it reaches 100. */
  lemma TripleEvaluationAdvances(g: seq<Sym>, o: Objectives, bet: real)
    requires |g| == ReelCount && g[0] == g[1] == g[2]
    ensures var n := Evaluate(g, o, bet).next;
      var seen := o.collected + {g[0]};
      && n.streak == o.streak + 1
      && n.bonusMultiplier
         == o.bonusMultiplier + (if (o.streak + 1) % 3 == 0 then 0.5 else 0.0)
      && n.collected == (if seen == Universe then {} else seen)
      && n.jackpotProgress == (if o.jackpotProgress + 5 >= 100 then 0 else o.jackpotProgress + 5)
  {
    var seen := o.collected + {g[0]};
    assert Evaluate(g, o, bet).next == TripleObjectives(o, seen) by {
      TripleOutcome(g, o, bet);
    }
    TripleObjectivesFacts(o, seen);
  }
}
