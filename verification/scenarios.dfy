/**
 Worked examples of the evaluation on concrete grids.
 */
module Scenarios {
  import opened Symbols
  import opened Paytable
  import opened Engine
  import opened EngineFacts
  import opened Runs

  /** A triple of ☢ on a fresh machine at bet 10 pays 10 × 100 × 1.0. */
  lemma RadiationTripleOnFreshMachine()
    ensures var e := Evaluate([Radiation, Radiation, Radiation], Fresh, 10.0);
      && e.result.payout == 1000.0
      && e.next == Objectives(1, {Radiation}, 1.0, 5)
  {
    TripleOutcome([Radiation, Radiation, Radiation], Fresh, 10.0);
    TriplePayFacts(Radiation, Fresh, {Radiation}, 10.0);
    TripleObjectivesFacts(Fresh, {Radiation});
  }

  /** Every grid of `gs` is three of a kind. */
  predicate AllTriples(gs: seq<seq<Sym>>)
  {
    forall i :: 0 <= i < |gs| ==> |gs[i]| == ReelCount && gs[i][0] == gs[i][1] == gs[i][2]
  }

  /** A run of triples from a fresh machine, of any symbols, counts every
      spin in the streak and lifts the multiplier by 0.5 on every third. */
  lemma {:induction false} TriplesRaiseMultiplier(gs: seq<seq<Sym>>)
    requires AllTriples(gs)
    ensures Grids(gs)
    ensures Run(gs, Fresh).streak == |gs|
    ensures Run(gs, Fresh).bonusMultiplier == 1.0 + 0.5 * ((|gs| / 3) as real)
  {
    if |gs| > 0 {
      var front, last := gs[..|gs| - 1], gs[|gs| - 1];
      var n := |front|;
      assert AllTriples(front) by {
        forall i | 0 <= i < n ensures |front[i]| == ReelCount && front[i][0] == front[i][1] == front[i][2] {
          assert front[i] == gs[i];
        }
      }
      var prev := Run(front, Fresh);
      assert prev.streak == n && prev.bonusMultiplier == 1.0 + 0.5 * ((n / 3) as real) by {
        TriplesRaiseMultiplier(front);
      }
      assert Run(gs, Fresh) == Progress(last, prev) by {
        RunSnoc(front, last, Fresh);
        assert front + [last] == gs;
      }
      TripleStreak(last, prev);
      ThirdStep(n);
    }
  }

  /** The multiplier arithmetic of one more triple. */
  lemma ThirdStep(n: nat)
    ensures 1.0 + 0.5 * ((n / 3) as real) + (if (n + 1) % 3 == 0 then 0.5 else 0.0)
      == 1.0 + 0.5 * (((n + 1) / 3) as real)
  {
    if (n + 1) % 3 == 0 {
      assert (n + 1) / 3 == n / 3 + 1;
    } else {
      assert (n + 1) / 3 == n / 3;
    }
  }

  /** In particular the third triple in a row lifts it to 1.5. */
  lemma ThirdTripleRaisesMultiplier(a: seq<Sym>, b: seq<Sym>, c: seq<Sym>)
    requires |a| == |b| == |c| == ReelCount
    requires a[0] == a[1] == a[2] && b[0] == b[1] == b[2] && c[0] == c[1] == c[2]
    ensures Grids([a, b, c])
    ensures Run([a, b, c], Fresh).bonusMultiplier == 1.5
  {
    TriplesRaiseMultiplier([a, b, c]);
  }

  /** A pair on the first two reels pays the pair table times the bet,
      whatever the multiplier. */
  lemma PairOnFirstTwoReels(a: Sym, b: Sym, o: Objectives, bet: real)
    requires a != b
    ensures Evaluate([a, a, b], o, bet).result.payout == bet * PairMultiplier(a)
  {
    var g := [a, a, b];
    assert Tally.Count(g, a) == 2 by {
      assert multiset(g) == multiset{a, a, b};
    }
    PairOutcome(g, o, bet, a);
  }

  /** A pair of 💀 at bet 20 pays 20 × 1.5 whatever the multiplier and
      whatever the third symbol. */
  lemma SkullPairIgnoresMultiplier(third: Sym, m: real)
    requires third != Skull
    ensures Evaluate([Skull, Skull, third], Objectives(0, {}, m, 0), 20.0).result.payout == 30.0
  {
    var e := Evaluate([Skull, Skull, third], Objectives(0, {}, m, 0), 20.0);
    assert e.result.payout == 20.0 * PairMultiplier(Skull) by {
      PairOnFirstTwoReels(Skull, third, Objectives(0, {}, m, 0), 20.0);
    }
    assert PairMultiplier(Skull) == 1.5;
  }

  /** A miss at multiplier 2.0 pays nothing and decays the multiplier to 1.9. */
  lemma MissDecaysMultiplier(streak: nat, progress: nat)
    ensures var e := Evaluate([Skull, Pill, Target], Objectives(streak, {}, 2.0, progress), 10.0);
      && e.result.payout == 0.0
      && e.next.streak == 0
      && e.next.bonusMultiplier == 1.9
      && e.next.jackpotProgress == progress
  {
    NoMatchOutcome([Skull, Pill, Target], Objectives(streak, {}, 2.0, progress), 10.0);
  }

  /** As keyed, a triple of 🎯 takes the fallback 2, not the 8 its entry
      was evidently meant to carry. */
  lemma TargetTripleTakesFallback()
    ensures Evaluate([Target, Target, Target], Fresh, 10.0).result.payout == 20.0
  {
    TripleOutcome([Target, Target, Target], Fresh, 10.0);
    TriplePayFacts(Target, Fresh, {Target}, 10.0);
  }

  /** The triple that completes the collection pays double and clears it. */
  lemma CollectionCompletedByTriple()
    ensures var e := Evaluate([Gun, Gun, Gun], Objectives(2, {Radiation, Skull, Target, Gear, Pill}, 1.0, 10), 10.0);
      && e.result.payout == 500.0
      && e.result.fullSetBonus
      && e.next.collected == {}
  {
    var o := Objectives(2, {Radiation, Skull, Target, Gear, Pill}, 1.0, 10);
    assert o.collected + {Gun} == Universe;
    TripleOutcome([Gun, Gun, Gun], o, 10.0);
    TriplePayFacts(Gun, o, Universe, 10.0);
    TripleObjectivesFacts(o, Universe);
  }

  /** A triple that takes the progress from 95 to 100 pays triple and resets it. */
  lemma JackpotTriple()
    ensures var e := Evaluate([Skull, Skull, Skull], Objectives(0, {}, 1.0, 95), 10.0);
      && e.result.payout == 90.0
      && e.result.jackpot
      && e.next.jackpotProgress == 0
  {
    var o := Objectives(0, {}, 1.0, 95);
    TripleOutcome([Skull, Skull, Skull], o, 10.0);
    TriplePayFacts(Skull, o, {Skull}, 10.0);
    TripleObjectivesFacts(o, {Skull});
  }

  /** A pair at progress 99 carries it to 100 without firing the jackpot. */
  lemma PairPassesGoalWithoutJackpot()
    ensures var e := Evaluate([Gear, Pill, Gear], Objectives(0, {}, 1.0, 99), 10.0);
      && e.next.jackpotProgress == 100
      && !e.result.jackpot
  {
    var g := [Gear, Pill, Gear];
    assert Tally.Count(g, Gear) == 2 by {
      assert multiset(g) == multiset{Gear, Pill, Gear};
    }
    PairOutcome(g, Objectives(0, {}, 1.0, 99), 10.0, Gear);
  }
}
