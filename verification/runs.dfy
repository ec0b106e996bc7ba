/**
 Sequences of settled spins: the objectives threaded through one evaluation
 after another, as the scene's long-lived `objectives` field is.
 */
module Runs {
  import opened Symbols
  import opened Engine

  predicate Grids(gs: seq<seq<Sym>>)
  {
    forall i :: 0 <= i < |gs| ==> |gs[i]| == ReelCount
  }

  /** The objectives after the spins `gs`, oldest first. */
  function Run(gs: seq<seq<Sym>>, o: Objectives): Objectives
    requires Grids(gs)
  {
    if |gs| == 0 then o else Progress(gs[|gs| - 1], Run(gs[..|gs| - 1], o))
  }

  /** Running one more spin continues from where the run left off. */
  lemma RunSnoc(gs: seq<seq<Sym>>, g: seq<Sym>, o: Objectives)
    requires Grids(gs) && |g| == ReelCount
    ensures Grids(gs + [g])
    ensures Run(gs + [g], o) == Progress(g, Run(gs, o))
  {
    assert (gs + [g])[..|gs|] == gs;
  }

  /** The number of most recent spins that matched (pair or triple). */
  function TrailingWins(gs: seq<seq<Sym>>): (n: nat)
    requires Grids(gs)
    ensures n <= |gs|
  {
    if |gs| == 0 then 0
    else if Classify(gs[|gs| - 1]) == NoMatch then 0
    else TrailingWins(gs[..|gs| - 1]) + 1
  }

  /** One spin moves the streak up on any match and back to 0 on a miss. */
  lemma StreakStep(g: seq<Sym>, o: Objectives)
    requires |g| == ReelCount
    ensures Progress(g, o).streak == if Classify(g) == NoMatch then 0 else o.streak + 1
  {
  }

  /** The multiplier stays at 1 or above after any sequence of spins. */
  lemma {:induction false} RunKeepsValid(gs: seq<seq<Sym>>, o: Objectives)
    requires Grids(gs) && Valid(o)
    ensures Valid(Run(gs, o))
  {
    if |gs| > 0 {
      RunKeepsValid(gs[..|gs| - 1], o);
    }
  }

  /** The streak counts the consecutive matching spins at the end of the
      run, carrying on from the starting streak when no spin missed. */
  lemma {:induction false} StreakCountsTrailingWins(gs: seq<seq<Sym>>, o: Objectives)
    requires Grids(gs)
    ensures Run(gs, o).streak
      == if TrailingWins(gs) == |gs| then o.streak + |gs| else TrailingWins(gs)
  {
    if |gs| > 0 {
      var front := gs[..|gs| - 1];
      StreakCountsTrailingWins(front, o);
      StreakStep(gs[|gs| - 1], Run(front, o));
    }
  }
}
