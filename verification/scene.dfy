/**
 The scene's spin lifecycle as a state machine: the machine-wide `spinning`
 latch, per-reel stop events arriving in any order, and the evaluation that
 runs once every reel has stopped. Randomness is an input: each stop event
 carries the symbol the reel's centre slot holds when its tween ends.
 */
module Scene {
  import opened Symbols
  import opened Engine
  import opened Reels

  datatype Reel = Reel(spinning: bool, y: int, center: Sym)

  datatype Machine = Machine(
    spinning: bool,
    reels: seq<Reel>,
    bet: real,
    objectives: Objectives)

  /** Events the scene sends to the page. */
  datatype Signal = SpinStarted | SpinCompleted(win: real)

  datatype Step = Step(machine: Machine, signals: seq<Signal>)

  /** The initial bet of the scene's `betAmount` field. */
  const DefaultBet: real := 10.0

  /** A freshly created scene; `centers` are the symbols drawn for the centre
      slots at creation. */
  function Create(centers: seq<Sym>): (m: Machine)
    requires |centers| == ReelCount
    ensures Idle(m) && m.objectives == Fresh
    ensures forall i :: 0 <= i < ReelCount ==> m.reels[i].center == centers[i]
  {
    Machine(false, seq(ReelCount, i requires 0 <= i < ReelCount => Reel(false, StartY, centers[i])), DefaultBet, Fresh)
  }

  predicate AllStopped(reels: seq<Reel>)
  {
    forall i :: 0 <= i < |reels| ==> !reels[i].spinning
  }

  /** The latch is set exactly while some reel is still spinning. */
  predicate Consistent(m: Machine)
  {
    |m.reels| == ReelCount && (m.spinning <==> !AllStopped(m.reels))
  }

  predicate Idle(m: Machine)
  {
    Consistent(m) && !m.spinning
  }

  /** The grid the evaluation reads: each reel's centre symbol. */
  function Centers(reels: seq<Reel>): (g: seq<Sym>)
    ensures |g| == |reels|
    ensures forall i :: 0 <= i < |reels| ==> g[i] == reels[i].center
  {
    seq(|reels|, i requires 0 <= i < |reels| => reels[i].center)
  }

  /** `spin()`: ignored while the latch is set; otherwise sets the latch,
      sets every reel spinning and announces the start. */
  function Spin(m: Machine): (st: Step)
    ensures m.spinning ==> st == Step(m, [])
    ensures !m.spinning ==>
      && st.signals == [SpinStarted]
      && st.machine.spinning
      && |st.machine.reels| == |m.reels|
      && (forall i :: 0 <= i < |m.reels| ==>
            st.machine.reels[i] == m.reels[i].(spinning := true))
      && st.machine.bet == m.bet
      && st.machine.objectives == m.objectives
    ensures Consistent(m) ==> Consistent(st.machine)
  {
    if m.spinning then Step(m, [])
    else
      var reels := seq(|m.reels|, i requires 0 <= i < |m.reels| => m.reels[i].(spinning := true));
      assert |m.reels| > 0 ==> reels[0].spinning;
      Step(m.(spinning := true, reels := reels), [SpinStarted])
  }

  /** The `start-spin` handler: records the bet, even when the spin itself
      is then ignored, and calls `spin()`. */
  function StartSpin(m: Machine, bet: real): (st: Step)
    ensures st.machine.bet == bet
    ensures m.spinning ==> st == Step(m.(bet := bet), [])
    ensures !m.spinning ==> st.signals == [SpinStarted] && st.machine.spinning
    ensures Consistent(m) ==> Consistent(st.machine)
  {
    Spin(m.(bet := bet))
  }

  /** The win check: clears the latch, evaluates the centre symbols against
      the objectives, and reports the payout once. The reels and the bet are
      left as they are. */
  function CheckWin(m: Machine): (st: Step)
    requires |m.reels| == ReelCount
    ensures !st.machine.spinning
    ensures st.signals
      == [SpinCompleted(Evaluate(Centers(m.reels), m.objectives, m.bet).result.payout)]
    ensures st.machine.objectives == Evaluate(Centers(m.reels), m.objectives, m.bet).next
    ensures st.machine.reels == m.reels && st.machine.bet == m.bet
    ensures AllStopped(m.reels) ==> Idle(st.machine)
  {
    var e := Evaluate(Centers(m.reels), m.objectives, m.bet);
    Step(m.(spinning := false, objectives := e.next), [SpinCompleted(e.result.payout)])
  }

  /** The tween `onComplete` of reel `i`: the reel stops with `center` in
      its centre slot and snaps onto a boundary; if it was the last reel
      still spinning, the spin is evaluated. */
  function ReelStopped(m: Machine, i: nat, center: Sym): (st: Step)
    requires i < |m.reels| == ReelCount && m.reels[i].spinning
    ensures Consistent(m) ==> Consistent(st.machine)
    ensures |st.machine.reels| == ReelCount
    ensures st.machine.reels[i] == Reel(false, Snap(m.reels[i].y + Travel(i)), center)
    ensures forall j :: 0 <= j < ReelCount && j != i ==> st.machine.reels[j] == m.reels[j]
    ensures st.machine.reels[i].y % SymbolSize == 0
    ensures AllStopped(st.machine.reels) ==>
      var e := Evaluate(Centers(st.machine.reels), m.objectives, m.bet);
      && st.signals == [SpinCompleted(e.result.payout)]
      && !st.machine.spinning
      && st.machine.objectives == e.next
    ensures !AllStopped(st.machine.reels) ==>
      st == Step(m.(reels := st.machine.reels), [])
  {
    var reels := m.reels[i := Reel(false, Snap(m.reels[i].y + Travel(i)), center)];
    var m' := m.(reels := reels);
    if AllStopped(reels) then CheckWin(m') else Step(m', [])
  }

  /** A whole spin from an idle machine, its reels stopping in index order
      as their staggered durations make them: one start signal, nothing
      while reels are still turning, then one completion carrying the
      evaluation of the three stopped centre symbols; the machine ends idle
      with its reels on symbol boundaries. */
  lemma FullSpin(m: Machine, bet: real, c0: Sym, c1: Sym, c2: Sym)
    requires Idle(m)
    ensures var s0 := StartSpin(m, bet);
      var s1 := ReelStopped(s0.machine, 0, c0);
      var s2 := ReelStopped(s1.machine, 1, c1);
      var s3 := ReelStopped(s2.machine, 2, c2);
      var e := Evaluate([c0, c1, c2], m.objectives, bet);
      && s0.signals == [SpinStarted]
      && s1.signals == [] && s2.signals == []
      && s3.signals == [SpinCompleted(e.result.payout)]
      && Idle(s3.machine)
      && s3.machine.objectives == e.next
      && forall j :: 0 <= j < ReelCount ==> s3.machine.reels[j].y % SymbolSize == 0
  {
    var s0 := StartSpin(m, bet);
    assert s0.signals == [SpinStarted] && Consistent(s0.machine)
      && s0.machine.bet == bet && s0.machine.objectives == m.objectives
      && forall j :: 0 <= j < ReelCount ==> s0.machine.reels[j].spinning;
    StopInOrder(s0.machine, c0, c1, c2);
  }

  /** The three reels of a spinning machine stopping in index order. */
  lemma StopInOrder(m: Machine, c0: Sym, c1: Sym, c2: Sym)
    requires Consistent(m) && forall j :: 0 <= j < ReelCount ==> m.reels[j].spinning
    ensures var s1 := ReelStopped(m, 0, c0);
      var s2 := ReelStopped(s1.machine, 1, c1);
      var s3 := ReelStopped(s2.machine, 2, c2);
      var e := Evaluate([c0, c1, c2], m.objectives, m.bet);
      && s1.signals == [] && s2.signals == []
      && s3.signals == [SpinCompleted(e.result.payout)]
      && Idle(s3.machine)
      && s3.machine.objectives == e.next
      && forall j :: 0 <= j < ReelCount ==> s3.machine.reels[j].y % SymbolSize == 0
  {
    var s1 := ReelStopped(m, 0, c0);
    EarlyStop(m, 0, c0);
    var s2 := ReelStopped(s1.machine, 1, c1);
    EarlyStop(s1.machine, 1, c1);
    LastStop(s2.machine, c2);
  }

  /** A reel that stops while a later one still turns sends nothing and
      changes nothing but itself. */
  lemma EarlyStop(m: Machine, i: nat, center: Sym)
    requires Consistent(m) && i < ReelCount - 1
    requires forall j :: i <= j < ReelCount ==> m.reels[j].spinning
    ensures var st := ReelStopped(m, i, center);
      && st.signals == []
      && Consistent(st.machine)
      && st.machine.bet == m.bet && st.machine.objectives == m.objectives
      && st.machine.reels[i].center == center
      && (forall j :: 0 <= j < ReelCount && j != i ==> st.machine.reels[j] == m.reels[j])
      && forall j :: i < j < ReelCount ==> st.machine.reels[j].spinning
  {
    var st := ReelStopped(m, i, center);
    assert !AllStopped(st.machine.reels) by {
      assert st.machine.reels[2].spinning;
    }
  }

  /** The last reel to stop triggers the evaluation of the centre symbols. */
  lemma LastStop(m: Machine, center: Sym)
    requires Consistent(m) && m.reels[2].spinning
    requires !m.reels[0].spinning && !m.reels[1].spinning
    ensures var st := ReelStopped(m, 2, center);
      var g := [m.reels[0].center, m.reels[1].center, center];
      var e := Evaluate(g, m.objectives, m.bet);
      && st.signals == [SpinCompleted(e.result.payout)]
      && Idle(st.machine)
      && st.machine.objectives == e.next
      && st.machine.reels[2].y % SymbolSize == 0
      && (forall j :: 0 <= j < 2 ==> st.machine.reels[j] == m.reels[j])
  {
    var st := ReelStopped(m, 2, center);
    assert AllStopped(st.machine.reels) by {
      assert forall j :: 0 <= j < ReelCount ==> !st.machine.reels[j].spinning;
    }
    assert Centers(st.machine.reels) == [m.reels[0].center, m.reels[1].center, center];
  }
}
