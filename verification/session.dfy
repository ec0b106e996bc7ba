/**
 The page and the scene together, joined by their two event channels:
 `start-spin` from the page to the scene, and `spin-start` / `spin-complete`
 back. Signals are delivered synchronously, in the order they were sent.
 */
module Session {
  import opened Options
  import opened Symbols
  import opened Engine
  import opened Scene
  import opened Console

  datatype Game = Game(page: Page, machine: Machine)

  /** The page's `isPlaying` mirrors the scene's latch. */
  predicate Linked(g: Game)
  {
    Consistent(g.machine) && g.page.isPlaying == g.machine.spinning
  }

  /** The balance never goes negative. */
  predicate Solvent(g: Game)
  {
    g.page.credits >= 0.0
  }

  /** A newly mounted page and a newly created scene. */
  function Start(centers: seq<Sym>): (g: Game)
    requires |centers| == ReelCount
    ensures Linked(g) && Solvent(g)
  {
    Game(Mounted, Create(centers))
  }

  /** The page's reaction to the scene's signals, in order. */
  function Deliver(p: Page, signals: seq<Signal>): (r: Page)
    ensures signals == [] ==> r == p
    ensures signals == [SpinStarted] ==> r == OnSpinStart(p)
    ensures forall w :: signals == [SpinCompleted(w)] ==> r == OnSpinComplete(p, w)
    decreases |signals|
  {
    if |signals| == 0 then p
    else
      var p' := match signals[0]
        case SpinStarted => OnSpinStart(p)
        case SpinCompleted(win) => OnSpinComplete(p, win);
      Deliver(p', signals[1..])
  }

  /** The spin button. An accepted press debits the bet and starts the scene. */
  function PressSpin(g: Game): (r: Game)
    requires Linked(g)
    ensures Linked(r)
    ensures Solvent(g) ==> Solvent(r)
    ensures g.page.isPlaying || g.page.credits < g.page.bet ==> r == g
    ensures !(g.page.isPlaying || g.page.credits < g.page.bet) ==>
      && r.page.credits == g.page.credits - g.page.bet
      && r.page.isPlaying
      && r.machine.bet == g.page.bet
  {
    var press := HandleSpin(g.page);
    match press.startSpin
    case None => g
    case Some(bet) =>
      var st := StartSpin(g.machine, bet);
      Game(Deliver(press.page, st.signals), st.machine)
  }

  /** Reel `i`'s tween completes with `center` in its centre slot. */
  function ReelStops(g: Game, i: nat, center: Sym): (r: Game)
    requires Linked(g) && i < ReelCount && g.machine.reels[i].spinning
    ensures Linked(r)
    ensures Solvent(g) ==> Solvent(r)
  {
    var st := ReelStopped(g.machine, i, center);
    Game(Deliver(g.page, st.signals), st.machine)
  }

  /** The safety-net effect, run whenever the page settles. */
  function Settle(g: Game): (r: Game)
    requires Linked(g)
    ensures Linked(r)
    ensures Solvent(g) ==> Solvent(r)
    ensures !g.page.isPlaying ==> r.page.credits > 0.0
    ensures r.machine == g.machine
  {
    Game(SafetyNet(g.page), g.machine)
  }

  /** One accepted press followed by the three reel stops debits the bet,
      credits the evaluated payout when positive, records one history entry,
      and leaves page and scene idle. */
  lemma {:induction false} RoundTrip(g: Game, c0: Sym, c1: Sym, c2: Sym)
    requires Linked(g) && !g.page.isPlaying && g.page.credits >= g.page.bet
    ensures var g0 := PressSpin(g);
      var g1 := ReelStops(g0, 0, c0);
      var g2 := ReelStops(g1, 1, c1);
      var g3 := ReelStops(g2, 2, c2);
      var e := Evaluate([c0, c1, c2], g.machine.objectives, g.page.bet);
      var win := e.result.payout;
      && g3.page.credits == g.page.credits - g.page.bet + (if win > 0.0 then win else 0.0)
      && g3.page.history == Record(g.page.history, EntryFor(win))
      && g3.machine.objectives == e.next
      && !g3.page.isPlaying && Idle(g3.machine)
  {
    var g0 := PressSpin(g);
    var s0 := StartSpin(g.machine, g.page.bet);
    assert g0 == Game(OnSpinStart(g.page.(credits := g.page.credits - g.page.bet)), s0.machine);
    FullSpin(g.machine, g.page.bet, c0, c1, c2);
    var s1 := ReelStopped(s0.machine, 0, c0);
    var s2 := ReelStopped(s1.machine, 1, c1);
    var s3 := ReelStopped(s2.machine, 2, c2);
    var e := Evaluate([c0, c1, c2], g.machine.objectives, g.page.bet);
    assert ReelStops(g0, 0, c0) == Game(g0.page, s1.machine);
    assert ReelStops(Game(g0.page, s1.machine), 1, c1) == Game(g0.page, s2.machine);
    assert Deliver(g0.page, s3.signals) == OnSpinComplete(g0.page, e.result.payout);
  }
}
