/**
 Reel timing and the snap of a stopped reel onto a symbol boundary.
 */
module Reels {

  /** Height of one symbol cell, in pixels. */
  const SymbolSize: int := 110
  const SymbolsPerReel: nat := 5
  /** Vertical position every reel container starts at. */
  const StartY: int := 310

  const BaseDuration: nat := 2000
  const DurationStagger: nat := 500
  const BaseRotations: nat := 3

  /** Tween duration of reel `i`, in milliseconds. */
  function SpinDuration(i: nat): nat
  {
    BaseDuration + DurationStagger * i
  }

  /** Full turns of the five-symbol strip made by reel `i`. */
  function Rotations(i: nat): nat
  {
    BaseRotations + i
  }

  /** How far the tween of reel `i` moves its container: five cells of 110
      pixels per turn. */
  function Travel(i: nat): (d: nat)
    ensures d % SymbolSize == 0
  {
    SymbolSize * SymbolsPerReel * Rotations(i)
  }

  /** Later reels spin longer and farther, so they stop in index order. */
  lemma LaterReelsStopLater(i: nat, j: nat)
    requires i < j
    ensures SpinDuration(i) < SpinDuration(j)
    ensures Rotations(i) < Rotations(j)
    ensures Travel(i) < Travel(j)
  {
  }

  /** JavaScript's remainder of `y` by the cell size: truncating, so it
      takes the sign of `y`. */
  function CellRemainder(y: int): (r: int)
    ensures y >= 0 ==> 0 <= r < SymbolSize
    ensures y < 0 ==> -SymbolSize < r <= 0
    ensures (y - r) % SymbolSize == 0
  {
    if y >= 0 then y % SymbolSize else -((-y) % SymbolSize)
  }

  /** The snap done when a reel's tween completes: round to the nearest
      symbol boundary, a remainder of exactly half a cell rounding down. */
  function Snap(y: int): (r: int)
    ensures r % SymbolSize == 0
    ensures y >= 0 ==> -SymbolSize / 2 <= r - y < SymbolSize / 2
    ensures y < 0 ==> -SymbolSize < r - y < SymbolSize
    ensures y % SymbolSize == 0 ==> r == y
  {
    var rem := CellRemainder(y);
    if rem != 0 then
      if rem > SymbolSize / 2 then y + (SymbolSize - rem) else y - rem
    else y
  }

  /** Snapping a snapped position changes nothing. */
  lemma SnapIdempotent(y: int)
    ensures Snap(Snap(y)) == Snap(y)
  {
  }

  /** From the start position the first spin of reel `i` stops at the
      boundary 20 pixels below where its tween ended; later spins travel a
      whole number of cells and need no snap. */
  lemma FirstStop(i: nat)
    ensures Snap(StartY + Travel(i)) == StartY + Travel(i) + 20
    ensures forall y :: y % SymbolSize == 0 ==> Snap(y + Travel(i)) == y + Travel(i)
  {
    var k := SymbolsPerReel * Rotations(i);
    var y := StartY + Travel(i);
    assert y % SymbolSize == 90 by {
      CellShift(StartY, k);
      assert y == StartY + SymbolSize * k;
    }
    SnapUp(y);
    forall y | y % SymbolSize == 0
      ensures Snap(y + Travel(i)) == y + Travel(i)
    {
      CellShift(y, k);
      assert y + Travel(i) == y + SymbolSize * k;
    }
  }

  /** Past the middle of a cell the snap moves down to the next boundary. */
  lemma SnapUp(y: int)
    requires y >= 0 && y % SymbolSize > SymbolSize / 2
    ensures Snap(y) == y + SymbolSize - y % SymbolSize
  {
  }

  /** Moving by whole cells keeps the position within its cell. */
  lemma CellShift(y: int, k: int)
    ensures (y + SymbolSize * k) % SymbolSize == y % SymbolSize
  {
  }
}
