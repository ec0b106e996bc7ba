/**
 The closed universe of reel symbols.
 */
module Symbols {

  /** The six glyphs of `SYMBOLS`, in the order the scene lists them:
      ☢ (Radiation), 💀 (Skull), 🎯 (Target), ⚙ (Gear), 💊 (Pill), 🔫 (Gun). */
  datatype Sym = Radiation | Skull | Target | Gear | Pill | Gun

  const Universe: set<Sym> := {Radiation, Skull, Target, Gear, Pill, Gun}

  /** Number of distinct symbols; a collection of this size is complete. */
  const SymbolCount: nat := 6

  /** The set of symbols occurring in `g`. */
  function Elements(g: seq<Sym>): (e: set<Sym>)
    ensures forall i :: 0 <= i < |g| ==> g[i] in e
    ensures forall s :: s in e ==> exists i :: 0 <= i < |g| && g[i] == s
  {
    set i | 0 <= i < |g| :: g[i]
  }

  lemma UniverseHasSixSymbols()
    ensures |Universe| == SymbolCount
  {
  }

  /** Every collection of symbols lies inside the universe; it has six
      elements exactly when it is the whole universe. */
  lemma FullIffUniverse(c: set<Sym>)
    ensures c <= Universe
    ensures |c| <= SymbolCount
    ensures |c| == SymbolCount <==> c == Universe
  {
    assert c <= Universe by {
      forall s | s in c ensures s in Universe {
        match s
        case Radiation =>
        case Skull =>
        case Target =>
        case Gear =>
        case Pill =>
        case Gun =>
      }
    }
    UniverseHasSixSymbols();
    assert |Universe| == |c| + |Universe - c| by {
      assert Universe == c + (Universe - c);
    }
    if c != Universe {
      var x :| x in Universe && x !in c;
      assert x in Universe - c;
    }
  }
}
