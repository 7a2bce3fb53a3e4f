/**
 * The lever rule for a two-phase region of a binary alloy
 * (formulas/phases.ts): from the overall composition C0 and the compositions
 * Ca and Cb of the two phases, the mass fractions Wa and Wb of the phases.
 */
module Phases {

  import opened Wrappers
  import RealArith

  datatype PhaseFractions = PhaseFractions(Wa: real, Wb: real)

  /** x lies on the tie line between a and b, in either order. */
  predicate Between(x: real, a: real, b: real)
  {
    (a <= x <= b) || (b <= x <= a)
  }

  predicate InUnitInterval(w: real)
  {
    0.0 <= w <= 1.0
  }

  /**
   * None when the two phases have the same composition, where the source
   * divides by zero (NaN or Infinity).
   */
  function LeverRule(C0: real, Ca: real, Cb: real): (r: Option<PhaseFractions>)
    ensures r.Some? <==> Ca != Cb
    // the fractions are the distance to the other phase over the tie-line length
    ensures r.Some? ==> r.value.Wa * (Cb - Ca) == Cb - C0 && r.value.Wb * (Cb - Ca) == C0 - Ca
  {
    if Cb - Ca == 0.0 then None
    else
      var Wa := (Cb - C0) / (Cb - Ca);
      var Wb := (C0 - Ca) / (Cb - Ca);
      Some(PhaseFractions(Wa, Wb))
  }

  /** The two fractions add up to the whole. */
  lemma FractionsSumToOne(C0: real, Ca: real, Cb: real)
    requires Ca != Cb
    ensures LeverRule(C0, Ca, Cb).value.Wa + LeverRule(C0, Ca, Cb).value.Wb == 1.0
  {
  }

  /** The phases together have the overall composition: Wa*Ca + Wb*Cb == C0. */
  lemma CompositionConserved(C0: real, Ca: real, Cb: real)
    requires Ca != Cb
    ensures LeverRule(C0, Ca, Cb).value.Wa * Ca + LeverRule(C0, Ca, Cb).value.Wb * Cb == C0
  {
  }

  /** The lever balances on C0: Wa*(C0 - Ca) == Wb*(Cb - C0). */
  lemma LeverBalance(C0: real, Ca: real, Cb: real)
    requires Ca != Cb
    ensures LeverRule(C0, Ca, Cb).value.Wa * (C0 - Ca) == LeverRule(C0, Ca, Cb).value.Wb * (Cb - C0)
  {
  }

  /**
   * The lever rule gives the only split of the alloy into the two phases
   * whose fractions sum to one and reproduce the overall composition.
   */
  lemma UniqueSplit(C0: real, Ca: real, Cb: real, wa: real, wb: real)
    requires Ca != Cb
    ensures wa + wb == 1.0 && wa * Ca + wb * Cb == C0
        <==> LeverRule(C0, Ca, Cb) == Some(PhaseFractions(wa, wb))
  {
    var w := LeverRule(C0, Ca, Cb).value;
    FractionsSumToOne(C0, Ca, Cb);
    CompositionConserved(C0, Ca, Cb);
    if wa + wb == 1.0 && wa * Ca + wb * Cb == C0 {
      assert wa * (Cb - Ca) == Cb - C0 by {
        assert wa * Ca + (1.0 - wa) * Cb == C0;
      }
      assert (wa - w.Wa) * (Cb - Ca) == 0.0;
      RealArith.ZeroProduct(wa - w.Wa, Cb - Ca);
    }
  }

  /** An alloy with the composition of one phase is all that phase. */
  lemma Endpoints(Ca: real, Cb: real)
    requires Ca != Cb
    ensures LeverRule(Ca, Ca, Cb) == Some(PhaseFractions(1.0, 0.0))
    ensures LeverRule(Cb, Ca, Cb) == Some(PhaseFractions(0.0, 1.0))
  {
    var a := LeverRule(Ca, Ca, Cb).value;
    assert (a.Wa - 1.0) * (Cb - Ca) == 0.0;
    RealArith.ZeroProduct(a.Wa - 1.0, Cb - Ca);
    RealArith.ZeroProduct(a.Wb, Cb - Ca);
    var b := LeverRule(Cb, Ca, Cb).value;
    RealArith.ZeroProduct(b.Wa, Cb - Ca);
    assert (b.Wb - 1.0) * (Cb - Ca) == 0.0;
    RealArith.ZeroProduct(b.Wb - 1.0, Cb - Ca);
  }

  /** Both fractions are physical (in [0, 1]) exactly when C0 lies between Ca and Cb. */
  lemma PhysicalIffBetween(C0: real, Ca: real, Cb: real)
    requires Ca != Cb
    ensures Between(C0, Ca, Cb)
        <==> InUnitInterval(LeverRule(C0, Ca, Cb).value.Wa) && InUnitInterval(LeverRule(C0, Ca, Cb).value.Wb)
  {
    var w := LeverRule(C0, Ca, Cb).value;
    FractionsSumToOne(C0, Ca, Cb);
    var d := Cb - Ca;
    if d > 0.0 {
      assert w.Wb >= 0.0 <==> C0 >= Ca by {
        assert w.Wb * d == C0 - Ca;
      }
      assert w.Wa >= 0.0 <==> Cb >= C0 by {
        assert w.Wa * d == Cb - C0;
      }
    } else {
      assert w.Wb >= 0.0 <==> C0 <= Ca by {
        assert w.Wb * d == C0 - Ca;
      }
      assert w.Wa >= 0.0 <==> Cb <= C0 by {
        assert w.Wa * d == Cb - C0;
      }
    }
  }

  /** Naming the phases the other way round swaps the fractions. */
  lemma SwapPhases(C0: real, Ca: real, Cb: real)
    requires Ca != Cb
    ensures LeverRule(C0, Cb, Ca).value.Wa == LeverRule(C0, Ca, Cb).value.Wb
    ensures LeverRule(C0, Cb, Ca).value.Wb == LeverRule(C0, Ca, Cb).value.Wa
  {
  }

  /** The calculator's default inputs: C0 0.5 between Ca 0.1 and Cb 1. */
  lemma DefaultInputs()
    ensures LeverRule(0.5, 0.1, 1.0) == Some(PhaseFractions(5.0 / 9.0, 4.0 / 9.0))
  {
  }
}
