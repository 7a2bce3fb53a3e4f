/**
 * Mass balance of an iron-making step (formulas/massBalance.ts): from the
 * ore fed, its iron content in percent, the recovery efficiency and the flux
 * added, the recovered iron, the slag and the recovery efficiency recomputed
 * from the outputs.
 */
module MassBalance {

  import opened Wrappers
  import RealArith

  /** mineral: ore mass (kg), fePercent: iron content (%), efficiency: recovered fraction, flux: additive mass (kg). */
  datatype MassBalanceInput = MassBalanceInput(mineral: real, fePercent: real, efficiency: real, flux: real)

  /**
   * realEfficiency is None where the source divides zero by zero: an ore with
   * no mass or no iron content has no defined recovery efficiency.
   */
  datatype MassBalanceResult = MassBalanceResult(iron: real, slag: real, realEfficiency: Option<real>)

  /** The ranges the calculator documents for its inputs. */
  predicate InDocumentedRange(input: MassBalanceInput)
  {
    && input.mineral >= 0.0
    && 0.0 <= input.fePercent <= 100.0
    && 0.0 <= input.efficiency <= 1.0
    && input.flux >= 0.0
  }

  /** A percentage as a fraction. */
  function FeFraction(fePercent: real): (f: real)
    ensures f * 100.0 == fePercent
    ensures 0.0 <= fePercent <= 100.0 ==> 0.0 <= f <= 1.0
  {
    fePercent / 100.0
  }

  function MassBalance(input: MassBalanceInput): (r: MassBalanceResult)
    // iron recovered: the iron in the ore, times the recovered fraction
    ensures r.iron * 100.0 == input.mineral * input.fePercent * input.efficiency
    // slag: the flux plus the part of the ore that is not iron
    ensures r.slag * 100.0 == input.flux * 100.0 + input.mineral * (100.0 - input.fePercent)
    // the recomputed efficiency is defined exactly when the ore holds iron ...
    ensures r.realEfficiency.Some? <==> input.mineral != 0.0 && input.fePercent != 0.0
    // ... and then gives back the efficiency put in
    ensures r.realEfficiency.Some? ==> r.realEfficiency.value == input.efficiency
  {
    var feFraction := FeFraction(input.fePercent);
    var iron := input.mineral * feFraction * input.efficiency;
    var slag := input.flux + input.mineral * (1.0 - feFraction);
    var ironInOre := input.mineral * feFraction;
    var realEfficiency := if ironInOre == 0.0 then None else Some(iron / ironInOre);
    MassBalanceResult(iron, slag, realEfficiency)
  }

  /** Within the documented ranges, the recovered iron is between none and all of the ore's iron. */
  lemma IronBounded(input: MassBalanceInput)
    requires InDocumentedRange(input)
    ensures 0.0 <= MassBalance(input).iron <= input.mineral * FeFraction(input.fePercent)
  {
    var f := FeFraction(input.fePercent);
    var ironInOre := input.mineral * f;
    var e := input.efficiency;
    RealArith.MulNonNegative(input.mineral, f);
    RealArith.MulNonNegative(ironInOre, e);
    RealArith.MulNonNegative(ironInOre, 1.0 - e);
    assert ironInOre - ironInOre * e == ironInOre * (1.0 - e);
  }

  /** Within the documented ranges, the slag holds at least the flux. */
  lemma SlagAtLeastFlux(input: MassBalanceInput)
    requires InDocumentedRange(input)
    ensures MassBalance(input).slag >= input.flux
  {
  }

  /** What goes in and does not come out as iron or slag is exactly the unrecovered iron. */
  lemma MassLoss(input: MassBalanceInput)
    ensures (input.mineral + input.flux) - (MassBalance(input).iron + MassBalance(input).slag)
         == input.mineral * FeFraction(input.fePercent) * (1.0 - input.efficiency)
  {
  }

  /** Within the documented ranges no mass is created. */
  lemma NoMassCreated(input: MassBalanceInput)
    requires InDocumentedRange(input)
    ensures MassBalance(input).iron + MassBalance(input).slag <= input.mineral + input.flux
  {
  }

  /** With full recovery the outputs account for all the mass fed. */
  lemma FullRecoveryConservesMass(input: MassBalanceInput)
    requires input.efficiency == 1.0
    ensures MassBalance(input).iron + MassBalance(input).slag == input.mineral + input.flux
  {
  }

  /** The calculator's default inputs: 1000 kg of ore at 60 % Fe, efficiency 0.9, 100 kg of flux. */
  lemma DefaultInputs()
    ensures MassBalance(MassBalanceInput(1000.0, 60.0, 0.9, 100.0))
         == MassBalanceResult(540.0, 500.0, Some(0.9))
  {
  }
}
