/**
 * Energy to heat a mass from an initial to a final temperature and then melt
 * it: sensible heat m*Cp*(Tf - Ti) plus latent heat of fusion m*Lf, reported
 * in kJ and in kWh (formulas/energy.ts).
 */
module Energy {

  /** The total energy, once in kJ and once converted to kWh. */
  datatype EnergyResult = EnergyResult(kJ: real, kWh: real)

  /** Kilojoules in one kilowatt-hour. */
  const KJPerKWh: real := 3600.0

  /**
   * m: mass (kg), Cp: specific heat (kJ/kg*K), Ti, Tf: initial and final
   * temperature (degrees C), Lf: latent heat of fusion (kJ/kg).
   */
  function FusionEnergy(m: real, Cp: real, Ti: real, Tf: real, Lf: real): (r: EnergyResult)
    // the energy is the mass times the heat each kilogram absorbs
    ensures r.kJ == m * (Cp * (Tf - Ti) + Lf)
    // the two outputs are the same quantity in two units
    ensures r.kWh * KJPerKWh == r.kJ
  {
    var q1 := m * Cp * (Tf - Ti);
    var q2 := m * Lf;
    var q := q1 + q2;
    EnergyResult(q, q / KJPerKWh)
  }

  /** With no temperature change only the latent heat remains. */
  lemma IsothermalIsLatentOnly(m: real, Cp: real, T: real, Lf: real)
    ensures FusionEnergy(m, Cp, T, T, Lf).kJ == m * Lf
    ensures FusionEnergy(m, Cp, T, T, Lf).kWh * KJPerKWh == m * Lf
  {
  }

  /** Both outputs scale linearly with the mass. */
  lemma LinearInMass(c: real, m: real, Cp: real, Ti: real, Tf: real, Lf: real)
    ensures FusionEnergy(c * m, Cp, Ti, Tf, Lf).kJ == c * FusionEnergy(m, Cp, Ti, Tf, Lf).kJ
    ensures FusionEnergy(c * m, Cp, Ti, Tf, Lf).kWh == c * FusionEnergy(m, Cp, Ti, Tf, Lf).kWh
  {
  }

  /** The energies of two masses treated alike add up. */
  lemma AdditiveInMass(m1: real, m2: real, Cp: real, Ti: real, Tf: real, Lf: real)
    ensures FusionEnergy(m1 + m2, Cp, Ti, Tf, Lf).kJ
         == FusionEnergy(m1, Cp, Ti, Tf, Lf).kJ + FusionEnergy(m2, Cp, Ti, Tf, Lf).kJ
    ensures FusionEnergy(m1 + m2, Cp, Ti, Tf, Lf).kWh
         == FusionEnergy(m1, Cp, Ti, Tf, Lf).kWh + FusionEnergy(m2, Cp, Ti, Tf, Lf).kWh
  {
  }

  /** Raising the latent heat by d raises the energy by exactly m*d. */
  lemma AdditiveInLatentHeat(m: real, Cp: real, Ti: real, Tf: real, Lf: real, d: real)
    ensures FusionEnergy(m, Cp, Ti, Tf, Lf + d).kJ == FusionEnergy(m, Cp, Ti, Tf, Lf).kJ + m * d
  {
  }

  /**
   * Heating in two legs, Ti to Tm without melting and then Tm to Tf with
   * melting, takes the same energy as heating straight from Ti to Tf.
   */
  lemma AdditiveInTemperaturePath(m: real, Cp: real, Ti: real, Tm: real, Tf: real, Lf: real)
    ensures FusionEnergy(m, Cp, Ti, Tf, Lf).kJ
         == FusionEnergy(m, Cp, Ti, Tm, 0.0).kJ + FusionEnergy(m, Cp, Tm, Tf, Lf).kJ
  {
  }

  /** Heating (Tf >= Ti) a non-negative mass with non-negative Cp and Lf needs non-negative energy. */
  lemma HeatingIsNonNegative(m: real, Cp: real, Ti: real, Tf: real, Lf: real)
    requires m >= 0.0 && Cp >= 0.0 && Lf >= 0.0 && Ti <= Tf
    ensures FusionEnergy(m, Cp, Ti, Tf, Lf).kJ >= 0.0
    ensures FusionEnergy(m, Cp, Ti, Tf, Lf).kWh >= 0.0
  {
  }

  /** Cooling (Tf < Ti) a positive mass with positive Cp releases heat when nothing melts. */
  lemma CoolingReleasesHeat(m: real, Cp: real, Ti: real, Tf: real)
    requires m > 0.0 && Cp > 0.0 && Tf < Ti
    ensures FusionEnergy(m, Cp, Ti, Tf, 0.0).kJ < 0.0
    ensures FusionEnergy(m, Cp, Ti, Tf, 0.0).kWh < 0.0
  {
  }

  /** The calculator's default inputs: 1 kg, Cp 0.5, 20 to 1500 degrees C, Lf 270. */
  lemma DefaultInputs()
    ensures FusionEnergy(1.0, 0.5, 20.0, 1500.0, 270.0) == EnergyResult(1010.0, 1010.0 / 3600.0)
  {
  }
}
