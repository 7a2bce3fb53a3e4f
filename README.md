# metalCalc formula layer in Dafny

metalCalc is a set of engineering calculators for metallurgy. Each calculator
is a form that calls one stateless formula. This project models the three
formulas that use only rational arithmetic. They are pure functions over
exact `real` numbers:

- **Fusion energy** (`Energy`, formulas/energy.ts). This is the energy to heat
  a mass `m` with specific heat `Cp` from `Ti` to `Tf` and then melt it with
  latent heat `Lf`. The total is reported in kJ and again in kWh (1 kWh = 3600 kJ).
- **Mass balance** (`MassBalance`, formulas/massBalance.ts). The inputs are an
  ore mass, its iron content in percent, a recovery efficiency and a flux
  mass. The outputs are the recovered iron, the slag and the recovery
  efficiency recomputed from the outputs.
- **Lever rule** (`Phases`, formulas/phases.ts). For a binary alloy of overall
  composition `C0` in a two-phase region with phase compositions `Ca` and
  `Cb`, it gives the mass fractions `Wa` and `Wb` of the two phases.

The source computes in IEEE doubles, and a zero denominator quietly yields
NaN or Infinity. The model uses exact reals and makes that case an explicit
`None`:

- `MassBalance` keeps `iron` and `slag` total. Its `realEfficiency` is
  `Option<real>`, and it is `None` exactly when `mineral * fePercent == 0`.
  The source divides 0 by 0 there.
- `LeverRule` returns `None` exactly when `Ca == Cb`. The source then divides
  by zero: NaN when `C0 == Ca` as well, plus or minus Infinity otherwise. The
  model treats the result as undefined and does not tell the two apart.

Module `Wrappers` holds the `Option` type. Module `RealArith` holds two facts
about real multiplication that the proofs use.

Each model proves that its inputs and outputs are related as the source
promises. It also proves the algebraic properties that the formulas imply.
Three more lemmas check the calculators' default inputs, taken from the
`useState` initial values of the pages, against exact expected results.

## Model

| member | source | states |
|---|---|---|
| Energy.FusionEnergy | formulas/energy.ts:1-16 | kJ is the mass times (Cp*(Tf-Ti) + Lf), and kWh times 3600 is exactly kJ |
| Energy.IsothermalIsLatentOnly | formulas/energy.ts:8-10 | when Ti == Tf only the latent heat remains: kJ == m*Lf, and kWh is m*Lf/3600 |
| Energy.LinearInMass | formulas/energy.ts:8-14 | scaling m by c scales both kJ and kWh by c |
| Energy.AdditiveInMass | formulas/energy.ts:8-14 | the energy for m1 + m2 is the sum of the energies for m1 and m2, in kJ and in kWh |
| Energy.AdditiveInLatentHeat | formulas/energy.ts:9-10 | raising Lf by d raises kJ by exactly m*d |
| Energy.AdditiveInTemperaturePath | formulas/energy.ts:8-10 | heating Ti to Tm without melting, then Tm to Tf with melting, takes the same kJ as heating Ti to Tf directly |
| Energy.HeatingIsNonNegative | formulas/energy.ts:8-14 | with m, Cp, Lf >= 0 and Tf >= Ti, both kJ and kWh are >= 0 |
| Energy.CoolingReleasesHeat | formulas/energy.ts:8-14 | with m, Cp > 0, Tf < Ti and no latent heat, kJ and kWh are negative (the sign follows heating vs cooling) |
| Energy.DefaultInputs | app/process/energy/page.tsx:10-14 | the page's defaults (1 kg, Cp 0.5, 20 to 1500 degrees, Lf 270) give 1010 kJ and 1010/3600 kWh |
| MassBalance.FeFraction | formulas/massBalance.ts:14 | the fraction times 100 is the percentage, and a percentage in [0, 100] gives a fraction in [0, 1] |
| MassBalance.MassBalance | formulas/massBalance.ts:8-21 | iron*100 == mineral*fePercent*efficiency; slag*100 == flux*100 + mineral*(100 - fePercent); realEfficiency is defined iff mineral != 0 and fePercent != 0, and then equals efficiency |
| MassBalance.IronBounded | formulas/massBalance.ts:14-16 | in the documented ranges, 0 <= iron <= mineral*fePercent/100 |
| MassBalance.SlagAtLeastFlux | formulas/massBalance.ts:14-17 | in the documented ranges, slag >= flux |
| MassBalance.MassLoss | formulas/massBalance.ts:14-17 | for all inputs, (mineral + flux) - (iron + slag) is exactly the unrecovered iron, mineral*fePercent/100*(1 - efficiency) |
| MassBalance.NoMassCreated | formulas/massBalance.ts:16-17 | in the documented ranges, iron + slag <= mineral + flux |
| MassBalance.FullRecoveryConservesMass | formulas/massBalance.ts:16-17 | with efficiency 1, iron + slag == mineral + flux |
| MassBalance.DefaultInputs | app/process/massBalance/page.tsx:10-13 | the page's defaults (1000 kg, 60 %, 0.9, 100 kg) give 540 kg iron, 500 kg slag and real efficiency 0.9 |
| Phases.LeverRule | formulas/phases.ts:1-5 | defined iff Ca != Cb; then Wa*(Cb-Ca) == Cb-C0 and Wb*(Cb-Ca) == C0-Ca |
| Phases.FractionsSumToOne | formulas/phases.ts:2-3 | for Ca != Cb, Wa + Wb == 1 |
| Phases.CompositionConserved | formulas/phases.ts:2-3 | for Ca != Cb, Wa*Ca + Wb*Cb == C0 |
| Phases.LeverBalance | formulas/phases.ts:2-3 | for Ca != Cb, Wa*(C0-Ca) == Wb*(Cb-C0) |
| Phases.UniqueSplit | formulas/phases.ts:2-3 | for Ca != Cb, a pair (wa, wb) sums to 1 and gives wa*Ca + wb*Cb == C0 iff it is the lever-rule result |
| Phases.Endpoints | formulas/phases.ts:2-3 | C0 == Ca gives (Wa, Wb) == (1, 0); C0 == Cb gives (0, 1) |
| Phases.PhysicalIffBetween | formulas/phases.ts:2-3 | for Ca != Cb, both Wa and Wb lie in [0, 1] iff C0 lies between Ca and Cb (in either order) |
| Phases.SwapPhases | formulas/phases.ts:2-3 | swapping Ca and Cb swaps Wa and Wb |
| Phases.DefaultInputs | app/process/phases/page.tsx:10-12 | the page's defaults (C0 0.5, Ca 0.1, Cb 1) give Wa == 5/9 and Wb == 4/9 |

The ranges in `MassBalance.InDocumentedRange` are mineral >= 0,
0 <= fePercent <= 100, 0 <= efficiency <= 1 and flux >= 0. The mass-balance
page states only the efficiency range, as a recovery fraction from 0 to 1
(app/process/massBalance/page.tsx:42). The other bounds follow from mineral
and flux being masses in kg and fePercent being a percentage. Neither the
page nor the formula checks any of them.

## Left out

- IEEE-754 behaviour: rounding, overflow, and NaN/Infinity propagation are not modelled. Arithmetic is exact over `real`, and division by zero is an explicit `None`.
- Phases.LeverRule: for Ca == Cb it returns one `None`. It does not tell NaN (C0 == Ca) apart from plus or minus Infinity (C0 != Ca).
- MassBalance.MassBalance: inputs that are themselves NaN or Infinity do not exist over `real`. So the None case is exactly the 0/0 case.
- Rolling force (formulas/deformation.ts): it uses a natural logarithm and a power with a real exponent. These are transcendental floating-point operations that have no exact `real` counterpart here.
- Diffusion depth and solidification time: formulas/diffusion.ts and formulas/solidification.ts are not part of this model. Their pages show they rely on square root and real powers.
- The React pages, the number-input component (string parsing through JavaScript's `Number`), cards, navigation and the animated background are UI. They contain no formula logic.
