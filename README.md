# Concrete mix designer: the mix-design calculation in Dafny

This project models the calculation at the heart of the mix designer. It is a
simplified ACI 211.1 absolute-volume procedure for proportioning one cubic
metre of concrete. The target mean strength uses the required-average-strength
formula f'cr = f'c + 1.34 s of ACI 318-08, section 5.3.2.1.

The calculation runs in a fixed order:
1. target mean strength
2. w/c advisory against the exposure class's limit
3. base water from the water table
4. slump correction
5. admixture water reduction, capped at 15%
6. cement, with the exposure class's minimum as a floor
7. coarse-aggregate volume fraction, falling back to the 2.7 row
8. absolute-volume balance, with the fine aggregate as the remainder of 1 m3
9. moisture correction
10. admixture dosage

Modules:
- `Wrappers` (wrappers.dfy) defines `Option` and `Result`.
- `AciTables` (tables.dfy) holds the three reference tables. Their keys are
  closed enumerations: air entrainment, aggregate size 10/20/40 mm,
  fineness-modulus row 2.4/2.7/3.0 and exposure class Mild/Moderate/Severe.
  Each lookup is an exhaustive match. Two partial key lookups, `SizeOf` and
  `RowOf`, model the dictionary misses.
- `MixDesign` (mix.dfy) has one function for each of steps 1, 2, 4 to 7 and 9.
  Step 3 is the table lookup `AciTables.BaseWater`. `DryBatch` composes steps
  3 to 8 and gives the proportions before the moisture correction. The balance
  of step 8 is written inline in `DryBatch`. `CalculateMix` adds the moisture
  correction and the admixture dosage of step 10, which is written inline.
- `MixProperties` (properties.dfy) holds the lemmas that relate steps or
  calls, the input ranges of the widgets (`WidgetDomain`) and the worked
  scenarios.

The source reads its inputs from module-level widget values. Here they are one
explicit `MixParams` record. The source's side effects become returned values:
- The `st.warning` for a ratio above the exposure limit becomes
  `MixReport.wcmAdvisory`.
- The bare `except` that falls back to the 2.7 row becomes
  `MixReport.caFallback`.
- The catch-all `except` that returns `None` becomes `Err(MixFailure)`. It
  carries the `CalcError` and the w/c advisory, because the warning is issued
  before any line that can raise.

`CalcError` lists what can actually raise inside that `try`, in evaluation
order:
- a maximum aggregate size that is not a table key (`KeyError`)
- a zero water-cement ratio (`ZeroDivisionError`)
- a zero cement specific gravity (`ZeroDivisionError`)
- a zero coarse-aggregate specific gravity (`ZeroDivisionError`)

A zero fine-aggregate specific gravity only multiplies, so it raises nothing.
An exposure class that is not a table key would raise a `KeyError` at the
advisory test. The closed `Exposure` datatype rules that case out.

All quantities are Dafny `real`, so the balance and conservation equalities
hold exactly.

Where the code differs from a textbook ACI procedure, the model follows the code:
- The code does not validate input ranges. The ranges come only from the
  widgets, and `WidgetDomain` states them.
- A negative fine-aggregate volume is not an error. The code returns the
  negative mass, and `NegativeFineAggregateReachable` shows that inputs inside
  the widget ranges reach it.
- The admixture test is Python truthiness (`admixture != 0`), not
  `admixture > 0`.

The coarse-aggregate values are modelled exactly as the source writes them.
They increase with fineness modulus (`CaTableOrdering`). The published
ACI 211.1 Table 6.3.6 decreases with fineness modulus. The model records
this and does not correct it.

## Model

| member | source | states |
|---|---|---|
| AciTables.WaterRow | main.py:83 | the "Air-Entrained" row is chosen exactly when the checkbox is ticked |
| AciTables.SizeOf | main.py:83 | a size in mm is a table key exactly when it is 10, 20 or 40, and the key found has that size |
| AciTables.BaseWater | main.py:25-28 | the tabulated base water lies between 140 and 205 kg/m3 |
| AciTables.RowOf | main.py:91 | a rounded modulus is a row key exactly when it is 2.4, 2.7 or 3.0, and the row found has that modulus |
| AciTables.CaVolume | main.py:30-34 | the tabulated coarse-aggregate fraction lies between 0.44 and 0.80 |
| AciTables.Limits | main.py:36-40 | exposure limits: maximum w/c between 0.45 and 0.55, minimum cement between 250 and 335 kg/m3 |
| AciTables.SizeRoundTrip | main.py:25-34 | every size key is found again from its millimetre value |
| AciTables.RowRoundTrip | main.py:30-34 | every fineness-modulus key is found again from its rounded value |
| AciTables.WaterTableOrdering | main.py:25-28 | air entrainment lowers the water demand for every size, and a larger aggregate lowers it in each row |
| AciTables.CaTableOrdering | main.py:30-34 | the coarse-aggregate fraction is strictly increasing in aggregate size and in fineness modulus |
| AciTables.ExposureOrdering | main.py:36-40 | a more severe class has a strictly lower maximum w/c and a strictly higher minimum cement content |
| MixDesign.TargetMeanStrength | main.py:79 | the target exceeds f'c exactly by a positive margin when the deviation is positive, and equals f'c at zero deviation |
| MixDesign.ExceedsExposureLimit | main.py:80 | the step-2 advisory test; a ratio above 0.55 is flagged for every class and one at or below 0.45 for none; `CalculateMix` uses it for its advisory flag |
| MixDesign.SlumpAdjusted | main.py:84 | water goes below the base value exactly for slumps under 75 mm and equals it exactly at 75 mm |
| MixDesign.AdmixtureReduced | main.py:85-86 | zero dosage leaves water unchanged; with non-negative water and dosage the result lies between 0.85 times the water and the water; dosages of 3% or more hit the 15% cap |
| MixDesign.DesignWater | main.py:83-86 | steps 3 to 5 composed; for slumps 25 to 200 mm and a non-negative dosage, slump-adjusted water lies in [125, 242.5] and the design water between 0.85 times it and it; `DryBatch` states its water is this value |
| MixDesign.CementContent | main.py:88 | cement is at least the exposure minimum and at least water / w/c, and equals one of them |
| MixDesign.RoundTenths | main.py:91 | the result is the nearest number of tenths to the modulus |
| MixDesign.CoarseVolume | main.py:90-93 | the fraction is always an entry of the size's column; the fallback is used exactly when the rounded modulus is not a row key, and it then gives the 2.7 row |
| MixDesign.AirVolume | main.py:99 | the air volume in m3 is the entrained percentage over 100, or a fixed 0.01 without entrainment; `DryBatch` states its air volume is this value |
| MixDesign.ErrorOf | main.py:83-100 | no error exactly when the size is a key and w/c, cement gravity and coarse gravity are non-zero; each error is raised exactly when every earlier check passes and its own fails (size lookup at 83, then the divisions at 88, 97 and 100); `DryBatch` and `CalculateMix` raise exactly this error |
| MixDesign.DryBatch | main.py:83-102 | an error is raised exactly for the four failure causes, in order; otherwise the volumes sum to 1 m3, the fine mass is its volume at its gravity, cement meets both its lower bounds, water is the design water, coarse mass is fraction times unit weight, and air volume is the entrained or 1% default |
| MixDesign.MoistureCorrection | main.py:104-106 | total mass of water and aggregates is conserved; each aggregate gains its moisture share of its dry mass; with non-negative masses and moisture the aggregates do not shrink and the water does not grow; zero moisture changes nothing |
| MixDesign.CalculateMix | main.py:76-119 | on both the error and the success path the advisory flag holds exactly when w/c is above the class maximum; an error is raised exactly as in the dry batch; otherwise cement keeps the exposure floor, mass is conserved across the moisture correction, air content is reported as given, and admixture mass is cement times dosage over 100 |
| MixProperties.WidgetDomain | main.py:51-72 | the widget ranges, with the fineness modulus on the slider's 0.1 grid; inputs in it never raise, and their rounded modulus is the modulus itself; the widget lemmas require it |
| MixProperties.TargetStrengthStrictlyIncreasing | main.py:79 | target mean strength is monotone in both inputs and strictly increases when either input strictly increases |
| MixProperties.SlumpBoundaries | main.py:84 | slump 75 leaves the base water, 25 mm subtracts 15 kg and 200 mm adds 37.5 kg |
| MixProperties.DesignWaterWithoutAdmixture | main.py:83-86 | without admixture the design water is the table entry plus (slump - 75) * 0.3, and the entry itself at 75 mm |
| MixProperties.FallbackCharacterised | main.py:90-93 | a tabulated row is used exactly when the modulus is within half a tenth of 2.4, 2.7 or 3.0 |
| MixProperties.WidgetFallback | main.py:90-93 | on the slider's steps from 2.4 to 3.0 the fallback is used exactly for moduli in [2.45, 2.65) or [2.75, 2.95), that is for 2.5, 2.6, 2.8 and 2.9 |
| MixProperties.FallbackExample | main.py:90-93 | modulus 2.55 with 20 mm aggregate falls back and uses 0.66, the 2.7 value |
| MixProperties.VolumeBalanceByMass | main.py:97-102 | with a non-zero fine gravity, the absolute volumes of cement, water, air, coarse and fine aggregate masses sum to exactly 1 m3 |
| MixProperties.WidgetInputsSucceed | main.py:83-88 | inputs within the widget ranges never raise; slump-adjusted water lies in [125, 242.5] and the design water within 0.85 of it |
| MixProperties.AirReporting | main.py:99-114 | without air entrainment the reported air content is 0 while the balance reserves 0.01 m3 |
| MixProperties.NoAdmixture | main.py:115 | with zero dosage the admixture mass is 0 and the water is the slump-adjusted table value |
| MixProperties.NegativeFineAggregateReachable | main.py:101-102 | some inputs within the widget ranges produce a negative fine-aggregate mass without an error |
| MixProperties.ReferenceDryBatch | main.py:83-102 | reference design before moisture: 185 kg water, 370 kg cement, 1056 kg coarse aggregate, and the exact fine-aggregate remainder |
| MixProperties.ReferenceScenario | main.py:76-119 | the reported reference mix: 31.7 MPa target, moisture-corrected masses, no advisory, no fallback |

## Left out

- Page setup, CSS and logo display, the input widgets themselves and the button-driven flow (main.py:13-72, 290-355) are UI. The widget ranges appear as the `WidgetDomain` predicate.
- The `@st.cache_data` decorator (main.py:75) is framework caching and is left out.
- The `st.warning` and `st.error` calls are replaced by the advisory flag and the error result. The text of the error message is not modelled.
- The presentation rounding of the seven outputs to 1 or 2 decimals (main.py:109-115) is left out, and so is IEEE floating point. All quantities are exact reals.
- MixDesign.RoundTenths: rounds exact reals to the nearest tenth with ties upward. Python's `round` works on the binary float. Near the row keys the two differ only at the ties 2.65 and 3.05. For 2.65 the float is just below 2.65, so Python rounds to 2.6, misses the keys and takes the fallback. The model rounds to 2.7 and reports no fallback. The volume is the same 2.7-row value either way, but the fallback flag differs. For 3.05 Python selects the 3.0 row while the model falls back. Neither value is a slider step (the slider moves in steps of 0.1 from 2.4 to 3.0), and on those steps the two agree.
- The pie chart (main.py:121-154), the PDF report (main.py:156-289) and the DataFrame and CSV export are rendering and file I/O.
- aci_mix_landing_view.py only writes a fixed page string to a file, and branding.py holds only display constants. Neither is part of this model.
- The code checks no input ranges and raises nothing for a negative fine-aggregate volume, so neither error is modelled.
