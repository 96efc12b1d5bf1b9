/** Properties of the mix-design calculation that relate several steps or
    several calls, and the worked scenarios. */
module MixProperties {
  import opened Wrappers
  import opened AciTables
  import opened MixDesign

  /** The input ranges the widgets allow: bounded number inputs and sliders,
      select boxes over the table keys, an air content of 0 unless air
      entrainment is ticked, and a fineness modulus on the slider's 0.1 grid.
      No input in this domain raises, and the rounded modulus is the modulus. */
  predicate WidgetDomain(p: MixParams)
    ensures WidgetDomain(p) ==> ErrorOf(p).None?
    ensures WidgetDomain(p) ==> RoundTenths(p.fm) as real == p.fm * 10.0
  {
    && 10.0 <= p.fck <= 80.0
    && 3.0 <= p.stdDev <= 10.0
    && (p.maxAggSizeMm == 10 || p.maxAggSizeMm == 20 || p.maxAggSizeMm == 40)
    && 25 <= p.slump <= 200
    && (if p.airEntrained then 1.0 <= p.airContent <= 8.0 else p.airContent == 0.0)
    && 0.3 <= p.wcm <= 0.7
    && 0.0 <= p.admixture <= 5.0
    && 2.4 <= p.fm <= 3.0 && p.fm * 10.0 == (p.fm * 10.0).Floor as real
    && 2.0 <= p.sgCement <= 3.5
    && 2.4 <= p.sgFa <= 2.8
    && 2.4 <= p.sgCa <= 2.8
    && 1400.0 <= p.unitWeightCa <= 1800.0
    && 0.0 <= p.moistFa <= 10.0
    && 0.0 <= p.moistCa <= 10.0
  }

  /** The target mean strength is strictly increasing in both inputs. */
  lemma TargetStrengthStrictlyIncreasing(fck1: real, s1: real, fck2: real, s2: real)
    requires fck1 <= fck2 && s1 <= s2
    ensures TargetMeanStrength(fck1, s1) <= TargetMeanStrength(fck2, s2)
    ensures TargetMeanStrength(fck1, s1) == TargetMeanStrength(fck2, s2) <==> (fck1 == fck2 && s1 == s2)
  {
  }

  /** Slump adjustment at the reference slump and at both ends of the slider. */
  lemma SlumpBoundaries(base: real)
    ensures SlumpAdjusted(base, 75) == base
    ensures SlumpAdjusted(base, 25) == base - 15.0
    ensures SlumpAdjusted(base, 200) == base + 37.5
  {
  }

  /** Without admixture the design water is the table entry plus the slump
      correction, and at 75 mm it is the table entry itself. */
  lemma DesignWaterWithoutAdmixture(airEntrained: bool, size: AggregateSize, slump: int)
    ensures DesignWater(airEntrained, size, slump, 0.0)
         == BaseWater(WaterRow(airEntrained), size) + (slump - 75) as real * 0.3
    ensures DesignWater(airEntrained, size, 75, 0.0) == BaseWater(WaterRow(airEntrained), size)
  {
  }

  /** The rounded fineness modulus selects a tabulated row exactly when the
      modulus is within half a tenth of 2.4, 2.7 or 3.0 (ties rounding up). */
  lemma FallbackCharacterised(fm: real, size: AggregateSize)
    ensures !CoarseVolume(fm, size).fallback
        <==> (2.35 <= fm < 2.45 || 2.65 <= fm < 2.75 || 2.95 <= fm < 3.05)
  {
    var n := RoundTenths(fm);
    assert n == 24 <==> 2.35 <= fm < 2.45;
    assert n == 27 <==> 2.65 <= fm < 2.75;
    assert n == 30 <==> 2.95 <= fm < 3.05;
  }

  /** On the slider's steps the fallback is used exactly for 2.5, 2.6, 2.8
      and 2.9. */
  lemma WidgetFallback(p: MixParams)
    requires WidgetDomain(p)
    ensures CalculateMix(p).Ok?
    ensures CalculateMix(p).value.caFallback <==> (2.45 <= p.fm < 2.65 || 2.75 <= p.fm < 2.95)
  {
    FallbackCharacterised(p.fm, SizeOf(p.maxAggSizeMm).value);
  }

  /** A fineness modulus of 2.55 falls back to the 2.7 row: 0.66 for 20 mm. */
  lemma FallbackExample()
    ensures CoarseVolume(2.55, Size20) == CaLookup(0.66, true)
    ensures CoarseVolume(2.55, Size20).volume == CoarseVolume(2.7, Size20).volume
  {
    assert RoundTenths(2.55) == 26;
    assert RoundTenths(2.7) == 27;
  }

  /** The volume balance restated on masses: the fine aggregate's mass,
      converted back at its specific gravity, fills the remainder. */
  lemma VolumeBalanceByMass(p: MixParams)
    requires ErrorOf(p).None? && p.sgFa != 0.0
    ensures var b := DryBatch(p).value;
      AbsVolume(b.cement, p.sgCement) + b.water / 1000.0 + b.airVol
      + AbsVolume(b.caMass, p.sgCa) + AbsVolume(b.faMass, p.sgFa) == 1.0
  {
    var b := DryBatch(p).value;
    assert AbsVolume(b.faMass, p.sgFa) == b.faVol;
  }

  /** Widget inputs never raise, and the water stays within the admixture cap
      of the slump-adjusted table value. */
  lemma WidgetInputsSucceed(p: MixParams)
    requires WidgetDomain(p)
    ensures CalculateMix(p).Ok?
    ensures var b := DryBatch(p).value;
      var adjusted := SlumpAdjusted(BaseWater(WaterRow(p.airEntrained), SizeOf(p.maxAggSizeMm).value), p.slump);
      && 125.0 <= adjusted <= 242.5
      && 0.85 * adjusted <= b.water <= adjusted
  {
  }

  /** The reported air content is 0 without air entrainment, while the
      balance still reserves 1% of the volume for entrapped air. */
  lemma AirReporting(p: MixParams)
    requires WidgetDomain(p) && !p.airEntrained
    ensures CalculateMix(p).Ok?
    ensures CalculateMix(p).value.mix.airContent == 0.0
    ensures DryBatch(p).value.airVol == 0.01
  {
  }

  /** Without admixture there is no dosage and no water reduction. */
  lemma NoAdmixture(p: MixParams)
    requires CalculateMix(p).Ok? && p.admixture == 0.0
    ensures CalculateMix(p).value.mix.admixture == 0.0
    ensures DryBatch(p).value.water
         == SlumpAdjusted(BaseWater(WaterRow(p.airEntrained), SizeOf(p.maxAggSizeMm).value), p.slump)
  {
  }

  /** Nothing guards the fine-aggregate volume: inputs inside the widget
      ranges can yield a negative fine-aggregate mass. */
  lemma NegativeFineAggregateReachable()
    ensures exists p :: WidgetDomain(p) && CalculateMix(p).Ok? && CalculateMix(p).value.mix.fineAggregate < 0.0
  {
    var p := MixParams(25.0, 5.0, Moderate, 10, 200, false, 0.0, 0.3, 0.0, 3.0,
                       2.0, 2.4, 2.4, 1800.0, 0.0, 0.0);
    var b := DryBatch(p).value;
    assert b.water == 242.5;
    assert b.caMass == 954.0;
    assert b.faVol < 0.0;
    assert WidgetDomain(p) && CalculateMix(p).Ok? && CalculateMix(p).value.mix.fineAggregate < 0.0;
  }

  /** The reference design: f'c 25 MPa, s 5 MPa, moderate exposure, 20 mm
      aggregate, 75 mm slump, no air entrainment, w/c 0.5, no admixture,
      fineness modulus 2.7, cement SG 3.15, aggregate SG 2.65, coarse unit
      weight 1600 kg/m3, moisture 2% (fine) and 1% (coarse). */
  function ReferenceParams(): MixParams
  {
    MixParams(25.0, 5.0, Moderate, 20, 75, false, 0.0, 0.5, 0.0, 2.7,
              3.15, 2.65, 2.65, 1600.0, 2.0, 1.0)
  }

  /** The reference design before the moisture correction: 185 kg of water
      from the table, cement max(185 / 0.5, 300) = 370 kg, coarse aggregate
      0.66 * 1600 = 1056 kg, and the fine aggregate as the remainder. */
  lemma ReferenceDryBatch()
    ensures DryBatch(ReferenceParams())
         == Ok(Batch(185.0, 370.0, 1056.0, 0.01, 193027.0 / 667800.0, 193027.0 / 252.0, false))
  {
    var p := ReferenceParams();
    assert SizeOf(20) == Some(Size20);
    assert ErrorOf(p).None?;
    assert DesignWater(false, Size20, 75, 0.0) == 185.0;
    assert CementContent(185.0, 0.5, Moderate) == 370.0;
    assert RoundTenths(2.7) == 27;
    assert CoarseVolume(2.7, Size20) == CaLookup(0.66, false);
    assert AbsVolume(370.0, 3.15) == 370.0 / 3150.0;
    assert AbsVolume(1056.0, 2.65) == 1056.0 / 2650.0;
    var faVol := 1.0 - (AbsVolume(370.0, 3.15) + 185.0 / 1000.0 + 0.01 + AbsVolume(1056.0, 2.65));
    assert faVol == 193027.0 / 667800.0;
    assert faVol * 2.65 * 1000.0 == 193027.0 / 252.0;
  }

  /** The reported reference mix: target strength 31.7 MPa, wet aggregates,
      water reduced by their free moisture, no advisory and no fallback. */
  lemma ReferenceScenario()
    ensures CalculateMix(ReferenceParams()) == Ok(MixReport(
              MixResult(31.7, 2004917.0 / 12600.0, 370.0, 3281459.0 / 4200.0, 26664.0 / 25.0, 0.0, 0.0),
              false, false))
  {
    ReferenceDryBatch();
    var b := Batch(185.0, 370.0, 1056.0, 0.01, 193027.0 / 667800.0, 193027.0 / 252.0, false);
    assert DryBatch(ReferenceParams()) == Ok(b);
    var c := MoistureCorrection(b.water, b.faMass, b.caMass, 2.0, 1.0);
    assert c.fa == 3281459.0 / 4200.0;
    assert c.ca == 26664.0 / 25.0;
    assert c.water == 2004917.0 / 12600.0;
    assert !ExceedsExposureLimit(0.5, Moderate);
    assert TargetMeanStrength(25.0, 5.0) == 31.7;
  }
}
