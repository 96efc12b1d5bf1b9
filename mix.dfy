/** The mix-design calculation: a simplified ACI 211.1 absolute-volume
    procedure run in a fixed order of steps. Each step is a function of its
    own; `DryBatch` composes steps 3 to 8 and `CalculateMix` adds the moisture
    correction and the admixture dosage. */
module MixDesign {
  import opened Wrappers
  import opened AciTables

  /** Everything the calculation reads, as the input widgets deliver it. */
  datatype MixParams = MixParams(
    fck: real,            // specified strength f'c, MPa
    stdDev: real,         // standard deviation of strength, MPa
    exposure: Exposure,
    maxAggSizeMm: int,    // maximum aggregate size, mm
    slump: int,           // mm
    airEntrained: bool,
    airContent: real,     // target air content, percent
    wcm: real,            // water-cement ratio
    admixture: real,      // admixture dosage, percent of cement mass
    fm: real,             // fineness modulus of the fine aggregate
    sgCement: real,
    sgFa: real,
    sgCa: real,
    unitWeightCa: real,   // dry-rodded unit weight of coarse aggregate, kg/m3
    moistFa: real,        // free moisture of fine aggregate, percent
    moistCa: real)        // free moisture of coarse aggregate, percent

  /** The seven reported quantities, before presentation rounding. */
  datatype MixResult = MixResult(
    targetMeanStrength: real,
    water: real,
    cement: real,
    fineAggregate: real,
    coarseAggregate: real,
    airContent: real,
    admixture: real)

  /** A result together with the two non-fatal signals of the calculation:
      the w/c advisory and the coarse-aggregate row fallback. */
  datatype MixReport = MixReport(mix: MixResult, wcmAdvisory: bool, caFallback: bool)

  /** The failures the calculation can hit, in the order it evaluates them. */
  datatype CalcError =
    | UnsupportedAggregateSize(mm: int)
    | ZeroWaterCementRatio
    | ZeroCementGravity
    | ZeroCoarseGravity

  /** A raised error together with the w/c advisory, which is issued before
      any of the failing lines runs. */
  datatype MixFailure = MixFailure(error: CalcError, wcmAdvisory: bool)

  /** Quantities per cubic metre before the moisture correction. */
  datatype Batch = Batch(
    water: real,       // kg
    cement: real,      // kg
    caMass: real,      // dry coarse aggregate, kg
    airVol: real,      // m3
    faVol: real,       // m3, the remainder of the absolute-volume balance
    faMass: real,      // dry fine aggregate, kg
    caFallback: bool)

  function Min(a: real, b: real): real { if a <= b then a else b }
  function Max(a: real, b: real): real { if a >= b then a else b }

  /** Step 1: required average strength f'cr = f'c + 1.34 s. */
  function TargetMeanStrength(fck: real, stdDev: real): (ft: real)
    ensures stdDev > 0.0 ==> ft > fck
    ensures stdDev == 0.0 ==> ft == fck
  {
    fck + 1.34 * stdDev
  }

  /** Step 2: the caller's ratio is above the exposure class's maximum. */
  predicate ExceedsExposureLimit(wcm: real, e: Exposure)
    ensures wcm > 0.55 ==> ExceedsExposureLimit(wcm, e)
    ensures wcm <= 0.45 ==> !ExceedsExposureLimit(wcm, e)
  {
    wcm > Limits(e).maxWcm
  }

  /** Step 4: linear correction of 0.3 kg/m3 per mm of slump away from 75 mm. */
  function SlumpAdjusted(base: real, slump: int): (w: real)
    ensures w < base <==> slump < 75
    ensures w == base <==> slump == 75
  {
    base + (slump - 75) as real * 0.3
  }

  /** Step 5: a non-zero admixture dosage scales the water down by 5% per
      percent of dosage, at most by 15%. */
  function AdmixtureReduced(water: real, admixture: real): (w: real)
    ensures admixture == 0.0 ==> w == water
    ensures water >= 0.0 && admixture >= 0.0 ==> 0.85 * water <= w <= water
    ensures admixture >= 3.0 ==> w == 0.85 * water
  {
    if admixture != 0.0 then water * (1.0 - Min(0.15, admixture * 0.05)) else water
  }

  /** Steps 3 to 5: the mixing water before the moisture correction. */
  function DesignWater(airEntrained: bool, size: AggregateSize, slump: int, admixture: real): (w: real)
    ensures 25 <= slump <= 200 && admixture >= 0.0 ==>
      var adjusted := SlumpAdjusted(BaseWater(WaterRow(airEntrained), size), slump);
      && 125.0 <= adjusted <= 242.5
      && 0.85 * adjusted <= w <= adjusted
      && 106.25 <= w <= 242.5
  {
    AdmixtureReduced(SlumpAdjusted(BaseWater(WaterRow(airEntrained), size), slump), admixture)
  }

  /** Step 6: cement from the water-cement ratio, floored at the exposure
      class's minimum content. */
  function CementContent(water: real, wcm: real, e: Exposure): (c: real)
    requires wcm != 0.0
    ensures c >= Limits(e).minCement && c >= water / wcm
    ensures c == Limits(e).minCement || c == water / wcm
  {
    Max(water / wcm, Limits(e).minCement)
  }

  /** Rounding to the nearest tenth (ties upward), in tenths. */
  function RoundTenths(x: real): (n: int)
    ensures n as real - 0.5 <= x * 10.0 < n as real + 0.5
  {
    (x * 10.0 + 0.5).Floor
  }

  datatype CaLookup = CaLookup(volume: real, fallback: bool)

  /** Step 7: the coarse-aggregate fraction from the row of the rounded
      fineness modulus, or from the 2.7 row when that is not a row key. */
  function CoarseVolume(fm: real, size: AggregateSize): (l: CaLookup)
    ensures l.volume in CaColumn(size)
    ensures l.fallback <==> RowOf(RoundTenths(fm)).None?
    ensures l.fallback ==> l.volume == CaVolume(Fm27, size)
    ensures !l.fallback ==> l.volume == CaVolume(RowOf(RoundTenths(fm)).value, size)
  {
    match RowOf(RoundTenths(fm))
    case Some(row) => CaLookup(CaVolume(row, size), false)
    case None => CaLookup(CaVolume(Fm27, size), true)
  }

  /** Air volume used in the balance: the target content when entrained,
      otherwise a fixed 1% of entrapped air. */
  function AirVolume(airEntrained: bool, airContent: real): (v: real)
    ensures airEntrained ==> v * 100.0 == airContent
    ensures !airEntrained ==> v == 0.01
  {
    if airEntrained then airContent / 100.0 else 0.01
  }

  /** Absolute volume in m3 of a mass in kg of a material of the given
      specific gravity. */
  function AbsVolume(mass: real, sg: real): real
    requires sg != 0.0
  {
    mass / (sg * 1000.0)
  }

  /** The defining constraint of the absolute-volume method: the components
      fill exactly one cubic metre, and the fine-aggregate mass is its volume
      at its specific gravity. */
  predicate VolumeBalanced(b: Batch, sgCement: real, sgFa: real, sgCa: real)
    requires sgCement != 0.0 && sgCa != 0.0
  {
    && AbsVolume(b.cement, sgCement) + b.water / 1000.0 + b.airVol + AbsVolume(b.caMass, sgCa) + b.faVol == 1.0
    && b.faMass == b.faVol * sgFa * 1000.0
  }

  /** The error the calculation raises for these inputs, if any. */
  function ErrorOf(p: MixParams): (r: Option<CalcError>)
    ensures r.None? <==> (SizeOf(p.maxAggSizeMm).Some? && p.wcm != 0.0 && p.sgCement != 0.0 && p.sgCa != 0.0)
    ensures r == Some(UnsupportedAggregateSize(p.maxAggSizeMm)) <==> SizeOf(p.maxAggSizeMm).None?
    ensures r == Some(ZeroWaterCementRatio) <==> (SizeOf(p.maxAggSizeMm).Some? && p.wcm == 0.0)
    ensures r == Some(ZeroCementGravity) <==> (SizeOf(p.maxAggSizeMm).Some? && p.wcm != 0.0 && p.sgCement == 0.0)
    ensures r == Some(ZeroCoarseGravity) <==> (SizeOf(p.maxAggSizeMm).Some? && p.wcm != 0.0 && p.sgCement != 0.0 && p.sgCa == 0.0)
  {
    if SizeOf(p.maxAggSizeMm).None? then Some(UnsupportedAggregateSize(p.maxAggSizeMm))
    else if p.wcm == 0.0 then Some(ZeroWaterCementRatio)
    else if p.sgCement == 0.0 then Some(ZeroCementGravity)
    else if p.sgCa == 0.0 then Some(ZeroCoarseGravity)
    else None
  }

  /** Steps 3 to 8: proportions per cubic metre before the moisture correction. */
  function DryBatch(p: MixParams): (r: Result<Batch, CalcError>)
    ensures r.Err? <==> ErrorOf(p).Some?
    ensures r.Err? ==> r.error == ErrorOf(p).value
    ensures r.Ok? ==> VolumeBalanced(r.value, p.sgCement, p.sgFa, p.sgCa)
    ensures r.Ok? ==> r.value.cement >= Limits(p.exposure).minCement
    ensures r.Ok? ==> r.value.cement >= r.value.water / p.wcm
    ensures r.Ok? ==> (r.value.cement == Limits(p.exposure).minCement || r.value.cement == r.value.water / p.wcm)
    ensures r.Ok? ==>
      var size := SizeOf(p.maxAggSizeMm).value;
      && r.value.water == DesignWater(p.airEntrained, size, p.slump, p.admixture)
      && r.value.caMass == CoarseVolume(p.fm, size).volume * p.unitWeightCa
      && r.value.caFallback == CoarseVolume(p.fm, size).fallback
      && r.value.airVol == AirVolume(p.airEntrained, p.airContent)
  {
    match SizeOf(p.maxAggSizeMm)
    case None => Err(UnsupportedAggregateSize(p.maxAggSizeMm))
    case Some(size) =>
      var water := DesignWater(p.airEntrained, size, p.slump, p.admixture);
      if p.wcm == 0.0 then Err(ZeroWaterCementRatio)
      else
        var cement := CementContent(water, p.wcm, p.exposure);
        var ca := CoarseVolume(p.fm, size);
        var caMass := ca.volume * p.unitWeightCa;
        if p.sgCement == 0.0 then Err(ZeroCementGravity)
        else if p.sgCa == 0.0 then Err(ZeroCoarseGravity)
        else
          var airVol := AirVolume(p.airEntrained, p.airContent);
          var faVol := 1.0 - (AbsVolume(cement, p.sgCement) + water / 1000.0 + airVol + AbsVolume(caMass, p.sgCa));
          Ok(Batch(water, cement, caMass, airVol, faVol, faVol * p.sgFa * 1000.0, ca.fallback))
  }

  datatype Corrected = Corrected(water: real, fa: real, ca: real)

  /** Step 9: aggregates are weighed wet and the free water they carry is
      taken off the batch water, computed on the dry masses. */
  function MoistureCorrection(water: real, faMass: real, caMass: real, moistFa: real, moistCa: real): (c: Corrected)
    ensures c.water + c.fa + c.ca == water + faMass + caMass
    ensures c.fa - faMass == faMass * moistFa / 100.0 && c.ca - caMass == caMass * moistCa / 100.0
    ensures moistFa >= 0.0 && faMass >= 0.0 ==> c.fa >= faMass
    ensures moistCa >= 0.0 && caMass >= 0.0 ==> c.ca >= caMass
    ensures moistFa >= 0.0 && faMass >= 0.0 && moistCa >= 0.0 && caMass >= 0.0 ==> c.water <= water
    ensures moistFa == 0.0 && moistCa == 0.0 ==> c == Corrected(water, faMass, caMass)
  {
    Corrected(
      water - (faMass * moistFa / 100.0 + caMass * moistCa / 100.0),
      faMass * (1.0 + moistFa / 100.0),
      caMass * (1.0 + moistCa / 100.0))
  }

  /** The whole calculation: the reported mix, or the error it raises. */
  function CalculateMix(p: MixParams): (r: Result<MixReport, MixFailure>)
    ensures r.Err? <==> ErrorOf(p).Some?
    ensures r.Err? ==> r.error.error == ErrorOf(p).value
    ensures r.Err? ==> (r.error.wcmAdvisory <==> p.wcm > Limits(p.exposure).maxWcm)
    ensures r.Ok? ==>
      var b := DryBatch(p).value;
      var m := r.value.mix;
      && m.targetMeanStrength == TargetMeanStrength(p.fck, p.stdDev)
      && (r.value.wcmAdvisory <==> p.wcm > Limits(p.exposure).maxWcm)
      && r.value.caFallback == b.caFallback
      && m.cement == b.cement
      && m.cement >= Limits(p.exposure).minCement
      && m.water + m.fineAggregate + m.coarseAggregate == b.water + b.faMass + b.caMass
      && Corrected(m.water, m.fineAggregate, m.coarseAggregate) == MoistureCorrection(b.water, b.faMass, b.caMass, p.moistFa, p.moistCa)
      && m.airContent == p.airContent
      && m.admixture == m.cement * p.admixture / 100.0
  {
    var advisory := ExceedsExposureLimit(p.wcm, p.exposure);
    match DryBatch(p)
    case Err(e) => Err(MixFailure(e, advisory))
    case Ok(b) =>
      var c := MoistureCorrection(b.water, b.faMass, b.caMass, p.moistFa, p.moistCa);
      var mix := MixResult(
        TargetMeanStrength(p.fck, p.stdDev), c.water, b.cement, c.fa, c.ca,
        p.airContent, b.cement * p.admixture / 100.0);
      Ok(MixReport(mix, advisory, b.caFallback))
  }
}
