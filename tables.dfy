/** The three reference tables of the mix designer: base mixing water,
    coarse-aggregate volume fraction and exposure limits. Each table key is a
    closed enumeration, so every lookup is an exhaustive match. */
module AciTables {
  import opened Wrappers

  /** Row key of the mixing-water table. */
  datatype AirEntrainment = NonAirEntrained | AirEntrained

  /** The water-table row for the caller's air-entrainment checkbox. */
  function WaterRow(airEntrained: bool): (row: AirEntrainment)
    ensures row.AirEntrained? <==> airEntrained
  {
    if airEntrained then AirEntrained else NonAirEntrained
  }

  /** The three maximum aggregate sizes the tables are keyed by. */
  datatype AggregateSize = Size10 | Size20 | Size40
  {
    function Millimetres(): nat
    {
      match this
      case Size10 => 10
      case Size20 => 20
      case Size40 => 40
    }
  }

  /** Looks a size in millimetres up among the table keys; `None` is the
      dictionary miss. */
  function SizeOf(mm: int): (r: Option<AggregateSize>)
    ensures r.Some? <==> (mm == 10 || mm == 20 || mm == 40)
    ensures r.Some? ==> r.value.Millimetres() == mm
  {
    if mm == 10 then Some(Size10)
    else if mm == 20 then Some(Size20)
    else if mm == 40 then Some(Size40)
    else None
  }

  /** Base mixing water in kg/m3 at the 75 mm reference slump. */
  function BaseWater(row: AirEntrainment, size: AggregateSize): (w: real)
    ensures 140.0 <= w <= 205.0
  {
    match (row, size)
    case (NonAirEntrained, Size10) => 205.0
    case (NonAirEntrained, Size20) => 185.0
    case (NonAirEntrained, Size40) => 160.0
    case (AirEntrained, Size10) => 180.0
    case (AirEntrained, Size20) => 160.0
    case (AirEntrained, Size40) => 140.0
  }

  /** Row key of the coarse-aggregate table: fineness modulus 2.4, 2.7 or 3.0. */
  datatype FmRow = Fm24 | Fm27 | Fm30
  {
    /** The fineness modulus of the row, in tenths. */
    function Tenths(): int
    {
      match this
      case Fm24 => 24
      case Fm27 => 27
      case Fm30 => 30
    }
  }

  /** Looks a fineness modulus given in tenths up among the row keys; `None`
      is the dictionary miss. */
  function RowOf(tenths: int): (r: Option<FmRow>)
    ensures r.Some? <==> (tenths == 24 || tenths == 27 || tenths == 30)
    ensures r.Some? ==> r.value.Tenths() == tenths
  {
    if tenths == 24 then Some(Fm24)
    else if tenths == 27 then Some(Fm27)
    else if tenths == 30 then Some(Fm30)
    else None
  }

  /** Volume of dry-rodded coarse aggregate per unit volume of concrete. */
  function CaVolume(row: FmRow, size: AggregateSize): (v: real)
    ensures 0.44 <= v <= 0.80
  {
    match (row, size)
    case (Fm24, Size10) => 0.44
    case (Fm24, Size20) => 0.60
    case (Fm24, Size40) => 0.68
    case (Fm27, Size10) => 0.49
    case (Fm27, Size20) => 0.66
    case (Fm27, Size40) => 0.74
    case (Fm30, Size10) => 0.53
    case (Fm30, Size20) => 0.72
    case (Fm30, Size40) => 0.80
  }

  /** The three tabulated coarse-aggregate fractions for one aggregate size. */
  function CaColumn(size: AggregateSize): set<real>
  {
    {CaVolume(Fm24, size), CaVolume(Fm27, size), CaVolume(Fm30, size)}
  }

  /** Durability class of the concrete. */
  datatype Exposure = Mild | Moderate | Severe
  {
    /** Position of the class from least to most severe. */
    function Severity(): nat
    {
      match this
      case Mild => 0
      case Moderate => 1
      case Severe => 2
    }
  }

  datatype ExposureLimit = ExposureLimit(maxWcm: real, minCement: real)

  /** Maximum water-cement ratio and minimum cement content (kg/m3). */
  function Limits(e: Exposure): (l: ExposureLimit)
    ensures 0.45 <= l.maxWcm <= 0.55
    ensures 250.0 <= l.minCement <= 335.0
  {
    match e
    case Mild => ExposureLimit(0.55, 250.0)
    case Moderate => ExposureLimit(0.50, 300.0)
    case Severe => ExposureLimit(0.45, 335.0)
  }

  /** Every size key round-trips through its millimetre value. */
  lemma SizeRoundTrip(size: AggregateSize)
    ensures SizeOf(size.Millimetres()) == Some(size)
  {
  }

  /** Every fineness-modulus key round-trips through its tenths. */
  lemma RowRoundTrip(row: FmRow)
    ensures RowOf(row.Tenths()) == Some(row)
  {
  }

  /** Air entrainment lowers the water demand, and so does a larger aggregate. */
  lemma WaterTableOrdering(row: AirEntrainment, small: AggregateSize, large: AggregateSize)
    ensures BaseWater(AirEntrained, small) < BaseWater(NonAirEntrained, small)
    ensures small.Millimetres() < large.Millimetres() ==> BaseWater(row, large) < BaseWater(row, small)
  {
  }

  /** As written, the coarse-aggregate fraction grows with the aggregate size
      and with the fineness modulus. */
  lemma CaTableOrdering(r1: FmRow, r2: FmRow, s1: AggregateSize, s2: AggregateSize)
    requires r1.Tenths() <= r2.Tenths() && s1.Millimetres() <= s2.Millimetres()
    ensures CaVolume(r1, s1) <= CaVolume(r2, s2)
    ensures (r1 != r2 || s1 != s2) ==> CaVolume(r1, s1) < CaVolume(r2, s2)
  {
  }

  /** A more severe exposure class has a strictly lower maximum ratio and a
      strictly higher minimum cement content. */
  lemma ExposureOrdering(e1: Exposure, e2: Exposure)
    requires e1.Severity() < e2.Severity()
    ensures Limits(e2).maxWcm < Limits(e1).maxWcm
    ensures Limits(e1).minCement < Limits(e2).minCement
  {
  }
}
