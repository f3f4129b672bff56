/** Number formatting buckets and unit conversions. The digits that toFixed
    prints are not modelled: a formatted value is the scaled number and its
    suffix. */
module Utils {
  import opened JsMath

  const Thousand: real := 1000.0
  const Million: real := 1000000.0
  const Billion: real := 1000000000.0

  /** Kilometres in one astronomical unit. */
  const KmPerAu: real := 149597870.7

  /** The magnitude bucket both formatters pick by the same thresholds. */
  datatype Bucket = Billions | Millions | Thousands | Units

  function BucketOf(x: real): (b: Bucket)
    ensures b == Billions <==> x >= Billion
    ensures b == Millions <==> Million <= x < Billion
    ensures b == Thousands <==> Thousand <= x < Million
    ensures b == Units <==> x < Thousand
  {
    if x >= Billion then Billions
    else if x >= Million then Millions
    else if x >= Thousand then Thousands
    else Units
  }

  function Divisor(b: Bucket): (d: real)
    ensures d >= 1.0
  {
    match b
    case Billions => Billion
    case Millions => Million
    case Thousands => Thousand
    case Units => 1.0
  }

  /** A number as scaled for display, before toFixed, with its suffix. */
  datatype Formatted = Formatted(scaled: real, suffix: string)

  function NumberSuffix(b: Bucket): string {
    match b
    case Billions => "B"
    case Millions => "M"
    case Thousands => "K"
    case Units => ""
  }

  function DistanceSuffix(b: Bucket): string {
    match b
    case Billions => " billion km"
    case Millions => " million km"
    case Thousands => " thousand km"
    case Units => " km"
  }

  /** formatNumber: the scaled value times the bucket's divisor gives back the number. */
  function FormatNumber(num: real): (r: Formatted)
    ensures r.scaled * Divisor(BucketOf(num)) == num
    ensures r.suffix == NumberSuffix(BucketOf(num))
  {
    var b := BucketOf(num);
    Formatted(num / Divisor(b), NumberSuffix(b))
  }

  /** formatDistance: same thresholds, spelled-out suffixes. */
  function FormatDistance(km: real): (r: Formatted)
    ensures r.scaled * Divisor(BucketOf(km)) == km
    ensures r.suffix == DistanceSuffix(BucketOf(km))
  {
    var b := BucketOf(km);
    Formatted(km / Divisor(b), DistanceSuffix(b))
  }

  /** The scaled value of every non-unit bucket has between one and three
      integer digits, except billions, which is only bounded below. */
  lemma ScaledValueRange(num: real)
    ensures BucketOf(num) in {Millions, Thousands} ==> 1.0 <= FormatNumber(num).scaled < 1000.0
    ensures BucketOf(num) == Billions ==> FormatNumber(num).scaled >= 1.0
    ensures BucketOf(num) == Units ==> FormatNumber(num).scaled == num
  {
    var r := FormatNumber(num);
    var d := Divisor(BucketOf(num));
    assert r.scaled * d == num;
    if BucketOf(num) == Millions {
      assert Million <= r.scaled * Million < Billion;
    } else if BucketOf(num) == Thousands {
      assert Thousand <= r.scaled * Thousand < Million;
    } else if BucketOf(num) == Billions {
      assert r.scaled * Billion >= Billion;
    }
  }

  /** The two formatters always agree on the bucket and on the value before rounding. */
  lemma FormattersAgree(x: real)
    ensures FormatNumber(x).scaled == FormatDistance(x).scaled
    ensures FormatNumber(x).suffix == "" <==> FormatDistance(x).suffix == " km"
  {
  }

  function AuToKm(au: real): (km: real)
    ensures km / KmPerAu == au
  {
    au * KmPerAu
  }

  /** AU to km is zero at zero, strictly increasing and additive. */
  lemma AuToKmLinear(a: real, b: real)
    ensures AuToKm(0.0) == 0.0
    ensures a < b ==> AuToKm(a) < AuToKm(b)
    ensures AuToKm(a + b) == AuToKm(a) + AuToKm(b)
  {
  }

  function DegreesToRadians(degrees: real): (rad: real)
    ensures rad * 180.0 == degrees * PI
  {
    degrees * (PI / 180.0)
  }

  /** Degrees to radians is linear and takes a half turn to PI. */
  lemma DegreesToRadiansLinear(a: real, b: real)
    ensures DegreesToRadians(180.0) == PI
    ensures DegreesToRadians(a + b) == DegreesToRadians(a) + DegreesToRadians(b)
  {
  }
}
