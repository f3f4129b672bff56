/** The background star catalogue: conversion of sky coordinates to render
    space, colour and point size of a star, the twenty bright stars and the
    generation of fainter ones from random draws. */
module StarCatalog {
  import opened JsMath
  import opened SolarTypes

  datatype StarData = StarData(
    id: int,
    name: Option<string>,
    ra: real,             // right ascension, degrees
    dec: real,            // declination, degrees
    magnitude: real,      // apparent magnitude, lower is brighter
    spectralClass: string,
    distance: Option<real>)

  /** The default sphere radius of raDecToCartesian. */
  const DefaultSkyRadius: real := 1000.0

  /** raDecToCartesian, with sin and cos supplied by the caller. */
  function RaDecToCartesian(ra: real, dec: real, radius: real, sin: real -> real, cos: real -> real): (p: Vec3)
    ensures p.y == radius * sin((dec * PI) / 180.0)
    ensures p.x * sin((ra * PI) / 180.0) == p.z * cos((ra * PI) / 180.0)
  {
    var raRad := (ra * PI) / 180.0;
    var decRad := (dec * PI) / 180.0;
    Vec3(radius * cos(decRad) * cos(raRad),
         radius * sin(decRad),
         radius * cos(decRad) * sin(raRad))
  }

  /** Wherever sin^2 + cos^2 = 1 holds at the two angles, the point lies on the
      sphere of the given radius. */
  lemma RaDecOnSphere(ra: real, dec: real, radius: real, sin: real -> real, cos: real -> real)
    requires sin((ra * PI) / 180.0) * sin((ra * PI) / 180.0) + cos((ra * PI) / 180.0) * cos((ra * PI) / 180.0) == 1.0
    requires sin((dec * PI) / 180.0) * sin((dec * PI) / 180.0) + cos((dec * PI) / 180.0) * cos((dec * PI) / 180.0) == 1.0
    ensures NormSquared(RaDecToCartesian(ra, dec, radius, sin, cos)) == radius * radius
  {
    var ca, sa := cos((ra * PI) / 180.0), sin((ra * PI) / 180.0);
    var cd, sd := cos((dec * PI) / 180.0), sin((dec * PI) / 180.0);
    var p := RaDecToCartesian(ra, dec, radius, sin, cos);
    var rc := radius * cd;
    assert p.x == rc * ca && p.z == rc * sa && p.y == radius * sd;
    calc {
      p.x * p.x + p.z * p.z;
      (rc * ca) * (rc * ca) + (rc * sa) * (rc * sa);
      rc * rc * (ca * ca + sa * sa);
      rc * rc;
      radius * radius * (cd * cd);
    }
    calc {
      NormSquared(p);
      radius * radius * (cd * cd) + (radius * sd) * (radius * sd);
      radius * radius * (cd * cd + sd * sd);
      radius * radius;
    }
  }

  /** String.prototype.toUpperCase on one character; only ASCII letters are
      mapped, which is all a spectral letter can be. */
  function UpperAscii(c: char): (u: char)
    ensures 'a' <= c <= 'z' ==> u as int == c as int - 32
    ensures !('a' <= c <= 'z') ==> u == c
  {
    if 'a' <= c <= 'z' then (c as int - 32) as char else c
  }

  const SpectralLetters: string := "OBAFGKM"

  /** getStarColor: decided by the upper-cased first character alone. */
  function GetStarColor(spectralClass: string): (color: string)
    ensures color == "#ffffff" <==> (|spectralClass| == 0 || UpperAscii(spectralClass[0]) !in SpectralLetters)
  {
    if |spectralClass| == 0 then "#ffffff"
    else
      match UpperAscii(spectralClass[0])
      case 'O' => "#9bb0ff"
      case 'B' => "#aabfff"
      case 'A' => "#cad7ff"
      case 'F' => "#f8f7ff"
      case 'G' => "#fff4ea"
      case 'K' => "#ffd2a1"
      case 'M' => "#ffad51"
      case _ => "#ffffff"
  }

  /** Two classes that share an upper-cased first letter share a colour. */
  lemma StarColorByLetter(s: string, t: string)
    ensures |s| > 0 && |t| > 0 && UpperAscii(s[0]) == UpperAscii(t[0]) ==> GetStarColor(s) == GetStarColor(t)
  {
  }

  /** Different spectral letters have different colours. */
  lemma SpectralColorsDistinct(c: char, d: char)
    requires c in SpectralLetters && d in SpectralLetters && c != d
    ensures GetStarColor([c]) != GetStarColor([d])
  {
    var gc, gd := GetStarColor([c]), GetStarColor([d]);
    assert gc[3] != gd[3] || gc[4] != gd[4];
  }

  /** getStarSize: brighter stars are drawn larger, within [0.5, 3.0]. */
  function GetStarSize(magnitude: real): (size: real)
    ensures 0.5 <= size <= 3.0
    ensures magnitude <= -1.5 ==> size == 3.0
  {
    Max(0.5, Min(3.0, 3.0 - (magnitude + 1.5) * 0.6))
  }

  lemma StarSizeNonIncreasing(m1: real, m2: real)
    requires m1 <= m2
    ensures GetStarSize(m1) >= GetStarSize(m2)
  {
  }

  /** The spectral letter of a generated star, from one uniform draw. */
  function SpectralClassOf(draw: real): (c: char)
    ensures c in SpectralLetters
    ensures c == 'M' <==> draw < 0.76
    ensures c == 'K' <==> 0.76 <= draw < 0.88
    ensures c == 'G' <==> 0.88 <= draw < 0.96
    ensures c == 'F' <==> 0.96 <= draw < 0.99
    ensures c == 'A' <==> 0.99 <= draw < 0.995
    ensures c == 'B' <==> 0.995 <= draw < 0.999
    ensures c == 'O' <==> draw >= 0.999
  {
    if draw < 0.76 then 'M'
    else if draw < 0.88 then 'K'
    else if draw < 0.96 then 'G'
    else if draw < 0.99 then 'F'
    else if draw < 0.995 then 'A'
    else if draw < 0.999 then 'B'
    else 'O'
  }

  /** The four Math.random() values one generated star consumes, in call order. */
  datatype StarDraw = StarDraw(ra: real, dec: real, magnitude: real, spectral: real)

  predicate UnitDraw(x: real) {
    0.0 <= x < 1.0
  }

  predicate ValidStarDraw(d: StarDraw) {
    UnitDraw(d.ra) && UnitDraw(d.dec) && UnitDraw(d.magnitude) && UnitDraw(d.spectral)
  }

  /** The i-th generated star. */
  function MakeStar(i: int, d: StarDraw): (s: StarData)
    ensures s.id == 1000 + i && s.name.None?
    ensures |s.spectralClass| == 1 && s.spectralClass[0] in SpectralLetters
  {
    StarData(1000 + i, None, d.ra * 360.0, (d.dec - 0.5) * 180.0, 2.0 + d.magnitude * 4.0,
             [SpectralClassOf(d.spectral)], None)
  }

  /** A generated star lies on the visible sky, has magnitude in [2, 6) and one
      of the seven spectral letters. */
  lemma MakeStarRanges(i: int, d: StarDraw)
    requires ValidStarDraw(d)
    ensures var s := MakeStar(i, d);
      && s.id == 1000 + i
      && 0.0 <= s.ra < 360.0
      && -90.0 <= s.dec < 90.0
      && 2.0 <= s.magnitude < 6.0
      && GetStarSize(s.magnitude) <= 1.8
      && |s.spectralClass| == 1 && s.spectralClass[0] in SpectralLetters
      && GetStarColor(s.spectralClass) != "#ffffff"
  {
    var s := MakeStar(i, d);
    assert s.spectralClass[0] in SpectralLetters;
    assert UpperAscii(s.spectralClass[0]) == s.spectralClass[0];
  }

  /** generateRandomStars: a loop that pushes one star per draw. A count of zero
      or less yields no stars. */
  method GenerateRandomStars(count: int, draws: seq<StarDraw>) returns (stars: seq<StarData>)
    requires count <= |draws|
    requires forall k :: 0 <= k < |draws| ==> ValidStarDraw(draws[k])
    ensures |stars| == if count > 0 then count else 0
    ensures forall k :: 0 <= k < |stars| ==> stars[k] == MakeStar(k, draws[k])
    ensures forall k :: 0 <= k < |stars| ==> stars[k].id == 1000 + k && 2.0 <= stars[k].magnitude < 6.0
  {
    stars := [];
    var i := 0;
    while i < count
      invariant 0 <= i <= (if count > 0 then count else 0)
      invariant |stars| == i
      invariant forall k :: 0 <= k < i ==> stars[k] == MakeStar(k, draws[k])
      invariant forall k :: 0 <= k < i ==> stars[k].id == 1000 + k && 2.0 <= stars[k].magnitude < 6.0
    {
      var d := draws[i];
      var ra := d.ra * 360.0;
      var dec := (d.dec - 0.5) * 180.0;
      var magnitude := 2.0 + d.magnitude * 4.0;
      var spectralClass := [SpectralClassOf(d.spectral)];
      MakeStarRanges(i, d);
      stars := stars + [StarData(1000 + i, None, ra, dec, magnitude, spectralClass, None)];
      i := i + 1;
    }
  }

  /** The twenty brightest stars, numbered 1 to 20. */
  const BrightStars: seq<StarData> := [
    StarData(1, Some("Sirius"), 101.287, -16.716, -1.46, "A1V", Some(2.64)),
    StarData(2, Some("Canopus"), 95.988, -52.696, -0.74, "A9II", Some(95.0)),
    StarData(3, Some("Arcturus"), 213.915, 19.182, -0.05, "K1.5III", Some(11.3)),
    StarData(4, Some("Vega"), 279.234, 38.784, 0.03, "A0V", Some(7.68)),
    StarData(5, Some("Capella"), 79.172, 45.998, 0.08, "G5III", Some(12.9)),
    StarData(6, Some("Rigel"), 78.634, -8.202, 0.13, "B8Iae", Some(264.0)),
    StarData(7, Some("Procyon"), 114.825, 5.225, 0.34, "F5IV", Some(3.5)),
    StarData(8, Some("Betelgeuse"), 88.793, 7.407, 0.50, "M1Ia", Some(168.0)),
    StarData(9, Some("Achernar"), 24.605, -57.237, 0.46, "B6Vpe", Some(44.1)),
    StarData(10, Some("Hadar"), 210.956, -60.374, 0.61, "B1III", Some(161.0)),
    StarData(11, Some("Altair"), 297.696, 8.868, 0.77, "A7V", Some(5.13)),
    StarData(12, Some("Aldebaran"), 68.980, 16.509, 0.85, "K5III", Some(20.0)),
    StarData(13, Some("Antares"), 247.352, -26.432, 1.09, "M1.5Iab", Some(170.0)),
    StarData(14, Some("Spica"), 201.298, -11.161, 1.04, "B1III", Some(77.0)),
    StarData(15, Some("Pollux"), 116.329, 28.026, 1.14, "K0III", Some(10.3)),
    StarData(16, Some("Fomalhaut"), 344.413, -29.622, 1.16, "A3V", Some(7.7)),
    StarData(17, Some("Deneb"), 310.358, 45.280, 1.25, "A2Ia", Some(802.0)),
    StarData(18, Some("Regulus"), 152.093, 11.967, 1.35, "B7V", Some(24.3)),
    StarData(19, Some("Castor"), 113.649, 31.888, 1.57, "A1V", Some(15.6)),
    StarData(20, Some("Bellatrix"), 81.283, 6.350, 1.64, "B2III", Some(74.2))
  ]

  lemma BrightStarIds()
    ensures |BrightStars| == 20
    ensures forall i :: 0 <= i < |BrightStars| ==> BrightStars[i].id == i + 1
  {
  }

  /** getStarCatalog: the bright stars followed by 3000 generated ones, every id distinct. */
  method GetStarCatalog(draws: seq<StarDraw>) returns (catalog: seq<StarData>)
    requires 3000 <= |draws|
    requires forall k :: 0 <= k < |draws| ==> ValidStarDraw(draws[k])
    ensures |catalog| == 3020
    ensures catalog[..20] == BrightStars
    ensures forall k :: 20 <= k < 3020 ==> catalog[k] == MakeStar(k - 20, draws[k - 20])
    ensures forall i, j :: 0 <= i < j < |catalog| ==> catalog[i].id != catalog[j].id
  {
    var faint := GenerateRandomStars(3000, draws);
    BrightStarIds();
    catalog := BrightStars + faint;
    forall i, j | 0 <= i < j < |catalog|
      ensures catalog[i].id != catalog[j].id
    {
      if i < 20 {
        assert catalog[i].id == i + 1;
        if j < 20 {
          assert catalog[j].id == j + 1;
        } else {
          assert catalog[j] == faint[j - 20];
        }
      } else {
        assert catalog[i] == faint[i - 20] && catalog[j] == faint[j - 20];
      }
    }
  }
}
