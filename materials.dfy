/** Planet surfaces: the textured-versus-fallback material choice and its
    tables, the atmosphere glow, the ring geometry and tilt, the cloud layer,
    and the per-frame turning of clouds and rings. */
module PlanetMaterials {
  import opened JsMath
  import opened SolarTypes
  import opened FrameClock

  /** The loaded texture maps; a present entry is a loaded texture. */
  datatype TextureSet = TextureSet(surface: Option<string>, clouds: Option<string>, ring: Option<string>)

  /** What the texture hook returns for a body. */
  datatype TextureInfo = TextureInfo(hasTextures: bool, textures: Option<TextureSet>, fallbackColor: Option<string>)

  /** textures?.hasTextures && textures.textures */
  predicate UsesTextures(t: Option<TextureInfo>) {
    t.Some? && t.value.hasTextures && t.value.textures.Some?
  }

  datatype Emission = Emission(color: string, intensity: real)

  datatype Material =
    | Textured(roughness: real, metalness: real, emission: Option<Emission>)
    | Plain(color: string, emissive: Emission, roughness: real, metalness: real)

  /** The textured material's surface by body id. */
  function TexturedSurface(id: string): (m: Material)
    ensures m.Textured?
    ensures 0.0 <= m.roughness <= 1.0 && 0.0 <= m.metalness <= 1.0
  {
    if id == "sun" then Textured(1.0, 0.0, Some(Emission("#FDB813", 0.3)))
    else if id == "earth" then Textured(0.8, 0.0, None)
    else if id == "mars" then Textured(0.9, 0.0, None)
    else if id == "venus" then Textured(0.1, 0.0, Some(Emission("#FFC649", 0.1)))
    else if id == "jupiter" || id == "saturn" then Textured(0.8, 0.1, None)
    else if id == "uranus" || id == "neptune" then Textured(0.6, 0.2, None)
    else if id == "moon" then Textured(0.9, 0.0, None)
    else Textured(0.8, 0.2, None)
  }

  /** An entry of the fallback table; emission is absent for most bodies. */
  datatype FallbackEntry = FallbackEntry(color: string, emission: Option<Emission>, roughness: real, metalness: real)

  function FallbackTable(id: string): (e: Option<FallbackEntry>)
    ensures e.Some? ==> 0.0 <= e.value.roughness <= 1.0 && 0.0 <= e.value.metalness <= 1.0
  {
    if id == "sun" then Some(FallbackEntry("#FDB813", Some(Emission("#FDB813", 0.3)), 1.0, 0.0))
    else if id == "mercury" then Some(FallbackEntry("#8C7853", None, 0.9, 0.1))
    else if id == "venus" then Some(FallbackEntry("#FFC649", Some(Emission("#FFC649", 0.05)), 0.1, 0.0))
    else if id == "earth" then Some(FallbackEntry("#6B93D6", None, 0.8, 0.0))
    else if id == "mars" then Some(FallbackEntry("#CD5C5C", None, 0.9, 0.0))
    else if id == "jupiter" then Some(FallbackEntry("#D8CA9D", None, 0.8, 0.1))
    else if id == "saturn" then Some(FallbackEntry("#FAD5A5", None, 0.8, 0.1))
    else if id == "uranus" then Some(FallbackEntry("#4FD0E7", None, 0.6, 0.2))
    else if id == "neptune" then Some(FallbackEntry("#4B70DD", None, 0.6, 0.2))
    else if id == "moon" then Some(FallbackEntry("#C0C0C0", None, 0.9, 0.0))
    else None
  }

  const DefaultFallbackColor: string := "#888888"
  const NoEmission: Emission := Emission("#000000", 0.0)

  /** The fallback material: the table entry, else the hook's fallback colour
      (when truthy) or grey; a missing emission is black at intensity 0. */
  function FallbackMaterial(body: Body, t: Option<TextureInfo>): (m: Material)
    ensures m.Plain?
    ensures FallbackTable(body.id).Some? ==> m.color == FallbackTable(body.id).value.color
    ensures FallbackTable(body.id).None? && t.Some? && IdTruthy(t.value.fallbackColor) ==> m.color == t.value.fallbackColor.value
    ensures FallbackTable(body.id).None? && !(t.Some? && IdTruthy(t.value.fallbackColor)) ==> m.color == DefaultFallbackColor
    ensures FallbackTable(body.id).None? || FallbackTable(body.id).value.emission.None? ==> m.emissive == NoEmission
    ensures 0.0 <= m.roughness <= 1.0 && 0.0 <= m.metalness <= 1.0
  {
    var entry :=
      if FallbackTable(body.id).Some? then FallbackTable(body.id).value
      else FallbackEntry(if t.Some? && IdTruthy(t.value.fallbackColor) then t.value.fallbackColor.value else DefaultFallbackColor,
                         None, 0.8, 0.2);
    Plain(entry.color, if entry.emission.Some? then entry.emission.value else NoEmission, entry.roughness, entry.metalness)
  }

  /** PlanetMaterial: textured exactly when textures are loaded. */
  function PlanetMaterial(body: Body, t: Option<TextureInfo>): (m: Material)
    ensures m.Textured? <==> UsesTextures(t)
    ensures 0.0 <= m.roughness <= 1.0 && 0.0 <= m.metalness <= 1.0
  {
    if UsesTextures(t) then TexturedSurface(body.id) else FallbackMaterial(body, t)
  }

  /** Loading textures changes a body's roughness and metalness only for
      Mercury, which the textured table does not list. */
  lemma SurfaceAgreesAcrossTables(body: Body, t1: Option<TextureInfo>, t2: Option<TextureInfo>)
    requires UsesTextures(t1) && !UsesTextures(t2)
    ensures body.id != "mercury" ==>
      PlanetMaterial(body, t1).roughness == PlanetMaterial(body, t2).roughness
      && PlanetMaterial(body, t1).metalness == PlanetMaterial(body, t2).metalness
    ensures body.id == "mercury" ==>
      PlanetMaterial(body, t1).roughness == 0.8 && PlanetMaterial(body, t2).roughness == 0.9
  {
  }

  /** The glow colours; the table also lists earth, which the gate never lets through. */
  function GlowColor(id: string): Option<string> {
    if id == "earth" then Some("#1E4D72")
    else if id == "venus" then Some("#FFC649")
    else if id == "jupiter" then Some("#D8CA9D")
    else if id == "saturn" then Some("#FAD5A5")
    else if id == "uranus" then Some("#4FD0E7")
    else if id == "neptune" then Some("#4B70DD")
    else None
  }

  const GlowIds: seq<string> := ["venus", "jupiter", "saturn", "uranus", "neptune"]

  datatype Glow = Glow(color: Option<string>, opacity: real, radius: real)

  /** AtmosphereGlow. */
  function AtmosphereGlow(size: real, body: Body): (g: Option<Glow>)
    ensures g.Some? <==> body.id in GlowIds
    ensures g.Some? ==> g.value.color.Some? && g.value.radius == size * 1.02
  {
    if body.id !in GlowIds then None
    else Some(Glow(GlowColor(body.id), if body.id == "earth" then 0.15 else 0.1, size * 1.02))
  }

  /** Earth never glows, so every glow drawn has opacity 0.1. */
  lemma GlowOpacityAlwaysLow(size: real, body: Body)
    ensures body.id == "earth" ==> AtmosphereGlow(size, body).None?
    ensures AtmosphereGlow(size, body).Some? ==> AtmosphereGlow(size, body).value.opacity == 0.1
  {
  }

  /** getRingRotation's x angle, with both of its branches. */
  function RingTilt(body: Body): (x: real)
    ensures x + PI / 2.0 == (body.axialTilt * PI) / 180.0
  {
    var axialTiltRad := (body.axialTilt * PI) / 180.0;
    if body.id == "uranus" then axialTiltRad - PI / 2.0 else -PI / 2.0 + axialTiltRad
  }

  /** The Uranus branch computes the same tilt as the default branch. */
  lemma UranusTiltBranchRedundant(b: Body)
    ensures RingTilt(b) == RingTilt(b.(id := "uranus")) == RingTilt(b.(id := "saturn"))
  {
  }

  datatype RingStyle = TexturedRing | ThinDarkRing | PlainRing

  datatype Ring = Ring(inner: real, outer: real, style: RingStyle)

  /** PlanetRings' geometry: none without rings; Saturn with a ring texture,
      Uranus and everyone else get their own radii. */
  function Rings(size: real, body: Body, t: Option<TextureInfo>): (r: Option<Ring>)
    ensures r.None? <==> !body.hasRings
    ensures r.Some? && r.value.style == TexturedRing ==>
      body.id == "saturn" && UsesTextures(t) && t.value.textures.value.ring.Some?
    ensures r.Some? && r.value.style == ThinDarkRing ==> body.id == "uranus"
    ensures body.hasRings && body.id == "saturn" && UsesTextures(t) && t.value.textures.value.ring.Some? ==>
      r.value.style == TexturedRing
    ensures body.hasRings && body.id == "uranus" ==> r.value.style == ThinDarkRing
    ensures r.Some? && r.value.style == TexturedRing ==> r.value.inner == size * 1.2 && r.value.outer == size * 2.2
    ensures r.Some? && r.value.style == ThinDarkRing ==> r.value.inner == size * 1.6 && r.value.outer == size * 2.1
    ensures r.Some? && r.value.style == PlainRing ==> r.value.inner == size * 1.2 && r.value.outer == size * 2.0
  {
    if !body.hasRings then None
    else if body.id == "saturn" && UsesTextures(t) && t.value.textures.value.ring.Some? then
      Some(Ring(size * 1.2, size * 2.2, TexturedRing))
    else if body.id == "uranus" then Some(Ring(size * 1.6, size * 2.1, ThinDarkRing))
    else Some(Ring(size * 1.2, size * 2.0, PlainRing))
  }

  /** For a positive size every ring is a proper annulus that clears the planet's surface. */
  lemma RingClearsPlanet(size: real, body: Body, t: Option<TextureInfo>)
    requires size > 0.0 && body.hasRings
    ensures var r := Rings(size, body, t).value; size < r.inner < r.outer
  {
  }

  /** CloudLayer renders only with a cloud texture, just outside the surface.
      Planet.tsx imports this component but never mounts it. */
  function CloudShell(size: real, t: Option<TextureInfo>): (radius: Option<real>)
    ensures radius.Some? <==> t.Some? && t.value.hasTextures && t.value.textures.Some? && t.value.textures.value.clouds.Some?
    ensures radius.Some? ==> radius.value == size * 1.005
  {
    if t.Some? && t.value.hasTextures && t.value.textures.Some? && t.value.textures.value.clouds.Some? then Some(size * 1.005)
    else None
  }

  const CloudSpeed: real := 0.3
  const RingSpeed: real := 0.1

  /** The cloud mesh's rotation about y. */
  class CloudLayer {
    var rotation: real

    constructor ()
      ensures rotation == 0.0
    {
      rotation := 0.0;
    }

    method Frame(timeScale: real, delta: real)
      modifies this
      ensures rotation == Advance(old(rotation), CloudSpeed, timeScale, delta)
    {
      var isPaused := timeScale <= 0.0;
      if !isPaused {
        var effectiveTimeScale := timeScale / 60.0;
        rotation := rotation + 0.3 * effectiveTimeScale * delta;
      }
    }
  }

  /** The ring mesh's rotation about z. */
  class PlanetRings {
    var rotation: real

    constructor ()
      ensures rotation == 0.0
    {
      rotation := 0.0;
    }

    method Frame(timeScale: real, delta: real)
      modifies this
      ensures rotation == Advance(old(rotation), RingSpeed, timeScale, delta)
    {
      var isPaused := timeScale <= 0.0;
      if !isPaused {
        var effectiveTimeScale := timeScale / 60.0;
        rotation := rotation + 0.1 * effectiveTimeScale * delta;
      }
    }
  }

  /** Over any frame the clouds turn three times as far as the rings, and
      neither turns while paused. */
  lemma CloudsOutpaceRings(angle: real, timeScale: real, delta: real)
    ensures Advance(angle, CloudSpeed, timeScale, delta) - angle == 3.0 * (Advance(angle, RingSpeed, timeScale, delta) - angle)
    ensures IsPaused(timeScale) ==> Advance(angle, CloudSpeed, timeScale, delta) == angle == Advance(angle, RingSpeed, timeScale, delta)
  {
    AdvanceProportionalToSpeed(angle, RingSpeed, 3.0, timeScale, delta);
  }
}
