/**
 * The game engine's copy of the world settings (BlenderWorldInfo): flags,
 * mist parameters and three RGB colours, taken from a World data block when
 * the converter builds it and overwritten by the setters afterwards.
 */
module GameWorld {

  /** C `short`. */
  newtype int16 = x: int | -0x8000 <= x < 0x8000

  /** WO_MIST, the mist bit of World.mode. */
  const WO_MIST: bv16 := 1

  /** An RGB triple (three consecutive floats such as horr, horg, horb). */
  datatype Color = Color(r: real, g: real, b: real)

  /** The fields of a World data block the converter reads. */
  datatype World = World(mode: bv16, mistype: int16, miststa: real, mistdist: real, misi: real,
                         hor: Color, amb: Color)

  /**
   * The colour as stored: converted from linear to sRGB when the scene has
   * colour management enabled. The conversion itself is not part of this
   * model and is passed in as `toSrgb`.
   */
  function Managed(colorManaged: bool, toSrgb: Color -> Color, c: Color): Color {
    if colorManaged then toSrgb(c) else c
  }

  /** copy_v3_v3 of a colour into a three-float buffer. */
  method Store(a: array<real>, c: Color)
    requires a.Length == 3
    modifies a
    ensures a[0] == c.r && a[1] == c.g && a[2] == c.b
  {
    a[0], a[1], a[2] := c.r, c.g, c.b;
  }

  class BlenderWorldInfo {
    var hasWorld: bool
    var hasMist: bool
    var mistType: int16
    var mistStart: real
    var mistDistance: real
    var mistIntensity: real
    /** The three float[3] members, as arrays whose contents the setters overwrite. */
    const mistColor: array<real>
    const backgroundColor: array<real>
    const ambientColor: array<real>

    /** Each colour has three components and the three colours are separate buffers. */
    predicate Valid() {
      mistColor.Length == 3 && backgroundColor.Length == 3 && ambientColor.Length == 3
      && mistColor != backgroundColor && mistColor != ambientColor && backgroundColor != ambientColor
    }

    /**
     * Builds the settings from `world`: without a world only hasWorld is set
     * (false) and the other fields are left unspecified; with one, the mist bit
     * of its mode gives hasMist, the mist scalars are copied, and the mist and
     * background colours both come from the horizon colour and the ambient
     * colour from the ambient colour, each colour-managed when the scene asks
     * for it.
     */
    constructor(colorManaged: bool, toSrgb: Color -> Color, world: Option<World>)
      ensures Valid() && fresh(mistColor) && fresh(backgroundColor) && fresh(ambientColor)
      ensures HasWorld() == world.Some?
      ensures world.Some? ==>
                var w := world.value;
                (HasMist() <==> w.mode & WO_MIST != 0)
                && MistType() == w.mistype && MistStart() == w.miststa
                && MistDistance() == w.mistdist && MistIntensity() == w.misi
                && MistColor() == Managed(colorManaged, toSrgb, w.hor)
                && BackColor() == Managed(colorManaged, toSrgb, w.hor)
                && AmbientColor() == Managed(colorManaged, toSrgb, w.amb)
    {
      mistColor := new real[3];
      backgroundColor := new real[3];
      ambientColor := new real[3];
      if world.Some? {
        var w := world.value;
        hasWorld := true;
        hasMist := w.mode & WO_MIST != 0;
        mistType := w.mistype;
        mistStart := w.miststa;
        mistDistance := w.mistdist;
        mistIntensity := w.misi;
      } else {
        hasWorld := false;
      }
      new;
      if world.Some? {
        var w := world.value;
        Store(mistColor, Managed(colorManaged, toSrgb, w.hor));
        Store(backgroundColor, Managed(colorManaged, toSrgb, w.hor));
        Store(ambientColor, Managed(colorManaged, toSrgb, w.amb));
      }
    }

    function HasWorld(): bool
      reads this
    {
      hasWorld
    }

    function HasMist(): bool
      reads this
    {
      hasMist
    }

    function BackColorRed(): real
      requires Valid()
      reads backgroundColor
    {
      backgroundColor[0]
    }

    function BackColorGreen(): real
      requires Valid()
      reads backgroundColor
    {
      backgroundColor[1]
    }

    function BackColorBlue(): real
      requires Valid()
      reads backgroundColor
    {
      backgroundColor[2]
    }

    function AmbientColorRed(): real
      requires Valid()
      reads ambientColor
    {
      ambientColor[0]
    }

    function AmbientColorGreen(): real
      requires Valid()
      reads ambientColor
    {
      ambientColor[1]
    }

    function AmbientColorBlue(): real
      requires Valid()
      reads ambientColor
    {
      ambientColor[2]
    }

    function MistType(): int16
      reads this
    {
      mistType
    }

    function MistStart(): real
      reads this
    {
      mistStart
    }

    function MistDistance(): real
      reads this
    {
      mistDistance
    }

    function MistIntensity(): real
      reads this
    {
      mistIntensity
    }

    function MistColorRed(): real
      requires Valid()
      reads mistColor
    {
      mistColor[0]
    }

    function MistColorGreen(): real
      requires Valid()
      reads mistColor
    {
      mistColor[1]
    }

    function MistColorBlue(): real
      requires Valid()
      reads mistColor
    {
      mistColor[2]
    }

    /** The three background getters together. */
    function BackColor(): Color
      requires Valid()
      reads backgroundColor
    {
      Color(BackColorRed(), BackColorGreen(), BackColorBlue())
    }

    /** The three ambient getters together. */
    function AmbientColor(): Color
      requires Valid()
      reads ambientColor
    {
      Color(AmbientColorRed(), AmbientColorGreen(), AmbientColorBlue())
    }

    /** The three mist-colour getters together. */
    function MistColor(): Color
      requires Valid()
      reads mistColor
    {
      Color(MistColorRed(), MistColorGreen(), MistColorBlue())
    }

    /** The background getters return r, g and b; nothing else changes. */
    method SetBackColor(r: real, g: real, b: real)
      requires Valid()
      modifies backgroundColor
      ensures Valid()
      ensures BackColorRed() == r && BackColorGreen() == g && BackColorBlue() == b
      ensures MistColor() == old(MistColor()) && AmbientColor() == old(AmbientColor())
      ensures unchanged(this)
    {
      backgroundColor[0] := r;
      backgroundColor[1] := g;
      backgroundColor[2] := b;
    }

    /** The mist type becomes `t`; nothing else changes. */
    method SetMistType(t: int16)
      requires Valid()
      modifies this`mistType
      ensures MistType() == t
      ensures hasWorld == old(hasWorld) && hasMist == old(hasMist) && mistStart == old(mistStart)
              && mistDistance == old(mistDistance) && mistIntensity == old(mistIntensity)
      ensures unchanged(mistColor, backgroundColor, ambientColor)
    {
      mistType := t;
    }

    /** HasMist() becomes `enable`; nothing else changes. */
    method SetUseMist(enable: bool)
      requires Valid()
      modifies this`hasMist
      ensures HasMist() == enable
      ensures hasWorld == old(hasWorld) && mistType == old(mistType) && mistStart == old(mistStart)
              && mistDistance == old(mistDistance) && mistIntensity == old(mistIntensity)
      ensures unchanged(mistColor, backgroundColor, ambientColor)
    {
      hasMist := enable;
    }

    /** The mist start becomes `d`; nothing else changes. */
    method SetMistStart(d: real)
      requires Valid()
      modifies this`mistStart
      ensures MistStart() == d
      ensures hasWorld == old(hasWorld) && hasMist == old(hasMist) && mistType == old(mistType)
              && mistDistance == old(mistDistance) && mistIntensity == old(mistIntensity)
      ensures unchanged(mistColor, backgroundColor, ambientColor)
    {
      mistStart := d;
    }

    /** The mist distance becomes `d`; nothing else changes. */
    method SetMistDistance(d: real)
      requires Valid()
      modifies this`mistDistance
      ensures MistDistance() == d
      ensures hasWorld == old(hasWorld) && hasMist == old(hasMist) && mistType == old(mistType)
              && mistStart == old(mistStart) && mistIntensity == old(mistIntensity)
      ensures unchanged(mistColor, backgroundColor, ambientColor)
    {
      mistDistance := d;
    }

    /** The mist intensity becomes `intensity`; nothing else changes. */
    method SetMistIntensity(intensity: real)
      requires Valid()
      modifies this`mistIntensity
      ensures MistIntensity() == intensity
      ensures hasWorld == old(hasWorld) && hasMist == old(hasMist) && mistType == old(mistType)
              && mistStart == old(mistStart) && mistDistance == old(mistDistance)
      ensures unchanged(mistColor, backgroundColor, ambientColor)
    {
      mistIntensity := intensity;
    }

    /** The mist-colour getters return r, g and b; the background, ambient and scalars do not change. */
    method SetMistColor(r: real, g: real, b: real)
      requires Valid()
      modifies mistColor
      ensures Valid()
      ensures MistColorRed() == r && MistColorGreen() == g && MistColorBlue() == b
      ensures BackColor() == old(BackColor()) && AmbientColor() == old(AmbientColor())
      ensures unchanged(this)
    {
      mistColor[0] := r;
      mistColor[1] := g;
      mistColor[2] := b;
    }

    /** The ambient getters return r, g and b; the background, mist colour and scalars do not change. */
    method SetAmbientColor(r: real, g: real, b: real)
      requires Valid()
      modifies ambientColor
      ensures Valid()
      ensures AmbientColorRed() == r && AmbientColorGreen() == g && AmbientColorBlue() == b
      ensures BackColor() == old(BackColor()) && MistColor() == old(MistColor())
      ensures unchanged(this)
    {
      ambientColor[0] := r;
      ambientColor[1] := g;
      ambientColor[2] := b;
    }
  }

  /** A world that may be absent; declared here so that this module imports nothing from the animation model. */
  datatype Option<T> = None | Some(value: T)
}
