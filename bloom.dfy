/** The bloom post-processing options as the host sees them: seventeen
    properties of Filament's `BloomOptions`, each with a getter and a setter,
    and a local string codec for the blend mode. */
module Bloom {
  import opened Results

  /** `BloomOptions::BlendMode`. */
  datatype BlendMode = ADD | INTERPOLATE

  /** Filament's quality level. Its enumerators and their host names belong to
      the engine and to `EnumMapper`, neither of which is part of this model, so
      a level is known only by its ordinal. */
  datatype QualityLevel = QualityLevel(ordinal: nat)

  /** The seventeen fields of `BloomOptions` that the wrapper exposes.
      Float fields are reals and integer fields are unbounded. */
  datatype BloomOptions = BloomOptions(
    enabled: bool,
    levels: int,
    resolution: int,
    strength: real,
    blendMode: BlendMode,
    threshold: bool,
    highlight: real,
    quality: QualityLevel,
    lensFlare: bool,
    starburst: bool,
    chromaticAberration: real,
    ghostCount: int,
    ghostSpacing: real,
    ghostThreshold: real,
    haloThickness: real,
    haloRadius: real,
    haloThreshold: real)

  // ---------------------------------------------------------------------------
  // Blend mode codec
  // ---------------------------------------------------------------------------

  const InvalidUnionPrefix: string := "Cannot convert JS Value to Enum: Invalid Union value passed! (\""
  const InvalidUnionSuffix: string := "\")"

  /** The error thrown for a string that names no enumerator: a runtime error
      whose message is a fixed text with the offending string embedded. */
  function InvalidUnion(passedUnion: string): (e: Error)
    ensures e.RuntimeError?
    ensures |e.message| == |InvalidUnionPrefix| + |passedUnion| + |InvalidUnionSuffix|
    ensures e.message[..|InvalidUnionPrefix|] == InvalidUnionPrefix
    ensures e.message[|InvalidUnionPrefix|..|InvalidUnionPrefix| + |passedUnion|] == passedUnion
    ensures e.message[|InvalidUnionPrefix| + |passedUnion|..] == InvalidUnionSuffix
  {
    RuntimeError(InvalidUnionPrefix + passedUnion + InvalidUnionSuffix)
  }

  /** Different strings give different errors: the string can be read back
      from the message. */
  lemma InvalidUnionInjective(a: string, b: string)
    ensures InvalidUnion(a) == InvalidUnion(b) ==> a == b
  {
  }

  /** The two strings the codec accepts. */
  predicate IsBlendModeName(s: string) {
    s == "ADD" || s == "INTERPOLATE"
  }

  /** `blendModeFromString`: "ADD" and "INTERPOLATE" are accepted, every other
      string is refused with the invalid-union error for that string. */
  function BlendModeFromString(inUnion: string): (r: Result<BlendMode>)
    ensures inUnion == "ADD" <==> r == Success(ADD)
    ensures inUnion == "INTERPOLATE" <==> r == Success(INTERPOLATE)
    ensures r.Failure? <==> !IsBlendModeName(inUnion)
    ensures r.Failure? ==> r.error == InvalidUnion(inUnion)
  {
    if inUnion == "ADD" then
      Success(ADD)
    else if inUnion == "INTERPOLATE" then
      Success(INTERPOLATE)
    else
      Failure(InvalidUnion(inUnion))
  }

  /** `blendModeToString`: every mode has an accepted name that decodes back
      to it. */
  function BlendModeToString(inEnum: BlendMode): (s: string)
    ensures IsBlendModeName(s)
    ensures BlendModeFromString(s) == Success(inEnum)
  {
    match inEnum
    case ADD => "ADD"
    case INTERPOLATE => "INTERPOLATE"
  }

  /** Decoding an accepted string and encoding the mode gives the string back. */
  lemma BlendModeNameRoundTrip(s: string)
    requires IsBlendModeName(s)
    ensures BlendModeFromString(s).Success?
    ensures BlendModeToString(BlendModeFromString(s).value) == s
  {
  }

  /** One name per mode. */
  lemma BlendModeToStringInjective(a: BlendMode, b: BlendMode)
    ensures BlendModeToString(a) == BlendModeToString(b) <==> a == b
  {
  }

  // ---------------------------------------------------------------------------
  // The property table
  // ---------------------------------------------------------------------------

  /** The properties the wrapper registers. Dirt properties are not among them. */
  datatype Property =
    | Enabled | Levels | Resolution | Strength | Blend | Threshold | Highlight
    | Quality | LensFlare | Starburst | ChromaticAberration | GhostCount
    | GhostSpacing | GhostThreshold | HaloThickness | HaloRadius | HaloThreshold

  /** The host-visible name of a property. */
  function Name(p: Property): string {
    match p
    case Enabled => "enabled"
    case Levels => "levels"
    case Resolution => "resolution"
    case Strength => "strength"
    case Blend => "blendMode"
    case Threshold => "threshold"
    case Highlight => "highlight"
    case Quality => "quality"
    case LensFlare => "lensFlare"
    case Starburst => "starburst"
    case ChromaticAberration => "chromaticAberration"
    case GhostCount => "ghostCount"
    case GhostSpacing => "ghostSpacing"
    case GhostThreshold => "ghostThreshold"
    case HaloThickness => "haloThickness"
    case HaloRadius => "haloRadius"
    case HaloThreshold => "haloThreshold"
  }

  /** No two properties share a host name. */
  lemma NameInjective(p: Property, q: Property)
    ensures Name(p) == Name(q) <==> p == q
  {
  }

  /** One entry of the table `loadHybridMethods` builds: the host name and the
      property whose getter or setter it is bound to. */
  datatype Accessor =
    | Getter(name: string, property: Property)
    | Setter(name: string, property: Property)

  /** The properties in registration order. */
  const Properties: seq<Property> :=
    [ Enabled, Levels, Resolution, Strength, Blend, Threshold, Highlight,
      Quality, LensFlare, Starburst, ChromaticAberration, GhostCount,
      GhostSpacing, GhostThreshold, HaloThickness, HaloRadius, HaloThreshold ]

  /** The position of a property in `Properties`. */
  function Ordinal(p: Property): (k: nat)
    ensures k < |Properties| && Properties[k] == p
  {
    match p
    case Enabled => 0
    case Levels => 1
    case Resolution => 2
    case Strength => 3
    case Blend => 4
    case Threshold => 5
    case Highlight => 6
    case Quality => 7
    case LensFlare => 8
    case Starburst => 9
    case ChromaticAberration => 10
    case GhostCount => 11
    case GhostSpacing => 12
    case GhostThreshold => 13
    case HaloThickness => 14
    case HaloRadius => 15
    case HaloThreshold => 16
  }

  /** `Properties` lists every property exactly once. */
  lemma PropertiesEnumerateOnce()
    ensures |Properties| == 17
    ensures forall p: Property :: p in Properties
    ensures forall i, j :: 0 <= i < j < |Properties| ==> Properties[i] != Properties[j]
  {
    forall p: Property ensures p in Properties {
      var k := Ordinal(p);
    }
    forall i | 0 <= i < |Properties| ensures Ordinal(Properties[i]) == i {
    }
  }

  /** A getter and then a setter for each property of `ps`, in order. */
  function Registrations(ps: seq<Property>): seq<Accessor> {
    if ps == [] then []
    else [Getter(Name(ps[0]), ps[0]), Setter(Name(ps[0]), ps[0])] + Registrations(ps[1..])
  }

  /** The entries `loadHybridMethods` registers, in registration order. */
  function HybridMethods(): seq<Accessor> {
    Registrations(Properties)
  }

  /** Entry `2 * i` of the table is the getter and entry `2 * i + 1` the setter
      of the property at position `i`, under that property's name. */
  lemma {:induction false} RegistrationsAt(ps: seq<Property>)
    ensures |Registrations(ps)| == 2 * |ps|
    ensures forall i :: 0 <= i < |ps| ==>
      Registrations(ps)[2 * i] == Getter(Name(ps[i]), ps[i]) &&
      Registrations(ps)[2 * i + 1] == Setter(Name(ps[i]), ps[i])
  {
    if ps != [] {
      RegistrationsAt(ps[1..]);
      var head := [Getter(Name(ps[0]), ps[0]), Setter(Name(ps[0]), ps[0])];
      forall i | 1 <= i < |ps|
        ensures Registrations(ps)[2 * i] == Getter(Name(ps[i]), ps[i])
        ensures Registrations(ps)[2 * i + 1] == Setter(Name(ps[i]), ps[i])
      {
        assert Registrations(ps)[2 * i] == Registrations(ps[1..])[2 * (i - 1)];
        assert Registrations(ps)[2 * i + 1] == Registrations(ps[1..])[2 * (i - 1) + 1];
      }
    }
  }

  /** For a list without repetitions, every entry carries its property's
      name, each listed property has one getter and one setter, and no entry
      is registered twice. */
  lemma RegistrationsExpose(ps: seq<Property>)
    requires forall i, j :: 0 <= i < j < |ps| ==> ps[i] != ps[j]
    ensures forall a :: a in Registrations(ps) ==> a.name == Name(a.property) && a.property in ps
    ensures forall p :: p in ps ==> Getter(Name(p), p) in Registrations(ps) && Setter(Name(p), p) in Registrations(ps)
    ensures forall i, j :: 0 <= i < j < |Registrations(ps)| ==> Registrations(ps)[i] != Registrations(ps)[j]
  {
  }

  /** The exposed properties are exactly the seventeen: each has one getter
      and one setter under its own name, no entry is registered twice, and a
      host name is bound to one property only. */
  lemma HybridMethodsExposeEveryProperty()
    ensures |HybridMethods()| == 34
    ensures forall a :: a in HybridMethods() ==> a.name == Name(a.property)
    ensures forall p: Property :: Getter(Name(p), p) in HybridMethods() && Setter(Name(p), p) in HybridMethods()
    ensures forall i, j :: 0 <= i < j < |HybridMethods()| ==> HybridMethods()[i] != HybridMethods()[j]
    ensures forall a, b :: a in HybridMethods() && b in HybridMethods() && a.name == b.name ==>
      a.property == b.property
  {
    PropertiesEnumerateOnce();
    RegistrationsAt(Properties);
    RegistrationsExpose(Properties);
    forall a, b | a in HybridMethods() && b in HybridMethods() && a.name == b.name
      ensures a.property == b.property
    {
      NameInjective(a.property, b.property);
    }
  }

  // ---------------------------------------------------------------------------
  // Getters and setters on option values
  // ---------------------------------------------------------------------------

  /** A value as it crosses the host boundary: the C++ parameter and return
      types of the getters and setters. The quality setter and getter take and
      return a string converted by `EnumMapper`; the model passes the level. */
  datatype HostValue =
    | Bool(b: bool)
    | Int(i: int)
    | Float(f: real)
    | Text(s: string)
    | Level(level: QualityLevel)

  /** The host value has the type the property's setter takes. */
  predicate Fits(p: Property, v: HostValue) {
    match p
    case Enabled | Threshold | LensFlare | Starburst => v.Bool?
    case Levels | Resolution | GhostCount => v.Int?
    case Blend => v.Text?
    case Quality => v.Level?
    case Strength | Highlight | ChromaticAberration | GhostSpacing
      | GhostThreshold | HaloThickness | HaloRadius | HaloThreshold => v.Float?
  }

  /** What the getter of `p` returns. */
  function Read(o: BloomOptions, p: Property): (v: HostValue)
    ensures Fits(p, v)
    ensures p == Blend ==> BlendModeFromString(v.s) == Success(o.blendMode)
  {
    match p
    case Enabled => Bool(o.enabled)
    case Levels => Int(o.levels)
    case Resolution => Int(o.resolution)
    case Strength => Float(o.strength)
    case Blend => Text(BlendModeToString(o.blendMode))
    case Threshold => Bool(o.threshold)
    case Highlight => Float(o.highlight)
    case Quality => Level(o.quality)
    case LensFlare => Bool(o.lensFlare)
    case Starburst => Bool(o.starburst)
    case ChromaticAberration => Float(o.chromaticAberration)
    case GhostCount => Int(o.ghostCount)
    case GhostSpacing => Float(o.ghostSpacing)
    case GhostThreshold => Float(o.ghostThreshold)
    case HaloThickness => Float(o.haloThickness)
    case HaloRadius => Float(o.haloRadius)
    case HaloThreshold => Float(o.haloThreshold)
  }

  /** What the setter of `p` leaves behind: the options with that one field
      replaced, or the exception the blend mode conversion throws. */
  function Assign(o: BloomOptions, p: Property, v: HostValue): Result<BloomOptions>
    requires Fits(p, v)
  {
    match p
    case Enabled => Success(o.(enabled := v.b))
    case Levels => Success(o.(levels := v.i))
    case Resolution => Success(o.(resolution := v.i))
    case Strength => Success(o.(strength := v.f))
    case Blend =>
      (match BlendModeFromString(v.s)
       case Success(m) => Success(o.(blendMode := m))
       case Failure(e) => Failure(e))
    case Threshold => Success(o.(threshold := v.b))
    case Highlight => Success(o.(highlight := v.f))
    case Quality => Success(o.(quality := v.level))
    case LensFlare => Success(o.(lensFlare := v.b))
    case Starburst => Success(o.(starburst := v.b))
    case ChromaticAberration => Success(o.(chromaticAberration := v.f))
    case GhostCount => Success(o.(ghostCount := v.i))
    case GhostSpacing => Success(o.(ghostSpacing := v.f))
    case GhostThreshold => Success(o.(ghostThreshold := v.f))
    case HaloThickness => Success(o.(haloThickness := v.f))
    case HaloRadius => Success(o.(haloRadius := v.f))
    case HaloThreshold => Success(o.(haloThreshold := v.f))
  }

  /** A setter fails exactly when it is the blend mode setter given a string
      the codec refuses, and then throws the invalid-union error for it. */
  lemma AssignFailsOnlyOnInvalidBlendMode(o: BloomOptions, p: Property, v: HostValue)
    requires Fits(p, v)
    ensures Assign(o, p, v).Failure? <==> p == Blend && !IsBlendModeName(v.s)
    ensures Assign(o, p, v).Failure? ==> Assign(o, p, v).error == InvalidUnion(v.s)
  {
  }

  /** Set then get: after a successful set, the getter returns the value set
      and every other getter returns what it returned before. */
  lemma SetThenGet(o: BloomOptions, p: Property, v: HostValue)
    requires Fits(p, v)
    requires Assign(o, p, v).Success?
    ensures Read(Assign(o, p, v).value, p) == v
    ensures forall q :: q != p ==> Read(Assign(o, p, v).value, q) == Read(o, q)
  {
  }

  /** Setting a property to what its getter returns changes nothing. */
  lemma SetWhatWasGot(o: BloomOptions, p: Property)
    ensures Assign(o, p, Read(o, p)) == Success(o)
  {
  }

  /** The getters observe the whole value: two option values on which every
      getter agrees are equal. */
  lemma {:induction false} GettersDetermineOptions(o1: BloomOptions, o2: BloomOptions)
    requires forall p :: Read(o1, p) == Read(o2, p)
    ensures o1 == o2
  {
    assert Read(o1, Enabled) == Read(o2, Enabled);
    assert Read(o1, Levels) == Read(o2, Levels);
    assert Read(o1, Resolution) == Read(o2, Resolution);
    assert Read(o1, Strength) == Read(o2, Strength);
    assert Read(o1, Blend) == Read(o2, Blend);
    BlendModeToStringInjective(o1.blendMode, o2.blendMode);
    assert Read(o1, Threshold) == Read(o2, Threshold);
    assert Read(o1, Highlight) == Read(o2, Highlight);
    assert Read(o1, Quality) == Read(o2, Quality);
    assert Read(o1, LensFlare) == Read(o2, LensFlare);
    assert Read(o1, Starburst) == Read(o2, Starburst);
    assert Read(o1, ChromaticAberration) == Read(o2, ChromaticAberration);
    assert Read(o1, GhostCount) == Read(o2, GhostCount);
    assert Read(o1, GhostSpacing) == Read(o2, GhostSpacing);
    assert Read(o1, GhostThreshold) == Read(o2, GhostThreshold);
    assert Read(o1, HaloThickness) == Read(o2, HaloThickness);
    assert Read(o1, HaloRadius) == Read(o2, HaloRadius);
    assert Read(o1, HaloThreshold) == Read(o2, HaloThreshold);
  }

  // ---------------------------------------------------------------------------
  // The wrapper object
  // ---------------------------------------------------------------------------

  /** `BloomOptionsWrapper`: a `BloomOptions` whose fields the setters assign
      in place. */
  class BloomOptionsWrapper {
    var enabled: bool
    var levels: int
    var resolution: int
    var strength: real
    var blendMode: BlendMode
    var threshold: bool
    var highlight: real
    var quality: QualityLevel
    var lensFlare: bool
    var starburst: bool
    var chromaticAberration: real
    var ghostCount: int
    var ghostSpacing: real
    var ghostThreshold: real
    var haloThickness: real
    var haloRadius: real
    var haloThreshold: real

    /** The options this wrapper currently holds. */
    function Value(): BloomOptions
      reads this
    {
      BloomOptions(enabled, levels, resolution, strength, blendMode, threshold,
                   highlight, quality, lensFlare, starburst, chromaticAberration,
                   ghostCount, ghostSpacing, ghostThreshold, haloThickness,
                   haloRadius, haloThreshold)
    }

    /** Wraps a copy of `options`. The default constructor is this one applied
        to Filament's default `BloomOptions`. */
    constructor (options: BloomOptions)
      ensures Value() == options
    {
      enabled := options.enabled;
      levels := options.levels;
      resolution := options.resolution;
      strength := options.strength;
      blendMode := options.blendMode;
      threshold := options.threshold;
      highlight := options.highlight;
      quality := options.quality;
      lensFlare := options.lensFlare;
      starburst := options.starburst;
      chromaticAberration := options.chromaticAberration;
      ghostCount := options.ghostCount;
      ghostSpacing := options.ghostSpacing;
      ghostThreshold := options.ghostThreshold;
      haloThickness := options.haloThickness;
      haloRadius := options.haloRadius;
      haloThreshold := options.haloThreshold;
    }

    method GetEnabled() returns (value: bool)
      ensures Read(Value(), Enabled) == Bool(value)
    {
      value := enabled;
    }

    method SetEnabled(value: bool)
      modifies this
      ensures Assign(old(Value()), Enabled, Bool(value)) == Success(Value())
    {
      enabled := value;
    }

    method GetLevels() returns (value: int)
      ensures Read(Value(), Levels) == Int(value)
    {
      value := levels;
    }

    method SetLevels(value: int)
      modifies this
      ensures Assign(old(Value()), Levels, Int(value)) == Success(Value())
    {
      levels := value;
    }

    method GetResolution() returns (value: int)
      ensures Read(Value(), Resolution) == Int(value)
    {
      value := resolution;
    }

    method SetResolution(value: int)
      modifies this
      ensures Assign(old(Value()), Resolution, Int(value)) == Success(Value())
    {
      resolution := value;
    }

    method GetStrength() returns (value: real)
      ensures Read(Value(), Strength) == Float(value)
    {
      value := strength;
    }

    method SetStrength(value: real)
      modifies this
      ensures Assign(old(Value()), Strength, Float(value)) == Success(Value())
    {
      strength := value;
    }

    /** The blend mode's name; it decodes back to the mode held. */
    method GetBlendMode() returns (value: string)
      ensures Read(Value(), Blend) == Text(value)
      ensures BlendModeFromString(value) == Success(blendMode)
    {
      value := BlendModeToString(blendMode);
    }

    /** Converts before it assigns, so an unknown string throws and leaves
        every field as it was. */
    method SetBlendMode(value: string) returns (r: Outcome)
      modifies this
      ensures r.Pass? <==> IsBlendModeName(value)
      ensures r.Pass? ==> Assign(old(Value()), Blend, Text(value)) == Success(Value())
      ensures r.Fail? ==> r.error == InvalidUnion(value) && unchanged(this)
    {
      var converted := BlendModeFromString(value);
      if converted.Failure? {
        return Fail(converted.error);
      }
      blendMode := converted.value;
      r := Pass;
    }

    method GetThreshold() returns (value: bool)
      ensures Read(Value(), Threshold) == Bool(value)
    {
      value := threshold;
    }

    method SetThreshold(value: bool)
      modifies this
      ensures Assign(old(Value()), Threshold, Bool(value)) == Success(Value())
    {
      threshold := value;
    }

    method GetHighlight() returns (value: real)
      ensures Read(Value(), Highlight) == Float(value)
    {
      value := highlight;
    }

    method SetHighlight(value: real)
      modifies this
      ensures Assign(old(Value()), Highlight, Float(value)) == Success(Value())
    {
      highlight := value;
    }

    method GetQuality() returns (value: QualityLevel)
      ensures Read(Value(), Quality) == Level(value)
    {
      value := quality;
    }

    method SetQuality(value: QualityLevel)
      modifies this
      ensures Assign(old(Value()), Quality, Level(value)) == Success(Value())
    {
      quality := value;
    }

    method GetLensFlare() returns (value: bool)
      ensures Read(Value(), LensFlare) == Bool(value)
    {
      value := lensFlare;
    }

    method SetLensFlare(value: bool)
      modifies this
      ensures Assign(old(Value()), LensFlare, Bool(value)) == Success(Value())
    {
      lensFlare := value;
    }

    method GetStarburst() returns (value: bool)
      ensures Read(Value(), Starburst) == Bool(value)
    {
      value := starburst;
    }

    method SetStarburst(value: bool)
      modifies this
      ensures Assign(old(Value()), Starburst, Bool(value)) == Success(Value())
    {
      starburst := value;
    }

    method GetChromaticAberration() returns (value: real)
      ensures Read(Value(), ChromaticAberration) == Float(value)
    {
      value := chromaticAberration;
    }

    method SetChromaticAberration(value: real)
      modifies this
      ensures Assign(old(Value()), ChromaticAberration, Float(value)) == Success(Value())
    {
      chromaticAberration := value;
    }

    method GetGhostCount() returns (value: int)
      ensures Read(Value(), GhostCount) == Int(value)
    {
      value := ghostCount;
    }

    method SetGhostCount(value: int)
      modifies this
      ensures Assign(old(Value()), GhostCount, Int(value)) == Success(Value())
    {
      ghostCount := value;
    }

    method GetGhostSpacing() returns (value: real)
      ensures Read(Value(), GhostSpacing) == Float(value)
    {
      value := ghostSpacing;
    }

    method SetGhostSpacing(value: real)
      modifies this
      ensures Assign(old(Value()), GhostSpacing, Float(value)) == Success(Value())
    {
      ghostSpacing := value;
    }

    method GetGhostThreshold() returns (value: real)
      ensures Read(Value(), GhostThreshold) == Float(value)
    {
      value := ghostThreshold;
    }

    method SetGhostThreshold(value: real)
      modifies this
      ensures Assign(old(Value()), GhostThreshold, Float(value)) == Success(Value())
    {
      ghostThreshold := value;
    }

    method GetHaloThickness() returns (value: real)
      ensures Read(Value(), HaloThickness) == Float(value)
    {
      value := haloThickness;
    }

    method SetHaloThickness(value: real)
      modifies this
      ensures Assign(old(Value()), HaloThickness, Float(value)) == Success(Value())
    {
      haloThickness := value;
    }

    method GetHaloRadius() returns (value: real)
      ensures Read(Value(), HaloRadius) == Float(value)
    {
      value := haloRadius;
    }

    method SetHaloRadius(value: real)
      modifies this
      ensures Assign(old(Value()), HaloRadius, Float(value)) == Success(Value())
    {
      haloRadius := value;
    }

    method GetHaloThreshold() returns (value: real)
      ensures Read(Value(), HaloThreshold) == Float(value)
    {
      value := haloThreshold;
    }

    method SetHaloThreshold(value: real)
      modifies this
      ensures Assign(old(Value()), HaloThreshold, Float(value)) == Success(Value())
    {
      haloThreshold := value;
    }
  }
}
