/** The body catalog: the `Moon` and `SolarObject` records and the table that
    `main` loads into `solarSystem` before the first frame. The catalog is
    never changed afterwards. */
module Catalog {
  import opened Geometry

  datatype Moon = Moon(
    name: string,
    radius: real,
    orbitRadius: real,
    orbitSpeed: real,
    color: Vec3,
    info: string)

  datatype SolarObject = SolarObject(
    name: string,
    radius: real,
    orbitRadius: real,
    orbitSpeed: real,
    selfRotationSpeed: real,
    color: Vec3,
    drawOrbit: bool,
    info: string,
    hasRings: bool,
    ringInnerRadius: real,
    ringOuterRadius: real,
    ringColor: Vec3,
    moons: seq<Moon>)

  /** The only body whose orbit is not a circle about the Sun. */
  const PLUTO: string := "Pluto"

  /** An aggregate initialiser that leaves the ring fields at their defaults. */
  function Body(name: string, radius: real, orbitRadius: real, orbitSpeed: real,
                selfRotationSpeed: real, color: Vec3, drawOrbit: bool, info: string,
                moons: seq<Moon>): SolarObject
  {
    SolarObject(name, radius, orbitRadius, orbitSpeed, selfRotationSpeed, color,
                drawOrbit, info, false, 0.0, 0.0, ORIGIN, moons)
  }

  const SUN: SolarObject :=
    Body("Sun", 0.03, 0.0, 0.0, 0.01, Vec3(1.0, 0.8, 0.0), false,
      "The Sun: Mass = 1.989 × 10^30 kg\nSurface Temperature: 5,778 K", [])

  const MERCURY: SolarObject :=
    Body("Mercury", 0.04, 0.4, 0.048, 0.1, Vec3(0.7, 0.7, 0.7), true,
      "Mercury: Smallest planet\nSurface Temperature: -180°C to 430°C\nNo moons", [])

  const VENUS: SolarObject :=
    Body("Venus", 0.035, 0.6, 0.035, 0.01, Vec3(0.9, 0.7, 0.5), true,
      "Venus: Hottest planet\nRotates backwards\nThick atmosphere of CO2", [])

  const EARTH: SolarObject :=
    Body("Earth", 0.04, 0.9, 0.029, 0.01, Vec3(0.2, 0.5, 1.0), true,
      "Earth: Our home planet\nOnly known planet with life\nAge: 4.54 billion years",
      [ Moon("Moon", 0.01, 0.08, 0.1, Vec3(0.8, 0.8, 0.8),
             "Earth's Moon\nDistance: 384,400 km\nAge: 4.51 billion years") ])

  const MARS: SolarObject :=
    Body("Mars", 0.03, 1.4, 0.024, 0.01, Vec3(1.0, 0.4, 0.0), true,
      "Mars: The Red Planet\nHas the largest volcano\nTwo moons",
      [ Moon("Phobos", 0.005, 0.06, 0.2, Vec3(0.6, 0.6, 0.6),
             "Phobos: Largest moon of Mars\nIrregular shape\nOrbits close to surface"),
        Moon("Deimos", 0.003, 0.08, 0.15, Vec3(0.5, 0.5, 0.5),
             "Deimos: Smaller moon of Mars\nSmooth surface\nSlow orbit") ])

  const JUPITER: SolarObject :=
    Body("Jupiter", 0.08, 1.8, 0.013, 0.01, Vec3(0.8, 0.7, 0.6), true,
      "Jupiter: Largest planet\nGreat Red Spot is a giant storm\n79 known moons",
      [ Moon("Io", 0.015, 0.12, 0.15, Vec3(1.0, 1.0, 0.6),
             "Io: Most volcanic body in solar system\nSurface temperature: -130°C to -150°C"),
        Moon("Europa", 0.014, 0.15, 0.12, Vec3(0.9, 0.9, 0.9),
             "Europa: Smooth ice surface\nPossibly contains subsurface ocean"),
        Moon("Ganymede", 0.018, 0.18, 0.10, Vec3(0.8, 0.8, 0.7),
             "Ganymede: Largest moon in solar system\nHas its own magnetic field"),
        Moon("Callisto", 0.016, 0.21, 0.08, Vec3(0.6, 0.6, 0.6),
             "Callisto: Most heavily cratered object\nPossibly has subsurface ocean") ])

  const SATURN: SolarObject :=
    SolarObject("Saturn", 0.07, 2.4, 0.009, 0.01, Vec3(0.9, 0.8, 0.5), true,
      "Saturn: Known for its rings\nLeast dense planet\n82 known moons",
      true, 0.1, 0.15, Vec3(0.8, 0.8, 0.6),
      [ Moon("Titan", 0.016, 0.25, 0.08, Vec3(0.8, 0.7, 0.5),
             "Titan: Dense atmosphere\nLiquid methane lakes\nEarth-like features"),
        Moon("Rhea", 0.01, 0.2, 0.1, Vec3(0.7, 0.7, 0.7),
             "Rhea: Saturn's 2nd largest\nWater ice surface\nThin atmosphere"),
        Moon("Enceladus", 0.008, 0.17, 0.12, Vec3(1.0, 1.0, 1.0),
             "Enceladus: Ice geysers\nSubsurface ocean\nActive geology"),
        Moon("Iapetus", 0.012, 0.23, 0.09, Vec3(0.5, 0.5, 0.5),
             "Iapetus: Two-toned surface\nEquatorial ridge\nWalnut shape") ])

  const URANUS: SolarObject :=
    Body("Uranus", 0.05, 2.8, 0.006, 0.01, Vec3(0.5, 0.8, 0.8), true,
      "Uranus: Ice giant\nRotates on its side\n27 known moons",
      [ Moon("Titania", 0.012, 0.16, 0.11, Vec3(0.7, 0.7, 0.7),
             "Titania: Largest Uranian moon\nScarped valleys\nIcy surface"),
        Moon("Oberon", 0.011, 0.19, 0.09, Vec3(0.6, 0.6, 0.6),
             "Oberon: Outermost major moon\nCraters with dark floors\nOld surface"),
        Moon("Miranda", 0.008, 0.13, 0.13, Vec3(0.8, 0.8, 0.8),
             "Miranda: Dramatic cliffs\nUnique surface features\nYoung terrain") ])

  const NEPTUNE: SolarObject :=
    Body("Neptune", 0.05, 3.7, 0.005, 0.01, Vec3(0.0, 0.0, 0.8), true,
      "Neptune: Windiest planet\nDarkest ring system\n14 known moons",
      [ Moon("Triton", 0.014, 0.22, -0.07, Vec3(0.9, 0.9, 1.0),
             "Triton: Retrograde orbit\nNitrogen geysers\nFrozen surface"),
        Moon("Nereid", 0.006, 0.28, 0.05, Vec3(0.7, 0.7, 0.8),
             "Nereid: Irregular orbit\nCapture theory\nDark surface") ])

  const PLUTO_BODY: SolarObject :=
    Body(PLUTO, 0.02, 5.5, 0.004, 0.01, Vec3(0.8, 0.7, 0.7), true,
      "Pluto: Dwarf planet\nCrosses Neptune's orbit\n5 known moons",
      [ Moon("Charon", 0.01, 0.05, 0.08, Vec3(0.7, 0.7, 0.7),
             "Charon: Largest moon of Pluto\nTidally locked\nIcy surface"),
        Moon("Nix", 0.003, 0.07, 0.1, Vec3(0.6, 0.6, 0.6),
             "Nix: Small irregular moon\nRapid rotation\nHighly reflective") ])

  /** The table `main` assigns to `solarSystem`. */
  function SolarSystem(): seq<SolarObject> {
    [SUN, MERCURY, VENUS, EARTH, MARS, JUPITER, SATURN, URANUS, NEPTUNE, PLUTO_BODY]
  }

  /** A name that a hover label can carry unambiguously: non-empty and without
      the '-' that the label separator " - " contains. */
  predicate PlainName(s: string) {
    s != [] && forall k :: 0 <= k < |s| ==> s[k] != '-'
  }

  predicate MoonNamesWellFormed(moons: seq<Moon>) {
    && (forall j :: 0 <= j < |moons| ==> PlainName(moons[j].name))
    && (forall j, j' :: 0 <= j < j' < |moons| ==> moons[j].name != moons[j'].name)
  }

  /** Names are usable as lookup keys: plain, unique among the bodies, and
      unique among the moons of each body. */
  predicate WellFormed(cat: seq<SolarObject>) {
    && (forall i :: 0 <= i < |cat| ==> PlainName(cat[i].name) && MoonNamesWellFormed(cat[i].moons))
    && (forall i, i' :: 0 <= i < i' < |cat| ==> cat[i].name != cat[i'].name)
  }

  /** Names that are plain and pairwise distinct. */
  predicate UsableKeys(names: seq<string>) {
    && (forall k :: 0 <= k < |names| ==> PlainName(names[k]))
    && (forall k, k' :: 0 <= k < k' < |names| ==> names[k] != names[k'])
  }

  function BodyNames(cat: seq<SolarObject>): (r: seq<string>)
    ensures |r| == |cat| && forall i :: 0 <= i < |cat| ==> r[i] == cat[i].name
  {
    seq(|cat|, i requires 0 <= i < |cat| => cat[i].name)
  }

  function MoonNames(moons: seq<Moon>): (r: seq<string>)
    ensures |r| == |moons| && forall j :: 0 <= j < |moons| ==> r[j] == moons[j].name
  {
    seq(|moons|, j requires 0 <= j < |moons| => moons[j].name)
  }

  /** Well-formedness depends on the names alone. */
  lemma WellFormedByNames(cat: seq<SolarObject>)
    requires UsableKeys(BodyNames(cat))
    requires forall i :: 0 <= i < |cat| ==> UsableKeys(MoonNames(cat[i].moons))
    ensures WellFormed(cat)
  {
    forall i | 0 <= i < |cat| ensures PlainName(cat[i].name) && MoonNamesWellFormed(cat[i].moons) {
      assert BodyNames(cat)[i] == cat[i].name;
      assert UsableKeys(MoonNames(cat[i].moons));
    }
  }

  lemma SolarSystemNames()
    ensures BodyNames(SolarSystem())
      == ["Sun", "Mercury", "Venus", "Earth", "Mars", "Jupiter", "Saturn", "Uranus", "Neptune", "Pluto"]
  {
  }

  lemma SolarSystemMoonNames()
    ensures var cat := SolarSystem();
      && MoonNames(cat[0].moons) == [] && MoonNames(cat[1].moons) == [] && MoonNames(cat[2].moons) == []
      && MoonNames(cat[3].moons) == ["Moon"]
      && MoonNames(cat[4].moons) == ["Phobos", "Deimos"]
      && MoonNames(cat[5].moons) == ["Io", "Europa", "Ganymede", "Callisto"]
      && MoonNames(cat[6].moons) == ["Titan", "Rhea", "Enceladus", "Iapetus"]
      && MoonNames(cat[7].moons) == ["Titania", "Oberon", "Miranda"]
      && MoonNames(cat[8].moons) == ["Triton", "Nereid"]
      && MoonNames(cat[9].moons) == ["Charon", "Nix"]
  {
  }

  lemma BodyNameTableUsable()
    ensures UsableKeys(["Sun", "Mercury", "Venus", "Earth", "Mars", "Jupiter", "Saturn", "Uranus", "Neptune", "Pluto"])
  {
  }

  lemma InnerMoonNameTablesUsable()
    ensures UsableKeys([]) && UsableKeys(["Moon"]) && UsableKeys(["Phobos", "Deimos"])
    ensures UsableKeys(["Io", "Europa", "Ganymede", "Callisto"])
  {
  }

  lemma OuterMoonNameTablesUsable()
    ensures UsableKeys(["Titan", "Rhea", "Enceladus", "Iapetus"])
    ensures UsableKeys(["Titania", "Oberon", "Miranda"])
    ensures UsableKeys(["Triton", "Nereid"]) && UsableKeys(["Charon", "Nix"])
  {
  }

  /** The loaded catalog's names are usable as lookup keys. */
  lemma SolarSystemWellFormed()
    ensures WellFormed(SolarSystem())
  {
    var cat := SolarSystem();
    SolarSystemNames();
    SolarSystemMoonNames();
    BodyNameTableUsable();
    InnerMoonNameTablesUsable();
    OuterMoonNameTablesUsable();
    forall i | 0 <= i < |cat| ensures UsableKeys(MoonNames(cat[i].moons)) {
    }
    WellFormedByNames(cat);
  }
}
