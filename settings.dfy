/** Box2D's global tuning constants (meters-kilograms-seconds units).
  Some fields are primary tunables that callers may write; seven are derived
  from them and are refreshed only by an explicit call to Changed().
  Floating-point values are modelled as reals: nothing here depends on rounding.
 */
module Box2DSettings {

  /** Version numbering scheme: significant changes, incremental changes, bug fixes. */
  datatype Version = Version(major: int, minor: int, revision: int)

  /** The version every settings object reports. */
  const CurrentVersion: Version := Version(2, 3, 0)

  /** The platform's floating-point limits and pi, which the engine reads from its
      float type. They are foreign values, so they are given to the constructor. */
  datatype PlatformFloat = PlatformFloat(
    leastNormalMagnitude: real,
    greatestFiniteMagnitude: real,
    ulpOfOne: real,
    pi: real)

  /** A value snapshot of every stored field of a settings object. */
  datatype SettingsState = SettingsState(
    // Numeric limits
    minFloat: real,
    maxFloat: real,
    epsilon: real,
    pi: real,
    // Collision
    maxManifoldPoints: int,
    maxPolygonVertices: int,
    aabbExtension: real,
    aabbMultiplier: real,
    linearSlop: real,
    angularSlop: real,             // derived
    polygonRadius: real,           // derived
    maxSubSteps: int,
    // Dynamics
    maxTOIContacts: int,
    velocityThreshold: real,
    maxLinearCorrection: real,
    maxAngularCorrection: real,    // derived
    maxTranslation: real,
    maxTranslationSquared: real,   // derived
    maxRotation: real,             // derived
    maxRotationSquared: real,      // derived
    baumgarte: real,
    toiBaugarte: real,
    // Sleep
    timeToSleep: real,
    linearSleepTolerance: real,
    angularSleepTolerance: real,   // derived
    version: Version)

  /** Every derived field equals its formula over the primary fields of the same state. */
  predicate Consistent(s: SettingsState) {
    && s.angularSlop == 2.0 / 180.0 * s.pi
    && s.polygonRadius == 2.0 * s.linearSlop
    && s.maxAngularCorrection == 8.0 / 180.0 * s.pi
    && s.maxTranslationSquared == s.maxTranslation * s.maxTranslation
    && s.maxRotation == 0.5 * s.pi
    && s.maxRotationSquared == s.maxRotation * s.maxRotation
    && s.angularSleepTolerance == 2.0 / 180.0 * s.pi
  }

  /** a and b agree on every field that is not derived. */
  predicate SamePrimaries(a: SettingsState, b: SettingsState) {
    && a.minFloat == b.minFloat
    && a.maxFloat == b.maxFloat
    && a.epsilon == b.epsilon
    && a.pi == b.pi
    && a.maxManifoldPoints == b.maxManifoldPoints
    && a.maxPolygonVertices == b.maxPolygonVertices
    && a.aabbExtension == b.aabbExtension
    && a.aabbMultiplier == b.aabbMultiplier
    && a.linearSlop == b.linearSlop
    && a.maxSubSteps == b.maxSubSteps
    && a.maxTOIContacts == b.maxTOIContacts
    && a.velocityThreshold == b.velocityThreshold
    && a.maxLinearCorrection == b.maxLinearCorrection
    && a.maxTranslation == b.maxTranslation
    && a.baumgarte == b.baumgarte
    && a.toiBaugarte == b.toiBaugarte
    && a.timeToSleep == b.timeToSleep
    && a.linearSleepTolerance == b.linearSleepTolerance
    && a.version == b.version
  }

  /** a and b agree on every derived field. */
  predicate SameDerived(a: SettingsState, b: SettingsState) {
    && a.angularSlop == b.angularSlop
    && a.polygonRadius == b.polygonRadius
    && a.maxAngularCorrection == b.maxAngularCorrection
    && a.maxTranslationSquared == b.maxTranslationSquared
    && a.maxRotation == b.maxRotation
    && a.maxRotationSquared == b.maxRotationSquared
    && a.angularSleepTolerance == b.angularSleepTolerance
  }

  /** a and b agree on the only primaries the derivation formulas read. */
  predicate SameFormulaInputs(a: SettingsState, b: SettingsState) {
    a.pi == b.pi && a.linearSlop == b.linearSlop && a.maxTranslation == b.maxTranslation
  }

  /** The effect of changed() on a snapshot: the seven assignments, in the order the
      engine performs them, each one reading the state left by the previous one. */
  function Recompute(s: SettingsState): (r: SettingsState)
    ensures Consistent(r)
    ensures SamePrimaries(r, s)
    ensures r.maxRotationSquared == (0.5 * s.pi) * (0.5 * s.pi)
  {
    var s1 := s.(angularSlop := 2.0 / 180.0 * s.pi);
    var s2 := s1.(polygonRadius := 2.0 * s1.linearSlop);
    var s3 := s2.(maxAngularCorrection := 8.0 / 180.0 * s2.pi);
    var s4 := s3.(maxTranslationSquared := s3.maxTranslation * s3.maxTranslation);
    var s5 := s4.(maxRotation := 0.5 * s4.pi);
    var s6 := s5.(maxRotationSquared := s5.maxRotation * s5.maxRotation);
    s6.(angularSleepTolerance := 2.0 / 180.0 * s6.pi)
  }

  /** The stored field values before init runs changed(): the declared defaults,
      with every derived field still 0. */
  function Initial(p: PlatformFloat): SettingsState {
    SettingsState(
      minFloat := p.leastNormalMagnitude,
      maxFloat := p.greatestFiniteMagnitude,
      epsilon := p.ulpOfOne,
      pi := p.pi,
      maxManifoldPoints := 2,
      maxPolygonVertices := 8,
      aabbExtension := 0.1,
      aabbMultiplier := 2.0,
      linearSlop := 0.005,
      angularSlop := 0.0,
      polygonRadius := 0.0,
      maxSubSteps := 8,
      maxTOIContacts := 32,
      velocityThreshold := 1.0,
      maxLinearCorrection := 0.2,
      maxAngularCorrection := 0.0,
      maxTranslation := 2.0,
      maxTranslationSquared := 0.0,
      maxRotation := 0.0,
      maxRotationSquared := 0.0,
      baumgarte := 0.2,
      toiBaugarte := 0.75,
      timeToSleep := 0.5,
      linearSleepTolerance := 0.01,
      angularSleepTolerance := 0.0,
      version := CurrentVersion)
  }

  /** The state init produces: the declared defaults with changed() applied once. */
  function Defaults(p: PlatformFloat): (r: SettingsState)
    ensures Consistent(r)
    ensures r.pi == p.pi && r.minFloat == p.leastNormalMagnitude
    ensures r.maxFloat == p.greatestFiniteMagnitude && r.epsilon == p.ulpOfOne
    ensures r.maxManifoldPoints == 2 && r.maxPolygonVertices == 8
    ensures r.maxSubSteps == 8 && r.maxTOIContacts == 32
    ensures r.aabbExtension == 0.1 && r.aabbMultiplier == 2.0
    ensures r.linearSlop == 0.005 && r.polygonRadius == 0.01
    ensures r.velocityThreshold == 1.0 && r.maxLinearCorrection == 0.2
    ensures r.maxTranslation == 2.0 && r.maxTranslationSquared == 4.0
    ensures r.maxRotation == 0.5 * p.pi && r.maxRotationSquared == (0.5 * p.pi) * (0.5 * p.pi)
    ensures r.angularSlop == 2.0 / 180.0 * p.pi && r.angularSleepTolerance == 2.0 / 180.0 * p.pi
    ensures r.maxAngularCorrection == 8.0 / 180.0 * p.pi
    ensures r.baumgarte == 0.2 && r.toiBaugarte == 0.75
    ensures r.timeToSleep == 0.5 && r.linearSleepTolerance == 0.01
    ensures r.version == Version(2, 3, 0)
  {
    Recompute(Initial(p))
  }

  /** A consistent state is a fixed point of recomputation. */
  lemma ConsistentIsFixedPoint(s: SettingsState)
    requires Consistent(s)
    ensures Recompute(s) == s
  {
  }

  /** Consistency and the primaries determine a state: a consistent state is exactly the
      recomputation of any state with the same primaries. This turns the field-by-field
      contract of Settings.Changed into State() == Recompute(old(State())). */
  lemma RecomputeCharacterised(a: SettingsState, b: SettingsState)
    requires Consistent(a) && SamePrimaries(a, b)
    ensures a == Recompute(b)
  {
  }

  /** Running changed() twice leaves the same state as running it once. */
  lemma RecomputeIdempotent(s: SettingsState)
    ensures Recompute(Recompute(s)) == Recompute(s)
  {
    ConsistentIsFixedPoint(Recompute(s));
  }

  /** changed() applied n times in a row. */
  function ChangedTimes(s: SettingsState, n: nat): SettingsState
    decreases n
  {
    if n == 0 then s else ChangedTimes(Recompute(s), n - 1)
  }

  /** Any positive number of consecutive recomputations equals a single one. */
  lemma {:induction false} ChangedTimesIsOnce(s: SettingsState, n: nat)
    requires n >= 1
    ensures ChangedTimes(s, n) == Recompute(s)
    decreases n
  {
    if n > 1 {
      ChangedTimesIsOnce(Recompute(s), n - 1);
      RecomputeIdempotent(s);
    }
  }

  /** The derived fields depend on pi, the linear slop and the maximum translation only. */
  lemma DerivedDependsOnFormulaInputs(a: SettingsState, b: SettingsState)
    requires SameFormulaInputs(a, b)
    ensures SameDerived(Recompute(a), Recompute(b))
  {
  }

  /** Writing a primary that no formula reads (here the AABB extension and the Baumgarte
      factor) and then recomputing leaves every derived field as it was. */
  lemma UnreadPrimariesIndependent(s: SettingsState, extension: real, baumgarte: real)
    requires Consistent(s)
    ensures SameDerived(Recompute(s.(aabbExtension := extension, baumgarte := baumgarte)), s)
  {
    DerivedDependsOnFormulaInputs(s.(aabbExtension := extension, baumgarte := baumgarte), s);
    ConsistentIsFixedPoint(s);
  }

  /** Recomputation never reads a derived field before writing it: in particular the
      rotation square uses the rotation written earlier in the same call, so whatever
      stale derived values a state holds, the result is the same. */
  lemma RecomputeIgnoresStaleDerived(a: SettingsState, b: SettingsState)
    requires SamePrimaries(a, b)
    ensures Recompute(a) == Recompute(b)
  {
  }

  /** The mutable settings object. Every field is public: callers write primaries
      directly and must call Changed() before reading derived fields again. */
  class Settings {
    var minFloat: real
    var maxFloat: real
    var epsilon: real
    var pi: real

    /** The maximum number of contact points between two convex shapes (not meant to change). */
    var maxManifoldPoints: int
    /** The maximum number of vertices on a convex polygon. */
    var maxPolygonVertices: int
    /** AABB fattening in the dynamic tree, in meters. */
    var aabbExtension: real
    /** AABB displacement-prediction multiplier (dimensionless). */
    var aabbMultiplier: real
    /** Collision and constraint length tolerance. */
    var linearSlop: real
    /** Collision and constraint angle tolerance (derived). */
    var angularSlop: real
    /** Radius of the polygon/edge skin (derived). */
    var polygonRadius: real
    /** Maximum sub-steps per contact in continuous physics. */
    var maxSubSteps: int

    /** Maximum contacts handled to solve a time-of-impact event. */
    var maxTOIContacts: int
    /** Relative velocity below which a collision is inelastic. */
    var velocityThreshold: real
    /** Maximum linear position correction per constraint solve. */
    var maxLinearCorrection: real
    /** Maximum angular position correction per constraint solve (derived). */
    var maxAngularCorrection: real
    /** Maximum translation of a body per step. */
    var maxTranslation: real
    var maxTranslationSquared: real   // derived
    /** Maximum rotation of a body per step (derived). */
    var maxRotation: real
    var maxRotationSquared: real      // derived
    /** How fast overlap is resolved. */
    var baumgarte: real
    var toiBaugarte: real

    /** Time a body must be still before it sleeps. */
    var timeToSleep: real
    /** A body cannot sleep above this linear velocity. */
    var linearSleepTolerance: real
    /** A body cannot sleep above this angular velocity (derived). */
    var angularSleepTolerance: real

    /** Current version; fixed at construction. */
    const version: Version := CurrentVersion

    /** The value of every stored field. */
    ghost function State(): SettingsState
      reads this
    {
      SettingsState(
        minFloat, maxFloat, epsilon, pi,
        maxManifoldPoints, maxPolygonVertices, aabbExtension, aabbMultiplier,
        linearSlop, angularSlop, polygonRadius, maxSubSteps,
        maxTOIContacts, velocityThreshold, maxLinearCorrection, maxAngularCorrection,
        maxTranslation, maxTranslationSquared, maxRotation, maxRotationSquared,
        baumgarte, toiBaugarte,
        timeToSleep, linearSleepTolerance, angularSleepTolerance,
        version)
    }

    /** init: the declared defaults, then one call of Changed(). */
    constructor (platform: PlatformFloat)
      ensures State() == Defaults(platform)
      ensures Consistent(State())
    {
      minFloat := platform.leastNormalMagnitude;
      maxFloat := platform.greatestFiniteMagnitude;
      epsilon := platform.ulpOfOne;
      pi := platform.pi;
      maxManifoldPoints := 2;
      maxPolygonVertices := 8;
      aabbExtension := 0.1;
      aabbMultiplier := 2.0;
      linearSlop := 0.005;
      angularSlop := 0.0;
      polygonRadius := 0.0;
      maxSubSteps := 8;
      maxTOIContacts := 32;
      velocityThreshold := 1.0;
      maxLinearCorrection := 0.2;
      maxAngularCorrection := 0.0;
      maxTranslation := 2.0;
      maxTranslationSquared := 0.0;
      maxRotation := 0.0;
      maxRotationSquared := 0.0;
      baumgarte := 0.2;
      toiBaugarte := 0.75;
      timeToSleep := 0.5;
      linearSleepTolerance := 0.01;
      angularSleepTolerance := 0.0;
      new;
      Changed();
    }

    /** Recomputes the seven derived fields from the current primaries, in order.
        Afterwards every derived field equals its formula over the primaries, that is
        Consistent(State()); the frame lets it write the seven derived fields only, so
        every primary keeps its value and, by RecomputeCharacterised, the new State()
        is Recompute of the old one (ChangedTwice below checks this). */
    method Changed()
      modifies this`angularSlop, this`polygonRadius, this`maxAngularCorrection,
        this`maxTranslationSquared, this`maxRotation, this`maxRotationSquared,
        this`angularSleepTolerance
      ensures angularSlop == 2.0 / 180.0 * pi
      ensures polygonRadius == 2.0 * linearSlop
      ensures maxAngularCorrection == 8.0 / 180.0 * pi
      ensures maxTranslationSquared == maxTranslation * maxTranslation
      ensures maxRotation == 0.5 * pi
      ensures maxRotationSquared == maxRotation * maxRotation
      ensures angularSleepTolerance == 2.0 / 180.0 * pi
    {
      angularSlop := 2.0 / 180.0 * pi;
      polygonRadius := 2.0 * linearSlop;
      maxAngularCorrection := 8.0 / 180.0 * pi;
      maxTranslationSquared := maxTranslation * maxTranslation;
      maxRotation := 0.5 * pi;
      maxRotationSquared := maxRotation * maxRotation;
      angularSleepTolerance := 2.0 / 180.0 * pi;
    }
  }

  /** A client that calls Changed() twice in a row. After each call the object's state
      is Recompute of the state before that call, and the second call changes nothing. */
  method ChangedTwice(settings: Settings)
    modifies settings
    ensures settings.State() == Recompute(old(settings.State()))
  {
    ghost var before := settings.State();
    settings.Changed();
    RecomputeCharacterised(settings.State(), before);
    ghost var once := settings.State();
    assert once == Recompute(before);
    settings.Changed();
    RecomputeCharacterised(settings.State(), once);
    RecomputeIdempotent(before);
  }

  /** A client of the settings object: defaults, then two primary writes, each
      followed by Changed(); the version survives every mutation. */
  method Scenario(platform: PlatformFloat)
    returns (manifoldPoints: int, radius: real, translationSquared: real, v: Version)
    ensures manifoldPoints == 2
    ensures radius == 0.02
    ensures translationSquared == 25.0
    ensures v == Version(2, 3, 0)
  {
    var settings := new Settings(platform);
    manifoldPoints := settings.maxManifoldPoints;
    settings.linearSlop := 0.01;
    settings.Changed();
    radius := settings.polygonRadius;
    settings.maxTranslation := 5.0;
    settings.Changed();
    translationSquared := settings.maxTranslationSquared;
    v := settings.version;
  }
}
