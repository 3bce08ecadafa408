/**
 * The orbit integrator of KeplerSimulation.cs over real numbers: the orbital
 * parameters derived from the inspector settings, the starting position, and
 * the fixed-timestep tick that resynchronises after a full period and then
 * advances the polar angle in equal substeps.
 */
module Kepler {
  import opened MathModel

  datatype UnitTime = Year | Month | Day
  datatype UnitLength = AU | SolarRadius
  datatype Focus = Left | Right
  datatype OrbitDirection = Clockwise | Counterclockwise

  datatype Vec2 = Vec2(x: real, y: real)

  datatype Vec3 = Vec3(x: real, y: real, z: real)
  {
    function Plus(o: Vec3): Vec3 { Vec3(x + o.x, y + o.y, z + o.z) }
    function Minus(o: Vec3): Vec3 { Vec3(x - o.x, y - o.y, z - o.z) }
    function Scale(k: real): Vec3 { Vec3(k * x, k * y, k * z) }
    function SqrMagnitude(): real { x * x + y * y + z * z }
  }

  const Left3 := Vec3(-1.0, 0.0, 0.0)
  const Right3 := Vec3(1.0, 0.0, 0.0)

  /** The orbital period: infinite for an unbound orbit. */
  datatype Period = Finite(length: real) | Infinite

  /** The snapshot taken on every reset. */
  datatype OrbitalParameters = OrbitalParameters(a: real, e: real, p: real, L: real, E: real, T: Period)

  /** The inspector settings that the kernel reads. */
  datatype Settings = Settings(
    numSubsteps: int,
    resetAfterOnePeriod: bool,
    unitTime: UnitTime,
    unitLength: UnitLength,
    timeScale: real,
    starMass: real,
    starPosition: Vec2,
    starAtFocus: Focus,
    perihelionDistance: real,
    startAtPerihelion: bool,
    eccentricity: real,
    orbitDirection: OrbitDirection,
    initPlanet2OffsetAngle: real)

  // Physical constants in SI units
  const NewtonGSI: real := 0.000000000066743
  const AuSI: real := 149597870700.0
  const RSunSI: real := 696340000.0
  const MSunSI: real := 1988470000000000000000000000000.0
  const YearSI: real := 31556952.0
  const MonthSI: real := YearSI / 12.0
  const DaySI: real := 86400.0

  /** Length of the time unit in seconds. */
  function TimeUnitSeconds(u: UnitTime): real
  {
    match u
    case Year => YearSI
    case Month => MonthSI
    case Day => DaySI
  }

  /** Length of the length unit in metres. */
  function LengthUnitMeters(u: UnitLength): real
  {
    match u
    case AU => AuSI
    case SolarRadius => RSunSI
  }

  /** The gravitational constant in the chosen units (the mass unit is always the solar mass). */
  function NewtonG(ut: UnitTime, ul: UnitLength): (g: real)
    ensures g > 0.0
  {
    var t := TimeUnitSeconds(ut);
    var l := LengthUnitMeters(ul);
    NewtonGSI * MSunSI * t * t / l / l / l
  }

  /** Measuring time in months divides G by 12 squared. */
  lemma NewtonGMonthScale(ul: UnitLength)
    ensures NewtonG(Month, ul) * 144.0 == NewtonG(Year, ul)
  {
  }

  /** Measuring lengths in solar radii scales G by (AU / solar radius) cubed. */
  lemma NewtonGSolarRadiusScale(ut: UnitTime)
    ensures NewtonG(ut, SolarRadius) * RSunSI * RSunSI * RSunSI == NewtonG(ut, AU) * AuSI * AuSI * AuSI
  {
  }

  /** The semi-latus rectum q (1 + e): positive for a positive perihelion distance and e > -1. */
  function SemiLatusRectum(q: real, e: real): (p: real)
    ensures q > 0.0 && e > -1.0 ==> p > 0.0
  {
    q * (1.0 + e)
  }

  /** The semi-major axis q / (1 - e): whenever it is finite, a (1 - e) recovers the perihelion distance. */
  function SemiMajorAxis(m: MathLib, q: real, e: real): (a: real)
    ensures e != 1.0 ==> a * (1.0 - e) == q
  {
    m.Div(q, 1.0 - e)
  }

  function AphelionDistance(m: MathLib, q: real, e: real): real
  {
    (1.0 + e) * SemiMajorAxis(m, q, e)
  }

  /** The Period getter: infinite for e >= 1, otherwise 2 pi sqrt(a^3 / G / M). */
  function OrbitalPeriod(m: MathLib, g: real, mass: real, q: real, e: real): (T: Period)
    ensures T.Infinite? <==> e >= 1.0
  {
    if e >= 1.0 then Infinite
    else
      var a := SemiMajorAxis(m, q, e);
      Finite(2.0 * m.pi * m.sqrt(m.Div(m.Div(a * a * a, g), mass)))
  }

  /** The Energy getter (specific): -G M / (2 a). */
  function Energy(m: MathLib, g: real, mass: real, q: real, e: real): (E: real)
    ensures SemiMajorAxis(m, q, e) != 0.0 ==> E * SemiMajorAxis(m, q, e) == -0.5 * g * mass
  {
    m.Div(-0.5 * g * mass, SemiMajorAxis(m, q, e))
  }

  /** The AngularMomentum getter: sqrt(G M p), negated for a clockwise orbit. */
  function AngularMomentum(m: MathLib, g: real, mass: real, q: real, e: real, dir: OrbitDirection): (L: real)
    ensures m.Lawful() && g * mass * SemiLatusRectum(q, e) > 0.0 ==>
              && (dir == Clockwise ==> L < 0.0)
              && (dir == Counterclockwise ==> L > 0.0)
  {
    var sign := if dir == Clockwise then -1.0 else 1.0;
    sign * m.sqrt(g * mass * SemiLatusRectum(q, e))
  }

  /** The parameter snapshot built by Reset from the settings and the star's mass. */
  function Parameters(m: MathLib, s: Settings, mass: real): (op: OrbitalParameters)
    ensures op.e == s.eccentricity
    ensures op.p == s.perihelionDistance * (1.0 + s.eccentricity)
    ensures s.eccentricity != 1.0 ==> op.a * (1.0 - s.eccentricity) == s.perihelionDistance
    ensures op.T.Infinite? <==> s.eccentricity >= 1.0
  {
    var g := NewtonG(s.unitTime, s.unitLength);
    var q := s.perihelionDistance;
    var e := s.eccentricity;
    OrbitalParameters(SemiMajorAxis(m, q, e), e, SemiLatusRectum(q, e),
                      AngularMomentum(m, g, mass, q, e, s.orbitDirection),
                      Energy(m, g, mass, q, e), OrbitalPeriod(m, g, mass, q, e))
  }

  /** The sign convention of the orbit equation: -1 with the star at the left focus. */
  function OrbitSign(f: Focus): (sign: real)
    ensures sign == -1.0 || sign == 1.0
    ensures sign < 0.0 <==> f == Left
  {
    if f == Left then -1.0 else 1.0
  }

  /** The orbit equation r = p / (1 + sign e cos theta). */
  function StarToPlanetDistance(m: MathLib, op: OrbitalParameters, orbitSign: real, theta: real): (r: real)
    ensures 1.0 + orbitSign * op.e * m.cos(theta) != 0.0 ==> r * (1.0 + orbitSign * op.e * m.cos(theta)) == op.p
  {
    m.Div(op.p, 1.0 + orbitSign * op.e * m.cos(theta))
  }

  /** The point of the orbit at polar angle theta around the star. */
  function PointOnOrbit(m: MathLib, op: OrbitalParameters, orbitSign: real, starPos: Vec3, theta: real): Vec3
  {
    var r := StarToPlanetDistance(m, op, orbitSign, theta);
    starPos.Plus(Vec3(r * m.cos(theta), r * m.sin(theta), 0.0))
  }

  // ---------------------------------------------------------------------------
  // Sign facts about products and quotients of reals

  lemma ProductPositive(x: real, y: real)
    requires x > 0.0 && y > 0.0
    ensures x * y > 0.0
  {
  }

  lemma QuotientSign(x: real, y: real)
    requires y != 0.0
    ensures x > 0.0 && y > 0.0 ==> x / y > 0.0
    ensures x < 0.0 && y > 0.0 ==> x / y < 0.0
    ensures x < 0.0 && y < 0.0 ==> x / y > 0.0
    ensures x > 0.0 && y < 0.0 ==> x / y < 0.0
  {
  }

  // ---------------------------------------------------------------------------
  // Derived quantities

  /** The semi-latus rectum is a (1 - e^2) whenever a is finite. */
  lemma LatusRectumFromAxis(m: MathLib, q: real, e: real)
    requires e != 1.0
    ensures SemiLatusRectum(q, e) == SemiMajorAxis(m, q, e) * (1.0 - e * e)
  {
  }

  /** For a bound orbit the aphelion distance is q (1 + e) / (1 - e), never closer than the perihelion. */
  lemma AphelionBeyondPerihelion(m: MathLib, q: real, e: real)
    requires q > 0.0 && 0.0 <= e < 1.0
    ensures AphelionDistance(m, q, e) == q * (1.0 + e) / (1.0 - e)
    ensures AphelionDistance(m, q, e) >= q
  {
  }

  /** A bound orbit around a positive mass has a positive finite period. */
  lemma BoundPeriodPositive(m: MathLib, g: real, mass: real, q: real, e: real)
    requires m.Lawful()
    requires g > 0.0 && mass > 0.0 && q > 0.0 && e < 1.0
    ensures OrbitalPeriod(m, g, mass, q, e).Finite?
    ensures OrbitalPeriod(m, g, mass, q, e).length > 0.0
  {
    var a := SemiMajorAxis(m, q, e);
    assert a == q / (1.0 - e);
    QuotientSign(q, 1.0 - e);
    ProductPositive(a, a);
    ProductPositive(a * a, a);
    QuotientSign(a * a * a, g);
    QuotientSign(a * a * a / g, mass);
    var x := m.Div(m.Div(a * a * a, g), mass);
    assert x > 0.0;
    ProductPositive(2.0 * m.pi, m.sqrt(x));
  }

  /** The specific energy is negative on a bound orbit and positive on an open one. */
  lemma EnergySign(m: MathLib, g: real, mass: real, q: real, e: real)
    requires g > 0.0 && mass > 0.0 && q > 0.0 && e != 1.0
    ensures e < 1.0 ==> Energy(m, g, mass, q, e) < 0.0
    ensures e > 1.0 ==> Energy(m, g, mass, q, e) > 0.0
  {
    var a := SemiMajorAxis(m, q, e);
    ProductPositive(g, mass);
    var num := -0.5 * g * mass;
    assert a == q / (1.0 - e);
    QuotientSign(q, 1.0 - e);
    QuotientSign(num, a);
  }

  /** The sign of the angular momentum gives the direction of travel. */
  lemma AngularMomentumSign(m: MathLib, g: real, mass: real, q: real, e: real, dir: OrbitDirection)
    requires m.Lawful()
    requires g > 0.0 && mass > 0.0 && q > 0.0 && e > -1.0
    ensures dir == Clockwise ==> AngularMomentum(m, g, mass, q, e, dir) < 0.0
    ensures dir == Counterclockwise ==> AngularMomentum(m, g, mass, q, e, dir) > 0.0
  {
  }

  // ---------------------------------------------------------------------------
  // The starting position chosen by Reset

  /** Where Reset puts planet 1: perihelionDistance towards the near side, or the aphelion on the far side. */
  function InitialPlanet1Position(m: MathLib, s: Settings, starPos: Vec3): Vec3
  {
    if s.startAtPerihelion then
      starPos.Plus((if s.starAtFocus == Left then Left3 else Right3).Scale(s.perihelionDistance))
    else
      var aphelion := AphelionDistance(m, s.perihelionDistance, s.eccentricity);
      starPos.Plus((if s.starAtFocus == Left then Right3 else Left3).Scale(aphelion))
  }

  /** The polar angle of a position as seen from the star. */
  function AngleFromStar(m: MathLib, pos: Vec3, starPos: Vec3): real
  {
    var d := pos.Minus(starPos);
    m.atan2(d.y, d.x)
  }

  /** The star's position, lifted from the plane. */
  function StarStart(s: Settings): Vec3
  {
    Vec3(s.starPosition.x, s.starPosition.y, 0.0)
  }

  /**
   * The starting point lies on the orbit: the orbit equation at the starting
   * angle gives the distance Reset placed the planet at, the perihelion
   * distance or the aphelion distance, whichever focus holds the star.
   */
  lemma InitialPositionOnOrbit(m: MathLib, s: Settings, op: OrbitalParameters, starPos: Vec3)
    requires m.Lawful()
    requires s.perihelionDistance > 0.0
    requires s.startAtPerihelion ==> s.eccentricity != -1.0
    requires !s.startAtPerihelion ==> -1.0 < s.eccentricity < 1.0
    requires op.e == s.eccentricity && op.p == SemiLatusRectum(s.perihelionDistance, s.eccentricity)
    ensures var pos := InitialPlanet1Position(m, s, starPos);
            var r := StarToPlanetDistance(m, op, OrbitSign(s.starAtFocus), AngleFromStar(m, pos, starPos));
            && (s.startAtPerihelion ==> r == s.perihelionDistance)
            && (!s.startAtPerihelion ==> r == AphelionDistance(m, s.perihelionDistance, s.eccentricity))
            && pos.Minus(starPos).SqrMagnitude() == r * r
  {
    var q, e := s.perihelionDistance, s.eccentricity;
    var sign := OrbitSign(s.starAtFocus);
    var pos := InitialPlanet1Position(m, s, starPos);
    var d := pos.Minus(starPos);
    var theta := AngleFromStar(m, pos, starPos);
    var dist := if s.startAtPerihelion then q else AphelionDistance(m, q, e);
    if s.startAtPerihelion {
      if s.starAtFocus == Left {
        assert d == Vec3(-q, 0.0, 0.0);
        assert theta == m.pi;
      } else {
        assert d == Vec3(q, 0.0, 0.0);
        assert theta == 0.0;
      }
      assert sign * e * m.cos(theta) == e;
    } else {
      AphelionPositive(m, q, e);
      if s.starAtFocus == Left {
        assert d == Vec3(dist, 0.0, 0.0);
        assert theta == 0.0;
      } else {
        assert d == Vec3(-dist, 0.0, 0.0);
        assert theta == m.pi;
      }
      assert sign * e * m.cos(theta) == -e;
    }
    OnAxisDistance(m, op, sign, theta, dist);
    var r := StarToPlanetDistance(m, op, sign, theta);
    assert d.SqrMagnitude() == dist * dist;
    assert r * r == dist * dist by { assert r == dist; }
  }

  /**
   * On an open orbit (e > 1) there is no aphelion: the aphelion start computes
   * a negative "aphelion distance", so the planet lands on the perihelion side,
   * where the orbit equation gives q, but farther than q from the star.
   */
  lemma OpenOrbitAphelionStartOffOrbit(m: MathLib, s: Settings, op: OrbitalParameters, starPos: Vec3)
    requires m.Lawful()
    requires s.perihelionDistance > 0.0 && s.eccentricity > 1.0 && !s.startAtPerihelion
    requires op.e == s.eccentricity && op.p == SemiLatusRectum(s.perihelionDistance, s.eccentricity)
    ensures var pos := InitialPlanet1Position(m, s, starPos);
            var r := StarToPlanetDistance(m, op, OrbitSign(s.starAtFocus), AngleFromStar(m, pos, starPos));
            && r == s.perihelionDistance
            && pos.Minus(starPos).SqrMagnitude() > r * r
  {
    var q, e := s.perihelionDistance, s.eccentricity;
    var sign := OrbitSign(s.starAtFocus);
    var pos := InitialPlanet1Position(m, s, starPos);
    var d := pos.Minus(starPos);
    var theta := AngleFromStar(m, pos, starPos);
    var aphelion := AphelionDistance(m, q, e);
    var dist := -aphelion;
    OpenOrbitAphelionNegative(m, q, e);
    if s.starAtFocus == Left {
      assert d == Vec3(aphelion, 0.0, 0.0);
      assert theta == m.pi;
    } else {
      assert d == Vec3(dist, 0.0, 0.0);
      assert theta == 0.0;
    }
    assert sign * e * m.cos(theta) == e;
    OnAxisDistance(m, op, sign, theta, q);
    assert d.SqrMagnitude() == dist * dist;
    SquareGrows(q, dist);
  }

  /** For e > 1 the formula (1 + e) a gives a negative value, of magnitude above q. */
  lemma OpenOrbitAphelionNegative(m: MathLib, q: real, e: real)
    requires q > 0.0 && e > 1.0
    ensures -AphelionDistance(m, q, e) > q
  {
    var a := SemiMajorAxis(m, q, e);
    var x := (1.0 + e) * a;
    var dist := -x;
    var u := e - 1.0;
    assert a * (1.0 - e) == q;
    Associate(1.0 + e, a, 1.0 - e);
    assert x * (1.0 - e) == (1.0 + e) * q;
    assert dist * u == x * (1.0 - e) by { NegateFactors(x, u); }
    assert (dist - q) * u == dist * u - q * u;
    assert (dist - q) * u == 2.0 * q;
    PositiveFactor(dist - q, u);
  }

  lemma NegateFactors(x: real, y: real)
    ensures (-x) * y == x * (-y)
  {
  }

  lemma PositiveFactor(x: real, y: real)
    requires y > 0.0 && x * y > 0.0
    ensures x > 0.0
  {
  }

  lemma SquareGrows(x: real, y: real)
    requires 0.0 < x < y
    ensures x * x < y * y
  {
    ProductPositive(x, y - x);
    ProductPositive(y, y - x);
  }

  /** For -1 < e < 1 the aphelion distance is positive and is (1 + e) / (1 - e) times the perihelion. */
  lemma AphelionPositive(m: MathLib, q: real, e: real)
    requires q > 0.0 && -1.0 < e < 1.0
    ensures AphelionDistance(m, q, e) > 0.0
    ensures AphelionDistance(m, q, e) * (1.0 - e) == q * (1.0 + e)
  {
    var a := SemiMajorAxis(m, q, e);
    assert a > 0.0 by {
      assert a == q / (1.0 - e);
      QuotientSign(q, 1.0 - e);
    }
    ProductPositive(1.0 + e, a);
    assert a * (1.0 - e) == q;
    Associate(1.0 + e, a, 1.0 - e);
    assert AphelionDistance(m, q, e) * (1.0 - e) == (1.0 + e) * (a * (1.0 - e));
  }

  lemma Associate(x: real, y: real, z: real)
    ensures (x * y) * z == x * (y * z)
  {
  }

  /** The orbit equation gives dist where p = dist (1 + sign e cos theta). */
  lemma OnAxisDistance(m: MathLib, op: OrbitalParameters, sign: real, theta: real, dist: real)
    requires m.Lawful()
    requires sign == -1.0 || sign == 1.0
    requires var c := sign * op.e * m.cos(theta); 1.0 + c != 0.0 && op.p == dist * (1.0 + c)
    ensures StarToPlanetDistance(m, op, sign, theta) == dist
  {
    var y := 1.0 + sign * op.e * m.cos(theta);
    var r := StarToPlanetDistance(m, op, sign, theta);
    assert r * y == dist * y;
    Cancel(r, dist, y);
  }

  lemma Cancel(x: real, y: real, z: real)
    requires z != 0.0 && x * z == y * z
    ensures x == y
  {
  }

  // ---------------------------------------------------------------------------
  // The resynchronisation timer

  /** The test resetTimer >= Period; an infinite period is never reached. */
  function Reached(timer: real, T: Period): bool
  {
    match T
    case Finite(t) => timer >= t
    case Infinite => false
  }

  /** Whether a tick snaps the planets back to their initial positions. */
  function ResyncFires(s: Settings, timer: real, T: Period): bool
  {
    s.resetAfterOnePeriod && Reached(timer, T)
  }

  /** The timer after one tick that advances simulated time by tick (timeScale times the fixed timestep). */
  function NextTimer(s: Settings, timer: real, T: Period, tick: real): (t: real)
    ensures ResyncFires(s, timer, T) ==> t == tick
    ensures s.resetAfterOnePeriod && !Reached(timer, T) ==> t == timer + tick
    ensures !s.resetAfterOnePeriod ==> t == timer
  {
    if !s.resetAfterOnePeriod then timer
    else (if Reached(timer, T) then 0.0 else timer) + tick
  }

  /** The timer after k ticks. */
  function TimerAfterTicks(s: Settings, timer: real, T: Period, tick: real, k: nat): real
  {
    if k == 0 then timer else NextTimer(s, TimerAfterTicks(s, timer, T, tick, k - 1), T, tick)
  }

  /** On an unbound orbit the resync never fires and the timer only grows, by one tick each time. */
  lemma {:induction false} UnboundTimerOnlyGrows(m: MathLib, g: real, mass: real, s: Settings, timer: real, tick: real, k: nat)
    requires s.eccentricity >= 1.0 && s.resetAfterOnePeriod
    ensures var T := OrbitalPeriod(m, g, mass, s.perihelionDistance, s.eccentricity);
            && !ResyncFires(s, TimerAfterTicks(s, timer, T, tick, k), T)
            && TimerAfterTicks(s, timer, T, tick, k) == timer + (k as real) * tick
  {
    if k > 0 {
      UnboundTimerOnlyGrows(m, g, mass, s, timer, tick, k - 1);
    }
  }

  /** With a positive finite period and a non-negative tick, the timer stays within one tick past the period. */
  lemma {:induction false} TimerStaysBelowPeriodPlusTick(s: Settings, timer: real, t: real, tick: real, k: nat)
    requires t > 0.0 && tick >= 0.0
    requires 0.0 <= timer < t + tick
    ensures 0.0 <= TimerAfterTicks(s, timer, Finite(t), tick, k) < t + tick
  {
    if k > 0 {
      TimerStaysBelowPeriodPlusTick(s, timer, t, tick, k - 1);
    }
  }

  // ---------------------------------------------------------------------------
  // Substeps

  /** A planet's position and polar angle. */
  datatype BodyState = BodyState(position: Vec3, theta: real)

  /** Conservation of angular momentum: over dt the polar angle grows by L dt / r^2. */
  function NextTheta(m: MathLib, op: OrbitalParameters, starPos: Vec3, b: BodyState, dt: real): (theta: real)
    ensures var r2 := b.position.Minus(starPos).SqrMagnitude();
            r2 != 0.0 ==> r2 * (theta - b.theta) == op.L * dt
  {
    b.theta + m.Div(op.L * dt, b.position.Minus(starPos).SqrMagnitude())
  }

  /**
   * StepForward: the angle advances, then the planet is put on the orbit at the
   * new angle, at the distance the orbit equation gives for that angle.
   */
  function Advance(m: MathLib, op: OrbitalParameters, orbitSign: real, starPos: Vec3, b: BodyState, dt: real): (b': BodyState)
    ensures b'.theta == NextTheta(m, op, starPos, b, dt)
    ensures m.Lawful() ==> OnOrbit(m, op, orbitSign, starPos, b')
  {
    PointOnOrbitDistance(m, op, orbitSign, starPos, NextTheta(m, op, starPos, b, dt));
    var theta := NextTheta(m, op, starPos, b, dt);
    BodyState(PointOnOrbit(m, op, orbitSign, starPos, theta), theta)
  }

  /** n successive substeps of length dt; after at least one the planet is on the orbit at its own angle. */
  function AdvanceN(m: MathLib, op: OrbitalParameters, orbitSign: real, starPos: Vec3, b: BodyState, dt: real, n: nat): (b': BodyState)
    ensures n == 0 ==> b' == b
    ensures n > 0 && m.Lawful() ==> OnOrbit(m, op, orbitSign, starPos, b')
  {
    if n == 0 then b else Advance(m, op, orbitSign, starPos, AdvanceN(m, op, orbitSign, starPos, b, dt, n - 1), dt)
  }

  /** Running n1 substeps and then n2 more is running n1 + n2 substeps. */
  lemma {:induction false} AdvanceNSplit(m: MathLib, op: OrbitalParameters, orbitSign: real, starPos: Vec3, b: BodyState, dt: real, n1: nat, n2: nat)
    ensures AdvanceN(m, op, orbitSign, starPos, b, dt, n1 + n2)
         == AdvanceN(m, op, orbitSign, starPos, AdvanceN(m, op, orbitSign, starPos, b, dt, n1), dt, n2)
  {
    if n2 > 0 {
      AdvanceNSplit(m, op, orbitSign, starPos, b, dt, n1, n2 - 1);
    }
  }

  /** A planet state lies on the orbit when its squared distance from the star is r^2 for the orbit equation's r at its angle. */
  ghost predicate OnOrbit(m: MathLib, op: OrbitalParameters, orbitSign: real, starPos: Vec3, b: BodyState)
  {
    var r := StarToPlanetDistance(m, op, orbitSign, b.theta);
    b.position.Minus(starPos).SqrMagnitude() == r * r
  }

  /** The point placed at angle theta is exactly the orbit equation's distance from the star. */
  lemma PointOnOrbitDistance(m: MathLib, op: OrbitalParameters, orbitSign: real, starPos: Vec3, theta: real)
    ensures m.Lawful() ==> OnOrbit(m, op, orbitSign, starPos, BodyState(PointOnOrbit(m, op, orbitSign, starPos, theta), theta))
  {
    if m.Lawful() {
      var r := StarToPlanetDistance(m, op, orbitSign, theta);
      var c, sn := m.cos(theta), m.sin(theta);
      var d := PointOnOrbit(m, op, orbitSign, starPos, theta).Minus(starPos);
      assert d == Vec3(r * c, r * sn, 0.0);
      assert c * c + sn * sn == 1.0;
      calc {
        d.SqrMagnitude();
        (r * c) * (r * c) + (r * sn) * (r * sn) + 0.0 * 0.0;
        r * r * (c * c + sn * sn);
        r * r;
      }
    }
  }

  /** The length of one substep: the scaled tick divided by the substep count. */
  function Substep(m: MathLib, s: Settings, fixedDeltaTime: real): real
  {
    m.Div(s.timeScale * fixedDeltaTime, s.numSubsteps as real)
  }

  /** How many times a tick calls StepForward per planet: the loop 1..numSubsteps runs no time for a count below 1. */
  function SubstepCount(s: Settings): nat
  {
    if s.numSubsteps > 0 then s.numSubsteps else 0
  }

  /** n copies of x added up. */
  function RepeatedSum(x: real, n: nat): real
  {
    if n == 0 then 0.0 else RepeatedSum(x, n - 1) + x
  }

  lemma {:induction false} RepeatedSumIsProduct(x: real, n: nat)
    ensures RepeatedSum(x, n) == (n as real) * x
  {
    if n > 0 {
      RepeatedSumIsProduct(x, n - 1);
    }
  }

  /** The numSubsteps substeps of one tick add up to the whole scaled tick. */
  lemma SubstepsCoverTick(m: MathLib, s: Settings, fixedDeltaTime: real)
    requires s.numSubsteps > 0
    ensures RepeatedSum(Substep(m, s, fixedDeltaTime), s.numSubsteps) == s.timeScale * fixedDeltaTime
  {
    RepeatedSumIsProduct(Substep(m, s, fixedDeltaTime), s.numSubsteps);
  }

  // ---------------------------------------------------------------------------
  // The simulation component

  /** A body of the scene; the kernel reads and writes its position and mass. */
  class CelestialBody {
    var Position: Vec3
    var Mass: real

    constructor (position: Vec3, mass: real)
      ensures Position == position && Mass == mass
    {
      Position := position;
      Mass := mass;
    }
  }

  /** The polar angle of planet 2: planet 1's angle plus the configured offset in degrees. */
  function Planet2Angle(m: MathLib, s: Settings, theta1: real): real
  {
    theta1 + s.initPlanet2OffsetAngle * m.Deg2Rad()
  }

  /** KeplerSimulation.cs: the state the tick and the reset update. */
  class KeplerSimulation {
    const math: MathLib
    const settings: Settings
    var paused: bool
    const star: CelestialBody?
    const planet1: CelestialBody?
    const planet2: CelestialBody?
    var orbitalParameters: OrbitalParameters
    var orbitSign: real
    var theta1: real
    var theta2: real
    var resetTimer: real
    var initPlanet1Position: Vec3
    var initPlanet2Position: Vec3

    /** The three bodies are distinct objects. */
    ghost predicate Valid()
    {
      && (star != null && planet1 != null ==> star != planet1)
      && (star != null && planet2 != null ==> star != planet2)
      && (planet1 != null && planet2 != null ==> planet1 != planet2)
    }

    /** Before the first reset every numeric field holds its default of zero. */
    constructor (math: MathLib, settings: Settings, star: CelestialBody?, planet1: CelestialBody?, planet2: CelestialBody?)
      requires star != null && planet1 != null ==> star != planet1
      requires star != null && planet2 != null ==> star != planet2
      requires planet1 != null && planet2 != null ==> planet1 != planet2
      ensures Valid()
      ensures this.math == math && this.settings == settings && !paused
      ensures this.star == star && this.planet1 == planet1 && this.planet2 == planet2
      ensures resetTimer == 0.0 && theta1 == 0.0 && theta2 == 0.0
    {
      this.math := math;
      this.settings := settings;
      paused := false;
      this.star := star;
      this.planet1 := planet1;
      this.planet2 := planet2;
      orbitalParameters := OrbitalParameters(0.0, 0.0, 0.0, 0.0, 0.0, Finite(0.0));
      orbitSign := 0.0;
      theta1, theta2, resetTimer := 0.0, 0.0, 0.0;
      initPlanet1Position, initPlanet2Position := Vec3(0.0, 0.0, 0.0), Vec3(0.0, 0.0, 0.0);
    }

    /** The Period getter, on the live settings and the star's current mass. */
    function Period(): (T: Period)
      reads star
      requires star != null
      ensures T.Infinite? <==> settings.eccentricity >= 1.0
    {
      OrbitalPeriod(math, NewtonG(settings.unitTime, settings.unitLength), star.Mass,
                    settings.perihelionDistance, settings.eccentricity)
    }

    /**
     * Reset: restarts the timer; when both the star and planet 1 exist,
     * places the star, puts planet 1 at its starting point, takes the parameter
     * snapshot and starting angle, and puts planet 2 on the orbit at its offset angle.
     */
    method Reset()
      requires Valid()
      modifies this, star, planet1, planet2
      ensures planet1 != null ==> planet1.Mass == old(planet1.Mass)
      ensures planet2 != null ==> planet2.Mass == old(planet2.Mass)
      ensures Valid()
      ensures resetTimer == 0.0
      ensures paused == old(paused)
      ensures star == null || planet1 == null ==>
        && orbitalParameters == old(orbitalParameters) && orbitSign == old(orbitSign)
        && theta1 == old(theta1) && theta2 == old(theta2)
        && initPlanet1Position == old(initPlanet1Position) && initPlanet2Position == old(initPlanet2Position)
        && (star != null ==> unchanged(star))
        && (planet1 != null ==> unchanged(planet1))
        && (planet2 != null ==> unchanged(planet2))
      ensures star != null && planet1 != null ==>
        && star.Position == StarStart(settings) && star.Mass == settings.starMass
        && initPlanet1Position == InitialPlanet1Position(math, settings, star.Position)
        && planet1.Position == initPlanet1Position
        && orbitSign == OrbitSign(settings.starAtFocus)
        && orbitalParameters == Parameters(math, settings, settings.starMass)
        && theta1 == AngleFromStar(math, initPlanet1Position, star.Position)
      ensures star != null && planet1 != null && planet2 == null ==>
        theta2 == old(theta2) && initPlanet2Position == old(initPlanet2Position)
      ensures star != null && planet1 != null && planet2 != null ==>
        && theta2 == Planet2Angle(math, settings, theta1)
        && planet2.Position == PointOnOrbit(math, orbitalParameters, orbitSign, star.Position, theta2)
        && initPlanet2Position == planet2.Position
    {
      resetTimer := 0.0;
      if star == null || planet1 == null {
        return;
      }
      star.Position := StarStart(settings);
      star.Mass := settings.starMass;

      if settings.startAtPerihelion {
        var direction := if settings.starAtFocus == Left then Left3 else Right3;
        initPlanet1Position := star.Position.Plus(direction.Scale(settings.perihelionDistance));
      } else {
        var aphelionDistance := AphelionDistance(math, settings.perihelionDistance, settings.eccentricity);
        var direction := if settings.starAtFocus == Left then Right3 else Left3;
        initPlanet1Position := star.Position.Plus(direction.Scale(aphelionDistance));
      }
      planet1.Position := initPlanet1Position;

      orbitSign := if settings.starAtFocus == Left then -1.0 else 1.0;
      orbitalParameters := Parameters(math, settings, star.Mass);

      var position1 := initPlanet1Position.Minus(star.Position);
      theta1 := math.atan2(position1.y, position1.x);

      if planet2 != null {
        theta2 := Planet2Angle(math, settings, theta1);
        planet2.Position := PointOnOrbit(math, orbitalParameters, orbitSign, star.Position, theta2);
        initPlanet2Position := planet2.Position;
      }
    }

    /** One substep of a planet: theta is passed in and handed back, as the source's ref parameter. */
    method StepForward(planet: CelestialBody, theta: real, deltaTime: real) returns (thetaOut: real)
      requires star != null && planet != star
      modifies planet
      ensures planet.Mass == old(planet.Mass)
      ensures BodyState(planet.Position, thetaOut)
           == Advance(math, orbitalParameters, orbitSign, star.Position, BodyState(old(planet.Position), theta), deltaTime)
    {
      thetaOut := NextTheta(math, orbitalParameters, star.Position, BodyState(planet.Position, theta), deltaTime);
      planet.Position := PointOnOrbit(math, orbitalParameters, orbitSign, star.Position, thetaOut);
    }

    /** Whether this tick snaps the planets back to their initial positions. */
    ghost predicate ResyncDue()
      reads this`resetTimer, star
      requires star != null
    {
      ResyncFires(settings, resetTimer, Period())
    }

    /** Where planet 1 starts the substeps of a tick: its snapped-back state if the resync fires. */
    ghost function TickStart1(): BodyState
      reads this`resetTimer, this`initPlanet1Position, this`theta1, star, planet1
      requires star != null && planet1 != null
    {
      if ResyncDue()
      then BodyState(initPlanet1Position, AngleFromStar(math, initPlanet1Position, star.Position))
      else BodyState(planet1.Position, theta1)
    }

    /** The polar angle planet 2 starts the substeps of a tick with. */
    ghost function TickStartTheta2(): real
      reads this`resetTimer, this`initPlanet1Position, this`theta2, star
      requires star != null
    {
      if ResyncDue()
      then Planet2Angle(math, settings, AngleFromStar(math, initPlanet1Position, star.Position))
      else theta2
    }

    /** Where planet 2 starts the substeps of a tick. */
    ghost function TickStart2(): BodyState
      reads this`resetTimer, this`initPlanet1Position, this`initPlanet2Position, this`theta2, star, planet2
      requires star != null && planet2 != null
    {
      BodyState(if ResyncDue() then initPlanet2Position else planet2.Position, TickStartTheta2())
    }

    /** The resync of FixedUpdate: the timer restarts and the planets snap back exactly to their initial positions. */
    method Resynchronize()
      requires Valid() && star != null && planet1 != null
      modifies this`resetTimer, this`theta1, this`theta2, planet1, planet2
      ensures planet1 != null ==> planet1.Mass == old(planet1.Mass)
      ensures planet2 != null ==> planet2.Mass == old(planet2.Mass)
      ensures resetTimer == 0.0
      ensures planet1.Position == initPlanet1Position
      ensures theta1 == AngleFromStar(math, initPlanet1Position, star.Position)
      ensures theta2 == Planet2Angle(math, settings, theta1)
      ensures planet2 != null ==> planet2.Position == initPlanet2Position
    {
      resetTimer := 0.0;
      planet1.Position := initPlanet1Position;
      var position1 := initPlanet1Position.Minus(star.Position);
      theta1 := math.atan2(position1.y, position1.x);
      theta2 := Planet2Angle(math, settings, theta1);
      if planet2 != null {
        planet2.Position := initPlanet2Position;
      }
    }

    /** The substep loop of FixedUpdate: StepForward runs numSubsteps times on each planet. */
    method UpdatePlanetPositions(substep: real)
      requires Valid() && star != null && planet1 != null
      modifies this`theta1, this`theta2, planet1, planet2
      ensures planet1 != null ==> planet1.Mass == old(planet1.Mass)
      ensures planet2 != null ==> planet2.Mass == old(planet2.Mass)
      ensures BodyState(planet1.Position, theta1)
           == AdvanceN(math, orbitalParameters, orbitSign, star.Position,
                       BodyState(old(planet1.Position), old(theta1)), substep, SubstepCount(settings))
      ensures planet2 != null ==>
                (BodyState(planet2.Position, theta2)
                 == AdvanceN(math, orbitalParameters, orbitSign, star.Position,
                             BodyState(old(planet2.Position), old(theta2)), substep, SubstepCount(settings)))
      ensures planet2 == null ==> theta2 == old(theta2)
    {
      var p1, p2 := planet1, planet2;
      ghost var start1 := BodyState(p1.Position, theta1);
      ghost var start2 := if p2 != null then BodyState(p2.Position, theta2) else start1;
      var t1, t2 := theta1, theta2;
      var i := 1;
      while i <= settings.numSubsteps
        invariant 1 <= i <= SubstepCount(settings) + 1
        invariant BodyState(p1.Position, t1) == AdvanceN(math, orbitalParameters, orbitSign, star.Position, start1, substep, i - 1)
        invariant p2 != null ==> BodyState(p2.Position, t2) == AdvanceN(math, orbitalParameters, orbitSign, star.Position, start2, substep, i - 1)
        invariant p2 == null ==> t2 == theta2
        invariant p1.Mass == old(p1.Mass) && (p2 != null ==> p2.Mass == old(p2.Mass))
        modifies p1, p2
      {
        t1 := StepForward(p1, t1, substep);
        if p2 != null {
          t2 := StepForward(p2, t2, substep);
        }
        i := i + 1;
      }
      theta1, theta2 := t1, t2;
    }

    /** The timer part of FixedUpdate: the resync when the period has been reached, then one tick. */
    method AdvanceTimer(tick: real)
      requires Valid() && star != null && planet1 != null
      modifies this`resetTimer, this`theta1, this`theta2, planet1, planet2
      ensures planet1 != null ==> planet1.Mass == old(planet1.Mass)
      ensures planet2 != null ==> planet2.Mass == old(planet2.Mass)
      ensures resetTimer == NextTimer(settings, old(resetTimer), Period(), tick)
      ensures BodyState(planet1.Position, theta1) == old(TickStart1())
      ensures planet2 != null ==> BodyState(planet2.Position, theta2) == old(TickStart2())
      ensures theta2 == old(TickStartTheta2())
    {
      if settings.resetAfterOnePeriod {
        if Reached(resetTimer, Period()) {
          Resynchronize();
        }
        resetTimer := resetTimer + tick;
      }
    }

    /**
     * FixedUpdate: nothing happens while paused or without a star and planet 1.
     * Otherwise the timer advances (restarting after a full period, when the
     * planets snap back exactly to their initial positions), and each planet
     * takes exactly numSubsteps equal substeps.
     */
    method FixedUpdate(fixedDeltaTime: real)
      requires Valid()
      modifies this`resetTimer, this`theta1, this`theta2, planet1, planet2
      ensures planet1 != null ==> planet1.Mass == old(planet1.Mass)
      ensures planet2 != null ==> planet2.Mass == old(planet2.Mass)
      ensures old(paused) || star == null || planet1 == null ==>
        && resetTimer == old(resetTimer) && theta1 == old(theta1) && theta2 == old(theta2)
        && (planet1 != null ==> unchanged(planet1))
        && (planet2 != null ==> unchanged(planet2))
      ensures !paused && star != null && planet1 != null ==>
        resetTimer == NextTimer(settings, old(resetTimer), Period(), settings.timeScale * fixedDeltaTime)
      ensures !paused && star != null && planet1 != null ==>
        BodyState(planet1.Position, theta1)
          == AdvanceN(math, orbitalParameters, orbitSign, star.Position, old(TickStart1()),
                      Substep(math, settings, fixedDeltaTime), SubstepCount(settings))
      ensures !paused && star != null && planet1 != null && planet2 != null ==>
        BodyState(planet2.Position, theta2)
          == AdvanceN(math, orbitalParameters, orbitSign, star.Position, old(TickStart2()),
                      Substep(math, settings, fixedDeltaTime), SubstepCount(settings))
      ensures !paused && star != null && planet1 != null && planet2 == null ==>
        theta2 == old(TickStartTheta2())
    {
      if paused {
        return;
      }
      if star == null || planet1 == null {
        return;
      }
      var tick := settings.timeScale * fixedDeltaTime;
      AdvanceTimer(tick);
      var substep := Substep(math, settings, fixedDeltaTime);
      UpdatePlanetPositions(substep);
    }
  }
}
