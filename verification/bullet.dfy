/**
 * One simulated bullet of the bullet manager: its state record, the
 * per-tick step (`CSimulatedBullet::SimulateBullet`), the surface-hit
 * resolver (`EndSolid`) and the entity-impact rule (`EntityImpact`).
 *
 * Every engine service is an input: the traces, point contents, the
 * in-world test, surface data, the game rules' ammo damage, the length of a
 * vector and the random draws.  Speeds and vectors are reals; the one place
 * where the source's float arithmetic leaves the reals (a ricochet off a
 * surface hit exactly edge-on divides by zero) is kept as an explicit
 * infinite speed.
 */
module Bullets {
  import opened Geometry

  /** MAX_RICO_DOT_ANGLE: a ricochet needs dot(dir, normal) > -0.2. */
  const MaxRicoDotAngle: real := 0.2
  /** MIN_RICO_SPEED_PERC: a ricochet needs speed/initialSpeed > 0.5. */
  const MinRicoSpeedPerc: real := 0.5
  /** Default of `sv_bullet_speed_modifier`. */
  const DefaultSpeedModifier: real := 700.0
  /** The stop speed `UpdateBulletStopSpeed` installs. */
  const DefaultStopSpeed: real := 100.0
  /** `passWallSpeedDecreaseMultiplier`. */
  const PassWallSpeedDecrease: real := 10.0

  /** Surfaces a bullet neither ricochets off nor passes through. */
  const RejectedSurfaces: set<string> := {
    "tools/toolsblockbullets", "tools/toolsnodraw", "tools/toolsskybox",
    "glass/glasswindow007a", "glass/glasswindow020a"
  }

  /** An entity pointer or handle; `NoEntity` is NULL. */
  datatype Handle = NoEntity | Entity(id: nat)

  /** The float speed: a finite value, or an infinity of either sign. */
  datatype Speed = Finite(value: real) | Infinite(negative: bool)

  datatype Bullet = Bullet(
    origin: Vec3,
    dir: Vec3,
    speed: Speed,
    initialSpeed: real,
    entryDensity: real,
    stuck: bool,
    hasInteracted: bool,
    wasInWater: bool,
    lastHit: Handle,
    ignore: set<nat>,
    inflictor: Handle,
    attacker: Handle,
    ammoType: int,
    latency: real,
    traceHull: bool,
    forceScale: real)

  /** Surface materials (`CHAR_TEX_*`) the penetration table knows. */
  datatype Material =
    | Wood | Grate | Concrete | Tile | Computer | Glass | Vent | Metal
    | Plastic | BloodyFlesh | Flesh | Dirt | OtherMaterial(code: int)

  /** The parts of a `trace_t` the bullet reads. */
  datatype Trace = Trace(
    fraction: real,
    endpos: Vec3,
    hit: Handle,
    normal: Vec3,
    sky: bool,
    surfaceName: string,
    surfaceProps: int,
    displacement: bool,
    startSolid: bool)

  /**
   * Engine services and settings.  `trace` is the primary hull or line
   * trace from a start to an end point that skips the ignore set; `probe`
   * is the line trace used to find a penetration exit; `collides` is the
   * collision-group test of the trace filter behind the ignore list.
   */
  datatype World = World(
    trace: (Vec3, Vec3, set<nat>, bool) -> Trace,
    probe: (Vec3, Vec3, set<nat>) -> Trace,
    inWater: Vec3 -> bool,
    inWorld: (Vec3, Vec3) -> bool,
    density: int -> real,
    material: int -> Material,
    ammoDamage: (Handle, Handle, int) -> real,
    isPlayer: nat -> bool,
    collides: nat -> bool,
    norm: Vec3 -> real,
    singlePlayer: bool,
    unrealRicochet: bool,
    speedModifier: real,
    stopSpeed: real)

  /**
   * The random draws of one step: `roll(n)` is `RandomInt(0, n)`,
   * `ricochetScale` is `RandomFloat(0.005, 0.1)`, the jitters are the three
   * per-component `RandomFloat` calls of the ricochet and exit branches,
   * and `zeroDotNegative` is the sign bit of a dot product that is zero.
   */
  datatype Draws = Draws(
    roll: int -> int,
    ricochetScale: real,
    reflectJitter: Vec3,
    exitJitter: Vec3,
    zeroDotNegative: bool)

  /** A damage dispatch: target, damage and force scale. */
  datatype Hit = Hit(target: nat, damage: real, force: real)

  /** Which way `EndSolid` resolved a surface hit. */
  datatype Resolution = Rejected | Ricocheted | Stuck | Penetrated

  datatype Impact = Impact(bullet: Bullet, hits: seq<Hit>)

  datatype HitResult = HitResult(outcome: Resolution, bullet: Bullet)

  datatype StepResult = StepResult(alive: bool, bullet: Bullet, hits: seq<Hit>)

  /** Where the shooter's bullets start. */
  datatype Shooter =
    | PlayerShooter(forward: Vec3, right: Vec3)
    | NpcShooter(muzzle: Muzzle)

  datatype Muzzle = NoMuzzle | MuzzleAt(pos: Vec3)

  /** The parts of `FireBulletsInfo_t` the bullet keeps. */
  datatype FireInfo = FireInfo(
    src: Vec3,
    attacker: Handle,
    ammoType: int,
    latency: real,
    forceScale: real,
    alreadyInteracted: bool)

  /**
   * A bullet whose initial speed is not positive has never been sped up:
   * every step of it stops at the speed guard before the speed ratio is
   * needed.
   */
  predicate Valid(b: Bullet)
  {
    b.initialSpeed > 0.0 || !(b.speed.Finite? && b.speed.value > 0.0)
  }

  predicate IsPlayer(w: World, h: Handle)
  {
    h.Entity? && w.isPlayer(h.id)
  }

  /** `GetBulletSpeedRatio`: current over initial speed. */
  function SpeedRatio(b: Bullet): real
    requires b.speed.Finite? && b.initialSpeed > 0.0
  {
    b.speed.value / b.initialSpeed
  }

  /** The stop-speed comparison `speed <= BulletStopSpeed()` on a float. */
  predicate AtMost(s: Speed, stop: real)
  {
    match s
    case Finite(v) => v <= stop
    case Infinite(negative) => negative
  }

  /** The start point: offset from the eye for players, the muzzle for NPCs. */
  function StartOrigin(src: Vec3, shooter: Shooter): (p: Vec3)
    ensures shooter.NpcShooter? && shooter.muzzle.NoMuzzle? ==> p == src
  {
    match shooter
    case PlayerShooter(forward, right) =>
      Add(Add(Add(src, Vec3(0.0, 0.0, -4.0)), Scale(right, 2.0)), Scale(forward, 16.0))
    case NpcShooter(NoMuzzle) => src
    case NpcShooter(MuzzleAt(pos)) => pos
  }

  /**
   * The constructor.  `ammoSpeed` is the ammo table's bullet speed; the
   * in-water flag is not initialised by the source, so its first value is
   * an input.
   */
  function NewBullet(info: FireInfo, dir: Vec3, inflictor: nat, additionalIgnore: Handle,
                     traceHull: bool, ammoSpeed: real, shooter: Shooter,
                     wasInWater: bool): (b: Bullet)
    ensures Valid(b)
    ensures b.speed == Finite(b.initialSpeed) && b.initialSpeed == ammoSpeed
    ensures inflictor in b.ignore && b.inflictor == Entity(inflictor)
    ensures forall e :: e in b.ignore <==> e == inflictor || additionalIgnore == Entity(e)
    ensures !b.stuck && b.hasInteracted == info.alreadyInteracted
    ensures b.entryDensity == 0.0 && b.lastHit == NoEntity
  {
    Bullet(
      origin := StartOrigin(info.src, shooter),
      dir := dir,
      speed := Finite(ammoSpeed),
      initialSpeed := ammoSpeed,
      entryDensity := 0.0,
      stuck := false,
      hasInteracted := info.alreadyInteracted,
      wasInWater := wasInWater,
      lastHit := NoEntity,
      ignore := {inflictor} + (if additionalIgnore.Entity? then {additionalIgnore.id} else {}),
      inflictor := Entity(inflictor),
      attacker := info.attacker,
      ammoType := info.ammoType,
      latency := info.latency,
      traceHull := traceHull,
      forceScale := info.forceScale)
  }

  /** Penetration depth in units and ricochet penalty per material. */
  datatype MaterialRow = MaterialRow(depth: real, penalty: int)

  function MaterialTable(m: Material): MaterialRow
  {
    match m
    case Wood => MaterialRow(9.0, 50)
    case Grate => MaterialRow(6.0, 80)
    case Concrete => MaterialRow(4.0, 85)
    case Tile => MaterialRow(5.0, 70)
    case Computer => MaterialRow(5.0, 80)
    case Glass => MaterialRow(8.0, 30)
    case Vent => MaterialRow(4.0, 90)
    case Metal => MaterialRow(1.0, 90)
    case Plastic => MaterialRow(8.0, 60)
    case BloodyFlesh => MaterialRow(18.0, 30)
    case Flesh => MaterialRow(18.0, 30)
    case Dirt => MaterialRow(6.0, 60)
    case OtherMaterial(_) => MaterialRow(2.0, 0)
  }

  /** The upper bound of the ricochet roll: (100 - penalty) / 5. */
  function RicochetChance(m: Material): (c: int)
    ensures 2 <= c <= 20
    ensures m == Metal || m == Vent ==> c == 2
    ensures m == Wood ==> c == 10
    ensures m.OtherMaterial? ==> c == 20
  {
    (100 - MaterialTable(m).penalty) / 5
  }

  /** How deep the exit probe starts: table depth plus a damage bonus. */
  function PenetrationDepth(m: Material, damage: real): (depth: real)
    ensures damage >= 0.0 ==> depth >= 1.0
    ensures m == Metal ==> depth == 1.0 + damage / 8.0
    ensures m == Wood ==> depth == 9.0 + damage / 8.0
    ensures m.OtherMaterial? ==> depth == 2.0 + damage / 8.0
  {
    MaterialTable(m).depth + damage / 8.0
  }

  /** The ricochet decision of `EndSolid`. */
  predicate RicochetChosen(dot: real, ratio: real, roll: int)
  {
    dot > -MaxRicoDotAngle && ratio > MinRicoSpeedPerc && roll <= 1
  }

  /**
   * The ricochet speed factor: x0.9 with unreal ricochet, otherwise
   * x(1/-dot)*k with k drawn in single player and 0.025 otherwise.  A zero
   * dot divides by zero; the infinity's sign follows the zero's sign bit
   * and the speed's sign.
   */
  function RicochetSpeed(sp: real, dot: real, w: World, d: Draws): Speed
  {
    if w.unrealRicochet then Finite(sp * 0.9)
    else if dot == 0.0 then
      Infinite(if d.zeroDotNegative then sp < 0.0 else sp > 0.0)
    else
      var k := if w.singlePlayer then d.ricochetScale else 0.025;
      Finite(sp * ((1.0 / -dot) * k))
  }

  /** The mirror image of `dir` in the plane with normal `n`. */
  function Reflect(dir: Vec3, n: Vec3): Vec3
  {
    Add(dir, Scale(n, Dot(dir, n) * -2.0))
  }

  /** The ricochet branch of `EndSolid` (entry density already updated). */
  function Ricochet(b: Bullet, tr: Trace, w: World, d: Draws): Bullet
    requires b.speed.Finite?
  {
    var dot := Dot(b.dir, tr.normal);
    var reflect := Reflect(b.dir, tr.normal);
    var dir := if w.singlePlayer && !w.unrealRicochet then Add(reflect, d.reflectJitter) else reflect;
    b.(speed := RicochetSpeed(b.speed.value, dot, w, d),
       entryDensity := b.entryDensity * 0.2,
       dir := dir,
       origin := Add(tr.endpos, dir))
  }

  /** The penetration branch of `EndSolid` (entry density already updated). */
  function Penetrate(b: Bullet, tr: Trace, w: World, d: Draws, depth: real): HitResult
    requires b.speed.Finite? && IsNorm(w.norm) && w.speedModifier != 0.0
  {
    var testPos := Add(tr.endpos, Scale(b.dir, depth));
    var exit := w.probe(testPos, tr.endpos, b.ignore);
    var dist := w.norm(Sub(tr.endpos, exit.endpos));
    if exit.startSolid || tr.fraction == 0.0 || exit.fraction == 1.0 || tr.displacement || b.hasInteracted then
      HitResult(Stuck, b.(stuck := true))
    else
      var dir := if w.singlePlayer then Normalize(w.norm, Add(b.dir, Scale(d.exitJitter, 0.03))) else b.dir;
      var loss := dist * (b.entryDensity * PassWallSpeedDecrease) / w.speedModifier;
      HitResult(Penetrated, b.(dir := dir, origin := Add(exit.endpos, dir),
                               speed := Finite(b.speed.value - loss)))
  }

  /** `EndSolid`: resolves a hit on a solid surface. */
  function EndSolid(b: Bullet, tr: Trace, w: World, d: Draws): (r: HitResult)
    requires b.speed.Finite? && b.initialSpeed > 0.0
    requires IsNorm(w.norm) && w.speedModifier != 0.0
    ensures tr.surfaceName in RejectedSurfaces <==> r.outcome == Rejected
    ensures r.outcome == Rejected ==> r.bullet == b
    ensures r.bullet.initialSpeed == b.initialSpeed && r.bullet.ignore == b.ignore
    ensures r.bullet.inflictor == b.inflictor
    ensures r.bullet.hasInteracted == b.hasInteracted && r.bullet.lastHit == b.lastHit
    ensures r.bullet.stuck <==> b.stuck || r.outcome == Stuck
  {
    if tr.surfaceName in RejectedSurfaces then HitResult(Rejected, b)
    else
      var m := w.material(tr.surfaceProps);
      var damage := w.ammoDamage(b.inflictor, tr.hit, b.ammoType);
      var depth := PenetrationDepth(m, damage);
      var dot := Dot(b.dir, tr.normal);
      var b1 := b.(entryDensity := w.density(tr.surfaceProps));
      if RicochetChosen(dot, SpeedRatio(b), d.roll(RicochetChance(m))) then
        HitResult(Ricocheted, Ricochet(b1, tr, w, d))
      else
        Penetrate(b1, tr, w, d, depth)
  }

  /** `EntityImpact`: damages the entity a trace struck, once. */
  function EntityImpact(b: Bullet, tr: Trace, w: World): (r: Impact)
    requires b.speed.Finite? && b.initialSpeed > 0.0
    ensures b.stuck ==> r == Impact(b, [])
    ensures b.ignore <= r.bullet.ignore
    ensures |r.hits| <= 1
    ensures tr.hit == b.lastHit ==> r.hits == []
    ensures r.bullet == b.(ignore := r.bullet.ignore, lastHit := r.bullet.lastHit)
    ensures r.hits != [] ==> r.bullet.lastHit == tr.hit && tr.hit == Entity(r.hits[0].target)
    ensures r.hits != [] ==>
              r.hits[0].damage == w.ammoDamage(b.inflictor, tr.hit, b.ammoType) * SpeedRatio(b) &&
              r.hits[0].force == b.forceScale * SpeedRatio(b)
    ensures tr.hit.Entity? && !IsPlayer(w, b.inflictor) && w.isPlayer(tr.hit.id) ==>
              (r.hits != [] ==> tr.hit.id in r.bullet.ignore) && (tr.hit.id in b.ignore ==> r.hits == [])
  {
    if b.stuck || tr.hit == NoEntity then Impact(b, [])
    else
      var e := tr.hit.id;
      var guarded := !IsPlayer(w, b.inflictor) && w.isPlayer(e);
      if guarded && !(e !in b.ignore && w.collides(e)) then Impact(b, [])
      else
        var b1 := if guarded then b.(ignore := b.ignore + {e}) else b;
        if tr.hit == b1.lastHit then Impact(b1, [])
        else
          var ratio := SpeedRatio(b1);
          Impact(b1.(lastHit := tr.hit),
                 [Hit(e, w.ammoDamage(b1.inflictor, tr.hit, b1.ammoType) * ratio, b1.forceScale * ratio)])
  }

  /** The part of a step after the trace. */
  function Resolve(b: Bullet, tr: Trace, w: World, d: Draws): (r: StepResult)
    requires b.speed.Finite? && b.initialSpeed > 0.0
    requires IsNorm(w.norm) && w.speedModifier != 0.0
    ensures r.bullet.initialSpeed == b.initialSpeed && r.bullet.hasInteracted == b.hasInteracted
    ensures b.ignore <= r.bullet.ignore && r.bullet.inflictor == b.inflictor
  {
    if tr.fraction == 1.0 then
      StepResult(true, b.(origin := Add(b.origin, Scale(b.dir, b.speed.value))), [])
    else
      var impact := EntityImpact(b, tr, w);
      var b1 := impact.bullet;
      if tr.hit == b1.inflictor then StepResult(false, b1, impact.hits)
      else if tr.sky then StepResult(false, b1, impact.hits)
      else if tr.fraction != 1.0 then
        var h := EndSolid(b1, tr, w, d);
        if h.outcome == Rejected || h.outcome == Stuck then StepResult(false, h.bullet, impact.hits)
        else StepResult(!AtMost(h.bullet.speed, w.stopSpeed), h.bullet, impact.hits)
      else
        // the start-solid branch: unreachable, the trace did not run its full length
        assert false;
        StepResult(true, b1, impact.hits)
  }

  /** The speed after the gravity coupling: speed + 0.8 * dir.z. */
  function SaggedSpeed(b: Bullet): real
    requires b.speed.Finite?
  {
    b.speed.value + 0.8 * b.dir.z
  }

  /**
   * The end point of this tick's trace: along the unsagged direction at the
   * sagged speed, and (on the server) scaled as a position vector by
   * latency * 100 when the shot carries a latency.
   */
  function TraceEnd(b: Bullet): Vec3
    requires b.speed.Finite?
  {
    var ray := Add(b.origin, Scale(b.dir, SaggedSpeed(b)));
    if b.latency != 0.0 then Scale(ray, b.latency * 100.0) else ray
  }

  /** Gravity: the speed takes 0.8 * dir.z and dir.z loses 0.4 / speed. */
  function Sag(b: Bullet): (r: Bullet)
    requires b.speed.Finite? && SaggedSpeed(b) != 0.0
    ensures r.dir.x == b.dir.x && r.dir.y == b.dir.y
    ensures r.speed.Finite? && (r.dir.z < b.dir.z <==> r.speed.value > 0.0)
    ensures b.dir.z == 0.0 ==> r.speed == b.speed
    ensures r == b.(speed := r.speed, dir := r.dir)
  {
    var s := SaggedSpeed(b);
    assert 0.4 / s > 0.0 <==> s > 0.0;
    b.(speed := Finite(s), dir := b.dir.(z := b.dir.z - 0.4 / s))
  }

  /** Water drag: in water the bullet keeps 40% of its speed. */
  function Soak(b: Bullet, water: bool): (r: Bullet)
    requires b.speed.Finite?
    ensures r.speed.Finite? && r.wasInWater == water
    ensures r.speed.value == (if water then 0.4 * b.speed.value else b.speed.value)
    ensures r == b.(speed := r.speed, wasInWater := water)
  {
    var s := b.speed.value;
    b.(wasInWater := water, speed := Finite(if water then s - s * 0.6 else s))
  }

  /** The inflictor falls back to the attacker when it is NULL. */
  function WithInflictor(b: Bullet): (r: Bullet)
    ensures r.inflictor == (if b.inflictor == NoEntity then b.attacker else b.inflictor)
    ensures r == b.(inflictor := r.inflictor)
  {
    if b.inflictor == NoEntity then b.(inflictor := b.attacker) else b
  }

  /**
   * `SimulateBullet`: one tick of flight.  A sagged speed of exactly zero
   * is retired here (see the README).
   */
  function Step(b: Bullet, w: World, d: Draws): (r: StepResult)
    requires Valid(b)
    requires IsNorm(w.norm) && w.speedModifier != 0.0
    ensures b.speed.Infinite? || b.speed.value <= 0.0 ==> r == StepResult(false, b, [])
    ensures b.inflictor == NoEntity && b.attacker == NoEntity ==> r == StepResult(false, b, [])
    ensures Valid(r.bullet) && r.bullet.initialSpeed == b.initialSpeed
    ensures r.bullet.hasInteracted == b.hasInteracted
    ensures b.ignore <= r.bullet.ignore
    ensures b.stuck ==> !r.alive
    ensures r.alive ==> r.bullet.inflictor != NoEntity
  {
    if b.speed.Infinite? || b.speed.value <= 0.0 then StepResult(false, b, [])
    else
      var b1 := WithInflictor(b);
      if b1.inflictor == NoEntity then StepResult(false, b1, [])
      else if SaggedSpeed(b1) == 0.0 then StepResult(false, b1.(speed := Finite(0.0)), [])
      else
        var b2 := Sag(b1);
        var end := TraceEnd(b1);
        if !w.inWorld(b2.origin, end) || b2.stuck then StepResult(false, b2, [])
        else
          var b3 := Soak(b2, w.inWater(b2.origin));
          Resolve(b3, w.trace(b3.origin, end, b3.ignore, b3.traceHull), w, d)
  }
}
