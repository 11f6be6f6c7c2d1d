/**
 * Properties of the simulated bullet that relate its stages to each other
 * or hold across several calls.
 */
module BulletProperties {
  import opened Geometry
  import opened Bullets

  /** The side conditions every step needs. */
  predicate Setting(b: Bullet, w: World)
  {
    Valid(b) && w.speedModifier != 0.0
  }

  /** A bullet that passes the three guards that come before any mutation. */
  predicate PassesGuards(b: Bullet)
  {
    b.speed.Finite? && b.speed.value > 0.0 && b.inflictor != NoEntity
  }

  /** The bullet just before its trace, when it gets that far. */
  function Prepared(b: Bullet, w: World): Bullet
    requires PassesGuards(b) && SaggedSpeed(b) != 0.0
  {
    Soak(Sag(b), w.inWater(b.origin))
  }

  /** Past the guards and the in-world test, a step is decided by its trace. */
  lemma StepReachesTrace(b: Bullet, w: World, d: Draws)
    requires Setting(b, w) && IsNorm(w.norm) && PassesGuards(b)
    requires SaggedSpeed(b) != 0.0 && w.inWorld(b.origin, TraceEnd(b)) && !b.stuck
    ensures var p := Prepared(b, w);
            Step(b, w, d) == Resolve(p, w.trace(p.origin, TraceEnd(b), p.ignore, p.traceHull), w, d)
  {
  }

  /** Leaving the world, or being stuck, retires the bullet with no damage. */
  lemma StepOutOfWorldOrStuck(b: Bullet, w: World, d: Draws)
    requires Setting(b, w) && IsNorm(w.norm) && PassesGuards(b) && SaggedSpeed(b) != 0.0
    requires !w.inWorld(b.origin, TraceEnd(b)) || b.stuck
    ensures var r := Step(b, w, d); !r.alive && r.hits == [] && r.bullet == Sag(b)
  {
  }

  /**
   * A miss moves the origin along the sagged direction at the (possibly
   * water-slowed) sagged speed and returns alive without a stop-speed check.
   */
  lemma StepMiss(b: Bullet, w: World, d: Draws)
    requires Setting(b, w) && IsNorm(w.norm) && PassesGuards(b)
    requires SaggedSpeed(b) != 0.0 && w.inWorld(b.origin, TraceEnd(b)) && !b.stuck
    requires w.trace(b.origin, TraceEnd(b), b.ignore, b.traceHull).fraction == 1.0
    ensures var r := Step(b, w, d);
            var s := SaggedSpeed(b);
            var s' := if w.inWater(b.origin) then 0.4 * s else s;
            && r.alive && r.hits == []
            && r.bullet.dir == Vec3(b.dir.x, b.dir.y, b.dir.z - 0.4 / s)
            && r.bullet.speed == Finite(s')
            && r.bullet.origin == Add(b.origin, Scale(r.bullet.dir, s'))
  {
    StepReachesTrace(b, w, d);
  }

  /**
   * Out of water and without latency, a miss leaves the bullet 0.4 units
   * below the end point it traced to, not on it.
   */
  lemma MissLandsBelowTraceEnd(b: Bullet, w: World, d: Draws)
    requires Setting(b, w) && IsNorm(w.norm) && PassesGuards(b)
    requires SaggedSpeed(b) != 0.0 && w.inWorld(b.origin, TraceEnd(b)) && !b.stuck
    requires w.trace(b.origin, TraceEnd(b), b.ignore, b.traceHull).fraction == 1.0
    requires !w.inWater(b.origin) && b.latency == 0.0
    ensures Step(b, w, d).bullet.origin == Add(TraceEnd(b), Vec3(0.0, 0.0, -0.4))
  {
    StepMiss(b, w, d);
    var s := SaggedSpeed(b);
    assert (b.dir.z - 0.4 / s) * s == b.dir.z * s - 0.4 / s * s;
    assert 0.4 / s * s == 0.4;
  }

  /**
   * A hit retires the bullet on the shooter, on the sky, and when the
   * surface rejects or traps it; otherwise it lives on only while faster
   * than the stop speed.
   */
  lemma ResolveHit(b: Bullet, tr: Trace, w: World, d: Draws)
    requires b.speed.Finite? && b.initialSpeed > 0.0 && IsNorm(w.norm) && w.speedModifier != 0.0
    requires tr.fraction != 1.0
    ensures var r := Resolve(b, tr, w, d);
            var i := EntityImpact(b, tr, w);
            var h := EndSolid(i.bullet, tr, w, d);
            && r.hits == i.hits
            && (r.alive <==> tr.hit != b.inflictor && !tr.sky
                             && (h.outcome == Ricocheted || h.outcome == Penetrated)
                             && !AtMost(h.bullet.speed, w.stopSpeed))
  {
  }

  /** The same bullet never damages the entity it damaged last a second time. */
  lemma NoSecondDamage(b: Bullet, tr: Trace, tr2: Trace, w: World)
    requires b.speed.Finite? && b.initialSpeed > 0.0
    requires tr2.hit == tr.hit
    ensures EntityImpact(EntityImpact(b, tr, w).bullet, tr2, w).hits == []
  {
  }

  /** A full-speed bullet deals exactly the rules' ammo damage. */
  lemma FullSpeedFullDamage(b: Bullet, tr: Trace, w: World)
    requires b.speed == Finite(b.initialSpeed) && b.initialSpeed > 0.0
    ensures var i := EntityImpact(b, tr, w);
            i.hits != [] ==>
              i.hits[0].damage == w.ammoDamage(b.inflictor, tr.hit, b.ammoType) &&
              i.hits[0].force == b.forceScale
  {
  }

  /**
   * A player a non-player's bullet has damaged joins its ignore list, so no
   * later impact of that bullet on the player deals damage, whatever it hit
   * in between.
   */
  lemma PlayerHitOnce(b: Bullet, tr: Trace, later: Bullet, tr2: Trace, w: World)
    requires b.speed.Finite? && b.initialSpeed > 0.0
    requires tr.hit.Entity? && !IsPlayer(w, b.inflictor) && w.isPlayer(tr.hit.id)
    requires EntityImpact(b, tr, w).hits != []
    requires later.speed.Finite? && later.initialSpeed > 0.0 && later.inflictor == b.inflictor
    requires EntityImpact(b, tr, w).bullet.ignore <= later.ignore
    requires tr2.hit == tr.hit
    ensures EntityImpact(later, tr2, w).hits == []
  {
  }
}

/** Properties of the surface-hit resolver. */
module SurfaceProperties {
  import opened Geometry
  import opened Bullets

  /** The side conditions of `EndSolid`. */
  predicate Ready(b: Bullet, w: World)
  {
    b.speed.Finite? && b.initialSpeed > 0.0 && w.speedModifier != 0.0
  }

  function Roll(b: Bullet, tr: Trace, w: World, d: Draws): int
  {
    d.roll(RicochetChance(w.material(tr.surfaceProps)))
  }

  /** The ricochet branch is taken exactly when the three tests pass. */
  lemma RicochetIff(b: Bullet, tr: Trace, w: World, d: Draws)
    requires Ready(b, w) && IsNorm(w.norm)
    ensures EndSolid(b, tr, w, d).outcome == Ricocheted <==>
              tr.surfaceName !in RejectedSurfaces &&
              Dot(b.dir, tr.normal) > -0.2 && b.speed.value / b.initialSpeed > 0.5 &&
              Roll(b, tr, w, d) <= 1
  {
  }

  /**
   * Whether a bullet ricochets does not depend on its interaction flag;
   * only penetration is barred to an interacted bullet.
   */
  lemma RicochetIgnoresInteraction(b: Bullet, tr: Trace, w: World, d: Draws)
    requires Ready(b, w) && IsNorm(w.norm)
    ensures EndSolid(b.(hasInteracted := true), tr, w, d).outcome == Ricocheted <==>
            EndSolid(b.(hasInteracted := false), tr, w, d).outcome == Ricocheted
    ensures EndSolid(b.(hasInteracted := true), tr, w, d).outcome != Penetrated
  {
  }

  /**
   * Penetration traps the bullet exactly when the exit probe starts solid,
   * the hit was at the trace's start, the probe found no exit, the surface
   * is a displacement or the bullet has interacted.
   */
  lemma StuckIff(b: Bullet, tr: Trace, w: World, d: Draws)
    requires Ready(b, w) && IsNorm(w.norm)
    requires EndSolid(b, tr, w, d).outcome != Rejected
    requires EndSolid(b, tr, w, d).outcome != Ricocheted
    ensures var m := w.material(tr.surfaceProps);
            var depth := PenetrationDepth(m, w.ammoDamage(b.inflictor, tr.hit, b.ammoType));
            var exit := w.probe(Add(tr.endpos, Scale(b.dir, depth)), tr.endpos, b.ignore);
            EndSolid(b, tr, w, d).outcome == Stuck <==>
              exit.startSolid || tr.fraction == 0.0 || exit.fraction == 1.0 ||
              tr.displacement || b.hasInteracted
  {
  }

  lemma MulNonNegative(a: real, c: real)
    requires a >= 0.0 && c >= 0.0
    ensures a * c >= 0.0
  {
    if a > 0.0 && c > 0.0 {
      calc {
        a * c;
      > 0.0 * c;
        0.0;
      }
    } else if a == 0.0 {
      assert a * c == 0.0 * c;
    } else {
      assert a * c == a * 0.0;
    }
  }

  /**
   * Passing through a surface of non-negative density never speeds the
   * bullet up when the speed modifier is positive, and the exit point is
   * the probe's end plus the new direction.
   */
  lemma PenetrationSlows(b: Bullet, tr: Trace, w: World, d: Draws)
    requires Ready(b, w) && IsNorm(w.norm)
    requires w.speedModifier > 0.0 && w.density(tr.surfaceProps) >= 0.0
    requires EndSolid(b, tr, w, d).outcome == Penetrated
    ensures var r := EndSolid(b, tr, w, d).bullet;
            r.speed.Finite? && r.speed.value <= b.speed.value
  {
    var m := w.material(tr.surfaceProps);
    var depth := PenetrationDepth(m, w.ammoDamage(b.inflictor, tr.hit, b.ammoType));
    var exit := w.probe(Add(tr.endpos, Scale(b.dir, depth)), tr.endpos, b.ignore);
    var dist := w.norm(Sub(tr.endpos, exit.endpos));
    var rho := w.density(tr.surfaceProps);
    assert dist >= 0.0;
    MulNonNegative(dist, rho * PassWallSpeedDecrease);
    var loss := dist * (rho * PassWallSpeedDecrease) / w.speedModifier;
    assert loss >= 0.0;
  }

  /**
   * The entry density the bullet carries in (including a ricochet's x0.2
   * decay) never reaches the result: every hit overwrites it from the
   * struck surface before using it.
   */
  lemma EntryDensityOverwritten(b: Bullet, tr: Trace, w: World, d: Draws, x: real, y: real)
    requires Ready(b, w) && IsNorm(w.norm)
    requires tr.surfaceName !in RejectedSurfaces
    ensures EndSolid(b.(entryDensity := x), tr, w, d) == EndSolid(b.(entryDensity := y), tr, w, d)
  {
  }

  /**
   * A ricochet without jitter mirrors the direction in a unit normal: the
   * normal component flips and the length is kept.  The entry density
   * decays to a fifth of the surface's and the bullet restarts one
   * direction-length off the hit point.
   */
  lemma RicochetMirror(b: Bullet, tr: Trace, w: World, d: Draws)
    requires Ready(b, w) && IsNorm(w.norm)
    requires EndSolid(b, tr, w, d).outcome == Ricocheted
    requires !w.singlePlayer || w.unrealRicochet
    requires Dot(tr.normal, tr.normal) == 1.0
    ensures var r := EndSolid(b, tr, w, d).bullet;
            && Dot(r.dir, tr.normal) == -Dot(b.dir, tr.normal)
            && Dot(r.dir, r.dir) == Dot(b.dir, b.dir)
            && r.entryDensity == 0.2 * w.density(tr.surfaceProps)
            && r.origin == Add(tr.endpos, r.dir)
  {
    var n := tr.normal;
    var u := b.dir;
    var k := Dot(u, n) * -2.0;
    ReflectDot(u, n);
    ReflectLength(u, n);
  }

  lemma ReflectDot(u: Vec3, n: Vec3)
    requires Dot(n, n) == 1.0
    ensures Dot(Reflect(u, n), n) == -Dot(u, n)
  {
    var k := Dot(u, n) * -2.0;
    assert Dot(Reflect(u, n), n) == Dot(u, n) + k * Dot(n, n);
  }

  lemma ReflectLength(u: Vec3, n: Vec3)
    requires Dot(n, n) == 1.0
    ensures Dot(Reflect(u, n), Reflect(u, n)) == Dot(u, u)
  {
    var c := Dot(u, n);
    var k := c * -2.0;
    var r := Reflect(u, n);
    assert Dot(r, r) == Dot(u, u) + 2.0 * k * c + k * k * Dot(n, n);
    assert k * k * Dot(n, n) == k * k;
    assert 2.0 * k * c + k * k == 0.0;
  }

  /**
   * An ordinary ricochet off a surface the bullet was not moving into
   * (dot >= 0) leaves a positive speed neither positive nor finite, so the
   * bullet is retired at the latest by its next step.
   */
  lemma EdgeOnRicochetRetires(b: Bullet, tr: Trace, w: World, d: Draws)
    requires Ready(b, w) && IsNorm(w.norm)
    requires 0.005 <= d.ricochetScale
    requires EndSolid(b, tr, w, d).outcome == Ricocheted
    requires !w.unrealRicochet && Dot(b.dir, tr.normal) >= 0.0 && b.speed.value > 0.0
    ensures var s := EndSolid(b, tr, w, d).bullet.speed;
            !(s.Finite? && s.value > 0.0)
  {
    var dot := Dot(b.dir, tr.normal);
    if dot > 0.0 {
      var k := if w.singlePlayer then d.ricochetScale else 0.025;
      var f := (1.0 / -dot) * k;
      assert 1.0 / -dot < 0.0;
      assert f < 0.0;
      assert b.speed.value * f < 0.0;
    }
  }
}
