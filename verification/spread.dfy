/**
 * `GetBulletSpread` of the AR2, the sniper rifle and the rifle.  Each keeps
 * its cone in a function-local static: with no player owner the static is
 * returned as it stands; for a player it is recomputed from the held
 * buttons (the later tests override the earlier ones) and stored, scaled
 * where the weapon scales it.
 *
 * The `VECTOR_CONE_*` constants live in a header that is not part of this
 * model, so a cone is named symbolically: which constant, times the integer
 * factor the weapon multiplied it by.
 */
module Spread {

  /** `vec3_origin`, or `VECTOR_CONE_<n>DEGREES`. */
  datatype ConeName = Origin | Degrees(n: nat)

  /** A stored cone vector: a named constant scaled by `factor`. */
  datatype Cone = Cone(name: ConeName, factor: nat)

  /** The `IN_*` bits of `m_nButtons` the spread rules test. */
  datatype Buttons = Buttons(
    duck: bool, forward: bool, back: bool, moveRight: bool, moveLeft: bool,
    run: bool, speed: bool, jump: bool)

  predicate Moving(b: Buttons)
  {
    b.forward || b.back || b.moveRight || b.moveLeft
  }

  predicate Running(b: Buttons)
  {
    b.run || b.speed || b.jump
  }

  /**
   * The chain of eight `if`s: the duck/stand choice, overridden by any
   * movement bit, overridden by run, speed or jump.
   */
  function Select(b: Buttons, duck: ConeName, stand: ConeName, move: ConeName, run: ConeName): (c: ConeName)
    ensures Running(b) ==> c == run
    ensures !Running(b) && Moving(b) ==> c == move
    ensures !Running(b) && !Moving(b) && b.duck ==> c == duck
    ensures !Running(b) && !Moving(b) && !b.duck ==> c == stand
  {
    var c0 := if b.duck then duck else stand;
    var c1 := if b.forward then move else c0;
    var c2 := if b.back then move else c1;
    var c3 := if b.moveRight then move else c2;
    var c4 := if b.moveLeft then move else c3;
    var c5 := if b.run then run else c4;
    var c6 := if b.speed then run else c5;
    if b.jump then run else c6
  }

  /** C's `/` on the non-negative shot counter. */
  function ShotsFactor(shotsFired: nat): (f: nat)
    ensures f >= 1
    ensures shotsFired < 10 ==> f == 1
    ensures (f - 1) * 10 <= shotsFired < f * 10
  {
    1 + shotsFired / 10
  }

  /** The AR2's static before its first call. */
  const Ar2Initial: Cone := Cone(Degrees(3), 1)

  /**
   * The AR2: 0 degrees ducking, else 1; moving 2; running, sprinting or
   * jumping 3; then scaled by one more for every ten shots fired.
   */
  function Ar2Spread(cone: Cone, hasPlayer: bool, b: Buttons, shotsFired: nat): (r: Cone)
    ensures !hasPlayer ==> r == cone
    ensures hasPlayer ==> r.name == Select(b, Degrees(0), Degrees(1), Degrees(2), Degrees(3))
    ensures hasPlayer ==> (r.factor == 1 <==> shotsFired < 10)
    ensures hasPlayer ==> (r.factor - 1) * 10 <= shotsFired < r.factor * 10
  {
    if !hasPlayer then cone
    else Cone(Select(b, Degrees(0), Degrees(1), Degrees(2), Degrees(3)), ShotsFactor(shotsFired))
  }

  /** The sniper rifle's static before its first call. */
  const SniperInitial: Cone := Cone(Degrees(1), 1)

  /**
   * The sniper rifle: the zero vector ducking, else 0 degrees; moving 1;
   * running, sprinting or jumping 2; tripled when not zoomed in.
   */
  function SniperSpread(cone: Cone, hasPlayer: bool, b: Buttons, inZoom: bool): (r: Cone)
    ensures !hasPlayer ==> r == cone
    ensures hasPlayer ==> r.name == Select(b, Origin, Degrees(0), Degrees(1), Degrees(2))
    ensures hasPlayer ==> (r.factor == 3 <==> !inZoom) && (r.factor == 1 <==> inZoom)
  {
    if !hasPlayer then cone
    else
      var c := Cone(Select(b, Origin, Degrees(0), Degrees(1), Degrees(2)), 1);
      if !inZoom then c.(factor := c.factor * 3) else c
  }

  /** The rifle's static before its first call. */
  const RifleInitial: Cone := Cone(Degrees(4), 1)

  /** The rifle: 0 degrees ducking, else 1; moving 3; running, sprinting or jumping 6. */
  function RifleSpread(cone: Cone, hasPlayer: bool, b: Buttons): (r: Cone)
    ensures !hasPlayer ==> r == cone
    ensures hasPlayer ==> r.name == Select(b, Degrees(0), Degrees(1), Degrees(3), Degrees(6)) && r.factor == 1
  {
    if !hasPlayer then cone
    else Cone(Select(b, Degrees(0), Degrees(1), Degrees(3), Degrees(6)), 1)
  }

  /**
   * The static does not accumulate: a player's cone depends only on this
   * call's inputs, never on what an earlier call stored, while an NPC
   * owner keeps getting whatever the last player call left behind.
   */
  lemma NoAccumulation(c1: Cone, c2: Cone, b: Buttons, shotsFired: nat, inZoom: bool)
    ensures Ar2Spread(c1, true, b, shotsFired) == Ar2Spread(c2, true, b, shotsFired)
    ensures SniperSpread(c1, true, b, inZoom) == SniperSpread(c2, true, b, inZoom)
    ensures RifleSpread(c1, true, b) == RifleSpread(c2, true, b)
  {
  }

  /**
   * An NPC owner's cone is its weapon's initial cone until a player has
   * fired it, and afterwards the last player cone, scaled factor included.
   */
  lemma NpcSeesLastPlayerCone(cone: Cone, b: Buttons, shotsFired: nat, inZoom: bool)
    ensures Ar2Spread(Ar2Spread(cone, true, b, shotsFired), false, b, 0) == Ar2Spread(cone, true, b, shotsFired)
    ensures SniperSpread(SniperSpread(cone, true, b, inZoom), false, b, inZoom) == SniperSpread(cone, true, b, inZoom)
    ensures Ar2Spread(Ar2Initial, false, b, shotsFired) == Cone(Degrees(3), 1)
    ensures SniperSpread(SniperInitial, false, b, inZoom) == Cone(Degrees(1), 1)
    ensures RifleSpread(RifleInitial, false, b) == Cone(Degrees(4), 1)
  {
  }

  /**
   * The button priority as a ranking: the run group beats the movement
   * group, which beats the duck/stand choice; a weapon whose cones grow
   * with the group (as all three do) never gets a narrower cone by
   * adding a button of a higher group.
   */
  lemma MoreMovementNeverNarrower(b: Buttons, b2: Buttons)
    requires Rank(b) <= Rank(b2)
    ensures Degree(Select(b, Degrees(0), Degrees(1), Degrees(2), Degrees(3))) <=
            Degree(Select(b2, Degrees(0), Degrees(1), Degrees(2), Degrees(3)))
    ensures Degree(Select(b, Origin, Degrees(0), Degrees(1), Degrees(2))) <=
            Degree(Select(b2, Origin, Degrees(0), Degrees(1), Degrees(2)))
    ensures Degree(Select(b, Degrees(0), Degrees(1), Degrees(3), Degrees(6))) <=
            Degree(Select(b2, Degrees(0), Degrees(1), Degrees(3), Degrees(6)))
  {
  }

  /** 0 ducking, 1 standing, 2 moving, 3 running. */
  function Rank(b: Buttons): nat
  {
    if Running(b) then 3 else if Moving(b) then 2 else if b.duck then 0 else 1
  }

  /** A cone's angle, the zero vector counting as none. */
  function Degree(c: ConeName): nat
  {
    match c
    case Origin => 0
    case Degrees(n) => n
  }
}
