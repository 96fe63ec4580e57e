/**
 * A gravitating point mass (nbp/bodies/body.py). A body is an object with
 * identity: "the same body" means the same reference, never equal fields.
 *
 * The Euclidean norm is not computable over Dafny's reals, so every
 * operation that needs the distance between two bodies receives it as an
 * argument, constrained by `IsAbsoluteDistanceTo`.
 */
module Bodies {
  import opened Vectors

  /** The gravitational constant, 6.67408 * 10^-11. */
  const G: real := 0.0000000000667408

  /**
   * The pull on a body of mass `ms` from a body of mass `mo` displaced by
   * `d` at distance `r`, in the source's order of operations: the force
   * G * ms * mo / r^2, then the force per unit distance, then division of
   * `d` scaled by it by the acted-on mass. That mass cancels: the result is
   * G * mo * d / r^3.
   */
  function Pull(d: Vec3, ms: real, mo: real, r: real): (a: Vec3)
    requires r > 0.0 && ms != 0.0
    ensures a == Scale(G * mo / (r * r * r), d)
  {
    var force := G * ((ms * mo) / (r * r));
    var forceRatio := force / r;
    ForceRatio(ms, mo, r);
    DivScale(forceRatio, G * mo / (r * r * r), ms, d);
    Div(Scale(forceRatio, d), ms)
  }

  /** The force per unit distance is the acted-on mass times G * mo / r^3. */
  lemma ForceRatio(ms: real, mo: real, r: real)
    requires r > 0.0
    ensures (G * ((ms * mo) / (r * r))) / r == (G * mo / (r * r * r)) * ms
  {
  }

  /** Scaling by `f == k * m` and then dividing by `m` scales by `k`. */
  lemma DivScale(f: real, k: real, m: real, d: Vec3)
    requires m != 0.0 && f == k * m
    ensures Div(Scale(f, d), m) == Scale(k, d)
  {
    assert (k * m * d.x) / m == k * d.x;
    assert (k * m * d.y) / m == k * d.y;
    assert (k * m * d.z) / m == k * d.z;
  }

  class Body {
    var name: string
    var mass: real
    var radius: real
    var position: Vec3
    var velocity: Vec3

    constructor (name: string, mass: real, radius: real, position: Vec3, velocity: Vec3)
      ensures this.name == name && this.mass == mass && this.radius == radius
      ensures this.position == position && this.velocity == velocity
    {
      this.name, this.mass, this.radius := name, mass, radius;
      this.position := position;
      this.velocity := velocity;
    }

    /** The displacement from this body to `other`; zero for the body itself. */
    function DistanceTo(other: Body): (d: Vec3)
      reads this, other
      ensures this == other ==> d == Zero
      ensures this != other ==> Add(position, d) == other.position
    {
      if this == other then Zero else Sub(other.position, position)
    }

    /**
     * `r` is what `absolute_distance_to_one` returns: the norm of
     * `other.position - position`, with no identity check.
     */
    function IsAbsoluteDistanceTo(other: Body, r: real): (isDistance: bool)
      reads this, other
      ensures isDistance ==> r >= 0.0
      ensures isDistance && this == other ==> r == 0.0
    {
      var d := Sub(other.position, position);
      if IsNorm(d, r) then NormZeroIff(d, r); true else false
    }

    /**
     * The gravitational pull of `other` on this body, given `r`, the
     * distance between the two; zero, with no division, for the body itself.
     */
    function AccelerationToOne(other: Body, r: real): (a: Vec3)
      reads this, other
      requires CanBePulledBy(other, r)
      ensures this == other ==> a == Zero
      ensures this != other ==> a == Scale(G * other.mass / (r * r * r), DistanceTo(other))
    {
      if this == other then Zero else Pull(Sub(other.position, position), mass, other.mass, r)
    }

    /**
     * The pull of `other` is defined: it is this body itself, or `r` is the
     * distance to it, the two do not coincide and this body has a mass to
     * divide by.
     */
    predicate CanBePulledBy(other: Body, r: real)
      reads this, other
    {
      this == other || (IsAbsoluteDistanceTo(other, r) && r > 0.0 && mass != 0.0)
    }

    /** `dists[i]` is the distance to `bodies[i]`, for which the pull is defined. */
    predicate DistancesValid(bodies: seq<Body>, dists: seq<real>)
      reads this, bodies
      decreases |bodies|
    {
      |dists| == |bodies| &&
      (|bodies| > 0 ==>
         var n := |bodies| - 1;
         DistancesValid(bodies[..n], dists[..n]) && CanBePulledBy(bodies[n], dists[n]))
    }

    /** Every prefix of valid distances is valid, and so is each entry. */
    lemma {:induction false} DistancesValidPrefix(bodies: seq<Body>, dists: seq<real>, i: nat)
      requires DistancesValid(bodies, dists) && i < |bodies|
      ensures DistancesValid(bodies[..i], dists[..i]) && CanBePulledBy(bodies[i], dists[i])
      decreases |bodies|
    {
      var n := |bodies| - 1;
      if i < n {
        DistancesValidPrefix(bodies[..n], dists[..n], i);
        assert bodies[..n][..i] == bodies[..i] && dists[..n][..i] == dists[..i];
      }
    }

    /** The sum over the first i + 1 bodies adds the pull of body i to the sum over the first i. */
    lemma TotalAccelerationStep(bodies: seq<Body>, dists: seq<real>, i: nat)
      requires DistancesValid(bodies, dists) && i < |bodies|
      ensures DistancesValid(bodies[..i], dists[..i]) && CanBePulledBy(bodies[i], dists[i])
      ensures DistancesValid(bodies[..i + 1], dists[..i + 1])
      ensures TotalAcceleration(bodies[..i + 1], dists[..i + 1])
              == Add(TotalAcceleration(bodies[..i], dists[..i]), AccelerationToOne(bodies[i], dists[i]))
    {
      DistancesValidPrefix(bodies, dists, i);
      assert bodies[..i + 1][..i] == bodies[..i];
      assert dists[..i + 1][..i] == dists[..i];
    }

    /** The left-to-right sum of the pulls of `bodies` on this body. */
    function TotalAcceleration(bodies: seq<Body>, dists: seq<real>): Vec3
      reads this, bodies
      requires DistancesValid(bodies, dists)
      decreases |bodies|
    {
      if |bodies| == 0 then Zero
      else
        var n := |bodies| - 1;
        Add(TotalAcceleration(bodies[..n], dists[..n]), AccelerationToOne(bodies[n], dists[n]))
    }

    method AccelerationToAll(bodies: seq<Body>, dists: seq<real>) returns (total: Vec3)
      requires DistancesValid(bodies, dists)
      ensures total == TotalAcceleration(bodies, dists)
    {
      total := Zero;
      for i := 0 to |bodies|
        invariant DistancesValid(bodies[..i], dists[..i])
        invariant total == TotalAcceleration(bodies[..i], dists[..i])
      {
        TotalAccelerationStep(bodies, dists, i);
        total := Add(total, AccelerationToOne(bodies[i], dists[i]));
      }
      assert bodies[..|bodies|] == bodies && dists[..|dists|] == dists;
    }

    /** One explicit Euler step of the position. */
    method CalculatePosition(deltaTime: real)
      modifies this
      ensures position == Add(old(position), Scale(deltaTime, old(velocity)))
      ensures velocity == old(velocity) && mass == old(mass)
      ensures name == old(name) && radius == old(radius)
    {
      position := Add(position, Scale(deltaTime, velocity));
    }

    /** One explicit Euler step of the velocity, from the current positions. */
    method CalculateVelocity(bodies: seq<Body>, dists: seq<real>, deltaTime: real)
      requires DistancesValid(bodies, dists)
      modifies this
      ensures velocity == Add(old(velocity), Scale(deltaTime, old(TotalAcceleration(bodies, dists))))
      ensures position == old(position) && mass == old(mass)
      ensures name == old(name) && radius == old(radius)
      ensures forall b :: b in bodies ==> b.position == old(b.position) && b.mass == old(b.mass)
    {
      var a := AccelerationToAll(bodies, dists);
      assert a == TotalAcceleration(bodies, dists);
      velocity := Add(velocity, Scale(deltaTime, a));
      assert velocity == Add(old(velocity), Scale(deltaTime, a));
    }
  }
}
