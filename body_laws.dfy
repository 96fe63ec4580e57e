/**
 * What the physics kernel of nbp/bodies/body.py promises: the laws of the
 * distance and acceleration operations and of their sum over a list of
 * bodies, which hold exactly over the reals.
 */
module BodyLaws {
  import opened Vectors
  import opened Bodies

  // ---------------------------------------------------------------------
  // Distance

  /** The displacement is antisymmetric, including for a body and itself. */
  lemma DistanceAntisymmetric(a: Body, b: Body)
    ensures a.DistanceTo(b) == Neg(b.DistanceTo(a))
  {
  }

  /** The absolute distance is non-negative and the same in both directions. */
  lemma AbsoluteDistanceSymmetric(a: Body, b: Body, r: real)
    requires a.IsAbsoluteDistanceTo(b, r)
    ensures r >= 0.0 && b.IsAbsoluteDistanceTo(a, r)
  {
    NormNeg(Sub(b.position, a.position), r);
    assert Neg(Sub(b.position, a.position)) == Sub(a.position, b.position);
  }

  /** The absolute distance is determined by the two positions. */
  lemma AbsoluteDistanceUnique(a: Body, b: Body, r1: real, r2: real)
    requires a.IsAbsoluteDistanceTo(b, r1) && a.IsAbsoluteDistanceTo(b, r2)
    ensures r1 == r2
  {
    NormUnique(Sub(b.position, a.position), r1, r2);
  }

  /** The absolute distance is zero exactly when the positions coincide. */
  lemma AbsoluteDistanceZero(a: Body, b: Body, r: real)
    requires a.IsAbsoluteDistanceTo(b, r)
    ensures r == 0.0 <==> a.position == b.position
  {
    NormZeroIff(Sub(b.position, a.position), r);
    SubZeroIff(b.position, a.position);
  }

  // ---------------------------------------------------------------------
  // Acceleration

  /** The acted-on body's own mass does not enter its acceleration. */
  lemma AccelerationIndependentOfOwnMass(a1: Body, a2: Body, b: Body, r: real)
    requires a1 != b && a2 != b && a1.position == a2.position
    requires a1.IsAbsoluteDistanceTo(b, r) && r > 0.0 && a1.mass != 0.0 && a2.mass != 0.0
    ensures a1.AccelerationToOne(b, r) == a2.AccelerationToOne(b, r)
  {
  }

  /**
   * Two bodies of equal mass placed at `p` and `-p` around a body pull it
   * with opposite, cancelling accelerations.
   */
  lemma OppositePairCancels(self: Body, b: Body, c: Body, rb: real, rc: real)
    requires self != b && self != c && b.mass == c.mass && self.mass != 0.0
    requires Sub(c.position, self.position) == Neg(Sub(b.position, self.position))
    requires self.IsAbsoluteDistanceTo(b, rb) && rb > 0.0
    requires self.IsAbsoluteDistanceTo(c, rc) && rc > 0.0
    ensures Add(self.AccelerationToOne(b, rb), self.AccelerationToOne(c, rc)) == Zero
  {
    NormNeg(Sub(b.position, self.position), rb);
    NormUnique(Sub(c.position, self.position), rb, rc);
  }

  // ---------------------------------------------------------------------
  // Sum over a list of bodies

  /** A list made of one such pair contributes nothing in total. */
  lemma OppositePairTotal(self: Body, b: Body, c: Body, rb: real, rc: real)
    requires self != b && self != c && b.mass == c.mass && self.mass != 0.0
    requires Sub(c.position, self.position) == Neg(Sub(b.position, self.position))
    requires self.IsAbsoluteDistanceTo(b, rb) && rb > 0.0
    requires self.IsAbsoluteDistanceTo(c, rc) && rc > 0.0
    ensures self.DistancesValid([b, c], [rb, rc])
    ensures self.TotalAcceleration([b, c], [rb, rc]) == Zero
  {
    assert [b, c][..1] == [b] && [rb, rc][..1] == [rb];
    assert [b][..0] == [] && [rb][..0] == [];
    assert self.DistancesValid([b, c], [rb, rc]);
    var ab, ac := self.AccelerationToOne(b, rb), self.AccelerationToOne(c, rc);
    assert self.TotalAcceleration([b], [rb]) == Add(Zero, ab);
    assert self.TotalAcceleration([b, c], [rb, rc]) == Add(Add(Zero, ab), ac);
    OppositePairCancels(self, b, c, rb, rc);
  }

  /** Valid distances for two lists are valid for their concatenation. */
  lemma {:induction false} DistancesValidAppend(self: Body, xs: seq<Body>, dx: seq<real>,
                                                ys: seq<Body>, dy: seq<real>)
    requires self.DistancesValid(xs, dx) && self.DistancesValid(ys, dy)
    ensures self.DistancesValid(xs + ys, dx + dy)
    decreases |ys|
  {
    if |ys| == 0 {
      assert xs + ys == xs && dx + dy == dx;
    } else {
      var n := |ys| - 1;
      DistancesValidAppend(self, xs, dx, ys[..n], dy[..n]);
      assert (xs + ys)[..|xs| + n] == xs + ys[..n];
      assert (dx + dy)[..|dx| + n] == dx + dy[..n];
    }
  }

  /** The total over a concatenation is the sum of the two totals. */
  lemma {:induction false} TotalAccelerationAppend(self: Body, xs: seq<Body>, dx: seq<real>,
                                                   ys: seq<Body>, dy: seq<real>)
    requires self.DistancesValid(xs, dx) && self.DistancesValid(ys, dy)
    requires self.DistancesValid(xs + ys, dx + dy)
    ensures self.TotalAcceleration(xs + ys, dx + dy)
            == Add(self.TotalAcceleration(xs, dx), self.TotalAcceleration(ys, dy))
    decreases |ys|
  {
    if |ys| == 0 {
      assert xs + ys == xs && dx + dy == dx;
      AddZero(self.TotalAcceleration(xs, dx));
    } else {
      var n := |ys| - 1;
      assert (xs + ys)[..|xs| + n] == xs + ys[..n];
      assert (dx + dy)[..|dx| + n] == dx + dy[..n];
      TotalAccelerationAppend(self, xs, dx, ys[..n], dy[..n]);
      AddAssoc(self.TotalAcceleration(xs, dx), self.TotalAcceleration(ys[..n], dy[..n]),
               self.AccelerationToOne(ys[n], dy[n]));
    }
  }

  /** The body itself, wherever it is listed, contributes nothing. */
  lemma TotalAccelerationSkipsSelf(self: Body, xs: seq<Body>, dx: seq<real>,
                                   ys: seq<Body>, dy: seq<real>, d: real)
    requires self.DistancesValid(xs, dx) && self.DistancesValid(ys, dy)
    ensures self.DistancesValid(xs + [self] + ys, dx + [d] + dy)
    ensures self.DistancesValid(xs + ys, dx + dy)
    ensures self.TotalAcceleration(xs + [self] + ys, dx + [d] + dy)
            == self.TotalAcceleration(xs + ys, dx + dy)
  {
    assert self.TotalAcceleration([self], [d]) == Zero by {
      assert [self][..0] == [] && [d][..0] == [];
    }
    assert self.DistancesValid([self], [d]) by {
      assert [self][..0] == [] && [d][..0] == [];
    }
    DistancesValidAppend(self, xs, dx, [self], [d]);
    DistancesValidAppend(self, xs + [self], dx + [d], ys, dy);
    DistancesValidAppend(self, xs, dx, ys, dy);
    TotalAccelerationAppend(self, xs, dx, [self], [d]);
    TotalAccelerationAppend(self, xs + [self], dx + [d], ys, dy);
    TotalAccelerationAppend(self, xs, dx, ys, dy);
  }

  /** Seen from a body at the origin, the distance to `b` is the norm of its position. */
  lemma SeenFromOrigin(self: Body, b: Body, r: real)
    requires self.position == Zero && IsNorm(b.position, r)
    ensures self.IsAbsoluteDistanceTo(b, r)
  {
    assert Sub(b.position, self.position) == b.position;
  }

  /**
   * A body listed first, followed by pairs that each contribute nothing,
   * feels no total acceleration.
   */
  lemma SelfThenNullPairs(self: Body, d: real, p1: seq<Body>, d1: seq<real>,
                          p2: seq<Body>, d2: seq<real>, p3: seq<Body>, d3: seq<real>)
    requires self.DistancesValid(p1, d1) && self.TotalAcceleration(p1, d1) == Zero
    requires self.DistancesValid(p2, d2) && self.TotalAcceleration(p2, d2) == Zero
    requires self.DistancesValid(p3, d3) && self.TotalAcceleration(p3, d3) == Zero
    ensures self.DistancesValid([self] + p1 + p2 + p3, [d] + d1 + d2 + d3)
    ensures self.TotalAcceleration([self] + p1 + p2 + p3, [d] + d1 + d2 + d3) == Zero
  {
    TotalAccelerationSkipsSelf(self, [], [], p1, d1, d);
    assert [] + [self] + p1 == [self] + p1 && [] + [d] + d1 == [d] + d1;
    assert [] + p1 == p1 && [] + d1 == d1;
    DistancesValidAppend(self, [self] + p1, [d] + d1, p2, d2);
    TotalAccelerationAppend(self, [self] + p1, [d] + d1, p2, d2);
    DistancesValidAppend(self, [self] + p1 + p2, [d] + d1 + d2, p3, d3);
    TotalAccelerationAppend(self, [self] + p1 + p2, [d] + d1 + d2, p3, d3);
    AddZero(Zero);
  }

  /** A pair of equal masses placed at `p` and `-p` around a body at the origin. */
  lemma PairAroundOrigin(self: Body, b: Body, c: Body, r: real)
    requires self != b && self != c && self.position == Zero && self.mass != 0.0
    requires b.mass == c.mass && c.position == Neg(b.position)
    requires IsNorm(b.position, r) && r > 0.0
    ensures self.DistancesValid([b, c], [r, r])
    ensures self.TotalAcceleration([b, c], [r, r]) == Zero
  {
    NormNeg(b.position, r);
    SeenFromOrigin(self, b, r);
    SeenFromOrigin(self, c, r);
    OppositePairTotal(self, b, c, r, r);
  }

  /**
   * A body at the origin, listed first, then three pairs of equal masses
   * each placed at `p` and `-p`, feels no total acceleration.
   */
  lemma ThreePairsAroundOrigin(self: Body, b1: Body, c1: Body, b2: Body, c2: Body,
                               b3: Body, c3: Body, r1: real, r2: real, r3: real)
    requires self !in {b1, c1, b2, c2, b3, c3} && self.position == Zero && self.mass != 0.0
    requires b1.mass == c1.mass && c1.position == Neg(b1.position) && IsNorm(b1.position, r1) && r1 > 0.0
    requires b2.mass == c2.mass && c2.position == Neg(b2.position) && IsNorm(b2.position, r2) && r2 > 0.0
    requires b3.mass == c3.mass && c3.position == Neg(b3.position) && IsNorm(b3.position, r3) && r3 > 0.0
    ensures self.DistancesValid([self, b1, c1, b2, c2, b3, c3], [0.0, r1, r1, r2, r2, r3, r3])
    ensures self.TotalAcceleration([self, b1, c1, b2, c2, b3, c3], [0.0, r1, r1, r2, r2, r3, r3]) == Zero
  {
    PairAroundOrigin(self, b1, c1, r1);
    PairAroundOrigin(self, b2, c2, r2);
    PairAroundOrigin(self, b3, c3, r3);
    SelfThenNullPairs(self, 0.0, [b1, c1], [r1, r1], [b2, c2], [r2, r2], [b3, c3], [r3, r3]);
    assert [self] + [b1, c1] + [b2, c2] + [b3, c3] == [self, b1, c1, b2, c2, b3, c3];
    assert [0.0] + [r1, r1] + [r2, r2] + [r3, r3] == [0.0, r1, r1, r2, r2, r3, r3];
  }

  // ---------------------------------------------------------------------
  // Integration steps

  /**
   * One tick of a single body as the third example of `calculate_velocity`
   * runs it: the velocity step, then the position step, which moves the
   * body with the new velocity.
   */
  method VelocityThenPosition(body: Body, bodies: seq<Body>, dists: seq<real>, deltaTime: real)
    requires body.DistancesValid(bodies, dists)
    modifies body
    ensures body.velocity
            == Add(old(body.velocity), Scale(deltaTime, old(body.TotalAcceleration(bodies, dists))))
    ensures body.position == Add(old(body.position), Scale(deltaTime, body.velocity))
  {
    body.CalculateVelocity(bodies, dists, deltaTime);
    body.CalculatePosition(deltaTime);
  }
}
