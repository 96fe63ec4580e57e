/**
 * The documented examples of nbp/bodies/body.py, stated over exact reals.
 * Where the printed value is a rounded float, the example states the
 * exact value and, for the surface gravity, the interval the printed
 * digits give.
 */
module BodyExamples {
  import opened Vectors
  import opened Bodies
  import opened BodyLaws

  /** The Earth/Moon example of `absolute_distance_to_one`. */
  lemma EarthMoonAbsoluteDistance(earth: Body, moon: Body)
    requires earth.position == Vec3(149600000000.0, 0.0, 0.0)
    requires moon.position == Vec3(149600000000.0, 384400000.0, 0.0)
    ensures moon.IsAbsoluteDistanceTo(earth, 384400000.0)
  {
    assert Sub(earth.position, moon.position) == Vec3(0.0, -384400000.0, 0.0);
  }

  /** The Moon-to-Earth example of `distance_to`. */
  method MoonEarthDistanceExample() returns (d: Vec3)
    ensures d == Vec3(1000000000.0, -384400000.0, 600.0)
  {
    var earth := new Body("Earth", 5972000000000000000000000.0, 100.0,
                          Vec3(150600000000.0, 0.0, 100.0), Vec3(0.0, 29290.0, 0.0));
    var moon := new Body("Moon", 73500000000000000000000.0, 100.0,
                         Vec3(149600000000.0, 384400000.0, -500.0), Vec3(1050.0, 29290.0, 0.0));
    d := moon.DistanceTo(earth);
  }

  /**
   * The one-kilogram body on the Earth's surface: exactly G * M / R^2
   * towards the Earth, which lies between 9.81964 and 9.81965.
   */
  lemma SurfaceGravityExample(kg: Body, earth: Body)
    requires kg != earth
    requires earth.mass == 5972000000000000000000000.0 && earth.position == Zero
    requires kg.mass == 1.0 && kg.position == Vec3(0.0, 6371000.0, 0.0)
    ensures kg.IsAbsoluteDistanceTo(earth, 6371000.0)
    ensures kg.AccelerationToOne(earth, 6371000.0)
            == Vec3(0.0, -(G * 5972000000000000000000000.0 / (6371000.0 * 6371000.0)), 0.0)
    ensures -9.81965 < kg.AccelerationToOne(earth, 6371000.0).y < -9.81964
  {
  }

  /**
   * The configuration of the six-Earth example, for any radius `R` and any
   * fifth position `(x, y, z)` at distance `r5`: a body at the origin,
   * listed first, with three pairs of equal masses at opposite positions,
   * feels no total acceleration.
   */
  lemma SixEarthsBalance(kg: Body, e: seq<Body>, R: real, x: real, y: real, z: real, r5: real)
    requires |e| == 6 && kg !in e && kg.position == Zero && kg.mass != 0.0
    requires e[0].mass == e[1].mass && e[2].mass == e[3].mass && e[4].mass == e[5].mass
    requires e[0].position == Vec3(0.0, R, 0.0) && e[1].position == Vec3(0.0, -R, 0.0)
    requires e[2].position == Vec3(R, 0.0, 0.0) && e[3].position == Vec3(-R, 0.0, 0.0)
    requires e[4].position == Vec3(x, y, z) && e[5].position == Vec3(-x, -y, -z)
    requires R > 0.0 && IsNorm(Vec3(x, y, z), r5) && r5 > 0.0
    ensures kg.DistancesValid([kg] + e, [0.0, R, R, R, R, r5, r5])
    ensures kg.TotalAcceleration([kg] + e, [0.0, R, R, R, R, r5, r5]) == Zero
  {
    assert IsNorm(e[0].position, R) && IsNorm(e[2].position, R);
    ThreePairsAroundOrigin(kg, e[0], e[1], e[2], e[3], e[4], e[5], R, R, r5);
    assert [kg] + e == [kg, e[0], e[1], e[2], e[3], e[4], e[5]];
  }

  /**
   * The first example of `calculate_velocity`: after a step of 314 seconds
   * the velocity of the one-kilogram body among six Earths is still zero.
   * `r5` is the distance to the fifth and sixth Earths.
   */
  method SixEarthsVelocityExample(r5: real) returns (v: Vec3)
    requires IsNorm(Vec3(6371000.0, 9000.0, -532.0), r5)
    ensures v == Zero
  {
    var kg := new Body("kg", 1.0, 100.0, Zero, Zero);
    var e1 := new Body("Earth1", 5972000000000000000000000.0, 100.0, Vec3(0.0, 6371000.0, 0.0), Zero);
    var e2 := new Body("Earth2", 5972000000000000000000000.0, 100.0, Vec3(0.0, -6371000.0, 0.0), Zero);
    var e3 := new Body("Earth3", 5972000000000000000000000.0, 100.0, Vec3(6371000.0, 0.0, 0.0), Zero);
    var e4 := new Body("Earth4", 5972000000000000000000000.0, 100.0, Vec3(-6371000.0, 0.0, 0.0), Zero);
    var e5 := new Body("Earth5", 5972000000000000000000000.0, 100.0, Vec3(6371000.0, 9000.0, -532.0), Zero);
    var e6 := new Body("Earth6", 5972000000000000000000000.0, 100.0, Vec3(-6371000.0, -9000.0, 532.0), Zero);
    NormZeroIff(Vec3(6371000.0, 9000.0, -532.0), r5);
    SixEarthsBalance(kg, [e1, e2, e3, e4, e5, e6], 6371000.0, 6371000.0, 9000.0, -532.0, r5);
    kg.CalculateVelocity([kg] + [e1, e2, e3, e4, e5, e6],
                         [0.0, 6371000.0, 6371000.0, 6371000.0, 6371000.0, r5, r5], 314.0);
    v := kg.velocity;
  }

  /** The example of `calculate_position`. */
  method PositionStepExample() returns (p: Vec3)
    ensures p == Vec3(72.0, 10.6, -3.0)
  {
    var body := new Body("Test_body", 1.0, 1.0, Vec3(60.0, -20.0, 15.0), Vec3(4.0, 10.2, -6.0));
    body.CalculatePosition(3.0);
    p := body.position;
  }
}
