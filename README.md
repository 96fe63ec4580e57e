# N-body physics simulator: bodies and the broadcast loop

This project models two sequential parts of the N-body physics simulator.

- **The physics kernel** (`nbp/bodies/body.py`, class `Body`). A body is a point
  mass with a position and a velocity in three dimensions. It gives:
  - the displacement to another body, and its Euclidean length;
  - the Newtonian pull of one body on another, with G = 6.67408e-11;
  - the in-order sum of those pulls over a list of bodies;
  - explicit Euler steps that update the position and the velocity in place.

  `Body` is a Dafny class (module `Bodies`), and "the same body" is reference
  equality. Vectors are exact real triples (module `Vectors`). Dafny's reals have
  no square root, so every operation that needs the length of a displacement
  receives it as an argument `r`. The argument is pinned down by `IsNorm`
  (`r >= 0` and `r * r` equal to the squared length). `BodyLaws` states the
  laws of distance and acceleration. `BodyExamples` states the documented
  examples that are exact over the reals, and the surface-gravity example
  as its exact value and an interval around the printed float.
- **The broadcast loop of the command-line front end** (`nbp/cli.py`,
  `Cli.start_application` and `Cli.close_application`), in module `Cli`.
  - It opens one pipe per output writer and sends `start` on each.
  - It then forwards every state of a finite stream as `data` until a limit fires.
  - It sends `end` on every pipe and stops.

  A pipe is an object whose `sent` field is its ordered message log. The loop
  also returns a ghost trace of every send and every pull, in order; the
  program itself keeps no such record. The functions
  `Cut`, `ChannelLog` and `Trace` describe what a run does. `CliLaws`
  proves the protocol properties about them.

## Model

| member | source | states |
|---|---|---|
| `Bodies.Body.constructor` | nbp/bodies/body.py:9-20 | name, mass, radius, position and velocity are the given values |
| `Bodies.Body.DistanceTo` | nbp/bodies/body.py:22-39 | zero vector for the body itself; otherwise the displacement that carries this position to the other's |
| `BodyLaws.DistanceAntisymmetric` | nbp/bodies/body.py:34-39 | `a.distance_to(b)` is the negation of `b.distance_to(a)`, also when `a` and `b` are the same body |
| `BodyExamples.MoonEarthDistanceExample` | nbp/bodies/body.py:27-32 | the Moon-to-Earth displacement is exactly (1e9, -3.844e8, 600) |
| `Bodies.Body.IsAbsoluteDistanceTo` | nbp/bodies/body.py:41-50 | `r` is what `absolute_distance_to_one` returns, the norm of `other.position - position`; it is non-negative, and it is 0 from a body to itself even though there is no identity check |
| `BodyLaws.AbsoluteDistanceSymmetric` | nbp/bodies/body.py:41-50 | the absolute distance is non-negative and the same from either body |
| `BodyLaws.AbsoluteDistanceUnique` | nbp/bodies/body.py:49-50 | the absolute distance is determined by the two positions, so passing it as an argument loses nothing |
| `BodyLaws.AbsoluteDistanceZero` | nbp/bodies/body.py:49-50 | the absolute distance is 0 exactly when the two positions coincide |
| `BodyExamples.EarthMoonAbsoluteDistance` | nbp/bodies/body.py:44-47 | the Earth/Moon absolute distance is 384400000 |
| `Bodies.Pull` | nbp/bodies/body.py:66-72 | the source's force, force-per-distance and division by the own mass equal G * m_other * d / r^3 |
| `Bodies.Body.AccelerationToOne` | nbp/bodies/body.py:52-72 | zero for the body itself, with no division; otherwise G * m_other / r^3 times the displacement to the other body |
| `BodyLaws.AccelerationIndependentOfOwnMass` | nbp/bodies/body.py:69-72 | two bodies at the same place with different non-zero masses get the same pull |
| `BodyExamples.SurfaceGravityExample` | nbp/bodies/body.py:54-59 | the kilogram on the Earth's surface is pulled by exactly G * M / R^2 towards the Earth, between 9.81964 and 9.81965 |
| `Bodies.Body.AccelerationToAll` | nbp/bodies/body.py:74-92 | the loop's accumulator ends as the left-to-right sum `TotalAcceleration` of the pulls of the listed bodies |
| `Bodies.Body.TotalAccelerationStep` | nbp/bodies/body.py:89-90 | one iteration of the loop adds the pull of the next listed body to the sum over the bodies before it |
| `BodyLaws.TotalAccelerationAppend` | nbp/bodies/body.py:87-92 | the sum over a concatenated list is the sum over its parts |
| `BodyLaws.DistancesValidAppend` | nbp/bodies/body.py:87-92 | the pulls over a concatenated list are defined when they are over each part |
| `BodyLaws.TotalAccelerationSkipsSelf` | nbp/bodies/body.py:61-64 | listing the body itself anywhere in the list leaves the sum unchanged |
| `BodyLaws.OppositePairCancels` | nbp/bodies/body.py:66-72 | two equal masses at opposite displacements pull with accelerations that add to zero |
| `BodyLaws.OppositePairTotal` | nbp/bodies/body.py:87-92 | the sum over such a pair is zero |
| `BodyLaws.SeenFromOrigin` | nbp/bodies/body.py:49-50 | from a body at the origin, the distance to another body is the norm of that body's position |
| `BodyLaws.PairAroundOrigin` | nbp/bodies/body.py:107-119 | a pair of equal masses at `p` and `-p` around a body at the origin contributes zero |
| `BodyLaws.SelfThenNullPairs` | nbp/bodies/body.py:87-92 | the body itself followed by lists that each sum to zero sums to zero |
| `BodyLaws.ThreePairsAroundOrigin` | nbp/bodies/body.py:107-119 | the body itself and three opposite pairs of equal masses sum to zero |
| `BodyExamples.SixEarthsBalance` | nbp/bodies/body.py:107-114 | the six-Earth layout, for any radius and fifth position, gives total acceleration zero |
| `BodyExamples.SixEarthsVelocityExample` | nbp/bodies/body.py:107-119 | the velocity of the kilogram after the velocity step of 314 s in the six-Earth example is (0, 0, 0) |
| `Bodies.Body.CalculatePosition` | nbp/bodies/body.py:94-103 | the new position is position + dt * velocity; velocity, mass, name and radius are unchanged |
| `BodyExamples.PositionStepExample` | nbp/bodies/body.py:96-101 | (60, -20, 15) moving at (4, 10.2, -6) for 3 s ends at (72, 10.6, -3) |
| `Bodies.Body.CalculateVelocity` | nbp/bodies/body.py:105-142 | the new velocity is velocity + dt * total acceleration at the old state; only this body's velocity changes, and every listed body keeps its position and mass |
| `BodyLaws.VelocityThenPosition` | nbp/bodies/body.py:131-140 | a velocity step followed by a position step moves the body with the new velocity |
| `CliLaws.LimitTruthiness` | nbp/cli.py:58-60 | a limit that is `None` or 0 never fires; any other value, negative ones included, fires as soon as its comparison holds |
| `Cli.TicksReached` | nbp/cli.py:58 | fires only for an enabled tick limit; a state whose ticks equal the limit fires it (inclusive), one with fewer ticks does not |
| `Cli.TimeExceeded` | nbp/cli.py:60 | fires only for an enabled time limit; a state whose time equals the limit does not fire it (strict), one with a later time does |
| `Cli.Cut` | nbp/cli.py:57-61 | the index of the first state on which a limit fires, or the stream's length; no earlier state fires one |
| `Cli.Pipe.constructor` | nbp/cli.py:47 | a new pipe is connected to the given output writer and has sent nothing yet |
| `Cli.Pipe.Send` | nbp/cli.py:55 | a send appends the message to the pipe's log |
| `Cli.OpenPipes` | nbp/cli.py:36-52 | one new, distinct pipe per output writer name, in the given order, with an empty log |
| `Cli.Broadcast` | nbp/cli.py:54-55 | every pipe's log gains the message, and the trace gains one send per pipe in pipe order |
| `Cli.CloseApplication` | nbp/cli.py:115-119 | every pipe's log gains `end`, and the trace gains one `end` send per pipe in pipe order |
| `Cli.ForwardOneMore` | nbp/cli.py:62-67 | forwarding one more state extends the data messages and the data phase by that state |
| `Cli.StoppedAt` | nbp/cli.py:57-61 | when state k is the first to fire a limit, the run forwards exactly the states before it |
| `Cli.Exhausted` | nbp/cli.py:57-69 | when no state fires a limit, the run forwards the whole stream and then sends `end` |
| `Cli.StartApplication` | nbp/cli.py:28-69 | one fresh pipe per writer in order; every pipe's log is `ChannelLog(stream, lim)` and the run's trace is `Trace` |
| `CliLaws.DataMessagesIndex` | nbp/cli.py:62-67 | one `data` message per forwarded state, carrying that state, in order |
| `CliLaws.ReceivedAppend` | nbp/cli.py:54-67 | what a pipe receives over two stretches of a run is what it receives over each |
| `CliLaws.ReceivedSendAll` | nbp/cli.py:54-55 | a broadcast reaches each opened pipe exactly once and no other pipe |
| `CliLaws.ReceivedPulled` | nbp/cli.py:57 | pulling a state sends nothing |
| `CliLaws.ReceivedDataStep` | nbp/cli.py:57-67 | one loop iteration that forwards a state adds that state's `data` message on every pipe |
| `CliLaws.ReceivedDataPhase` | nbp/cli.py:57-67 | over the data phase, each opened pipe receives the data messages of the forwarded states |
| `CliLaws.ReceivedAppend3` | nbp/cli.py:54-69 | what a pipe receives over four stretches of a run is what it receives over each |
| `CliLaws.ReceivedTrace` | nbp/cli.py:54-69 | in a run's trace, every opened pipe receives the channel log and no other pipe receives anything |
| `CliLaws.ReceivedStopper` | nbp/cli.py:57-61 | pulling the state that stops the run sends nothing on any pipe |
| `CliLaws.AllChannelsIdentical` | nbp/cli.py:54-55 | any two pipes of a run receive identical message sequences |
| `CliLaws.PullsAppend` | nbp/cli.py:57 | the states pulled over two stretches of a run are those of each, in order |
| `CliLaws.PullsAppend3` | nbp/cli.py:57 | the same over four stretches |
| `CliLaws.PullsSendAll` | nbp/cli.py:116-117 | a broadcast pulls no state |
| `CliLaws.PullsDataPhase` | nbp/cli.py:57-67 | the data phase pulls exactly the forwarded states, in order |
| `CliLaws.Consumed` | nbp/cli.py:57-61 | a run takes at most the whole stream from the generator |
| `CliLaws.PullsTrace` | nbp/cli.py:57-69 | a run pulls the stream in order, up to and including the state that stopped it, and nothing after |
| `CliLaws.PullsStopper` | nbp/cli.py:57-61 | the state that stops the run, if any, is the one right after the forwarded states |
| `CliLaws.StartsPrecedePulls` | nbp/cli.py:46-55 | the first n events send `start` on pipes 0 to n-1; every pull comes after them and before the final n `end` sends |
| `CliLaws.ChannelLogShape` | nbp/cli.py:54-69 | a log is `start`, one `data` per forwarded state in stream order, then `end`; `start` only first and `end` exactly once, last |
| `CliLaws.ForwardedIsLongest` | nbp/cli.py:57-67 | the forwarded states are a prefix of the stream on which no limit fires; the next state fires one; no longer such prefix exists |
| `CliLaws.TicksLimitInclusive` | nbp/cli.py:58 | on ticks counting up from t0, exactly `max_ticks - t0` states are forwarded; the state with `ticks == max_ticks` is not |
| `CliLaws.TimeLimitStrict` | nbp/cli.py:60 | a state whose time is at most `max_time` is forwarded when every earlier state's was too, including `time == max_time` |
| `CliLaws.LimitStops` | nbp/cli.py:58-61 | a state on which either limit fires is never forwarded, nor is anything after it |
| `CliLaws.NoLimitsForwardAll` | nbp/cli.py:58-69 | with each limit `None` or 0, every state is forwarded and `end` follows the exhausted stream |

## Left out

- Floating point. All arithmetic is over exact reals. The inexact examples of `acceleration_to_all` and `calculate_velocity` (nbp/bodies/body.py:81-84, 121-140) print float64 roundings, so they are not stated. The surface gravity example is stated as an interval around its exact value.
- The square root of `numpy.linalg.norm`. The caller passes each distance (`r`, `dists`), and `IsNorm` constrains it. `AbsoluteDistanceUnique` shows that this fixes the value.
- Co-located distinct bodies and a zero own mass. In the source these produce inf or nan without raising. Here they are preconditions: `CanBePulledBy` demands `r > 0` and a non-zero mass.
- Bodies.Body.AccelerationToAll: for an empty list the source returns the scalar `0.0`, not a vector. The model returns the zero vector, which adds to a velocity in the same way.
- The unused `pickle` and `b64encode`/`b64decode` imports of body.py.
- Threads, `multiprocessing.Pipe` and the output writers on the other end of each pipe. Each pipe is its message log.
- `exit(0)` in `close_application`. The loop returns after sending `end`. The trace shows that nothing is sent or pulled after that.
- The argparse options, the plugin registry and the input provider. The stream of states is a finite sequence given as an argument. An infinite generator is not modelled. `int_greater_than_zero` and the mutual exclusion of the two limits are not assumed, so the model covers any pair of integer limits.
- `ModifierBundle` (nbp/cli.py:38-44). The name is unbound in nbp/cli.py: it is neither imported (lines 1-6) nor defined there. As written, `start_application` therefore stops at line 38 with a `NameError` on every call, before any pipe is opened, any `start` is sent or any state is pulled. `Cli.StartApplication` models the loop on the assumption that the bundle is supplied from elsewhere. Whatever the bundle does to the generator is folded into the given stream.
- The bodies inside a state. The loop only reads `ticks` and `time`.
- nbp/io/input_providers/file_input_provider.py is not part of this model. It stores a path and returns it.
- The per-tick driver that steps all bodies lives in provider code that is not part of this model. Only the single-body composition from the `calculate_velocity` example is modelled (`VelocityThenPosition`).
