# Sparkles, modelled in Dafny

Sparkles is a small particle engine with an OpenGL backend and a handful of demo
programs. This project models its core.

- **Math.** The vector and matrix types, their operators, and the orthographic projection.
- **Sampling.** `random_get` for scalars, 2-D vectors (Cartesian or polar) and colours.
- **Particles.** `particle_simulate` and `particle_spawn`.
- **The backend.**
  - The particle system: a fixed pool of slots, where a slot whose life has run out is free for reuse.
  - Meshes and their uploads.
  - The shader-linkage table.
  - The render-state application.
  - The texture format table.
- **Mesh generators.** The regular polygon and the quad.
- **The demos.**
  - The emitter sandbox: emitters with weighted colour palettes, attractors with capped forces, and the editor's add and delete buttons.
  - The firework, the waterfall and the immediate-mode graphics builder.
  - The main loop: example selection, the "too many particles" warning, and the frame recorder.
  - The first prototype in code/sparkles.cpp.

Several things are handled as parameters:

- **Floats** are real numbers.
- **The C maths library** (`cos`, `sin`, `sqrt`, pi) is a record of functions passed in (`MathLib.Libm`). Its laws (`sqrt` of a non-negative square, cos² + sin² = 1) are a ghost predicate.
- **Every uniform draw** `rand() / RAND_MAX` is a parameter of type `Unit`, the reals in [0, 1].
- **Helpers whose source is not part of this model** are parameters of the operations that use them. These are the sandbox's `random_get1`/`random_get2`, `range_polar`, and the bezier position and tangent.

Where the source stops on `assert`, the model either returns an error value (`Result`, `Option`) or states the asserted condition as a precondition. Which one depends on whether the caller can reach the failing case.

The slot-reuse rule is at the centre of the model, because every demo shares it: a burst scans the pool from slot 0 and respawns dead slots while demand remains. `ParticleSystems.Respawned` states it as a function. The lemmas beside it prove four things:

- the respawned slots are exactly the first dead slots in index order;
- a burst spawns `min(demand, dead)` particles;
- unmet demand means the whole pool was scanned;
- the dead count drops by exactly the number spawned.

Every loop that spawns (the sandbox burst, the firework explosion, the waterfall accumulator) is proved against `Respawned`.

The vector operators are defined three times, identically: in implementation/math.cpp, code/my_math.cpp and code/math.cpp. The table cites implementation/math.cpp. The sandbox exists in two versions, example/code/sandbox.cpp and example/code/example_sandbox.cpp, which differ only in the initial gravity and in file handling. `SandboxStates.SandboxState.Reset` takes the gravity as a parameter so it covers both.

## Model

| member | source | states |
|---|---|---|
| Vectors.Componentwise2 | implementation/math.cpp:7-54 | each vec2 operator (+, -, * and / by a vector, * and / by a scalar) acts on every component independently |
| Vectors.Componentwise3 | implementation/math.cpp:88-142 | the same for vec3 |
| Vectors.Componentwise4 | implementation/math.cpp:182-243 | vec4 + and - act on every component independently |
| Vectors.ComponentwiseProduct4 | implementation/math.cpp:182-243 | vec4 * by a vector and by a scalar act on every component independently |
| Vectors.ComponentwiseQuotient4 | implementation/math.cpp:182-243 | vec4 / by a non-zero vector and by a non-zero scalar act on every component independently |
| Vectors.ScaleCommutes | implementation/math.cpp:35-47 | `v * f` and `f * v` are equal for vec2, vec3 and vec4 |
| Vectors.AddAssign2 | implementation/math.cpp:56-59 | `a += b` leaves `a` equal to `a + b` |
| Vectors.SubAssign2 | implementation/math.cpp:61-64 | `a -= b` leaves `a` equal to `a - b` |
| Vectors.MulAssign2 | implementation/math.cpp:66-69 | `a *= b` leaves `a` equal to the componentwise product |
| Vectors.DivAssign2 | implementation/math.cpp:71-74 | `a /= b` leaves `a` equal to the componentwise quotient, for a divisor with no zero component |
| Vectors.ScaleAssign2 | implementation/math.cpp:76-79 | `v *= f` leaves `v` equal to `v * f` |
| Vectors.DivScalarAssign2 | implementation/math.cpp:81-84 | `v /= f` leaves `v` equal to `v / f`, for nonzero `f` |
| Vectors.AddAssign3 | implementation/math.cpp:144-148 | vec3 `+=` agrees with `+` |
| Vectors.SubAssign3 | implementation/math.cpp:150-154 | vec3 `-=` agrees with `-` |
| Vectors.MulAssign3 | implementation/math.cpp:156-160 | vec3 `*=` agrees with `*` |
| Vectors.DivAssign3 | implementation/math.cpp:162-166 | vec3 `/=` agrees with `/`, for a divisor with no zero component |
| Vectors.ScaleAssign3 | implementation/math.cpp:168-172 | vec3 `*= f` agrees with `* f` |
| Vectors.DivScalarAssign3 | implementation/math.cpp:174-178 | vec3 `/= f` agrees with `/ f`, for nonzero `f` |
| Vectors.AddAssign4 | implementation/math.cpp:245-250 | vec4 `+=` agrees with `+` |
| Vectors.SubAssign4 | implementation/math.cpp:252-257 | vec4 `-=` agrees with `-` |
| Vectors.MulAssign4 | implementation/math.cpp:259-264 | vec4 `*=` agrees with `*` |
| Vectors.DivAssign4 | implementation/math.cpp:266-271 | vec4 `/=` agrees with `/`, for a divisor with no zero component |
| Vectors.ScaleAssign4 | implementation/math.cpp:273-278 | vec4 `*= f` agrees with `* f` |
| Vectors.DivScalarAssign4 | implementation/math.cpp:280-285 | vec4 `/= f` agrees with `/ f`, for nonzero `f` |
| Vectors.MulMat4Vec4 | implementation/math.cpp:288-295 | component i of `m * v` is the term-by-term sum of row i of `m` times `v` |
| Vectors.MulMat4 | implementation/math.cpp:297-321 | entry (i, j) of `a * b` is the sum over k of `a[i][k] * b[k][j]` |
| Vectors.Identity | implementation/utils.cpp:163-170 | `mat4_identity` has ones on the diagonal and zeros elsewhere |
| Vectors.IdentityIsNeutral | implementation/utils.cpp:163-170 | the identity is neutral for mat4 * vec4 and, on both sides, for mat4 * mat4 |
| Vectors.Orthographic | implementation/math.cpp:326-345 | the projection matrix has only diagonal scales and a translation column, and its last row is (0, 0, 0, 1) |
| Vectors.OrthographicMapsBox | implementation/math.cpp:326-345 | the box's left/right, bottom/top and near/far faces go to -1/+1 on each axis, and w stays 1 |
| MathLib.Norm2 | example/code/sandbox.cpp:177-178 | a squared length is never negative |
| MathLib.NormZero | example/code/sandbox.cpp:177-192 | a length is non-negative, and zero exactly when the squared length is zero |
| MathLib.NormScale | example/code/sandbox.cpp:191-192 | scaling by k >= 0 scales the length by k, as the force cap relies on |
| MathLib.NormalizeUnit | example/code/sandbox.cpp:180 | a normalized nonzero vector has length 1 and is the vector divided by its length |
| MathLib.PolarPointLength | implementation/utils.cpp:113-117 | the point (r cos a, r sin a) lies at distance \|r\| from the origin |
| Sampling.LerpBetween | implementation/utils.cpp:98 | `min + u * (max - min)` lies between min and max for u in [0, 1] |
| Sampling.SampleScalar | implementation/utils.cpp:96-103 | succeeds exactly for UNIFORM (other values fail the assertion), lies between min and max, and is min at u = 0 and max at u = 1 |
| Sampling.SampleVec2 | implementation/utils.cpp:105-123 | succeeds exactly when both ranges are UNIFORM; Cartesian samples lie within their two ranges |
| Sampling.PolarSampleLength | implementation/utils.cpp:113-117 | a polar sample's length lies within its non-negative radius range |
| Sampling.SampleColor | implementation/utils.cpp:125-144 | HSB is an error; RGB succeeds exactly when all four ranges are UNIFORM, each channel within its range |
| Sampling.UniformGenerator.constructor | implementation/utils.cpp:81-94 | before any seeding the generator has seed 1, no calls made, and the first-call flag set |
| Sampling.UniformGenerator.RandomGetUniform | implementation/utils.cpp:81-94 | the first call seeds from the clock and returns the stream's first value; later calls continue the stream without reseeding |
| Sampling.UniformGenerator.RandomUniformGet | code/sparkles.cpp:93-97 | each call returns the next value of the current stream and never seeds |
| Sampling.PickFrom | example/code/sandbox.cpp:144-153 | a scan resumed at i stops at an index in [i, count), or finds none |
| Sampling.Pick | example/code/sandbox.cpp:144-153 | a pick is always a palette index |
| Sampling.PickFromIsFirstAbove | example/code/sandbox.cpp:144-153 | a scan resumed at i finds the first index at or after i whose running sum exceeds the threshold, or none |
| Sampling.PickIsFirstAbove | example/code/sandbox.cpp:144-153 | the pick is exactly the first index whose running sum exceeds the threshold; none means no running sum does |
| Sampling.PrefixSumMonotone | example/code/sandbox.cpp:139-141 | with non-negative weights, running sums never decrease |
| Sampling.PickHasPositiveWeight | example/code/sandbox.cpp:144-153 | with non-negative weights, a colour of weight zero is never chosen |
| Sampling.PickBelowTotal | example/code/sandbox.cpp:139-153 | a non-negative threshold below the total weight always selects a colour |
| Sampling.Threshold | example/code/sandbox.cpp:144 | `total * u` lies in [0, total], below the total when u < 1, and equal to it when u = 1 or the total is 0 |
| Sampling.PickSucceeds | example/code/sandbox.cpp:137-155 | with a positive total and a draw below 1, some colour is chosen |
| Sampling.PickFailsAtTotal | example/code/sandbox.cpp:137-155 | with a draw of exactly 1, or a zero total, no colour is chosen and the colour stays zero |
| Sampling.ChooseColor | example/code/sandbox.cpp:137-155 | the palette loop returns the colour at the first index whose running sum exceeds `total * u`, or zero |
| Particles.Killed | example/code/sandbox.cpp:85-89 | an init-loop slot is dead with scale 0 and keeps its position, colour and velocity |
| Particles.Simulate | implementation/utils.cpp:147-152 | velocity gains gravity, position advances by the new velocity, friction is applied afterwards, and life drops by dt |
| Particles.SimulateKeepsDead | implementation/utils.cpp:147-152 | with dt >= 0 a dead particle stays dead |
| Particles.SimulateUniformMotion | implementation/utils.cpp:147-152 | without gravity and with friction 1, two steps of dt move a particle as far as one step of 2 dt |
| Particles.Spawn | implementation/utils.cpp:154-161 | succeeds exactly when every range is samplable; xy of position and velocity are sampled, velocity is scaled by 0.2, position.z becomes 0 and velocity.z is kept |
| Particles.SpawnedIsAlive | implementation/utils.cpp:154-161 | a particle spawned from a non-negative life range is alive |
| Particles.RawForce | example/code/sandbox.cpp:177-189 | no force at or beyond the radius; otherwise `k r`, `k / r` or `k / r^2` along the unit vector towards the attractor |
| Particles.CapForce | example/code/sandbox.cpp:191-192 | the zero force is left alone |
| Particles.CapForceBounds | example/code/sandbox.cpp:191-192 | a force within the cap is kept; a longer one is rescaled to exactly the cap; the result never exceeds the cap |
| Particles.AttractorPull | example/code/sandbox.cpp:173-194 | inactive attractors and particles outside the radius get no velocity change |
| Particles.PullForceBounded | example/code/sandbox.cpp:183-192 | whatever the force law, an attractor never pulls harder than its cap |
| Particles.QuietAttractorsLeaveVelocity | example/code/sandbox.cpp:173-195 | when every attractor is inactive or out of range, the attractor loop leaves the velocity unchanged |
| Particles.SandboxAdvance | example/code/sandbox.cpp:197-204 | position advances by the velocity before friction, friction scales the velocity, life drops by dt, alpha is capped by life, and a particle that dies gets scale 0 |
| Particles.SandboxStep | example/code/sandbox.cpp:167-205 | one sandbox step ages the particle and zeroes its scale exactly when it dies |
| Particles.FireworkStep | example/code/firework.cpp:99-109 | gravity then friction act on the velocity before the position advances; ageing and scale are as in the sandbox |
| Particles.FrictionOrderMatters | example/code/firework.cpp:102-104 | the firework and sandbox orders agree with friction 1, and for any other friction and nonzero dt they put a particle whose velocity after gravity is non-zero in different places |
| Particles.PositionsApart | example/code/sandbox.cpp:197-204 | moving by a non-zero velocity for a non-zero dt, with and without a friction other than 1 applied first, ends in different places |
| Particles.WaterfallStep | example/code/waterfall.cpp:71-75 | `particle_simulate` followed by `alpha = min(life, alpha)` ages the particle and keeps its scale |
| ParticleSystems.Truncate | example/code/firework.cpp:85 | the float-to-int conversion rounds toward zero |
| ParticleSystems.SpawnCount | example/code/sandbox.cpp:126-161 | a burst spawns min(demand, dead) particles, and none for a demand of 0 or less |
| ParticleSystems.Respawned | example/code/sandbox.cpp:128-159 | the pool keeps its size; live slots are untouched; only dead slots of rank below n change |
| ParticleSystems.RespawnedInIndexOrder | example/code/sandbox.cpp:128-159 | if a dead slot is respawned, so is every dead slot before it |
| ParticleSystems.AllDeadRespawned | example/code/sandbox.cpp:128-161 | when the spawn count equals the dead count, every dead slot is respawned |
| ParticleSystems.RespawnedAreFirstDead | example/code/sandbox.cpp:128-159 | n spawns fill exactly the dead slots up to and including the n-th one |
| ParticleSystems.RespawnedDeadCount | example/code/sandbox.cpp:128-159 | when every new particle is alive, the dead count drops by exactly n |
| ParticleSystems.ParticleSystem.Create | implementation/backend_opengl.cpp:283-305 | every slot is zeroed and marked dead (life -1); the buffer size is count * 48 bytes in 32 bits |
| ParticleSystems.ParticleSystem.UploadAndRender | implementation/backend_opengl.cpp:307-340 | uploads the whole pool, count * 48 bytes in 32 bits, and draws one instance per slot, dead ones included |
| ParticleSystems.ParticleSystem.KillAll | example/code/sandbox.cpp:85-89 | every slot becomes `Killed` of itself |
| ParticleSystems.ParticleSystem.StepAll | example/code/firework.cpp:99-109 | every slot is replaced by the step of its old value |
| ParticleSystems.ParticleSystem.Respawn | example/code/sandbox.cpp:128-159 | the pool becomes `Respawned` with min(demand, dead) spawns; the unmet demand is returned |
| ParticleSystems.ParticleSystem.RespawnAccumulated | example/code/waterfall.cpp:60-68 | the pool becomes `Respawned` with min(floor(owed), dead) spawns, and the owed amount drops by that count |
| ParticleSystems.RespawnLoopDone | example/code/sandbox.cpp:128 | the scan's exit state, reached at the pool's end or when demand is met, is the `Respawned` pool |
| ParticleSystems.UnmetDemandMeansFullScan | example/code/sandbox.cpp:128-161 | when demand exceeds the dead count, every dead slot is respawned with its rank |
| ParticleSystems.BufferSizeExact | implementation/backend_opengl.cpp:284 | for pools below 2^32 / 48 slots the 32-bit byte count is exact |
| Starvation.Decay | example/code/main.cpp:146-147 | `fmax(timer - dt, 0)` is never negative; it is zero exactly when timer <= dt, and timer - dt otherwise |
| Starvation.WarningLasts | example/code/main.cpp:142-147 | after a notification the warning stays up while the frame times add up to less than one second |
| Starvation.NotificationsCompose | example/code/main.cpp:112-117 | notifying one list of shortfalls and then another leaves the count and the timer that notifying both in one go does |
| Starvation.StarvationReport.constructor | example/code/main.cpp:112-117 | the count and the timer start at zero |
| Starvation.StarvationReport.Notify | example/code/main.cpp:112-117 | the shortfall is added to the count, and a non-zero count restarts the timer at 1; this is `Reported` and `Notified` of the one shortfall |
| Starvation.StarvationReport.PanelTick | example/code/ui.cpp:401-407 | the sandbox's info panel decays the timer and clears the count |
| Starvation.StarvationReport.FrameStart | example/code/main.cpp:123 | the count is cleared at frame start |
| Starvation.StarvationReport.FrameEnd | example/code/main.cpp:146-147 | the timer decays at frame end |
| App.ClampExample | example/code/main.cpp:125-129 | the example index is forced into [0, count): in-range values are kept, low ones become 0, high ones count - 1 |
| App.WarningShown | example/code/main.cpp:119-147 | the warning shows in a frame exactly when the timer was running or some notification left the count non-zero |
| App.WriteSlot | example/code/main.cpp:232-236 | the capture's store fills the frame's slot and keeps the earlier slots |
| App.Recorder.constructor | example/code/main.cpp:37-45 | the recorder starts idle, set to 60 frames, with no buffer |
| App.Recorder.Start | example/code/main.cpp:173-193 | Start is enabled exactly for a non-empty name and a positive count; it begins at frame 0 with a fresh buffer of width * height * frames pixels |
| App.Recorder.Cancel | example/code/main.cpp:162-165 | recording stops and the buffer is kept, not freed |
| App.Recorder.Finish | example/code/main.cpp:207-230 | once all frames are captured, recording stops, the captured frames are written in order and the buffer is freed; otherwise nothing changes |
| App.Recorder.Capture | example/code/main.cpp:232-236 | while recording, the pixels become the next captured frame, stored in slot `frame_index` |
| App.Recorder.Tick | example/code/main.cpp:207-236 | a full recording is written and stopped; a partial one captures one more frame; an idle one stays idle |
| App.Main.constructor | example/code/main.cpp:67 | the first example is selected and the warning is off |
| App.Main.DoFrame | example/code/main.cpp:119-148 | the index is clamped, the count becomes this frame's total shortfall, the warning decision is as in `WarningShown`, and the timer decays |
| SandboxStates.EmitterInit | example/code/sandbox.cpp:275-290 | a new emitter is active, with one white colour of weight 1, the given velocity range, and empty unused palette entries |
| SandboxStates.InitialEmitterColor | example/code/sandbox.cpp:137-155 | a new emitter's particles are white, except with a draw of exactly 1, where they stay the zero colour |
| SandboxStates.SandboxGravityStrength | example/code/sandbox.cpp:258-262 | the initial gravity `polar(0.001, -TAU / 4)` has strength 0.001 |
| SandboxStates.OrderedRemoved | example/code/ui.cpp:31-36 | entries from the removed index up to count - 2 move down by one, and every other entry is kept |
| SandboxStates.OrderedRemovedKeepsOthers | example/code/ui.cpp:31-36 | the counted entries afterwards are the old ones in order without the removed one, so the multiset loses exactly that entry |
| SandboxStates.ArrayOrderedRemove | example/code/example_sandbox.cpp:175-181 | the array becomes `OrderedRemoved` of its old contents and the count drops by one |
| SandboxStates.WithColorAdded | example/code/ui.cpp:334-342 | the last colour is duplicated with weight 1, and the other colours, weights and fields are kept |
| SandboxStates.WithColorRemoved | example/code/ui.cpp:344-348 | after the `#hack`, every remaining colour keeps its own weight, and the count drops by one |
| SandboxStates.AddThenRemoveColor | example/code/ui.cpp:334-348 | deleting a just-added colour restores the palette in use |
| SandboxStates.SandboxState.constructor | example/code/sandbox.cpp:244-256 | the global state starts as `sandbox_state_init` leaves it |
| SandboxStates.SandboxState.Reset | example/code/sandbox.cpp:244-262 | version 1, a 16 by 9 space, friction 1, no attractors, one emitter from `emitter_init`, and every other slot zeroed |
| SandboxStates.SandboxState.AddAttractor | example/code/ui.cpp:271-281 | the last attractor is duplicated, or `attractor_init`'s is added to an empty list |
| SandboxStates.SandboxState.DeleteAttractor | example/code/ui.cpp:283 | the attractor list becomes `OrderedRemoved` |
| SandboxStates.SandboxState.AddColor | example/code/ui.cpp:334-342 | only emitter s changes, to `WithColorAdded` |
| SandboxStates.SandboxState.DeleteColor | example/code/ui.cpp:344-348 | only emitter s changes, to `WithColorRemoved` |
| SandboxStates.SandboxState.AddEmitter | example/code/ui.cpp:382-387 | the last emitter is duplicated into the next slot |
| SandboxStates.SandboxState.DeleteEmitter | example/code/ui.cpp:389 | the emitter list becomes `OrderedRemoved`; the first emitter has no delete button |
| Sandboxes.SpawnedParticle | example/code/sandbox.cpp:131-156 | a respawn puts the particle at the emitter plus the offset, with the drawn velocity, life and size and the palette's picked colour; z is kept |
| Sandboxes.SpawnedColorFromPalette | example/code/sandbox.cpp:137-155 | with non-negative weights, a positive total and a draw below 1, the colour is a palette colour of positive weight |
| Sandboxes.Shortfall | example/code/sandbox.cpp:126-161 | the reported shortfall is positive exactly when `(int) amount` exceeds the dead count |
| Sandboxes.BurstFillsDeadSlots | example/code/sandbox.cpp:126-159 | with non-negative drawn lives, a burst lowers the dead count by exactly min(demand, dead) |
| Sandboxes.SteppedPoolAges | example/code/sandbox.cpp:167-205 | the step ages every slot of the pool and zeroes the scale of each slot that dies |
| Sandboxes.FirstFrameFires | example/code/sandbox.cpp:124-125 | with the interval still 0, an emitter fires on its first frame |
| Sandboxes.Emitted | example/code/sandbox.cpp:119-165 | an emitter notifies at most once per frame, and does so exactly when it is active and its burst is due |
| Sandboxes.FrameShortfalls | example/code/sandbox.cpp:106-165 | at most one notification per emitter in use, and none at all exactly when no emitter bursts |
| Sandboxes.FrameEmissionUntouched | example/code/sandbox.cpp:106-212 | the frames of the first n emitters leave the pool, timer and interval of every later slot as they were |
| Sandboxes.FrameEmissionSlot | example/code/sandbox.cpp:106-212 | after the frames of the first n emitters, slot t < n has the pool, timer and interval that emitter t's own frame gives it, so no emitter disturbs another |
| Sandboxes.FrameEmissionSlots | example/code/sandbox.cpp:106-212 | after the frames of the first n emitters, each of them has the pool, timer and interval its own frame gives it, and later slots are untouched |
| Sandboxes.FrameEmissionReport | example/code/sandbox.cpp:106-212 | after the frames of the first n emitters, the starvation report has received the shortfalls of the emitters that burst, in slot order |
| Sandboxes.ApplyAttractors | example/code/sandbox.cpp:173-195 | the attractor loop's velocity is the in-order accumulation of each attractor's capped pull |
| Sandboxes.StepParticle | example/code/sandbox.cpp:168-204 | one pass of the step loop leaves the slot as `SandboxStep` says: gravity, the capped attractor pulls, the move, friction, ageing, and scale 0 once dead |
| Sandboxes.StepParticles | example/code/sandbox.cpp:167-205 | the pool becomes `SteppedPool` of the old pool |
| Sandboxes.Burst | example/code/sandbox.cpp:128-159 | the pool becomes `Respawned` with min(demand, dead) spawns built by `SpawnedParticle`; the unmet demand is returned |
| Sandboxes.Sandbox.constructor | example/code/sandbox.cpp:32-96 | the initial state plus 5000 dead slots per emitter slot, and all timers zero |
| Sandboxes.Sandbox.EmitterFrame | example/code/sandbox.cpp:119-205 | the whole emission state (every pool, timer and interval, and the starvation report) becomes `EmitterStep` of the old one: only slot s and the report change |
| Sandboxes.Sandbox.RunEmitter | example/code/sandbox.cpp:119-205 | an inactive emitter is untouched; otherwise its timer advances, a due burst spawns, reports its shortfall, restarts the timer and takes the drawn interval, and the pool is stepped; no other pool changes |
| Sandboxes.Sandbox.Emit | example/code/sandbox.cpp:124-165 | the timer advances by `dt`; the emitter fires exactly when the interval is negative or the timer reached it, and then the burst respawns dead slots, the shortfall is reported, the timer resets and the next interval is drawn; otherwise pool, interval and report are unchanged |
| Sandboxes.Sandbox.Frame | example/code/sandbox.cpp:106-212 | the pools, emission timers, intervals and the starvation report become `FrameEmission` of the old ones: each emitter in use takes its own frame with its own draws, in slot order |
| Fireworks.ExplosionDue | example/code/firework.cpp:82 | an explosion is due when the interval is negative or the timer strictly exceeds it |
| Fireworks.ExplosionParticle | example/code/firework.cpp:89-90 | an explosion particle is the spawned particle moved by the centre in xy, and otherwise unchanged |
| Fireworks.Firework.constructor | example/code/firework.cpp:43-51 | every slot is dead with scale 0; timer 0 and interval -1; gravity (0, -0.2) and friction 0.99 |
| Fireworks.Firework.Frame | example/code/firework.cpp:79-109 | the timer advances; a due explosion respawns up to `(int) amount` dead slots around the centre and resets the timer; every slot takes the firework step |
| Waterfalls.WaterSpawnTotal | example/code/waterfall.cpp:23-47 | every waterfall range is samplable, so spawning never fails |
| Waterfalls.WaterDropShape | example/code/waterfall.cpp:23-66 | a drop is alive, lives 0.1 to 3 s, starts within 0.05 of the nozzle, and moves at 0.6 to 1 units per second |
| Waterfalls.AccumulatorCarry | example/code/waterfall.cpp:57-68 | with enough dead slots only a fraction below 1 is carried; otherwise the unmet whole particles stay owed |
| Waterfalls.Waterfall.constructor | example/code/waterfall.cpp:49-54 | a dead pool of 10000, a rate of 1000 per second, and nothing accumulated |
| Waterfalls.Waterfall.Frame | example/code/waterfall.cpp:56-75 | `rate * dt` is owed, one dead slot is respawned per whole unit owed, and every slot is simulated |
| Backend.Find | implementation/backend_opengl.cpp:212-217 | the scan returns the first entry linked from the pair, or none |
| Backend.FindEachEntry | implementation/backend_opengl.cpp:212-217 | in a table with distinct keys, every entry is the one found for its own pair |
| Backend.AppendKeepsKeysDistinct | implementation/backend_opengl.cpp:229-241 | appending an unfound pair keeps the keys distinct, and the scan then finds it at the end |
| Backend.SelectionIsStable | implementation/backend_opengl.cpp:208-242 | after a program selection the pair is in the table and the keys stay distinct, so selecting the same pair again binds the same program and changes nothing |
| Backend.ViewportPixels | implementation/backend_opengl.cpp:250-251 | the float viewport reaches `glViewport` with each non-negative part truncated to the integer just below or equal to it |
| Backend.WholeViewport | implementation/backend_opengl.cpp:250-251 | a viewport of whole pixels reaches `glViewport` unchanged |
| Backend.ShaderLinkageTable.constructor | implementation/backend_opengl.cpp:101-118 | the table starts empty, holding the three default shaders |
| Backend.ShaderLinkageTable.VertexShaderFor | implementation/backend_opengl.cpp:209 | a null vertex shader becomes the instancing or plain default; a given one is kept |
| Backend.ShaderLinkageTable.PixelShaderFor | implementation/backend_opengl.cpp:210 | a null pixel shader becomes the default; a given one is kept |
| Backend.ShaderLinkageTable.GetOrCreate | implementation/backend_opengl.cpp:208-242 | a known pair returns its entry and changes nothing; a link failure returns null and changes nothing; otherwise a new entry is appended with the keys kept distinct |
| Backend.ShaderLinkageTable.ApplyRenderState | implementation/backend_opengl.cpp:244-275 | binds the program `opengl_get_or_create_shader_program` selects for the defaulted shader pair (growing the table only for a new pair), the target's framebuffer or 0, the truncated viewport, the projection, `use_texture` exactly when a texture is given, that texture, and the vertex array the instancing flag picks |
| Backend.ShaderLinkageTable.RenderMesh | implementation/backend_opengl.cpp:414-426 | the state is applied as `ApplyRenderState` does without instancing (a null vertex shader becomes the plain default), and `index_count` indices are drawn |
| Backend.ShaderLinkageTable.RenderParticles | implementation/backend_opengl.cpp:307-340 | the state is applied as `ApplyRenderState` does with instancing (a null vertex shader becomes the instancing default), and the mesh's `index_count` indices are drawn once per slot of the system |
| Backend.Initial | implementation/backend_opengl.cpp:370-396 | a new buffer holds the given data, or is unspecified without data |
| Backend.Written | implementation/backend_opengl.cpp:398-412 | an upload replaces the front of the buffer with the data and keeps the rest |
| Backend.WrittenOverwrites | implementation/backend_opengl.cpp:398-412 | a covering upload leaves no trace of an earlier one |
| Backend.Mesh.Create | implementation/backend_opengl.cpp:370-396 | buffers of the given counts, filled from the data if any; usage is STREAM exactly when no vertices are given |
| Backend.Mesh.Upload | implementation/backend_opengl.cpp:398-412 | within the mesh's counts, the first vertices and indices are replaced and the rest kept |
| Backend.FullUploadSpecifiesAll | implementation/backend_opengl.cpp:398-412 | a full upload leaves every element specified |
| Backend.TextureFormatInfo | implementation/backend_opengl.cpp:435-473 | exactly RGBA_UINT8, RGBA_FLOAT16 and ALPHA_FLOAT32 have a GL format triple with a four-channel swizzle; NONE and unlisted values fail |
| Backend.SampledColors | implementation/backend_opengl.cpp:435-473 | RGBA textures read as stored; an ALPHA_FLOAT32 texture reads as white with its channel as alpha |
| Screens.ScreenToWorldFrame | example/code/ui.cpp:66-72 | the window centre maps to the world origin, and the window corners to the world box's corners with y flipped |
| Screens.OriginToCentreAsWritten | example/code/ui.cpp:58-64 | as written, the world origin still lands on the window centre |
| Screens.RoundTripAsWritten | example/code/ui.cpp:58-72 | as written, going to the screen and back halves x and halves and negates y |
| Screens.CornerAsWritten | example/code/ui.cpp:58-64 | the world's top-right corner is drawn at (1200, 675) on a 1600 by 900 window, not at (1600, 0) |
| Screens.RoundTrips | example/code/ui.cpp:58-72 | the corrected `world_to_screen` and `screen_to_world` undo each other in both directions |
| Meshes.Fan | implementation/utils.cpp:52-58 | the fan has 3N indices |
| Meshes.FanShape | implementation/utils.cpp:52-58 | triangle t is (centre, t + 1, t + 2), and the last closes from rim vertex N back to 1 |
| Meshes.FanInRange | implementation/utils.cpp:52-58 | every index names one of the N + 1 vertices |
| Meshes.FanCoversRim | implementation/utils.cpp:52-58 | every rim edge appears in the fan |
| Meshes.IndexStoresAsWritten | implementation/utils.cpp:52-58 | as written, the index loop stores 3t, 3t + 1 and 3t + 2 for t = 0..N, then the fix-up |
| Meshes.IndexOverrunAsWritten | implementation/utils.cpp:19-58 | among side counts the assertions accept, a store lands outside the 256 indices exactly for N = 85 and for N <= 0 |
| Meshes.RimVertexShape | implementation/utils.cpp:38-49 | rim vertices lie on the circle of radius 0.5, and their uv is the position shifted into the unit square |
| Meshes.GenerateRegularPolygon | implementation/utils.cpp:19-62 | a static mesh of N + 1 vertices (the centre and the N rim vertices) and 3N indices holding the corrected fan |
| Meshes.PolygonVertices | implementation/utils.cpp:32-49 | the vertex array holds the centre and the N rim vertices |
| Meshes.FanIndices | implementation/utils.cpp:51-58 | the index array begins with the corrected fan |
| Meshes.QuadShape | implementation/utils.cpp:64-79 | each corner's uv is its relative position in the rectangle, and the two triangles use all four corners |
| Meshes.GenerateQuad | implementation/utils.cpp:64-79 | the mesh holds the four corners and two triangles |
| Meshes.ImmediateRimShape | example/code/immediate_graphics.cpp:43-54 | rim vertices lie at distance \|radius\| from the centre, with uv in the unit square |
| Meshes.ImmediatePolygonVertices | example/code/immediate_graphics.cpp:31-54 | the centre and then the N rim vertices |
| Meshes.ImmediatePolygonIndicesAsWritten | example/code/immediate_graphics.cpp:56-61 | as written, triangles (0, t + 1, t + 2) for every t < N, then (0, N, 1) |
| Meshes.ImmediatePolygonOverrunAsWritten | example/code/immediate_graphics.cpp:27-61 | as written, 3N + 3 indices are emitted where 3N are counted, and one names vertex N + 1, which is out of range |
| Meshes.StrokeVertices | example/code/immediate_graphics.cpp:64-84 | two stroke vertices per sample |
| Meshes.StripIndices | example/code/immediate_graphics.cpp:79-82 | two triangles per gap between samples |
| Meshes.StripInRange | example/code/immediate_graphics.cpp:64-84 | the strip names only vertices of its samples |
| Meshes.RimVertices | example/code/immediate_graphics.cpp:31-54 | the vertex loop adds the centre and the N rim vertices |
| Meshes.StrokeStep | example/code/immediate_graphics.cpp:66-83 | one bezier sample adds two stroke vertices, and the six strip indices of the quad to the next sample unless it is the last |
| Meshes.Stroke | example/code/immediate_graphics.cpp:64-84 | the bezier loop adds the stroke vertices and the strip, counted from `base` |
| Meshes.ImmediateGraphics.Init | example/code/immediate_graphics.cpp:6-9 | an empty builder for 1024 vertices and 3072 indices, and a stream mesh as large |
| Meshes.ImmediateGraphics.PutRect | example/code/immediate_graphics.cpp:11-25 | adds the rectangle's four corners and two triangles, keeping every index in range |
| Meshes.ImmediateGraphics.PutRegularPolygon | example/code/immediate_graphics.cpp:27-62 | adds the centre, N rim vertices and the corrected fan, keeping every index in range |
| Meshes.ImmediateGraphics.PutBezier | example/code/immediate_graphics.cpp:64-84 | adds two vertices per sample and two triangles per gap, keeping every index in range |
| Meshes.ImmediateGraphics.TakeMesh | example/code/immediate_graphics.cpp:86-90 | returns a mesh with static usage holding exactly the vertices and indices built so far, and clears the builder |
| Meshes.ImmediateGraphics.Flush | example/code/immediate_graphics.cpp:92-96 | uploads what was built to the shared mesh, draws that many indices (all naming uploaded vertices), and clears the builder |
| Legacy.LegacySample | code/sparkles.cpp:202-209 | a prototype slot is drawn exactly when every range is samplable, with scale and life within their ranges |
| Legacy.LegacyAgreesWithSpawn | code/sparkles.cpp:202-209 | given the same draw for each field, the prototype and `particle_spawn` build the same particle, except for the 0.2 velocity scale |
| Legacy.LegacyInstanceBufferBytes | code/sparkles.cpp:211 | the byte count is taken modulo 2^32, and is exact below that |
| Legacy.InitialParticleShape | code/sparkles.cpp:268-292 | each initial particle lies in the band x in [-1, 1], y in [-0.25, 0.25], rises at 1 to 2, has scale 1, lives 1 to 3 s, and has channels of 0.8 or above |
| Legacy.SampleAll | code/sparkles.cpp:200-209 | slot i of the new array is the i-th draw |
| Legacy.LegacySystem.Initialize | code/sparkles.cpp:197-220 | params and count are copied, every slot is drawn, and the buffer is sized in 32 bits |
| Legacy.Initial | code/sparkles.cpp:248-295 | 1000 particles, a 40000-byte buffer, and every life in [1, 3] |

## Left out

- Floating point: reals stand in for `float`. Rounding, NaN and infinities are not modelled.
- Division by zero: where the source would produce an infinity or NaN, the model gives 0. This covers `normalize` of the zero vector and the attractor's `factor / distance` at distance 0.
- OpenGL calls: buffer creation, VAO setup, uniform uploads and draw calls are recorded as the values they set. Shader source text, compilation and linking are parameters (`link`).
- The uniform draws and the sandbox's samplers are parameters. These are `random_get1`, `random_get2`, `range_polar`, `polar`, and the bezier position and tangent. Their sources are not part of this model.
- TAU is taken as 2 pi, from the maths-library record.
- The header copy include/sparkles.h does not declare `RenderState.viewport`, but the backend reads it and the demos set it. The model has the field. `glViewport`'s conversion of each float part to `GLint` is modelled as truncation toward zero.
- ALPHA_FLOAT32 is handled by the texture table although include/sparkles.h does not declare it.
- `put_vertices` and `put_indices` are not part of this model. The builder is modelled as sequences with the capacities `immediate_init` gives.
- The editor: ImGui widgets, drag ranges, file load and save, the texture drop callback, and menu handling. The editor's buttons are modelled as their state changes, one click per call.
- The window and render-target sizes are parameters.
- The recorder's GPU read-back, image resize, PNG writing and directory creation are left out. A written image is the raw captured frame.
- App.Recorder.Start: does not model the `width * height * frames_to_record` overflow of a 32-bit `int`.
- App.Recorder.Cancel: the leaked buffer is modelled only as the buffer being kept.
- ParticleSystems.ParticleSystem.Create: for 2^32 / 48 slots or more the `memset` byte count wraps, so the source zeroes only part of the pool. The model zeroes every slot; the wrapped size is kept in `bufferBytes`.
- Legacy.LegacySystem.Initialize: requires samplable ranges. The source would stop on an assertion instead.
- Legacy.LegacySystem.Initialize: requires a count below 2^32 (`uint32_t`), and does not model the `int` loop counter against it.
- Legacy.LegacyAgreesWithSpawn: compares the two per field, not per draw sequence. The prototype draws position, velocity, scale, life and colour (code/sparkles.cpp:204-208), while `particle_spawn` draws position, scale, colour, velocity and life (implementation/utils.cpp:155-160). From one stream of draws the two give different particles.
- `particle_system_update` and `particle_system_render` in code/sparkles.cpp:222-228 have empty bodies, so they are not modelled.
- Sandboxes.Sandbox.Frame: the snapshot of the physics taken at the start of the frame is the state at entry, which no emitter changes.
- The dt clamp of the platform layer is not part of this model. `dt` is a parameter of every frame.
- recording.cpp (compiled out with `#if 0`) and example_bomb.cpp are not part of this model.
- SandboxStates.SandboxState.Reset: takes the gravity as a parameter. In example/code/sandbox.cpp it is `polar(0.001, -TAU / 4)`, and in example/code/example_sandbox.cpp it is zero.

## Findings

| source | as written | input that shows it | evidently intended | confidence | as-written member | corrected member |
|---|---|---|---|---|---|---|
| implementation/utils.cpp:52-58 | the index loop runs `t <= N`, storing indices 3N, 3N + 1 and 3N + 2 one triangle too far, and the fix-up stores to `index_count - 1` | N = 85 passes both assertions and stores to 255, 256 and 257 of a 256-entry array; N = 0 stores to index -1, and any negative N to 3N - 1 < 0 | stop at `t < N`, so the last triangle is fixed up in place | not executed | Meshes.IndexOverrunAsWritten | Meshes.GenerateRegularPolygon |
| example/code/immediate_graphics.cpp:57-61 | the loop emits N triangles ending with (0, N, N + 1), and then the closing (0, N, 1) is emitted as well | N = 3: 12 indices instead of 9, one of them 4, past the 4 vertices reserved | loop to N - 1, then close with (0, N, 1) | not executed | Meshes.ImmediatePolygonOverrunAsWritten | Meshes.ImmediateGraphics.PutRegularPolygon |
| example/code/ui.cpp:58-64 | `world_to_screen` maps the world as if it spanned twice its size and does not flip y, so it does not invert `screen_to_world` | world corner (8, 4.5) of a 16 by 9 world on a 1600 by 900 window goes to (1200, 675), not (1600, 0) | the inverse of `screen_to_world` | not executed | Screens.RoundTripAsWritten | Screens.RoundTrips |
