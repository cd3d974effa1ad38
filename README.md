# thibzed/opengl — a verified model of the simulation and render bookkeeping

This project models two parts of a small OpenGL solar-system viewer.

**The gravitational Verlet integrator.**
- `CelestialObject` integrates its position by position Verlet. It accumulates the pull of other bodies, `G m / |d|^3 * d`, into `_total_acceleration`, and primes `_r_prev` from its velocity.
- `OrbitalSystem` wires a centre and its orbiters. Its `step` is a force pass followed by one integration per body. The force pass resets the accumulators, adds the centre's pull, and then applies Newton's third law over every pair `i < j`.
- `Planet` and the free functions of `two_body_simulation.cpp` do the same with a Sun fixed at the origin.
- The `main` loops are fixed-step clocks. Each frame charges an accumulator with `deltaTime * 500000` and runs one tick per whole six hours.

**The render bookkeeping.**
- `Cube` holds a 36-vertex table, its GL handles and a cached model matrix that it rebuilds only when dirty. It is move-only, and its destructor releases its handles.
- The disc of `cercle_EBO.cpp` is a fan of 25 triangles over an element buffer.
- `sphere` fills a latitude/longitude grid of `floor(sqrt(nb_points))` points on a side, six floats per point.
- `Mesh::Draw` numbers the sampler uniforms of its textures, one counter per texture type.

How things are represented:
- Vectors are `Vec3` over `real`.
- `sqrt`, `cos` and `sin` are uninterpreted functions; `sqrt` is known only to be positive on positive input.
- GL object names (VAO, VBO, textures) are constructor parameters.
- The GL calls of `Draw` and of the destructor are returned as values: the bindings made, and the handles released.

Layout:
- `vectors.dfy`
- `gravity.dfy`: the pull, the Verlet step, `CelestialObject`, `OrbitalSystem`.
- `planet.dfy`
- `two_body.dfy`
- `fixed_step.dfy`: the accumulator arithmetic.
- `orbital_scene.dfy`
- `cube_geometry.dfy`: the vertex tables.
- `cube.dfy`
- `circle_fan.dfy`
- `sphere.dfy`
- `mesh.dfy`

## Model

| member | source | states |
|---|---|---|
| Gravity.VerletReversible | include/celestial_object.hpp:26-34 | Take one Verlet step, then step again from the new position with the same acceleration: this gives back the previous position. |
| Gravity.PrimedFirstStep | include/celestial_object.hpp:70-74 | After `setup_verlet`, the first Verlet step lands on `r + v dt + dt^2 a / 2`. The primed previous position makes the integrator start with the given velocity. |
| Gravity.AtRestStaysAtRest | include/celestial_object.hpp:26-34 | A body whose previous position equals its position, and which feels no acceleration, does not move. |
| Gravity.InverseCube | include/celestial_object.hpp:51-52 | `1 / norm^3` is defined and positive for every non-zero separation. |
| Gravity.InverseCubeOfReversed | include/celestial_object.hpp:47-52 | The inverse cube is the same when measured from either body. |
| Gravity.Strength | include/celestial_object.hpp:53 | `G m / norm^3` is non-negative for a non-negative mass and positive for a positive one. The pull therefore points from the attracted body towards the attracting one. |
| Gravity.StrengthSwap | include/celestial_object.hpp:53 | `m_i * strength(m_j) == m_j * strength(m_i)` for the same separation. |
| Gravity.ThirdLaw | include/celestial_object.hpp:45-56 | For two distinct positions, `m_i * accFrom(i <- j) == -m_j * accFrom(j <- i)`: Newton's third law, which the comment at line 147 relies on. |
| Gravity.SunPullIsPull | include/planet.hpp:32-36 | The Sun pull written as `-(G M / norm^3) r` equals `compute_acceleration_from` a body of mass `M` at the origin. |
| Gravity.PairExchange | include/celestial_object.hpp:147-151 | Processing one pair `(i, j)` adds `accFrom(i <- j)` to body `i` and `accFrom(j <- i)` to body `j`. No other body's total changes. |
| Gravity.RowComplete | include/celestial_object.hpp:145-153 | Row `i` of the inner loop turns the totals after rows `< i` into the totals after rows `<= i`. |
| Gravity.PassGivesNetPull | include/celestial_object.hpp:137-154 | After the centre pass and every row, each orbiter's total is the centre's pull plus the sum of the pulls of all other orbiters. The pair-by-pair order of the loops gives the same result as summing each body's pulls directly. |
| Gravity.PassVisitsEachPairOnce | include/celestial_object.hpp:145-147 | The two loops visit exactly the pairs `a < b < n`. Each pair is visited once, in lexicographic order. |
| Gravity.NetPulls | include/celestial_object.hpp:137-154 | One net pull per orbiter: entry `k` is the pull of the centre and of every other orbiter on orbiter `k`. |
| Gravity.Moved | include/celestial_object.hpp:159-161 | Entry `k` is the Verlet step of orbiter `k` under acceleration `k`. |
| Gravity.Integrated | include/celestial_object.hpp:155-162 | Every orbiter moves by its Verlet step and its old position becomes its previous one. A fixed centre keeps its position and previous position; an unfixed one takes its own Verlet step. |
| Gravity.TickMoves | include/celestial_object.hpp:163-166 | One tick moves each orbiter by a Verlet step under its net pull at the positions before the tick. A fixed centre stays; an unfixed one steps with zero acceleration. |
| Gravity.FixedCenterStays | include/celestial_object.hpp:155-166 | However many ticks run, a fixed centre keeps its position and previous position. |
| Gravity.RestingCenterStays | include/celestial_object.hpp:26-34 | A centre that starts at rest is still at rest, at the same place, after any number of ticks, fixed or not. |
| Gravity.CelestialObject.constructor | include/celestial_object.hpp:18-25 | `_r = _r_prev = r0`, `_v = v0`, `_m = mass`, and both accelerations are zero. |
| Gravity.CelestialObject.Integrate | include/celestial_object.hpp:26-34 | `_r` becomes the Verlet step from the old `_r` and `_r_prev` with the total acceleration. `_r_prev` becomes the old `_r`, and `_a` becomes the total acceleration. |
| Gravity.CelestialObject.ComputeAccelerationFrom | include/celestial_object.hpp:45-56 | The result is `G m_o / norm^3 * (pos(o) - pos(self))`. Nothing is modified. |
| Gravity.CelestialObject.AddAcceleration | include/celestial_object.hpp:57-61 | The total acceleration grows by the argument, componentwise. No other field changes. |
| Gravity.CelestialObject.ResetAcceleration | include/celestial_object.hpp:62-64 | The total acceleration becomes zero. No other field changes. |
| Gravity.CelestialObject.SetupVerlet | include/celestial_object.hpp:70-74 | `_r_prev = r - v dt + dt^2 total / 2`. No other field changes. |
| Gravity.CelestialObject.GetPos | include/celestial_object.hpp:75-77 | Returns the position. |
| Gravity.CelestialObject.GetMass | include/celestial_object.hpp:78-80 | Returns the mass. |
| Gravity.OrbitalSystem.constructor | include/celestial_object.hpp:114 | The centre is the one given. There are no orbiters and no subsystems, and the centre is not fixed. |
| Gravity.OrbitalSystem.AddOrbiters | include/celestial_object.hpp:116-118 | Appends the orbiter and keeps everything else. |
| Gravity.OrbitalSystem.AddSubsystem | include/celestial_object.hpp:119-121 | Appends the subsystem and keeps everything else. |
| Gravity.OrbitalSystem.FixCenter | include/celestial_object.hpp:167-169 | Sets the fixed flag and keeps everything else. |
| Gravity.OrbitalSystem.PrimeOrbiter | include/celestial_object.hpp:124-127 | One pass of `initialize`: the orbiter's total is the centre's pull, and its previous position is primed from it. |
| Gravity.OrbitalSystem.Initialize | include/celestial_object.hpp:122-129 | Every orbiter's total is the centre's pull, and every previous position is primed from it. The centre is untouched. |
| Gravity.OrbitalSystem.ComputeAllAccelerations | include/celestial_object.hpp:137-154 | The centre's total is zero. Every orbiter's total is its net pull from the centre and all other orbiters (NetPulls of the current positions and masses). The visited pairs are those of PassVisitsEachPairOnce. |
| Gravity.OrbitalSystem.StartAccumulators | include/celestial_object.hpp:138-144 | The centre's total is zero, and every orbiter's total is the centre's pull alone. |
| Gravity.OrbitalSystem.ResetOrbiterAccelerations | include/celestial_object.hpp:139 | Every orbiter's total is zero. |
| Gravity.OrbitalSystem.AddCenterPulls | include/celestial_object.hpp:140-144 | Every orbiter's total grows by the centre's pull. |
| Gravity.OrbitalSystem.AddCenterPull | include/celestial_object.hpp:142-143 | One orbiter's total grows by the centre's pull. |
| Gravity.OrbitalSystem.AddPairwisePulls | include/celestial_object.hpp:145-153 | The outer loop adds, to every orbiter, the pulls of all other orbiters at the positions of the start of the pass. |
| Gravity.OrbitalSystem.AddRowPulls | include/celestial_object.hpp:146-152 | Row `i` leaves the totals given by the row invariant. It visits `(i, i+1) .. (i, n-1)`. |
| Gravity.OrbitalSystem.ExchangePulls | include/celestial_object.hpp:148-151 | One pair step moves the totals from the state before `j` to the state after `j` (PairExchange). |
| Gravity.OrbitalSystem.AddPairAccelerations | include/celestial_object.hpp:148-151 | Body `i` gains `accFrom(i <- j)`, and body `j` gains `accFrom(j <- i)`. |
| Gravity.OrbitalSystem.Integrate | include/celestial_object.hpp:155-162 | The new positions are Integrated of the old ones with the accumulated totals: every orbiter takes one Verlet step and records the total it used in `a`; the centre steps only if it is not fixed. |
| Gravity.OrbitalSystem.IntegrateOrbiters | include/celestial_object.hpp:159-161 | Every orbiter's position becomes the Verlet step (Moved) of its old position, previous position and total; its previous position becomes its old position and its `a` the total. |
| Gravity.OrbitalSystem.Step | include/celestial_object.hpp:163-166 | The new positions are exactly one Tick of the old ones. Every orbiter's total and `a` hold its net pull at the positions before the tick. The centre's total is zero, and an unfixed centre records zero in `a`. |
| Gravity.OrbitalSystem.CountedStep | include/celestial_object.hpp:163-166 | If the positions are `n` ticks from a start, one `step` puts them `n + 1` ticks from it. |
| Planets.InwardPullIsSunPull | include/planet.hpp:32-36 | The acceleration `compute_step` writes equals the Sun pull and `compute_acceleration_from` a body of mass `M` at the origin. |
| Planets.AdvanceOneMore | include/planet.hpp:26-40 | `n + 1` steps are `n` steps followed by one more, whenever that step is defined. |
| Planets.SunStepFollowsLaw | include/planet.hpp:26-40 | After `compute_step`, `_r_prev` is the old `_r`, and `_a` is the Sun's pull at the new position. |
| Planets.FirstStepFromStart | include/planet.hpp:62-73 | From the constructor's state, the first step lands on `r0 + v0 dt + dt^2 a0 / 2`. |
| Planets.LoneOrbiterFeelsSunPull | include/planet.hpp:26-40 | A single body around a centre at the origin feels exactly the Sun pull that `Planet` hard-codes. So `Planet` is the one-orbiter case of `OrbitalSystem`. |
| Planets.Planet.constructor | include/planet.hpp:10-17 | Stores `r0`, `v0`, `radius` and `dt`, then runs `setup_init_condition`. The state is the primed start state. |
| Planets.Planet.GetPos | include/planet.hpp:19-21 | Returns the current position. |
| Planets.Planet.SetupInitCondition | include/planet.hpp:62-73 | `_a` is the Sun's pull at `_r`, and `_r_prev` is primed from `_v` and `_a`. |
| Planets.Planet.ComputeStep | include/planet.hpp:26-40 | The new state is one Sun step of the old one. |
| TwoBody.Simulation.constructor | src/two_body_simulation.cpp:93-110 | The globals start empty (zero), with the accumulator at 0. |
| TwoBody.Simulation.SetupInitCondition | src/two_body_simulation.cpp:112-127 | The Sun is at the origin and the Earth at 1 AU with 29780 m/s. `a` is the Sun's pull there, and `r_prev` is primed. |
| TwoBody.Simulation.NextStep | src/two_body_simulation.cpp:129-145 | The new state is one Sun step of the old one. |
| TwoBody.Simulation.RunFrame | src/two_body_simulation.cpp:214-223 | Earth and Mars advance by exactly the number of ticks taken out of the accumulator. With a non-negative charge, that number is `floor(charge / dt)`, and less than one tick is left over. |
| TwoBody.StartScene | src/two_body_simulation.cpp:177-190 | Earth and Mars are distinct planets. The Earth starts where `setup_init_condition` puts it, and Mars at 2.279e11 m with 24080 m/s. |
| FixedStep.StepsForBounds | src/orbital_system.cpp:236-241 | `StepsFor(acc, dt) * dt <= acc < (StepsFor(acc, dt) + 1) * dt`: the number of whole ticks in the charge. |
| FixedStep.DrainedSteps | src/orbital_system.cpp:236-241 | A loop that stops with `0 <= acc - steps * dt < dt` has run exactly `StepsFor(acc, dt)` times. |
| OrbitalScene.PhysicsClock.RunFrame | src/orbital_system.cpp:236-241 | The bodies end exactly `steps` ticks (Ticks) from where the frame found them. The accumulator ends at the charge minus `steps * dt`. With a non-negative charge, `steps` is the number of whole ticks and less than one tick is left. A fixed centre, or one at rest, does not move. |
| OrbitalScene.PhysicsClock.Drain | src/orbital_system.cpp:237-241 | The `while` loop: after `steps` passes the bodies are `steps` ticks from the start and the accumulator has lost `steps * dt`. It stops below one tick, or before a tick in which two bodies would coincide. |
| OrbitalScene.PhysicsClock.SpendTick | src/orbital_system.cpp:238-240 | One pass of the loop: the accumulator loses one tick and the bodies move one more tick from the start. |
| OrbitalScene.CreateBodies | src/orbital_system.cpp:134-150 | Six fresh bodies, each with the start position, velocity and mass of the scene, and no acceleration yet. |
| OrbitalScene.WireSolarSystem | src/orbital_system.cpp:210-219 | The Sun is the fixed centre. Mars, Venus and Mercury are its orbiters, in that order, and the Earth system is its only subsystem. |
| OrbitalScene.BuildSolarSystem | src/orbital_system.cpp:134-221 | The wired scene is valid and separated. The Earth and the Moon are outside the bodies a tick can move. |
| OrbitalScene.PrimeOrbiters | src/orbital_system.cpp:221 | `initialize` keeps the system separated. |
| OrbitalScene.RunOrbitalSystem | src/orbital_system.cpp:221-241 | However many frames run, the Sun, the Earth and the Moon never move, and the orbiters stay Mars, Venus and Mercury. |
| CubeGeometry.Interleaved | include/cube.hpp:385-399 | The flat array has `stride` floats per vertex. Float `stride * i + k` is attribute `k` of vertex `i`: position at 0-2, normal at 3-5, texture coordinates at 6-7. |
| CubeGeometry.VertexArraySizes | include/cube.hpp:286-377 | The untextured array holds 36 * 6 = 216 floats and the textured one 36 * 8 = 288. Both cover the 36 vertices that `render` draws. |
| CubeGeometry.FacesAreGood | include/cube.hpp:332-377 | On each of the six faces, every vertex lies on the face plane its normal points out of, and the face's two triangles share their diagonal. |
| CubeGeometry.TableEntry | include/cube.hpp:332-377 | Vertex `c` of face `f` sits at position `6 f + c` of the table. |
| CubeGeometry.CubeTableIsACube | include/cube.hpp:286-377 | The table has 36 vertices. Each lies on the face its normal names, all six vertices of a face share one normal, and each face is two triangles sharing a diagonal. |
| Cubes.DestructorReleasesAsWritten | include/cube.hpp:80-88 | Releases the VAO and VBO first. With `_hasTexture` set, the specular texture is released only if it happens to equal another handle. |
| Cubes.DualTextureLeaksSpecular | include/cube.hpp:80-88 | For a dual-textured cube (`_hasTexture` and `_hasDualTexture` both set), the destructor as written never releases the specular texture. |
| Cubes.DestructorReleases | include/cube.hpp:80-88 | Releases the VAO, the VBO, the diffuse texture of a textured cube, and the specular texture of a dual-textured one. It releases nothing else. |
| Cubes.MoveReleases | include/cube.hpp:37-44 | Move assignment releases only non-zero handles. |
| Cubes.MoveAndDestructorReleaseTheSame | include/cube.hpp:37-44 | Move assignment releases the same set of non-zero handles as the corrected destructor. |
| Cubes.MovedFromReleasesNothing | include/cube.hpp:30-33 | A moved-from cube owns no handle: its destructor releases only zeros, and a move into it releases nothing. |
| Cubes.MovedFrom | include/cube.hpp:30-33 | A moved-from cube has no vertices and zero handles. Every other field is unchanged. |
| Cubes.MoveHandsOff | include/cube.hpp:23-34 | After a move, the source's destructor releases no live handle, so no handle is owned twice. The source keeps its transform and its cached model. |
| Cubes.Cube.WithColor | include/cube.hpp:239-246 | Colour mode, untextured vertices, the given colour and centre, and the default transform. |
| Cubes.Cube.WithMaterial | include/cube.hpp:248-255 | Material mode, untextured vertices, the given material and centre, and the default transform. |
| Cubes.Cube.WithTexture | include/cube.hpp:257-266 | Texture mode, textured vertices, and one diffuse texture. |
| Cubes.Cube.WithDualTexture | include/cube.hpp:268-278 | Texture mode, textured vertices, and both the diffuse and the specular texture. Both flags are set. |
| Cubes.Cube.Moved | include/cube.hpp:23-34 | The new cube has the whole state of the source, and the source is left in its moved-from state. |
| Cubes.Cube.MoveAssign | include/cube.hpp:36-69 | Self-assignment changes nothing and releases nothing. Otherwise the target first releases its own non-zero handles, then takes the source's whole state, and the source is left moved-from. |
| Cubes.Cube.SetColor | include/cube.hpp:187-189 | Sets the colour. |
| Cubes.Cube.SetPosition | include/cube.hpp:190-195 | Sets the centre. The model becomes dirty exactly when the centre changed, or stays dirty; the cached model stays coherent. |
| Cubes.Cube.SetScale | include/cube.hpp:196-201 | Sets the scale, with the same dirty rule. |
| Cubes.Cube.SetRotation | include/cube.hpp:202-208 | Sets angle and axis. The model becomes dirty when either changed. |
| Cubes.Cube.GetModel | include/cube.hpp:209-215 | Returns `translate(center) * rotate(radians(angle), axis) * scale` for the current fields and clears the dirty flag. A clean cache is returned as it was. |
| Cubes.Cube.UpdateModelStep | include/cube.hpp:280-285 | The model becomes the product of the translation, the rotation and the scale. |
| CircleFan.FanVertexLayout | src/cercle_EBO.cpp:70-83 | `(1 + n) * 3` floats. Vertex 0 is the origin. Rim vertex `i + 1` is at `(R cos(i dalpha), R sin(i dalpha), 0)`. |
| CircleFan.FillVertices | src/cercle_EBO.cpp:70-83 | The loop fills a new array with exactly the fan's vertex floats. |
| CircleFan.FillIndices | src/cercle_EBO.cpp:85-92 | The loop fills a new array with exactly the fan's indices. |
| CircleFan.TriangleIndices | src/cercle_EBO.cpp:87-92 | Triangle `t` is `(0, t + 1, (t + 1) % n + 1)`. |
| CircleFan.IndicesInBounds | src/cercle_EBO.cpp:85-92 | Every index is at most `n`, so it names a vertex of the vertex array. |
| CircleFan.LastTriangleWraps | src/cercle_EBO.cpp:91 | The last triangle closes the disc: its third vertex is rim vertex 1. |
| CircleFan.ConsecutiveTrianglesShareAnEdge | src/cercle_EBO.cpp:90-91 | The third vertex of triangle `t` is the second vertex of triangle `t + 1`. |
| CircleFan.EveryRimVertexUsed | src/cercle_EBO.cpp:87-92 | Every rim vertex is the second vertex of one triangle and the third vertex of the one before it. |
| CircleFan.BuildDisc | src/cercle_EBO.cpp:66-92 | With 25 triangles of radius 0.5, the arrays hold 78 and 75 entries, with the fan's contents. |
| Spheres.ISqrt | include/sphere.hpp:18 | `k * k <= n < (k + 1)^2`. |
| Spheres.ISqrtUnique | include/sphere.hpp:18 | That `k` is the only one with this property, so the grid side is well defined. |
| Spheres.GridAtLeastEight | include/sphere.hpp:14-19 | Past the check, the grid is at least 8 by 8. |
| Spheres.SlotOf | include/sphere.hpp:32 | `i * n + j` lies inside the `n * n` slots, and `i` and `j` are recovered from it by division. |
| Spheres.SlotsDisjoint | include/sphere.hpp:32 | Different grid points get different slots, so no write overwrites another point. |
| Spheres.PointAt | include/sphere.hpp:32-38 | Float `6 (i n + j) + k` of the buffer is float `k` of grid point `(i, j)`. |
| Spheres.SlotContents | include/sphere.hpp:23-38 | The slot of `(i, j)` holds `(R cos lat cos lon, R sin lat, R cos lat sin lon)`, then the colour's first three components. |
| Spheres.FillGrid | include/sphere.hpp:20-41 | The nested loops fill a new `n * n * 6` buffer with exactly the grid's floats. |
| Spheres.WritePoint | include/sphere.hpp:26-38 | The six floats of one point are written at `base`, and nothing else changes. |
| Spheres.Sphere.constructor | include/sphere.hpp:12-42 | The grid side is `floor(sqrt(nb_points))`, at least 8. The buffer holds every grid point's position and colour. |
| Spheres.Sphere.GetRadius | include/sphere.hpp:52-54 | Returns the radius given to the constructor. |
| Spheres.MakeSphere | include/sphere.hpp:12-16 | Fewer than 64 points throws `invalid_argument`, and exactly then. Otherwise the sphere is built as the constructor states. |
| Spheres.BufferSizeExactBelow | include/sphere.hpp:18-20 | Up to 357913941 points, the `int` size equals the true `n * n * 6`. |
| Spheres.BufferSizeOverflows | include/sphere.hpp:18-20 | With 400000000 points the `int` size, wrapped as two's-complement targets usually do, is -1894967296, while the loops write 2400000000 floats. |
| Meshes.NatToString | include/mesh.h:47-48 | `std::to_string` of a counter is a non-empty string of decimal digits. |
| Meshes.ParseNatToString | include/mesh.h:47-48 | Reading the digits back gives the number, a round trip. |
| Meshes.NatToStringInjective | include/mesh.h:47-48 | Different counters give different strings. |
| Meshes.CountMonotone | include/mesh.h:43-48 | Counting textures of one type over a longer prefix never gives fewer. |
| Meshes.UnitsFollowTextureOrder | include/mesh.h:43-51 | Texture `i` is bound to texture unit `i`, and its sampler uniform is set to `i`. |
| Meshes.DiffuseNumbering | include/mesh.h:40-47 | The `k`-th `texture_diffuse` texture, counting from 1, is sampled through `texture_diffuse` followed by `k`. |
| Meshes.SpecularNumbering | include/mesh.h:41-48 | The `k`-th `specular_diffuse` texture is numbered `k` by its own counter. |
| Meshes.FirstDiffuseIsOne | include/mesh.h:40-47 | The first diffuse texture is `texture_diffuse1`. |
| Meshes.OtherTypesUnnumbered | include/mesh.h:45-50 | A texture of any other type uses its bare type name. |
| Meshes.NumberedNamesDistinct | include/mesh.h:40-50 | Two numbered textures of the same type never share a sampler name. |
| Meshes.Mesh.constructor | include/mesh.h:35-36 | Vertices, indices and textures are stored unchanged. |
| Meshes.Mesh.Draw | include/mesh.h:39-56 | The counter loop makes exactly the bindings of the count-based specification. Then all indices are drawn. |

## Left out

- All OpenGL, GLFW and stb calls are not modelled: buffer, texture and shader creation (`setupBuffer`, `loadTexture`, `setupMesh`), `render`, uniforms, window setup and the `processInput`/mouse/scroll callbacks. GL names enter as parameters, and `Draw` and the destructor return what they would bind or delete.
- Floating point is not modelled. All arithmetic is over `real`: the `float`/`double` mixing in `compute_acceleration_from` and the rounding of `float` are absent.
- `cos`, `sin` and `sqrt` are uninterpreted. Orbit closure, energy bounds and the one-year orbit are numerical behaviour and are not stated.
- Coinciding bodies are not modelled: a pull between them divides by zero in the source, so every pull requires distinct positions. The frame loops (TwoBody.Simulation.RunFrame, OrbitalScene.PhysicsClock.RunFrame) stop the frame before such a tick and report `singular`. For the same reason, a `Planet` at the origin (the Sun object `S` of the two-body `main`) is not constructed.
- `OrbitalSystem` subsystems are stored but never traversed, as in the header. The scene of src/orbital_system.cpp also calls `define_center`, `set_orbitalSystem`, `set_orbitalCenter`, `set_display_scale` and a default constructor, none of which the header declares. Only the construction values, the wiring order and the accumulator loop are kept.
- OrbitalScene.PrimeOrbiters: its own contract states only that the system stays separated. What `initialize` does to each orbiter is the contract of Gravity.OrbitalSystem.Initialize, which it calls.
- Cubes.Cube.WithColor, Cubes.Cube.WithMaterial, Cubes.Cube.WithTexture, Cubes.Cube.WithDualTexture: fields a constructor leaves uninitialised in the source (the material of a colour cube, the colour of a material cube, and so on) are set to zero here.
- Cubes.Cube.Moved, Cubes.Cube.MoveAssign: the moved-from vertex vector is stated as empty. The C++ standard leaves it valid but unspecified.
- The `Shader` members of `Cube` and of `CelestialObject`, `get_shader`, `set_light_attenuation` and the orbit-trail fields are GL state and are not modelled.
- src/solar_system.cpp is not part of this model: it repeats the accumulator loop of src/orbital_system.cpp.
- src/texture.cpp is not part of this model: it is commented out.
- src/shaders.cpp, src/sphere.cpp and src/cube.cpp are not part of this model: they are GL demo programs.
- src/compute_traj.cpp, src/force.cpp and include/force.hpp are not part of this model: they hold a float trajectory demo and a vector-magnitude helper.
- Spheres.ISqrt: the grid side is the exact integer square root. The source takes `floor(sqrt(nb_points))` in double precision, which gives the same value for every `int` input; the floating-point steps themselves are not modelled.
- The console output of the `sphere` constructor is not modelled, and neither is its include guard, which defines `SHPERE_HPP` after testing `SPHERE_HPP`.
- Spheres.Sphere.constructor: it requires a colour of at least three components, because the source reads `_color[0..2]` with no check.
- The `sphere` destructor and `get_points` are not modelled: the buffer is the `points` field.
- Meshes.Mesh.Draw: the texture type is compared with `"specular_diffuse"` as written. The `GLuint` counters and loop index are unbounded here, since wrap-around would need 2^32 textures.
- The `int` arithmetic of the circle fan and the grid loops is unbounded. Only the sphere's buffer size, where it can overflow, is modelled in 32 bits (see Findings).

## Findings

| source | as written | input that shows it | evidently intended | confidence | as-written member | corrected member |
|---|---|---|---|---|---|---|
| include/cube.hpp:80-88 | The destructor deletes the specular texture only in the `else if (_hasDualTexture)` branch. The dual-texture constructor sets both `_hasTexture` and `_hasDualTexture`, so that branch never runs. | A cube built by `withDualTexture` with diffuse texture 3 and specular texture 4: the destructor deletes the VAO, the VBO and texture 3, never texture 4. | Delete the diffuse texture of any textured cube, and the specular one of a dual-textured cube, as the move assignment does. | high; not executed | Cubes.DestructorReleasesAsWritten, Cubes.DualTextureLeaksSpecular | Cubes.DestructorReleases, Cubes.MoveAndDestructorReleaseTheSame |
| include/sphere.hpp:18-20 | The buffer size `nb_lat * nb_long * 6` is computed in `int`. | `nb_points = 400000000`: a 20000 by 20000 grid needs 2400000000 floats, but signed overflow is undefined behaviour, and on the usual two's-complement targets the product wraps to -1894967296, so `new float[...]` fails. | Compute the size without overflow, so the buffer holds every float the loops write. | medium; not executed | Spheres.BufferSizeAsWritten, Spheres.BufferSizeOverflows | Spheres.FillGrid, Spheres.Sphere.constructor |
