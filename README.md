# AmmoPhysics: giving an existing scene object a physics body

This project models the part of enable3d's `AmmoPhysics` wrapper that turns an existing
scene object (an `ExtendedObject3D`) into a physics body. It has two parts.

- **Parameter and shape resolution** (`addExisting`). The dimension record starts as
  width = height = depth = 1 and radius = 0.5. The shape kind comes from the config's
  `shape` first, with the config's dimensions spread over the defaults. Failing that it
  comes from the object's own `shape`, with its geometry's `parameters` spread over the
  defaults. Failing both it is `'box'`. An object that already has a body is rejected.
  Only `'convex'` and `'concave'` geometry is re-centered. The shape switch builds a box
  from half the dimensions, or a sphere from the radius, or delegates to the torus,
  triangle-mesh and hull constructors. An unrecognised kind, or a constructor that
  returns nothing, ends the call without registering anything. A built shape gets
  margin 0.05. A given offset is filled in with zeros for the missing components.
- **Body registration** (`addRigidBody`). A body with positive mass gets activation
  state 4, which means it is never deactivated. The object is appended to `rigidBodies`
  and entered in the `objectsAmmo` table under the body's address. The object's
  `hasBody`, `body` and `ptr` fields are set, and the body takes the object's name.
- **`add.ground`** forwards its config with `mass` forced to 0.

Layout:

- `wrappers.dfy`: module `Wrappers`, an `Option` type for properties that may be
  `undefined`.
- `ammo_wrapper.dfy`: module `AmmoWrapper`.
  - The pure resolution functions: `Spread`, `Resolve`, `BuildForm`, `ShouldCenter`,
    `FillOffset`, `MassOf`, `ActivationFor`, `GroundRequest` and `CentersGeometry`.
  - `PlanExisting`, the reference definition of what `addExisting` yields.
  - The class `ExtendedObject3D`, with the fields the wrapper reads and writes.
  - The class `AmmoPhysics`, holding the registry and its invariant `Valid()`.
    - `AddExisting` is proved to return `PlanExisting` of the old object and to keep
      `Valid()`.
    - `AddRigidBody` states the new list, table and object fields in terms of the old
      ones. It keeps `Valid()` whenever the object was not yet listed, which
      `AddExisting` guarantees through its `hasBody` guard.

Modelling choices:

- JavaScript truthiness: a missing `shape` and the empty string `""` both count as
  absent in `if (config.shape)` and `else if (object.shape)`.
- Object spread on the four dimensions is `Spread`, over properties that are present
  (`Some`) or missing (`None`). It differs from the source for a property explicitly set
  to `undefined` (see "Left out").
- An object's geometry may be missing (`None`). Line 114 then contributes no
  parameters. For a convex or concave kind with auto-centering, line 127 calls
  `center()` on the missing geometry and throws. The model returns `GeometryMissing`
  there and changes nothing.
- Numbers are `real`. NaN, infinities and rounding are not modelled.
- The wrapper's own torus, triangle-mesh and hull constructors (`addTorusShape`,
  `addTriMeshShape`, `addHullShape`, from its `Shapes` mixin) are opaque and are given by
  a `Builders` value. It says whether each one returned a
  shape. Torus, triangle-mesh and hull shapes carry no parameters in the model.
- The new body's address (`ptr`) is a parameter of `AddExisting` and `AddRigidBody`.
  Their callers must supply an address not yet in the table, since the engine gives
  every live body its own address.
- `geometry.center()` mutates the geometry in place. The model counts these calls in
  `centerCalls`.
- For positive mass, `addRigidBody` sets activation state 4 (the engine's
  DISABLE_DEACTIVATION). Otherwise it sets none. The model records that as `None`,
  meaning the state is left to the engine.
- `addExisting` returns nothing. It logs a message at the two early returns for an
  object that already has a body (index.ts:121-124) and for a shape not built
  (index.ts:152-155). The `center()` call on a missing geometry (index.ts:127) throws a
  TypeError instead, with no log message. The model's `AddExisting` returns an
  `Outcome`: `AlreadyHasBody`, `GeometryMissing`, `ShapeNotBuilt(kind)` or
  `Registered(body)`.

Facts about the source that the model keeps:

- `addExisting` does not check that box or sphere dimensions are positive
  (index.ts:118-136).
- `addExisting` itself places no condition on the mass of a concave shape. It passes the
  whole config to `addTriMeshShape` (index.ts:144-145), which is not part of this model.
- For `'convex'` and `'concave'` with `autoCenter` on (the default) the geometry is
  centered at index.ts:127, before `addTriMeshShape` runs at index.ts:142-145. If that
  constructor returns nothing, the geometry stays centered but no body is registered.
  The list and the table are never partially updated.
- When the config names a shape, the object's geometry parameters are ignored entirely
  (index.ts:109-111). So `{ shape: 'sphere' }` on a sphere mesh gives radius 0.5 unless
  the config carries a radius (`ConfigShapeIgnoresObject`).

## Model

| member | source | states |
|---|---|---|
| `AmmoWrapper.Truthy` | packages/enable3d/src/ammoWrapper/index.ts:109-112 | a missing shape and the empty string `""` are false; any non-empty string is true |
| `AmmoWrapper.DeclaredParams` | packages/enable3d/src/ammoWrapper/index.ts:114 | a missing geometry contributes no parameters; a present one contributes its `parameters` |
| `AmmoWrapper.Spread` | packages/enable3d/src/ammoWrapper/index.ts:110-114 | every dimension the patch carries wins; every missing one keeps the base value; an empty patch changes nothing |
| `AmmoWrapper.Resolve` | packages/enable3d/src/ammoWrapper/index.ts:106-116 | the resolved kind is never empty and is `'box'`, the config's shape or the object's shape |
| `AmmoWrapper.ConfigShapeWins` | packages/enable3d/src/ammoWrapper/index.ts:109-111 | a truthy config shape is the kind, with the config's dimensions spread over the defaults |
| `AmmoWrapper.ConfigShapeIgnoresObject` | packages/enable3d/src/ammoWrapper/index.ts:109-116 | with a truthy config shape, the object's shape and geometry do not affect the resolution |
| `AmmoWrapper.ObjectShapeNext` | packages/enable3d/src/ammoWrapper/index.ts:112-116 | without a config shape, a truthy object shape is the kind, with the geometry parameters spread over the defaults |
| `AmmoWrapper.BoxFallback` | packages/enable3d/src/ammoWrapper/index.ts:106-107 | without either shape the result is a box with the default dimensions, whatever dimensions are supplied |
| `AmmoWrapper.AbsentParamsKeepDefaults` | packages/enable3d/src/ammoWrapper/index.ts:106-116 | a dimension the chosen source lacks stays at 1 (width, height, depth) or 0.5 (radius) |
| `AmmoWrapper.BuildForm` | packages/enable3d/src/ammoWrapper/index.ts:118-150 | a shape is built exactly for box, sphere, and torus/convex/concave/hull when their constructor succeeds; only known kinds build; box half-extents doubled equal width/height/depth; a sphere's radius is the resolved radius |
| `AmmoWrapper.ShouldCenter` | packages/enable3d/src/ammoWrapper/index.ts:127 | centering is chosen only for a recognised kind other than box, sphere, torus and hull, and never without autoCenter |
| `AmmoWrapper.CentersGeometry` | packages/enable3d/src/ammoWrapper/index.ts:104-127 | addExisting centers only an object without a body that has a geometry, only for a recognised kind, and never with autoCenter false (it defaults to true) |
| `AmmoWrapper.FillOffset` | packages/enable3d/src/ammoWrapper/index.ts:162 | the filled offset takes each supplied component and 0 for each missing one |
| `AmmoWrapper.FillOffsetFull` | packages/enable3d/src/ammoWrapper/index.ts:162 | an offset with all three components is kept as given |
| `AmmoWrapper.MassOf` | packages/enable3d/src/ammoWrapper/index.ts:104 | a missing mass is 1, a supplied mass (0 included) is kept |
| `AmmoWrapper.ActivationFor` | packages/enable3d/src/ammoWrapper/index.ts:190-193 | activation state 4 is set exactly when mass > 0, and no state is set otherwise |
| `AmmoWrapper.DefaultMassNeverSleeps` | packages/enable3d/src/ammoWrapper/index.ts:104 | for every config without a mass, the mass is 1 and the body is never deactivated |
| `AmmoWrapper.GroundRequest` | packages/enable3d/src/ammoWrapper/index.ts:90-91 | add.ground always passes mass 0 and forwards the dimensions unchanged |
| `AmmoWrapper.GroundIsStatic` | packages/enable3d/src/ammoWrapper/index.ts:90-91 | a ground body never gets state 4; no activation state is forced on it |
| `AmmoWrapper.PlanExisting` | packages/enable3d/src/ammoWrapper/index.ts:102-163 | rejected exactly when the object has a body; throws exactly when a mesh kind is centered on a missing geometry; an unknown kind is not built; registered exactly when the shape builds, with the shape BuildForm built, the object's name, margin 0.05, the config mass (default 1), state 4 iff mass > 0 and none otherwise, and the zero-filled offset exactly when one was given |
| `AmmoWrapper.DefaultIsUnitBox` | packages/enable3d/src/ammoWrapper/index.ts:102-119 | an object without a shape added with an empty config becomes a box of half-extents 0.5, mass 1, margin 0.05, never deactivated |
| `AmmoWrapper.PrimitiveDimensions` | packages/enable3d/src/ammoWrapper/index.ts:118-137 | a box kind always registers a box of half the resolved dimensions, a sphere kind a sphere of the resolved radius |
| `AmmoWrapper.UnknownKindChangesNothing` | packages/enable3d/src/ammoWrapper/index.ts:127-155 | an unrecognised kind neither centers the geometry nor registers anything |
| `AmmoWrapper.CenteredMeansTriMesh` | packages/enable3d/src/ammoWrapper/index.ts:127-155 | when the geometry is centered, the call ends either with a triangle-mesh shape registered or with no shape built |
| `AmmoWrapper.AmmoPhysics.constructor` | packages/enable3d/src/ammoWrapper/index.ts:35-36 | the registry starts with an empty list and an empty table, and satisfies its invariant |
| `AmmoWrapper.AmmoPhysics.AddRigidBody` | packages/enable3d/src/ammoWrapper/index.ts:178-206 | the object is appended once and entered under ptr; no other table entry changes; hasBody, ptr and body are set with the object's name and the mass-based activation; the invariant is kept for an object not yet listed |
| `AmmoWrapper.AmmoPhysics.AddExisting` | packages/enable3d/src/ammoWrapper/index.ts:102-163 | the result is PlanExisting of the old object; the invariant is kept; geometry is centered exactly when CentersGeometry holds; a registration appends once, enters ptr and sets hasBody, ptr and body; otherwise list, table and body fields are unchanged; a rejected or throwing call leaves the object untouched |
| `AmmoWrapper.AmmoPhysics.SecondAddRejected` | packages/enable3d/src/ammoWrapper/index.ts:121-124 | after a registering addExisting, a second addExisting on the same object is rejected and leaves list, table and object as the first left them: hasBody, ptr and body as the first set them, centering counted only for the first call, name, shape and geometry unchanged |
| `AmmoWrapper.AmmoPhysics.TableSize` | packages/enable3d/src/ammoWrapper/index.ts:195-205 | under the invariant the table holds exactly one entry per listed object |

## Left out

- Spread: a property explicitly set to `undefined` is treated as missing and keeps its
  default. The source's spread (index.ts:110, 114, 162) copies `undefined` over the
  default, which gives a NaN half-extent or radius. The model has no undefined or NaN
  numbers.

- The engine calls that make the body (`btTransform`, `btDefaultMotionState`,
  `calculateLocalInertia`, `btRigidBodyConstructionInfo`, `btRigidBody`,
  `physicsWorld.addRigidBody`). They belong to a foreign library. The body is the opaque
  `Body` record.
- How the body's address is read (`Object.values(rigidBody)[0]`). It depends on the
  engine's memory layout. The address is a caller-supplied integer not yet in the table.
- `addBodyProperties(object, config)` (index.ts:160). Its code is not part of this model.
  `PlanExisting` and `AddExisting` assume it changes none of `hasBody`, `ptr`, or the
  body's name, shape, mass, activation state and offset.
- The internals of `addTorusShape`, `addTriMeshShape` and `addHullShape`, and the
  collision diffing, constraints and stepping. These live in the `Shapes`, `Events`,
  `Constraints` and `Physics` mixins, which are not part of this model. The three
  constructors are modelled only as succeeding or not.
- `addGround` itself, and the other `add` entries (`box`, `sphere`, `cylinder`, `torus`,
  `extrude`, `collider`, `constraints`). They are mixin code that is not part of this
  model. Only the `mass: 0` override of `add.ground` is modelled. `GroundIsStatic`
  assumes `addGround` passes its config's mass to `addRigidBody`.
- Shared geometry. `geometry.center()` (index.ts:127) changes the geometry object in
  place, and several meshes may share one geometry. The model keeps a centering count on
  each object and holds the geometry as a value per object. So centering through one
  object does not show on the other objects that share its geometry.
- Poses. `position.copy(pos)` and `quaternion.copy(quat)` copy the object's own pose,
  so they change nothing. Floating-point positions and quaternions are not modelled.
- The constructor's gravity default, the async loader `start()`, `logger` messages,
  and the `debug` getter. These are environment probing, I/O, or forwarding to the
  visualizer.
- `packages/dev/src/physics.ts`. It is demo bootstrap: renderer, camera, lights,
  controls and the animation loop.
