/**
 * The "give an existing scene object a physics body" path of the
 * AmmoPhysics wrapper: how `addExisting` resolves a shape descriptor from a
 * config object and the object's own declared geometry, which shape it
 * builds, and how `addRigidBody` registers the new body.
 *
 * The wrapper's torus, triangle-mesh and hull constructors (its `Shapes`
 * mixin) are opaque: a `Builders` value says whether each of them returned
 * a shape. The engine's body itself is the `Body`
 * record, and its address (`ptr`) is supplied by the caller.
 */
module AmmoWrapper {
  import opened Wrappers

  // ---------------------------------------------------------------------------
  // Shape parameters and their resolution
  // ---------------------------------------------------------------------------

  /** The four dimensions `addExisting` reads from its parameter record. */
  datatype Params = Params(width: real, height: real, depth: real, radius: real)

  /** A partial parameter record, as a config object or a geometry's
      `parameters` carries it; a missing property is `None`. */
  datatype ParamsPatch = ParamsPatch(width: Option<real>, height: Option<real>,
                                     depth: Option<real>, radius: Option<real>)

  const NoPatch: ParamsPatch := ParamsPatch(None, None, None, None)

  /** The starting record: a unit box, and radius one half. */
  const DefaultParams: Params := Params(1.0, 1.0, 1.0, 0.5)

  /** Object spread `{ ...base, ...patch }` on the four dimensions: every
      property the patch carries replaces the one of `base`. */
  function Spread(base: Params, patch: ParamsPatch): (r: Params)
    ensures patch == NoPatch ==> r == base
    ensures patch.width.Some? ==> r.width == patch.width.value
    ensures patch.height.Some? ==> r.height == patch.height.value
    ensures patch.depth.Some? ==> r.depth == patch.depth.value
    ensures patch.radius.Some? ==> r.radius == patch.radius.value
    ensures patch.width.None? ==> r.width == base.width
    ensures patch.height.None? ==> r.height == base.height
    ensures patch.depth.None? ==> r.depth == base.depth
    ensures patch.radius.None? ==> r.radius == base.radius
  {
    Params(patch.width.GetOr(base.width), patch.height.GetOr(base.height),
           patch.depth.GetOr(base.depth), patch.radius.GetOr(base.radius))
  }

  /** A point given as x, y, z. */
  datatype Vec3 = Vec3(x: real, y: real, z: real)

  /** A partial point: the components a caller supplied. */
  datatype Vec3Patch = Vec3Patch(x: Option<real>, y: Option<real>, z: Option<real>)

  /** What `addExisting` reads from its `config` argument. */
  datatype Config = Config(shape: Option<string>, params: ParamsPatch, mass: Option<real>,
                           autoCenter: Option<bool>, offset: Option<Vec3Patch>)

  /** `add.existing(object)` passes `{}`. */
  const EmptyConfig: Config := Config(None, NoPatch, None, None, None)

  /** JavaScript truthiness of an optional string: missing and `""` are false. */
  function Truthy(s: Option<string>): (t: bool)
    ensures s.None? ==> !t
    ensures s == Some("") ==> !t
    ensures s.Some? && |s.value| > 0 ==> t
  {
    s.Some? && s.value != ""
  }

  /** The shape kind chosen, and the parameter record it is built from. */
  datatype Resolution = Resolution(kind: string, params: Params)

  /** Shape-kind precedence: the config's `shape` (with the config's
      dimensions over the defaults), else the object's own `shape` (with its
      geometry's `parameters` over the defaults), else a default box. */
  function Resolve(config: Config, objectShape: Option<string>, geometry: ParamsPatch): (r: Resolution)
    ensures r.kind != ""
    ensures r.kind == "box" || (config.shape.Some? && r.kind == config.shape.value)
                            || (objectShape.Some? && r.kind == objectShape.value)
  {
    if Truthy(config.shape) then Resolution(config.shape.value, Spread(DefaultParams, config.params))
    else if Truthy(objectShape) then Resolution(objectShape.value, Spread(DefaultParams, geometry))
    else Resolution("box", DefaultParams)
  }

  lemma ConfigShapeWins(config: Config, objectShape: Option<string>, geometry: ParamsPatch)
    requires Truthy(config.shape)
    ensures Resolve(config, objectShape, geometry).kind == config.shape.value
    ensures Resolve(config, objectShape, geometry).params == Spread(DefaultParams, config.params)
  {}

  /** With a config shape, the object's own shape and geometry play no part. */
  lemma ConfigShapeIgnoresObject(config: Config, s1: Option<string>, g1: ParamsPatch,
                                 s2: Option<string>, g2: ParamsPatch)
    requires Truthy(config.shape)
    ensures Resolve(config, s1, g1) == Resolve(config, s2, g2)
  {}

  lemma ObjectShapeNext(config: Config, objectShape: Option<string>, geometry: ParamsPatch)
    requires !Truthy(config.shape) && Truthy(objectShape)
    ensures Resolve(config, objectShape, geometry) ==
            Resolution(objectShape.value, Spread(DefaultParams, geometry))
  {}

  /** Without either shape the result is the unit box, whatever dimensions
      the config or the geometry carry. */
  lemma BoxFallback(config: Config, objectShape: Option<string>, geometry: ParamsPatch)
    requires !Truthy(config.shape) && !Truthy(objectShape)
    ensures Resolve(config, objectShape, geometry) == Resolution("box", DefaultParams)
  {}

  /** A dimension that the chosen source does not carry keeps its default. */
  lemma AbsentParamsKeepDefaults(config: Config, objectShape: Option<string>, geometry: ParamsPatch)
    ensures var chosen := if Truthy(config.shape) then config.params
                          else if Truthy(objectShape) then geometry else NoPatch;
            var p := Resolve(config, objectShape, geometry).params;
            (chosen.width.None? ==> p.width == 1.0) && (chosen.height.None? ==> p.height == 1.0) &&
            (chosen.depth.None? ==> p.depth == 1.0) && (chosen.radius.None? ==> p.radius == 0.5)
  {}

  // ---------------------------------------------------------------------------
  // Collision shapes
  // ---------------------------------------------------------------------------

  /** The engine's collision shapes; a box carries its half-extents. The
      torus, triangle-mesh and hull shapes are built by code not modelled. */
  datatype ShapeForm = BoxShape(hx: real, hy: real, hz: real) | SphereShape(radius: real)
                     | TorusShape | TriMeshShape | HullShape

  /** A collision shape with its collision margin. */
  datatype AmmoShape = AmmoShape(form: ShapeForm, margin: real)

  /** The margin `addExisting` sets on every shape it builds. */
  const Margin: real := 0.05

  /** The kinds the shape switch recognises. */
  const Kinds: set<string> := {"box", "sphere", "torus", "convex", "concave", "hull"}

  /** Whether each opaque shape constructor returned a shape. */
  datatype Builders = Builders(torus: bool, triMesh: bool, hull: bool)

  /** The shape switch: the shape built for a kind, or `None` when the kind
      is not recognised or its constructor returned nothing. */
  function BuildForm(kind: string, p: Params, b: Builders): (r: Option<ShapeForm>)
    ensures r.Some? ==> kind in Kinds
    ensures r.Some? <==> (kind == "box" || kind == "sphere" || (kind == "torus" && b.torus) ||
                          ((kind == "convex" || kind == "concave") && b.triMesh) ||
                          (kind == "hull" && b.hull))
    ensures (kind == "box") <==> (r.Some? && r.value.BoxShape?)
    ensures (kind == "sphere") <==> (r.Some? && r.value.SphereShape?)
    ensures r.Some? && r.value.BoxShape? ==>
              2.0 * r.value.hx == p.width && 2.0 * r.value.hy == p.height && 2.0 * r.value.hz == p.depth
    ensures r.Some? && r.value.SphereShape? ==> r.value.radius == p.radius
  {
    match kind
    case "box" => Some(BoxShape(p.width / 2.0, p.height / 2.0, p.depth / 2.0))
    case "sphere" => Some(SphereShape(p.radius))
    case "torus" => if b.torus then Some(TorusShape) else None
    case "convex" => if b.triMesh then Some(TriMeshShape) else None
    case "concave" => if b.triMesh then Some(TriMeshShape) else None
    case "hull" => if b.hull then Some(HullShape) else None
    case _ => None
  }

  /** Centering applies to the custom mesh kinds only, and only with `autoCenter`. */
  function ShouldCenter(kind: string, autoCenter: bool): (c: bool)
    ensures c ==> kind in Kinds
    ensures c ==> kind != "box" && kind != "sphere" && kind != "torus" && kind != "hull"
    ensures !autoCenter ==> !c
  {
    autoCenter && (kind == "convex" || kind == "concave")
  }

  /** `{ x: 0, y: 0, z: 0, ...offset }`. */
  function FillOffset(p: Vec3Patch): (v: Vec3)
    ensures p.x.Some? ==> v.x == p.x.value
    ensures p.y.Some? ==> v.y == p.y.value
    ensures p.z.Some? ==> v.z == p.z.value
    ensures p.x.None? ==> v.x == 0.0
    ensures p.y.None? ==> v.y == 0.0
    ensures p.z.None? ==> v.z == 0.0
  {
    Vec3(p.x.GetOr(0.0), p.y.GetOr(0.0), p.z.GetOr(0.0))
  }

  lemma FillOffsetFull(v: Vec3)
    ensures FillOffset(Vec3Patch(Some(v.x), Some(v.y), Some(v.z))) == v
  {}

  // ---------------------------------------------------------------------------
  // Mass and activation
  // ---------------------------------------------------------------------------

  /** The activation state that stops the engine from putting a body to sleep. */
  const DisableDeactivation: int := 4

  /** `mass` defaults to 1. */
  function MassOf(config: Config): (m: real)
    ensures config.mass.None? ==> m == 1.0
    ensures config.mass.Some? ==> m == config.mass.value
  {
    config.mass.GetOr(1.0)
  }

  /** The activation state `addRigidBody` sets on a body created with
      `mass`; `None` when it sets none and leaves the state to the engine. */
  function ActivationFor(mass: real): (state: Option<int>)
    ensures state == Some(DisableDeactivation) <==> mass > 0.0
    ensures state.None? <==> mass <= 0.0
  {
    if mass > 0.0 then Some(DisableDeactivation) else None
  }

  /** Whatever else the config says, a missing mass means a body that is
      never deactivated. */
  lemma DefaultMassNeverSleeps(config: Config)
    requires config.mass.None?
    ensures MassOf(config) == 1.0 && ActivationFor(MassOf(config)) == Some(DisableDeactivation)
  {}

  /** What `add.ground` reads from its argument. */
  datatype GroundConfig = GroundConfig(params: ParamsPatch, mass: Option<real>)

  /** `add.ground` replaces any mass by 0 and forwards the rest unchanged. */
  function GroundRequest(g: GroundConfig): (r: GroundConfig)
    ensures r.mass == Some(0.0)
    ensures r.params == g.params
  {
    g.(mass := Some(0.0))
  }

  /** A ground is static: no activation state is forced on its body. */
  lemma GroundIsStatic(g: GroundConfig)
    ensures ActivationFor(GroundRequest(g).mass.GetOr(1.0)).None?
    ensures ActivationFor(GroundRequest(g).mass.GetOr(1.0)) != Some(DisableDeactivation)
  {}

  // ---------------------------------------------------------------------------
  // Bodies and the addExisting plan
  // ---------------------------------------------------------------------------

  /** The physics body an object gets: the engine body's name, its shape,
      mass, the activation state the wrapper set (None when it set none),
      and the body wrapper's offset (None when `addExisting` sets none). */
  datatype Body = Body(name: string, shape: AmmoShape, mass: real, activation: Option<int>,
                       offset: Option<Vec3>)

  /** What `addExisting` reads from the object. `geometry` is None when the
      object has no geometry, and otherwise its `parameters` (`NoPatch` when
      it has none). */
  datatype ObjectView = ObjectView(name: string, shape: Option<string>, geometry: Option<ParamsPatch>,
                                   hasBody: bool)

  /** `object?.geometry?.parameters`: missing geometry contributes nothing. */
  function DeclaredParams(v: ObjectView): (p: ParamsPatch)
    ensures v.geometry.None? ==> p == NoPatch
    ensures v.geometry.Some? ==> p == v.geometry.value
  {
    if v.geometry.Some? then v.geometry.value else NoPatch
  }

  /** The kind and parameters `addExisting` resolves for `v`. */
  function ResolveFor(v: ObjectView, config: Config): Resolution {
    Resolve(config, v.shape, DeclaredParams(v))
  }

  /** The ways `addExisting` ends: rejected, the `center()` call on a missing
      geometry throwing, no shape built, or a registered body. */
  datatype Outcome = AlreadyHasBody | GeometryMissing | ShapeNotBuilt(kind: string) | Registered(body: Body)

  /** Whether `addExisting` centers the object's geometry. */
  function CentersGeometry(v: ObjectView, config: Config): (c: bool)
    ensures c ==> !v.hasBody && v.geometry.Some?
    ensures c ==> ResolveFor(v, config).kind in Kinds
    ensures !config.autoCenter.GetOr(true) ==> !c
  {
    !v.hasBody && v.geometry.Some? && ShouldCenter(ResolveFor(v, config).kind, config.autoCenter.GetOr(true))
  }

  /** Reference definition of `addExisting`'s result. */
  function PlanExisting(v: ObjectView, config: Config, b: Builders): (r: Outcome)
    ensures v.hasBody <==> r == AlreadyHasBody
    ensures r == GeometryMissing <==>
              !v.hasBody && v.geometry.None? && ShouldCenter(ResolveFor(v, config).kind, config.autoCenter.GetOr(true))
    ensures !v.hasBody && ResolveFor(v, config).kind !in Kinds ==>
              r == ShapeNotBuilt(ResolveFor(v, config).kind)
    ensures r.Registered? ==>
              BuildForm(ResolveFor(v, config).kind, ResolveFor(v, config).params, b) == Some(r.body.shape.form) &&
              r.body.name == v.name && r.body.shape.margin == Margin &&
              r.body.mass == MassOf(config) &&
              (r.body.activation == Some(DisableDeactivation) <==> r.body.mass > 0.0) &&
              (r.body.activation.None? <==> r.body.mass <= 0.0) &&
              (config.offset.None? ==> r.body.offset.None?) &&
              (config.offset.Some? ==> r.body.offset == Some(FillOffset(config.offset.value)))
    ensures !v.hasBody && r != GeometryMissing ==>
              (r.Registered? <==> BuildForm(ResolveFor(v, config).kind, ResolveFor(v, config).params, b).Some?)
  {
    if v.hasBody then AlreadyHasBody
    else
      var res := ResolveFor(v, config);
      if ShouldCenter(res.kind, config.autoCenter.GetOr(true)) && v.geometry.None? then GeometryMissing
      else
        match BuildForm(res.kind, res.params, b)
        case None => ShapeNotBuilt(res.kind)
        case Some(form) =>
          var mass := MassOf(config);
          Registered(Body(v.name, AmmoShape(form, Margin), mass, ActivationFor(mass),
                          if config.offset.Some? then Some(FillOffset(config.offset.value)) else None))
  }

  /** `add.existing(object)` with no config on an object without a declared
      shape gives a unit box of mass 1 that never sleeps. */
  lemma DefaultIsUnitBox(name: string, geometry: Option<ParamsPatch>, b: Builders)
    ensures PlanExisting(ObjectView(name, None, geometry, false), EmptyConfig, b) ==
            Registered(Body(name, AmmoShape(BoxShape(0.5, 0.5, 0.5), Margin), 1.0,
                            Some(DisableDeactivation), None))
  {}

  /** A sphere kind gets the resolved radius, a box kind half the resolved dimensions. */
  lemma PrimitiveDimensions(v: ObjectView, config: Config, b: Builders)
    requires !v.hasBody
    ensures var res := ResolveFor(v, config);
            var r := PlanExisting(v, config, b);
            (res.kind == "sphere" ==> r.Registered? && r.body.shape.form == SphereShape(res.params.radius)) &&
            (res.kind == "box" ==>
               r.Registered? &&
               r.body.shape.form == BoxShape(res.params.width / 2.0, res.params.height / 2.0, res.params.depth / 2.0))
  {}

  /** An unrecognised kind neither centers the geometry nor registers a body. */
  lemma UnknownKindChangesNothing(v: ObjectView, config: Config, b: Builders)
    requires !v.hasBody && ResolveFor(v, config).kind !in Kinds
    ensures !CentersGeometry(v, config)
    ensures PlanExisting(v, config, b) == ShapeNotBuilt(ResolveFor(v, config).kind)
  {}

  /** Centering happens only on the path that builds a triangle-mesh shape:
      the call then ends with that shape registered, or with no shape. */
  lemma CenteredMeansTriMesh(v: ObjectView, config: Config, b: Builders)
    requires CentersGeometry(v, config)
    ensures var r := PlanExisting(v, config, b);
            r == ShapeNotBuilt(ResolveFor(v, config).kind) || (r.Registered? && r.body.shape.form == TriMeshShape)
  {}

  // ---------------------------------------------------------------------------
  // Scene objects and the registry
  // ---------------------------------------------------------------------------

  /** A scene object, with the fields the physics wrapper reads and writes. */
  class ExtendedObject3D {
    var name: string
    var shape: Option<string>
    var geometry: Option<ParamsPatch>
    /** How many times the geometry has been re-centered in place. */
    var centerCalls: nat
    var hasBody: bool
    var body: Option<Body>
    var ptr: Option<int>

    constructor (name: string, shape: Option<string>, geometry: Option<ParamsPatch>)
      ensures this.name == name && this.shape == shape && this.geometry == geometry
      ensures centerCalls == 0 && !hasBody && body == None && ptr == None
    {
      this.name := name;
      this.shape := shape;
      this.geometry := geometry;
      centerCalls := 0;
      hasBody := false;
      body := None;
      ptr := None;
    }

    function View(): ObjectView
      reads this
    {
      ObjectView(name, shape, geometry, hasBody)
    }
  }

  /** The wrapper's registry: the list of objects with bodies, and the table
      from engine body address to object. */
  class AmmoPhysics {
    var rigidBodies: seq<ExtendedObject3D>
    var objectsAmmo: map<int, ExtendedObject3D>

    /** Each listed object appears once, has a body, and its address leads
        back to it; each table entry is a listed object carrying that address. */
    ghost predicate Valid()
      reads this, (set o | o in rigidBodies), objectsAmmo.Values
    {
      (forall i, j :: 0 <= i < j < |rigidBodies| ==> rigidBodies[i] != rigidBodies[j]) &&
      (forall o :: o in rigidBodies ==>
         o.hasBody && o.ptr.Some? && o.ptr.value in objectsAmmo && objectsAmmo[o.ptr.value] == o) &&
      (forall p :: p in objectsAmmo ==> objectsAmmo[p] in rigidBodies && objectsAmmo[p].ptr == Some(p))
    }

    constructor ()
      ensures Valid() && rigidBodies == [] && objectsAmmo == map[]
    {
      rigidBodies := [];
      objectsAmmo := map[];
    }

    /** Registers `obj` with a new body built from `shape` and `mass`; `ptr`
        is the address the engine gave that body. */
    method AddRigidBody(obj: ExtendedObject3D, shape: AmmoShape, mass: real, ptr: int)
      requires Valid()
      requires ptr !in objectsAmmo
      modifies this, obj
      ensures rigidBodies == old(rigidBodies) + [obj]
      ensures objectsAmmo == old(objectsAmmo)[ptr := obj]
      ensures obj.hasBody && obj.ptr == Some(ptr)
      ensures obj.body == Some(Body(obj.name, shape, mass, ActivationFor(mass), None))
      ensures obj.name == old(obj.name) && obj.shape == old(obj.shape)
      ensures obj.geometry == old(obj.geometry) && obj.centerCalls == old(obj.centerCalls)
      ensures obj !in old(rigidBodies) ==> Valid()
    {
      var activation := None;
      if mass > 0.0 {
        activation := Some(DisableDeactivation);
      }
      rigidBodies := rigidBodies + [obj];
      obj.body := Some(Body(obj.name, shape, mass, activation, None));
      obj.hasBody := true;
      obj.ptr := Some(ptr);
      objectsAmmo := objectsAmmo[ptr := obj];
    }

    /** Gives an existing object a physics body; `builders` stands for the
        opaque shape constructors and `ptr` for the new body's address. */
    method AddExisting(obj: ExtendedObject3D, config: Config, builders: Builders, ptr: int)
      returns (outcome: Outcome)
      requires Valid()
      requires ptr !in objectsAmmo
      modifies this, obj
      ensures Valid()
      ensures outcome == PlanExisting(old(obj.View()), config, builders)
      ensures obj.centerCalls == old(obj.centerCalls) + (if CentersGeometry(old(obj.View()), config) then 1 else 0)
      ensures obj.name == old(obj.name) && obj.shape == old(obj.shape) && obj.geometry == old(obj.geometry)
      ensures outcome.Registered? ==>
                rigidBodies == old(rigidBodies) + [obj] &&
                objectsAmmo == old(objectsAmmo)[ptr := obj] &&
                obj.hasBody && obj.ptr == Some(ptr) && obj.body == Some(outcome.body)
      ensures !outcome.Registered? ==>
                rigidBodies == old(rigidBodies) && objectsAmmo == old(objectsAmmo) &&
                obj.hasBody == old(obj.hasBody) && obj.body == old(obj.body) && obj.ptr == old(obj.ptr)
      ensures outcome == AlreadyHasBody || outcome == GeometryMissing ==> unchanged(obj)
    {
      var mass := MassOf(config);
      var autoCenter := config.autoCenter.GetOr(true);
      var declared := if obj.geometry.Some? then obj.geometry.value else NoPatch;
      var res := Resolve(config, obj.shape, declared);
      ghost var v := obj.View();
      assert res == ResolveFor(v, config);
      if obj.hasBody {
        return AlreadyHasBody;
      }
      if ShouldCenter(res.kind, autoCenter) {
        if obj.geometry.None? {
          // `object.geometry.center()` throws before anything is changed
          return GeometryMissing;
        }
        obj.centerCalls := obj.centerCalls + 1;
      }
      var form := BuildForm(res.kind, res.params, builders);
      if form.None? {
        return ShapeNotBuilt(res.kind);
      }
      var shape := AmmoShape(form.value, Margin);
      AddRigidBody(obj, shape, mass, ptr);
      if config.offset.Some? {
        obj.body := Some(obj.body.value.(offset := Some(FillOffset(config.offset.value))));
      }
      outcome := Registered(obj.body.value);
    }

    /** Adding the same object twice: once the first call registers it, the
        second is rejected and leaves the registry and the object as the
        first call left them. */
    method SecondAddRejected(obj: ExtendedObject3D, c1: Config, b1: Builders, p1: int,
                             c2: Config, b2: Builders, p2: int)
      returns (first: Outcome, second: Outcome)
      requires Valid()
      requires p1 !in objectsAmmo && p2 !in objectsAmmo && p1 != p2
      modifies this, obj
      ensures Valid()
      ensures first == PlanExisting(old(obj.View()), c1, b1)
      ensures first.Registered? ==>
                second == AlreadyHasBody &&
                rigidBodies == old(rigidBodies) + [obj] &&
                objectsAmmo == old(objectsAmmo)[p1 := obj] &&
                obj.hasBody && obj.ptr == Some(p1) && obj.body == Some(first.body)
      ensures first.Registered? ==>
                obj.centerCalls == old(obj.centerCalls) + (if CentersGeometry(old(obj.View()), c1) then 1 else 0) &&
                obj.name == old(obj.name) && obj.shape == old(obj.shape) && obj.geometry == old(obj.geometry)
    {
      first := AddExisting(obj, c1, b1, p1);
      second := AddExisting(obj, c2, b2, p2);
    }

    /** The addresses of the listed objects, in list order. */
    ghost function Ptrs(): seq<int>
      reads this, (set o | o in rigidBodies)
    {
      var objs := rigidBodies;
      seq(|objs|, i requires 0 <= i < |objs| reads (set o | o in objs) => objs[i].ptr.GetOr(0))
    }

    /** The table holds exactly one entry per listed object. */
    lemma TableSize()
      requires Valid()
      ensures |objectsAmmo| == |rigidBodies|
    {
      var s := Ptrs();
      forall i, j | 0 <= i < j < |s| ensures s[i] != s[j] {
        assert rigidBodies[i] in rigidBodies && rigidBodies[j] in rigidBodies;
      }
      DistinctCard(s);
      forall p | p in objectsAmmo ensures p in s {
        var k :| 0 <= k < |rigidBodies| && rigidBodies[k] == objectsAmmo[p];
        assert s[k] == p;
      }
      forall p | p in s ensures p in objectsAmmo {
        var k :| 0 <= k < |s| && s[k] == p;
        assert rigidBodies[k] in rigidBodies;
      }
      assert objectsAmmo.Keys == set x | x in s;
    }
  }

  /** A sequence without repeats has as many distinct elements as entries. */
  lemma {:induction false} DistinctCard(s: seq<int>)
    requires forall i, j :: 0 <= i < j < |s| ==> s[i] != s[j]
    ensures |set x | x in s| == |s|
  {
    if s != [] {
      var t := s[1..];
      forall i, j | 0 <= i < j < |t| ensures t[i] != t[j] {
        assert t[i] == s[i + 1] && t[j] == s[j + 1];
      }
      DistinctCard(t);
      assert (set x | x in s) == (set x | x in t) + {s[0]};
      assert s[0] !in (set x | x in t);
    }
  }
}
