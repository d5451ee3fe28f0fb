/**
 * PrimToMesh.CreateMeshResource: chooses the mesh builder for a primitive
 * from its sculpt reference, runs it, and settles a fresh promise with the
 * result before returning, turning a thrown exception into a rejection.
 *
 * The three builders are modelled as abstract calls that either return a
 * (possibly null) mesh or throw; the ones the class defines are stubs that
 * return null.
 */
module PrimToMesh {
  import opened Basics
  import opened Prims
  import opened SimplePromise

  /** What a builder call did: returned a mesh (`None` is null) or threw. */
  datatype BuildOutcome = Returned(mesh: Option<FacetedMesh>) | Threw(error: Exception)

  /** The three private `MeshFrom*` builders, as calls whose outcome is given. */
  datatype Builders = Builders(
    shapeData: (Primitive, DetailLevel) -> BuildOutcome,
    sculptData: (Primitive, AssetFetcher, DetailLevel) -> BuildOutcome,
    meshData: (Primitive, AssetFetcher, DetailLevel) -> BuildOutcome)

  /** `MeshFromPrimShapeData` as the class defines it: it never throws and returns null. */
  function MeshFromPrimShapeData(prim: Primitive, lod: DetailLevel): (r: BuildOutcome)
    ensures r.Returned? && r.mesh.None?
  {
    Returned(None)
  }

  /** `MeshFromPrimSculptData` as the class defines it: it never throws and returns null. */
  function MeshFromPrimSculptData(prim: Primitive, assetFetcher: AssetFetcher, lod: DetailLevel): (r: BuildOutcome)
    ensures r.Returned? && r.mesh.None?
  {
    Returned(None)
  }

  /** `MeshFromPrimMeshData` as the class defines it: it never throws and returns null. */
  function MeshFromPrimMeshData(prim: Primitive, assetFetcher: AssetFetcher, lod: DetailLevel): (r: BuildOutcome)
    ensures r.Returned? && r.mesh.None?
  {
    Returned(None)
  }

  /** The builders of the class as written. */
  const STUB_BUILDERS: Builders := Builders(MeshFromPrimShapeData, MeshFromPrimSculptData, MeshFromPrimMeshData)

  /** Which builder a primitive is sent to. */
  datatype MeshSource = ShapeSource | SculptSource | MeshAssetSource

  /** The builder choice: by shape without a sculpt reference, else by the sculpt reference's type. */
  function SelectSource(prim: Primitive): (r: MeshSource)
    ensures r == ShapeSource <==> prim.sculpt.None?
    ensures r == MeshAssetSource <==> prim.sculpt.Some? && prim.sculpt.value.sculptType == Mesh
    ensures r == SculptSource <==> prim.sculpt.Some? && prim.sculpt.value.sculptType != Mesh
  {
    if prim.sculpt.Some? then
      if prim.sculpt.value.sculptType == Mesh then MeshAssetSource else SculptSource
    else ShapeSource
  }

  /** The outcome of the builder call `CreateMeshResource` makes. */
  function MeshOutcome(prim: Primitive, assetFetcher: AssetFetcher, lod: DetailLevel, builders: Builders): BuildOutcome
  {
    match SelectSource(prim)
    case ShapeSource => builders.shapeData(prim, lod)
    case SculptSource => builders.sculptData(prim, assetFetcher, lod)
    case MeshAssetSource => builders.meshData(prim, assetFetcher, lod)
  }

  /**
   * `prom` has had exactly one terminal call: `Resolve` with the returned
   * mesh, or `Reject` with the thrown exception; the other channel is untouched.
   */
  predicate SettledWith(prom: Promise<Option<FacetedMesh>>, outcome: BuildOutcome)
    reads prom
  {
    match outcome
    case Returned(mesh) =>
      prom.resolverState == HaveValue && prom.resolveValue == mesh
      && prom.rejectorState == NoValueOrResolver
    case Threw(e) =>
      prom.rejectorState == HaveValue && prom.rejectValue == e
      && prom.resolverState == NoValueOrResolver
  }

  /**
   * Builds the mesh for `prim` and returns a fresh promise already settled
   * with the outcome. Nothing escapes: a builder that throws rejects the
   * promise. No callback is registered, so none runs.
   */
  method CreateMeshResource(prim: Primitive, assetFetcher: AssetFetcher, lod: DetailLevel, builders: Builders)
    returns (prom: Promise<Option<FacetedMesh>>)
    ensures fresh(prom) && prom.Valid() && prom.log == []
    ensures prom.resolver == None && prom.rejecter == None
    ensures SettledWith(prom, MeshOutcome(prim, assetFetcher, lod, builders))
  {
    prom := new Promise<Option<FacetedMesh>>();
    var outcome: BuildOutcome;
    if prim.sculpt.Some? {
      if prim.sculpt.value.sculptType == Mesh {
        outcome := builders.meshData(prim, assetFetcher, lod);
      } else {
        outcome := builders.sculptData(prim, assetFetcher, lod);
      }
    } else {
      outcome := builders.shapeData(prim, lod);
    }
    match outcome {
      case Returned(mesh) =>
        var _ := prom.Resolve(mesh);
      case Threw(e) =>
        var _ := prom.Reject(e);
    }
  }

  /** Without a sculpt reference the asset fetcher plays no part in the outcome. */
  lemma FetcherUnusedWithoutSculpt(prim: Primitive, f1: AssetFetcher, f2: AssetFetcher, lod: DetailLevel, builders: Builders)
    requires prim.sculpt.None?
    ensures MeshOutcome(prim, f1, lod, builders) == MeshOutcome(prim, f2, lod, builders)
    ensures MeshOutcome(prim, f1, lod, builders) == builders.shapeData(prim, lod)
  {
  }

  /** With the class's stub builders every call succeeds with a null mesh. */
  lemma StubsResolveNull(prim: Primitive, assetFetcher: AssetFetcher, lod: DetailLevel)
    ensures MeshOutcome(prim, assetFetcher, lod, STUB_BUILDERS) == Returned(None)
  {
  }

  /**
   * Exactly one channel of the returned promise holds a value, and a
   * callback registered afterwards on that channel runs at once with it,
   * while one registered on the other channel waits.
   */
  lemma SettledExactlyOneChannel(prom: Promise<Option<FacetedMesh>>, outcome: BuildOutcome,
                                 onValue: Callback, onError: Callback)
    requires prom.Valid() && SettledWith(prom, outcome)
    ensures (prom.resolverState == HaveValue) != (prom.rejectorState == HaveValue)
    ensures Register(prom.Success(), onValue).fired
            == if outcome.Returned? then Some(Call(onValue, outcome.mesh)) else None
    ensures Register(prom.Failure(), onError).fired
            == if outcome.Threw? then Some(Call(onError, outcome.error)) else None
  {
  }
}
