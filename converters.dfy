/**
 * Converters.CreateAllMeshesInSOP (the SceneObjectGroup overload): builds one
 * mesh promise per part of a linkset, collects the successful results in
 * part order, resolves the aggregate promise when the countdown of
 * outstanding parts reaches zero, and rejects it on any part failure.
 *
 * `CreateMeshResource` settles its promise before returning, and `Then` /
 * `Rejected` run a callback at once on a held value, so every part's callback
 * runs inside the loop iteration that created the part.
 */
module Converters {
  import opened Basics
  import opened Prims
  import opened SimplePromise
  import opened PrimToMesh

  /** The versions a prim mesh can be made of. */
  datatype PrimGroupType = Physics | Lod1 | Lod2 | Lod3 | Lod4

  /** The version built for a standard prim. */
  const DEFAULT_GROUP_TYPE: PrimGroupType := Lod1

  /** Every tier, in declaration order. */
  function AllGroupTypes(): (r: seq<PrimGroupType>)
    ensures |r| == 5 && r[1] == DEFAULT_GROUP_TYPE
    ensures forall i, j :: 0 <= i < j < |r| ==> r[i] != r[j]
  {
    [Physics, Lod1, Lod2, Lod3, Lod4]
  }

  /** There are exactly five tiers: every tier is listed, once. */
  lemma AllGroupTypesComplete(t: PrimGroupType)
    ensures t in AllGroupTypes()
  {
    match t
    case Physics => assert AllGroupTypes()[0] == t;
    case Lod1 => assert AllGroupTypes()[1] == t;
    case Lod2 => assert AllGroupTypes()[2] == t;
    case Lod3 => assert AllGroupTypes()[3] == t;
    case Lod4 => assert AllGroupTypes()[4] == t;
  }

  /**
   * One entry of the aggregate list: the value a part's promise resolved
   * with. The source appends that value to its `EntityGroup` list as is.
   */
  type PartResult = Option<FacetedMesh>

  /** `EntityGroup`: the collected part results. */
  type EntityGroup = seq<PartResult>

  /** The builder outcome of every part: the i-th outcome is that of building the i-th part. */
  function Outcomes(parts: seq<Primitive>, assetFetcher: AssetFetcher, builders: Builders): (r: seq<BuildOutcome>)
    ensures |r| == |parts|
    ensures forall i :: 0 <= i < |parts| ==> r[i] == MeshOutcome(parts[i], assetFetcher, Highest, builders)
    decreases |parts|
  {
    if parts == [] then []
    else
      var init := parts[..|parts| - 1];
      assert forall i :: 0 <= i < |init| ==> init[i] == parts[i];
      Outcomes(init, assetFetcher, builders) + [MeshOutcome(parts[|parts| - 1], assetFetcher, Highest, builders)]
  }

  /** The outcomes of one part more are those of the parts before it, then its own. */
  lemma OutcomesSnoc(parts: seq<Primitive>, i: nat, assetFetcher: AssetFetcher, builders: Builders)
    requires i < |parts|
    ensures Outcomes(parts[..i + 1], assetFetcher, builders)
            == Outcomes(parts[..i], assetFetcher, builders) + [MeshOutcome(parts[i], assetFetcher, Highest, builders)]
  {
    assert parts[..i + 1][..i] == parts[..i];
  }

  /** The meshes of the successful outcomes, in order. */
  function Successes(outcomes: seq<BuildOutcome>): (r: EntityGroup)
    ensures |r| <= |outcomes|
    decreases |outcomes|
  {
    if outcomes == [] then []
    else
      var earlier := Successes(outcomes[..|outcomes| - 1]);
      var last := outcomes[|outcomes| - 1];
      if last.Returned? then earlier + [last.mesh] else earlier
  }

  /** The error of the first failed outcome, if any. */
  function FirstFailure(outcomes: seq<BuildOutcome>): Option<Exception>
    decreases |outcomes|
  {
    if outcomes == [] then None
    else
      var earlier := FirstFailure(outcomes[..|outcomes| - 1]);
      var last := outcomes[|outcomes| - 1];
      if earlier.Some? then earlier else if last.Threw? then Some(last.error) else None
  }

  /** FirstFailure finds a failure exactly when there is one, and it is the earliest. */
  lemma {:induction false} FirstFailureIsFirst(outcomes: seq<BuildOutcome>)
    ensures FirstFailure(outcomes).None? <==> forall i :: 0 <= i < |outcomes| ==> outcomes[i].Returned?
    ensures FirstFailure(outcomes).Some? ==>
              exists i :: 0 <= i < |outcomes| && outcomes[i] == Threw(FirstFailure(outcomes).value)
                          && forall j :: 0 <= j < i ==> outcomes[j].Returned?
    decreases |outcomes|
  {
    if outcomes != [] {
      var init := outcomes[..|outcomes| - 1];
      FirstFailureIsFirst(init);
      assert forall i :: 0 <= i < |init| ==> init[i] == outcomes[i];
      if FirstFailure(init).None? && outcomes[|init|].Threw? {
        assert outcomes[|init|] == Threw(FirstFailure(outcomes).value);
      }
    }
  }

  /**
   * What the loop's lambdas have produced so far: the `meshes` list, the
   * `totalChildren` countdown, and what the aggregate promise holds on each
   * of its channels.
   */
  datatype Aggregate = Aggregate(meshes: EntityGroup, totalChildren: int,
                                 resolved: Option<EntityGroup>, rejected: Option<Exception>)

  /**
   * The lambdas run for one part. A success appends the part's result and
   * counts down, resolving the aggregate with the list once the counter is at
   * or below zero; a failure rejects the aggregate. A channel that already
   * holds a value keeps it.
   */
  function AggregateStep(a: Aggregate, outcome: BuildOutcome): (r: Aggregate)
    ensures outcome.Returned? ==> r.meshes == a.meshes + [outcome.mesh] && r.totalChildren == a.totalChildren - 1
    ensures outcome.Threw? ==> r.meshes == a.meshes && r.totalChildren == a.totalChildren
    ensures a.resolved.Some? ==> r.resolved == a.resolved
    ensures a.resolved.None? ==> (r.resolved.Some? <==> outcome.Returned? && a.totalChildren <= 1)
    ensures a.resolved.None? && r.resolved.Some? ==> r.resolved == Some(r.meshes)
    ensures a.rejected.Some? ==> r.rejected == a.rejected
    ensures a.rejected.None? ==> r.rejected == if outcome.Threw? then Some(outcome.error) else None
  {
    match outcome
    case Returned(mesh) =>
      var meshes := a.meshes + [mesh];
      var remaining := a.totalChildren - 1;
      a.(meshes := meshes, totalChildren := remaining,
         resolved := if remaining <= 0 && a.resolved.None? then Some(meshes) else a.resolved)
    case Threw(e) =>
      a.(rejected := if a.rejected.None? then Some(e) else a.rejected)
  }

  /**
   * The aggregate after the parts with these outcomes, the counter starting
   * at `total`: the list holds the successful results in order, the counter
   * is down by their number, and the rejection is the first failure.
   */
  function AggregateAll(total: int, outcomes: seq<BuildOutcome>): (r: Aggregate)
    ensures r.meshes == Successes(outcomes)
    ensures r.totalChildren == total - |Successes(outcomes)|
    ensures r.rejected == FirstFailure(outcomes)
    decreases |outcomes|
  {
    if outcomes == [] then Aggregate([], total, None, None)
    else AggregateStep(AggregateAll(total, outcomes[..|outcomes| - 1]), outcomes[|outcomes| - 1])
  }

  /**
   * While at most `total` parts have been processed: the list holds the
   * successful results in order, the counter is `total` minus their number,
   * the aggregate is rejected with the first failure, and it is resolved only
   * once `total > 0` successes have been counted.
   */
  lemma {:induction false} AggregateAllInvariant(total: int, outcomes: seq<BuildOutcome>)
    requires |outcomes| <= total
    ensures AggregateAll(total, outcomes).meshes == Successes(outcomes)
    ensures AggregateAll(total, outcomes).totalChildren == total - |Successes(outcomes)|
    ensures AggregateAll(total, outcomes).rejected == FirstFailure(outcomes)
    ensures AggregateAll(total, outcomes).resolved
            == if total > 0 && |Successes(outcomes)| == total then Some(Successes(outcomes)) else None
    decreases |outcomes|
  {
    if outcomes != [] {
      AggregateAllInvariant(total, outcomes[..|outcomes| - 1]);
    }
  }

  /** Every part succeeded exactly when every part contributed a result. */
  lemma {:induction false} AllSucceededIffAllCollected(outcomes: seq<BuildOutcome>)
    ensures FirstFailure(outcomes).None? <==> |Successes(outcomes)| == |outcomes|
    decreases |outcomes|
  {
    if outcomes != [] {
      AllSucceededIffAllCollected(outcomes[..|outcomes| - 1]);
    }
  }

  /**
   * After all n parts: the aggregate is resolved, with every part's result,
   * exactly when n > 0 and no part failed, and rejected with the first
   * failure exactly when one failed. With no parts it is never settled.
   */
  lemma LinksetOutcome(outcomes: seq<BuildOutcome>)
    ensures AggregateAll(|outcomes|, outcomes).resolved
            == if |outcomes| > 0 && FirstFailure(outcomes).None? then Some(Successes(outcomes)) else None
    ensures AggregateAll(|outcomes|, outcomes).rejected == FirstFailure(outcomes)
  {
    AggregateAllInvariant(|outcomes|, outcomes);
    AllSucceededIffAllCollected(outcomes);
  }

  /** When every part succeeded, the collected results are the parts' meshes, one per part, in part order. */
  lemma {:induction false} SuccessesInPartOrder(outcomes: seq<BuildOutcome>)
    requires FirstFailure(outcomes).None?
    ensures |Successes(outcomes)| == |outcomes|
    ensures forall i :: 0 <= i < |outcomes| ==> outcomes[i].Returned? && Successes(outcomes)[i] == outcomes[i].mesh
    decreases |outcomes|
  {
    if outcomes != [] {
      var init := outcomes[..|outcomes| - 1];
      assert forall i :: 0 <= i < |init| ==> init[i] == outcomes[i];
      SuccessesInPartOrder(init);
    }
  }

  /**
   * The channels are independent: whether a success resolves the aggregate
   * does not depend on whether it was rejected before.
   */
  lemma RejectionDoesNotBlockResolve(a: Aggregate, mesh: PartResult, e: Exception)
    ensures AggregateStep(a.(rejected := Some(e)), Returned(mesh)).resolved
            == AggregateStep(a.(rejected := None), Returned(mesh)).resolved
    ensures AggregateStep(a, Returned(mesh)).resolved.Some? <==> a.resolved.Some? || a.totalChildren <= 1
  {
  }

  /** With the class's stub builders, a linkset of n parts resolves with n null meshes. */
  lemma StubLinksetResolvesNulls(parts: seq<Primitive>, assetDir: string)
    ensures var outcomes := Outcomes(parts, OarFileAssets(assetDir), STUB_BUILDERS);
            FirstFailure(outcomes).None? && Successes(outcomes) == seq(|parts|, _ => None)
  {
    var outcomes := Outcomes(parts, OarFileAssets(assetDir), STUB_BUILDERS);
    forall i | 0 <= i < |parts|
      ensures outcomes[i] == Returned(None)
    {
      StubsResolveNull(parts[i], OarFileAssets(assetDir), Highest);
    }
    FirstFailureIsFirst(outcomes);
    SuccessesInPartOrder(outcomes);
  }

  /** The aggregate promise has no callbacks, so each channel is empty or holds a value. */
  ghost predicate Unobserved(prom: Promise<EntityGroup>)
    reads prom
  {
    && prom.Valid() && prom.resolver == None && prom.rejecter == None
    && (prom.resolverState == NoValueOrResolver || prom.resolverState == HaveValue)
    && (prom.rejectorState == NoValueOrResolver || prom.rejectorState == HaveValue)
  }

  /** The loop state as an Aggregate: the locals and what each channel of the promise holds. */
  ghost function View(prom: Promise<EntityGroup>, meshes: EntityGroup, totalChildren: int): Aggregate
    reads prom
  {
    Aggregate(meshes, totalChildren,
              if prom.resolverState == HaveValue then Some(prom.resolveValue) else None,
              if prom.rejectorState == HaveValue then Some(prom.rejectValue) else None)
  }

  /**
   * The body of the `Then` lambda: appends the part's result and counts it
   * down; the aggregate is resolved with the list once the counter is at or
   * below zero.
   */
  method OnPartResolved(prom: Promise<EntityGroup>, meshes: EntityGroup, totalChildren: int, ePrimGroup: PartResult)
    returns (meshes': EntityGroup, totalChildren': int)
    requires Unobserved(prom)
    modifies prom`resolverState, prom`resolveValue, prom`log
    ensures Unobserved(prom) && prom.log == old(prom.log)
    ensures View(prom, meshes', totalChildren')
            == AggregateStep(old(View(prom, meshes, totalChildren)), Returned(ePrimGroup))
  {
    meshes' := meshes + [ePrimGroup];
    totalChildren' := totalChildren - 1;
    if totalChildren' <= 0 {
      var _ := prom.Resolve(meshes');
    }
  }

  /** The body of the `Rejected` lambda: rejects the aggregate with the part's error. */
  method OnPartRejected(prom: Promise<EntityGroup>, meshes: EntityGroup, totalChildren: int, e: Exception)
    requires Unobserved(prom)
    modifies prom`rejectorState, prom`rejectValue, prom`log
    ensures Unobserved(prom) && prom.log == old(prom.log)
    ensures View(prom, meshes, totalChildren) == AggregateStep(old(View(prom, meshes, totalChildren)), Threw(e))
  {
    var _ := prom.Reject(e);
  }

  /**
   * One iteration of the `foreach`: builds the part's promise and registers
   * both lambdas on it; the promise is already settled, so exactly one of
   * them runs at once.
   */
  method ProcessPart(prom: Promise<EntityGroup>, meshes: EntityGroup, totalChildren: int,
                     aPrim: Primitive, assetFetcher: AssetFetcher, builders: Builders, i: nat)
    returns (meshes': EntityGroup, totalChildren': int)
    requires Unobserved(prom)
    modifies prom`resolverState, prom`resolveValue, prom`rejectorState, prom`rejectValue, prom`log
    ensures Unobserved(prom) && prom.log == old(prom.log)
    ensures View(prom, meshes', totalChildren')
            == AggregateStep(old(View(prom, meshes, totalChildren)), MeshOutcome(aPrim, assetFetcher, Highest, builders))
  {
    ghost var outcome := MeshOutcome(aPrim, assetFetcher, Highest, builders);
    meshes', totalChildren' := meshes, totalChildren;
    var part := CreateMeshResource(aPrim, assetFetcher, Highest, builders);
    SettledExactlyOneChannel(part, outcome, Callback(2 * i), Callback(2 * i + 1));
    // The two lambdas of this iteration, as distinct callbacks.
    var self, resolved := part.Then(Callback(2 * i));
    assert resolved == if outcome.Returned? then Some(Call(Callback(2 * i), outcome.mesh)) else None;
    if resolved.Some? {
      meshes', totalChildren' := OnPartResolved(prom, meshes', totalChildren', resolved.value.arg);
    }
    var _, failed := self.Rejected(Callback(2 * i + 1));
    assert failed == if outcome.Threw? then Some(Call(Callback(2 * i + 1), outcome.error)) else None;
    if failed.Some? {
      OnPartRejected(prom, meshes', totalChildren', failed.value.arg);
    }
  }

  /**
   * Builds a promise per part (at `DetailLevel.Highest`, with an
   * `OarFileAssets` fetcher over `assetDir`) and aggregates them: the
   * aggregate ends as `AggregateAll` of the parts' outcomes says, so it is
   * resolved with every part's result, in part order, exactly when there is
   * at least one part and every part succeeded, and rejected with the first
   * failing part's error exactly when some part failed.
   */
  method CreateAllMeshesInSOP(parts: seq<Primitive>, assetDir: string, builders: Builders)
    returns (prom: Promise<EntityGroup>)
    ensures fresh(prom) && Unobserved(prom) && prom.log == []
    ensures var outcomes := Outcomes(parts, OarFileAssets(assetDir), builders);
            && (prom.resolverState == HaveValue <==> |parts| > 0 && FirstFailure(outcomes).None?)
            && (prom.resolverState == HaveValue ==> prom.resolveValue == Successes(outcomes))
            && (prom.rejectorState == HaveValue <==> FirstFailure(outcomes).Some?)
            && (prom.rejectorState == HaveValue ==> prom.rejectValue == FirstFailure(outcomes).value)
  {
    prom := new Promise<EntityGroup>();
    var meshes: EntityGroup := [];
    var assetFetcher := OarFileAssets(assetDir);

    var totalChildren := |parts|;
    ghost var done: seq<BuildOutcome> := [];
    for i := 0 to |parts|
      invariant fresh(prom) && Unobserved(prom) && prom.log == []
      invariant done == Outcomes(parts[..i], assetFetcher, builders)
      invariant View(prom, meshes, totalChildren) == AggregateAll(|parts|, done)
    {
      ghost var outcome := MeshOutcome(parts[i], assetFetcher, Highest, builders);
      meshes, totalChildren := ProcessPart(prom, meshes, totalChildren, parts[i], assetFetcher, builders, i);
      assert AggregateAll(|parts|, done + [outcome]) == AggregateStep(AggregateAll(|parts|, done), outcome) by {
        assert (done + [outcome])[..|done|] == done;
      }
      OutcomesSnoc(parts, i, assetFetcher, builders);
      done := done + [outcome];
    }
    assert parts[..|parts|] == parts;
    LinksetOutcome(done);
  }
}
