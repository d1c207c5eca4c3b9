/**
 * The Model reconciler of internal/controller/model_controller.go as functions on the
 * store: the status helpers and one reconcile pass, which Controller.ModelReconciler
 * runs imperatively. The lemmas state the pass's gating, ordering, idempotence and
 * error rules.
 */
module Reconciliation {
  import opened Wrappers
  import opened Resources
  import opened Stages

  /** How a pass ends: done, requeue after so many seconds, or an error for the scheduler. */
  datatype Outcome = Done | RequeueAfter(seconds: nat) | Failed(error: Error)

  datatype Pass = Pass(world: World, outcome: Outcome)

  /** The delay after Progressing is first set. */
  const ProgressingDelay: nat := 1

  /** The delay of every readiness, drift and counter wait. */
  const ReadinessDelay: nat := 5

  // ---------------------------------------------------------------------------
  // Status helpers

  /** The conditions of one type, in order (lo.Filter on the type). */
  function FilterByType(conditions: seq<Condition>, kind: ConditionType): (r: seq<Condition>)
    ensures |r| <= |conditions|
    ensures forall c | c in r :: c in conditions && c.kind == kind
    ensures forall c | c in conditions && c.kind == kind :: c in r
  {
    if conditions == [] then []
    else if conditions[0].kind == kind then [conditions[0]] + FilterByType(conditions[1..], kind)
    else FilterByType(conditions[1..], kind)
  }

  /** IsProgressing and IsAvailable: some condition of that type is present, whatever its status. */
  function HasCondition(m: Model, kind: ConditionType): (b: bool)
    ensures b <==> exists c | c in m.status.conditions :: c.kind == kind
  {
    var found := FilterByType(m.status.conditions, kind);
    assert |found| > 0 ==> found[0] in found;
    |found| > 0
  }

  function IsProgressing(m: Model): bool
  {
    HasCondition(m, Progressing)
  }

  function IsAvailable(m: Model): bool
  {
    HasCondition(m, Available)
  }

  /** In a list without repeated types, filtering on a type keeps at most one condition. */
  lemma {:induction false} UniqueFiltersToAtMostOne(conditions: seq<Condition>, kind: ConditionType)
    requires ConditionsUnique(conditions)
    ensures |FilterByType(conditions, kind)| <= 1
  {
    if conditions != [] {
      var rest := conditions[1..];
      assert ConditionsUnique(rest) by {
        forall i, j | 0 <= i < j < |rest| ensures rest[i].kind != rest[j].kind {
          assert rest[i] == conditions[i + 1] && rest[j] == conditions[j + 1];
        }
      }
      UniqueFiltersToAtMostOne(rest, kind);
      if conditions[0].kind == kind {
        forall c | c in rest ensures c.kind != kind {
          var j :| 0 <= j < |rest| && rest[j] == c;
          assert conditions[j + 1] == c;
        }
      }
    }
  }

  /**
   * SetProgressing and SetAvailable: when no condition of the type is present, replace the
   * whole condition list by that one condition, True, and write the status; else do nothing.
   */
  function SetCondition(w: World, m: Model, kind: ConditionType): (r: Step<bool>)
    ensures HasCondition(m, kind) ==> r == Step(w, Success(false))
    ensures !HasCondition(m, kind) ==> r.world.calls == w.calls + [Call(UpdateStatus, ModelResource)]
    ensures r.result == Success(true) <==>
              !HasCondition(m, kind) && !Fails(w, 0) && m.key in w.models
    ensures r.result == Success(true) ==>
              r.world.models == w.models[m.key := w.models[m.key].(status := ModelStatus([Condition(kind, ConditionTrue)], m.status.counters))]
    ensures !r.result.Success? || !r.result.value ==> r.world.models == w.models
    ensures r.world.(models := w.models, calls := w.calls) == w
    ensures m.key in w.models && r.result.Failure? ==> FailedRun(w, r.world, r.result.error)
    ensures r.result.Success? ==> CleanRun(w, r.world)
    ensures Consistent(w) ==> Consistent(r.world)
  {
    if HasCondition(m, kind) then Step(w, Success(false))
    else
      var written := UpdateModelStatus(w, m.(status := m.status.(conditions := [Condition(kind, ConditionTrue)])));
      if written.result.Failure? then Step(written.world, Failure(written.result.error))
      else Step(written.world, Success(true))
  }

  function SetProgressing(w: World, m: Model): Step<bool>
  {
    SetCondition(w, m, Progressing)
  }

  function SetAvailable(w: World, m: Model): Step<bool>
  {
    SetCondition(w, m, Available)
  }

  /** At least one of the four observed counters differs from what the status records. */
  function ShouldSetReplicas(m: Model, observed: Counters): (b: bool)
    ensures b <==>
              || m.status.counters.replicas != observed.replicas
              || m.status.counters.readyReplicas != observed.readyReplicas
              || m.status.counters.availableReplicas != observed.availableReplicas
              || m.status.counters.unavailableReplicas != observed.unavailableReplicas
  {
    m.status.counters != observed
  }

  /** Write the four counters into the status; true whenever the write succeeds. */
  function SetReplicas(w: World, m: Model, observed: Counters): (r: Step<bool>)
    ensures r.world.calls == w.calls + [Call(UpdateStatus, ModelResource)]
    ensures r.result.Success? <==> !Fails(w, 0) && m.key in w.models
    ensures r.result.Success? ==>
              && r.result.value
              && r.world.models == w.models[m.key := w.models[m.key].(status := ModelStatus(m.status.conditions, observed))]
    ensures r.result.Failure? ==> r.world.models == w.models
    ensures r.world.(models := w.models, calls := w.calls) == w
    ensures m.key in w.models && r.result.Failure? ==> FailedRun(w, r.world, r.result.error)
    ensures r.result.Success? ==> CleanRun(w, r.world)
    ensures Consistent(w) ==> Consistent(r.world)
  {
    var written := UpdateModelStatus(w, m.(status := m.status.(counters := observed)));
    if written.result.Failure? then Step(written.world, Failure(written.result.error))
    else Step(written.world, Success(true))
  }

  // ---------------------------------------------------------------------------
  // What a pass promises

  /** `m` is the Model the store holds under `req`, as the pass fetched it. */
  predicate Fetched(w: World, req: Key, m: Model)
  {
    Consistent(w) && req in w.models && w.models[req] == m
  }

  /** A pass fails exactly when one of its requests failed: that one was its last, and its error is the pass's. */
  predicate StopsAtFault(w: World, p: Pass)
  {
    if p.outcome.Failed? then FailedRun(w, p.world, p.outcome.error) else CleanRun(w, p.world)
  }

  /** No Model disappears, and no Model that had a condition of type Available loses it. */
  predicate KeepsAvailable(before: map<Key, Model>, after: map<Key, Model>)
  {
    && after.Keys == before.Keys
    && forall k | k in before && IsAvailable(before[k]) :: IsAvailable(after[k])
  }

  /** No condition type occurs twice in the list. */
  predicate ConditionsUnique(conditions: seq<Condition>)
  {
    forall i, j | 0 <= i < j < |conditions| :: conditions[i].kind != conditions[j].kind
  }

  /** A Model whose conditions had each type at most once still has. */
  predicate KeepsUnique(before: map<Key, Model>, after: map<Key, Model>)
    requires after.Keys == before.Keys
  {
    forall k | k in before && ConditionsUnique(before[k].status.conditions) :: ConditionsUnique(after[k].status.conditions)
  }

  /**
   * What every pass keeps: it stops at its first failed request, keeps objects under their
   * own keys, removes no Model, drops no Available condition and duplicates no condition type.
   */
  predicate PassInvariant(w: World, p: Pass)
  {
    StopsAtFault(w, p) && Consistent(p.world) && KeepsAvailable(w.models, p.world.models) && KeepsUnique(w.models, p.world.models)
  }

  predicate ImageStoreReadyIn(w: World, namespace: string, part: ImageStorePart)
  {
    ImageStoreKey(namespace, part) in w.imageStore && w.imageStore[ImageStoreKey(namespace, part)].ready
  }

  /** The namespace's image store is complete: the claim exists, server and endpoint are ready. */
  predicate ImageStoreUp(w: World, namespace: string)
  {
    && ImageStoreKey(namespace, ImageStoreClaim) in w.imageStore
    && ImageStoreReadyIn(w, namespace, ImageStoreServer)
    && ImageStoreReadyIn(w, namespace, ImageStoreEndpoint)
  }

  /** The Model's Deployment exists at the Model's replica count, and all its replicas are ready. */
  predicate RolledOut(w: World, req: Key, spec: ModelSpec)
  {
    var app := AppKey(req.namespace, req.name);
    && app in w.deployments
    && w.deployments[app].replicas == Some(DesiredReplicas(spec.replicas))
    && DeploymentReady(w.deployments[app])
  }

  /** The Model's Service exists and has its cluster address. */
  predicate Serving(w: World, req: Key)
  {
    AppKey(req.namespace, req.name) in w.services && w.services[AppKey(req.namespace, req.name)].clusterIP != ""
  }

  /** The state the controller drives a Model to: everything up, counters recorded, Available set. */
  predicate Converged(w: World, req: Key)
  {
    && req in w.models
    && ImageStoreUp(w, req.namespace)
    && RolledOut(w, req, w.models[req].spec)
    && Serving(w, req)
    && w.models[req].status.counters == w.deployments[AppKey(req.namespace, req.name)].status
    && IsAvailable(w.models[req])
  }

  // ---------------------------------------------------------------------------
  // One reconcile pass, stage by stage

  /** client.IgnoreNotFound: an absent Model ends the pass without error. */
  function IgnoreNotFound(e: Error): (o: Outcome)
    ensures o == Done <==> e == NotFound
    ensures o != Done ==> o == Failed(e)
  {
    if e == NotFound then Done else Failed(e)
  }

  function Reconcile(w: World, req: Key): (p: Pass)
    // an absent Model ends the pass with no error; a failed get is the pass's error; neither writes
    ensures !Fails(w, 0) && req !in w.models ==> p == Pass(Request(w, Call(Get, ModelResource)), Done)
    ensures Fails(w, 0) ==> p == Pass(Request(w, Call(Get, ModelResource)), Failed(NextFault(w)))
    ensures p.outcome.RequeueAfter? ==> p.outcome.seconds == ProgressingDelay || p.outcome.seconds == ReadinessDelay
  {
    var got := GetModel(w, req);
    if got.result.Failure? then Pass(got.world, IgnoreNotFound(got.result.error))
    else GateOnProgressing(got.world, req, got.result.value)
  }

  /** A Model not yet Available gets Progressing; the pass that first writes it stops there. */
  function GateOnProgressing(w: World, req: Key, m: Model): (p: Pass)
    ensures Fetched(w, req, m) ==>
              (p.outcome == RequeueAfter(ProgressingDelay) <==> !IsAvailable(m) && !IsProgressing(m) && !Fails(w, 0))
    // the pass that writes Progressing touches nothing but the Model's status
    ensures p.outcome == RequeueAfter(ProgressingDelay) ==>
              && m.key in w.models
              && p.world.models == w.models[m.key := w.models[m.key].(status := ModelStatus([Condition(Progressing, ConditionTrue)], m.status.counters))]
              && p.world.events == w.events + [Event(m.key, ModelProgressing)]
              && p.world.deployments == w.deployments && p.world.services == w.services && p.world.imageStore == w.imageStore
    ensures p.outcome.RequeueAfter? ==> p.outcome.seconds == ProgressingDelay || p.outcome.seconds == ReadinessDelay
    ensures Fetched(w, req, m) ==> PassInvariant(w, p)
  {
    if IsAvailable(m) then Continue(w, req, m, AtClaim)
    else
      var written := SetProgressing(w, m);
      if written.result.Failure? then Pass(written.world, Failed(written.result.error))
      else if written.result.value then Pass(Emit(written.world, m.key, ModelProgressing), RequeueAfter(ProgressingDelay))
      else Continue(written.world, req, m, AtClaim)
  }

  /**
   * The stages of a pass after the Progressing gate, in the order the Go code runs them,
   * with what earlier stages hand on: the image-store server for its endpoint, the model
   * Deployment for the stages after it.
   */
  datatype Stage =
    | AtClaim | AtServer | AtServerGate(server: ImageStoreObject)
    | AtEndpoint(server: ImageStoreObject) | AtEndpointGate
    | AtDeployment | AtDrift(deployment: Deployment) | AtDeploymentGate(deployment: Deployment)
    | AtService(deployment: Deployment) | AtServiceGate(deployment: Deployment)

  /** How many stages come after this one. */
  function StagesLeft(stage: Stage): nat
  {
    match stage
    case AtClaim => 9
    case AtServer => 8
    case AtServerGate(_) => 7
    case AtEndpoint(_) => 6
    case AtEndpointGate => 5
    case AtDeployment => 4
    case AtDrift(_) => 3
    case AtDeploymentGate(_) => 2
    case AtService(_) => 1
    case AtServiceGate(_) => 0
  }

  /** The stages from the model Deployment on: none of them touches the image store. */
  predicate PastImageStore(stage: Stage)
  {
    StagesLeft(stage) <= StagesLeft(AtDeployment)
  }

  /** The stages from the model Service on: none of them touches a Deployment. */
  predicate PastDeployment(stage: Stage)
  {
    stage.AtService? || stage.AtServiceGate?
  }

  /** No image-store object that existed is removed or changed. */
  predicate ImageStoreKept(before: map<ImageStoreKey, ImageStoreObject>, after: map<ImageStoreKey, ImageStoreObject>)
  {
    forall k | k in before :: k in after && after[k] == before[k]
  }

  /**
   * The rest of the pass from `stage` on. The stages reach each other only through this
   * function, so each one is proved from the contract of the rest rather than from its
   * whole text.
   */
  function Continue(w: World, req: Key, m: Model, stage: Stage): (p: Pass)
    decreases StagesLeft(stage), 1
    ensures p.outcome.RequeueAfter? ==> p.outcome.seconds == ReadinessDelay
    ensures Fetched(w, req, m) ==> PassInvariant(w, p)
    ensures ImageStoreKept(w.imageStore, p.world.imageStore)
    ensures PastImageStore(stage) ==> p.world.imageStore == w.imageStore
    ensures PastDeployment(stage) ==> p.world.deployments == w.deployments
  {
    match stage
    case AtClaim => ClaimImageStore(w, req, m)
    case AtServer => StartImageStoreServer(w, req, m)
    case AtServerGate(server) => AwaitImageStoreServer(w, req, m, server)
    case AtEndpoint(server) => ProvideImageStoreEndpoint(w, req, m, server)
    case AtEndpointGate => AwaitImageStoreEndpoint(w, req, m)
    case AtDeployment => CreateDeployment(w, req, m)
    case AtDrift(deployment) => CorrectDrift(w, req, m, deployment)
    case AtDeploymentGate(deployment) => AwaitDeployment(w, req, m, deployment)
    case AtService(deployment) => CreateService(w, req, m, deployment)
    case AtServiceGate(deployment) => AwaitService(w, req, m, deployment)
  }

  /** The namespace's image-store volume claim. */
  function ClaimImageStore(w: World, req: Key, m: Model): (p: Pass)
    decreases StagesLeft(AtClaim), 0
    ensures p.outcome.RequeueAfter? ==> p.outcome.seconds == ReadinessDelay
    ensures Fetched(w, req, m) ==> PassInvariant(w, p)
    ensures ImageStoreKept(w.imageStore, p.world.imageStore)
  {
    var claim := EnsureImageStoreCreated(w, req.namespace, ImageStoreClaim, None);
    if claim.result.Failure? then Pass(claim.world, Failed(claim.result.error))
    else Continue(claim.world, req, m, AtServer)
  }

  /** The namespace's image-store server. */
  function StartImageStoreServer(w: World, req: Key, m: Model): (p: Pass)
    decreases StagesLeft(AtServer), 0
    ensures p.outcome.RequeueAfter? ==> p.outcome.seconds == ReadinessDelay
    ensures Fetched(w, req, m) ==> PassInvariant(w, p)
    ensures ImageStoreKept(w.imageStore, p.world.imageStore)
  {
    var server := EnsureImageStoreCreated(w, req.namespace, ImageStoreServer, None);
    if server.result.Failure? then Pass(server.world, Failed(server.result.error))
    else Continue(server.world, req, m, AtServerGate(server.result.value))
  }

  /** The pass waits until the image-store server is ready. */
  function AwaitImageStoreServer(w: World, req: Key, m: Model, server: ImageStoreObject): (p: Pass)
    decreases StagesLeft(AtServerGate(server)), 0
    ensures p.outcome.RequeueAfter? ==> p.outcome.seconds == ReadinessDelay
    ensures Fetched(w, req, m) ==> PassInvariant(w, p)
    ensures ImageStoreKept(w.imageStore, p.world.imageStore)
  {
    var ready := IsImageStoreReady(w, req.namespace, ImageStoreServer);
    if ready.result.Failure? then Pass(ready.world, Failed(ready.result.error))
    else if !ready.result.value then Pass(ready.world, RequeueAfter(ReadinessDelay))
    else Continue(ready.world, req, m, AtEndpoint(server))
  }

  /** The image store's endpoint, owned by its server. */
  function ProvideImageStoreEndpoint(w: World, req: Key, m: Model, server: ImageStoreObject): (p: Pass)
    decreases StagesLeft(AtEndpoint(server)), 0
    ensures p.outcome.RequeueAfter? ==> p.outcome.seconds == ReadinessDelay
    ensures Fetched(w, req, m) ==> PassInvariant(w, p)
    ensures ImageStoreKept(w.imageStore, p.world.imageStore)
  {
    var endpoint := EnsureImageStoreCreated(w, req.namespace, ImageStoreEndpoint, Some(server.uid));
    if endpoint.result.Failure? then Pass(endpoint.world, Failed(endpoint.result.error))
    else Continue(endpoint.world, req, m, AtEndpointGate)
  }

  /** The pass waits until the image-store endpoint is ready. */
  function AwaitImageStoreEndpoint(w: World, req: Key, m: Model): (p: Pass)
    decreases StagesLeft(AtEndpointGate), 0
    ensures p.outcome.RequeueAfter? ==> p.outcome.seconds == ReadinessDelay
    ensures Fetched(w, req, m) ==> PassInvariant(w, p)
    ensures ImageStoreKept(w.imageStore, p.world.imageStore)
  {
    var ready := IsImageStoreReady(w, req.namespace, ImageStoreEndpoint);
    if ready.result.Failure? then Pass(ready.world, Failed(ready.result.error))
    else if !ready.result.value then Pass(ready.world, RequeueAfter(ReadinessDelay))
    else Continue(ready.world, req, m, AtDeployment)
  }

  /** The model Deployment, created from the Model's spec when absent. */
  function CreateDeployment(w: World, req: Key, m: Model): (p: Pass)
    decreases StagesLeft(AtDeployment), 0
    ensures p.outcome.RequeueAfter? ==> p.outcome.seconds == ReadinessDelay
    ensures Fetched(w, req, m) ==> PassInvariant(w, p)
    ensures p.world.imageStore == w.imageStore
  {
    var deployment := EnsureDeploymentCreated(w, req.namespace, req.name, m.spec.image, m.spec.replicas, m, m.key);
    if deployment.result.Failure? then Pass(deployment.world, Failed(deployment.result.error))
    else Continue(deployment.world, req, m, AtDrift(deployment.result.value))
  }

  /** A Deployment whose replica count drifted is corrected, and the pass stops there. */
  function CorrectDrift(w: World, req: Key, m: Model, deployment: Deployment): (p: Pass)
    decreases StagesLeft(AtDrift(deployment)), 0
    ensures p.outcome.RequeueAfter? ==> p.outcome.seconds == ReadinessDelay
    ensures Fetched(w, req, m) ==> PassInvariant(w, p)
    ensures p.world.imageStore == w.imageStore
  {
    var updated := UpdateDeployment(w, m, m.key);
    if updated.result.Failure? then Pass(updated.world, Failed(updated.result.error))
    else if updated.result.value then Pass(updated.world, RequeueAfter(ReadinessDelay))
    else Continue(updated.world, req, m, AtDeploymentGate(deployment))
  }

  /** The pass waits until the model Deployment is ready. */
  function AwaitDeployment(w: World, req: Key, m: Model, deployment: Deployment): (p: Pass)
    decreases StagesLeft(AtDeploymentGate(deployment)), 0
    ensures p.outcome.RequeueAfter? ==> p.outcome.seconds == ReadinessDelay
    ensures Fetched(w, req, m) ==> PassInvariant(w, p)
    ensures p.world.imageStore == w.imageStore
  {
    var ready := IsDeploymentReady(w, req.namespace, req.name, m.key);
    if ready.result.Failure? then Pass(ready.world, Failed(ready.result.error))
    else if !ready.result.value then Pass(ready.world, RequeueAfter(ReadinessDelay))
    else Continue(ready.world, req, m, AtService(deployment))
  }

  /** The model Service in front of the Deployment. */
  function CreateService(w: World, req: Key, m: Model, deployment: Deployment): (p: Pass)
    decreases StagesLeft(AtService(deployment)), 0
    ensures p.outcome.RequeueAfter? ==> p.outcome.seconds == ReadinessDelay
    ensures Fetched(w, req, m) ==> PassInvariant(w, p)
    ensures p.world.deployments == w.deployments && p.world.imageStore == w.imageStore
  {
    var service := EnsureServiceCreated(w, req.namespace, req.name, deployment, m.key);
    if service.result.Failure? then Pass(service.world, Failed(service.result.error))
    else Continue(service.world, req, m, AtServiceGate(deployment))
  }

  /** The pass waits until the Service has a cluster address, then concludes. */
  function AwaitService(w: World, req: Key, m: Model, deployment: Deployment): (p: Pass)
    ensures p.outcome.RequeueAfter? ==> p.outcome.seconds == ReadinessDelay
    ensures Fetched(w, req, m) ==> PassInvariant(w, p)
    ensures p.world.deployments == w.deployments && p.world.imageStore == w.imageStore
  {
    var ready := IsServiceReady(w, req.namespace, req.name, m.key);
    if ready.result.Failure? then Pass(ready.world, Failed(ready.result.error))
    else if !ready.result.value then Pass(ready.world, RequeueAfter(ReadinessDelay))
    else Conclude(ready.world, m, deployment.status)
  }

  /** Record the Deployment's counters (and stop), or else mark the Model Available. */
  function Conclude(w: World, m: Model, observed: Counters): (p: Pass)
    // stale counters are written, and that pass ends there without ModelAvailable
    ensures ShouldSetReplicas(m, observed) && m.key in w.models && !Fails(w, 0) ==>
              && p.outcome == RequeueAfter(ReadinessDelay)
              && p.world.models == w.models[m.key := w.models[m.key].(status := ModelStatus(m.status.conditions, observed))]
              && p.world.events == w.events
    ensures p.outcome == Done ==> !ShouldSetReplicas(m, observed) && p.world.events == w.events + [Event(m.key, ModelAvailable)]
    ensures p.outcome != Done ==> p.world.events == w.events
    // a failed write changes no Model; a pass that ends here Done wrote at most the Available condition
    ensures p.outcome.Failed? ==> p.world.models == w.models
    ensures p.outcome == Done ==>
              || p.world.models == w.models
              || (&& m.key in w.models
                  && p.world.models == w.models[m.key := w.models[m.key].(status := ModelStatus([Condition(Available, ConditionTrue)], m.status.counters))])
    ensures p.world.deployments == w.deployments && p.world.services == w.services && p.world.imageStore == w.imageStore
    ensures p.outcome == Done || p.outcome == RequeueAfter(ReadinessDelay) || p.outcome.Failed?
    ensures Fetched(w, m.key, m) ==> PassInvariant(w, p)
    ensures Fetched(w, m.key, m) && p.outcome == Done ==>
              && IsAvailable(p.world.models[m.key])
              && p.world.models[m.key].spec == m.spec && p.world.models[m.key].status.counters == observed
  {
    if ShouldSetReplicas(m, observed) then
      var written := SetReplicas(w, m, observed);
      if written.result.Failure? then Pass(written.world, Failed(written.result.error))
      else if written.result.value then Pass(written.world, RequeueAfter(ReadinessDelay))
      else MarkAvailable(written.world, m)
    else MarkAvailable(w, m)
  }

  /** SetAvailable, then the ModelAvailable event, whether or not anything was written. */
  function MarkAvailable(w: World, m: Model): (p: Pass)
    // already Available: no store call at all, and still the event
    ensures IsAvailable(m) ==> p == Pass(Emit(w, m.key, ModelAvailable), Done)
    ensures !IsAvailable(m) && m.key in w.models && !Fails(w, 0) ==>
              && p.outcome == Done
              && p.world.models == w.models[m.key := w.models[m.key].(status := ModelStatus([Condition(Available, ConditionTrue)], m.status.counters))]
    ensures p.outcome == Done ==> p.world.events == w.events + [Event(m.key, ModelAvailable)]
    ensures p.outcome.Failed? ==> p.world.events == w.events && p.world.models == w.models
    ensures p.outcome == Done ==>
              || p.world.models == w.models
              || (&& m.key in w.models
                  && p.world.models == w.models[m.key := w.models[m.key].(status := ModelStatus([Condition(Available, ConditionTrue)], m.status.counters))])
    ensures p.outcome == Done || p.outcome.Failed?
    ensures p.world.deployments == w.deployments && p.world.services == w.services && p.world.imageStore == w.imageStore
    ensures Fetched(w, m.key, m) ==> PassInvariant(w, p)
    ensures Fetched(w, m.key, m) && p.outcome == Done ==>
              && IsAvailable(p.world.models[m.key])
              && p.world.models[m.key].spec == m.spec && p.world.models[m.key].status.counters == m.status.counters
  {
    var written := SetAvailable(w, m);
    if written.result.Failure? then Pass(written.world, Failed(written.result.error))
    else Pass(Emit(written.world, m.key, ModelAvailable), Done)
  }
}
