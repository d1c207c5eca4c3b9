/**
 * What one reconcile pass guarantees, proved stage by stage from the contracts of the
 * stage helpers and of the rest of the pass: it stops at the first failed request, it
 * respects the order of its gates, it corrects drift before anything else, and a pass
 * that ends without requeue leaves the Model converged. The last lemma is the converse at
 * the fixed point: on a converged cluster a pass changes nothing but the event log.
 */
module ReconcileProperties {
  import opened Wrappers
  import opened Resources
  import opened Stages
  import opened Reconciliation

  // ---------------------------------------------------------------------------
  // The invariant of a pass

  /** Requests that all succeeded and leave the Models alone, then a pass: the invariant carries back. */
  lemma Chain(w: World, w': World, p: Pass)
    requires CleanRun(w, w') && w'.models == w.models && PassInvariant(w', p)
    ensures PassInvariant(w, p)
  {
  }

  /** The invariant of the pass that follows a successful get of the Model. */
  lemma GateInvariant(w: World, req: Key, m: Model)
    requires Fetched(w, req, m)
    ensures PassInvariant(w, GateOnProgressing(w, req, m))
  {
  }

  /** A run of answered requests that leaves the Models alone, then the gate: the gate's invariant carries back. */
  lemma FetchThenGate(w: World, w': World, req: Key, m: Model)
    requires Fetched(w', req, m) && CleanRun(w, w') && w'.models == w.models
    ensures PassInvariant(w, GateOnProgressing(w', req, m))
  {
    GateInvariant(w', req, m);
    Chain(w, w', GateOnProgressing(w', req, m));
  }

  /**
   * Every pass stops at its first failed request and reports that request's error; no
   * later stage runs. No pass removes a Model or the Available condition of one, or makes
   * a condition type occur twice.
   */
  lemma {:induction false} ReconcileInvariant(w: World, req: Key)
    requires Consistent(w)
    ensures PassInvariant(w, Reconcile(w, req))
  {
    var got := GetModel(w, req);
    if got.result.Success? {
      assert Fetched(got.world, req, got.result.value);
      assert CleanRun(w, got.world);
      FetchThenGate(w, got.world, req, got.result.value);
    }
    ReconcileStep(w, req);
  }

  // ---------------------------------------------------------------------------
  // How each stage hands on to the next: the pass goes on to the next stage exactly
  // when the stage's request succeeded (and, at a gate, found the object ready)

  /** A stage that stops the pass at its own request: failed, or waiting at a gate. */
  predicate StopsHere(p: Pass, w': World)
  {
    p.world == w' && (p.outcome == RequeueAfter(ReadinessDelay) || p.outcome.Failed?)
  }

  lemma ClaimImageStoreStep(w: World, req: Key, m: Model)
    ensures var claim := EnsureImageStoreCreated(w, req.namespace, ImageStoreClaim, None);
            var p := ClaimImageStore(w, req, m);
            if claim.result.Success? then p == StartImageStoreServer(claim.world, req, m)
            else p == Pass(claim.world, Failed(claim.result.error))
  {
    var claim := EnsureImageStoreCreated(w, req.namespace, ImageStoreClaim, None);
    assert Continue(claim.world, req, m, AtServer) == StartImageStoreServer(claim.world, req, m);
  }

  lemma StartImageStoreServerStep(w: World, req: Key, m: Model)
    ensures var server := EnsureImageStoreCreated(w, req.namespace, ImageStoreServer, None);
            var p := StartImageStoreServer(w, req, m);
            if server.result.Success? then p == AwaitImageStoreServer(server.world, req, m, server.result.value)
            else p == Pass(server.world, Failed(server.result.error))
  {
    var server := EnsureImageStoreCreated(w, req.namespace, ImageStoreServer, None);
    if server.result.Success? {
      assert Continue(server.world, req, m, AtServerGate(server.result.value)) == AwaitImageStoreServer(server.world, req, m, server.result.value);
    }
  }

  lemma AwaitImageStoreServerStep(w: World, req: Key, m: Model, server: ImageStoreObject)
    ensures var ready := IsImageStoreReady(w, req.namespace, ImageStoreServer);
            var p := AwaitImageStoreServer(w, req, m, server);
            if ready.result == Success(true) then p == ProvideImageStoreEndpoint(ready.world, req, m, server)
            else StopsHere(p, ready.world)
  {
    var ready := IsImageStoreReady(w, req.namespace, ImageStoreServer);
    assert Continue(ready.world, req, m, AtEndpoint(server)) == ProvideImageStoreEndpoint(ready.world, req, m, server);
  }

  lemma ProvideImageStoreEndpointStep(w: World, req: Key, m: Model, server: ImageStoreObject)
    ensures var endpoint := EnsureImageStoreCreated(w, req.namespace, ImageStoreEndpoint, Some(server.uid));
            var p := ProvideImageStoreEndpoint(w, req, m, server);
            if endpoint.result.Success? then p == AwaitImageStoreEndpoint(endpoint.world, req, m)
            else p == Pass(endpoint.world, Failed(endpoint.result.error))
  {
    var endpoint := EnsureImageStoreCreated(w, req.namespace, ImageStoreEndpoint, Some(server.uid));
    assert Continue(endpoint.world, req, m, AtEndpointGate) == AwaitImageStoreEndpoint(endpoint.world, req, m);
  }

  lemma AwaitImageStoreEndpointStep(w: World, req: Key, m: Model)
    ensures var ready := IsImageStoreReady(w, req.namespace, ImageStoreEndpoint);
            var p := AwaitImageStoreEndpoint(w, req, m);
            if ready.result == Success(true) then p == CreateDeployment(ready.world, req, m)
            else StopsHere(p, ready.world)
  {
    var ready := IsImageStoreReady(w, req.namespace, ImageStoreEndpoint);
    assert Continue(ready.world, req, m, AtDeployment) == CreateDeployment(ready.world, req, m);
  }

  lemma CreateDeploymentStep(w: World, req: Key, m: Model)
    ensures var deployment := EnsureDeploymentCreated(w, req.namespace, req.name, m.spec.image, m.spec.replicas, m, m.key);
            var p := CreateDeployment(w, req, m);
            if deployment.result.Success? then p == CorrectDrift(deployment.world, req, m, deployment.result.value)
            else p == Pass(deployment.world, Failed(deployment.result.error))
  {
    var deployment := EnsureDeploymentCreated(w, req.namespace, req.name, m.spec.image, m.spec.replicas, m, m.key);
    if deployment.result.Success? {
      assert CreateDeployment(w, req, m) == Continue(deployment.world, req, m, AtDrift(deployment.result.value));
      assert Continue(deployment.world, req, m, AtDrift(deployment.result.value)) == CorrectDrift(deployment.world, req, m, deployment.result.value);
    }
  }

  lemma CorrectDriftStep(w: World, req: Key, m: Model, deployment: Deployment)
    ensures var updated := UpdateDeployment(w, m, m.key);
            var p := CorrectDrift(w, req, m, deployment);
            if updated.result == Success(false) then p == AwaitDeployment(updated.world, req, m, deployment)
            else StopsHere(p, updated.world)
  {
    var updated := UpdateDeployment(w, m, m.key);
    assert Continue(updated.world, req, m, AtDeploymentGate(deployment)) == AwaitDeployment(updated.world, req, m, deployment);
  }

  lemma AwaitDeploymentStep(w: World, req: Key, m: Model, deployment: Deployment)
    ensures var ready := IsDeploymentReady(w, req.namespace, req.name, m.key);
            var p := AwaitDeployment(w, req, m, deployment);
            if ready.result == Success(true) then p == CreateService(ready.world, req, m, deployment)
            else StopsHere(p, ready.world)
  {
    var ready := IsDeploymentReady(w, req.namespace, req.name, m.key);
    assert Continue(ready.world, req, m, AtService(deployment)) == CreateService(ready.world, req, m, deployment);
  }

  lemma CreateServiceStep(w: World, req: Key, m: Model, deployment: Deployment)
    ensures var service := EnsureServiceCreated(w, req.namespace, req.name, deployment, m.key);
            var p := CreateService(w, req, m, deployment);
            if service.result.Success? then p == AwaitService(service.world, req, m, deployment)
            else p == Pass(service.world, Failed(service.result.error))
  {
    var service := EnsureServiceCreated(w, req.namespace, req.name, deployment, m.key);
    assert Continue(service.world, req, m, AtServiceGate(deployment)) == AwaitService(service.world, req, m, deployment);
  }

  /** The pass runs the Progressing gate on the Model it fetched, or ends with the get's outcome. */
  lemma ReconcileStep(w: World, req: Key)
    ensures var got := GetModel(w, req);
            if got.result.Success? then Reconcile(w, req) == GateOnProgressing(got.world, req, got.result.value)
            else Reconcile(w, req) == Pass(got.world, IgnoreNotFound(got.result.error))
  {
  }

  /** A present Model that the store answers for goes to the Progressing gate as stored. */
  lemma ReconcileFetches(w: World, req: Key)
    requires req in w.models && !Fails(w, 0)
    ensures Reconcile(w, req) == GateOnProgressing(Request(w, Call(Get, ModelResource)), req, w.models[req])
  {
    ReconcileStep(w, req);
  }

  /**
   * A Model neither Available nor Progressing: the gate's write ends the pass, waiting one
   * second or failed, with only the Model's status requested and nothing but the Model and
   * the event log changed.
   */
  lemma GateStops(w: World, req: Key, m: Model)
    requires Fetched(w, req, m) && !IsAvailable(m) && SetProgressing(w, m).result != Success(false)
    ensures var p := GateOnProgressing(w, req, m);
            && (p.outcome == RequeueAfter(ProgressingDelay) || (p.outcome.Failed? && p.world.models == w.models && p.world.events == w.events))
            && p.world.deployments == w.deployments && p.world.services == w.services && p.world.imageStore == w.imageStore
            && p.world.calls == w.calls + [Call(UpdateStatus, ModelResource)]
  {
  }

  /** An Available Model goes straight to the image store; so does one already Progressing. */
  lemma GateOnProgressingStep(w: World, req: Key, m: Model)
    ensures IsAvailable(m) ==> GateOnProgressing(w, req, m) == ClaimImageStore(w, req, m)
    ensures var written := SetProgressing(w, m);
            !IsAvailable(m) && written.result == Success(false) ==>
              GateOnProgressing(w, req, m) == ClaimImageStore(written.world, req, m)
  {
    assert Continue(w, req, m, AtClaim) == ClaimImageStore(w, req, m);
    assert Continue(SetProgressing(w, m).world, req, m, AtClaim) == ClaimImageStore(SetProgressing(w, m).world, req, m);
  }

  // ---------------------------------------------------------------------------
  // A pass that ends Done leaves the Model converged

  /** The Model is stored Available, with the spec it was fetched with and the given counters. */
  predicate Recorded(w: World, req: Key, spec: ModelSpec, counters: Counters)
  {
    && req in w.models
    && IsAvailable(w.models[req])
    && w.models[req].spec == spec
    && w.models[req].status.counters == counters
  }

  /** What the stages from the Deployment on leave behind when the pass ends Done. */
  predicate ServedAndRecorded(w: World, req: Key, spec: ModelSpec)
  {
    && RolledOut(w, req, spec)
    && Serving(w, req)
    && Recorded(w, req, spec, w.deployments[AppKey(req.namespace, req.name)].status)
  }

  lemma {:induction false} AwaitServiceDone(w: World, req: Key, m: Model, deployment: Deployment)
    requires Fetched(w, req, m)
    ensures var p := AwaitService(w, req, m, deployment);
            p.outcome == Done ==> Serving(p.world, req) && Recorded(p.world, req, m.spec, deployment.status)
  {
    var ready := IsServiceReady(w, req.namespace, req.name, m.key);
    if ready.result == Success(true) {
      assert m.key == req;
      assert Fetched(ready.world, m.key, m);
      assert Serving(ready.world, req);
    }
  }

  lemma {:induction false} CreateServiceDone(w: World, req: Key, m: Model, deployment: Deployment)
    requires Fetched(w, req, m)
    ensures var p := CreateService(w, req, m, deployment);
            p.outcome == Done ==> Serving(p.world, req) && Recorded(p.world, req, m.spec, deployment.status)
  {
    CreateServiceStep(w, req, m, deployment);
    var service := EnsureServiceCreated(w, req.namespace, req.name, deployment, m.key);
    if service.result.Success? {
      AwaitServiceDone(service.world, req, m, deployment);
    }
  }

  lemma {:induction false} AwaitDeploymentDone(w: World, req: Key, m: Model, deployment: Deployment)
    requires Fetched(w, req, m)
    requires AppKey(req.namespace, req.name) in w.deployments && w.deployments[AppKey(req.namespace, req.name)] == deployment
    requires deployment.replicas == Some(DesiredReplicas(m.spec.replicas))
    ensures var p := AwaitDeployment(w, req, m, deployment);
            p.outcome == Done ==> ServedAndRecorded(p.world, req, m.spec)
  {
    AwaitDeploymentStep(w, req, m, deployment);
    var ready := IsDeploymentReady(w, req.namespace, req.name, m.key);
    if ready.result == Success(true) {
      assert RolledOut(ready.world, req, m.spec);
      CreateServiceDone(ready.world, req, m, deployment);
    }
  }

  lemma {:induction false} CorrectDriftDone(w: World, req: Key, m: Model, deployment: Deployment)
    requires Fetched(w, req, m)
    requires AppKey(req.namespace, req.name) in w.deployments && w.deployments[AppKey(req.namespace, req.name)] == deployment
    ensures var p := CorrectDrift(w, req, m, deployment);
            p.outcome == Done ==> ServedAndRecorded(p.world, req, m.spec)
  {
    CorrectDriftStep(w, req, m, deployment);
    var updated := UpdateDeployment(w, m, m.key);
    if updated.result == Success(false) {
      assert m.key == req;
      AwaitDeploymentDone(updated.world, req, m, deployment);
    }
  }

  lemma {:induction false} CreateDeploymentDone(w: World, req: Key, m: Model)
    requires Fetched(w, req, m)
    ensures var p := CreateDeployment(w, req, m);
            p.outcome == Done ==> ServedAndRecorded(p.world, req, m.spec)
  {
    CreateDeploymentStep(w, req, m);
    var deployment := EnsureDeploymentCreated(w, req.namespace, req.name, m.spec.image, m.spec.replicas, m, m.key);
    if deployment.result.Success? {
      CorrectDriftDone(deployment.world, req, m, deployment.result.value);
    }
  }

  lemma {:induction false} AwaitImageStoreEndpointDone(w: World, req: Key, m: Model)
    requires Fetched(w, req, m)
    ensures var p := AwaitImageStoreEndpoint(w, req, m);
            p.outcome == Done ==> ImageStoreReadyIn(p.world, req.namespace, ImageStoreEndpoint) && ServedAndRecorded(p.world, req, m.spec)
  {
    AwaitImageStoreEndpointStep(w, req, m);
    var ready := IsImageStoreReady(w, req.namespace, ImageStoreEndpoint);
    if ready.result == Success(true) {
      assert ImageStoreReadyIn(ready.world, req.namespace, ImageStoreEndpoint);
      CreateDeploymentDone(ready.world, req, m);
    }
  }

  lemma {:induction false} ProvideImageStoreEndpointDone(w: World, req: Key, m: Model, server: ImageStoreObject)
    requires Fetched(w, req, m)
    ensures var p := ProvideImageStoreEndpoint(w, req, m, server);
            p.outcome == Done ==> ImageStoreReadyIn(p.world, req.namespace, ImageStoreEndpoint) && ServedAndRecorded(p.world, req, m.spec)
  {
    ProvideImageStoreEndpointStep(w, req, m, server);
    var endpoint := EnsureImageStoreCreated(w, req.namespace, ImageStoreEndpoint, Some(server.uid));
    if endpoint.result.Success? {
      AwaitImageStoreEndpointDone(endpoint.world, req, m);
    }
  }

  lemma {:induction false} AwaitImageStoreServerDone(w: World, req: Key, m: Model, server: ImageStoreObject)
    requires Fetched(w, req, m)
    ensures var p := AwaitImageStoreServer(w, req, m, server);
            p.outcome == Done ==>
              && ImageStoreReadyIn(p.world, req.namespace, ImageStoreServer)
              && ImageStoreReadyIn(p.world, req.namespace, ImageStoreEndpoint)
              && ServedAndRecorded(p.world, req, m.spec)
  {
    AwaitImageStoreServerStep(w, req, m, server);
    var ready := IsImageStoreReady(w, req.namespace, ImageStoreServer);
    if ready.result == Success(true) {
      var p := ProvideImageStoreEndpoint(ready.world, req, m, server);
      ProvideImageStoreEndpointDone(ready.world, req, m, server);
      var serverKey := ImageStoreKey(req.namespace, ImageStoreServer);
      assert serverKey in ready.world.imageStore;
      assert serverKey in p.world.imageStore && p.world.imageStore[serverKey] == ready.world.imageStore[serverKey];
    }
  }

  lemma {:induction false} StartImageStoreServerDone(w: World, req: Key, m: Model)
    requires Fetched(w, req, m)
    ensures var p := StartImageStoreServer(w, req, m);
            p.outcome == Done ==>
              && ImageStoreReadyIn(p.world, req.namespace, ImageStoreServer)
              && ImageStoreReadyIn(p.world, req.namespace, ImageStoreEndpoint)
              && ServedAndRecorded(p.world, req, m.spec)
  {
    StartImageStoreServerStep(w, req, m);
    var server := EnsureImageStoreCreated(w, req.namespace, ImageStoreServer, None);
    if server.result.Success? {
      AwaitImageStoreServerDone(server.world, req, m, server.result.value);
    }
  }

  lemma {:induction false} ClaimImageStoreDone(w: World, req: Key, m: Model)
    requires Fetched(w, req, m)
    ensures var p := ClaimImageStore(w, req, m);
            p.outcome == Done ==> Converged(p.world, req)
  {
    ClaimImageStoreStep(w, req, m);
    var claim := EnsureImageStoreCreated(w, req.namespace, ImageStoreClaim, None);
    if claim.result.Success? {
      var p := StartImageStoreServer(claim.world, req, m);
      StartImageStoreServerDone(claim.world, req, m);
      var claimKey := ImageStoreKey(req.namespace, ImageStoreClaim);
      assert claimKey in claim.world.imageStore;
      assert claimKey in p.world.imageStore;
    }
  }

  /** A pass that ends without error or requeue leaves the Model converged. */
  lemma {:induction false} ReconcileDone(w: World, req: Key)
    requires Consistent(w)
    ensures var p := Reconcile(w, req);
            p.outcome == Done && req in w.models ==> Converged(p.world, req)
  {
    ReconcileStep(w, req);
    var got := GetModel(w, req);
    if got.result.Success? {
      var m := got.result.value;
      assert Fetched(got.world, req, m);
      GateOnProgressingStep(got.world, req, m);
      if IsAvailable(m) {
        ClaimImageStoreDone(got.world, req, m);
      } else {
        var written := SetProgressing(got.world, m);
        if written.result == Success(false) {
          assert Fetched(written.world, req, m);
          ClaimImageStoreDone(written.world, req, m);
        }
      }
    }
  }

  // ---------------------------------------------------------------------------
  // The image-store gates

  /** The requests about the namespace's image store. */
  const ImageStoreKinds: set<Kind> := {ImageStore(ImageStoreClaim), ImageStore(ImageStoreServer), ImageStore(ImageStoreEndpoint)}

  /** From w to w' the log only grew, and every request added was of one of the given kinds. */
  predicate SentOnly(w: World, w': World, kinds: set<Kind>)
  {
    && |w.calls| <= |w'.calls| && w'.calls[..|w.calls|] == w.calls
    && forall i | |w.calls| <= i < |w'.calls| :: w'.calls[i].kind in kinds
  }

  lemma SentThenSent(w: World, w': World, w'': World, kinds: set<Kind>)
    requires SentOnly(w, w', kinds) && SentOnly(w', w'', kinds)
    ensures SentOnly(w, w'', kinds)
  {
    assert w''.calls[..|w.calls|] == w''.calls[..|w'.calls|][..|w.calls|];
    forall i | |w.calls| <= i < |w'.calls|
      ensures w''.calls[i] == w'.calls[i]
    {
      assert w''.calls[..|w'.calls|][i] == w''.calls[i];
    }
  }

  lemma SentWithin(w: World, w': World, kinds: set<Kind>, more: set<Kind>)
    requires SentOnly(w, w', kinds) && kinds <= more
    ensures SentOnly(w, w', more)
  {
  }

  /** Ensuring an image-store part only talks to the image store. */
  lemma EnsureImageStoreSends(w: World, namespace: string, part: ImageStorePart, ownerUid: Option<nat>)
    ensures SentOnly(w, EnsureImageStoreCreated(w, namespace, part, ownerUid).world, ImageStoreKinds)
  {
    var r := EnsureImageStoreCreated(w, namespace, part, ownerUid);
    assert ImageStore(part) in ImageStoreKinds;
    assert r.world.calls[..|w.calls|] == w.calls;
  }

  /** Ensuring one part leaves what every other part will report, and the part then reports what it was to. */
  lemma EnsureImageStoreReadiness(w: World, namespace: string, part: ImageStorePart, ownerUid: Option<nat>, other: ImageStorePart)
    requires other != part
    ensures var r := EnsureImageStoreCreated(w, namespace, part, ownerUid);
            && ReadyWhenEnsured(r.world, namespace, other) == ReadyWhenEnsured(w, namespace, other)
            && (r.result.Success? ==> ImageStoreReadyIn(r.world, namespace, part) == ReadyWhenEnsured(w, namespace, part))
  {
    var r := EnsureImageStoreCreated(w, namespace, part, ownerUid);
    assert ImageStoreKey(namespace, other) != ImageStoreKey(namespace, part);
  }

  /** Asking whether an image-store part is ready only talks to the image store. */
  lemma ImageStoreReadySends(w: World, namespace: string, part: ImageStorePart)
    ensures SentOnly(w, IsImageStoreReady(w, namespace, part).world, ImageStoreKinds)
  {
    var r := IsImageStoreReady(w, namespace, part);
    assert ImageStore(part) in ImageStoreKinds;
    assert r.world.calls[..|w.calls|] == w.calls;
  }

  /**
   * The pass from w ended waiting (or failed) having sent only image-store requests, and
   * without touching a Model, Deployment, Service or the event log.
   */
  predicate WaitedOnImageStore(w: World, p: Pass)
  {
    && (p.outcome == RequeueAfter(ReadinessDelay) || p.outcome.Failed?)
    && p.world.models == w.models && p.world.deployments == w.deployments && p.world.services == w.services
    && p.world.events == w.events
    && SentOnly(w, p.world, ImageStoreKinds)
  }

  /** The endpoint, absent in w, is still absent in w'. */
  predicate EndpointStillAbsent(w: World, w': World, namespace: string)
  {
    var endpointKey := ImageStoreKey(namespace, ImageStoreEndpoint);
    endpointKey !in w.imageStore ==> endpointKey !in w'.imageStore
  }

  lemma {:induction false} AwaitImageStoreEndpointWaits(w: World, req: Key, m: Model)
    requires !ImageStoreReadyIn(w, req.namespace, ImageStoreEndpoint)
    ensures WaitedOnImageStore(w, AwaitImageStoreEndpoint(w, req, m))
  {
    AwaitImageStoreEndpointStep(w, req, m);
    ImageStoreReadySends(w, req.namespace, ImageStoreEndpoint);
    var ready := IsImageStoreReady(w, req.namespace, ImageStoreEndpoint);
    assert ready.result != Success(true);
  }

  lemma {:induction false} ProvideImageStoreEndpointWaits(w: World, req: Key, m: Model, server: ImageStoreObject)
    requires !ReadyWhenEnsured(w, req.namespace, ImageStoreEndpoint)
    ensures WaitedOnImageStore(w, ProvideImageStoreEndpoint(w, req, m, server))
  {
    ProvideImageStoreEndpointStep(w, req, m, server);
    EnsureImageStoreSends(w, req.namespace, ImageStoreEndpoint, Some(server.uid));
    var endpoint := EnsureImageStoreCreated(w, req.namespace, ImageStoreEndpoint, Some(server.uid));
    if endpoint.result.Success? {
      assert !ImageStoreReadyIn(endpoint.world, req.namespace, ImageStoreEndpoint);
      AwaitImageStoreEndpointWaits(endpoint.world, req, m);
      SentThenSent(w, endpoint.world, AwaitImageStoreEndpoint(endpoint.world, req, m).world, ImageStoreKinds);
    }
  }

  lemma {:induction false} AwaitImageStoreServerWaits(w: World, req: Key, m: Model, server: ImageStoreObject)
    requires !ImageStoreReadyIn(w, req.namespace, ImageStoreServer) || !ReadyWhenEnsured(w, req.namespace, ImageStoreEndpoint)
    ensures var p := AwaitImageStoreServer(w, req, m, server);
            && WaitedOnImageStore(w, p)
            && (!ImageStoreReadyIn(w, req.namespace, ImageStoreServer) ==> EndpointStillAbsent(w, p.world, req.namespace))
  {
    AwaitImageStoreServerStep(w, req, m, server);
    ImageStoreReadySends(w, req.namespace, ImageStoreServer);
    var ready := IsImageStoreReady(w, req.namespace, ImageStoreServer);
    if ready.result == Success(true) {
      ProvideImageStoreEndpointWaits(ready.world, req, m, server);
      SentThenSent(w, ready.world, ProvideImageStoreEndpoint(ready.world, req, m, server).world, ImageStoreKinds);
    }
  }

  lemma {:induction false} StartImageStoreServerWaits(w: World, req: Key, m: Model)
    requires !ReadyWhenEnsured(w, req.namespace, ImageStoreServer) || !ReadyWhenEnsured(w, req.namespace, ImageStoreEndpoint)
    ensures var p := StartImageStoreServer(w, req, m);
            && WaitedOnImageStore(w, p)
            && (!ReadyWhenEnsured(w, req.namespace, ImageStoreServer) ==> EndpointStillAbsent(w, p.world, req.namespace))
  {
    StartImageStoreServerStep(w, req, m);
    EnsureImageStoreSends(w, req.namespace, ImageStoreServer, None);
    var server := EnsureImageStoreCreated(w, req.namespace, ImageStoreServer, None);
    if server.result.Success? {
      EnsureImageStoreReadiness(w, req.namespace, ImageStoreServer, None, ImageStoreEndpoint);
      AwaitImageStoreServerWaits(server.world, req, m, server.result.value);
      SentThenSent(w, server.world, AwaitImageStoreServer(server.world, req, m, server.result.value).world, ImageStoreKinds);
    }
  }

  /**
   * While the image-store server or its endpoint will not be ready once ensured, the
   * stages from the volume claim on send only image-store requests and touch no Model,
   * Deployment or Service: the pass waits five seconds (or fails). The endpoint is not
   * created before the server is ready.
   */
  lemma {:induction false} ProvisionWaitsForImageStore(w: World, req: Key, m: Model)
    requires !ReadyWhenEnsured(w, req.namespace, ImageStoreServer) || !ReadyWhenEnsured(w, req.namespace, ImageStoreEndpoint)
    ensures var p := ClaimImageStore(w, req, m);
            && WaitedOnImageStore(w, p)
            && (!ReadyWhenEnsured(w, req.namespace, ImageStoreServer) ==> EndpointStillAbsent(w, p.world, req.namespace))
  {
    ClaimImageStoreStep(w, req, m);
    EnsureImageStoreSends(w, req.namespace, ImageStoreClaim, None);
    var claim := EnsureImageStoreCreated(w, req.namespace, ImageStoreClaim, None);
    if claim.result.Success? {
      EnsureImageStoreReadiness(w, req.namespace, ImageStoreClaim, None, ImageStoreServer);
      EnsureImageStoreReadiness(w, req.namespace, ImageStoreClaim, None, ImageStoreEndpoint);
      StartImageStoreServerWaits(claim.world, req, m);
      SentThenSent(w, claim.world, StartImageStoreServer(claim.world, req, m).world, ImageStoreKinds);
    }
  }

  /** The requests a pass that waits on the image store may send: the Model's, and the image store's. */
  const WaitingKinds: set<Kind> := {ModelResource} + ImageStoreKinds

  /** The Progressing gate and the stages after it, while the image store will not be ready. */
  lemma {:induction false} GateWaitsForImageStore(w: World, req: Key, m: Model)
    requires Fetched(w, req, m)
    requires !ReadyWhenEnsured(w, req.namespace, ImageStoreServer) || !ReadyWhenEnsured(w, req.namespace, ImageStoreEndpoint)
    ensures var p := GateOnProgressing(w, req, m);
            && p.outcome != Done
            && p.world.deployments == w.deployments && p.world.services == w.services
            && (p.outcome != RequeueAfter(ProgressingDelay) ==> p.world.models == w.models && p.world.events == w.events)
            && SentOnly(w, p.world, WaitingKinds)
            && (!ReadyWhenEnsured(w, req.namespace, ImageStoreServer) ==> EndpointStillAbsent(w, p.world, req.namespace))
  {
    GateOnProgressingStep(w, req, m);
    var written := SetProgressing(w, m);
    if IsAvailable(m) || written.result == Success(false) {
      ProvisionWaitsForImageStore(w, req, m);
      SentWithin(w, ClaimImageStore(w, req, m).world, ImageStoreKinds, WaitingKinds);
    } else {
      GateStops(w, req, m);
      assert ModelResource in WaitingKinds;
      assert GateOnProgressing(w, req, m).world.calls[..|w.calls|] == w.calls;
    }
  }

  /**
   * A whole pass while the image-store server or its endpoint will not be ready once
   * ensured: it sends no request about a Deployment or Service and changes none, it does
   * not end Done unless the Model is absent, and it changes the Model only when it first
   * sets Progressing. The endpoint is not created before the server is ready.
   */
  lemma {:induction false} ReconcileWaitsForImageStore(w: World, req: Key)
    requires Consistent(w)
    requires !ReadyWhenEnsured(w, req.namespace, ImageStoreServer) || !ReadyWhenEnsured(w, req.namespace, ImageStoreEndpoint)
    ensures var p := Reconcile(w, req);
            && (p.outcome == Done ==> req !in w.models)
            && p.world.deployments == w.deployments && p.world.services == w.services
            && (p.outcome != RequeueAfter(ProgressingDelay) ==> p.world.models == w.models && p.world.events == w.events)
            && SentOnly(w, p.world, WaitingKinds)
            && (!ReadyWhenEnsured(w, req.namespace, ImageStoreServer) ==> EndpointStillAbsent(w, p.world, req.namespace))
  {
    var read := Request(w, Call(Get, ModelResource));
    assert ModelResource in WaitingKinds;
    assert read.calls[..|w.calls|] == w.calls;
    if req in w.models && !Fails(w, 0) {
      ReconcileFetches(w, req);
      GateWaitsForImageStore(read, req, w.models[req]);
      SentThenSent(w, read, GateOnProgressing(read, req, w.models[req]).world, WaitingKinds);
    }
  }

  // ---------------------------------------------------------------------------
  // The endpoint belongs to the server

  /** If the endpoint exists in w', so does the server, and the endpoint is owned by it. */
  predicate EndpointOwned(w': World, namespace: string)
  {
    var endpointKey := ImageStoreKey(namespace, ImageStoreEndpoint);
    var serverKey := ImageStoreKey(namespace, ImageStoreServer);
    endpointKey in w'.imageStore ==>
      serverKey in w'.imageStore && w'.imageStore[endpointKey].ownerUid == Some(w'.imageStore[serverKey].uid)
  }

  lemma {:induction false} ProvideImageStoreEndpointOwned(w: World, req: Key, m: Model, server: ImageStoreObject)
    requires ImageStoreKey(req.namespace, ImageStoreEndpoint) !in w.imageStore
    requires ImageStoreKey(req.namespace, ImageStoreServer) in w.imageStore
    requires w.imageStore[ImageStoreKey(req.namespace, ImageStoreServer)] == server
    ensures EndpointOwned(ProvideImageStoreEndpoint(w, req, m, server).world, req.namespace)
  {
    ProvideImageStoreEndpointStep(w, req, m, server);
    var endpointKey := ImageStoreKey(req.namespace, ImageStoreEndpoint);
    var serverKey := ImageStoreKey(req.namespace, ImageStoreServer);
    var endpoint := EnsureImageStoreCreated(w, req.namespace, ImageStoreEndpoint, Some(server.uid));
    if endpoint.result.Success? {
      var p := AwaitImageStoreEndpoint(endpoint.world, req, m);
      assert endpoint.world.imageStore[endpointKey].ownerUid == Some(server.uid);
      assert endpoint.world.imageStore[serverKey] == server;
      assert endpointKey in p.world.imageStore && p.world.imageStore[endpointKey] == endpoint.world.imageStore[endpointKey];
      assert serverKey in p.world.imageStore && p.world.imageStore[serverKey] == server;
    }
  }

  lemma {:induction false} AwaitImageStoreServerOwned(w: World, req: Key, m: Model, server: ImageStoreObject)
    requires ImageStoreKey(req.namespace, ImageStoreEndpoint) !in w.imageStore
    requires ImageStoreKey(req.namespace, ImageStoreServer) in w.imageStore
    requires w.imageStore[ImageStoreKey(req.namespace, ImageStoreServer)] == server
    ensures EndpointOwned(AwaitImageStoreServer(w, req, m, server).world, req.namespace)
  {
    AwaitImageStoreServerStep(w, req, m, server);
    var ready := IsImageStoreReady(w, req.namespace, ImageStoreServer);
    if ready.result == Success(true) {
      ProvideImageStoreEndpointOwned(ready.world, req, m, server);
    }
  }

  lemma {:induction false} StartImageStoreServerOwned(w: World, req: Key, m: Model)
    requires ImageStoreKey(req.namespace, ImageStoreEndpoint) !in w.imageStore
    ensures EndpointOwned(StartImageStoreServer(w, req, m).world, req.namespace)
  {
    StartImageStoreServerStep(w, req, m);
    var server := EnsureImageStoreCreated(w, req.namespace, ImageStoreServer, None);
    if server.result.Success? {
      AwaitImageStoreServerOwned(server.world, req, m, server.result.value);
    }
  }

  /** An endpoint created in a pass is owned by the image-store server. */
  lemma {:induction false} EndpointOwnedByServer(w: World, req: Key, m: Model)
    requires ImageStoreKey(req.namespace, ImageStoreEndpoint) !in w.imageStore
    ensures EndpointOwned(ClaimImageStore(w, req, m).world, req.namespace)
  {
    ClaimImageStoreStep(w, req, m);
    var claim := EnsureImageStoreCreated(w, req.namespace, ImageStoreClaim, None);
    if claim.result.Success? {
      StartImageStoreServerOwned(claim.world, req, m);
    }
  }

  // ---------------------------------------------------------------------------
  // Drift

  /** The Model's Deployment exists with a replica count other than the Model's. */
  predicate Drifted(w: World, req: Key, m: Model)
  {
    var app := AppKey(req.namespace, req.name);
    app in w.deployments && w.deployments[app].replicas != Some(DesiredReplicas(m.spec.replicas))
  }

  /** The Deployments with the Model's Deployment set to the Model's replica count. */
  function Corrected(deployments: map<Key, Deployment>, req: Key, m: Model): map<Key, Deployment>
    requires AppKey(req.namespace, req.name) in deployments
  {
    var app := AppKey(req.namespace, req.name);
    deployments[app := deployments[app].(replicas := Some(DesiredReplicas(m.spec.replicas)))]
  }

  /**
   * The pass from w stopped at the drift correction or before it, waiting or failed: no
   * Model or Service touched, the Deployments as they were or corrected.
   */
  predicate StoppedForDrift(w: World, p: Pass, req: Key, m: Model)
    requires Drifted(w, req, m)
  {
    && (p.outcome == RequeueAfter(ReadinessDelay) || p.outcome.Failed?)
    && p.world.models == w.models && p.world.services == w.services
    && (p.world.deployments == w.deployments || p.world.deployments == Corrected(w.deployments, req, m))
  }

  /** The pass from w corrected the drift and ended there, to look again in five seconds. */
  predicate CorrectedDrift(w: World, p: Pass, req: Key, m: Model)
    requires Drifted(w, req, m)
  {
    p.outcome == RequeueAfter(ReadinessDelay) && p.world.deployments == Corrected(w.deployments, req, m)
  }

  /** From w to w' the pass sent only Deployment requests, and touched no Model or Service. */
  predicate DeploymentWorkOnly(w: World, w': World, key: Key)
  {
    && w'.models == w.models && w'.services == w.services
    && SentOnly(w, w', {ModelDeployment})
    && (w'.events == w.events || w'.events == w.events + [Event(key, ModelScaled)])
  }

  /** A get of the Deployment followed by Deployment work is Deployment work. */
  lemma ReadThenDeploymentWork(w: World, w': World, key: Key)
    requires DeploymentWorkOnly(Request(w, Call(Get, ModelDeployment)), w', key)
    ensures DeploymentWorkOnly(w, w', key)
  {
    var read := Request(w, Call(Get, ModelDeployment));
    assert read.calls[..|w.calls|] == w.calls;
    SentThenSent(w, read, w', {ModelDeployment});
  }

  lemma {:induction false} CorrectDriftStops(w: World, req: Key, m: Model, deployment: Deployment)
    requires Consistent(w) && m.key == req && Drifted(w, req, m)
    ensures var p := CorrectDrift(w, req, m, deployment);
            StoppedForDrift(w, p, req, m) && DeploymentWorkOnly(w, p.world, m.key)
    ensures !Fails(w, 0) && !Fails(w, 1) ==> CorrectedDrift(w, CorrectDrift(w, req, m, deployment), req, m)
  {
    CorrectDriftStep(w, req, m, deployment);
    var updated := UpdateDeployment(w, m, m.key);
    assert updated.result != Success(false);
    var got := GetDeployment(w, m.key.namespace, m.key.name);
    if got.result.Success? {
      var d := got.result.value.value;
      var scaled := ScaleDeployment(got.world, d, DesiredReplicas(m.spec.replicas), m.key);
      assert updated == scaled;
    }
  }

  /**
   * A Deployment whose replica count drifted from the Model's is corrected, and the pass
   * ends there: every request it makes is about the Deployment, so neither SetReplicas
   * nor SetAvailable runs, and ModelAvailable is not recorded.
   */
  lemma {:induction false} RollOutCorrectsDrift(w: World, req: Key, m: Model)
    requires Fetched(w, req, m) && Drifted(w, req, m)
    ensures var p := CreateDeployment(w, req, m);
            StoppedForDrift(w, p, req, m) && DeploymentWorkOnly(w, p.world, m.key)
    ensures !Fails(w, 0) && !Fails(w, 1) && !Fails(w, 2) ==> CorrectedDrift(w, CreateDeployment(w, req, m), req, m)
  {
    CreateDeploymentStep(w, req, m);
    var deployment := EnsureDeploymentCreated(w, req.namespace, req.name, m.spec.image, m.spec.replicas, m, m.key);
    if deployment.result.Success? {
      assert deployment.world == Request(w, Call(Get, ModelDeployment));
      CorrectDriftStops(deployment.world, req, m, deployment.result.value);
      ReadThenDeploymentWork(w, CreateDeployment(w, req, m).world, m.key);
    } else {
      assert deployment.world.calls[..|w.calls|] == w.calls;
    }
  }

  lemma {:induction false} AwaitImageStoreEndpointDrift(w: World, req: Key, m: Model)
    requires Fetched(w, req, m) && Drifted(w, req, m)
    ensures StoppedForDrift(w, AwaitImageStoreEndpoint(w, req, m), req, m)
    ensures Reliable(w) && ImageStoreReadyIn(w, req.namespace, ImageStoreEndpoint) ==>
              CorrectedDrift(w, AwaitImageStoreEndpoint(w, req, m), req, m)
  {
    AwaitImageStoreEndpointStep(w, req, m);
    var ready := IsImageStoreReady(w, req.namespace, ImageStoreEndpoint);
    if ready.result == Success(true) {
      RollOutCorrectsDrift(ready.world, req, m);
    }
  }

  lemma {:induction false} ProvideImageStoreEndpointDrift(w: World, req: Key, m: Model, server: ImageStoreObject)
    requires Fetched(w, req, m) && Drifted(w, req, m)
    ensures StoppedForDrift(w, ProvideImageStoreEndpoint(w, req, m, server), req, m)
    ensures Reliable(w) && ReadyWhenEnsured(w, req.namespace, ImageStoreEndpoint) ==>
              CorrectedDrift(w, ProvideImageStoreEndpoint(w, req, m, server), req, m)
  {
    ProvideImageStoreEndpointStep(w, req, m, server);
    var endpoint := EnsureImageStoreCreated(w, req.namespace, ImageStoreEndpoint, Some(server.uid));
    if endpoint.result.Success? {
      AwaitImageStoreEndpointDrift(endpoint.world, req, m);
      if Reliable(w) {
        ReliableLater(w, endpoint.world);
      }
    }
  }

  lemma {:induction false} AwaitImageStoreServerDrift(w: World, req: Key, m: Model, server: ImageStoreObject)
    requires Fetched(w, req, m) && Drifted(w, req, m)
    ensures StoppedForDrift(w, AwaitImageStoreServer(w, req, m, server), req, m)
    ensures Reliable(w) && ImageStoreReadyIn(w, req.namespace, ImageStoreServer) && ReadyWhenEnsured(w, req.namespace, ImageStoreEndpoint) ==>
              CorrectedDrift(w, AwaitImageStoreServer(w, req, m, server), req, m)
  {
    AwaitImageStoreServerStep(w, req, m, server);
    var ready := IsImageStoreReady(w, req.namespace, ImageStoreServer);
    if ready.result == Success(true) {
      ProvideImageStoreEndpointDrift(ready.world, req, m, server);
      if Reliable(w) {
        ReliableLater(w, ready.world);
      }
    }
  }

  lemma {:induction false} StartImageStoreServerDrift(w: World, req: Key, m: Model)
    requires Fetched(w, req, m) && Drifted(w, req, m)
    ensures StoppedForDrift(w, StartImageStoreServer(w, req, m), req, m)
    ensures Reliable(w) && ReadyWhenEnsured(w, req.namespace, ImageStoreServer) && ReadyWhenEnsured(w, req.namespace, ImageStoreEndpoint) ==>
              CorrectedDrift(w, StartImageStoreServer(w, req, m), req, m)
  {
    StartImageStoreServerStep(w, req, m);
    var server := EnsureImageStoreCreated(w, req.namespace, ImageStoreServer, None);
    if server.result.Success? {
      EnsureImageStoreReadiness(w, req.namespace, ImageStoreServer, None, ImageStoreEndpoint);
      AwaitImageStoreServerDrift(server.world, req, m, server.result.value);
      if Reliable(w) {
        ReliableLater(w, server.world);
      }
    }
  }

  lemma {:induction false} ClaimImageStoreDrift(w: World, req: Key, m: Model)
    requires Fetched(w, req, m) && Drifted(w, req, m)
    ensures StoppedForDrift(w, ClaimImageStore(w, req, m), req, m)
    ensures Reliable(w) && ReadyWhenEnsured(w, req.namespace, ImageStoreServer) && ReadyWhenEnsured(w, req.namespace, ImageStoreEndpoint) ==>
              CorrectedDrift(w, ClaimImageStore(w, req, m), req, m)
  {
    ClaimImageStoreStep(w, req, m);
    var claim := EnsureImageStoreCreated(w, req.namespace, ImageStoreClaim, None);
    if claim.result.Success? {
      EnsureImageStoreReadiness(w, req.namespace, ImageStoreClaim, None, ImageStoreServer);
      EnsureImageStoreReadiness(w, req.namespace, ImageStoreClaim, None, ImageStoreEndpoint);
      StartImageStoreServerDrift(claim.world, req, m);
      if Reliable(w) {
        ReliableLater(w, claim.world);
      }
    }
  }

  /** The Progressing gate and the stages after it, on a drifted Deployment. */
  lemma {:induction false} GateCorrectsDrift(w: World, req: Key, m: Model)
    requires Fetched(w, req, m) && Drifted(w, req, m)
    ensures var p := GateOnProgressing(w, req, m);
            && p.outcome != Done && p.world.services == w.services
            && (p.world.deployments == w.deployments || p.world.deployments == Corrected(w.deployments, req, m))
            && (p.outcome != RequeueAfter(ProgressingDelay) ==> p.world.models == w.models)
    ensures Reliable(w) && (IsAvailable(m) || IsProgressing(m))
            && ReadyWhenEnsured(w, req.namespace, ImageStoreServer) && ReadyWhenEnsured(w, req.namespace, ImageStoreEndpoint) ==>
              && CorrectedDrift(w, GateOnProgressing(w, req, m), req, m)
              && GateOnProgressing(w, req, m).world.models == w.models
  {
    GateOnProgressingStep(w, req, m);
    var written := SetProgressing(w, m);
    if IsAvailable(m) || written.result == Success(false) {
      ClaimImageStoreDrift(w, req, m);
    } else {
      GateStops(w, req, m);
    }
  }

  /**
   * A whole pass over a Model whose Deployment drifted: it never ends Done, touches no
   * Service, and leaves the Deployments as they were or corrected; the Model changes only
   * when the pass first sets Progressing.
   */
  lemma {:induction false} ReconcileCorrectsDrift(w: World, req: Key)
    requires Consistent(w) && req in w.models && Drifted(w, req, w.models[req])
    ensures var p := Reconcile(w, req);
            && p.outcome != Done && p.world.services == w.services
            && (p.world.deployments == w.deployments || p.world.deployments == Corrected(w.deployments, req, w.models[req]))
            && (p.outcome != RequeueAfter(ProgressingDelay) ==> p.world.models == w.models)
  {
    if !Fails(w, 0) {
      ReconcileFetches(w, req);
      GateCorrectsDrift(Request(w, Call(Get, ModelResource)), req, w.models[req]);
    }
  }

  /**
   * When the store answers every request, the Model is past the Progressing gate and the
   * image store will be ready once ensured, a pass over a drifted Deployment corrects its
   * replica count, changes no Model, and ends there, waiting five seconds.
   */
  lemma {:induction false} ReliablePassCorrectsDrift(w: World, req: Key)
    requires Consistent(w) && req in w.models && Drifted(w, req, w.models[req]) && Reliable(w)
    requires IsAvailable(w.models[req]) || IsProgressing(w.models[req])
    requires ReadyWhenEnsured(w, req.namespace, ImageStoreServer) && ReadyWhenEnsured(w, req.namespace, ImageStoreEndpoint)
    ensures CorrectedDrift(w, Reconcile(w, req), req, w.models[req])
    ensures Reconcile(w, req).world.models == w.models
  {
    var read := Request(w, Call(Get, ModelResource));
    ReconcileFetches(w, req);
    ReliableLater(w, read);
    GateCorrectsDrift(read, req, w.models[req]);
  }

  // ---------------------------------------------------------------------------
  // On a converged cluster a pass only reads

  /** From w to w' only get requests were made; nothing else changed. */
  predicate ReadsOnly(w: World, w': World)
  {
    && |w.calls| <= |w'.calls|
    && w'.calls[..|w.calls|] == w.calls
    && (forall i | |w.calls| <= i < |w'.calls| :: w'.calls[i].verb == Get)
    && w' == w.(calls := w'.calls)
  }

  /** The pass p from w ended Done having only read the store and recorded ModelAvailable on `key`. */
  predicate QuietDone(w: World, p: Pass, key: Key)
  {
    && p.outcome == Done
    && ReadsOnly(w, p.world.(events := w.events))
    && p.world.events == w.events + [Event(key, ModelAvailable)]
  }

  lemma ReliableLater(w: World, w': World)
    requires Reliable(w) && |w.calls| <= |w'.calls| && w'.faults == w.faults
    ensures Reliable(w')
  {
  }

  lemma ReadThenQuiet(w: World, k: Kind, p: Pass, key: Key)
    requires QuietDone(Request(w, Call(Get, k)), p, key)
    ensures QuietDone(w, p, key)
  {
    var w' := Request(w, Call(Get, k));
    var calls := p.world.calls;
    assert calls[..|w.calls|] == calls[..|w'.calls|][..|w.calls|];
    assert calls[|w.calls|] == w'.calls[|w.calls|];
  }

  lemma {:induction false} AwaitServiceQuiet(w: World, req: Key, m: Model, deployment: Deployment)
    requires Fetched(w, req, m) && Reliable(w) && IsAvailable(m)
    requires Serving(w, req) && m.status.counters == deployment.status
    ensures QuietDone(w, AwaitService(w, req, m, deployment), req)
  {
    var ready := IsServiceReady(w, req.namespace, req.name, m.key);
    assert ready.world == Request(w, Call(Get, ModelService));
    ReadThenQuiet(w, ModelService, AwaitService(w, req, m, deployment), req);
  }

  lemma {:induction false} CreateServiceQuiet(w: World, req: Key, m: Model, deployment: Deployment)
    requires Fetched(w, req, m) && Reliable(w) && IsAvailable(m)
    requires Serving(w, req) && m.status.counters == deployment.status
    ensures QuietDone(w, CreateService(w, req, m, deployment), req)
  {
    CreateServiceStep(w, req, m, deployment);
    var service := EnsureServiceCreated(w, req.namespace, req.name, deployment, m.key);
    assert service.world == Request(w, Call(Get, ModelService));
    ReliableLater(w, service.world);
    AwaitServiceQuiet(service.world, req, m, deployment);
    ReadThenQuiet(w, ModelService, CreateService(w, req, m, deployment), req);
  }

  lemma {:induction false} AwaitDeploymentQuiet(w: World, req: Key, m: Model, deployment: Deployment)
    requires Fetched(w, req, m) && Reliable(w) && IsAvailable(m)
    requires ServedAndRecorded(w, req, m.spec) && w.deployments[AppKey(req.namespace, req.name)] == deployment
    ensures QuietDone(w, AwaitDeployment(w, req, m, deployment), req)
  {
    AwaitDeploymentStep(w, req, m, deployment);
    var ready := IsDeploymentReady(w, req.namespace, req.name, m.key);
    assert ready.world == Request(w, Call(Get, ModelDeployment));
    ReliableLater(w, ready.world);
    CreateServiceQuiet(ready.world, req, m, deployment);
    ReadThenQuiet(w, ModelDeployment, AwaitDeployment(w, req, m, deployment), req);
  }

  lemma {:induction false} CorrectDriftQuiet(w: World, req: Key, m: Model, deployment: Deployment)
    requires Fetched(w, req, m) && Reliable(w) && IsAvailable(m)
    requires ServedAndRecorded(w, req, m.spec) && w.deployments[AppKey(req.namespace, req.name)] == deployment
    ensures QuietDone(w, CorrectDrift(w, req, m, deployment), req)
  {
    CorrectDriftStep(w, req, m, deployment);
    assert m.key == req;
    var updated := UpdateDeployment(w, m, m.key);
    assert updated.world == Request(w, Call(Get, ModelDeployment));
    ReliableLater(w, updated.world);
    AwaitDeploymentQuiet(updated.world, req, m, deployment);
    ReadThenQuiet(w, ModelDeployment, CorrectDrift(w, req, m, deployment), req);
  }

  lemma {:induction false} CreateDeploymentQuiet(w: World, req: Key, m: Model)
    requires Fetched(w, req, m) && Reliable(w) && IsAvailable(m)
    requires ServedAndRecorded(w, req, m.spec)
    ensures QuietDone(w, CreateDeployment(w, req, m), req)
  {
    CreateDeploymentStep(w, req, m);
    var deployment := EnsureDeploymentCreated(w, req.namespace, req.name, m.spec.image, m.spec.replicas, m, m.key);
    assert deployment.world == Request(w, Call(Get, ModelDeployment));
    ReliableLater(w, deployment.world);
    CorrectDriftQuiet(deployment.world, req, m, deployment.result.value);
    ReadThenQuiet(w, ModelDeployment, CreateDeployment(w, req, m), req);
  }

  lemma {:induction false} AwaitImageStoreEndpointQuiet(w: World, req: Key, m: Model)
    requires Fetched(w, req, m) && Reliable(w) && IsAvailable(m)
    requires ImageStoreReadyIn(w, req.namespace, ImageStoreEndpoint) && ServedAndRecorded(w, req, m.spec)
    ensures QuietDone(w, AwaitImageStoreEndpoint(w, req, m), req)
  {
    AwaitImageStoreEndpointStep(w, req, m);
    var ready := IsImageStoreReady(w, req.namespace, ImageStoreEndpoint);
    ReliableLater(w, ready.world);
    CreateDeploymentQuiet(ready.world, req, m);
    ReadThenQuiet(w, ImageStore(ImageStoreEndpoint), AwaitImageStoreEndpoint(w, req, m), req);
  }

  lemma {:induction false} ProvideImageStoreEndpointQuiet(w: World, req: Key, m: Model, server: ImageStoreObject)
    requires Fetched(w, req, m) && Reliable(w) && IsAvailable(m)
    requires ImageStoreReadyIn(w, req.namespace, ImageStoreEndpoint) && ServedAndRecorded(w, req, m.spec)
    ensures QuietDone(w, ProvideImageStoreEndpoint(w, req, m, server), req)
  {
    ProvideImageStoreEndpointStep(w, req, m, server);
    var endpoint := EnsureImageStoreCreated(w, req.namespace, ImageStoreEndpoint, Some(server.uid));
    assert endpoint.world == Request(w, Call(Get, ImageStore(ImageStoreEndpoint)));
    ReliableLater(w, endpoint.world);
    AwaitImageStoreEndpointQuiet(endpoint.world, req, m);
    ReadThenQuiet(w, ImageStore(ImageStoreEndpoint), ProvideImageStoreEndpoint(w, req, m, server), req);
  }

  lemma {:induction false} AwaitImageStoreServerQuiet(w: World, req: Key, m: Model, server: ImageStoreObject)
    requires Fetched(w, req, m) && Reliable(w) && IsAvailable(m)
    requires ImageStoreReadyIn(w, req.namespace, ImageStoreServer) && ImageStoreReadyIn(w, req.namespace, ImageStoreEndpoint)
    requires ServedAndRecorded(w, req, m.spec)
    ensures QuietDone(w, AwaitImageStoreServer(w, req, m, server), req)
  {
    AwaitImageStoreServerStep(w, req, m, server);
    var ready := IsImageStoreReady(w, req.namespace, ImageStoreServer);
    ReliableLater(w, ready.world);
    ProvideImageStoreEndpointQuiet(ready.world, req, m, server);
    ReadThenQuiet(w, ImageStore(ImageStoreServer), AwaitImageStoreServer(w, req, m, server), req);
  }

  lemma {:induction false} StartImageStoreServerQuiet(w: World, req: Key, m: Model)
    requires Fetched(w, req, m) && Reliable(w) && IsAvailable(m)
    requires ImageStoreReadyIn(w, req.namespace, ImageStoreServer) && ImageStoreReadyIn(w, req.namespace, ImageStoreEndpoint)
    requires ServedAndRecorded(w, req, m.spec)
    ensures QuietDone(w, StartImageStoreServer(w, req, m), req)
  {
    StartImageStoreServerStep(w, req, m);
    var server := EnsureImageStoreCreated(w, req.namespace, ImageStoreServer, None);
    assert server.world == Request(w, Call(Get, ImageStore(ImageStoreServer)));
    ReliableLater(w, server.world);
    AwaitImageStoreServerQuiet(server.world, req, m, server.result.value);
    ReadThenQuiet(w, ImageStore(ImageStoreServer), StartImageStoreServer(w, req, m), req);
  }

  lemma {:induction false} ClaimImageStoreQuiet(w: World, req: Key, m: Model)
    requires Fetched(w, req, m) && Reliable(w) && IsAvailable(m)
    requires ImageStoreUp(w, req.namespace) && ServedAndRecorded(w, req, m.spec)
    ensures QuietDone(w, ClaimImageStore(w, req, m), req)
  {
    ClaimImageStoreStep(w, req, m);
    var claim := EnsureImageStoreCreated(w, req.namespace, ImageStoreClaim, None);
    assert claim.world == Request(w, Call(Get, ImageStore(ImageStoreClaim)));
    ReliableLater(w, claim.world);
    StartImageStoreServerQuiet(claim.world, req, m);
    ReadThenQuiet(w, ImageStore(ImageStoreClaim), ClaimImageStore(w, req, m), req);
  }

  /**
   * The converse of ReconcileDone at the fixed point: a pass on a converged Model, with a
   * store that answers every request, ends Done having sent only get requests -- no create,
   * no update, no status write -- and changed nothing but the event log, which gains
   * ModelAvailable.
   */
  lemma {:induction false} ConvergedPassIsQuiet(w: World, req: Key)
    requires Consistent(w) && Reliable(w) && Converged(w, req)
    ensures QuietDone(w, Reconcile(w, req), req)
  {
    ReconcileStep(w, req);
    var got := GetModel(w, req);
    ReliableLater(w, got.world);
    GateOnProgressingStep(got.world, req, w.models[req]);
    ClaimImageStoreQuiet(got.world, req, w.models[req]);
    ReadThenQuiet(w, ModelResource, Reconcile(w, req), req);
  }
}
