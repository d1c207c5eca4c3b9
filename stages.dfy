/**
 * The stage helpers of pkg/model/model.go as functions on the store.
 *
 * Each function takes the World before the helper runs and gives the World after it
 * together with the helper's answer. Module Model holds the imperative versions, which
 * run against a Client.Store and are proved equal to these.
 */
module Stages {
  import opened Wrappers
  import opened Resources

  /** Every sub-resource of a Model is named with this prefix and the Model's name. */
  const AppNamePrefix: string := "ollama-model-"

  /** The port the model server listens on, and the Service exposes. */
  const OllamaPort: nat := 11434

  function ModelAppName(name: string): (r: string)
    ensures |r| == |AppNamePrefix| + |name|
    ensures r[..|AppNamePrefix|] == AppNamePrefix
    ensures r[|AppNamePrefix|..] == name
  {
    AppNamePrefix + name
  }

  /** Distinct Models get distinct sub-resource names. */
  lemma ModelAppNameInjective(a: string, b: string)
    ensures ModelAppName(a) == ModelAppName(b) <==> a == b
  {
  }

  /** The key of the Deployment and of the Service of the Model `name`. */
  function AppKey(namespace: string, name: string): Key
  {
    Key(namespace, ModelAppName(name))
  }

  function AppLabels(name: string): map<string, string>
  {
    map["app" := ModelAppName(name)]
  }

  /** A nil replica count means one replica. */
  function DesiredReplicas(replicas: Option<nat>): nat
  {
    replicas.GetOr(1)
  }

  /** The Models and the store's faults are as they were. */
  predicate SameModels(w: World, w': World)
  {
    w'.models == w.models && w'.faults == w.faults
  }

  /** getDeployment: a get that answers None for an absent Deployment. */
  function GetDeployment(w: World, namespace: string, name: string): (r: Step<Option<Deployment>>)
    ensures r.world == Request(w, Call(Get, ModelDeployment))
    ensures r.result.Failure? <==> Fails(w, 0)
    ensures r.result.Failure? ==> r.result.error == NextFault(w)
    ensures r.result == Success(None) <==> !Fails(w, 0) && AppKey(namespace, name) !in w.deployments
    ensures r.result.Success? && r.result.value.Some? ==>
              AppKey(namespace, name) in w.deployments && r.result.value.value == w.deployments[AppKey(namespace, name)]
  {
    var got := GetDeploymentObject(w, AppKey(namespace, name));
    match got.result
    case Success(d) => Step(got.world, Success(Some(d)))
    case Failure(NotFound) => Step(got.world, Success(None))
    case Failure(e) => Step(got.world, Failure(e))
  }

  /** The Deployment EnsureDeploymentCreated builds; the store assigns its uid. */
  function NewDeployment(namespace: string, name: string, image: string, replicas: Option<nat>, model: Model): Deployment
  {
    Deployment(
      key := AppKey(namespace, name),
      uid := 0,
      owners := [OwnerRef(ModelResource, model.key.name, model.uid, true)],
      replicas := Some(DesiredReplicas(replicas)),
      selector := AppLabels(name),
      podLabels := AppLabels(name),
      image := image,
      status := NoReplicas)
  }

  function EnsureDeploymentCreated(
    w: World, namespace: string, name: string, image: string, replicas: Option<nat>, model: Model, recorder: Key
  ): (r: Step<Deployment>)
    // an existing Deployment is answered as it is: no create call, no event
    ensures AppKey(namespace, name) in w.deployments && !Fails(w, 0) ==>
              r == Step(Request(w, Call(Get, ModelDeployment)), Success(w.deployments[AppKey(namespace, name)]))
    // an absent one is created, named after the Model, owned by it, with the spec's replicas
    ensures AppKey(namespace, name) !in w.deployments && !Fails(w, 0)
              && !Fails(w, 1) ==>
              && r.result.Success?
              && r.result.value.key == AppKey(namespace, name)
              && r.result.value.owners == [OwnerRef(ModelResource, model.key.name, model.uid, true)]
              && r.result.value.replicas == Some(if replicas.Some? then replicas.value else 1)
              && r.result.value.selector == map["app" := ModelAppName(name)]
              && r.result.value.podLabels == map["app" := ModelAppName(name)]
              && r.result.value.image == image
              && r.world.deployments == w.deployments[AppKey(namespace, name) := r.result.value]
              && r.world.calls == w.calls + [Call(Get, ModelDeployment), Call(Create, ModelDeployment)]
              && r.world.events == w.events + [Event(recorder, DeploymentCreated)]
    // what it answers is what the store holds
    ensures r.result.Success? ==>
              AppKey(namespace, name) in r.world.deployments && r.world.deployments[AppKey(namespace, name)] == r.result.value
    // a failed call creates and records nothing
    ensures r.result.Failure? ==> r.world.deployments == w.deployments && r.world.events == w.events
    ensures SameModels(w, r.world) && r.world.services == w.services && r.world.imageStore == w.imageStore
    ensures r.result.Failure? ==> FailedRun(w, r.world, r.result.error)
    ensures r.result.Success? ==> CleanRun(w, r.world)
    ensures Consistent(w) ==> Consistent(r.world)
  {
    var got := GetDeployment(w, namespace, name);
    if got.result.Failure? then Step(got.world, Failure(got.result.error))
    else if got.result.value.Some? then Step(got.world, Success(got.result.value.value))
    else
      var created := CreateDeploymentObject(got.world, NewDeployment(namespace, name, image, replicas, model));
      if created.result.Failure? then created
      else Step(Emit(created.world, recorder, DeploymentCreated), created.result)
  }

  /** The readiness rule for a Deployment: as many ready replicas as it declares (nil: 1). */
  predicate DeploymentReady(d: Deployment)
  {
    d.status.readyReplicas == DesiredReplicas(d.replicas)
  }

  function IsDeploymentReady(w: World, namespace: string, name: string, recorder: Key): (r: Step<bool>)
    ensures r.result == Success(true) <==>
              && !Fails(w, 0)
              && AppKey(namespace, name) in w.deployments
              && w.deployments[AppKey(namespace, name)].status.readyReplicas
                 == (if w.deployments[AppKey(namespace, name)].replicas.Some? then w.deployments[AppKey(namespace, name)].replicas.value else 1)
    ensures r.result.Failure? <==> Fails(w, 0)
    // an absent Deployment is not ready, and that is not an error
    ensures !Fails(w, 0) && AppKey(namespace, name) !in w.deployments ==>
              r == Step(Request(w, Call(Get, ModelDeployment)), Success(false))
    // the only effects: one get, and an event while an existing Deployment is not ready
    ensures r.world.calls == w.calls + [Call(Get, ModelDeployment)]
    ensures r.world.events == w.events || (r.result == Success(false) && r.world.events == w.events + [Event(recorder, WaitingForDeployment)])
    ensures !Fails(w, 0) && AppKey(namespace, name) in w.deployments && !DeploymentReady(w.deployments[AppKey(namespace, name)]) ==>
              r.world.events == w.events + [Event(recorder, WaitingForDeployment)]
    ensures SameModels(w, r.world) && r.world.deployments == w.deployments && r.world.services == w.services
    ensures r.world.imageStore == w.imageStore && r.world.nextUid == w.nextUid
    ensures r.result.Failure? ==> FailedRun(w, r.world, r.result.error)
    ensures r.result.Success? ==> CleanRun(w, r.world)
  {
    var got := GetDeployment(w, namespace, name);
    if got.result.Failure? then Step(got.world, Failure(got.result.error))
    else if got.result.value.None? then Step(got.world, Success(false))
    else if DeploymentReady(got.result.value.value) then Step(got.world, Success(true))
    else Step(Emit(got.world, recorder, WaitingForDeployment), Success(false))
  }

  /** UpdateDeployment: correct the Deployment's replica count to the Model's. */
  function UpdateDeployment(w: World, model: Model, recorder: Key): (r: Step<bool>)
    // absent, or already at the desired count: answered false with no write
    ensures !Fails(w, 0) && AppKey(model.key.namespace, model.key.name) !in w.deployments ==>
              r == Step(Request(w, Call(Get, ModelDeployment)), Success(false))
    ensures !Fails(w, 0) && AppKey(model.key.namespace, model.key.name) in w.deployments
              && w.deployments[AppKey(model.key.namespace, model.key.name)].replicas == Some(DesiredReplicas(model.spec.replicas)) ==>
              r == Step(Request(w, Call(Get, ModelDeployment)), Success(false))
    // true means the count was unset or different, and has been written
    ensures r.result == Success(true) ==>
              && AppKey(model.key.namespace, model.key.name) in w.deployments
              && w.deployments[AppKey(model.key.namespace, model.key.name)].replicas != Some(DesiredReplicas(model.spec.replicas))
              && r.world.calls == w.calls + [Call(Get, ModelDeployment), Call(Update, ModelDeployment)]
              && r.world.events == w.events + [Event(recorder, ModelScaled)]
    // it is true exactly when the count drifted and both calls succeed; only Spec.Replicas changes
    ensures Consistent(w) && !Fails(w, 0) && !Fails(w, 1)
              && AppKey(model.key.namespace, model.key.name) in w.deployments
              && w.deployments[AppKey(model.key.namespace, model.key.name)].replicas != Some(DesiredReplicas(model.spec.replicas)) ==>
              && r.result == Success(true)
              && var key := AppKey(model.key.namespace, model.key.name);
                 r.world.deployments == w.deployments[key := w.deployments[key].(replicas := Some(DesiredReplicas(model.spec.replicas)))]
    ensures Consistent(w) && r.result == Success(true) ==>
              && AppKey(model.key.namespace, model.key.name) in w.deployments
              && var key := AppKey(model.key.namespace, model.key.name);
                 r.world.deployments == w.deployments[key := w.deployments[key].(replicas := Some(DesiredReplicas(model.spec.replicas)))]
    ensures r.result == Success(false) ==>
              || AppKey(model.key.namespace, model.key.name) !in w.deployments
              || w.deployments[AppKey(model.key.namespace, model.key.name)].replicas == Some(DesiredReplicas(model.spec.replicas))
    ensures r.result.Success? && !r.result.value ==> r.world.deployments == w.deployments && r.world.events == w.events
    ensures r.result.Failure? ==> r.world.deployments == w.deployments && r.world.events == w.events
    ensures SameModels(w, r.world) && r.world.services == w.services && r.world.imageStore == w.imageStore
    ensures r.world.nextUid == w.nextUid
    ensures Consistent(w) && r.result.Failure? ==> FailedRun(w, r.world, r.result.error)
    ensures r.result.Success? ==> CleanRun(w, r.world)
    ensures Consistent(w) ==> Consistent(r.world)
  {
    var got := GetDeployment(w, model.key.namespace, model.key.name);
    if got.result.Failure? then Step(got.world, Failure(got.result.error))
    else if got.result.value.None? then Step(got.world, Success(false))
    else
      var d := got.result.value.value;
      var desired := DesiredReplicas(model.spec.replicas);
      match d.replicas
      case Some(current) =>
        if current == desired then Step(got.world, Success(false))
        else ScaleDeployment(got.world, d, desired, recorder)
      case None =>
        ScaleDeployment(got.world, d, desired, recorder)
  }

  /** The write half of UpdateDeployment: set Spec.Replicas, update, record ModelScaled. */
  function ScaleDeployment(w: World, d: Deployment, desired: nat, recorder: Key): Step<bool>
  {
    var updated := UpdateDeploymentObject(w, d.(replicas := Some(desired)));
    if updated.result.Failure? then Step(updated.world, Failure(updated.result.error))
    else Step(Emit(updated.world, recorder, ModelScaled), Success(true))
  }

  /** getService: a get that answers None for an absent Service. */
  function GetService(w: World, namespace: string, name: string): (r: Step<Option<Service>>)
    ensures r.world == Request(w, Call(Get, ModelService))
    ensures r.result.Failure? <==> Fails(w, 0)
    ensures r.result.Failure? ==> r.result.error == NextFault(w)
    ensures r.result == Success(None) <==> !Fails(w, 0) && AppKey(namespace, name) !in w.services
    ensures r.result.Success? && r.result.value.Some? ==>
              AppKey(namespace, name) in w.services && r.result.value.value == w.services[AppKey(namespace, name)]
  {
    var got := GetServiceObject(w, AppKey(namespace, name));
    match got.result
    case Success(s) => Step(got.world, Success(Some(s)))
    case Failure(NotFound) => Step(got.world, Success(None))
    case Failure(e) => Step(got.world, Failure(e))
  }

  /** The Service EnsureServiceCreated builds: owned by the Deployment, not by the Model. */
  function NewService(namespace: string, name: string, deployment: Deployment): Service
  {
    Service(
      key := AppKey(namespace, name),
      uid := 0,
      owners := [OwnerRef(ModelDeployment, deployment.key.name, deployment.uid, true)],
      serviceType := ClusterIP,
      selector := AppLabels(name),
      ports := [ServicePort("ollama", OllamaPort, OllamaPort)],
      clusterIP := "")
  }

  function EnsureServiceCreated(w: World, namespace: string, name: string, deployment: Deployment, recorder: Key): (r: Step<Service>)
    ensures AppKey(namespace, name) in w.services && !Fails(w, 0) ==>
              r == Step(Request(w, Call(Get, ModelService)), Success(w.services[AppKey(namespace, name)]))
    ensures AppKey(namespace, name) !in w.services && !Fails(w, 0)
              && !Fails(w, 1) ==>
              && r.result.Success?
              && r.result.value.key == AppKey(namespace, name)
              && r.result.value.owners == [OwnerRef(ModelDeployment, deployment.key.name, deployment.uid, true)]
              && r.result.value.serviceType == ClusterIP
              && r.result.value.selector == map["app" := ModelAppName(name)]
              && r.result.value.ports == [ServicePort("ollama", 11434, 11434)]
              && r.result.value.clusterIP == AddressOnCreate(w, AppKey(namespace, name))
              && r.world.services == w.services[AppKey(namespace, name) := r.result.value]
              && r.world.calls == w.calls + [Call(Get, ModelService), Call(Create, ModelService)]
              && r.world.events == w.events + [Event(recorder, ServiceCreated)]
    ensures r.result.Success? ==>
              AppKey(namespace, name) in r.world.services && r.world.services[AppKey(namespace, name)] == r.result.value
    ensures r.result.Failure? ==> r.world.services == w.services && r.world.events == w.events
    ensures SameModels(w, r.world) && r.world.deployments == w.deployments && r.world.imageStore == w.imageStore
    ensures r.result.Failure? ==> FailedRun(w, r.world, r.result.error)
    ensures r.result.Success? ==> CleanRun(w, r.world)
    ensures Consistent(w) ==> Consistent(r.world)
  {
    var got := GetService(w, namespace, name);
    if got.result.Failure? then Step(got.world, Failure(got.result.error))
    else if got.result.value.Some? then Step(got.world, Success(got.result.value.value))
    else
      var created := CreateServiceObject(got.world, NewService(namespace, name, deployment));
      if created.result.Failure? then created
      else Step(Emit(created.world, recorder, ServiceCreated), created.result)
  }

  function IsServiceReady(w: World, namespace: string, name: string, recorder: Key): (r: Step<bool>)
    ensures r.result == Success(true) <==>
              !Fails(w, 0) && AppKey(namespace, name) in w.services && w.services[AppKey(namespace, name)].clusterIP != ""
    ensures r.result.Failure? <==> Fails(w, 0)
    ensures !Fails(w, 0) && AppKey(namespace, name) !in w.services ==>
              r == Step(Request(w, Call(Get, ModelService)), Success(false))
    ensures r.world.calls == w.calls + [Call(Get, ModelService)]
    ensures r.world.events == w.events || (r.result == Success(false) && r.world.events == w.events + [Event(recorder, WaitingForService)])
    ensures !Fails(w, 0) && AppKey(namespace, name) in w.services && w.services[AppKey(namespace, name)].clusterIP == "" ==>
              r.world.events == w.events + [Event(recorder, WaitingForService)]
    ensures SameModels(w, r.world) && r.world.deployments == w.deployments && r.world.services == w.services
    ensures r.world.imageStore == w.imageStore && r.world.nextUid == w.nextUid
    ensures r.result.Failure? ==> FailedRun(w, r.world, r.result.error)
    ensures r.result.Success? ==> CleanRun(w, r.world)
  {
    var got := GetService(w, namespace, name);
    if got.result.Failure? then Step(got.world, Failure(got.result.error))
    else if got.result.value.None? then Step(got.world, Success(false))
    else if got.result.value.value.clusterIP == "" then Step(Emit(got.world, recorder, WaitingForService), Success(false))
    else Step(got.world, Success(true))
  }

  /**
   * The readiness an image-store part reports once it has been ensured: what the store
   * holds, or for a part still to be created, what the platform gives a new one.
   */
  predicate ReadyWhenEnsured(w: World, namespace: string, part: ImageStorePart)
  {
    var key := ImageStoreKey(namespace, part);
    if key in w.imageStore then w.imageStore[key].ready else key in w.readyOnCreate
  }

  /**
   * The ensure stage of an image-store part (claim, server, endpoint): create-if-absent,
   * owned by `ownerUid`, with the readiness the platform reports.
   */
  function EnsureImageStoreCreated(w: World, namespace: string, part: ImageStorePart, ownerUid: Option<nat>): (r: Step<ImageStoreObject>)
    ensures ImageStoreKey(namespace, part) in w.imageStore && !Fails(w, 0) ==>
              r == Step(Request(w, Call(Get, ImageStore(part))), Success(w.imageStore[ImageStoreKey(namespace, part)]))
    ensures ImageStoreKey(namespace, part) !in w.imageStore && !Fails(w, 0)
              && !Fails(w, 1) ==>
              && r.result == Success(ImageStoreObject(w.nextUid, ownerUid, ImageStoreKey(namespace, part) in w.readyOnCreate))
              && r.world.imageStore == w.imageStore[ImageStoreKey(namespace, part) := r.result.value]
              && r.world.calls == w.calls + [Call(Get, ImageStore(part)), Call(Create, ImageStore(part))]
    ensures r.result.Success? ==>
              ImageStoreKey(namespace, part) in r.world.imageStore && r.world.imageStore[ImageStoreKey(namespace, part)] == r.result.value
    // a part the store already holds keeps its readiness; a new one has what the platform gives it
    ensures r.result.Success? ==> (r.result.value.ready <==> ReadyWhenEnsured(w, namespace, part))
    // one get, and a create when the part was absent
    ensures || r.world.calls == w.calls + [Call(Get, ImageStore(part))]
            || r.world.calls == w.calls + [Call(Get, ImageStore(part)), Call(Create, ImageStore(part))]
    ensures r.result.Success? && ImageStoreKey(namespace, part) !in w.imageStore ==> r.result.value.ownerUid == ownerUid
    ensures r.result.Failure? ==> r.world.imageStore == w.imageStore
    // at most this part is added; every other object is left as it was
    ensures forall k | k in r.world.imageStore :: k in w.imageStore || k == ImageStoreKey(namespace, part)
    ensures forall k | k in w.imageStore :: k in r.world.imageStore && r.world.imageStore[k] == w.imageStore[k]
    ensures SameModels(w, r.world) && r.world.deployments == w.deployments && r.world.services == w.services
    ensures r.world.events == w.events
    ensures r.result.Failure? ==> FailedRun(w, r.world, r.result.error)
    ensures r.result.Success? ==> CleanRun(w, r.world)
  {
    var key := ImageStoreKey(namespace, part);
    var got := GetImageStoreObject(w, key);
    match got.result
    case Success(o) => Step(got.world, Success(o))
    case Failure(NotFound) => CreateImageStoreObject(got.world, key, ImageStoreObject(0, ownerUid, false))
    case Failure(e) => Step(got.world, Failure(e))
  }

  /** The readiness stage of an image-store part: absent is not ready, and not an error. */
  function IsImageStoreReady(w: World, namespace: string, part: ImageStorePart): (r: Step<bool>)
    ensures r.result == Success(true) <==>
              !Fails(w, 0) && ImageStoreKey(namespace, part) in w.imageStore
              && w.imageStore[ImageStoreKey(namespace, part)].ready
    ensures r.result.Failure? <==> Fails(w, 0)
    ensures r.world == Request(w, Call(Get, ImageStore(part)))
    ensures r.result.Failure? ==> FailedRun(w, r.world, r.result.error)
    ensures r.result.Success? ==> CleanRun(w, r.world)
  {
    var got := GetImageStoreObject(w, ImageStoreKey(namespace, part));
    match got.result
    case Success(o) => Step(got.world, Success(o.ready))
    case Failure(NotFound) => Step(got.world, Success(false))
    case Failure(e) => Step(got.world, Failure(e))
  }

  /** Ensuring twice gives the same Deployment, and the second time makes no create call. */
  lemma EnsureDeploymentCreatedIdempotent(
    w: World, namespace: string, name: string, image: string, replicas: Option<nat>, model: Model, recorder: Key)
    ensures var first := EnsureDeploymentCreated(w, namespace, name, image, replicas, model, recorder);
            first.result.Success? && !Fails(first.world, 0) ==>
              EnsureDeploymentCreated(first.world, namespace, name, image, replicas, model, recorder)
              == Step(Request(first.world, Call(Get, ModelDeployment)), first.result)
  {
  }

  /** After a successful correction the Deployment is at the desired count: a second call reports no change. */
  lemma UpdateDeploymentConverges(w: World, model: Model, recorder: Key)
    requires Consistent(w)
    ensures var first := UpdateDeployment(w, model, recorder);
            first.result == Success(true) && !Fails(first.world, 0) ==>
              UpdateDeployment(first.world, model, recorder) == Step(Request(first.world, Call(Get, ModelDeployment)), Success(false))
  {
  }

  /** Ensuring the Service twice gives the same Service, and the second time makes no create call. */
  lemma EnsureServiceCreatedIdempotent(w: World, namespace: string, name: string, deployment: Deployment, recorder: Key)
    ensures var first := EnsureServiceCreated(w, namespace, name, deployment, recorder);
            first.result.Success? && !Fails(first.world, 0) ==>
              EnsureServiceCreated(first.world, namespace, name, deployment, recorder)
              == Step(Request(first.world, Call(Get, ModelService)), first.result)
  {
  }
}
