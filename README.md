# ollama-operator Model reconciler in Dafny

This project models the controller that drives an ollama-operator `Model` to a running
model server. An `ollama.ayaka.io` `Model` names an image and a replica count. One
reconcile pass does the following, in order:

- reads the Model;
- marks it Progressing the first time;
- makes sure the namespace's shared image store exists and is ready: a volume claim, a
  server StatefulSet and a Service in front of it;
- makes sure the model's Deployment exists and runs the declared number of replicas;
- makes sure the model's Service exists and has a cluster address;
- copies the Deployment's replica counters into the Model's status;
- marks the Model Available.

The create stages are create-if-absent. They run in this order, with a readiness gate
wherever one is named; a gate ends the pass with "requeue after 5 seconds" while its
object is not ready:

1. the image-store volume claim, with no gate;
2. the image-store server, then its gate;
3. the image-store endpoint, then its gate;
4. the model Deployment; then the drift correction, which ends the pass with a requeue
   after 5 seconds when it had to rewrite the replica count; then the Deployment gate;
5. the model Service, then its gate;
6. the counters, which end the pass with a requeue after 5 seconds when they had to be
   written;
7. Available, and the pass ends Done.

Setting Progressing for the first time ends the pass with a requeue after 1 second. A
failed store call ends the pass with that call's error.

## Layout

- `wrappers.dfy`: `Option` and `Result`.
- `resources.dfy` (module `Resources`): the objects (Model, Deployment, Service,
  image-store object, condition, event) and the cluster store as a value, `World`:
  - maps from namespaced name to object;
  - the event log;
  - the log of every request sent;
  - a fault plan saying which request numbers the store fails, and with which error;
  - what the platform fills in when it creates an object: which image-store parts
    report ready at once, and which cluster address a new Service gets.

  Its functions give the store's own get, create, update and status-update semantics.
- `client.dfy` (module `Client`): the store as an object, class `Store`. Its methods
  change its fields in place, and each is proved equal to the store function of the
  same name.
- `stages.dfy` (module `Stages`): the helpers of `pkg/model/model.go` as functions from
  a World to the next World and an answer. It also holds the generic image-store stages
  and the idempotence lemmas of the ensure helpers.
- `model.dfy` (module `Model`): the same helpers as methods on a `Store`. Each is proved
  equal to its function.
- `reconciliation.dfy` (module `Reconciliation`):
  - the status helpers of `model_controller.go`;
  - one reconcile pass as functions, one per stage. Each stage hands on to the next
    through `Continue`, so every stage is proved from the contract of the rest of the
    pass.
- `controller.dfy` (module `Controller`): class `ModelReconciler` with its store
  client. It has one method per helper and per stage. Each method is proved to leave
  the store and return the outcome exactly as the function of the same name says.
- `reconcile_properties.dfy` (module `ReconcileProperties`): what a pass guarantees,
  proved stage by stage:
  - the pass stops at the first fault;
  - no Model is removed, and no Model loses its Available condition;
  - the pass waits on the image store before touching the Model's own objects;
  - the endpoint is owned by the server;
  - drift is corrected first, and that pass ends there;
  - a pass that ends Done leaves the Model converged;
  - on a converged Model, a pass with no faults only reads and records `ModelAvailable`.

### Code and design differ on conditions

Conditions read naturally as monotonic markers appended to a list, but the code
replaces the whole condition list (`model_controller.go:192-199`, `:223-230`). So when
Available is set, Progressing is dropped. The model follows the code, and the property
"a condition once set is never cleared" is not claimed. What is proved instead:

- no pass removes a Model's Available condition (`KeepsAvailable`);
- no pass makes a condition type appear twice (`KeepsUnique`);
- in a list without repeated types, a type filters to at most one condition.

The counter update is also not a compare-and-write inside one helper. The caller
compares (`ShouldSetReplicas`). `SetReplicas` then always writes, and reports
true whenever the write succeeds. The model follows the code.

### How the store is modelled

Every request the controller sends is appended to `World.calls`, including the ones
that fail. Request number `n` fails when `n` is a key of `World.faults`. This stands for
every error the Kubernetes API can return, optimistic-concurrency conflicts included.
`Reliable(w)` says that no request from `w` on fails.

The namespace's image-store objects carry an abstract `ready` flag that the platform
sets. When the store creates one, the flag is whatever `World.readyOnCreate` says for
that part. A new Service gets the cluster address `World.addressOnCreate` gives its
name, or the empty string. A real cluster assigns a ClusterIP Service its address at
create time, so the model allows either case:

- the gates are stated on what they will read, `ReadyWhenEnsured`;
- no lemma assumes that a new object starts not ready.

Delays are whole seconds: `ProgressingDelay` is 1 and `ReadinessDelay` is 5.

## Model

| member | source | states |
|---|---|---|
| `Stages.ModelAppName` | pkg/model/model.go:20-22 | the name is the prefix `ollama-model-` followed by the Model's name, and nothing else |
| `Stages.ModelAppNameInjective` | pkg/model/model.go:20-22 | two Models get the same sub-resource name exactly when their names are equal |
| `Stages.GetDeployment` | pkg/model/model.go:24-37 | one get request; an absent Deployment is answered None rather than an error; every other fault is the error; a present one is answered as stored |
| `Stages.EnsureDeploymentCreated` | pkg/model/model.go:39-115 | an existing Deployment is answered as stored, with no create and no event; an absent one is created with the Model's name, its image, the Model as owner, the spec's replica count (nil becomes 1) and the app labels, and `DeploymentCreated` is recorded once; what it answers is what the store holds; a failure creates and records nothing |
| `Stages.IsDeploymentReady` | pkg/model/model.go:117-147 | true exactly when the get succeeds, the Deployment exists, and its ready replicas equal its declared count (nil means 1); absent is false and not an error; the only effects are one get and a `WaitingForDeployment` event, which is recorded exactly when the get finds the Deployment not ready |
| `Stages.UpdateDeployment` | pkg/model/model.go:149-186 | false with no write when the Deployment is absent or already at the Model's count; true exactly when the count was unset or different and both requests succeed; whenever it is true, only `Spec.Replicas` has changed, to the Model's count, and `ModelScaled` is recorded |
| `Stages.GetService` | pkg/model/model.go:188-201 | one get request; an absent Service is None; other faults are the error |
| `Stages.EnsureServiceCreated` | pkg/model/model.go:203-256 | an existing Service is answered as stored; an absent one is created as a ClusterIP Service on port 11434 named `ollama`, selecting the app label and owned by the Deployment (not the Model), with the cluster address the platform gives it on create; `ServiceCreated` is recorded; a failure creates nothing |
| `Stages.IsServiceReady` | pkg/model/model.go:258-284 | true exactly when the Service exists with a non-empty cluster address; absent is false and not an error; `WaitingForService` is recorded exactly when the get finds the Service without an address |
| `Stages.EnsureImageStoreCreated` | internal/controller/model_controller.go:86-107 | the image-store claim, server and endpoint stages: create-if-absent, with one get and a create only when absent; an existing object keeps its readiness; a new one gets the readiness the platform gives new parts and is owned by the given owner; no other image-store object is touched |
| `Stages.IsImageStoreReady` | internal/controller/model_controller.go:96-115 | the image-store readiness gates: true exactly when the object exists and the platform reports it ready; absent is false and not an error; one get and no other effect |
| `Stages.EnsureDeploymentCreatedIdempotent` | pkg/model/model.go:49-55 | ensuring twice gives the same Deployment, and the second call makes only a get |
| `Stages.UpdateDeploymentConverges` | pkg/model/model.go:163-185 | after a correction, a second UpdateDeployment reports no change and writes nothing |
| `Stages.EnsureServiceCreatedIdempotent` | pkg/model/model.go:211-217 | ensuring the Service twice gives the same Service, and the second call makes only a get |
| `Model.GetDeployment` | pkg/model/model.go:24-37 | run against the store object, it leaves the store and answers exactly as `Stages.GetDeployment` |
| `Model.EnsureDeploymentCreated` | pkg/model/model.go:39-115 | in-place counterpart of `Stages.EnsureDeploymentCreated`, equal to it on every store |
| `Model.IsDeploymentReady` | pkg/model/model.go:117-147 | in-place counterpart of `Stages.IsDeploymentReady` |
| `Model.UpdateDeployment` | pkg/model/model.go:149-186 | in-place counterpart of `Stages.UpdateDeployment`, including the nil-replicas branch |
| `Model.GetService` | pkg/model/model.go:188-201 | in-place counterpart of `Stages.GetService` |
| `Model.EnsureServiceCreated` | pkg/model/model.go:203-256 | in-place counterpart of `Stages.EnsureServiceCreated` |
| `Model.IsServiceReady` | pkg/model/model.go:258-284 | in-place counterpart of `Stages.IsServiceReady` |
| `Model.EnsureImageStoreCreated` | internal/controller/model_controller.go:86-107 | in-place counterpart of `Stages.EnsureImageStoreCreated` |
| `Model.IsImageStoreReady` | internal/controller/model_controller.go:96-115 | in-place counterpart of `Stages.IsImageStoreReady` |
| `Reconciliation.FilterByType` | internal/controller/model_controller.go:179-181 | the filter keeps exactly the conditions of the type, and no more than the list holds |
| `Reconciliation.HasCondition` | internal/controller/model_controller.go:178-182 | IsProgressing and IsAvailable: true exactly when some condition of the type is present, whatever its status |
| `Reconciliation.UniqueFiltersToAtMostOne` | internal/controller/model_controller.go:210-212 | in a list without repeated types, the filter on a type keeps at most one condition |
| `Reconciliation.SetCondition` | internal/controller/model_controller.go:184-207 | SetProgressing and SetAvailable: with the condition already present, it makes no call and answers false; otherwise one status update that replaces the list by that one condition, True, with the counters kept; true exactly when the update succeeds; nothing but the Model's status changes |
| `Reconciliation.ShouldSetReplicas` | internal/controller/model_controller.go:240-252 | true exactly when one of the four counters differs from the one observed |
| `Reconciliation.SetReplicas` | internal/controller/model_controller.go:254-273 | one status update that writes the four counters and keeps the conditions; true whenever it succeeds; a failure writes nothing |
| `Reconciliation.Reconcile` | internal/controller/model_controller.go:61-169 | an absent Model ends the pass Done, with no error, after one get; any other error of the get is the pass's error; neither case writes anything; every requeue is after 1 or 5 seconds |
| `Reconciliation.GateOnProgressing` | internal/controller/model_controller.go:71-80 | the pass requeues after 1 second exactly when the Model has neither Available nor Progressing and the write succeeds; that pass changes only the Model's status and records `ModelProgressing`; the pass keeps its invariant |
| `Reconciliation.Continue` | internal/controller/model_controller.go:86-168 | the rest of the pass from any stage keeps the invariant, keeps every image-store object, and requeues only after 5 seconds |
| `Reconciliation.ClaimImageStore` | internal/controller/model_controller.go:86-89 | the claim stage and the rest of the pass keep the invariant and every existing image-store object |
| `Reconciliation.StartImageStoreServer` | internal/controller/model_controller.go:91-94 | the server stage and the rest of the pass keep the invariant and every existing image-store object |
| `Reconciliation.AwaitImageStoreServer` | internal/controller/model_controller.go:96-102 | the server gate and the rest of the pass keep the invariant and every existing image-store object |
| `Reconciliation.ProvideImageStoreEndpoint` | internal/controller/model_controller.go:104-107 | the endpoint stage and the rest of the pass keep the invariant and every existing image-store object |
| `Reconciliation.AwaitImageStoreEndpoint` | internal/controller/model_controller.go:109-115 | the endpoint gate and the rest of the pass keep the invariant and every existing image-store object |
| `Reconciliation.CreateDeployment` | internal/controller/model_controller.go:117-120 | the Deployment stage and the rest of the pass keep the invariant and leave the image store alone |
| `Reconciliation.CorrectDrift` | internal/controller/model_controller.go:122-128 | the drift stage and the rest of the pass keep the invariant and leave the image store alone |
| `Reconciliation.AwaitDeployment` | internal/controller/model_controller.go:130-136 | the Deployment gate and the rest of the pass keep the invariant and leave the image store alone |
| `Reconciliation.CreateService` | internal/controller/model_controller.go:138-141 | the Service stage and the rest of the pass keep the invariant and leave the Deployments and the image store alone |
| `Reconciliation.AwaitService` | internal/controller/model_controller.go:143-149 | the Service gate and the rest of the pass keep the invariant and leave the Deployments and the image store alone |
| `Reconciliation.Conclude` | internal/controller/model_controller.go:151-168 | stale counters are written and the pass requeues after 5 seconds without `ModelAvailable`; Done only with the counters already current, and then the Model is Available with its spec and counters; a failure changes no Model and records nothing; a Done pass writes at most the Available condition; no Deployment, Service or image-store object changes |
| `Reconciliation.MarkAvailable` | internal/controller/model_controller.go:161-168 | an Available Model gets no store call, only the `ModelAvailable` event; otherwise Available replaces the list; the event is recorded exactly when the pass ends Done; a failure changes no Model and records nothing, and a Done pass writes at most the Available condition |
| `Controller.ModelReconciler.SetProgressing` | internal/controller/model_controller.go:184-207 | on the store object, exactly `Reconciliation.SetProgressing` |
| `Controller.ModelReconciler.SetAvailable` | internal/controller/model_controller.go:215-238 | on the store object, exactly `Reconciliation.SetAvailable` |
| `Controller.ModelReconciler.SetCondition` | internal/controller/model_controller.go:185-206 | the body SetProgressing and SetAvailable share, exactly `Reconciliation.SetCondition` |
| `Controller.ModelReconciler.SetReplicas` | internal/controller/model_controller.go:254-273 | on the store object, exactly `Reconciliation.SetReplicas` |
| `Controller.ModelReconciler.Reconcile` | internal/controller/model_controller.go:61-169 | the pass with its early returns leaves the store and returns the outcome exactly as `Reconciliation.Reconcile` |
| `Controller.ModelReconciler.ClaimImageStore` | internal/controller/model_controller.go:86-89 | exactly `Reconciliation.ClaimImageStore` |
| `Controller.ModelReconciler.StartImageStoreServer` | internal/controller/model_controller.go:91-94 | exactly `Reconciliation.StartImageStoreServer` |
| `Controller.ModelReconciler.AwaitImageStoreServer` | internal/controller/model_controller.go:96-102 | exactly `Reconciliation.AwaitImageStoreServer` |
| `Controller.ModelReconciler.ProvideImageStoreEndpoint` | internal/controller/model_controller.go:104-107 | exactly `Reconciliation.ProvideImageStoreEndpoint` |
| `Controller.ModelReconciler.AwaitImageStoreEndpoint` | internal/controller/model_controller.go:109-115 | exactly `Reconciliation.AwaitImageStoreEndpoint` |
| `Controller.ModelReconciler.CreateDeployment` | internal/controller/model_controller.go:117-120 | exactly `Reconciliation.CreateDeployment` |
| `Controller.ModelReconciler.CorrectDrift` | internal/controller/model_controller.go:122-128 | exactly `Reconciliation.CorrectDrift` |
| `Controller.ModelReconciler.AwaitDeployment` | internal/controller/model_controller.go:130-136 | exactly `Reconciliation.AwaitDeployment` |
| `Controller.ModelReconciler.CreateService` | internal/controller/model_controller.go:138-141 | exactly `Reconciliation.CreateService` |
| `Controller.ModelReconciler.AwaitService` | internal/controller/model_controller.go:143-149 | exactly `Reconciliation.AwaitService` |
| `Controller.ModelReconciler.Conclude` | internal/controller/model_controller.go:151-159 | exactly `Reconciliation.Conclude` |
| `Controller.ModelReconciler.MarkAvailable` | internal/controller/model_controller.go:161-168 | exactly `Reconciliation.MarkAvailable` |
| `ReconcileProperties.ReconcileInvariant` | internal/controller/model_controller.go:61-169 | every pass fails exactly when one of its requests failed; that request was its last, and its error is the pass's; no Model disappears, none loses Available, no condition type appears twice |
| `ReconcileProperties.AwaitServiceDone` | internal/controller/model_controller.go:143-168 | a pass that ends Done after the Service gate leaves the Service with an address and the Model Available, with its spec and the Deployment's counters |
| `ReconcileProperties.CreateServiceDone` | internal/controller/model_controller.go:138-168 | the same from the Service stage on |
| `ReconcileProperties.AwaitDeploymentDone` | internal/controller/model_controller.go:130-168 | from the Deployment gate on, Done also means the Deployment is at the Model's count with all replicas ready |
| `ReconcileProperties.CorrectDriftDone` | internal/controller/model_controller.go:122-168 | the same from the drift stage on |
| `ReconcileProperties.CreateDeploymentDone` | internal/controller/model_controller.go:117-168 | the same from the Deployment stage on |
| `ReconcileProperties.AwaitImageStoreEndpointDone` | internal/controller/model_controller.go:109-168 | from the endpoint gate on, Done also means the endpoint is ready |
| `ReconcileProperties.ProvideImageStoreEndpointDone` | internal/controller/model_controller.go:104-168 | the same from the endpoint stage on |
| `ReconcileProperties.AwaitImageStoreServerDone` | internal/controller/model_controller.go:96-168 | from the server gate on, Done also means the server is ready |
| `ReconcileProperties.StartImageStoreServerDone` | internal/controller/model_controller.go:91-168 | the same from the server stage on |
| `ReconcileProperties.ClaimImageStoreDone` | internal/controller/model_controller.go:86-168 | from the claim on, Done means the Model is converged |
| `ReconcileProperties.ReconcileDone` | internal/controller/model_controller.go:61-169 | a pass on a present Model that ends Done leaves it converged: the image store is up, the Deployment is at the Model's count and ready, the Service has an address, the counters are recorded, and the Model is Available |
| `ReconcileProperties.AwaitImageStoreEndpointWaits` | internal/controller/model_controller.go:109-115 | while the endpoint is not ready, the pass waits 5 seconds or fails; it sends only image-store requests and touches no Model, Deployment, Service or event (events of the image-store helpers are not modelled) |
| `ReconcileProperties.ProvideImageStoreEndpointWaits` | internal/controller/model_controller.go:104-115 | the same from the endpoint stage on, while the endpoint will not be ready once ensured |
| `ReconcileProperties.AwaitImageStoreServerWaits` | internal/controller/model_controller.go:96-115 | the same from the server gate on, and a missing endpoint is not created while the server is not ready |
| `ReconcileProperties.StartImageStoreServerWaits` | internal/controller/model_controller.go:91-115 | the same from the server stage on, with the server's readiness as it will be once ensured |
| `ReconcileProperties.ProvisionWaitsForImageStore` | internal/controller/model_controller.go:86-115 | while the image-store server or endpoint will not be ready once ensured, the pass from the claim on waits 5 seconds (or fails); it sends only image-store requests and touches no Model, Deployment, Service or event; the endpoint is not created before the server is ready |
| `ReconcileProperties.GateStops` | internal/controller/model_controller.go:71-80 | when the gate writes Progressing or fails writing it, the pass ends after one status request, with only the Model and the event log changed, and a failure changes neither |
| `ReconcileProperties.GateWaitsForImageStore` | internal/controller/model_controller.go:71-115 | the same from the Progressing gate on: never Done; it sends only Model and image-store requests; the Model and the events change only when Progressing is first set |
| `ReconcileProperties.ReconcileWaitsForImageStore` | internal/controller/model_controller.go:61-115 | a whole pass while the image store will not be ready: it ends Done only for an absent Model; it sends only Model and image-store requests, so no Deployment or Service request at all; it changes no Deployment or Service; it changes the Model and the events only when it first sets Progressing; the endpoint is not created before the server is ready |
| `ReconcileProperties.ProvideImageStoreEndpointOwned` | internal/controller/model_controller.go:104-107 | an endpoint created by the pass is owned by the stored server |
| `ReconcileProperties.AwaitImageStoreServerOwned` | internal/controller/model_controller.go:96-107 | the same from the server gate on |
| `ReconcileProperties.StartImageStoreServerOwned` | internal/controller/model_controller.go:91-107 | the same from the server stage on |
| `ReconcileProperties.EndpointOwnedByServer` | internal/controller/model_controller.go:86-107 | an endpoint created in a pass exists only beside the server, and is owned by it |
| `ReconcileProperties.CorrectDriftStops` | internal/controller/model_controller.go:122-128 | a drifted Deployment: the pass waits 5 seconds or fails; it sends only Deployment requests and leaves the Deployments as they were or corrected; with no faults it is corrected to the Model's count |
| `ReconcileProperties.RollOutCorrectsDrift` | internal/controller/model_controller.go:117-128 | the same from the Deployment stage on: neither the Service, the counters nor Available is touched, and at most `ModelScaled` is recorded |
| `ReconcileProperties.AwaitImageStoreEndpointDrift` | internal/controller/model_controller.go:109-128 | from the endpoint gate on, a drifted Deployment stops the pass there or earlier, with no Model or Service touched and the Deployment as it was or corrected; with a reliable store and the endpoint ready, it is corrected and the pass waits 5 seconds |
| `ReconcileProperties.ProvideImageStoreEndpointDrift` | internal/controller/model_controller.go:104-128 | the same from the endpoint stage on, with the endpoint ready once ensured |
| `ReconcileProperties.AwaitImageStoreServerDrift` | internal/controller/model_controller.go:96-128 | the same from the server gate on, with the server ready |
| `ReconcileProperties.StartImageStoreServerDrift` | internal/controller/model_controller.go:91-128 | the same from the server stage on, with both parts ready once ensured |
| `ReconcileProperties.ClaimImageStoreDrift` | internal/controller/model_controller.go:86-128 | the same from the claim on |
| `ReconcileProperties.GateCorrectsDrift` | internal/controller/model_controller.go:71-128 | the same from the Progressing gate on: never Done, no Service touched, the Model changed only when Progressing is first set; corrected when the Model is already Available or Progressing |
| `ReconcileProperties.ReconcileCorrectsDrift` | internal/controller/model_controller.go:61-128 | a whole pass over a drifted Deployment never ends Done, touches no Service, leaves the Deployments as they were or corrected, and changes the Model only when it first sets Progressing |
| `ReconcileProperties.ReliablePassCorrectsDrift` | internal/controller/model_controller.go:61-128 | with no faults, a Model past the Progressing gate and an image store that will be ready, a whole pass corrects the drifted replica count, changes no Model and ends waiting 5 seconds |
| `ReconcileProperties.AwaitServiceQuiet` | internal/controller/model_controller.go:143-168 | at the fixed point, with no faults, the Service gate and the rest of the pass only read and end Done with `ModelAvailable` |
| `ReconcileProperties.CreateServiceQuiet` | internal/controller/model_controller.go:138-168 | the same from the Service stage on |
| `ReconcileProperties.AwaitDeploymentQuiet` | internal/controller/model_controller.go:130-168 | the same from the Deployment gate on |
| `ReconcileProperties.CorrectDriftQuiet` | internal/controller/model_controller.go:122-168 | the same from the drift stage on |
| `ReconcileProperties.CreateDeploymentQuiet` | internal/controller/model_controller.go:117-168 | the same from the Deployment stage on |
| `ReconcileProperties.AwaitImageStoreEndpointQuiet` | internal/controller/model_controller.go:109-168 | the same from the endpoint gate on |
| `ReconcileProperties.ProvideImageStoreEndpointQuiet` | internal/controller/model_controller.go:104-168 | the same from the endpoint stage on |
| `ReconcileProperties.AwaitImageStoreServerQuiet` | internal/controller/model_controller.go:96-168 | the same from the server gate on |
| `ReconcileProperties.StartImageStoreServerQuiet` | internal/controller/model_controller.go:91-168 | the same from the server stage on |
| `ReconcileProperties.ClaimImageStoreQuiet` | internal/controller/model_controller.go:86-168 | the same from the claim on |
| `ReconcileProperties.ConvergedPassIsQuiet` | internal/controller/model_controller.go:61-169 | the converse of ReconcileDone at the fixed point: on a converged Model with no faults, a pass sends only get requests, ends Done, and changes nothing but the event log, which gains `ModelAvailable` |

## Left out

- The Kubernetes API server and the controller-runtime client are not modelled as
  code. They are the abstract store of module `Resources`:
  - every error, conflicts included, is a planned fault;
  - resource versions, admission and defaulting are not modelled;
  - the platform's own updates after a create (Deployment status, later cluster
    addresses, image-store readiness) are values already in the store, and what it
    fills in at create time is an input of the World.
- The image-store helpers (`EnsureImageStorePVCCreated`,
  `EnsureImageStoreStatefulSetCreated`, `IsImageStoreStatefulSetReady`,
  `EnsureImageStoreServiceCreated`, `IsImageStoreServiceReady`) are called from the
  reconciler but are not part of this model. They are the generic stages
  `EnsureImageStoreCreated` and `IsImageStoreReady`. These are not modelled:
  - the storage class, claim and volume parameters;
  - their object contents;
  - any events those helpers record.
- Object contents beyond what the controller reads or relies on are not modelled:
  - the init and server containers;
  - the volume mount;
  - the empty label and annotation maps;
  - the API-version and kind strings of owner references.
- Condition timestamps (`metav1.Now`) are not modelled. Event messages are not
  modelled either: an event is its reason and the Model it is about.
  `NewWrappedRecorder` is not part of this model.
- Logging (`log.Info`) has no effect on state and is left out.
- `SetupWithManager`, the RBAC markers, watches, the work queue and concurrent passes
  are not modelled. A pass runs alone against the store.
- The `Requeue: true` flag is not modelled separately, because every requeue in the
  code also sets `RequeueAfter`.
- Replica counts are `nat`. Negative values, and the `int32` conversions in
  `IsDeploymentReady` and `UpdateDeployment`, are not modelled.
- The Go `Reconcile` is one function with early returns. Here it is one method per
  stage in `Controller.ModelReconciler` (and one function per stage in
  `Reconciliation`), each ending by running the next stage. The order of the requests
  and the outcomes are the same.
