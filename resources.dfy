/**
 * The objects the Model controller reads and writes, and the abstract cluster store
 * that holds them.
 *
 * The store is a value, `World`: maps from namespaced name to Model, Deployment and
 * Service, a map for the image-store objects of each namespace, the append-only event
 * log, the log of every call made to the store, and the faults the store will answer
 * with. The functions at the end of this module are the store's own semantics for
 * get, create, update and status update; nothing else in the model changes a World.
 */
module Resources {
  import opened Wrappers

  /** A namespaced name, the key of every object in the store. */
  datatype Key = Key(namespace: string, name: string)

  /** The two condition types the controller sets on a Model. */
  datatype ConditionType = Progressing | Available

  datatype ConditionStatus = ConditionTrue | ConditionFalse | ConditionUnknown

  /** A status condition; its timestamps are not modelled. */
  datatype Condition = Condition(kind: ConditionType, status: ConditionStatus)

  /** The four replica counters, as a Deployment reports them and as a Model records them. */
  datatype Counters = Counters(replicas: nat, readyReplicas: nat, availableReplicas: nat, unavailableReplicas: nat)

  const NoReplicas := Counters(0, 0, 0, 0)

  /** What a Model declares: the image to pull and the replica count (nil means 1). */
  datatype ModelSpec = ModelSpec(image: string, replicas: Option<nat>)

  datatype ModelStatus = ModelStatus(conditions: seq<Condition>, counters: Counters)

  /** The owning resource. */
  datatype Model = Model(key: Key, uid: nat, spec: ModelSpec, status: ModelStatus)

  /** The three objects of a namespace's shared image store. */
  datatype ImageStorePart = ImageStoreClaim | ImageStoreServer | ImageStoreEndpoint

  /** The kinds of object the controller talks to the store about. */
  datatype Kind = ModelResource | ImageStore(part: ImageStorePart) | ModelDeployment | ModelService

  /** An owner reference; cascade deletion follows these. */
  datatype OwnerRef = OwnerRef(kind: Kind, name: string, uid: nat, blockOwnerDeletion: bool)

  /** The model's Deployment: only name, owner, replicas, labels and image are modelled. */
  datatype Deployment = Deployment(
    key: Key,
    uid: nat,
    owners: seq<OwnerRef>,
    replicas: Option<nat>,
    selector: map<string, string>,
    podLabels: map<string, string>,
    image: string,
    status: Counters)

  datatype ServiceType = ClusterIP | NodePort | LoadBalancer

  datatype ServicePort = ServicePort(name: string, port: nat, targetPort: nat)

  /** The model's Service; clusterIP is "" until the platform assigns an address. */
  datatype Service = Service(
    key: Key,
    uid: nat,
    owners: seq<OwnerRef>,
    serviceType: ServiceType,
    selector: map<string, string>,
    ports: seq<ServicePort>,
    clusterIP: string)

  /** An image-store object of one namespace; its readiness is whatever the platform reports. */
  datatype ImageStoreKey = ImageStoreKey(namespace: string, part: ImageStorePart)

  datatype ImageStoreObject = ImageStoreObject(uid: nat, ownerUid: Option<nat>, ready: bool)

  /** The reasons of the events the controller records about a Model. */
  datatype Reason =
    | ModelProgressing
    | ModelAvailable
    | DeploymentCreated
    | ServiceCreated
    | WaitingForDeployment
    | WaitingForService
    | ModelScaled

  /** An event recorded on the Model `involved`. */
  datatype Event = Event(involved: Key, reason: Reason)

  /** A store error. NotFound is the expected "absent" answer of a get. */
  datatype Error = NotFound | AlreadyExists | StoreError(code: nat)

  datatype Verb = Get | Create | Update | UpdateStatus

  /** One request to the store. */
  datatype Call = Call(verb: Verb, kind: Kind)

  /** The whole cluster as the controller sees it. */
  datatype World = World(
    models: map<Key, Model>,
    imageStore: map<ImageStoreKey, ImageStoreObject>,
    deployments: map<Key, Deployment>,
    services: map<Key, Service>,
    events: seq<Event>,
    /** every request made to the store, in order, including those that failed */
    calls: seq<Call>,
    /** the requests, by position in `calls`, that the store answers with StoreError(code) */
    faults: map<nat, nat>,
    /** the uid the store gives the next object it creates */
    nextUid: nat,
    /** the image-store parts the platform reports ready as soon as it creates them */
    readyOnCreate: set<ImageStoreKey>,
    /** the cluster address the platform gives a Service it creates under a key ("" for any other key) */
    addressOnCreate: map<Key, string>)

  /** Every stored object is stored under its own name, as in the real store. */
  predicate Consistent(w: World)
  {
    ModelsKeyed(w.models) && DeploymentsKeyed(w.deployments) && ServicesKeyed(w.services)
  }

  predicate ModelsKeyed(models: map<Key, Model>)
  {
    forall k | k in models :: models[k].key == k
  }

  predicate DeploymentsKeyed(deployments: map<Key, Deployment>)
  {
    forall k | k in deployments :: deployments[k].key == k
  }

  predicate ServicesKeyed(services: map<Key, Service>)
  {
    forall k | k in services :: services[k].key == k
  }

  /** The world after one store call `c` and the state it changed, paired with its answer. */
  datatype Step<+T> = Step(world: World, result: Result<T, Error>)

  function Request(w: World, c: Call): World
  {
    w.(calls := w.calls + [c])
  }

  /** The request made `n` requests from now will fail. */
  predicate Fails(w: World, n: nat)
  {
    |w.calls| + n in w.faults
  }

  /** The error the next request is answered with, if it fails. */
  function NextFault(w: World): Error
    requires Fails(w, 0)
  {
    StoreError(w.faults[|w.calls|])
  }

  /** From w on, the store answers every request. */
  predicate Reliable(w: World)
  {
    forall n: nat | |w.calls| <= n :: n !in w.faults
  }

  /** Between w and w' the store answered every request, and its faults are as they were. */
  predicate CleanRun(w: World, w': World)
  {
    && |w.calls| <= |w'.calls|
    && w'.faults == w.faults
    && forall n: nat | |w.calls| <= n < |w'.calls| :: n !in w.faults
  }

  /** Between w and w' the store answered every request but the last, which failed with `e`. */
  predicate FailedRun(w: World, w': World, e: Error)
  {
    && |w.calls| < |w'.calls|
    && w'.faults == w.faults
    && (forall n: nat | |w.calls| <= n < |w'.calls| - 1 :: n !in w.faults)
    && var last: nat := |w'.calls| - 1;
       last in w.faults && e == StoreError(w.faults[last])
  }

  /** Recording an event never fails and is not a store call. */
  function Emit(w: World, involved: Key, reason: Reason): World
  {
    w.(events := w.events + [Event(involved, reason)])
  }

  function GetModel(w: World, key: Key): Step<Model>
  {
    var c := Call(Get, ModelResource);
    if Fails(w, 0) then Step(Request(w, c), Failure(NextFault(w)))
    else if key in w.models then Step(Request(w, c), Success(w.models[key]))
    else Step(Request(w, c), Failure(NotFound))
  }

  /** The status subresource update: only the status of the stored Model changes. */
  function UpdateModelStatus(w: World, m: Model): Step<Model>
  {
    var c := Call(UpdateStatus, ModelResource);
    if Fails(w, 0) then Step(Request(w, c), Failure(NextFault(w)))
    else if m.key !in w.models then Step(Request(w, c), Failure(NotFound))
    else
      var stored := w.models[m.key].(status := m.status);
      Step(Request(w, c).(models := w.models[m.key := stored]), Success(stored))
  }

  function GetImageStoreObject(w: World, key: ImageStoreKey): Step<ImageStoreObject>
  {
    var c := Call(Get, ImageStore(key.part));
    if Fails(w, 0) then Step(Request(w, c), Failure(NextFault(w)))
    else if key in w.imageStore then Step(Request(w, c), Success(w.imageStore[key]))
    else Step(Request(w, c), Failure(NotFound))
  }

  /** Create gives the object a fresh uid and the readiness the platform reports; the answer is the object as stored. */
  function CreateImageStoreObject(w: World, key: ImageStoreKey, o: ImageStoreObject): Step<ImageStoreObject>
  {
    var c := Call(Create, ImageStore(key.part));
    if Fails(w, 0) then Step(Request(w, c), Failure(NextFault(w)))
    else if key in w.imageStore then Step(Request(w, c), Failure(AlreadyExists))
    else
      var created := o.(uid := w.nextUid, ready := key in w.readyOnCreate);
      Step(Request(w, c).(imageStore := w.imageStore[key := created], nextUid := w.nextUid + 1), Success(created))
  }

  function GetDeploymentObject(w: World, key: Key): Step<Deployment>
  {
    var c := Call(Get, ModelDeployment);
    if Fails(w, 0) then Step(Request(w, c), Failure(NextFault(w)))
    else if key in w.deployments then Step(Request(w, c), Success(w.deployments[key]))
    else Step(Request(w, c), Failure(NotFound))
  }

  function CreateDeploymentObject(w: World, d: Deployment): Step<Deployment>
  {
    var c := Call(Create, ModelDeployment);
    if Fails(w, 0) then Step(Request(w, c), Failure(NextFault(w)))
    else if d.key in w.deployments then Step(Request(w, c), Failure(AlreadyExists))
    else
      var created := d.(uid := w.nextUid);
      Step(Request(w, c).(deployments := w.deployments[d.key := created], nextUid := w.nextUid + 1), Success(created))
  }

  /** Update replaces the stored spec; the status subresource is not written by it. */
  function UpdateDeploymentObject(w: World, d: Deployment): Step<Deployment>
  {
    var c := Call(Update, ModelDeployment);
    if Fails(w, 0) then Step(Request(w, c), Failure(NextFault(w)))
    else if d.key !in w.deployments then Step(Request(w, c), Failure(NotFound))
    else
      var stored := d.(status := w.deployments[d.key].status);
      Step(Request(w, c).(deployments := w.deployments[d.key := stored]), Success(stored))
  }

  function GetServiceObject(w: World, key: Key): Step<Service>
  {
    var c := Call(Get, ModelService);
    if Fails(w, 0) then Step(Request(w, c), Failure(NextFault(w)))
    else if key in w.services then Step(Request(w, c), Success(w.services[key]))
    else Step(Request(w, c), Failure(NotFound))
  }

  /** The cluster address the platform gives a Service created under `key`. */
  function AddressOnCreate(w: World, key: Key): string
  {
    if key in w.addressOnCreate then w.addressOnCreate[key] else ""
  }

  /** Create gives the Service a fresh uid and the platform's cluster address. */
  function CreateServiceObject(w: World, s: Service): Step<Service>
  {
    var c := Call(Create, ModelService);
    if Fails(w, 0) then Step(Request(w, c), Failure(NextFault(w)))
    else if s.key in w.services then Step(Request(w, c), Failure(AlreadyExists))
    else
      var created := s.(uid := w.nextUid, clusterIP := AddressOnCreate(w, s.key));
      Step(Request(w, c).(services := w.services[s.key := created], nextUid := w.nextUid + 1), Success(created))
  }
}
