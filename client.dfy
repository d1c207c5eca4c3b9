/**
 * The cluster store as the Go code uses it: an object whose get, create and update
 * calls change its state in place. Each method is the imperative counterpart of the
 * store function of the same name in module Resources, and says so in its ensures.
 */
module Client {
  import opened Wrappers
  import opened Resources

  class Store {
    var models: map<Key, Model>
    var imageStore: map<ImageStoreKey, ImageStoreObject>
    var deployments: map<Key, Deployment>
    var services: map<Key, Service>
    var events: seq<Event>
    var calls: seq<Call>
    var faults: map<nat, nat>
    var nextUid: nat
    /** how the platform fills in what it creates; the store never changes these */
    const readyOnCreate: set<ImageStoreKey>
    const addressOnCreate: map<Key, string>

    /** The store's state as a value. */
    function State(): World
      reads this
    {
      World(models, imageStore, deployments, services, events, calls, faults, nextUid, readyOnCreate, addressOnCreate)
    }

    constructor (w: World)
      ensures State() == w
    {
      models, imageStore, deployments, services := w.models, w.imageStore, w.deployments, w.services;
      events, calls, faults, nextUid := w.events, w.calls, w.faults, w.nextUid;
      readyOnCreate, addressOnCreate := w.readyOnCreate, w.addressOnCreate;
    }

    /** Logs the request `c` and answers whether the store fails it. */
    method Send(c: Call) returns (fault: Option<Error>)
      modifies this`calls
      ensures State() == Request(old(State()), c)
      ensures fault == if Fails(old(State()), 0) then Some(NextFault(old(State()))) else None
    {
      fault := if |calls| in faults then Some(StoreError(faults[|calls|])) else None;
      calls := calls + [c];
    }

    method GetModel(key: Key) returns (r: Result<Model, Error>)
      modifies this`calls
      ensures Step(State(), r) == Resources.GetModel(old(State()), key)
    {
      var fault := Send(Call(Get, ModelResource));
      if fault.Some? {
        r := Failure(fault.value);
      } else if key in models {
        r := Success(models[key]);
      } else {
        r := Failure(NotFound);
      }
    }

    method UpdateModelStatus(m: Model) returns (r: Result<Model, Error>)
      modifies this`calls, this`models
      ensures Step(State(), r) == Resources.UpdateModelStatus(old(State()), m)
    {
      var fault := Send(Call(UpdateStatus, ModelResource));
      if fault.Some? {
        r := Failure(fault.value);
      } else if m.key !in models {
        r := Failure(NotFound);
      } else {
        var stored := models[m.key].(status := m.status);
        models := models[m.key := stored];
        r := Success(stored);
      }
    }

    method GetImageStoreObject(key: ImageStoreKey) returns (r: Result<ImageStoreObject, Error>)
      modifies this`calls
      ensures Step(State(), r) == Resources.GetImageStoreObject(old(State()), key)
    {
      var fault := Send(Call(Get, ImageStore(key.part)));
      if fault.Some? {
        r := Failure(fault.value);
      } else if key in imageStore {
        r := Success(imageStore[key]);
      } else {
        r := Failure(NotFound);
      }
    }

    method CreateImageStoreObject(key: ImageStoreKey, o: ImageStoreObject) returns (r: Result<ImageStoreObject, Error>)
      modifies this`calls, this`imageStore, this`nextUid
      ensures Step(State(), r) == Resources.CreateImageStoreObject(old(State()), key, o)
    {
      var fault := Send(Call(Create, ImageStore(key.part)));
      if fault.Some? {
        r := Failure(fault.value);
      } else if key in imageStore {
        r := Failure(AlreadyExists);
      } else {
        var created := o.(uid := nextUid, ready := key in readyOnCreate);
        imageStore := imageStore[key := created];
        nextUid := nextUid + 1;
        r := Success(created);
      }
    }

    method GetDeploymentObject(key: Key) returns (r: Result<Deployment, Error>)
      modifies this`calls
      ensures Step(State(), r) == Resources.GetDeploymentObject(old(State()), key)
    {
      var fault := Send(Call(Get, ModelDeployment));
      if fault.Some? {
        r := Failure(fault.value);
      } else if key in deployments {
        r := Success(deployments[key]);
      } else {
        r := Failure(NotFound);
      }
    }

    method CreateDeploymentObject(d: Deployment) returns (r: Result<Deployment, Error>)
      modifies this`calls, this`deployments, this`nextUid
      ensures Step(State(), r) == Resources.CreateDeploymentObject(old(State()), d)
    {
      var fault := Send(Call(Create, ModelDeployment));
      if fault.Some? {
        r := Failure(fault.value);
      } else if d.key in deployments {
        r := Failure(AlreadyExists);
      } else {
        var created := d.(uid := nextUid);
        deployments := deployments[d.key := created];
        nextUid := nextUid + 1;
        r := Success(created);
      }
    }

    method UpdateDeploymentObject(d: Deployment) returns (r: Result<Deployment, Error>)
      modifies this`calls, this`deployments
      ensures Step(State(), r) == Resources.UpdateDeploymentObject(old(State()), d)
    {
      var fault := Send(Call(Update, ModelDeployment));
      if fault.Some? {
        r := Failure(fault.value);
      } else if d.key !in deployments {
        r := Failure(NotFound);
      } else {
        var stored := d.(status := deployments[d.key].status);
        deployments := deployments[d.key := stored];
        r := Success(stored);
      }
    }

    method GetServiceObject(key: Key) returns (r: Result<Service, Error>)
      modifies this`calls
      ensures Step(State(), r) == Resources.GetServiceObject(old(State()), key)
    {
      var fault := Send(Call(Get, ModelService));
      if fault.Some? {
        r := Failure(fault.value);
      } else if key in services {
        r := Success(services[key]);
      } else {
        r := Failure(NotFound);
      }
    }

    method CreateServiceObject(s: Service) returns (r: Result<Service, Error>)
      modifies this`calls, this`services, this`nextUid
      ensures Step(State(), r) == Resources.CreateServiceObject(old(State()), s)
    {
      var fault := Send(Call(Create, ModelService));
      if fault.Some? {
        r := Failure(fault.value);
      } else if s.key in services {
        r := Failure(AlreadyExists);
      } else {
        var created := s.(uid := nextUid, clusterIP := AddressOnCreate(State(), s.key));
        services := services[s.key := created];
        nextUid := nextUid + 1;
        r := Success(created);
      }
    }

    /** The event recorder: appends, never fails. */
    method Eventf(involved: Key, reason: Reason)
      modifies this`events
      ensures State() == Emit(old(State()), involved, reason)
    {
      events := events + [Event(involved, reason)];
    }
  }
}
