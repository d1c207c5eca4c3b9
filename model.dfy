/**
 * The stage helpers of pkg/model/model.go as the Go code runs them: against a store
 * object whose state their calls change. Each method is proved to do exactly what the
 * function of the same name in module Stages says.
 */
module Model {
  import opened Wrappers
  import opened Resources
  import opened Client
  import Stages

  method GetDeployment(c: Store, namespace: string, name: string) returns (r: Result<Option<Deployment>, Error>)
    modifies c`calls
    ensures Step(c.State(), r) == Stages.GetDeployment(old(c.State()), namespace, name)
  {
    var got := c.GetDeploymentObject(Stages.AppKey(namespace, name));
    match got
    case Success(d) => r := Success(Some(d));
    case Failure(NotFound) => r := Success(None);
    case Failure(e) => r := Failure(e);
  }

  method EnsureDeploymentCreated(
    c: Store, namespace: string, name: string, image: string, replicas: Option<nat>, model: Resources.Model, recorder: Key
  ) returns (r: Result<Deployment, Error>)
    modifies c`calls, c`deployments, c`nextUid, c`events
    ensures Step(c.State(), r) == Stages.EnsureDeploymentCreated(old(c.State()), namespace, name, image, replicas, model, recorder)
  {
    var got := GetDeployment(c, namespace, name);
    if got.Failure? {
      return Failure(got.error);
    }
    if got.value.Some? {
      return Success(got.value.value);
    }
    r := c.CreateDeploymentObject(Stages.NewDeployment(namespace, name, image, replicas, model));
    if r.Failure? {
      return;
    }
    c.Eventf(recorder, DeploymentCreated);
  }

  method IsDeploymentReady(c: Store, namespace: string, name: string, recorder: Key) returns (r: Result<bool, Error>)
    modifies c`calls, c`events
    ensures Step(c.State(), r) == Stages.IsDeploymentReady(old(c.State()), namespace, name, recorder)
  {
    var got := GetDeployment(c, namespace, name);
    if got.Failure? {
      return Failure(got.error);
    }
    if got.value.None? {
      return Success(false);
    }
    if Stages.DeploymentReady(got.value.value) {
      return Success(true);
    }
    c.Eventf(recorder, WaitingForDeployment);
    r := Success(false);
  }

  method UpdateDeployment(c: Store, model: Resources.Model, recorder: Key) returns (r: Result<bool, Error>)
    modifies c`calls, c`deployments, c`events
    ensures Step(c.State(), r) == Stages.UpdateDeployment(old(c.State()), model, recorder)
  {
    var got := GetDeployment(c, model.key.namespace, model.key.name);
    if got.Failure? {
      return Failure(got.error);
    }
    if got.value.None? {
      return Success(false);
    }
    var deployment := got.value.value;
    var desired := Stages.DesiredReplicas(model.spec.replicas);
    if deployment.replicas.Some? {
      if deployment.replicas.value == desired {
        return Success(false);
      }
      deployment := deployment.(replicas := Some(desired));
    } else {
      deployment := deployment.(replicas := Some(desired));
    }
    var updated := c.UpdateDeploymentObject(deployment);
    if updated.Failure? {
      return Failure(updated.error);
    }
    c.Eventf(recorder, ModelScaled);
    r := Success(true);
  }

  method GetService(c: Store, namespace: string, name: string) returns (r: Result<Option<Service>, Error>)
    modifies c`calls
    ensures Step(c.State(), r) == Stages.GetService(old(c.State()), namespace, name)
  {
    var got := c.GetServiceObject(Stages.AppKey(namespace, name));
    match got
    case Success(s) => r := Success(Some(s));
    case Failure(NotFound) => r := Success(None);
    case Failure(e) => r := Failure(e);
  }

  method EnsureServiceCreated(c: Store, namespace: string, name: string, deployment: Deployment, recorder: Key)
    returns (r: Result<Service, Error>)
    modifies c`calls, c`services, c`nextUid, c`events
    ensures Step(c.State(), r) == Stages.EnsureServiceCreated(old(c.State()), namespace, name, deployment, recorder)
  {
    var got := GetService(c, namespace, name);
    if got.Failure? {
      return Failure(got.error);
    }
    if got.value.Some? {
      return Success(got.value.value);
    }
    r := c.CreateServiceObject(Stages.NewService(namespace, name, deployment));
    if r.Failure? {
      return;
    }
    c.Eventf(recorder, ServiceCreated);
  }

  method IsServiceReady(c: Store, namespace: string, name: string, recorder: Key) returns (r: Result<bool, Error>)
    modifies c`calls, c`events
    ensures Step(c.State(), r) == Stages.IsServiceReady(old(c.State()), namespace, name, recorder)
  {
    var got := GetService(c, namespace, name);
    if got.Failure? {
      return Failure(got.error);
    }
    if got.value.None? {
      return Success(false);
    }
    if got.value.value.clusterIP == "" {
      c.Eventf(recorder, WaitingForService);
      return Success(false);
    }
    r := Success(true);
  }

  /** The ensure stage shared by the three image-store parts. */
  method EnsureImageStoreCreated(c: Store, namespace: string, part: ImageStorePart, ownerUid: Option<nat>)
    returns (r: Result<ImageStoreObject, Error>)
    modifies c`calls, c`imageStore, c`nextUid
    ensures Step(c.State(), r) == Stages.EnsureImageStoreCreated(old(c.State()), namespace, part, ownerUid)
  {
    var key := ImageStoreKey(namespace, part);
    var got := c.GetImageStoreObject(key);
    match got
    case Success(o) => r := Success(o);
    case Failure(NotFound) => r := c.CreateImageStoreObject(key, ImageStoreObject(0, ownerUid, false));
    case Failure(e) => r := Failure(e);
  }

  /** The readiness stage shared by the image-store server and endpoint. */
  method IsImageStoreReady(c: Store, namespace: string, part: ImageStorePart) returns (r: Result<bool, Error>)
    modifies c`calls
    ensures Step(c.State(), r) == Stages.IsImageStoreReady(old(c.State()), namespace, part)
  {
    var got := c.GetImageStoreObject(ImageStoreKey(namespace, part));
    match got
    case Success(o) => r := Success(o.ready);
    case Failure(NotFound) => r := Success(false);
    case Failure(e) => r := Failure(e);
  }
}
