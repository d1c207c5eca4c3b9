/**
 * The ModelReconciler of internal/controller/model_controller.go as the Go code runs
 * it: methods on an object holding the store client, whose calls change the store in
 * place. Each method is proved to do exactly what the function of the same name in
 * module Reconciliation says; the properties of a pass are proved there.
 */
module Controller {
  import opened Wrappers
  import opened Resources
  import opened Client
  import Model
  import Reconciliation

  class ModelReconciler {
    const client: Store

    constructor (client: Store)
      ensures this.client == client
    {
      this.client := client;
    }

    method SetProgressing(m: Resources.Model) returns (r: Result<bool, Error>)
      modifies client`calls, client`models
      ensures Step(client.State(), r) == Reconciliation.SetProgressing(old(client.State()), m)
    {
      r := SetCondition(m, Progressing);
    }

    method SetAvailable(m: Resources.Model) returns (r: Result<bool, Error>)
      modifies client`calls, client`models
      ensures Step(client.State(), r) == Reconciliation.SetAvailable(old(client.State()), m)
    {
      r := SetCondition(m, Available);
    }

    /** The body SetProgressing and SetAvailable share: check, replace the list, write. */
    method SetCondition(m: Resources.Model, kind: ConditionType) returns (r: Result<bool, Error>)
      modifies client`calls, client`models
      ensures Step(client.State(), r) == Reconciliation.SetCondition(old(client.State()), m, kind)
    {
      if Reconciliation.HasCondition(m, kind) {
        return Success(false);
      }
      var written := client.UpdateModelStatus(m.(status := m.status.(conditions := [Condition(kind, ConditionTrue)])));
      if written.Failure? {
        return Failure(written.error);
      }
      r := Success(true);
    }

    method SetReplicas(m: Resources.Model, observed: Counters) returns (r: Result<bool, Error>)
      modifies client`calls, client`models
      ensures Step(client.State(), r) == Reconciliation.SetReplicas(old(client.State()), m, observed)
    {
      var written := client.UpdateModelStatus(m.(status := m.status.(counters := observed)));
      if written.Failure? {
        return Failure(written.error);
      }
      r := Success(true);
    }

    /**
     * One reconcile pass for the Model `req`, with the early returns of the Go code. Each
     * stage after the Progressing gate is a method of its own that ends by running the
     * next one, as the functions of module Reconciliation do.
     */
    method Reconcile(req: Key) returns (outcome: Reconciliation.Outcome)
      modifies client
      ensures Reconciliation.Pass(client.State(), outcome) == Reconciliation.Reconcile(old(client.State()), req)
    {
      ghost var w0 := client.State();
      var got := client.GetModel(req);
      if got.Failure? {
        return Reconciliation.IgnoreNotFound(got.error);
      }
      var m := got.value;
      assert Reconciliation.Reconcile(w0, req) == Reconciliation.GateOnProgressing(client.State(), req, m);

      if !Reconciliation.IsAvailable(m) {
        var hasSet := SetProgressing(m);
        if hasSet.Failure? {
          return Reconciliation.Failed(hasSet.error);
        }
        if hasSet.value {
          client.Eventf(m.key, ModelProgressing);
          return Reconciliation.RequeueAfter(Reconciliation.ProgressingDelay);
        }
      }
      outcome := ClaimImageStore(req, m);
    }

    /** The image-store volume claim. */
    method ClaimImageStore(req: Key, m: Resources.Model) returns (outcome: Reconciliation.Outcome)
      modifies client
      ensures Reconciliation.Pass(client.State(), outcome) == Reconciliation.ClaimImageStore(old(client.State()), req, m)
    {
      var claim := Model.EnsureImageStoreCreated(client, req.namespace, ImageStoreClaim, None);
      if claim.Failure? {
        return Reconciliation.Failed(claim.error);
      }
      outcome := StartImageStoreServer(req, m);
    }

    /** The image-store server. */
    method StartImageStoreServer(req: Key, m: Resources.Model) returns (outcome: Reconciliation.Outcome)
      modifies client
      ensures Reconciliation.Pass(client.State(), outcome) == Reconciliation.StartImageStoreServer(old(client.State()), req, m)
    {
      var server := Model.EnsureImageStoreCreated(client, req.namespace, ImageStoreServer, None);
      if server.Failure? {
        return Reconciliation.Failed(server.error);
      }
      outcome := AwaitImageStoreServer(req, m, server.value);
    }

    /** The gate on the image-store server's readiness. */
    method AwaitImageStoreServer(req: Key, m: Resources.Model, server: ImageStoreObject) returns (outcome: Reconciliation.Outcome)
      modifies client
      ensures Reconciliation.Pass(client.State(), outcome) == Reconciliation.AwaitImageStoreServer(old(client.State()), req, m, server)
    {
      var serverReady := Model.IsImageStoreReady(client, req.namespace, ImageStoreServer);
      if serverReady.Failure? {
        return Reconciliation.Failed(serverReady.error);
      }
      if !serverReady.value {
        return Reconciliation.RequeueAfter(Reconciliation.ReadinessDelay);
      }
      outcome := ProvideImageStoreEndpoint(req, m, server);
    }

    /** The image-store endpoint, owned by the server. */
    method ProvideImageStoreEndpoint(req: Key, m: Resources.Model, server: ImageStoreObject) returns (outcome: Reconciliation.Outcome)
      modifies client
      ensures Reconciliation.Pass(client.State(), outcome) == Reconciliation.ProvideImageStoreEndpoint(old(client.State()), req, m, server)
    {
      var endpoint := Model.EnsureImageStoreCreated(client, req.namespace, ImageStoreEndpoint, Some(server.uid));
      if endpoint.Failure? {
        return Reconciliation.Failed(endpoint.error);
      }
      outcome := AwaitImageStoreEndpoint(req, m);
    }

    /** The gate on the image-store endpoint's readiness. */
    method AwaitImageStoreEndpoint(req: Key, m: Resources.Model) returns (outcome: Reconciliation.Outcome)
      modifies client
      ensures Reconciliation.Pass(client.State(), outcome) == Reconciliation.AwaitImageStoreEndpoint(old(client.State()), req, m)
    {
      var endpointReady := Model.IsImageStoreReady(client, req.namespace, ImageStoreEndpoint);
      if endpointReady.Failure? {
        return Reconciliation.Failed(endpointReady.error);
      }
      if !endpointReady.value {
        return Reconciliation.RequeueAfter(Reconciliation.ReadinessDelay);
      }
      outcome := CreateDeployment(req, m);
    }

    /** The model Deployment. */
    method CreateDeployment(req: Key, m: Resources.Model) returns (outcome: Reconciliation.Outcome)
      modifies client
      ensures Reconciliation.Pass(client.State(), outcome) == Reconciliation.CreateDeployment(old(client.State()), req, m)
    {
      var deployment := Model.EnsureDeploymentCreated(client, req.namespace, req.name, m.spec.image, m.spec.replicas, m, m.key);
      if deployment.Failure? {
        return Reconciliation.Failed(deployment.error);
      }
      outcome := CorrectDrift(req, m, deployment.value);
    }

    /** The correction of a drifted replica count, which ends the pass. */
    method CorrectDrift(req: Key, m: Resources.Model, deployment: Deployment) returns (outcome: Reconciliation.Outcome)
      modifies client
      ensures Reconciliation.Pass(client.State(), outcome) == Reconciliation.CorrectDrift(old(client.State()), req, m, deployment)
    {
      var updated := Model.UpdateDeployment(client, m, m.key);
      if updated.Failure? {
        return Reconciliation.Failed(updated.error);
      }
      if updated.value {
        return Reconciliation.RequeueAfter(Reconciliation.ReadinessDelay);
      }
      outcome := AwaitDeployment(req, m, deployment);
    }

    /** The gate on the model Deployment's readiness. */
    method AwaitDeployment(req: Key, m: Resources.Model, deployment: Deployment) returns (outcome: Reconciliation.Outcome)
      modifies client
      ensures Reconciliation.Pass(client.State(), outcome) == Reconciliation.AwaitDeployment(old(client.State()), req, m, deployment)
    {
      var deploymentReady := Model.IsDeploymentReady(client, req.namespace, req.name, m.key);
      if deploymentReady.Failure? {
        return Reconciliation.Failed(deploymentReady.error);
      }
      if !deploymentReady.value {
        return Reconciliation.RequeueAfter(Reconciliation.ReadinessDelay);
      }
      outcome := CreateService(req, m, deployment);
    }

    /** The model Service. */
    method CreateService(req: Key, m: Resources.Model, deployment: Deployment) returns (outcome: Reconciliation.Outcome)
      modifies client
      ensures Reconciliation.Pass(client.State(), outcome) == Reconciliation.CreateService(old(client.State()), req, m, deployment)
    {
      var service := Model.EnsureServiceCreated(client, req.namespace, req.name, deployment, m.key);
      if service.Failure? {
        return Reconciliation.Failed(service.error);
      }
      outcome := AwaitService(req, m, deployment);
    }

    /** The gate on the model Service's cluster address. */
    method AwaitService(req: Key, m: Resources.Model, deployment: Deployment) returns (outcome: Reconciliation.Outcome)
      modifies client
      ensures Reconciliation.Pass(client.State(), outcome) == Reconciliation.AwaitService(old(client.State()), req, m, deployment)
    {
      var serviceReady := Model.IsServiceReady(client, req.namespace, req.name, m.key);
      if serviceReady.Failure? {
        return Reconciliation.Failed(serviceReady.error);
      }
      if !serviceReady.value {
        return Reconciliation.RequeueAfter(Reconciliation.ReadinessDelay);
      }
      outcome := Conclude(m, deployment.status);
    }

    /** The stale counters are written (and the pass stops), or else the Model is marked Available. */
    method Conclude(m: Resources.Model, observed: Counters) returns (outcome: Reconciliation.Outcome)
      modifies client
      ensures Reconciliation.Pass(client.State(), outcome) == Reconciliation.Conclude(old(client.State()), m, observed)
    {
      if Reconciliation.ShouldSetReplicas(m, observed) {
        var hasSet := SetReplicas(m, observed);
        if hasSet.Failure? {
          return Reconciliation.Failed(hasSet.error);
        }
        if hasSet.value {
          return Reconciliation.RequeueAfter(Reconciliation.ReadinessDelay);
        }
      }
      outcome := MarkAvailable(m);
    }

    /** SetAvailable, then the ModelAvailable event. */
    method MarkAvailable(m: Resources.Model) returns (outcome: Reconciliation.Outcome)
      modifies client
      ensures Reconciliation.Pass(client.State(), outcome) == Reconciliation.MarkAvailable(old(client.State()), m)
    {
      var available := SetAvailable(m);
      if available.Failure? {
        return Reconciliation.Failed(available.error);
      }
      client.Eventf(m.key, ModelAvailable);
      outcome := Reconciliation.Done;
    }
  }
}
