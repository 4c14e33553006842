/**
 The two service objects the broker registers, and the collaborators they
 change: the `RestTemplate` through which every backend request goes, and
 the `HashMap` the binding credentials are copied into.
 */
module Services {
  import opened Results
  import opened Plans
  import opened Adapter

  /**
   The HTTP client. It records every request exchanged; the backend's answer
   to a request may depend on everything sent before it, and is otherwise
   unknown to the broker.
   */
  class RestTemplate {
    const backend: (seq<Request>, Request) -> Reply
    var sent: seq<Request>

    constructor (backend: (seq<Request>, Request) -> Reply)
      ensures this.backend == backend && sent == []
    {
      this.backend := backend;
      sent := [];
    }

    /** `exchange`: send one request and return the backend's reply to it. */
    method Exchange(r: Request) returns (reply: Reply)
      modifies this
      ensures sent == old(sent) + [r]
      ensures reply == backend(old(sent), r)
    {
      reply := backend(sent, r);
      sent := sent + [r];
    }
  }

  /** The `HashMap` create-binding fills: a copy of the backend's body, then one `put`. */
  class CredentialMap {
    var entries: Credentials

    /** `new HashMap<>(body)`. */
    constructor Copy(body: Credentials)
      ensures entries == body
    {
      entries := body;
    }

    method Put(key: string, value: Value)
      modifies this
      ensures entries == old(entries)[key := value]
    {
      entries := entries[key := value];
    }
  }

  /** The `ServiceInstanceService`. */
  class InstanceService {
    const props: Config
    const rest: RestTemplate

    constructor (props: Config, rest: RestTemplate)
      ensures this.props == props && this.rest == rest
    {
      this.props := props;
      this.rest := rest;
    }

    /**
     Resolve the plan first; an unknown plan fails before anything is sent.
     Otherwise post one create request, and report any failure as a conflict.
     */
    method CreateServiceInstance(request: CreateInstanceRequest) returns (r: Result<(), BrokerError>)
      modifies rest
      ensures ResolvePlan(request.planId).Err? ==>
                r == Err(UnknownPlan(ResolvePlan(request.planId).error)) && rest.sent == old(rest.sent)
      ensures ResolvePlan(request.planId).Ok? ==>
                var call := CreateInstanceCall(props, request.serviceInstanceId, ResolvePlan(request.planId).value);
                && rest.sent == old(rest.sent) + [call]
                && r == CreateInstanceOutcome(request, rest.backend(old(rest.sent), call))
    {
      match ResolvePlan(request.planId)
      case Err(e) =>
        r := Err(UnknownPlan(e));
      case Ok(t) =>
        var reply := rest.Exchange(CreateInstanceCall(props, request.serviceInstanceId, t));
        r := CreateInstanceOutcome(request, reply);
    }

    /** No backend call: provisioning is synchronous, so the last operation has succeeded. */
    method GetLastOperation(serviceInstanceId: string) returns (state: OperationState)
      ensures state == Succeeded
    {
      state := Succeeded;
    }

    /** Delete one instance; a backend failure is rethrown as it is. */
    method DeleteServiceInstance(request: DeleteInstanceRequest) returns (r: Result<(), BrokerError>)
      modifies rest
      ensures rest.sent == old(rest.sent) + [DeleteInstanceCall(props, request.serviceInstanceId)]
      ensures r == Propagate(rest.backend(old(rest.sent), DeleteInstanceCall(props, request.serviceInstanceId)))
    {
      var reply := rest.Exchange(DeleteInstanceCall(props, request.serviceInstanceId));
      r := Propagate(reply);
    }

    /** No backend call; every update succeeds with an empty response. */
    method UpdateServiceInstance(serviceInstanceId: string, planId: string) returns (r: Result<(), BrokerError>)
      ensures r == Ok(())
    {
      r := Ok(());
    }
  }

  /** The `ServiceInstanceBindingService`. */
  class BindingService {
    const props: Config
    const rest: RestTemplate

    constructor (props: Config, rest: RestTemplate)
      ensures this.props == props && this.rest == rest
    {
      this.props := props;
      this.rest := rest;
    }

    /**
     Post one credentials request; on success copy the body into a fresh map
     and put the instance's `uri` into it; a backend failure is rethrown as it is.
     */
    method CreateServiceInstanceBinding(request: CreateBindingRequest) returns (r: Result<Credentials, BrokerError>)
      modifies rest
      ensures rest.sent == old(rest.sent) + [CreateBindingCall(props, request.serviceInstanceId, request.bindingId)]
      ensures r == BindingOutcome(props, request.serviceInstanceId,
                                  rest.backend(old(rest.sent), CreateBindingCall(props, request.serviceInstanceId, request.bindingId)))
    {
      var reply := rest.Exchange(CreateBindingCall(props, request.serviceInstanceId, request.bindingId));
      if reply.Threw? {
        r := Err(Transport(reply.error));
      } else if reply.body.None? {
        r := Err(NullBody);
      } else {
        var credentials := new CredentialMap.Copy(reply.body.value);
        credentials.Put("uri", Str(InstanceUri(props, request.serviceInstanceId)));
        r := Ok(credentials.entries);
      }
    }

    /** Delete one binding; a backend failure is rethrown as it is. */
    method DeleteServiceInstanceBinding(request: DeleteBindingRequest) returns (r: Result<(), BrokerError>)
      modifies rest
      ensures rest.sent == old(rest.sent) + [DeleteBindingCall(props, request.serviceInstanceId, request.bindingId)]
      ensures r == Propagate(rest.backend(old(rest.sent), DeleteBindingCall(props, request.serviceInstanceId, request.bindingId)))
    {
      var reply := rest.Exchange(DeleteBindingCall(props, request.serviceInstanceId, request.bindingId));
      r := Propagate(reply);
    }
  }
}
