/** The server endpoints: pack a service result into a response record carrying the business error. */
module Endpoints {
  import opened Wrappers
  import opened Rancher
  import opened Service

  /** containerRequest: the name taken from the URL path. */
  datatype ContainerRequest = ContainerRequest(name: string)

  /**
    containerResponse and containersResponse. The shared field `err` is what
    each type's `error()` accessor returns.
   */
  datatype ServerResponse =
    | ContainerResponse(container: Container?, err: Option<Error>)
    | ContainersResponse(containers: Option<seq<Container>>, err: Option<Error>)

  /** What an endpoint returns: a response and the endpoint's own error. */
  datatype EndpointReply = EndpointReply(response: ServerResponse, err: Option<Error>)

  /**
    ContainerEndpoint: the service's container (nil on error) and error go
    into the response; the endpoint itself never fails.
   */
  function ContainerEndpoint(s: ServerService, req: ContainerRequest): (r: EndpointReply)
    reads s.repository
    requires s.repository.Valid()
    ensures r.err == None && r.response.ContainerResponse?
    ensures s.Container(req.name).Failure? ==>
      r.response == ContainerResponse(null, Some(s.Container(req.name).error))
    ensures s.Container(req.name).Success? ==>
      r.response == ContainerResponse(s.Container(req.name).value, None)
  {
    var found := s.Container(req.name);
    var response :=
      if found.Failure? then ContainerResponse(null, Some(found.error))
      else ContainerResponse(found.value, None);
    EndpointReply(response, None)
  }

  /**
    ContainersEndpoint: the service's list (nil on error) and error go into
    the response; the endpoint itself never fails.
   */
  function ContainersEndpoint(s: ServerService): (r: EndpointReply)
    reads s.repository
    ensures r.err == None && r.response.ContainersResponse?
    ensures s.Containers().Failure? ==>
      r.response == ContainersResponse(None, Some(s.Containers().error))
    ensures s.Containers().Success? ==>
      r.response == ContainersResponse(Some(s.Containers().value), None)
  {
    var listed := s.Containers();
    var response :=
      if listed.Failure? then ContainersResponse(None, Some(listed.error))
      else ContainersResponse(Some(listed.value), None);
    EndpointReply(response, None)
  }
}
