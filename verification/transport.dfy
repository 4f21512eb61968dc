/**
  The HTTP transport: decoding the container request, turning responses and
  business errors into a status and a body, the two server handlers, and the
  outgoing request to the metadata service.
 */
module Transport {
  import opened Wrappers
  import opened KeyIndex
  import opened Rancher
  import opened Service
  import opened Endpoints

  const StatusOK := 200
  const StatusNotFound := 404
  const StatusFailedDependency := 424
  const StatusInternalServerError := 500
  const JsonContentType := "application/json; charset=utf-8"

  /** httpErrorBody: the error's message (the only field sent) and the status. */
  datatype HttpErrorBody = HttpErrorBody(error: string, status: int)

  datatype Body = ErrorBody(errorBody: HttpErrorBody) | PayloadBody(response: ServerResponse)

  /** What is written to the ResponseWriter: status, Content-Type and the JSON body's value. */
  datatype HttpReply = HttpReply(status: int, contentType: string, body: Body)

  /** A handler either writes a reply or panics. */
  datatype Outcome = Replied(reply: HttpReply) | Panicked(reason: string)

  /**
    encodeHTTPError: nil panics; the not-found errors give 404, the
    empty-repository errors 424, every other error 500, and the body carries
    the error's message.
   */
  function EncodeHTTPError(err: Option<Error>): (r: Outcome)
    ensures r.Panicked? <==> err.None?
    ensures r.Replied? ==>
      && r.reply.contentType == JsonContentType
      && r.reply.body == ErrorBody(HttpErrorBody(err.value.Message(), r.reply.status))
    ensures r.Replied? ==>
      (r.reply.status == StatusNotFound <==> err.value in {ErrContainerNotFound, ErrHostNotFound})
    ensures r.Replied? ==>
      (r.reply.status == StatusFailedDependency <==> err.value in {ErrContainerRepoEmpty, ErrHostRepoEmpty})
    ensures r.Replied? ==>
      (r.reply.status == StatusInternalServerError <==>
        err.value !in {ErrContainerNotFound, ErrHostNotFound, ErrContainerRepoEmpty, ErrHostRepoEmpty})
  {
    if err.None? then
      Panicked("encodeError with nil error")
    else
      var status :=
        match err.value
        case ErrContainerNotFound | ErrHostNotFound => StatusNotFound
        case ErrContainerRepoEmpty | ErrHostRepoEmpty => StatusFailedDependency
        case _ => StatusInternalServerError;
      Replied(HttpReply(status, JsonContentType, ErrorBody(HttpErrorBody(err.value.Message(), status))))
  }

  /**
    EncodeHTTPGenericResponse: a response carrying an error is encoded as
    that error; otherwise the response itself is the body, with status 200.
   */
  function EncodeHTTPGenericResponse(response: ServerResponse): (r: Outcome)
    ensures r.Replied?
    ensures response.err.Some? ==> r == EncodeHTTPError(response.err)
    ensures response.err.None? ==> r.reply == HttpReply(StatusOK, JsonContentType, PayloadBody(response))
  {
    if response.err.Some? then
      EncodeHTTPError(response.err)
    else
      Replied(HttpReply(StatusOK, JsonContentType, PayloadBody(response)))
  }

  /** The message of the error DecodeHTTPContainerRequest makes. */
  const NoContainerNameMessage := "failed to extract container name from URL"

  /**
    DecodeHTTPContainerRequest: `vars` are the path variables of the route;
    an absent or empty `name` is an error.
   */
  function DecodeHTTPContainerRequest(vars: map<string, string>): (r: Result<ContainerRequest, Error>)
    ensures r.Success? <==> "name" in vars && vars["name"] != ""
    ensures r.Success? ==> r.value == ContainerRequest(vars["name"])
    ensures r.Failure? ==> r.error == Custom(NoContainerNameMessage)
  {
    var name := if "name" in vars then vars["name"] else "";
    if name == "" then Failure(Custom(NoContainerNameMessage)) else Success(ContainerRequest(name))
  }

  /**
    The handler for GET /containers/{name}: decode the request, call the
    endpoint, encode the response; a decode error goes to encodeHTTPError
    (the endpoint's own error is always nil). End to end: 500 without a
    name, 424 on an empty repository, 404 for an unknown name, otherwise 200
    with the last listed container of that name.
   */
  function ServeContainer(s: ServerService, vars: map<string, string>): (r: Outcome)
    reads s.repository
    requires s.repository.Valid()
    ensures r.Replied?
    ensures ("name" !in vars || vars["name"] == "") ==>
      r.reply.status == StatusInternalServerError
    ensures "name" in vars && vars["name"] != "" && s.repository.containers == [] ==>
      r.reply.status == StatusFailedDependency
    ensures "name" in vars && vars["name"] != "" && s.repository.containers != []
            && vars["name"] !in KeysOf(s.repository.containers, NameOf) ==>
      r.reply.status == StatusNotFound
    ensures "name" in vars && vars["name"] != "" && vars["name"] in KeysOf(s.repository.containers, NameOf) ==>
      && r.reply.status == StatusOK
      && r.reply.body.PayloadBody?
      && r.reply.body.response.ContainerResponse?
      && exists i :: IsLastWithKey(s.repository.containers, NameOf, vars["name"], i) &&
                     r.reply.body.response.container == s.repository.containers[i]
  {
    match DecodeHTTPContainerRequest(vars)
    case Failure(e) => EncodeHTTPError(Some(e))
    case Success(req) =>
      // the endpoint's own error is always nil, so its response goes straight to the encoder
      EncodeHTTPGenericResponse(ContainerEndpoint(s, req).response)
  }

  /**
    The handler for GET /containers (its empty request body always decodes
    and the endpoint's own error is always nil):
    424 on an empty repository, otherwise 200 with the whole list.
   */
  function ServeContainers(s: ServerService): (r: Outcome)
    reads s.repository
    ensures r.Replied?
    ensures s.repository.containers == [] ==>
      r.reply == HttpReply(StatusFailedDependency, JsonContentType,
                           ErrorBody(HttpErrorBody("container repository is empty", StatusFailedDependency)))
    ensures s.repository.containers != [] ==>
      r.reply == HttpReply(StatusOK, JsonContentType,
                           PayloadBody(ContainersResponse(Some(s.repository.containers), None)))
  {
    EncodeHTTPGenericResponse(ContainersEndpoint(s).response)
  }

  /** The outgoing request to the metadata service: its URL path and headers. */
  class HttpRequest {
    var urlPath: string
    var header: map<string, seq<string>>

    constructor (urlPath: string)
      ensures this.urlPath == urlPath && header == map[]
    {
      this.urlPath := urlPath;
      header := map[];
    }
  }

  /**
    encodeMetadataGenericRequest: asks for JSON and appends the subpath to
    the base URL path; it never fails.
   */
  method EncodeMetadataGenericRequest(r: HttpRequest, req: MetadataGenericRequest) returns (err: Option<Error>)
    modifies r
    ensures err == None
    ensures r.header == old(r.header)["Accept" := ["application/json"]]
    ensures r.urlPath == old(r.urlPath) + req.subpath
  {
    r.header := r.header["Accept" := ["application/json"]];
    r.urlPath := r.urlPath + req.subpath;
    err := None;
  }
}
