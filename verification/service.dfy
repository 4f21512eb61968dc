/**
  The read façade over the repository (server side) and the calls into the
  metadata service (client side).
 */
module Service {
  import opened Wrappers
  import opened KeyIndex
  import opened Rancher

  /** The server-side service: answers end-user reads from the repository. */
  datatype ServerService = ServerService(repository: MetadataCachingRepository) {

    /** serverService.Container: the repository's container, or nil and its error unchanged. */
    function Container(name: string): (r: Result<Rancher.Container, Error>)
      reads repository
      requires repository.Valid()
      ensures repository.ContainerByName(name).Failure? ==> r == Failure(repository.ContainerByName(name).error)
      ensures repository.ContainerByName(name).Success? ==> r == Success(repository.ContainerByName(name).value)
      ensures r == Failure(ErrContainerRepoEmpty) <==> repository.containers == []
      ensures r == Failure(ErrContainerNotFound) <==> repository.containers != [] && name !in KeysOf(repository.containers, NameOf)
    {
      var found := repository.ContainerByName(name);
      if found.Failure? then Failure(found.error) else Success(found.value)
    }

    /**
      serverService.Containers: the repository's list, or a nil list (not the
      repository's empty one) with the repository's error.
     */
    function Containers(): (r: Result<seq<Rancher.Container>, Error>)
      reads repository
      ensures r.Failure? <==> repository.Containers().err.Some?
      ensures r.Failure? ==> r == Failure(ErrContainerRepoEmpty)
      ensures r.Success? ==> r.value == repository.containers && r.value != []
    {
      var listing := repository.Containers();
      if listing.err.Some? then Failure(listing.err.value) else Success(listing.items)
    }
  }

  /** metadataGenericRequest: the subpath of the metadata service to query. */
  datatype MetadataGenericRequest = MetadataGenericRequest(subpath: string)

  const ContainersSubpath := "/containers"
  const HostsSubpath := "/hosts"

  /**
    The client-side service: the two metadata endpoints (remote calls, given
    here as functions from request to outcome).
   */
  datatype ClientService = ClientService(
    containersEndpoint: MetadataGenericRequest -> Result<seq<Container>, Error>,
    hostsEndpoint: MetadataGenericRequest -> Result<seq<Host>, Error>)
  {
    /** clientService.MetadataContainers: asks the containers endpoint for `/containers`. */
    function MetadataContainers(): (r: Result<seq<Container>, Error>)
      ensures r.Success? <==> containersEndpoint(MetadataGenericRequest("/containers")).Success?
      ensures r.Failure? ==> r.error == containersEndpoint(MetadataGenericRequest("/containers")).error
      ensures r.Success? ==> r.value == containersEndpoint(MetadataGenericRequest("/containers")).value
    {
      var res := containersEndpoint(MetadataGenericRequest(ContainersSubpath));
      if res.Failure? then Failure(res.error) else Success(res.value)
    }

    /** clientService.MetadataHosts: asks the hosts endpoint for `/hosts`. */
    function MetadataHosts(): (r: Result<seq<Host>, Error>)
      ensures r.Success? <==> hostsEndpoint(MetadataGenericRequest("/hosts")).Success?
      ensures r.Failure? ==> r.error == hostsEndpoint(MetadataGenericRequest("/hosts")).error
      ensures r.Success? ==> r.value == hostsEndpoint(MetadataGenericRequest("/hosts")).value
    {
      var res := hostsEndpoint(MetadataGenericRequest(HostsSubpath));
      if res.Failure? then Failure(res.error) else Success(res.value)
    }
  }
}
