# Rancher metadata cache, modelled in Dafny

This project models the in-memory metadata cache of rancher-management-service and the thin layers that turn its answers into HTTP outcomes.

The cache is `metadataCachingRepository`. It keeps two snapshots of the Rancher metadata service. Each snapshot is a list plus an index:

- containers, indexed by `Name`;
- hosts, indexed by `UUID`.

A refresh replaces a list and its index together, and only when the fetch succeeds. After each refresh cycle, every container whose host UUID is in the host index gets that host's name; the others keep the name they had.

The layers around the cache are:

- the read façade (`serverService`) and the metadata client (`clientService`);
- the endpoints, which pack a service result and its business error into a response record;
- the HTTP transport, which maps business errors to 404, 424 or 500 and builds the upstream request path.

Modules and files:

- `wrappers.dfy` (`Wrappers`): `Option` and `Result`. Go's `(v, nil)` / `(nil, err)` pairs become `Success(v)` / `Failure(err)`.
- `index.dfy` (`KeyIndex`): `IndexBy`, the index a refresh builds. The list is walked in order and each element is stored under its key, so the last element with a key wins. Also its characterisation lemmas.
- `rancher.dfy` (`Rancher`): the business errors, `Host` (a value), `Container` (a class), the two `UnmarshalJSON` decoders and the repository class `MetadataCachingRepository`.
- `service.dfy` (`Service`): `ServerService` and `ClientService`.
- `endpoints.dfy` (`Endpoints`): the request and response records and the two server endpoints.
- `transport.dfy` (`Transport`): the error encoder, the response encoder, the container-request decoder, the two handlers and the outgoing metadata request.
- `scenarios.dfy` (`Scenarios`): client methods that walk through the package's test cases. Their expected outcomes are assertions proved from the contracts.

Modelling choices:

- `Container` is a class, because the list and the index share the same container objects and enrichment writes `Host.Name` through them. Only the embedded host is a `var`. The other fields are `const`, because nothing writes them after decoding. The repository invariant `Valid()` (each index equals `IndexBy` of its list) therefore reads only the repository.
- Hosts are never written after decoding, so `*Host` is modelled as the value `Host`.
- A refresh takes the outcome of the client's `MetadataContainers()` / `MetadataHosts()` call as a parameter.
- One cycle of `cachePopulateEvery` runs sequentially: refresh hosts, refresh containers, then enrich. The two refreshes touch disjoint fields, so their order does not matter.
- `NewMetadataCachingRepository` builds the empty repository (the constructor) and runs the first cycle before it returns (`New`).
- The business errors are datatype constructors. Go compares them by identity, so a `Custom` error with the same text as a sentinel is still a different error, and it maps to status 500.

## Model

| member | source | states |
|---|---|---|
| `Rancher.Error.Message` | src/github.com/martinbaillie/rancher-management-service/rancher/rancher.go:19-30 | a sentinel's message is its fixed non-empty text (e.g. "container repository is empty"); any other error's message is its own text |
| `KeyIndex.IndexBy` | src/github.com/martinbaillie/rancher-management-service/rancher/rancher.go:188-191 | the reference definition of the map-building loop: each element is stored under its key in list order; every entry is a list element stored under its own key |
| `KeyIndex.IndexByKeys` | src/github.com/martinbaillie/rancher-management-service/rancher/rancher.go:188-191 | the index built from a list has exactly the keys of the list's elements |
| `KeyIndex.IndexByLastWins` | src/github.com/martinbaillie/rancher-management-service/rancher/rancher.go:229-232 | the index entry for a key is the last element of the list with that key (last write wins) |
| `KeyIndex.IndexByEntry` | src/github.com/martinbaillie/rancher-management-service/rancher/rancher.go:167-171 | every index entry is an element of the list, the last one with that key |
| `KeyIndex.IndexByEmpty` | src/github.com/martinbaillie/rancher-management-service/rancher/rancher.go:165 | the index is empty exactly when the list is empty, so `len(map) == 0` means "repository empty" |
| `Rancher.StringAt` | src/github.com/martinbaillie/rancher-management-service/rancher/rancher.go:86-88 | `data[key].(string)`: succeeds exactly when the value is a string, returning it; an absent, null or non-string value panics, naming the key |
| `Rancher.OptionalStringAt` | src/github.com/martinbaillie/rancher-management-service/rancher/rancher.go:90-96 | the nil-guarded assertion: an absent or null value is skipped, a string is returned, any other value panics, naming the key |
| `Rancher.UnmarshalContainer` | src/github.com/martinbaillie/rancher-management-service/rancher/rancher.go:80-99 | decoding succeeds exactly when `name`, `state` and `primary_ip` are strings and `service_index` and `host_uuid` are strings or absent/null; the strings are copied; an absent `service_index` gives 0 and an absent `host_uuid` gives ""; the host name stays empty; a failure names the first key, in source order, whose string assertion panics |
| `Rancher.UnmarshalHost` | src/github.com/martinbaillie/rancher-management-service/rancher/rancher.go:120-130 | decoding succeeds exactly when `uuid` and `name` are strings, and copies them; otherwise it names the first key that panics |
| `Rancher.UnmarshalContainerRoundTrip` | src/github.com/martinbaillie/rancher-management-service/rancher/rancher.go:86-96 | the object the metadata service sends for a container decodes back to that container |
| `Rancher.Container.constructor` | src/github.com/martinbaillie/rancher-management-service/rancher/rancher.go:49-71 | a new container object holds exactly the decoded field values |
| `Rancher.MetadataCachingRepository.constructor` | src/github.com/martinbaillie/rancher-management-service/rancher/rancher.go:139-147 | the new repository has empty container and host lists and maps, and the invariant holds |
| `Rancher.MetadataCachingRepository.ContainerByName` | src/github.com/martinbaillie/rancher-management-service/rancher/rancher.go:164-172 | `ErrContainerRepoEmpty` exactly when the list is empty, whatever the name; `ErrContainerNotFound` exactly when the list is non-empty and no listed container has the name (including ""); otherwise the last listed container with that name |
| `Rancher.MetadataCachingRepository.Containers` | src/github.com/martinbaillie/rancher-management-service/rancher/rancher.go:175-180 | returns the current list unchanged, with `ErrContainerRepoEmpty` exactly when it is empty |
| `Rancher.MetadataCachingRepository.RefreshContainers` | src/github.com/martinbaillie/rancher-management-service/rancher/rancher.go:183-201 | a failed fetch leaves list and map exactly as they were; a successful one makes the list the fetched list and the map its last-write-wins index, together; the hosts are untouched; the invariant is kept |
| `Rancher.MetadataCachingRepository.HostByUUID` | src/github.com/martinbaillie/rancher-management-service/rancher/rancher.go:204-212 | `ErrHostRepoEmpty` exactly when the host list is empty; `ErrHostNotFound` exactly when it is non-empty and no host has the UUID; otherwise the last listed host with that UUID |
| `Rancher.MetadataCachingRepository.Hosts` | src/github.com/martinbaillie/rancher-management-service/rancher/rancher.go:215-220 | returns the current host list unchanged, with `ErrHostRepoEmpty` exactly when it is empty |
| `Rancher.MetadataCachingRepository.RefreshHosts` | src/github.com/martinbaillie/rancher-management-service/rancher/rancher.go:223-242 | a failed fetch leaves host list and map as they were; a successful one installs the fetched list and its UUID index together; the containers are untouched |
| `Rancher.MetadataCachingRepository.JoinedHost` | src/github.com/martinbaillie/rancher-management-service/rancher/rancher.go:257-260 | the enriched host keeps its UUID; it takes the name of the last listed host with that UUID when there is one, and is unchanged otherwise (unknown UUID or empty host repository) |
| `Rancher.MetadataCachingRepository.EnrichContainers` | src/github.com/martinbaillie/rancher-management-service/rancher/rancher.go:254-261 | every container object of the current list ends with its joined host: the matched host's name where the lookup succeeds, its old host otherwise; lists, maps and other fields do not change |
| `Rancher.MetadataCachingRepository.PopulateOnce` | src/github.com/martinbaillie/rancher-management-service/rancher/rancher.go:245-261 | after one cycle each list is the fetched one if its own fetch succeeded and the old one otherwise (failures are isolated); every current container carries its joined host; containers dropped by the refresh are not written |
| `Rancher.MetadataCachingRepository.New` | src/github.com/martinbaillie/rancher-management-service/rancher/rancher.go:138-150 | a new repository after its first cycle holds the successfully fetched lists (empty where the fetch failed), enriched |
| `Rancher.EmptyRepositoryReportsEmpty` | src/github.com/martinbaillie/rancher-management-service/rancher/rancher.go:139-147 | a repository with no containers and no hosts answers both bulk reads and every point lookup with the RepoEmpty errors |
| `Rancher.ContainerByNameFindsListed` | src/github.com/martinbaillie/rancher-management-service/rancher/rancher_test.go:271-275 | when the listed names are distinct, each listed container is found by its own name, with no error |
| `Rancher.HostByUUIDFindsListed` | src/github.com/martinbaillie/rancher-management-service/rancher/rancher_test.go:289-293 | when the listed UUIDs are distinct, each listed host is found by its own UUID, with no error |
| `Service.ServerService.Container` | src/github.com/martinbaillie/rancher-management-service/rancher/service.go:39-45 | passes the repository's error through unchanged with no container, or returns the repository's container with no error; empty and not-found as for the repository |
| `Service.ServerService.Containers` | src/github.com/martinbaillie/rancher-management-service/rancher/service.go:49-55 | fails with `ErrContainerRepoEmpty` and a nil list exactly when the repository list is empty; otherwise returns the repository list as it is |
| `Service.ClientService.MetadataContainers` | src/github.com/martinbaillie/rancher-management-service/rancher/service.go:80-86 | asks the containers endpoint for subpath `/containers` and returns its list, or nil and its error |
| `Service.ClientService.MetadataHosts` | src/github.com/martinbaillie/rancher-management-service/rancher/service.go:91-97 | asks the hosts endpoint for subpath `/hosts` and returns its list, or nil and its error |
| `Endpoints.ContainerEndpoint` | src/github.com/martinbaillie/rancher-management-service/rancher/endpoints.go:72-81 | the endpoint's own error is always nil; the response carries the service's container (nil on error) and the service's error, which is what the response's `error()` accessor returns |
| `Endpoints.ContainersEndpoint` | src/github.com/martinbaillie/rancher-management-service/rancher/endpoints.go:106-116 | the endpoint's own error is always nil; the response carries the service's list (nil on error) and the service's error |
| `Transport.EncodeHTTPError` | src/github.com/martinbaillie/rancher-management-service/rancher/transport.go:152-172 | a nil error panics; the two not-found errors give 404, the two repo-empty errors give 424 and every other error gives 500 (each an if-and-only-if); the body's `Error` is the error's message; the content type is JSON |
| `Transport.EncodeHTTPGenericResponse` | src/github.com/martinbaillie/rancher-management-service/rancher/transport.go:142-150 | never panics; a response whose `error()` is non-nil is encoded exactly as that error; otherwise the response is the body, with status 200 and the JSON content type |
| `Transport.DecodeHTTPContainerRequest` | src/github.com/martinbaillie/rancher-management-service/rancher/transport.go:128-138 | succeeds exactly when the `name` path variable is present and non-empty, with a request carrying that name; otherwise fails with the "failed to extract container name from URL" error |
| `Transport.ServeContainer` | src/github.com/martinbaillie/rancher-management-service/rancher/transport.go:106-113 | end to end for GET /containers/{name}: 500 without a name, 424 on an empty cache, 404 for a name absent from a populated cache, otherwise 200 with the last listed container of that name |
| `Transport.ServeContainers` | src/github.com/martinbaillie/rancher-management-service/rancher/transport.go:83-90 | end to end for GET /containers: 424 with the repo-empty message on an empty cache, otherwise 200 with the whole list |
| `Transport.EncodeMetadataGenericRequest` | src/github.com/martinbaillie/rancher-management-service/rancher/transport.go:192-202 | the new URL path is the old path followed by the subpath; the `Accept` header is set to `application/json` and the other headers are kept; it never fails |

## Left out

- The concurrency of `cachePopulateEvery` is not modelled: the goroutines, the `WaitGroup`, the channel hand-off in the refreshes and the `time.AfterFunc` rescheduling. One cycle runs sequentially, and each list-plus-map swap is a single assignment. Readers racing with enrichment and later scheduled cycles are not modelled.
- The remote fetch is not modelled: go-kit's HTTP client, the response decoders, Hystrix circuit breaking and tracing. A fetch is a parameter (a list, or a failure), and each client endpoint is a function from request to outcome.
- Byte-level JSON is not modelled. The decoders start from an already-decoded key/value object.
- The decoders are not connected to the fetch: a refresh receives already-built containers and hosts. A decode panic is represented only as a `TypeAssertionPanic` value. In Go such a panic escapes the JSON decoder inside the client, so it is not a fetch error and does not take the "snapshot kept" path.
- `strconv.ParseInt` is not modelled. `UnmarshalContainer` takes it as the parameter `parseInt`, and the error it discards is not represented.
- `DecodeHTTPContainersRequest` is not modelled, because it decodes the request body as JSON. `ServeContainers` assumes the empty body decodes.
- Response writing is not modelled: `ResponseWriter` writes, headers other than the content type, JSON encoding errors, and the go-kit server's error-logging option. Handlers return the status and body values they would write.
- The `interface{}` type assertions on requests and endpoint responses are not modelled. The records are typed, so those assertions cannot fail.
- Go's distinction between a nil slice and an empty slice is modelled only at the service and endpoint layers (`None` for nil). The repository's lists are plain sequences.
- `main.go`, `logging.go`, `instrumentation.go` and the `swagger` package are not part of this model: flags, logging, metrics, servers and documentation.
