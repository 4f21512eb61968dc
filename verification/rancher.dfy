/**
  The metadata caching repository of the Rancher package: the business errors,
  the container and host entities, their decoding from the metadata service's
  JSON objects, and the repository that keeps one list-plus-index snapshot per
  entity kind, refreshes each from a fetch and copies host names onto
  containers.
 */
module Rancher {
  import opened Wrappers
  import opened KeyIndex

  /** The package's business errors (sentinels compared by identity) and any other error. */
  datatype Error =
    | ErrContainerNotFound
    | ErrContainerRepoEmpty
    | ErrHostNotFound
    | ErrHostRepoEmpty
    | ErrNotImplemented
    | Custom(text: string)  // an error made elsewhere, e.g. by errors.New; never equal to a sentinel
  {
    /** The error's message, as Go's `Error()` returns it. */
    function Message(): (m: string)
      ensures Custom? ==> m == text
      ensures !Custom? ==> m != ""
    {
      match this
      case ErrContainerNotFound => "container not found"
      case ErrContainerRepoEmpty => "container repository is empty"
      case ErrHostNotFound => "host not found"
      case ErrHostRepoEmpty => "host repository is empty"
      case ErrNotImplemented => "not implemented"
      case Custom(text) => text
    }
  }

  /** Go's int64. */
  newtype Int64 = x: int | -0x8000_0000_0000_0000 <= x < 0x8000_0000_0000_0000

  /** A Rancher host; also embedded by value in every container. */
  datatype Host = Host(uuid: string, name: string)

  /** The field values of a Rancher container. */
  datatype ContainerRecord = ContainerRecord(
    name: string,
    state: string,
    privateIP: string,
    serviceIndex: Int64,  // 0: the container is orphaned on its host
    host: Host)

  /**
    A container object. The list and the index of the repository share these
    objects; after decoding, only the embedded host (its name) is ever written.
   */
  class Container {
    const name: string
    const state: string
    const privateIP: string
    const serviceIndex: Int64
    var host: Host

    /** Allocates a container holding the decoded values `r`. */
    constructor (r: ContainerRecord)
      ensures name == r.name && state == r.state && privateIP == r.privateIP
      ensures serviceIndex == r.serviceIndex && host == r.host
    {
      name, state, privateIP, serviceIndex := r.name, r.state, r.privateIP, r.serviceIndex;
      host := r.host;
    }
  }

  /** The key of the container index. */
  function NameOf(c: Container): string {
    c.name
  }

  /** The key of the host index. */
  function UuidOf(h: Host): string {
    h.uuid
  }

  // ---------------------------------------------------------------------------
  // Decoding of the metadata service's objects
  // ---------------------------------------------------------------------------

  /** A value of a decoded JSON object (`interface{}` in Go). */
  datatype JsonValue =
    | JNull
    | JBool(b: bool)
    | JNumber(literal: string)
    | JString(s: string)
    | JArray(elems: seq<JsonValue>)
    | JObject(fields: map<string, JsonValue>)

  /** A decoded JSON object (`map[string]interface{}`). */
  type JsonObject = map<string, JsonValue>

  /** Why decoding stopped: the unchecked `.(string)` assertion on `key` panicked. */
  datatype DecodeError = TypeAssertionPanic(key: string)

  /** Go's `data[key]`: an absent key reads as nil, like JSON null. */
  function Get(data: JsonObject, key: string): JsonValue {
    if key in data then data[key] else JNull
  }

  /** `data[key].(string)`: panics unless the value is a string. */
  function StringAt(data: JsonObject, key: string): (r: Result<string, DecodeError>)
    ensures r.Success? <==> Get(data, key).JString?
    ensures r.Success? ==> Get(data, key) == JString(r.value)
    ensures r.Failure? ==> r.error == TypeAssertionPanic(key)
  {
    match Get(data, key)
    case JString(s) => Success(s)
    case _ => Failure(TypeAssertionPanic(key))
  }

  /** `if v := data[key]; v != nil { ... v.(string) ... }`: nil is skipped, a non-string panics. */
  function OptionalStringAt(data: JsonObject, key: string): (r: Result<Option<string>, DecodeError>)
    ensures r == Success(None) <==> Get(data, key) == JNull
    ensures r.Success? && r.value.Some? <==> Get(data, key).JString?
    ensures r.Success? && r.value.Some? ==> Get(data, key) == JString(r.value.value)
    ensures r.Failure? ==> r.error == TypeAssertionPanic(key)
  {
    match Get(data, key)
    case JNull => Success(None)
    case JString(s) => Success(Some(s))
    case _ => Failure(TypeAssertionPanic(key))
  }

  /**
    Container.UnmarshalJSON applied to a freshly allocated (zero) container:
    `name`, `state` and `primary_ip` are required strings; `service_index`
    (decimal text, converted by `parseInt`, which stands for
    strconv.ParseInt(s, 10, 64) with its error discarded) and `host_uuid` are
    optional; the host name is never set here.
   */
  function UnmarshalContainer(data: JsonObject, parseInt: string -> Int64): (r: Result<ContainerRecord, DecodeError>)
    ensures r.Success? <==>
      && Get(data, "name").JString?
      && Get(data, "state").JString?
      && Get(data, "primary_ip").JString?
      && (Get(data, "service_index").JNull? || Get(data, "service_index").JString?)
      && (Get(data, "host_uuid").JNull? || Get(data, "host_uuid").JString?)
    ensures r.Success? ==>
      && Get(data, "name") == JString(r.value.name)
      && Get(data, "state") == JString(r.value.state)
      && Get(data, "primary_ip") == JString(r.value.privateIP)
      && (Get(data, "service_index").JString? ==> r.value.serviceIndex == parseInt(Get(data, "service_index").s))
      && (Get(data, "service_index").JNull? ==> r.value.serviceIndex == 0)
      && (Get(data, "host_uuid").JString? ==> r.value.host.uuid == Get(data, "host_uuid").s)
      && (Get(data, "host_uuid").JNull? ==> r.value.host.uuid == "")
      && r.value.host.name == ""
    // the keys are asserted in source order, so the first ill-typed one is reported
    ensures !Get(data, "name").JString? ==> r == Failure(TypeAssertionPanic("name"))
    ensures Get(data, "name").JString? && !Get(data, "state").JString? ==> r == Failure(TypeAssertionPanic("state"))
    ensures Get(data, "name").JString? && Get(data, "state").JString? && !Get(data, "primary_ip").JString? ==>
      r == Failure(TypeAssertionPanic("primary_ip"))
    ensures Get(data, "name").JString? && Get(data, "state").JString? && Get(data, "primary_ip").JString? ==>
      && (!(Get(data, "service_index").JNull? || Get(data, "service_index").JString?) ==>
            r == Failure(TypeAssertionPanic("service_index")))
      && (r.Failure? && (Get(data, "service_index").JNull? || Get(data, "service_index").JString?) ==>
            r == Failure(TypeAssertionPanic("host_uuid")))
  {
    var name :- StringAt(data, "name");
    var state :- StringAt(data, "state");
    var privateIP :- StringAt(data, "primary_ip");
    var serviceIndex :- OptionalStringAt(data, "service_index");
    var hostUuid :- OptionalStringAt(data, "host_uuid");
    Success(ContainerRecord(
      name, state, privateIP,
      if serviceIndex.Some? then parseInt(serviceIndex.value) else 0,
      Host(hostUuid.GetOr(""), "")))
  }

  /** Host.UnmarshalJSON applied to a zero host: `uuid` and `name` are required strings. */
  function UnmarshalHost(data: JsonObject): (r: Result<Host, DecodeError>)
    ensures r.Success? <==> Get(data, "uuid").JString? && Get(data, "name").JString?
    ensures r.Success? ==> Get(data, "uuid") == JString(r.value.uuid) && Get(data, "name") == JString(r.value.name)
    ensures !Get(data, "uuid").JString? ==> r == Failure(TypeAssertionPanic("uuid"))
    ensures Get(data, "uuid").JString? && !Get(data, "name").JString? ==> r == Failure(TypeAssertionPanic("name"))
  {
    var uuid :- StringAt(data, "uuid");
    var name :- StringAt(data, "name");
    Success(Host(uuid, name))
  }

  /** The object the metadata service sends for a container whose index text is `indexText`. */
  function ContainerObject(r: ContainerRecord, indexText: string): JsonObject {
    map["name" := JString(r.name), "state" := JString(r.state), "primary_ip" := JString(r.privateIP),
        "service_index" := JString(indexText), "host_uuid" := JString(r.host.uuid)]
  }

  /** Decoding recovers every field the service sends; the host name stays empty until enrichment. */
  lemma UnmarshalContainerRoundTrip(r: ContainerRecord, indexText: string, parseInt: string -> Int64)
    requires r.host.name == "" && parseInt(indexText) == r.serviceIndex
    ensures UnmarshalContainer(ContainerObject(r, indexText), parseInt) == Success(r)
  {
  }

  /** Go's `(list, err)` from the bulk reads: the list is returned even with an error. */
  datatype Listing<T> = Listing(items: seq<T>, err: Option<Error>)

  // ---------------------------------------------------------------------------
  // The caching repository
  // ---------------------------------------------------------------------------

  class MetadataCachingRepository {
    var containers: seq<Container>
    var containerMap: map<string, Container>
    var hosts: seq<Host>
    var hostMap: map<string, Host>

    /** Each index is the last-write-wins index of its list. */
    ghost predicate Valid()
      reads this
    {
      && containerMap == IndexBy(containers, NameOf)
      && hostMap == IndexBy(hosts, UuidOf)
    }

    /** The repository as NewMetadataCachingRepository first builds it: empty lists and maps. */
    constructor ()
      ensures Valid()
      ensures containers == [] && containerMap == map[] && hosts == [] && hostMap == map[]
    {
      containers, containerMap := [], map[];
      hosts, hostMap := [], map[];
    }

    /**
      Empty repository, then not found, then the last listed container of
      that name.
     */
    function ContainerByName(name: string): (r: Result<Container, Error>)
      reads this
      requires Valid()
      ensures r == Failure(ErrContainerRepoEmpty) <==> containers == []
      ensures r == Failure(ErrContainerNotFound) <==> containers != [] && name !in KeysOf(containers, NameOf)
      ensures r.Success? <==> name in KeysOf(containers, NameOf)
      ensures r.Success? ==> exists i :: IsLastWithKey(containers, NameOf, name, i) && containers[i] == r.value
    {
      IndexByEmpty(containers, NameOf);
      IndexByKeys(containers, NameOf);
      if |containerMap| == 0 then
        Failure(ErrContainerRepoEmpty)
      else if name !in containerMap then
        Failure(ErrContainerNotFound)
      else
        IndexByEntry(containers, NameOf, name);
        Success(containerMap[name])
    }

    /** The current list, with ErrContainerRepoEmpty exactly when it is empty. */
    function Containers(): (r: Listing<Container>)
      reads this
      ensures r.items == containers
      ensures r.err.Some? <==> containers == []
      ensures r.err.Some? ==> r.err.value == ErrContainerRepoEmpty
    {
      var cs := containers;
      Listing(cs, if |cs| == 0 then Some(ErrContainerRepoEmpty) else None)
    }

    /**
      refreshContainers: `fetched` is the outcome of the client's
      MetadataContainers call. On failure nothing changes; on success the list
      and its freshly built index replace the old pair together.
     */
    method RefreshContainers(fetched: Result<seq<Container>, Error>)
      requires Valid()
      modifies this
      ensures Valid()
      ensures fetched.Failure? ==> containers == old(containers) && containerMap == old(containerMap)
      ensures fetched.Success? ==> containers == fetched.value && containerMap == IndexBy(fetched.value, NameOf)
      ensures hosts == old(hosts) && hostMap == old(hostMap)
    {
      if fetched.Failure? {
        return;
      }
      var cs := fetched.value;
      var cm: map<string, Container> := map[];
      for i := 0 to |cs|
        invariant cm == IndexBy(cs[..i], NameOf)
      {
        assert cs[..i + 1][..i] == cs[..i];
        cm := cm[cs[i].name := cs[i]];
      }
      assert cs[..|cs|] == cs;
      containerMap, containers := cm, cs;
    }

    /** Empty repository, then not found, then the last listed host with that UUID. */
    function HostByUUID(uuid: string): (r: Result<Host, Error>)
      reads this
      requires Valid()
      ensures r == Failure(ErrHostRepoEmpty) <==> hosts == []
      ensures r == Failure(ErrHostNotFound) <==> hosts != [] && uuid !in KeysOf(hosts, UuidOf)
      ensures r.Success? <==> uuid in KeysOf(hosts, UuidOf)
      ensures r.Success? ==> exists i :: IsLastWithKey(hosts, UuidOf, uuid, i) && hosts[i] == r.value
    {
      IndexByEmpty(hosts, UuidOf);
      IndexByKeys(hosts, UuidOf);
      if |hostMap| == 0 then
        Failure(ErrHostRepoEmpty)
      else if uuid !in hostMap then
        Failure(ErrHostNotFound)
      else
        IndexByEntry(hosts, UuidOf, uuid);
        Success(hostMap[uuid])
    }

    /** The current list, with ErrHostRepoEmpty exactly when it is empty. */
    function Hosts(): (r: Listing<Host>)
      reads this
      ensures r.items == hosts
      ensures r.err.Some? <==> hosts == []
      ensures r.err.Some? ==> r.err.value == ErrHostRepoEmpty
    {
      var hs := hosts;
      Listing(hs, if |hs| == 0 then Some(ErrHostRepoEmpty) else None)
    }

    /** refreshHosts: like RefreshContainers, for the host list and its UUID index. */
    method RefreshHosts(fetched: Result<seq<Host>, Error>)
      requires Valid()
      modifies this
      ensures Valid()
      ensures fetched.Failure? ==> hosts == old(hosts) && hostMap == old(hostMap)
      ensures fetched.Success? ==> hosts == fetched.value && hostMap == IndexBy(fetched.value, UuidOf)
      ensures containers == old(containers) && containerMap == old(containerMap)
    {
      if fetched.Failure? {
        return;
      }
      var hs := fetched.value;
      var hm: map<string, Host> := map[];
      for i := 0 to |hs|
        invariant hm == IndexBy(hs[..i], UuidOf)
      {
        assert hs[..i + 1][..i] == hs[..i];
        hm := hm[hs[i].uuid := hs[i]];
      }
      assert hs[..|hs|] == hs;
      hostMap, hosts := hm, hs;
    }

    /**
      What enrichment makes of a container's embedded host `h`: the name of
      the host HostByUUID finds for `h.uuid`, or `h` unchanged when the lookup
      fails (unknown UUID or empty host repository).
     */
    function JoinedHost(h: Host): (r: Host)
      reads this
      requires Valid()
      ensures r.uuid == h.uuid
      ensures h.uuid !in KeysOf(hosts, UuidOf) ==> r == h
      ensures h.uuid in KeysOf(hosts, UuidOf) ==>
        exists i :: IsLastWithKey(hosts, UuidOf, h.uuid, i) && r == h.(name := hosts[i].name)
    {
      match HostByUUID(h.uuid)
      case Success(found) => h.(name := found.name)
      case Failure(_) => h
    }

    /**
      The enrichment loop of cachePopulateEvery: each container of the current
      list gets the name of its host, in place, so the index (which shares the
      objects) sees it too. Nothing else changes.
     */
    method EnrichContainers()
      requires Valid()
      modifies containers
      ensures forall c | c in containers :: c.host == JoinedHost(old(c.host))
    {
      var cs := Containers().items;
      for i := 0 to |cs|
        invariant forall c | c in cs[..i] :: c.host == JoinedHost(old(c.host))
        invariant forall c | c in cs && c !in cs[..i] :: c.host == old(c.host)
      {
        var c := cs[i];
        var found := HostByUUID(c.host.uuid);
        if found.Success? {
          c.host := c.host.(name := found.value.name);
        }
        assert cs[..i + 1] == cs[..i] + [c];
      }
      assert cs[..|cs|] == cs;
    }

    /**
      One cycle of cachePopulateEvery, run sequentially: refresh the hosts,
      refresh the containers, then enrich the current container list.
     */
    method PopulateOnce(containersFetched: Result<seq<Container>, Error>, hostsFetched: Result<seq<Host>, Error>)
      requires Valid()
      modifies this, containers, if containersFetched.Success? then containersFetched.value else []
      ensures Valid()
      ensures containers == (if containersFetched.Success? then containersFetched.value else old(containers))
      ensures hosts == (if hostsFetched.Success? then hostsFetched.value else old(hosts))
      ensures forall c | c in containers :: c.host == JoinedHost(old(c.host))
      ensures forall c | c in old(containers) && c !in containers :: c.host == old(c.host)
    {
      RefreshHosts(hostsFetched);
      RefreshContainers(containersFetched);
      EnrichContainers();
    }

    /**
      NewMetadataCachingRepository: the empty repository, on which the first
      cycle runs before the constructor returns.
     */
    static method New(containersFetched: Result<seq<Container>, Error>, hostsFetched: Result<seq<Host>, Error>)
      returns (r: MetadataCachingRepository)
      modifies if containersFetched.Success? then containersFetched.value else []
      ensures fresh(r) && r.Valid()
      ensures r.containers == (if containersFetched.Success? then containersFetched.value else [])
      ensures r.hosts == (if hostsFetched.Success? then hostsFetched.value else [])
      ensures forall c | c in r.containers :: c.host == r.JoinedHost(old(c.host))
    {
      r := new MetadataCachingRepository();
      r.PopulateOnce(containersFetched, hostsFetched);
    }
  }

  /** A repository that holds no containers and no hosts answers every read with RepoEmpty. */
  lemma EmptyRepositoryReportsEmpty(r: MetadataCachingRepository, name: string, uuid: string)
    requires r.Valid() && r.containers == [] && r.hosts == []
    ensures r.Containers() == Listing([], Some(ErrContainerRepoEmpty))
    ensures r.Hosts() == Listing([], Some(ErrHostRepoEmpty))
    ensures r.ContainerByName(name) == Failure(ErrContainerRepoEmpty)
    ensures r.HostByUUID(uuid) == Failure(ErrHostRepoEmpty)
  {
  }

  /** When the listed names are distinct, every listed container is found by its name. */
  lemma ContainerByNameFindsListed(r: MetadataCachingRepository, i: int)
    requires r.Valid() && 0 <= i < |r.containers|
    requires forall a, b :: 0 <= a < b < |r.containers| ==> r.containers[a].name != r.containers[b].name
    ensures r.ContainerByName(r.containers[i].name) == Success(r.containers[i])
  {
    IndexByDistinct(r.containers, NameOf, i);
  }

  /** When the listed UUIDs are distinct, every listed host is found by its UUID. */
  lemma HostByUUIDFindsListed(r: MetadataCachingRepository, i: int)
    requires r.Valid() && 0 <= i < |r.hosts|
    requires forall a, b :: 0 <= a < b < |r.hosts| ==> r.hosts[a].uuid != r.hosts[b].uuid
    ensures r.HostByUUID(r.hosts[i].uuid) == Success(r.hosts[i])
  {
    IndexByDistinct(r.hosts, UuidOf, i);
  }
}
