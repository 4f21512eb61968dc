/**
  Client-side walk-throughs of the repository and the HTTP layer, in the
  style of the package's own test cases: each states its expected outcome as
  assertions that follow from the contracts alone.
 */
module Scenarios {
  import opened Wrappers
  import opened KeyIndex
  import opened Rancher
  import opened Service
  import opened Transport

  /** A stand-in for strconv.ParseInt that knows only the text "2"; everything else reads as 0. */
  function ParseDecimal(s: string): Int64 {
    if s == "2" then 2 else 0
  }

  /** Both fetches succeed: after one cycle the container carries its host's name. */
  method OneCycleJoinsHostName() {
    var decoded := UnmarshalContainer(
      map["name" := JString("a"), "state" := JString("running"),
          "primary_ip" := JString("10.0.0.1"), "host_uuid" := JString("H1")],
      ParseDecimal);
    assert decoded.Success?;
    assert decoded.value.serviceIndex == 0 && decoded.value.host == Host("H1", "");
    var c := new Container(decoded.value);
    var h := UnmarshalHost(map["uuid" := JString("H1"), "name" := JString("host-1")]);
    assert h == Success(Host("H1", "host-1"));

    var repo := MetadataCachingRepository.New(Success([c]), Success([h.value]));
    assert NameOf(c) == "a" && UuidOf(h.value) == "H1";
    assert IsLastWithKey(repo.containers, NameOf, "a", 0);
    assert IsLastWithKey(repo.hosts, UuidOf, "H1", 0);
    ContainerByNameFindsListed(repo, 0);
    var found := repo.ContainerByName("a");
    assert found == Success(c);
    assert c.host == Host("H1", "host-1");

    // an empty name on a populated repository is "not found", not "empty"
    assert "" !in KeysOf(repo.containers, NameOf);
    assert repo.ContainerByName("") == Failure(ErrContainerNotFound);
  }

  /** The host fetch fails: containers are served without host names, hosts stay empty. */
  method HostOutageKeepsContainers() {
    var c := new Container(ContainerRecord("web_1", "running", "10.42.0.1", 1, Host("H1", "")));
    var repo := MetadataCachingRepository.New(Success([c]), Failure(Custom("404 Not Found")));
    assert "H1" !in KeysOf(repo.hosts, UuidOf);
    assert c.host == Host("H1", "");
    assert repo.Containers() == Listing([c], None);
    assert repo.Hosts() == Listing([], Some(ErrHostRepoEmpty));
  }

  /** An empty payload and a failing fetch both leave an empty repository. */
  method EmptyOrUnavailableUpstream() {
    var repo := MetadataCachingRepository.New(Success([]), Success([]));
    assert repo.Containers().err == Some(ErrContainerRepoEmpty);
    var repo2 := MetadataCachingRepository.New(Failure(Custom("500")), Failure(Custom("500")));
    assert repo2.Containers().err == Some(ErrContainerRepoEmpty);
    assert repo2.Hosts().err == Some(ErrHostRepoEmpty);
  }

  /** A failed refresh keeps the last good snapshot. */
  method FailedRefreshKeepsSnapshot() {
    var c := new Container(ContainerRecord("web_1", "running", "10.42.0.1", 1, Host("H1", "")));
    var repo := new MetadataCachingRepository();
    repo.RefreshContainers(Success([c]));
    repo.RefreshContainers(Failure(Custom("timeout")));
    assert repo.Containers() == Listing([c], None);
    assert NameOf(c) == "web_1" && IsLastWithKey(repo.containers, NameOf, "web_1", 0);
    assert repo.ContainerByName("web_1") == Success(c);
  }

  /** Over HTTP: an unknown name on a populated cache is 404, an empty cache 424. */
  method HttpStatuses() {
    var c := new Container(ContainerRecord("web_1", "running", "10.42.0.1", 1, Host("H1", "")));
    var empty := new MetadataCachingRepository();
    assert ServeContainer(ServerService(empty), map["name" := "web_1"]).reply.status == 424;
    var repo := new MetadataCachingRepository();
    repo.RefreshContainers(Success([c]));
    assert "nope" !in KeysOf(repo.containers, NameOf);
    assert ServeContainer(ServerService(repo), map["name" := "nope"]).reply.status == 404;
    assert ServeContainer(ServerService(repo), map[]).reply.status == 500;
  }

  /** The metadata URL of the package's tests, extended with the containers subpath. */
  method ContainersRequestPath() {
    var r := new HttpRequest("/latest");
    var err := EncodeMetadataGenericRequest(r, MetadataGenericRequest(ContainersSubpath));
    assert err == None;
    assert r.urlPath == "/latest/containers";
    assert r.header["Accept"] == ["application/json"];
  }
}
