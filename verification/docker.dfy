/** The Docker service of internal/docker/docker.go: old-container discovery
    (`FindContainer`), container creation (`RunContainer`) and teardown
    (`StopContainer`). The Docker daemon is a record of the answers it gives;
    each operation returns its result together with the client calls it made,
    in order. */
module Docker {
  import opened Results
  import opened Errors
  import opened Decimal
  import opened Ports
  import opened Config

  /** `Container`: an ID and the host port it was bound to (0 when unknown). */
  datatype Container = Container(id: string, port: int)

  /** What the daemon and the host answer. */
  datatype Daemon = Daemon(
    /** `ImagePull` (together with reading its progress stream). */
    pull: Outcome<Error>,
    /** `ContainerList`: the IDs of the running containers, in listed order. */
    listing: Result<seq<string>, Error>,
    /** `ContainerInspect`: the image of each container that inspects
        successfully; an ID that is absent fails to inspect. */
    images: map<string, string>,
    /** Host ports on which a TCP connect succeeds. */
    listening: set<int>,
    /** `ContainerCreate`: the new container's ID, or an error. */
    create: Result<string, Error>,
    /** `ContainerStart`. */
    start: Outcome<Error>,
    /** `ContainerStop` and `ContainerRemove` failures, by container ID. */
    stopErrors: map<string, Error>,
    removeErrors: map<string, Error>)

  /** The daemon names a new container with an ID that no running container
      has: `ContainerCreate` never answers with an ID from the listing. */
  predicate FreshIds(d: Daemon) {
    d.create.Success? && d.listing.Success? ==> d.create.value !in d.listing.value
  }

  /** The container settings passed to `ContainerCreate`. */
  datatype ContainerConfig = ContainerConfig(image: string, exposedPort: string, env: seq<string>)

  /** The host settings passed to `ContainerCreate`; `None` is a field left unset. */
  datatype HostConfig = HostConfig(
    containerPort: string,
    hostIp: string,
    hostPort: string,
    binds: Option<seq<string>>,
    networkMode: Option<string>)

  /** One call on the Docker client. */
  datatype Call =
    | ImagePull(ref: string)
    | ContainerList
    | ContainerInspect(id: string)
    | ContainerCreate(config: ContainerConfig, host: HostConfig)
    | ContainerStart(id: string)
    | ContainerStop(id: string, timeoutSeconds: int)
    | ContainerRemove(id: string)
    | Close

  /** A call that changes a container's lifecycle state. */
  predicate Disturbs(c: Call) {
    c.ContainerStop? || c.ContainerRemove?
  }

  /** A call that brings a new container into being. */
  predicate Creates(c: Call) {
    c.ContainerCreate? || c.ContainerStart?
  }

  // ---------------------------------------------------------------------------
  // PullImage

  /** What `PullImage` returns and the calls it made. */
  datatype Pulled = Pulled(result: Outcome<Error>, calls: seq<Call>)

  /** `PullImage`: one `ImagePull` of the image reference; its error (or one
      met while reading the progress stream) is returned as is. */
  function PullImage(d: Daemon, image: string): (r: Pulled)
    ensures r.calls == [ImagePull(image)]
    ensures r.result == d.pull
  {
    Pulled(d.pull, [ImagePull(image)])
  }

  // ---------------------------------------------------------------------------
  // FindContainer

  /** `strings.Split(image, ":")[0]`: the image name up to its first `:`. */
  function BaseImageName(image: string): (base: string)
    ensures base <= image
    ensures ':' !in base
    ensures base == image || image[|base|] == ':'
  {
    if |image| == 0 || image[0] == ':' then ""
    else [image[0]] + BaseImageName(image[1..])
  }

  /** A tag after the first `:` is ignored. */
  lemma {:induction false} BaseImageNameDropsTag(name: string, tag: string)
    requires ':' !in name
    ensures BaseImageName(name + ":" + tag) == name
    decreases |name|
  {
    var image := name + ":" + tag;
    if |name| > 0 {
      assert image[0] == name[0] && image[1..] == name[1..] + ":" + tag;
      BaseImageNameDropsTag(name[1..], tag);
      assert [name[0]] + name[1..] == name;
    }
  }

  /** The inspected image of `id` has the wanted base name. */
  predicate Matches(d: Daemon, id: string, base: string) {
    id in d.images && BaseImageName(d.images[id]) == base
  }

  /** One `ContainerInspect` per ID, in order. */
  function Inspections(ids: seq<string>): (calls: seq<Call>)
    ensures |calls| == |ids|
    ensures forall i :: 0 <= i < |ids| ==> calls[i] == ContainerInspect(ids[i])
  {
    if |ids| == 0 then [] else [ContainerInspect(ids[0])] + Inspections(ids[1..])
  }

  /** What `FindContainer` returns and the calls it made. */
  datatype Found = Found(container: Option<Container>, calls: seq<Call>)

  /** The position of the first listed ID whose image matches, or `|ids|`. */
  function FirstMatchIndex(d: Daemon, ids: seq<string>, base: string): (k: nat)
    ensures k <= |ids|
    ensures forall i :: 0 <= i < k ==> !Matches(d, ids[i], base)
    ensures k < |ids| ==> Matches(d, ids[k], base)
  {
    if |ids| == 0 then 0
    else if Matches(d, ids[0], base) then 0
    else 1 + FirstMatchIndex(d, ids[1..], base)
  }

  /** Which container matches depends only on the inspected images, not on
      the daemon's other answers. */
  lemma {:induction false} FirstMatchDependsOnImages(d: Daemon, d': Daemon, ids: seq<string>, base: string)
    requires d'.images == d.images
    ensures FirstMatchIndex(d', ids, base) == FirstMatchIndex(d, ids, base)
    decreases |ids|
  {
    if |ids| > 0 {
      FirstMatchDependsOnImages(d, d', ids[1..], base);
    }
  }

  /** `FindContainer`: the first listed container whose inspected image has
      the same base name as `image`. A listing error or no match gives
      nothing; a container that fails to inspect is skipped. Containers are
      inspected in listed order up to and including the match. */
  function FindContainer(d: Daemon, image: string): (r: Found)
    ensures d.listing.Failure? ==> r == Found(None, [ContainerList])
    ensures r.container.Some? ==> d.listing.Success?
    ensures r.container.Some? ==>
      var k := FirstMatchIndex(d, d.listing.value, BaseImageName(image));
      k < |d.listing.value| && r.container.value == Container(d.listing.value[k], 0)
      && Matches(d, d.listing.value[k], BaseImageName(image))
      && (forall i :: 0 <= i < k ==> !Matches(d, d.listing.value[i], BaseImageName(image)))
      && r.calls == [ContainerList] + Inspections(d.listing.value[..k + 1])
    ensures d.listing.Success? && r.container.None? ==>
      (forall i :: 0 <= i < |d.listing.value| ==> !Matches(d, d.listing.value[i], BaseImageName(image)))
      && r.calls == [ContainerList] + Inspections(d.listing.value)
    ensures |r.calls| > 0 && r.calls[0] == ContainerList
    ensures forall i :: 0 <= i < |r.calls| ==> r.calls[i].ContainerList? || r.calls[i].ContainerInspect?
  {
    match d.listing
    case Failure(_) => Found(None, [ContainerList])
    case Success(ids) =>
      var k := FirstMatchIndex(d, ids, BaseImageName(image));
      if k < |ids| then
        Found(Some(Container(ids[k], 0)), [ContainerList] + Inspections(ids[..k + 1]))
      else
        Found(None, [ContainerList] + Inspections(ids))
  }

  /** The base name is only a heuristic identity: all images of a registry
      whose host carries a port share the host as their base name, so
      `FindContainer` cannot tell their containers apart. */
  lemma RegistryPortSharesBaseName(host: string, port: string, repository: string)
    requires ':' !in host
    ensures BaseImageName(host + ":" + port + "/" + repository) == host
  {
    assert host + ":" + port + "/" + repository == host + ":" + (port + "/" + repository);
    BaseImageNameDropsTag(host, port + "/" + repository);
  }

  /** Two images that differ only in their tag find the same container. */
  lemma FindIgnoresTag(d: Daemon, name: string, tag1: string, tag2: string)
    requires ':' !in name
    ensures FindContainer(d, name + ":" + tag1) == FindContainer(d, name + ":" + tag2)
  {
    BaseImageNameDropsTag(name, tag1);
    BaseImageNameDropsTag(name, tag2);
  }

  // ---------------------------------------------------------------------------
  // RunContainer

  /** The `NAME=value` entry passed to the container for a set variable. */
  function EnvEntry(name: string, env: Environment): string
    requires name in env
  {
    name + "=" + env[name]
  }

  /** The environment passthrough: `NAME=value` for every listed name that is
      set, in the listed order; unset names are dropped. */
  function PassEnv(names: seq<string>, env: Environment): (r: seq<string>)
    ensures |r| <= |names|
    ensures forall e :: e in r ==> exists n :: n in names && n in env && e == EnvEntry(n, env)
    ensures forall n :: n in names && n in env ==> EnvEntry(n, env) in r
  {
    if |names| == 0 then []
    else
      var rest := PassEnv(names[1..], env);
      assert forall n :: n in names[1..] ==> n in names;
      assert forall n :: n in names && n != names[0] ==> n in names[1..];
      if names[0] in env then [EnvEntry(names[0], env)] + rest else rest
  }

  /** One step of the passthrough: the first name's entry, if it is set,
      then the entries of the rest. */
  lemma PassEnvCons(names: seq<string>, env: Environment)
    requires |names| > 0
    ensures PassEnv(names, env)
      == (if names[0] in env then [EnvEntry(names[0], env)] else []) + PassEnv(names[1..], env)
  {
  }

  /** Passthrough keeps order: the entries for a concatenation of lists are
      the entries of the first list followed by those of the second. */
  lemma {:induction false} PassEnvAppend(a: seq<string>, b: seq<string>, env: Environment)
    ensures PassEnv(a + b, env) == PassEnv(a, env) + PassEnv(b, env)
    decreases |a|
  {
    if |a| > 0 {
      var ab := a + b;
      assert ab[0] == a[0] && ab[1..] == a[1..] + b;
      var h := if a[0] in env then [EnvEntry(a[0], env)] else [];
      PassEnvCons(ab, env);
      PassEnvCons(a, env);
      PassEnvAppend(a[1..], b, env);
      calc {
        PassEnv(ab, env);
        h + PassEnv(a[1..] + b, env);
        h + (PassEnv(a[1..], env) + PassEnv(b, env));
        (h + PassEnv(a[1..], env)) + PassEnv(b, env);
        PassEnv(a, env) + PassEnv(b, env);
      }
    } else {
      assert a + b == b;
    }
  }

  /** When every listed name is set, the entries correspond one to one. */
  lemma {:induction false} PassEnvAllSet(names: seq<string>, env: Environment)
    requires forall i :: 0 <= i < |names| ==> names[i] in env
    ensures |PassEnv(names, env)| == |names|
    ensures forall i :: 0 <= i < |names| ==> PassEnv(names, env)[i] == EnvEntry(names[i], env)
    decreases |names|
  {
    if |names| > 0 {
      PassEnvAllSet(names[1..], env);
    }
  }

  /** The `<port>/tcp` key Docker uses for a container port. */
  function TcpPort(port: int): string {
    Format(port) + "/tcp"
  }

  /** What `RunContainer` returns and the calls it made. */
  datatype Run = Run(result: Result<Container, Error>, calls: seq<Call>)

  /** The container settings `RunContainer` builds for an allocated port. */
  function CreateRequest(imageName: string, app: App, env: Environment, port: int): (r: (ContainerConfig, HostConfig))
    ensures r.0.image == imageName && r.0.env == PassEnv(app.env, env)
    ensures r.0.exposedPort == r.1.containerPort && Parse(r.1.hostPort) == Some(port)
    ensures port >= 0 ==> IsDigits(r.1.hostPort) && (|r.1.hostPort| == 1 || r.1.hostPort[0] != '0')
    ensures var key := r.1.containerPort;
      |key| > 4 && key[|key| - 4..] == "/tcp" && Parse(key[..|key| - 4]) == Some(app.containerPort)
    ensures r.1.hostIp == "0.0.0.0"
    ensures r.1.binds.Some? <==> |app.volumes| > 0
    ensures r.1.binds.Some? ==> r.1.binds.value == app.volumes
    ensures r.1.networkMode.Some? <==> app.network != ""
    ensures r.1.networkMode.Some? ==> r.1.networkMode.value == app.network
  {
    FormatRoundTrip(port);
    FormatRoundTrip(app.containerPort);
    var key := TcpPort(app.containerPort);
    assert key[..|key| - 4] == Format(app.containerPort);
    (ContainerConfig(imageName, TcpPort(app.containerPort), PassEnv(app.env, env)),
     HostConfig(
       TcpPort(app.containerPort), "0.0.0.0", Format(port),
       if |app.volumes| > 0 then Some(app.volumes) else None,
       if app.network != "" then Some(app.network) else None))
  }

  /** The allocator `RunContainer` uses: the configured range with step 1. */
  function RangeManager(app: App): (pm: PortManager)
    ensures pm.portIncrement == 1
  {
    NewPortManager(app.portRange.start, app.portRange.end, 1)
  }

  /** `RunContainer`: allocate a port, then create, then start. */
  function RunContainer(d: Daemon, imageName: string, app: App, env: Environment): (r: Run)
    ensures AllocatePort(RangeManager(app), d.listening).Failure? ==>
      r == Run(Failure(NoAvailablePorts), [])
    ensures AllocatePort(RangeManager(app), d.listening).Success? ==>
      var port := AllocatePort(RangeManager(app), d.listening).value;
      var req := CreateRequest(imageName, app, env, port);
      |r.calls| > 0 && r.calls[0] == ContainerCreate(req.0, req.1)
    ensures d.create.Failure? ==> r.result.Failure? && |r.calls| <= 1
    ensures d.create.Failure? && r.calls != [] ==> r.result.error == d.create.error
    ensures d.create.Success? && d.start.Fail? ==> r.result.Failure?
    ensures d.create.Success? && d.start.Fail? && r.calls != [] ==>
      r.result.error == StartFailed(d.start.error) && r.calls[1..] == [ContainerStart(d.create.value)]
    ensures r.result.Success? ==>
      r.result.value.id == d.create.value && d.start.Pass?
      && AllocatePort(RangeManager(app), d.listening) == Success(r.result.value.port)
      && r.calls[1..] == [ContainerStart(r.result.value.id)]
    ensures AllocatePort(RangeManager(app), d.listening).Success? && d.create.Success? && d.start.Pass? ==>
      r.result == Success(Container(d.create.value, AllocatePort(RangeManager(app), d.listening).value))
      && r.calls[1..] == [ContainerStart(d.create.value)]
    ensures forall i :: 0 <= i < |r.calls| ==> Creates(r.calls[i])
  {
    match AllocatePort(RangeManager(app), d.listening)
    case Failure(e) => Run(Failure(e), [])
    case Success(port) =>
      var req := CreateRequest(imageName, app, env, port);
      var create := ContainerCreate(req.0, req.1);
      match d.create
      case Failure(e) => Run(Failure(e), [create])
      case Success(id) =>
        match d.start
        case Fail(e) => Run(Failure(StartFailed(e)), [create, ContainerStart(id)])
        case Pass => Run(Success(Container(id, port)), [create, ContainerStart(id)])
  }

  /** The new container's port lies in the configured range, is free, and
      every lower port of the range is taken. */
  lemma RunPortIsLowestFree(d: Daemon, imageName: string, app: App, env: Environment)
    requires RunContainer(d, imageName, app, env).result.Success?
    ensures var p := RunContainer(d, imageName, app, env).result.value.port;
      app.portRange.start <= p <= app.portRange.end && p !in d.listening
      && forall q :: app.portRange.start <= q < p ==> q in d.listening
  {
    var pm := RangeManager(app);
    var p := RunContainer(d, imageName, app, env).result.value.port;
    assert IsCandidate(pm, p);
    forall q | app.portRange.start <= q < p ensures q in d.listening {
      assert IsCandidate(pm, q);
    }
  }

  // ---------------------------------------------------------------------------
  // StopContainer

  /** The grace period `StopContainer` gives a container. */
  const StopTimeoutSeconds := 15

  /** What `StopContainer` returns and the calls it made. */
  datatype Stopped = Stopped(result: Outcome<Error>, calls: seq<Call>)

  /** `StopContainer`: stop with a 15-second timeout, then remove; a stop
      failure skips the removal. The client is closed on every path. */
  function StopContainer(d: Daemon, id: string): (r: Stopped)
    ensures |r.calls| >= 2 && r.calls[0] == ContainerStop(id, 15) && r.calls[|r.calls| - 1] == Close
    ensures ContainerRemove(id) in r.calls <==> id !in d.stopErrors
    ensures id in d.stopErrors ==> r.result == Fail(d.stopErrors[id])
    ensures id !in d.stopErrors && id in d.removeErrors ==> r.result == Fail(d.removeErrors[id])
    ensures r.result.Pass? <==> id !in d.stopErrors && id !in d.removeErrors
    ensures forall i :: 0 <= i < |r.calls| && Disturbs(r.calls[i]) ==> r.calls[i].id == id
  {
    var stop := ContainerStop(id, StopTimeoutSeconds);
    if id in d.stopErrors then
      Stopped(Fail(d.stopErrors[id]), [stop, Close])
    else if id in d.removeErrors then
      Stopped(Fail(d.removeErrors[id]), [stop, ContainerRemove(id), Close])
    else
      Stopped(Pass, [stop, ContainerRemove(id), Close])
  }
}
