/** The deployment orchestrator of internal/deploy/deploy.go: pull the image,
    look for the running container of the previous deployment, start the new
    container, wait for it to become healthy, call the Caddy setup with its
    port, and only then retire the old container; a failed health check or Caddy setup stops the
    new container instead. `Deploy` is a function of the world it runs in and
    returns the steps it took, the Docker client calls they made, and its
    result. */
module Deploy {
  import opened Results
  import opened Errors
  import opened Decimal
  import opened Config
  import Health
  import Docker

  /** Everything outside the orchestrator that decides its course. */
  datatype World = World(
    /** `docker.NewDockerClient`. */
    clientInit: Outcome<Error>,
    /** The Docker daemon and the host's listening ports. */
    daemon: Docker.Daemon,
    /** The process environment. */
    env: Environment,
    /** The answer the new container gives to the n-th health request. */
    respond: nat -> Health.Response,
    /** `caddy.SetupCaddy`. */
    caddy: Outcome<Error>)

  /** The steps of a deployment, in the order it takes them. */
  datatype Step =
    | Pull(image: string)
    | FindOld(image: string)
    | RunNew(image: string)
    | WaitHealthy(host: string)
    | SetupCaddy(port: int)
    | Stop(id: string)

  /** The course of one `Deploy` call: steps, Docker client calls, the
      returned error (or nil), and the old and new containers it saw. */
  datatype Deployment = Deployment(
    steps: seq<Step>,
    calls: seq<Docker.Call>,
    result: Outcome<Error>,
    oldContainer: Option<Docker.Container>,
    newContainer: Option<Docker.Container>)

  /** `fmt.Sprintf("http://localhost:%d", port)`. */
  function LocalHost(port: int): string {
    "http://localhost:" + Format(port)
  }

  /** Distinct ports give distinct health-check hosts. */
  lemma LocalHostInjective(p: int, q: int)
    requires LocalHost(p) == LocalHost(q)
    ensures p == q
  {
    var prefix := "http://localhost:";
    assert LocalHost(p)[|prefix|..] == Format(p);
    assert LocalHost(q)[|prefix|..] == Format(q);
    FormatInjective(p, q);
  }

  /** What happens once the new container runs: health check, Caddy setup,
      then retirement of the old container or rollback of the new one. */
  datatype Tail = Tail(steps: seq<Step>, calls: seq<Docker.Call>, result: Outcome<Error>)

  /** `Deploy` from the health check on (deploy.go, lines 47 to 70): the
      health check, the Caddy setup, then retirement of the old container or
      rollback of the new one. Its guarantees are the lemmas `CutoverShape`,
      `CutoverRollback` and `CutoverRetire`. */
  function Cutover(cfg: DeploymentConfig, w: World, previous: Option<Docker.Container>, created: Docker.Container)
    : (t: Tail)
    ensures |t.steps| >= 2
    ensures forall i :: 0 <= i < |t.calls| ==> !Lookup(t.calls[i]) && !Docker.Creates(t.calls[i])
  {
    var host := LocalHost(created.port);
    var health := Health.CheckHealthWithClock(host, cfg.healthCheck, w.respond);
    if health.result.Fail? then
      var rollback := Docker.StopContainer(w.daemon, created.id);
      Tail([WaitHealthy(host), Stop(created.id)], rollback.calls, health.result)
    else if w.caddy.Fail? then
      var rollback := Docker.StopContainer(w.daemon, created.id);
      Tail([WaitHealthy(host), SetupCaddy(created.port), Stop(created.id)], rollback.calls, w.caddy)
    else
      match previous
      case None =>
        Tail([WaitHealthy(host), SetupCaddy(created.port)], [], Pass)
      case Some(p) =>
        var retire := Docker.StopContainer(w.daemon, p.id);
        Tail([WaitHealthy(host), SetupCaddy(created.port), Stop(p.id)], retire.calls, Pass)
  }

  /** The cutover starts with the one health check of the new container's
      port, takes only health, Caddy and stop steps, and only stops, removes
      or closes on the Docker client. */
  lemma CutoverShape(cfg: DeploymentConfig, w: World, previous: Option<Docker.Container>, created: Docker.Container)
    ensures var t := Cutover(cfg, w, previous, created);
      t.steps[0] == WaitHealthy(LocalHost(created.port))
      && (forall i :: 0 < i < |t.steps| ==> t.steps[i].SetupCaddy? || t.steps[i].Stop?)
      && (forall i :: 0 <= i < |t.calls| ==> Docker.Disturbs(t.calls[i]) || t.calls[i].Close?)
  {
  }

  /** The cutover fails exactly when the health check or the Caddy setup
      fails; it then returns that error, contacts Caddy only if the health
      check passed, ends by stopping the new container, and stops or removes
      nothing else. */
  lemma CutoverRollback(cfg: DeploymentConfig, w: World, previous: Option<Docker.Container>, created: Docker.Container)
    ensures var t := Cutover(cfg, w, previous, created);
      t.result.Fail? <==> HealthOf(cfg, w, created).result.Fail? || w.caddy.Fail?
    ensures var t := Cutover(cfg, w, previous, created);
      HealthOf(cfg, w, created).result.Fail? ==> t.result == HealthOf(cfg, w, created).result && NoCaddy(t.steps)
    ensures var t := Cutover(cfg, w, previous, created);
      HealthOf(cfg, w, created).result.Pass? && w.caddy.Fail? ==>
        t.result == w.caddy && t.steps[1..] == [SetupCaddy(created.port), Stop(created.id)]
    ensures var t := Cutover(cfg, w, previous, created);
      t.result.Fail? ==>
        t.steps[|t.steps| - 1] == Stop(created.id)
        && OnlyStops(t.steps, created.id) && OnlyDisturbs(t.calls, created.id)
        && |t.calls| > 0 && t.calls[0] == Docker.ContainerStop(created.id, Docker.StopTimeoutSeconds)
  {
  }

  /** A successful cutover calls the Caddy setup with the new container's
      port; it then stops the old container, and only it, as its last step,
      or stops nothing when there is none. */
  lemma CutoverRetire(cfg: DeploymentConfig, w: World, previous: Option<Docker.Container>, created: Docker.Container)
    requires Cutover(cfg, w, previous, created).result.Pass?
    ensures var t := Cutover(cfg, w, previous, created);
      previous.None? ==> t.steps[1..] == [SetupCaddy(created.port)] && t.calls == []
    ensures var t := Cutover(cfg, w, previous, created);
      previous.Some? ==>
        t.steps[1..] == [SetupCaddy(created.port), Stop(previous.value.id)]
        && OnlyDisturbs(t.calls, previous.value.id)
  {
  }

  /** `Deploy`. The errors of the `StopContainer` calls are ignored, as in the
      source. Only a deployment that started a new container can succeed;
      the old container is one the daemon listed, and the new one is the one
      it created. */
  function Deploy(cfg: DeploymentConfig, w: World): (r: Deployment)
    ensures r.result.Pass? ==> r.newContainer.Some? && w.caddy.Pass?
    ensures r.oldContainer.Some? ==>
      w.daemon.listing.Success? && r.oldContainer.value.id in w.daemon.listing.value
    ensures r.newContainer.Some? ==>
      w.daemon.create.Success? && r.newContainer.value.id == w.daemon.create.value
  {
    if w.clientInit.Fail? then
      Deployment([], [], Fail(ClientInit(w.clientInit.error)), None, None)
    else
      var image := cfg.app.imageName;
      var pulled := Docker.PullImage(w.daemon, image);
      if pulled.result.Fail? then
        Deployment([Pull(image)], pulled.calls, pulled.result, None, None)
      else
        var found := Docker.FindContainer(w.daemon, image);
        var run := Docker.RunContainer(w.daemon, image, cfg.app, w.env);
        var steps := [Pull(image), FindOld(image), RunNew(image)];
        var calls := pulled.calls + found.calls + run.calls;
        match run.result
        case Failure(e) =>
          Deployment(steps, calls, Fail(e), found.container, None)
        case Success(created) =>
          var t := Cutover(cfg, w, found.container, created);
          Deployment(steps + t.steps, calls + t.calls, t.result, found.container, Some(created))
  }

  /** Shorthands for the collaborators' answers in a given world. */
  function RunOf(cfg: DeploymentConfig, w: World): Docker.Run {
    Docker.RunContainer(w.daemon, cfg.app.imageName, cfg.app, w.env)
  }

  function FoundOf(cfg: DeploymentConfig, w: World): Docker.Found {
    Docker.FindContainer(w.daemon, cfg.app.imageName)
  }

  function HealthOf(cfg: DeploymentConfig, w: World, created: Docker.Container): Health.Probe {
    Health.CheckHealthWithClock(LocalHost(created.port), cfg.healthCheck, w.respond)
  }

  /** How a deployment that got past the pull is put together. */
  lemma DeployShape(cfg: DeploymentConfig, w: World)
    requires w.clientInit.Pass? && w.daemon.pull.Pass?
    ensures var r := Deploy(cfg, w);
      var image := cfg.app.imageName;
      var head := [Docker.ImagePull(image)] + FoundOf(cfg, w).calls + RunOf(cfg, w).calls;
      r.oldContainer == FoundOf(cfg, w).container
      && (RunOf(cfg, w).result.Failure? ==>
            r.steps == [Pull(image), FindOld(image), RunNew(image)] && r.calls == head
            && r.newContainer.None? && r.result == Fail(RunOf(cfg, w).result.error))
      && (RunOf(cfg, w).result.Success? ==>
            var t := Cutover(cfg, w, r.oldContainer, RunOf(cfg, w).result.value);
            r.steps == [Pull(image), FindOld(image), RunNew(image)] + t.steps
            && r.calls == head + t.calls
            && r.newContainer == Some(RunOf(cfg, w).result.value) && r.result == t.result)
  {
  }

  /** No step stops a container. */
  predicate NoStop(steps: seq<Step>) {
    forall i :: 0 <= i < |steps| ==> !steps[i].Stop?
  }

  /** No step contacts Caddy. */
  predicate NoCaddy(steps: seq<Step>) {
    forall i :: 0 <= i < |steps| ==> !steps[i].SetupCaddy?
  }

  /** Every Stop step names `id`. */
  predicate OnlyStops(steps: seq<Step>, id: string) {
    forall i :: 0 <= i < |steps| && steps[i].Stop? ==> steps[i].id == id
  }

  /** Every container stop or removal on the Docker client names `id`. */
  predicate OnlyDisturbs(calls: seq<Docker.Call>, id: string) {
    forall i :: 0 <= i < |calls| && Docker.Disturbs(calls[i]) ==> calls[i].id == id
  }


  lemma StepsAppend(a: seq<Step>, b: seq<Step>, id: string)
    ensures NoStop(a + b) <==> NoStop(a) && NoStop(b)
    ensures NoCaddy(a + b) <==> NoCaddy(a) && NoCaddy(b)
    ensures OnlyStops(a + b, id) <==> OnlyStops(a, id) && OnlyStops(b, id)
  {
    var s := a + b;
    assert forall i :: 0 <= i < |a| ==> s[i] == a[i];
    assert forall i :: 0 <= i < |b| ==> s[|a| + i] == b[i];
    assert forall i :: |a| <= i < |s| ==> s[i] == b[i - |a|];
  }

  lemma CallsAppend(a: seq<Docker.Call>, b: seq<Docker.Call>, id: string)
    ensures OnlyDisturbs(a + b, id) <==> OnlyDisturbs(a, id) && OnlyDisturbs(b, id)
  {
    var s := a + b;
    assert forall i :: 0 <= i < |a| ==> s[i] == a[i];
    assert forall i :: 0 <= i < |b| ==> s[|a| + i] == b[i];
    assert forall i :: |a| <= i < |s| ==> s[i] == b[i - |a|];
  }

  /** The calls up to and including the container start neither stop nor
      remove anything. */
  lemma HeadDisturbsNothing(cfg: DeploymentConfig, w: World)
    ensures var head := [Docker.ImagePull(cfg.app.imageName)] + FoundOf(cfg, w).calls + RunOf(cfg, w).calls;
      forall i :: 0 <= i < |head| ==> !Docker.Disturbs(head[i])
  {
    var found, run := FoundOf(cfg, w).calls, RunOf(cfg, w).calls;
    var head := [Docker.ImagePull(cfg.app.imageName)] + found + run;
    forall i | 0 <= i < |head| ensures !Docker.Disturbs(head[i]) {
      if 0 < i < 1 + |found| {
        assert head[i] == found[i - 1];
      } else if i >= 1 + |found| {
        assert head[i] == run[i - 1 - |found|];
      }
    }
  }

  /** Without a Docker client nothing happens and the wrapped error is
      returned. */
  lemma ClientFailureTouchesNothing(cfg: DeploymentConfig, w: World)
    requires w.clientInit.Fail?
    ensures var r := Deploy(cfg, w);
      r.steps == [] && r.calls == [] && r.result == Fail(ClientInit(w.clientInit.error))
  {
  }

  /** A failed pull ends the deployment before any container is looked up,
      started or stopped, with the pull's error. */
  lemma PullFailureTouchesNothing(cfg: DeploymentConfig, w: World)
    requires w.clientInit.Pass? && w.daemon.pull.Fail?
    ensures var r := Deploy(cfg, w);
      r.steps == [Pull(cfg.app.imageName)]
      && r.calls == [Docker.ImagePull(cfg.app.imageName)]
      && r.result == w.daemon.pull
  {
  }

  /** A container listing or inspection call. */
  predicate Lookup(c: Docker.Call) {
    c.ContainerList? || c.ContainerInspect?
  }

  /** Every lookup call precedes every create or start call. */
  predicate LookupsFirst(calls: seq<Docker.Call>) {
    forall i, j :: 0 <= i < |calls| && 0 <= j < |calls| && Lookup(calls[i]) && Docker.Creates(calls[j]) ==> i < j
  }

  lemma LookupsFirstAppend(a: seq<Docker.Call>, b: seq<Docker.Call>)
    requires forall i :: 0 <= i < |a| ==> !Docker.Creates(a[i])
    requires forall i :: 0 <= i < |b| ==> !Lookup(b[i])
    ensures LookupsFirst(a + b)
  {
    var s := a + b;
    assert forall k :: 0 <= k < |a| ==> s[k] == a[k];
    assert forall k :: |a| <= k < |s| ==> s[k] == b[k - |a|];
  }

  lemma NoLookupAppend(a: seq<Docker.Call>, b: seq<Docker.Call>)
    requires forall i :: 0 <= i < |a| ==> !Lookup(a[i])
    requires forall i :: 0 <= i < |b| ==> !Lookup(b[i])
    ensures forall i :: 0 <= i < |a + b| ==> !Lookup((a + b)[i])
  {
    var s := a + b;
    assert forall k :: |a| <= k < |s| ==> s[k] == b[k - |a|];
  }

  /** The pull and the lookups create nothing. */
  lemma HeadCreatesNothing(cfg: DeploymentConfig, w: World)
    ensures var head := [Docker.ImagePull(cfg.app.imageName)] + FoundOf(cfg, w).calls;
      forall i :: 0 <= i < |head| ==> !Docker.Creates(head[i])
  {
    var found := FoundOf(cfg, w).calls;
    var head := [Docker.ImagePull(cfg.app.imageName)] + found;
    assert forall k :: 0 < k < |head| ==> head[k] == found[k - 1];
  }

  /** Every lookup step is the second step and every run step the third. */
  predicate FindSecondRunThird(s: seq<Step>) {
    forall i, j :: 0 <= i < |s| && 0 <= j < |s| && s[i].FindOld? && s[j].RunNew? ==> i == 1 && j == 2
  }

  /** In `prefix + t`, the lookup step is the second and the run step the
      third when `t` holds neither. */
  lemma FindThenRun(image: string, t: seq<Step>)
    requires forall i :: 0 <= i < |t| ==> !t[i].FindOld? && !t[i].RunNew?
    ensures FindSecondRunThird([Pull(image), FindOld(image), RunNew(image)] + t)
  {
    var s := [Pull(image), FindOld(image), RunNew(image)] + t;
    assert forall i :: 3 <= i < |s| ==> s[i] == t[i - 3];
  }

  /** The old container is looked up before the new one is created: the
      lookup step is the second and the run step the third, and no later
      step repeats either. */
  lemma FindBeforeRun(cfg: DeploymentConfig, w: World)
    ensures FindSecondRunThird(Deploy(cfg, w).steps)
  {
    var r := Deploy(cfg, w);
    if w.clientInit.Pass? && w.daemon.pull.Pass? {
      DeployShape(cfg, w);
      var image := cfg.app.imageName;
      var prefix := [Pull(image), FindOld(image), RunNew(image)];
      if RunOf(cfg, w).result.Success? {
        var t := Cutover(cfg, w, FoundOf(cfg, w).container, RunOf(cfg, w).result.value);
        CutoverShape(cfg, w, FoundOf(cfg, w).container, RunOf(cfg, w).result.value);
        FindThenRun(image, t.steps);
        assert r.steps == prefix + t.steps;
      } else {
        FindThenRun(image, []);
        assert r.steps == prefix + [];
      }
    }
  }

  lemma LookupsFirstJoin(head: seq<Docker.Call>, run: seq<Docker.Call>, rest: seq<Docker.Call>)
    requires forall i :: 0 <= i < |head| ==> !Docker.Creates(head[i])
    requires forall i :: 0 <= i < |run| ==> !Lookup(run[i])
    requires forall i :: 0 <= i < |rest| ==> !Lookup(rest[i])
    ensures LookupsFirst(head + run + rest)
  {
    NoLookupAppend(run, rest);
    assert head + run + rest == head + (run + rest);
    LookupsFirstAppend(head, run + rest);
  }

  /** The Docker client calls made after `RunContainer`. */
  function CallsAfterRun(cfg: DeploymentConfig, w: World): seq<Docker.Call> {
    if RunOf(cfg, w).result.Success? then
      Cutover(cfg, w, FoundOf(cfg, w).container, RunOf(cfg, w).result.value).calls
    else
      []
  }

  lemma CallsShape(cfg: DeploymentConfig, w: World)
    requires w.clientInit.Pass? && w.daemon.pull.Pass?
    ensures Deploy(cfg, w).calls
      == [Docker.ImagePull(cfg.app.imageName)] + FoundOf(cfg, w).calls + RunOf(cfg, w).calls + CallsAfterRun(cfg, w)
  {
    DeployShape(cfg, w);
    if RunOf(cfg, w).result.Failure? {
      var head := [Docker.ImagePull(cfg.app.imageName)] + FoundOf(cfg, w).calls + RunOf(cfg, w).calls;
      assert head + [] == head;
    }
  }

  /** After the run, nothing is looked up. */
  lemma NoLookupAfterRun(cfg: DeploymentConfig, w: World)
    ensures forall i :: 0 <= i < |CallsAfterRun(cfg, w)| ==> !Lookup(CallsAfterRun(cfg, w)[i])
  {
  }

  /** Every listing or inspection call precedes the create and start calls. */
  lemma LookupsBeforeCreates(cfg: DeploymentConfig, w: World)
    ensures LookupsFirst(Deploy(cfg, w).calls)
  {
    if w.clientInit.Pass? && w.daemon.pull.Pass? {
      CallsShape(cfg, w);
      NoLookupAfterRun(cfg, w);
      HeadCreatesNothing(cfg, w);
      LookupsFirstJoin([Docker.ImagePull(cfg.app.imageName)] + FoundOf(cfg, w).calls,
        RunOf(cfg, w).calls, CallsAfterRun(cfg, w));
    }
  }

  /** A failed `RunContainer` returns its error; nothing is stopped and Caddy
      is not contacted. */
  lemma RunFailureStopsNothing(cfg: DeploymentConfig, w: World)
    requires w.clientInit.Pass? && w.daemon.pull.Pass?
    requires RunOf(cfg, w).result.Failure?
    ensures var r := Deploy(cfg, w);
      r.result == Fail(RunOf(cfg, w).result.error) && r.newContainer.None?
      && NoStop(r.steps) && NoCaddy(r.steps)
      && forall i :: 0 <= i < |r.calls| ==> !Docker.Disturbs(r.calls[i])
  {
    DeployShape(cfg, w);
    HeadDisturbsNothing(cfg, w);
  }

  /** In `prefix + t`, the only health-check step is `t`'s first. */
  lemma HealthStepOnce(image: string, t: seq<Step>, host: string)
    requires |t| > 0 && t[0] == WaitHealthy(host)
    requires forall i :: 0 < i < |t| ==> !t[i].WaitHealthy?
    ensures var s := [Pull(image), FindOld(image), RunNew(image)] + t;
      forall i :: 0 <= i < |s| && s[i].WaitHealthy? ==> i == 3 && s[i].host == host
  {
    var s := [Pull(image), FindOld(image), RunNew(image)] + t;
    assert forall i :: 3 <= i < |s| ==> s[i] == t[i - 3];
  }

  /** The health check is aimed at `http://localhost:<new container's port>`,
      and it is made once, as the fourth step. */
  lemma HealthTargetsNewPort(cfg: DeploymentConfig, w: World)
    ensures var r := Deploy(cfg, w);
      forall i :: 0 <= i < |r.steps| && r.steps[i].WaitHealthy? ==>
        i == 3 && r.newContainer.Some? && r.steps[i].host == LocalHost(r.newContainer.value.port)
  {
    var r := Deploy(cfg, w);
    if w.clientInit.Pass? && w.daemon.pull.Pass? {
      DeployShape(cfg, w);
      var prefix := [Pull(cfg.app.imageName), FindOld(cfg.app.imageName), RunNew(cfg.app.imageName)];
      if RunOf(cfg, w).result.Success? {
        var created := RunOf(cfg, w).result.value;
        var t := Cutover(cfg, w, FoundOf(cfg, w).container, created);
        CutoverShape(cfg, w, FoundOf(cfg, w).container, created);
        HealthStepOnce(cfg.app.imageName, t.steps, LocalHost(created.port));
        assert r.steps == prefix + t.steps && r.newContainer == Some(created);
      } else {
        assert r.steps == prefix;
      }
    }
  }

  /** When the health check or the Caddy setup fails, the deployment fails,
      its last step stops the new container, the Docker client is asked to
      stop it, and every stop step and every stop or removal call names the
      new container. */
  lemma RollbackOnlyNew(cfg: DeploymentConfig, w: World)
    requires w.clientInit.Pass? && w.daemon.pull.Pass? && RunOf(cfg, w).result.Success?
    requires HealthOf(cfg, w, RunOf(cfg, w).result.value).result.Fail? || w.caddy.Fail?
    ensures var r := Deploy(cfg, w);
      var id := RunOf(cfg, w).result.value.id;
      r.result.Fail? && r.newContainer == Some(RunOf(cfg, w).result.value)
      && r.steps[|r.steps| - 1] == Stop(id) && OnlyStops(r.steps, id) && OnlyDisturbs(r.calls, id)
      && Docker.ContainerStop(id, Docker.StopTimeoutSeconds) in r.calls
  {
    var r := Deploy(cfg, w);
    DeployShape(cfg, w);
    HeadDisturbsNothing(cfg, w);
    var image := cfg.app.imageName;
    var created := RunOf(cfg, w).result.value;
    var t := Cutover(cfg, w, FoundOf(cfg, w).container, created);
    CutoverRollback(cfg, w, FoundOf(cfg, w).container, created);
    var head := [Docker.ImagePull(image)] + FoundOf(cfg, w).calls + RunOf(cfg, w).calls;
    var prefix := [Pull(image), FindOld(image), RunNew(image)];
    assert r.steps == prefix + t.steps && r.calls == head + t.calls;
    RollbackTail(prefix, head, t, created.id);
  }

  /** Appending a rolling-back cutover to a prefix that stops nothing. */
  lemma RollbackTail(prefix: seq<Step>, head: seq<Docker.Call>, t: Tail, id: string)
    requires NoStop(prefix) && forall i :: 0 <= i < |head| ==> !Docker.Disturbs(head[i])
    requires |t.steps| > 0 && t.steps[|t.steps| - 1] == Stop(id)
    requires OnlyStops(t.steps, id) && OnlyDisturbs(t.calls, id)
    requires |t.calls| > 0 && t.calls[0] == Docker.ContainerStop(id, Docker.StopTimeoutSeconds)
    ensures (prefix + t.steps)[|prefix + t.steps| - 1] == Stop(id)
    ensures OnlyStops(prefix + t.steps, id) && OnlyDisturbs(head + t.calls, id)
    ensures Docker.ContainerStop(id, Docker.StopTimeoutSeconds) in head + t.calls
  {
    SuffixOfAppend(prefix, t.steps, 1);
    StepsAppend(prefix, t.steps, id);
    CallsAppend(head, t.calls, id);
    InAppend(head, t.calls, 0);
  }

  /** An element of `b` is an element of `a + b`. */
  lemma InAppend<T>(a: seq<T>, b: seq<T>, k: nat)
    requires k < |b|
    ensures b[k] in a + b
  {
    assert (a + b)[|a| + k] == b[k];
  }

  /** An unhealthy new container is stopped (and only it); Caddy is not
      contacted and the health check's error is returned. */
  lemma HealthFailureRollsBack(cfg: DeploymentConfig, w: World)
    requires w.clientInit.Pass? && w.daemon.pull.Pass? && RunOf(cfg, w).result.Success?
    requires HealthOf(cfg, w, RunOf(cfg, w).result.value).result.Fail?
    ensures var r := Deploy(cfg, w);
      var created := RunOf(cfg, w).result.value;
      r.result == HealthOf(cfg, w, created).result && NoCaddy(r.steps)
      && r.steps[|r.steps| - 1] == Stop(created.id) && OnlyStops(r.steps, created.id)
      && OnlyDisturbs(r.calls, created.id) && Docker.ContainerStop(created.id, Docker.StopTimeoutSeconds) in r.calls
  {
    var r := Deploy(cfg, w);
    RollbackOnlyNew(cfg, w);
    DeployShape(cfg, w);
    var image := cfg.app.imageName;
    var created := RunOf(cfg, w).result.value;
    var t := Cutover(cfg, w, FoundOf(cfg, w).container, created);
    CutoverRollback(cfg, w, FoundOf(cfg, w).container, created);
    var prefix := [Pull(image), FindOld(image), RunNew(image)];
    StepsAppend(prefix, t.steps, created.id);
    assert r.steps == prefix + t.steps;
  }

  /** A failed Caddy setup stops the new container, and only it, and returns
      Caddy's error. */
  lemma CaddyFailureRollsBack(cfg: DeploymentConfig, w: World)
    requires w.clientInit.Pass? && w.daemon.pull.Pass? && RunOf(cfg, w).result.Success?
    requires HealthOf(cfg, w, RunOf(cfg, w).result.value).result.Pass? && w.caddy.Fail?
    ensures var r := Deploy(cfg, w);
      var created := RunOf(cfg, w).result.value;
      r.result == w.caddy && r.steps[|r.steps| - 2..] == [SetupCaddy(created.port), Stop(created.id)]
      && OnlyStops(r.steps, created.id) && OnlyDisturbs(r.calls, created.id)
      && Docker.ContainerStop(created.id, Docker.StopTimeoutSeconds) in r.calls
  {
    RollbackOnlyNew(cfg, w);
    DeployShape(cfg, w);
    var image := cfg.app.imageName;
    var created := RunOf(cfg, w).result.value;
    var t := Cutover(cfg, w, FoundOf(cfg, w).container, created);
    CutoverRollback(cfg, w, FoundOf(cfg, w).container, created);
    SuffixOfAppend([Pull(image), FindOld(image), RunNew(image)], t.steps, 2);
  }

  /** `b`'s last `n` elements end `a + b` too. */
  lemma SuffixOfAppend<T>(a: seq<T>, b: seq<T>, n: nat)
    requires n <= |b|
    ensures (a + b)[|a + b| - n..] == b[|b| - n..]
  {
    var s := a + b;
    assert s[|a|..] == b;
    assert s[|s| - n..] == s[|a|..][|b| - n..];
  }

  /** Appending a retiring cutover to a prefix that stops nothing. */
  lemma RetireTail(prefix: seq<Step>, head: seq<Docker.Call>, t: Tail, port: int, id: string)
    requires NoStop(prefix) && forall i :: 0 <= i < |head| ==> !Docker.Disturbs(head[i])
    requires |t.steps| == 3 && t.steps[0].WaitHealthy? && t.steps[1..] == [SetupCaddy(port), Stop(id)]
    requires OnlyDisturbs(t.calls, id)
    ensures (prefix + t.steps)[|prefix + t.steps| - 2..] == [SetupCaddy(port), Stop(id)]
    ensures OnlyStops(prefix + t.steps, id) && OnlyDisturbs(head + t.calls, id)
    ensures forall i :: 0 <= i < |prefix + t.steps| - 1 ==> !(prefix + t.steps)[i].Stop?
  {
    var s := prefix + t.steps;
    assert forall i :: 0 <= i < |prefix| ==> s[i] == prefix[i];
    assert s[|prefix|] == t.steps[0] && s[|prefix| + 1] == t.steps[1];
    assert t.steps[1] == SetupCaddy(port) && t.steps[2] == Stop(id);
    SuffixOfAppend(prefix, t.steps, 2);
    StepsAppend(prefix, t.steps, id);
    CallsAppend(head, t.calls, id);
  }

  /** The old container is stopped only after the health check and the Caddy
      setup have both succeeded, and then as the very last step and the only
      stop step; no other container is stopped or removed on that path. */
  lemma RetireOnlyAfterCutover(cfg: DeploymentConfig, w: World)
    requires Deploy(cfg, w).result.Pass? && Deploy(cfg, w).oldContainer.Some?
    ensures var r := Deploy(cfg, w);
      r.newContainer.Some?
      && r.steps[|r.steps| - 2..] == [SetupCaddy(r.newContainer.value.port), Stop(r.oldContainer.value.id)]
    ensures OnlyStops(Deploy(cfg, w).steps, Deploy(cfg, w).oldContainer.value.id)
    ensures OnlyDisturbs(Deploy(cfg, w).calls, Deploy(cfg, w).oldContainer.value.id)
    ensures var r := Deploy(cfg, w);
      forall i :: 0 <= i < |r.steps| - 1 ==> !r.steps[i].Stop?
  {
    DeployShape(cfg, w);
    HeadDisturbsNothing(cfg, w);
    var image := cfg.app.imageName;
    var previous, created := FoundOf(cfg, w).container, RunOf(cfg, w).result.value;
    CutoverShape(cfg, w, previous, created);
    CutoverRetire(cfg, w, previous, created);
    RetireTail([Pull(image), FindOld(image), RunNew(image)],
      [Docker.ImagePull(image)] + FoundOf(cfg, w).calls + RunOf(cfg, w).calls,
      Cutover(cfg, w, previous, created), created.port, previous.value.id);
  }

  /** Appending a cutover that only sets up Caddy to a prefix that stops
      nothing. */
  lemma NoRetireTail(prefix: seq<Step>, t: seq<Step>, port: int)
    requires NoStop(prefix) && |t| == 2 && !t[0].Stop? && t[1..] == [SetupCaddy(port)]
    ensures NoStop(prefix + t) && (prefix + t)[|prefix + t| - 1] == SetupCaddy(port)
  {
    assert t[1] == SetupCaddy(port);
    StepsAppend(prefix, t, "");
  }

  /** A successful deployment that found no old container stops nothing and
      ends with the Caddy setup. */
  lemma NothingToRetire(cfg: DeploymentConfig, w: World)
    requires Deploy(cfg, w).result.Pass? && Deploy(cfg, w).oldContainer.None?
    ensures var r := Deploy(cfg, w);
      r.newContainer.Some? && NoStop(r.steps)
      && r.steps[|r.steps| - 1] == SetupCaddy(r.newContainer.value.port)
      && forall i :: 0 <= i < |r.calls| ==> !Docker.Disturbs(r.calls[i])
  {
    DeployShape(cfg, w);
    HeadDisturbsNothing(cfg, w);
    var image := cfg.app.imageName;
    var created := RunOf(cfg, w).result.value;
    var t := Cutover(cfg, w, None, created);
    CutoverShape(cfg, w, None, created);
    CutoverRetire(cfg, w, None, created);
    NoRetireTail([Pull(image), FindOld(image), RunNew(image)], t.steps, created.port);
    assert t.calls == [];
  }

  /** On every failure path nothing is stopped or removed unless a new
      container was started, and then only the new container is. */
  lemma FailureStopsOnlyNew(cfg: DeploymentConfig, w: World)
    requires Deploy(cfg, w).result.Fail?
    ensures var r := Deploy(cfg, w);
      r.newContainer.None? ==> NoStop(r.steps) && forall i :: 0 <= i < |r.calls| ==> !Docker.Disturbs(r.calls[i])
    ensures var r := Deploy(cfg, w);
      r.newContainer.Some? ==> OnlyStops(r.steps, r.newContainer.value.id) && OnlyDisturbs(r.calls, r.newContainer.value.id)
  {
    if w.clientInit.Pass? && w.daemon.pull.Pass? {
      DeployShape(cfg, w);
      if RunOf(cfg, w).result.Success? {
        CutoverRollback(cfg, w, FoundOf(cfg, w).container, RunOf(cfg, w).result.value);
        RollbackOnlyNew(cfg, w);
      } else {
        RunFailureStopsNothing(cfg, w);
      }
    }
  }

  /** No step stops `id` and no Docker call stops or removes it. */
  predicate Untouched(steps: seq<Step>, calls: seq<Docker.Call>, id: string) {
    (forall i :: 0 <= i < |steps| && steps[i].Stop? ==> steps[i].id != id)
    && (forall i :: 0 <= i < |calls| && Docker.Disturbs(calls[i]) ==> calls[i].id != id)
  }

  /** The container `Deploy` starts is never the one it found running, so
      the new container is never mistaken for the old one. */
  lemma NewNeverOld(cfg: DeploymentConfig, w: World)
    requires Docker.FreshIds(w.daemon)
    ensures var r := Deploy(cfg, w);
      r.oldContainer.Some? && r.newContainer.Some? ==> r.oldContainer.value.id != r.newContainer.value.id
  {
  }

  /** A failed deployment leaves the old container running: no step stops it
      and no Docker call stops or removes it. */
  lemma OldUntouchedOnFailure(cfg: DeploymentConfig, w: World)
    requires Docker.FreshIds(w.daemon)
    requires Deploy(cfg, w).result.Fail? && Deploy(cfg, w).oldContainer.Some?
    ensures var r := Deploy(cfg, w);
      Untouched(r.steps, r.calls, r.oldContainer.value.id)
  {
    var r := Deploy(cfg, w);
    FailureStopsOnlyNew(cfg, w);
    NewNeverOld(cfg, w);
  }

  /** A successful deployment never stops or removes the container it
      started. */
  lemma NewUntouchedOnSuccess(cfg: DeploymentConfig, w: World)
    requires Docker.FreshIds(w.daemon)
    requires Deploy(cfg, w).result.Pass?
    ensures var r := Deploy(cfg, w);
      r.newContainer.Some? && Untouched(r.steps, r.calls, r.newContainer.value.id)
  {
    var r := Deploy(cfg, w);
    if r.oldContainer.Some? {
      RetireOnlyAfterCutover(cfg, w);
      NewNeverOld(cfg, w);
    } else {
      NothingToRetire(cfg, w);
    }
  }

  /** The errors of stopping or removing containers never change what `Deploy`
      returns: a failed retirement of the old container still reports success. */
  lemma StopErrorsIgnored(cfg: DeploymentConfig, w: World, stopErrors: map<string, Error>, removeErrors: map<string, Error>)
    ensures Deploy(cfg, w.(daemon := w.daemon.(stopErrors := stopErrors, removeErrors := removeErrors))).result
      == Deploy(cfg, w).result
  {
    var d := w.daemon;
    var w' := w.(daemon := d.(stopErrors := stopErrors, removeErrors := removeErrors));
    if d.listing.Success? {
      Docker.FirstMatchDependsOnImages(d, w'.daemon, d.listing.value, Docker.BaseImageName(cfg.app.imageName));
    }
    assert FoundOf(cfg, w').container == FoundOf(cfg, w).container;
    assert RunOf(cfg, w') == RunOf(cfg, w);
    if RunOf(cfg, w).result.Success? {
      CutoverIgnoresStopErrors(cfg, w, w', FoundOf(cfg, w).container, RunOf(cfg, w).result.value);
    }
  }

  /** The cutover's result does not depend on the stop and remove errors. */
  lemma CutoverIgnoresStopErrors(cfg: DeploymentConfig, w: World, w': World,
                                 previous: Option<Docker.Container>, created: Docker.Container)
    requires w' == w.(daemon := w.daemon.(stopErrors := w'.daemon.stopErrors, removeErrors := w'.daemon.removeErrors))
    ensures Cutover(cfg, w', previous, created).result == Cutover(cfg, w, previous, created).result
  {
    assert HealthOf(cfg, w', created) == HealthOf(cfg, w, created);
  }

  /** A first deployment that goes through: nothing to retire, so nothing is
      stopped, and the Caddy setup is called with the new container's port. */
  lemma FirstDeploymentSucceeds(cfg: DeploymentConfig, w: World)
    requires w.clientInit.Pass? && w.daemon.pull.Pass? && w.daemon.listing == Success([])
    requires RunOf(cfg, w).result.Success?
    requires HealthOf(cfg, w, RunOf(cfg, w).result.value).result.Pass? && w.caddy.Pass?
    ensures var r := Deploy(cfg, w);
      r.result.Pass? && r.oldContainer.None? && NoStop(r.steps)
      && r.steps[4] == SetupCaddy(RunOf(cfg, w).result.value.port)
  {
    DeployShape(cfg, w);
    CutoverRollback(cfg, w, None, RunOf(cfg, w).result.value);
    NothingToRetire(cfg, w);
  }

  /** A new container that answers 500 to each of three health requests is
      asked three times, then rolled back; the deployment fails. */
  lemma AlwaysUnhealthyRollsBack(cfg: DeploymentConfig, w: World)
    requires w.clientInit.Pass? && w.daemon.pull.Pass? && RunOf(cfg, w).result.Success?
    requires cfg.healthCheck.endpoint != "" && cfg.healthCheck.maxRetries == 3
    requires forall n :: w.respond(n) == Health.Answer(500)
    ensures var r := Deploy(cfg, w);
      var created := RunOf(cfg, w).result.value;
      r.result.Fail? && r.steps[|r.steps| - 1] == Stop(created.id) && OnlyStops(r.steps, created.id)
      && Health.Requests(HealthOf(cfg, w, created).events) == 3
  {
    var created := RunOf(cfg, w).result.value;
    var host := LocalHost(created.port);
    Health.CheckPasses(host, cfg.healthCheck, w.respond);
    Health.CheckCounts(host, cfg.healthCheck, w.respond);
    HealthFailureRollsBack(cfg, w);
  }
}
