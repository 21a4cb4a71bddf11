# slick-deploy, modelled in Dafny

slick-deploy runs a zero-downtime deployment of one containerised app on one
host. It works in this order:

1. Pull the image.
2. Remember the container that runs the previous version, if there is one.
3. Start a new container on the first free host port of the configured range.
4. Poll the new container's health endpoint.
5. Call `caddy.SetupCaddy` with the new port, meant to point the Caddy reverse
   proxy at it.
6. Only then stop and remove the old container.

If the health check or the Caddy setup fails, the new container is stopped
instead and the old one keeps serving.

This project models the sequential core of that tool as pure functions over
its collaborators' answers, and proves what the code promises about them:

| module | file | models |
|---|---|---|
| `Results` | results.dfy | `Option`, `Result` and `Outcome` (an error or nil) |
| `Errors` | errors.dfy | the errors the core returns or wraps |
| `Decimal` | decimal.dfy | `fmt.Sprintf("%d", n)` and its inverse, used for host ports and URLs |
| `Ports` | ports.dfy | `PortManager`, `NewPortManager`, `IsPortAvailable`, `AllocatePort` (pkg/utils/port.go) |
| `Health` | health.dfy | `CheckHealthWithClock` (internal/health/health.go) |
| `Config` | config.dfy | the configuration records, `replaceEnvVariables`, the defaults and the post-decoding rewrites of `LoadConfig` (internal/config/config.go) |
| `Docker` | docker.dfy | `PullImage`, `FindContainer`, `RunContainer`, `StopContainer` (internal/docker/docker.go) |
| `Deploy` | deploy.dfy | `Deploy` (internal/deploy/deploy.go) |

The model replaces each outside collaborator as follows:

- **Docker daemon.** A record of canned answers: pull outcome, container
  listing, inspected images, create and start outcomes, and per-container
  stop and remove errors. Every Docker operation returns its result together
  with the list of client calls it made. The daemon gives a new container a
  fresh ID; `Docker.FreshIds` states this, and the lemmas that tell the old
  and new containers apart assume it.
- **TCP dial of `IsPortAvailable`.** The set of host ports that have a
  listener.
- **HTTP client of the health check.** A function from request number to
  answer: a transport error or a status code. The clock becomes a list of
  `Get` and `Sleep` events.
- **`os.LookupEnv`.** An environment map.
- **YAML decoder.** A function applied to the default record.
- **Caddy setup and Docker client creation.** An outcome each.

`Deploy` returns its result, the steps it took (pull, find old, run new,
wait healthy, set up Caddy, stop), the Docker calls in order, and the old and
new containers. This lets its rollback rules be stated as properties of that
record.

The health check sleeps after every failed attempt, including the last one,
before it gives up (internal/health/health.go:36-51). `Health.CheckFails` and `Health.CheckCounts` state
the code's behaviour: a failed check sleeps exactly as many times as it sent
requests.

## Model

| member | source | states |
|---|---|---|
| Ports.IsPortAvailable | pkg/utils/port.go:29-42 | a port is available exactly when nothing listens on it; `AllocatePort` and `LowestFreePort` state that the allocator returns only such ports |
| Ports.NewPortManager | pkg/utils/port.go:20-26 | the manager holds the given start, maximum and step, and an empty `Allocated` map |
| Ports.ScanFrom | pkg/utils/port.go:49-53 | the scan from a probe returns a candidate at or above it that has no listener, with every candidate between them taken; it fails with "no available ports" exactly when every candidate from the probe on is taken |
| Ports.AllocatePort | pkg/utils/port.go:45-56 | a returned port lies in [StartPort, MaxPort], sits on the StartPort + k·PortIncrement grid and has no listener; every candidate below it has a listener; the error comes exactly when every candidate is taken, which includes an empty range |
| Ports.AllocatePortLoop | pkg/utils/port.go:49-55 | the ascending `for` loop computes the same answer as the declarative `AllocatePort` |
| Ports.AllocateIgnoresAllocated | pkg/utils/port.go:45-56 | the `Allocated` map has no influence on the answer, so the same occupancy always gives the same port |
| Ports.ScanIgnoresAllocated | pkg/utils/port.go:49-53 | each step of the scan ignores the `Allocated` map |
| Ports.LowestFreePort | pkg/utils/port.go:49-52 | with step 1, the answer is the lowest port of the range that has no listener |
| Ports.EmptyRangeFails | pkg/utils/port.go:49-55 | StartPort > MaxPort always gives the error |
| Ports.FewerListenersLowerPort | pkg/utils/port.go:49-52 | freeing ports never makes allocation fail and never raises the port it returns |
| Health.FirstHealthy | internal/health/health.go:36-47 | the reference answer: the index of the first 2xx answer among requests attempt … MaxRetries−1, or MaxRetries when there is none |
| Health.Poll | internal/health/health.go:36-53 | the retry loop passes exactly when the first 2xx answer comes before MaxRetries. Each earlier request is followed by one sleep, and the 2xx request by none. On failure the loop made one request and one sleep per remaining attempt and reports the URL and MaxRetries |
| Health.TrimSlash | internal/health/health.go:22-24 | the endpoint is the trimmed value with at most one `/` put back in front |
| Health.CheckHealthWithClock | internal/health/health.go:16-26 | an empty endpoint or an empty host passes with no request and no sleep; only the endpoint of the written-back configuration changes |
| Health.CheckPasses | internal/health/health.go:36-53 | the check passes if and only if one of the first MaxRetries answers is 2xx; it then stops at the first such answer, after one request and one sleep per earlier failure |
| Health.CheckFails | internal/health/health.go:36-53 | a failed check made max(MaxRetries, 0) requests, slept after every one of them including the last, saw no 2xx answer, and reports the URL and MaxRetries |
| Health.CheckCounts | internal/health/health.go:36-53 | at most MaxRetries requests; on failure sleeps = requests = max(MaxRetries, 0); on success one sleep fewer than requests |
| Health.PassCounts | internal/health/health.go:36-47 | a passing enabled check made at most MaxRetries requests and slept once fewer |
| Health.EndpointNormalised | internal/health/health.go:21-26 | exactly one leading `/` is dropped, and every request goes to host + "/" + the trimmed endpoint |
| Health.NoRetriesFailsImmediately | internal/health/health.go:36-53 | MaxRetries ≤ 0 fails with no request and no sleep |
| Health.AlwaysFailingServer | internal/health/health.go:36-53 | a server that always answers 500, checked with three retries, gets three requests and three sleeps, and the check fails |
| Config.DefaultConfig | internal/config/config.go:112-127 | the defaults are port range 8000–9000, admin API http://localhost:2019, and health timeout, interval and retries of 5, 5 and 3; the name, image, container port, network, env and volume lists, registry credentials, Caddy global options and rules are the zero value |
| Config.NameRun | internal/config/config.go:82 | the greedy `[a-zA-Z0-9_]*` run: every character it takes is a name character, and the character after it is not |
| Config.NameRunOfName | internal/config/config.go:82 | the name-character run of a valid name followed by `}` is exactly the name |
| Config.MatchAt | internal/config/config.go:82 | a match is a name of the form `[A-Za-z_][A-Za-z0-9_]*` whose placeholder `{env.NAME}` starts the text |
| Config.MatchAtComplete | internal/config/config.go:82-86 | every well-formed placeholder at the start of the text is matched, with exactly its name |
| Config.NoMatchWithoutBrace | internal/config/config.go:82 | no placeholder starts at a character other than `{` |
| Config.ExpandNoMatch | internal/config/config.go:84 | a character where no placeholder starts is copied, and the scan moves on by one character |
| Config.ExpandSet | internal/config/config.go:84-90 | a placeholder of a set variable becomes exactly its value, and the scan resumes after the placeholder |
| Config.ExpandUnset | internal/config/config.go:91-93 | a placeholder of an unset variable is kept verbatim |
| Config.ExpandPlain | internal/config/config.go:82-84 | text that holds no `{` is unchanged |
| Config.Expand | internal/config/config.go:81-95 | with no variables set, substitution is the identity; `MatchAt`, `MatchAtComplete`, `ExpandSet`, `ExpandUnset`, `ExpandNoMatch` and `ExpandPlain` state what each placeholder and each other character becomes |
| Config.EmptyNameKept | internal/config/config.go:82 | `{env.}` is not a placeholder and stays as written |
| Config.DigitFirstNameKept | internal/config/config.go:82 | `{env.` followed by a digit starts no placeholder: such text without `{`, e.g. `{env.1X}`, stays as written |
| Config.ValueNotRescanned | internal/config/config.go:84-90 | a value that itself reads `{env.B}` is inserted literally and is not expanded again |
| Config.ExpandRuleTls | internal/config/config.go:135-138 | the rule count and order stay the same; each rule's match, reverse proxies and handles stay the same; only its TLS value is substituted |
| Config.ExpandRuleTlsEmptyEnvironment | internal/config/config.go:135-138 | with no variables set, the TLS rewrite leaves every rule unchanged |
| Config.ResolvePassword | internal/config/config.go:140-145 | the password changes only when username and password are both non-empty and the password names a set variable; it then becomes that variable's value; the username never changes |
| Config.PostProcess | internal/config/config.go:135-145 | after decoding, only the rules' TLS values and the registry password can change |
| Config.LoadConfig | internal/config/config.go:97-148 | an unopenable file gives "error opening config file"; a decoding error is returned as is; otherwise the decoded record, laid over the defaults, is post-processed |
| Config.UntouchedDefaultsSurvive | internal/config/config.go:112-133 | a file that sets none of the defaulted fields loads with the defaults |
| Config.EmptyEnvironmentKeepsDecoded | internal/config/config.go:129-147 | with no variables set, loading returns the decoder's answer unchanged |
| Decimal.FormatRoundTrip | internal/docker/docker.go:157 | the decimal text of a port reads back as the same port |
| Decimal.FormatInjective | internal/deploy/deploy.go:48 | distinct numbers have distinct decimal texts |
| Decimal.DigitsRoundTrip | internal/docker/docker.go:157 | the digits of a natural number read back as that number |
| Docker.PullImage | internal/docker/docker.go:85-88 | a pull is one `ImagePull` of the image reference, and its error is returned as is |
| Docker.BaseImageName | internal/docker/docker.go:195 | the base name is the prefix before the first `:`, or the whole name when there is no `:` |
| Docker.BaseImageNameDropsTag | internal/docker/docker.go:195 | a `:tag` suffix never changes the base name |
| Docker.RegistryPortSharesBaseName | internal/docker/docker.go:204 | every image of a registry whose host carries a port has the host as base name, so such images cannot be told apart |
| Docker.FirstMatchIndex | internal/docker/docker.go:197-210 | the first listed container whose inspected image has the wanted base name; a container that fails to inspect never matches |
| Docker.FirstMatchDependsOnImages | internal/docker/docker.go:197-210 | which listed container matches depends only on the inspected images, not on the pull, create, start, stop or remove answers |
| Docker.Inspections | internal/docker/docker.go:197-201 | the listed containers are inspected one `ContainerInspect` per ID, in listing order |
| Docker.FindContainer | internal/docker/docker.go:187-214 | a listing error gives none after one list call; otherwise the first match, with its ID and port 0, after inspecting the containers up to it in order; with no match, none |
| Docker.FindIgnoresTag | internal/docker/docker.go:195-210 | two references that differ only in their tag find the same container |
| Docker.PassEnv | internal/docker/docker.go:137-142 | every entry is `NAME=value` for a listed name that is set, and every listed set name has its entry |
| Docker.PassEnvAppend | internal/docker/docker.go:137-142 | the entries keep the order of the listed names |
| Docker.PassEnvAllSet | internal/docker/docker.go:137-142 | when every listed name is set, entry i is `names[i]=value` |
| Docker.CreateRequest | internal/docker/docker.go:144-169 | the request names the image and the passed-through env; it binds `<container port>/tcp` to 0.0.0.0 at the allocated port, written as its canonical decimal text with no leading zero and read back from it; binds are set if and only if there are volumes, and the network mode if and only if a network is named |
| Docker.RangeManager | internal/docker/docker.go:127 | the allocator `RunContainer` uses has step 1 |
| Docker.RunContainer | internal/docker/docker.go:124-185 | an allocation failure returns "no available ports" with no Docker call; otherwise create comes first; a create error means start is never called; a start error is wrapped; it succeeds if and only if a port is free and create and start succeed, and then returns the created ID with the allocated port; every call creates or starts |
| Docker.RunPortIsLowestFree | internal/docker/docker.go:127-132 | the new container's port is in the configured range, has no listener, and every lower port of the range has one |
| Docker.StopContainer | internal/docker/docker.go:216-237 | stop with a 15-second timeout comes first and `Close` last; remove is called if and only if stop succeeded; the stop error, then the remove error, is returned; only the given container is stopped or removed |
| Deploy.LocalHostInjective | internal/deploy/deploy.go:48 | different ports give different health-check hosts |
| Deploy.Cutover | internal/deploy/deploy.go:47-70 | the cutover takes at least the health check and one more step, and none of its Docker calls lists, inspects, creates or starts a container |
| Deploy.CutoverShape | internal/deploy/deploy.go:47-70 | after the run: one health check of `http://localhost:<new port>` comes first, followed only by Caddy and stop steps and only stop, remove or close calls |
| Deploy.CutoverRollback | internal/deploy/deploy.go:47-62 | the cutover fails if and only if the health check or Caddy fails. It returns that error, contacts Caddy only after a passing health check, ends by stopping the new container, and stops or removes nothing else |
| Deploy.CutoverRetire | internal/deploy/deploy.go:56-70 | a successful cutover calls the Caddy setup with the new port; it then stops the old container as its last step, or stops nothing when there is none |
| Deploy.Deploy | internal/deploy/deploy.go:16-71 | only a deployment that started a new container and set up Caddy succeeds; the old container is one the daemon listed and the new one is the one it created. The lemmas below state its order of steps and its rollback rules |
| Deploy.DeployShape | internal/deploy/deploy.go:16-40 | a deployment past the pull is pull, find, run, then (if the run succeeded) the cutover, and its calls are concatenated in that order |
| Deploy.ClientFailureTouchesNothing | internal/deploy/deploy.go:19-23 | without a Docker client nothing is done and the wrapped error is returned |
| Deploy.PullFailureTouchesNothing | internal/deploy/deploy.go:28-31 | a failed pull returns its error, and the pull is the only step and the only call |
| Deploy.FindBeforeRun | internal/deploy/deploy.go:33-37 | the old-container lookup is the second step and the run the third, and neither recurs |
| Deploy.LookupsBeforeCreates | internal/deploy/deploy.go:33-37 | every list or inspect call precedes every create or start call; that the new container is never reported as the old one is `Deploy.NewNeverOld` |
| Deploy.RunFailureStopsNothing | internal/deploy/deploy.go:37-40 | a failed run returns its error with no stop step, no Caddy step and no stop or remove call |
| Deploy.HealthTargetsNewPort | internal/deploy/deploy.go:47-49 | the one health check, the fourth step, targets `http://localhost:<new container's port>` |
| Deploy.RollbackOnlyNew | internal/deploy/deploy.go:49-62 | when the health check or Caddy fails, the deployment fails, ends by stopping the new container, asks the Docker client to stop it, and stops or removes no other container |
| Deploy.HealthFailureRollsBack | internal/deploy/deploy.go:49-54 | an unhealthy new container: the health error is returned, Caddy is not contacted, and only the new container is stopped, as the last step and by a Docker stop call |
| Deploy.CaddyFailureRollsBack | internal/deploy/deploy.go:56-62 | a failed Caddy setup: its error is returned, the last two steps are the Caddy setup and the stop of the new container, a Docker stop call names the new container, and nothing but it is stopped or removed |
| Deploy.RetireOnlyAfterCutover | internal/deploy/deploy.go:64-67 | on success with an old container, the last two steps are the Caddy setup and the stop of the old container, that stop is the only stop step, and no other container is stopped or removed |
| Deploy.NothingToRetire | internal/deploy/deploy.go:64-70 | on success without an old container nothing is stopped or removed, and the Caddy setup is the last step |
| Deploy.FailureStopsOnlyNew | internal/deploy/deploy.go:16-62 | on every failure path the only container stopped or removed is the new one, and nothing is stopped when no new container exists |
| Deploy.NewNeverOld | internal/deploy/deploy.go:33-37 | when the daemon gives new containers fresh IDs, the container started is never the one found as the old container |
| Deploy.OldUntouchedOnFailure | internal/deploy/deploy.go:49-62 | when the daemon gives new containers fresh IDs, a failed deployment never stops or removes the old container, so it keeps serving |
| Deploy.NewUntouchedOnSuccess | internal/deploy/deploy.go:64-70 | when the daemon gives new containers fresh IDs, a successful deployment never stops or removes the container it started |
| Deploy.StopErrorsIgnored | internal/deploy/deploy.go:64-70 | errors from stopping or removing containers never change what `Deploy` returns; a failed retirement still reports success |
| Deploy.FirstDeploymentSucceeds | internal/deploy/deploy.go:33-70 | with no running containers, a healthy container and a working Caddy, the deployment succeeds, stops nothing, and calls the Caddy setup with the new port as its fifth step |
| Deploy.AlwaysUnhealthyRollsBack | internal/deploy/deploy.go:47-54 | a new container that always answers 500, checked with three retries, gets three requests, is stopped, and the deployment fails |

## Left out

- `handleSignals` (internal/deploy/deploy.go:73-88) is a goroutine racing a signal channel. This is concurrency; it does not change the main path.
- The real I/O behind the collaborators is not modelled: the TCP dial with its 2-second timeout, the HTTP client and its timeout, clockwork's clock, `os.LookupEnv` and the process environment.
- The `PortManager` mutex is not modelled, since the model is sequential.
- Go's 64-bit `int` overflow in the port scan and in the retry counter is not modelled. Ports and counts are unbounded integers.
- Ports.AllocatePort: requires PortIncrement > 0. With a step of 0 the Go loop ends only when the first probe succeeds or the range is empty, and otherwise spins forever. With a negative step it probes StartPort, StartPort + step, … downwards and returns the first free probe, which is StartPort or a port below it, outside the configured range. In the listening-set model it would never end if no probe were free. The real dial to port 0 or a negative port always fails, so such a port counts as available and the Go loop ends there at the latest. The only caller passes 1.
- `PullImage` is modelled as one `ImagePull` call with its outcome. The registry credentials (JSON, then base64) and the progress-stream decoding and printing are not modelled. A decoding error is folded into the pull outcome.
- The YAML decoding in `LoadConfig` is an abstract function applied to the defaults. Reading the file is folded into that function, and the error of `io.ReadAll` is ignored as in the source.
- Config.LoadConfig: on a decoding error Go also returns the partly decoded record. The model returns only the error.
- `StreamLogs`, `GetStatus` and internal/status/status.go are output formatting over streams, so they are not modelled.
- `caddy.SetupCaddy` and the Caddy admin client (internal/caddy) are one abstract outcome. The Caddyfile rendering and the admin API calls are not modelled.
- The `SetupCaddy` step records only the port passed at internal/deploy/deploy.go:57. `SetupCaddy` (internal/caddy/caddy.go:67-93) never uses that port: it fetches the current Caddy configuration, bootstraps an empty one when needed, and prints it, and no reverse-proxy route is added. So a successful deployment retires the old container without repointing the proxy, and no contract here claims the proxy serves the new port.
- cmd/slick is command-line wiring and is not part of this model.
- Progress lines printed with `fmt.Println` are not modelled. The steps in the deployment record stand in for them.
- Docker.StopContainer: `defer Close` is modelled as a final `Close` call. Later calls on a closed client are not modelled, because `Deploy` calls `StopContainer` at most once.
- Deploy.NewNeverOld, Deploy.OldUntouchedOnFailure and Deploy.NewUntouchedOnSuccess require `Docker.FreshIds`. A daemon that answered `ContainerCreate` with the ID of a listed container would make the new container look like the old one and the rollback stop the old container; Docker does not do that, and the source relies on it.
- Health.CheckHealthWithClock: the written-back endpoint is returned in the probe record. The caller's copy of the configuration is not modelled as shared state.
