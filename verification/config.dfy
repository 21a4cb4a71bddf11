/** The deployment configuration of internal/config/config.go: the record
    types, the built-in defaults, `{env.NAME}` placeholder substitution and the
    rewrites `LoadConfig` applies after decoding the file. The YAML decoder and
    `os.LookupEnv` are parameters: a function from the pre-filled record to the
    decoded one, and a map from variable names to values. */
module Config {
  import opened Results
  import opened Errors

  datatype PortRange = PortRange(start: int, end: int)

  datatype RegistryConfig = RegistryConfig(username: string, password: string)

  datatype App = App(
    name: string,
    imageName: string,
    registry: RegistryConfig,
    containerPort: int,
    network: string,
    env: seq<string>,
    portRange: PortRange,
    volumes: seq<string>)

  datatype ReverseProxy = ReverseProxy(path: string, to: string)

  datatype Handle = Handle(path: string, directives: seq<string>)

  datatype Rule = Rule(
    matcher: string,
    tls: string,
    reverseProxy: seq<ReverseProxy>,
    handle: seq<Handle>)

  datatype OnDemandTlsConfig = OnDemandTlsConfig(ask: string, interval: string, burst: string)

  datatype GlobalOptions = GlobalOptions(email: string, onDemandTls: OnDemandTlsConfig)

  datatype CaddyConfig = CaddyConfig(adminApi: string, global: GlobalOptions, rules: seq<Rule>)

  datatype HealthCheck = HealthCheck(
    endpoint: string,
    timeoutSeconds: int,
    intervalSeconds: int,
    maxRetries: int)

  datatype DeploymentConfig = DeploymentConfig(app: App, caddy: CaddyConfig, healthCheck: HealthCheck)

  /** The process environment as `os.LookupEnv` sees it. */
  type Environment = map<string, string>

  // ---------------------------------------------------------------------------
  // Defaults

  const DefaultStartPort := 8000
  const DefaultEndPort := 9000
  const DefaultAdminApi := "http://localhost:2019"
  const DefaultTimeoutSeconds := 5
  const DefaultIntervalSeconds := 5
  const DefaultMaxRetries := 3

  /** The record `LoadConfig` fills in before decoding the file; every other
      field holds Go's zero value. */
  function DefaultConfig(): (c: DeploymentConfig)
    ensures c.app.portRange == PortRange(8000, 9000)
    ensures c.caddy.adminApi == "http://localhost:2019"
    ensures c.healthCheck == HealthCheck("", 5, 5, 3)
    ensures c.app.registry == RegistryConfig("", "") && c.caddy.rules == []
    ensures c.app.imageName == "" && c.app.env == [] && c.app.volumes == [] && c.app.network == ""
    ensures c.app.name == "" && c.app.containerPort == 0
    ensures c.caddy.global == GlobalOptions("", OnDemandTlsConfig("", "", ""))
  {
    DeploymentConfig(
      App("", "", RegistryConfig("", ""), 0, "", [], PortRange(DefaultStartPort, DefaultEndPort), []),
      CaddyConfig(DefaultAdminApi, GlobalOptions("", OnDemandTlsConfig("", "", "")), []),
      HealthCheck("", DefaultTimeoutSeconds, DefaultIntervalSeconds, DefaultMaxRetries))
  }

  // ---------------------------------------------------------------------------
  // `{env.NAME}` placeholders

  /** First character of a variable name: `[a-zA-Z_]`. */
  predicate IsNameStart(c: char) {
    ('a' <= c <= 'z') || ('A' <= c <= 'Z') || c == '_'
  }

  /** Later characters of a variable name: `[a-zA-Z0-9_]`. */
  predicate IsNameChar(c: char) {
    IsNameStart(c) || ('0' <= c <= '9')
  }

  /** A name the pattern `[a-zA-Z_][a-zA-Z0-9_]*` accepts. */
  predicate ValidName(name: string) {
    |name| > 0 && IsNameStart(name[0]) && forall i :: 0 <= i < |name| ==> IsNameChar(name[i])
  }

  /** The placeholder text for a variable name. */
  function Placeholder(name: string): string {
    "{env." + name + "}"
  }

  /** Length of the longest prefix of `s` made of name characters. */
  function NameRun(s: string): (n: nat)
    ensures n <= |s|
    ensures forall i :: 0 <= i < n ==> IsNameChar(s[i])
    ensures n < |s| ==> !IsNameChar(s[n])
  {
    if |s| == 0 || !IsNameChar(s[0]) then 0 else 1 + NameRun(s[1..])
  }

  /** The name run stops exactly at the end of a name followed by a non-name character. */
  lemma {:induction false} NameRunOfName(name: string, rest: string)
    requires forall i :: 0 <= i < |name| ==> IsNameChar(name[i])
    requires |rest| > 0 && !IsNameChar(rest[0])
    ensures NameRun(name + rest) == |name|
    decreases |name|
  {
    if |name| > 0 {
      assert (name + rest)[1..] == name[1..] + rest;
      NameRunOfName(name[1..], rest);
    } else {
      assert name + rest == rest;
    }
  }

  /** The placeholder the pattern `\{env\.([a-zA-Z_][a-zA-Z0-9_]*)\}` matches at
      the very start of `s`, if any. The name class excludes `}`, so at most one
      match starts at a given position (see `MatchAtComplete`). */
  function MatchAt(s: string): (r: Option<string>)
    ensures r.Some? ==> ValidName(r.value) && Placeholder(r.value) <= s
  {
    if |s| >= 5 && s[..5] == "{env." then
      var t := s[5..];
      var n := NameRun(t);
      if n > 0 && IsNameStart(t[0]) && n < |t| && t[n] == '}' then
        assert s == "{env." + t;
        assert Placeholder(t[..n]) == s[..n + 6];
        Some(t[..n])
      else
        None
    else
      None
  }

  /** Whenever `s` starts with a well-formed placeholder, `MatchAt` finds
      exactly that one. */
  lemma MatchAtComplete(name: string, s: string)
    requires ValidName(name) && Placeholder(name) <= s
    ensures MatchAt(s) == Some(name)
  {
    var p := Placeholder(name);
    assert s[..|p|] == p;
    assert s[..5] == p[..5] == "{env.";
    var t := s[5..];
    assert t[..|name|] == name;
    assert t[|name|] == p[|name| + 5] == '}';
    assert t == name + t[|name|..];
    NameRunOfName(name, t[|name|..]);
    assert t[0] == name[0];
  }

  /** `replaceEnvVariables`: every placeholder whose variable is set is replaced
      by its value, others are kept verbatim, and the scan resumes after the
      placeholder, so substituted values are never rescanned. With no
      variables set, substitution changes nothing. */
  function Expand(s: string, env: Environment): (r: string)
    ensures env == map[] ==> r == s
    decreases |s|
  {
    if |s| == 0 then ""
    else match MatchAt(s)
      case Some(name) =>
        var p := Placeholder(name);
        assert s == p + s[|p|..];
        (if name in env then env[name] else p) + Expand(s[|p|..], env)
      case None =>
        assert s == [s[0]] + s[1..];
        [s[0]] + Expand(s[1..], env)
  }

  /** A placeholder of a set variable becomes exactly the value, which is not
      scanned again. */
  lemma ExpandSet(name: string, rest: string, env: Environment)
    requires ValidName(name) && name in env
    ensures Expand(Placeholder(name) + rest, env) == env[name] + Expand(rest, env)
  {
    MatchAtComplete(name, Placeholder(name) + rest);
    assert (Placeholder(name) + rest)[|Placeholder(name)|..] == rest;
  }

  /** A placeholder of an unset variable is left as written. */
  lemma ExpandUnset(name: string, rest: string, env: Environment)
    requires ValidName(name) && name !in env
    ensures Expand(Placeholder(name) + rest, env) == Placeholder(name) + Expand(rest, env)
  {
    MatchAtComplete(name, Placeholder(name) + rest);
    assert (Placeholder(name) + rest)[|Placeholder(name)|..] == rest;
  }

  /** A placeholder starts with `{`. */
  lemma NoMatchWithoutBrace(s: string)
    requires |s| > 0 && s[0] != '{'
    ensures MatchAt(s) == None
  {
    if |s| >= 5 {
      assert s[..5][0] == s[0];
    }
  }

  /** Where no placeholder starts, the character is copied. */
  lemma ExpandNoMatch(s: string, env: Environment)
    requires |s| > 0 && MatchAt(s) == None
    ensures Expand(s, env) == [s[0]] + Expand(s[1..], env)
  {
  }

  /** Text that contains no `{` cannot hold a placeholder and passes through. */
  lemma {:induction false} ExpandPlain(s: string, env: Environment)
    requires forall i :: 0 <= i < |s| ==> s[i] != '{'
    ensures Expand(s, env) == s
    decreases |s|
  {
    if |s| > 0 {
      NoMatchWithoutBrace(s);
      ExpandNoMatch(s, env);
      ExpandPlain(s[1..], env);
      assert [s[0]] + s[1..] == s;
    }
  }

  /** `{env.}` has no name and `{env.1X}` starts with a digit: neither matches. */
  lemma EmptyNameKept(env: Environment)
    ensures Expand("{env.}", env) == "{env.}"
  {
    assert MatchAt("{env.}").None? by {
      assert NameRun("}") == 0;
    }
    ExpandNoMatch("{env.}", env);
    assert "{env.}"[1..] == "env.}";
    ExpandPlain("env.}", env);
  }

  /** No placeholder starts where the character after `{env.` cannot begin a
      name. */
  lemma BadNameStartNoMatch(s: string)
    requires |s| > 5 && !IsNameStart(s[5])
    ensures MatchAt(s) == None
  {
    assert s[5..][0] == s[5];
  }

  /** A name may not start with a digit: `{env.` followed by a digit is no
      placeholder, and text after it without `{` stays as written, e.g.
      `{env.1X}`. */
  lemma DigitFirstNameKept(rest: string, env: Environment)
    requires |rest| > 0 && '0' <= rest[0] <= '9'
    requires forall i :: 0 <= i < |rest| ==> rest[i] != '{'
    ensures Expand("{env." + rest, env) == "{env." + rest
  {
    var s := "{env." + rest;
    assert s[5] == rest[0] && !IsNameStart(rest[0]);
    BadNameStartNoMatch(s);
    ExpandNoMatch(s, env);
    assert s[1..] == "env." + rest;
    ExpandPlain(s[1..], env);
    assert [s[0]] + s[1..] == s;
  }

  /** A substituted value is not scanned again: a value that itself reads
      like a placeholder stays literal. */
  lemma ValueNotRescanned(env: Environment)
    requires env == map["A" := "{env.B}", "B" := "b"]
    ensures Expand("{env.A}", env) == "{env.B}"
  {
    assert ValidName("A") by { assert IsNameStart('A'); }
    assert "{env.A}" == Placeholder("A") + "";
    ExpandSet("A", "", env);
  }

  // ---------------------------------------------------------------------------
  // Post-processing after decoding

  /** The TLS rewrite of every routing rule, in order. */
  function ExpandRuleTls(rules: seq<Rule>, env: Environment): (r: seq<Rule>)
    ensures |r| == |rules|
    ensures forall i :: 0 <= i < |rules| ==>
      r[i].matcher == rules[i].matcher && r[i].reverseProxy == rules[i].reverseProxy
      && r[i].handle == rules[i].handle && r[i].tls == Expand(rules[i].tls, env)
  {
    if |rules| == 0 then []
    else [rules[0].(tls := Expand(rules[0].tls, env))] + ExpandRuleTls(rules[1..], env)
  }

  /** The registry-password indirection: a password that names a set
      variable is replaced by its value, but only when a username and a
      password are both given. */
  function ResolvePassword(registry: RegistryConfig, env: Environment): (r: RegistryConfig)
    ensures r.username == registry.username
    ensures r.password != registry.password ==>
      registry.username != "" && registry.password != "" && registry.password in env
    ensures registry.username != "" && registry.password != "" && registry.password in env ==>
      r.password == env[registry.password]
  {
    if registry.username != "" && registry.password != "" && registry.password in env then
      registry.(password := env[registry.password])
    else
      registry
  }

  /** What `LoadConfig` does to the decoded record. Only rule TLS values and
      the registry password can change. */
  function PostProcess(c: DeploymentConfig, env: Environment): (r: DeploymentConfig)
    ensures r.healthCheck == c.healthCheck
    ensures r.caddy.adminApi == c.caddy.adminApi && r.caddy.global == c.caddy.global
    ensures r.app == c.app.(registry := r.app.registry)
    ensures r.app.registry == ResolvePassword(c.app.registry, env)
    ensures r.caddy.rules == ExpandRuleTls(c.caddy.rules, env)
  {
    c.(app := c.app.(registry := ResolvePassword(c.app.registry, env)),
       caddy := c.caddy.(rules := ExpandRuleTls(c.caddy.rules, env)))
  }

  /** The file as `LoadConfig` finds it: it could not be opened, or it was
      opened and its bytes are handed to the decoder. */
  datatype ConfigFile =
    | Unopenable(cause: Error)
    | Opened(decode: DeploymentConfig -> Result<DeploymentConfig, Error>)

  /** `LoadConfig`: open, decode over the defaults, post-process. */
  function LoadConfig(file: ConfigFile, env: Environment): (r: Result<DeploymentConfig, Error>)
    ensures file.Unopenable? ==> r == Failure(OpenFailed(file.cause))
    ensures file.Opened? && file.decode(DefaultConfig()).Failure? ==>
      r == Failure(file.decode(DefaultConfig()).error)
    ensures file.Opened? && file.decode(DefaultConfig()).Success? ==>
      r == Success(PostProcess(file.decode(DefaultConfig()).value, env))
  {
    match file
    case Unopenable(cause) => Failure(OpenFailed(cause))
    case Opened(decode) =>
      match decode(DefaultConfig())
      case Failure(e) => Failure(e)
      case Success(c) => Success(PostProcess(c, env))
  }

  /** A file that sets none of the defaulted fields loads with the defaults. */
  lemma UntouchedDefaultsSurvive(decode: DeploymentConfig -> Result<DeploymentConfig, Error>, env: Environment)
    requires decode(DefaultConfig()).Success?
    requires decode(DefaultConfig()).value.app.portRange == DefaultConfig().app.portRange
    requires decode(DefaultConfig()).value.caddy.adminApi == DefaultConfig().caddy.adminApi
    requires decode(DefaultConfig()).value.healthCheck == DefaultConfig().healthCheck
    ensures LoadConfig(Opened(decode), env).Success?
    ensures LoadConfig(Opened(decode), env).value.app.portRange == PortRange(8000, 9000)
    ensures LoadConfig(Opened(decode), env).value.caddy.adminApi == "http://localhost:2019"
    ensures LoadConfig(Opened(decode), env).value.healthCheck == HealthCheck("", 5, 5, 3)
  {
  }

  /** With no variables set, every rule keeps its TLS value. */
  lemma ExpandRuleTlsEmptyEnvironment(rules: seq<Rule>)
    ensures ExpandRuleTls(rules, map[]) == rules
  {
    var r := ExpandRuleTls(rules, map[]);
    forall i | 0 <= i < |rules| ensures r[i] == rules[i] {
      assert Expand(rules[i].tls, map[]) == rules[i].tls;
    }
  }

  /** With no variables set, loading returns the decoded record unchanged. */
  lemma EmptyEnvironmentKeepsDecoded(decode: DeploymentConfig -> Result<DeploymentConfig, Error>)
    ensures LoadConfig(Opened(decode), map[]) == decode(DefaultConfig())
  {
    if decode(DefaultConfig()).Success? {
      var c := decode(DefaultConfig()).value;
      ExpandRuleTlsEmptyEnvironment(c.caddy.rules);
      assert PostProcess(c, map[]) == c;
    }
  }
}
