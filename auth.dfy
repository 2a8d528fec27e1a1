/**
 * Registry and cluster authentication (hubploy/auth.py). The machine the
 * handlers act on is a `Host`: its file system (directories and parsed
 * files), the external steps it has taken so far, and the outcome of each
 * command or Docker login it could be asked to make.
 */
module Auth {
  import opened Results
  import opened Config
  import Paths

  // ---------------------------------------------------------------------
  // Providers and dispatch
  // ---------------------------------------------------------------------

  datatype Provider = Gcloud | Aws | Azure | Dockerhub

  /** The provider tag of hubploy.yaml, which is also the key of its sub-block. */
  function ProviderName(p: Provider): string {
    match p
    case Gcloud => "gcloud"
    case Aws => "aws"
    case Azure => "azure"
    case Dockerhub => "dockerhub"
  }

  /** The provider a tag names, if any. */
  function NamedProvider(s: string): (p: Option<Provider>)
    ensures p.Some? ==> ProviderName(p.value) == s
    ensures p.None? ==> forall q :: ProviderName(q) != s
  {
    if s == "gcloud" then Some(Gcloud)
    else if s == "aws" then Some(Aws)
    else if s == "azure" then Some(Azure)
    else if s == "dockerhub" then Some(Dockerhub)
    else None
  }

  const RegistryProviders: set<Provider> := {Gcloud, Aws, Azure, Dockerhub}
  const ClusterProviders: set<Provider> := {Gcloud, Aws, Azure}

  /** How the `{provider}` of the ValueError message reads. */
  function ProviderText(tag: Option<Node>): string {
    if tag.None? then "None"
    else if tag.value.Str? then tag.value.s
    else "<not a string>"
  }

  /**
   * The `if provider == ...` chain of a dispatcher: the `provider` entry of
   * `block` must name one of the `accepted` providers, and the provider's
   * own sub-block is what its handler receives.
   */
  function Select(block: map<string, Node>, accepted: set<Provider>): (r: Result<(Provider, Node)>)
    ensures r.Ok? <==> && "provider" in block && block["provider"].Str?
                       && NamedProvider(block["provider"].s).Some?
                       && NamedProvider(block["provider"].s).value in accepted
                       && ProviderName(NamedProvider(block["provider"].s).value) in block
    ensures r.Ok? ==> && r.value.0 in accepted
                      && block["provider"] == Str(ProviderName(r.value.0))
                      && r.value.1 == block[ProviderName(r.value.0)]
    ensures r.Err? && (var tag := if "provider" in block then Some(block["provider"]) else None;
                       tag.None? || !tag.value.Str? || NamedProvider(tag.value.s).None?
                       || NamedProvider(tag.value.s).value !in accepted)
            ==> r.error == UnknownProvider(ProviderText(if "provider" in block then Some(block["provider"]) else None))
  {
    var tag := if "provider" in block then Some(block["provider"]) else None;
    var p := if tag.Some? && tag.value.Str? then NamedProvider(tag.value.s) else None;
    if p.None? || p.value !in accepted then Err(UnknownProvider(ProviderText(tag)))
    else if ProviderName(p.value) !in block then Err(MissingKey(ProviderName(p.value)))
    else Ok((p.value, block[ProviderName(p.value)]))
  }

  /**
   * The choice `registry_auth` makes on a loaded configuration: nothing to
   * do without `images.registry`, otherwise one provider and its sub-block.
   */
  function RegistryChoice(config: map<string, Node>): (r: Result<Option<(Provider, Node)>>)
    ensures r == Ok(None) <==> "images" !in config || (config["images"].Dict? && "registry" !in config["images"].m)
    ensures "images" in config && config["images"].Dict? && "registry" in config["images"].m
            && config["images"].m["registry"].Dict?
            ==> r == (var s := Select(config["images"].m["registry"].m, RegistryProviders);
                      if s.Ok? then Ok(Some(s.value)) else Err(s.error))
  {
    if "images" !in config then Ok(None)
    else if !config["images"].Dict? then Err(WrongShape("images"))
    else if "registry" !in config["images"].m then Ok(None)
    else if !config["images"].m["registry"].Dict? then Err(WrongShape("registry"))
    else
      var s :- Select(config["images"].m["registry"].m, RegistryProviders);
      Ok(Some(s))
  }

  /**
   * The choice `cluster_auth` makes: nothing to do without `cluster`,
   * otherwise one of the three cluster providers and its sub-block.
   */
  function ClusterChoice(config: map<string, Node>): (r: Result<Option<(Provider, Node)>>)
    ensures r == Ok(None) <==> "cluster" !in config
    ensures r.Ok? && r.value.Some? ==> r.value.value.0 in ClusterProviders
    ensures "cluster" in config && config["cluster"].Dict?
            ==> r == (var s := Select(config["cluster"].m, ClusterProviders);
                      if s.Ok? then Ok(Some(s.value)) else Err(s.error))
  {
    if "cluster" !in config then Ok(None)
    else if !config["cluster"].Dict? then Err(WrongShape("cluster"))
    else
      var s :- Select(config["cluster"].m, ClusterProviders);
      Ok(Some(s))
  }

  /**
   * The same `dockerhub` tag that selects a registry handler is refused for
   * a cluster, with the ValueError naming it.
   */
  lemma DockerhubIsRegistryOnly(block: map<string, Node>)
    requires "provider" in block && block["provider"] == Str("dockerhub") && "dockerhub" in block
    ensures Select(block, RegistryProviders) == Ok((Dockerhub, block["dockerhub"]))
    ensures Select(block, ClusterProviders) == Err(UnknownProvider("dockerhub"))
  {
    assert NamedProvider("dockerhub") == Some(Dockerhub);
  }

  /** Each provider tag selects its own handler and sub-block. */
  lemma SelectByTag(block: map<string, Node>, p: Provider, accepted: set<Provider>)
    requires p in accepted
    requires "provider" in block && block["provider"] == Str(ProviderName(p)) && ProviderName(p) in block
    ensures Select(block, accepted) == Ok((p, block[ProviderName(p)]))
  {
    var q := NamedProvider(ProviderName(p));
    assert q.Some?;
    assert q.value == p by {
      match p
      case Gcloud =>
      case Aws =>
      case Azure =>
      case Dockerhub =>
    }
  }

  /** The handler `registry_auth` calls for a provider: its name and its parameters after `deployment`. */
  function RegistryHandler(p: Provider): (string, seq<string>) {
    match p
    case Gcloud => ("registry_auth_gcloud", ["project", "service_key"])
    case Aws => ("registry_auth_aws", ["project", "zone", "service_key"])
    case Azure => ("registry_auth_azure", ["resource_group", "registry", "auth_file"])
    case Dockerhub => ("registry_auth_dockerhub", ["auth_file"])
  }

  /** The handler `cluster_auth` calls for a provider: its name and its parameters after `deployment`. */
  function ClusterHandler(p: Provider): (string, seq<string>)
    requires p in ClusterProviders
  {
    match p
    case Gcloud => ("cluster_auth_gcloud", ["project", "cluster", "zone", "service_key"])
    case Aws => ("cluster_auth_aws", ["project", "cluster", "zone", "service_key"])
    case Azure => ("cluster_auth_azure", ["resource_group", "cluster", "auth_file"])
  }

  /**
   * Binding a provider sub-block as keyword arguments after `deployment`:
   * the block must be a mapping whose keys are exactly the handler's other
   * parameters, and the values are taken in parameter order.
   */
  function Bind(handler: string, block: Node, params: seq<string>): (r: Result<seq<string>>)
    ensures r.Ok? ==> && block.Dict? && block.m.Keys == (set p | p in params)
                      && |r.value| == |params|
                      && forall i :: 0 <= i < |params| ==> block.m[params[i]] == Str(r.value[i])
    ensures !block.Dict? || block.m.Keys != (set p | p in params) ==> r == Err(BadArguments(handler))
    ensures (&& block.Dict? && block.m.Keys == (set p | p in params)
             && forall i :: 0 <= i < |params| ==> block.m[params[i]].Str?) ==> r.Ok?
  {
    if !block.Dict? || block.m.Keys != (set p | p in params) then Err(BadArguments(handler))
    else BindValues(block.m, params)
  }

  /**
   * A cluster `aws` block as the config loader leaves it, with `project`
   * renamed away, cannot be bound to `cluster_auth_aws`, whose parameters
   * still include `project`: the call is refused as Python's keyword
   * binding refuses it.
   */
  lemma AwsRenamedBlockRefused(aws: map<string, Node>)
    ensures Bind(ClusterHandler(Aws).0, Dict(AwsRenames(aws)), ClusterHandler(Aws).1) == Err(BadArguments("cluster_auth_aws"))
  {
    AwsRenamesMove(aws);
    assert "project" in (set p | p in ClusterHandler(Aws).1);
  }

  /** The values of `params` in `m`, each of which must be a string. */
  function BindValues(m: map<string, Node>, params: seq<string>): (r: Result<seq<string>>)
    requires forall p :: p in params ==> p in m
    ensures r.Ok? <==> forall i :: 0 <= i < |params| ==> m[params[i]].Str?
    ensures r.Ok? ==> |r.value| == |params| && forall i :: 0 <= i < |params| ==> m[params[i]] == Str(r.value[i])
  {
    if params == [] then Ok([])
    else if !m[params[0]].Str? then Err(WrongShape(params[0]))
    else
      var rest := BindValues(m, params[1..]);
      if rest.Err? then rest
      else Ok([m[params[0]].s] + rest.value)
  }

  // ---------------------------------------------------------------------
  // External steps
  // ---------------------------------------------------------------------

  /** An external effect: a `subprocess.check_call`, or a Docker SDK login. */
  datatype Step =
    | Command(argv: seq<string>)
    | DockerLogin(username: string, password: string, registry: string)

  /** The commands of a sequence, as steps. */
  function Commands(argvs: seq<seq<string>>): (r: seq<Step>)
    ensures |r| == |argvs| && forall k :: 0 <= k < |argvs| ==> r[k] == Command(argvs[k])
  {
    seq(|argvs|, k requires 0 <= k < |argvs| => Command(argvs[k]))
  }

  /** One more command of a sequence adds its step at the end. */
  lemma CommandsSnoc(argvs: seq<seq<string>>, i: nat)
    requires i < |argvs|
    ensures Commands(argvs[..i + 1]) == Commands(argvs[..i]) + [Command(argvs[i])]
  {
    assert argvs[..i + 1][..i] == argvs[..i];
  }

  /** The commands of a `check_call` sequence that are run: up to and including the first that fails. */
  function Attempted(argvs: seq<seq<string>>, succeeds: seq<string> -> bool): seq<seq<string>> {
    if argvs == [] then []
    else if !succeeds(argvs[0]) then [argvs[0]]
    else [argvs[0]] + Attempted(argvs[1..], succeeds)
  }

  /** The outcome of a `check_call` sequence: the first failing command raises. */
  function RunOutcome(argvs: seq<seq<string>>, succeeds: seq<string> -> bool): Result<()> {
    if argvs == [] then Ok(())
    else if !succeeds(argvs[0]) then Err(CommandFailed(argvs[0]))
    else RunOutcome(argvs[1..], succeeds)
  }

  /**
   * The commands run are a prefix of the sequence; every one but the last
   * succeeded, and when the run stopped early the last one failed.
   */
  lemma {:induction false} AttemptedIsPrefix(argvs: seq<seq<string>>, succeeds: seq<string> -> bool)
    ensures var r := Attempted(argvs, succeeds);
            && |r| <= |argvs| && r == argvs[..|r|]
            && (forall k :: 0 <= k < |r| - 1 ==> succeeds(argvs[k]))
            && (|r| < |argvs| ==> |r| > 0 && !succeeds(argvs[|r| - 1]))
  {
    if argvs != [] && succeeds(argvs[0]) {
      var tail := argvs[1..];
      AttemptedIsPrefix(tail, succeeds);
      var t := Attempted(tail, succeeds);
      assert argvs[..|t| + 1] == [argvs[0]] + tail[..|t|];
      forall k | 0 <= k < |t|
        ensures succeeds(argvs[k])
      {
        if k > 0 {
          assert argvs[k] == tail[k - 1];
        }
      }
      if |t| < |tail| {
        assert argvs[|t|] == tail[|t| - 1];
      }
    }
  }

  /** The sequence succeeds iff every command does; otherwise a failing command is the one raised. */
  lemma {:induction false} RunOutcomeMeaning(argvs: seq<seq<string>>, succeeds: seq<string> -> bool)
    ensures RunOutcome(argvs, succeeds).Ok? <==> forall k :: 0 <= k < |argvs| ==> succeeds(argvs[k])
    ensures RunOutcome(argvs, succeeds).Err? ==>
              exists k :: 0 <= k < |argvs| && !succeeds(argvs[k]) && RunOutcome(argvs, succeeds).error == CommandFailed(argvs[k])
  {
    if argvs != [] && succeeds(argvs[0]) {
      var tail := argvs[1..];
      RunOutcomeMeaning(tail, succeeds);
      assert forall k :: 0 < k < |argvs| ==> argvs[k] == tail[k - 1];
      if RunOutcome(tail, succeeds).Err? {
        var k :| 0 <= k < |tail| && !succeeds(tail[k]) && RunOutcome(tail, succeeds).error == CommandFailed(tail[k]);
        assert argvs[k + 1] == tail[k];
      }
    }
  }

  /** When the sequence fails, the last command run is the one that failed, and none runs after it. */
  lemma {:induction false} FailureStopsSequence(argvs: seq<seq<string>>, succeeds: seq<string> -> bool)
    ensures var a := Attempted(argvs, succeeds);
            RunOutcome(argvs, succeeds).Err? ==> |a| > 0 && RunOutcome(argvs, succeeds).error == CommandFailed(a[|a| - 1])
    ensures RunOutcome(argvs, succeeds).Ok? ==> Attempted(argvs, succeeds) == argvs
  {
    if argvs != [] && succeeds(argvs[0]) {
      FailureStopsSequence(argvs[1..], succeeds);
    }
  }

  /** With every command so far succeeding, the run continues with the rest. */
  lemma {:induction false} AttemptedAfter(argvs: seq<seq<string>>, succeeds: seq<string> -> bool, i: nat)
    requires i <= |argvs| && forall k :: 0 <= k < i ==> succeeds(argvs[k])
    ensures Attempted(argvs, succeeds) == argvs[..i] + Attempted(argvs[i..], succeeds)
    ensures RunOutcome(argvs, succeeds) == RunOutcome(argvs[i..], succeeds)
  {
    if i > 0 {
      AttemptedAfter(argvs[1..], succeeds, i - 1);
      assert argvs[1..][i - 1..] == argvs[i..];
      assert [argvs[0]] + argvs[1..][..i - 1] == argvs[..i];
    }
  }

  /** `gcloud auth activate-service-account --key-file <key>` */
  function ActivateServiceAccount(keyFile: string): seq<string> {
    ["gcloud", "auth", "activate-service-account", "--key-file", keyFile]
  }

  function GcloudRegistrySteps(keyFile: string): seq<seq<string>> {
    [ActivateServiceAccount(keyFile), ["gcloud", "auth", "configure-docker"]]
  }

  function GcloudClusterSteps(keyFile: string, project: string, cluster: string, zone: string): seq<seq<string>> {
    [ActivateServiceAccount(keyFile),
     ["gcloud", "container", "clusters", "--zone=" + zone, "--project=" + project, "get-credentials", cluster]]
  }

  function AwsClusterSteps(cluster: string, zone: string): seq<seq<string>> {
    [["aws", "eks", "update-kubeconfig", "--name", cluster, "--region", zone]]
  }

  /** The `appId`, `tenant` and `password` of an Azure service principal file. */
  datatype AzureCredentials = AzureCredentials(appId: string, tenant: string, password: string)

  function AzureLogin(c: AzureCredentials): seq<string> {
    ["az", "login", "--service-principal", "--user", c.appId, "--tenant", c.tenant, "--password", c.password]
  }

  function AzureRegistrySteps(c: AzureCredentials, registry: string): seq<seq<string>> {
    [AzureLogin(c), ["az", "acr", "login", "--name", registry]]
  }

  function AzureClusterSteps(c: AzureCredentials, resourceGroup: string, cluster: string): seq<seq<string>> {
    [AzureLogin(c), ["az", "aks", "get-credentials", "--name", cluster, "--resource-group", resourceGroup]]
  }

  /**
   * A two-step login: the first command always runs first, the second runs
   * only after the first succeeded, and the outcome is success only when
   * both do. Every gcloud and Azure handler has this shape.
   */
  lemma TwoStepOrder(first: seq<string>, second: seq<string>, succeeds: seq<string> -> bool)
    ensures var a := Attempted([first, second], succeeds);
            && |a| >= 1 && a[0] == first
            && (second in a ==> succeeds(first) || first == second)
            && (a == [first, second] <==> succeeds(first))
            && (RunOutcome([first, second], succeeds).Ok? <==> succeeds(first) && succeeds(second))
  {
    var a := Attempted([first, second], succeeds);
    if succeeds(first) {
      assert [first, second][1..] == [second];
      assert [second][1..] == [];
      assert Attempted([second], succeeds) == [second];
      assert a == [first] + [second];
      assert RunOutcome([first, second], succeeds) == RunOutcome([second], succeeds);
      assert RunOutcome([second][1..], succeeds) == Ok(());
    } else {
      assert a == [first];
    }
  }

  // ---------------------------------------------------------------------
  // Auth files and the Docker client configuration
  // ---------------------------------------------------------------------

  /** `auth[key]` on a loaded auth file, as a string. */
  function Field(auth: map<string, Node>, key: string): (r: Result<string>)
    ensures r.Ok? <==> key in auth && auth[key].Str?
    ensures r.Ok? ==> auth[key] == Str(r.value)
    ensures key !in auth ==> r == Err(MissingKey(key))
  {
    if key !in auth then Err(MissingKey(key))
    else if !auth[key].Str? then Err(WrongShape(key))
    else Ok(auth[key].s)
  }

  /** The service principal fields, looked up in the order the argv lists them. */
  function ReadAzureCredentials(auth: map<string, Node>): (r: Result<AzureCredentials>)
    ensures r.Ok? <==> forall key :: key in ["appId", "tenant", "password"] ==> key in auth && auth[key].Str?
    ensures r.Ok? ==> && auth["appId"] == Str(r.value.appId) && auth["tenant"] == Str(r.value.tenant)
                      && auth["password"] == Str(r.value.password)
  {
    var appId :- Field(auth, "appId");
    var tenant :- Field(auth, "tenant");
    var password :- Field(auth, "password");
    Ok(AzureCredentials(appId, tenant, password))
  }

  const DefaultDockerRegistry: string := "https://index.docker.io/v1/"

  /** The login `registry_auth_dockerhub` makes with the fields of its auth file. */
  function DockerhubLogin(auth: map<string, Node>): (r: Result<Step>)
    ensures r.Ok? ==> r.value.DockerLogin?
    ensures r.Ok? ==> && "username" in auth && auth["username"] == Str(r.value.username)
                      && "password" in auth && auth["password"] == Str(r.value.password)
    ensures r.Ok? ==> && ("registry" in auth ==> auth["registry"] == Str(r.value.registry))
                      && ("registry" !in auth ==> r.value.registry == DefaultDockerRegistry)
    ensures r.Ok? <==> ("registry" !in auth || auth["registry"].Str?)
                       && "username" in auth && auth["username"].Str?
                       && "password" in auth && auth["password"].Str?
  {
    var registry :- if "registry" in auth then Field(auth, "registry") else Ok(DefaultDockerRegistry);
    var username :- Field(auth, "username");
    var password :- Field(auth, "password");
    Ok(DockerLogin(username, password, registry))
  }

  /**
   * A `registry` key whose value is not a string (null included) is refused
   * before any login, whatever the account fields hold.
   */
  lemma DockerhubRegistryNotText(auth: map<string, Node>)
    requires "registry" in auth && !auth["registry"].Str?
    ensures DockerhubLogin(auth) == Err(WrongShape("registry"))
  {
  }

  /** The ECR registry host of an AWS project and zone. */
  function EcrRegistry(project: string, zone: string): string {
    project + ".dkr.ecr." + zone + ".amazonaws.com"
  }

  /**
   * The read-modify-write of the Docker client configuration at `path` in
   * `registry_auth_aws`: `credHelpers[registry] = "ecr-login"`.
   */
  function AddEcrHelper(files: map<string, Node>, path: string, registry: string): (r: Result<map<string, Node>>)
    ensures path !in files ==> r == Err(FileMissing(path))
    ensures path in files && files[path].Dict? && "credHelpers" !in files[path].m ==> r == Err(MissingKey("credHelpers"))
    ensures r.Ok? <==> path in files && files[path].Dict? && "credHelpers" in files[path].m
                       && files[path].m["credHelpers"].Dict?
  {
    if path !in files then Err(FileMissing(path))
    else if !files[path].Dict? then Err(WrongShape(path))
    else if "credHelpers" !in files[path].m then Err(MissingKey("credHelpers"))
    else if !files[path].m["credHelpers"].Dict? then Err(WrongShape("credHelpers"))
    else
      var config := files[path].m;
      var helpers := config["credHelpers"].m;
      Ok(files[path := Dict(config["credHelpers" := Dict(helpers[registry := Str("ecr-login")])])])
  }

  /**
   * After the update the registry's helper is `ecr-login`; every other
   * helper, every other top-level key of the configuration and every other
   * file are as they were.
   */
  lemma EcrHelperOnlyChange(files: map<string, Node>, path: string, registry: string)
    requires AddEcrHelper(files, path, registry).Ok?
    ensures var out := AddEcrHelper(files, path, registry).value;
            && out.Keys == files.Keys
            && (forall f :: f in files && f != path ==> out[f] == files[f])
            && out[path].Dict? && out[path].m.Keys == files[path].m.Keys
            && (forall k :: k in files[path].m && k != "credHelpers" ==> out[path].m[k] == files[path].m[k])
            && out[path].m["credHelpers"].Dict?
            && out[path].m["credHelpers"].m == files[path].m["credHelpers"].m[registry := Str("ecr-login")]
  {
  }

  // ---------------------------------------------------------------------
  // The machine and its handlers
  // ---------------------------------------------------------------------

  /**
   * The machine the handlers change: its directories, its files (parsed),
   * and every external step taken so far. The working directory, the home
   * directory and the outcome of each command and login are fixed.
   */
  class Host {
    const cwd: string
    const home: string
    const succeeds: seq<string> -> bool
    const loginSucceeds: Step -> bool
    var dirs: set<string>
    var files: map<string, Node>
    var trace: seq<Step>

    constructor (cwd: string, home: string, succeeds: seq<string> -> bool, loginSucceeds: Step -> bool,
                 dirs: set<string>, files: map<string, Node>)
      requires Paths.Absolute(cwd) && Paths.Absolute(home)
      ensures this.cwd == cwd && this.home == home && this.succeeds == succeeds
      ensures this.loginSucceeds == loginSucceeds
      ensures this.dirs == dirs && this.files == files && trace == []
    {
      this.cwd := cwd;
      this.home := home;
      this.succeeds := succeeds;
      this.loginSucceeds := loginSucceeds;
      this.dirs := dirs;
      this.files := files;
      trace := [];
    }

    predicate Valid() {
      Paths.Absolute(cwd) && Paths.Absolute(home)
    }

    /** A relative path opened by the handlers, as the file system resolves it. */
    function Resolve(p: string): string
      requires Valid()
    {
      Paths.AbsPath(cwd, p)
    }

    /** `os.path.abspath` of a deployment's secret file: what the gcloud handlers pass on. */
    function KeyFile(deployment: string, file: string): (r: string)
      requires Valid()
      ensures Paths.PlainName(deployment) && file != "" && !Paths.Absolute(file)
              ==> r == Paths.AbsPath(cwd, "deployments/" + deployment + "/secrets/" + file)
    {
      Resolve(Paths.SecretPath(deployment, file))
    }

    /** `~/.aws`, where the AWS credentials are copied to. */
    function AwsDir(): string {
      Paths.Join(home, ".aws")
    }

    /** `~/.docker/config.json` */
    function DockerConfig(): string {
      Paths.Join(Paths.Join(home, ".docker"), "config.json")
    }

    /** A loaded YAML auth file from a deployment's secrets. */
    function ReadAuthFile(deployment: string, file: string): (r: Result<map<string, Node>>)
      requires Valid()
      reads this
      ensures r.Ok? ==> Resolve(Paths.SecretPath(deployment, file)) in files
      ensures Resolve(Paths.SecretPath(deployment, file)) !in files ==> r == Err(FileMissing(Paths.SecretPath(deployment, file)))
    {
      var path := Paths.SecretPath(deployment, file);
      if Resolve(path) !in files then Err(FileMissing(path))
      else if !files[Resolve(path)].Dict? then Err(WrongShape(path))
      else Ok(files[Resolve(path)].m)
    }

    /** Between the two states, the commands of `argvs` were run in turn until one failed, with outcome `r`. */
    twostate predicate RanSteps(argvs: seq<seq<string>>, new r: Result<()>)
      reads this
    {
      && trace == old(trace) + Commands(Attempted(argvs, succeeds))
      && r == RunOutcome(argvs, succeeds)
      && dirs == old(dirs) && files == old(files)
    }

    /** The effect of `registry_auth_gcloud(deployment, project, service_key)`. */
    twostate predicate GcloudRegistryDone(deployment: string, serviceKey: string, new r: Result<()>)
      requires Valid()
      reads this
    {
      RanSteps(GcloudRegistrySteps(KeyFile(deployment, serviceKey)), r)
    }

    /** The effect of `registry_auth_aws(deployment, project, zone, service_key)`. */
    twostate predicate AwsRegistryDone(deployment: string, project: string, zone: string, serviceKey: string,
                                       new r: Result<()>)
      requires Valid()
      reads this
    {
      var key := Paths.SecretPath(deployment, serviceKey);
      if Resolve(key) !in old(files) then
        r == Err(FileMissing(key)) && dirs == old(dirs) && files == old(files) && trace == old(trace)
      else
        var copied := old(files)[Paths.Join(AwsDir(), "credentials") := old(files)[Resolve(key)]];
        var updated := AddEcrHelper(copied, DockerConfig(), EcrRegistry(project, zone));
        && dirs == old(dirs) + {AwsDir()}
        && trace == old(trace)
        && r == (if updated.Ok? then Ok(()) else Err(updated.error))
        && files == (if updated.Ok? then updated.value else copied)
    }

    /** The effect of `registry_auth_azure(deployment, resource_group, registry, auth_file)`. */
    twostate predicate AzureRegistryDone(deployment: string, registry: string, authFile: string, new r: Result<()>)
      requires Valid()
      reads this
    {
      var creds := old(ReadAuthFile(deployment, authFile));
      var c := if creds.Ok? then ReadAzureCredentials(creds.value) else Err(creds.error);
      if c.Err? then r == Err(c.error) && trace == old(trace) && dirs == old(dirs) && files == old(files)
      else RanSteps(AzureRegistrySteps(c.value, registry), r)
    }

    /** The effect of `registry_auth_dockerhub(deployment, auth_file)`. */
    twostate predicate DockerhubDone(deployment: string, authFile: string, new r: Result<()>)
      requires Valid()
      reads this
    {
      var auth := old(ReadAuthFile(deployment, authFile));
      var login := if auth.Ok? then DockerhubLogin(auth.value) else Err(auth.error);
      && dirs == old(dirs) && files == old(files)
      && (login.Err? ==> r == Err(login.error) && trace == old(trace))
      && (login.Ok? ==> && trace == old(trace) + [login.value]
                        && r == if loginSucceeds(login.value) then Ok(()) else Err(RegistryApi(login.value.registry)))
    }

    /** The effect of `cluster_auth_gcloud(deployment, project, cluster, zone, service_key)`. */
    twostate predicate GcloudClusterDone(deployment: string, project: string, cluster: string, zone: string,
                                         serviceKey: string, new r: Result<()>)
      requires Valid()
      reads this
    {
      RanSteps(GcloudClusterSteps(KeyFile(deployment, serviceKey), project, cluster, zone), r)
    }

    /** The effect of `cluster_auth_azure(deployment, resource_group, cluster, auth_file)`. */
    twostate predicate AzureClusterDone(deployment: string, resourceGroup: string, cluster: string, authFile: string,
                                        new r: Result<()>)
      requires Valid()
      reads this
    {
      var creds := old(ReadAuthFile(deployment, authFile));
      var c := if creds.Ok? then ReadAzureCredentials(creds.value) else Err(creds.error);
      if c.Err? then r == Err(c.error) && trace == old(trace) && dirs == old(dirs) && files == old(files)
      else RanSteps(AzureClusterSteps(c.value, resourceGroup, cluster), r)
    }

    /** The effect of the registry handler of `p`, called with the bound values `a`. */
    twostate predicate RegistryHandlerDone(p: Provider, deployment: string, a: seq<string>, new r: Result<()>)
      requires Valid() && |a| == |RegistryHandler(p).1|
      reads this
    {
      match p
      case Gcloud => GcloudRegistryDone(deployment, a[1], r)
      case Aws => AwsRegistryDone(deployment, a[0], a[1], a[2], r)
      case Azure => AzureRegistryDone(deployment, a[1], a[2], r)
      case Dockerhub => DockerhubDone(deployment, a[0], r)
    }

    /** The effect of the cluster handler of `p`, called with the bound values `a`. */
    twostate predicate ClusterHandlerDone(p: Provider, deployment: string, a: seq<string>, new r: Result<()>)
      requires Valid() && p in ClusterProviders && |a| == |ClusterHandler(p).1|
      reads this
    {
      match p
      case Gcloud => GcloudClusterDone(deployment, a[0], a[1], a[2], a[3], r)
      case Aws => RanSteps(AwsClusterSteps(a[1], a[2]), r)
      case Azure => AzureClusterDone(deployment, a[0], a[1], a[2], r)
    }

    /** `subprocess.check_call` of each command in turn. */
    method RunSteps(argvs: seq<seq<string>>) returns (r: Result<()>)
      modifies this
      ensures RanSteps(argvs, r)
    {
      var i := 0;
      while i < |argvs|
        invariant i <= |argvs|
        invariant forall k :: 0 <= k < i ==> succeeds(argvs[k])
        invariant trace == old(trace) + Commands(argvs[..i])
        invariant dirs == old(dirs) && files == old(files)
      {
        trace := trace + [Command(argvs[i])];
        CommandsSnoc(argvs, i);
        if !succeeds(argvs[i]) {
          AttemptedAfter(argvs, succeeds, i);
          return Err(CommandFailed(argvs[i]));
        }
        i := i + 1;
      }
      AttemptedAfter(argvs, succeeds, i);
      assert argvs[..i] == argvs;
      r := Ok(());
    }

    /** `registry_auth_gcloud`: activate the service account, then configure Docker. */
    method RegistryAuthGcloud(deployment: string, project: string, serviceKey: string) returns (r: Result<()>)
      requires Valid()
      modifies this
      ensures GcloudRegistryDone(deployment, serviceKey, r)
    {
      r := RunSteps(GcloudRegistrySteps(KeyFile(deployment, serviceKey)));
    }

    /**
     * `registry_auth_aws`: a missing key file stops everything; otherwise
     * the key file becomes `~/.aws/credentials` and the Docker configuration
     * gets the ECR credential helper for the project's registry.
     */
    method RegistryAuthAws(deployment: string, project: string, zone: string, serviceKey: string)
      returns (r: Result<()>)
      requires Valid()
      modifies this
      ensures AwsRegistryDone(deployment, project, zone, serviceKey, r)
    {
      var key := Paths.SecretPath(deployment, serviceKey);
      if Resolve(key) !in files {
        return Err(FileMissing(key));
      }
      if AwsDir() !in dirs {
        dirs := dirs + {AwsDir()};
      }
      files := files[Paths.Join(AwsDir(), "credentials") := files[Resolve(key)]];
      var updated := AddEcrHelper(files, DockerConfig(), EcrRegistry(project, zone));
      if updated.Err? {
        return Err(updated.error);
      }
      files := updated.value;
      r := Ok(());
    }

    /** `registry_auth_azure`: log in with the service principal, then to the registry. */
    method RegistryAuthAzure(deployment: string, resourceGroup: string, registry: string, authFile: string)
      returns (r: Result<()>)
      requires Valid()
      modifies this
      ensures AzureRegistryDone(deployment, registry, authFile, r)
    {
      var auth := ReadAuthFile(deployment, authFile);
      if auth.Err? {
        return Err(auth.error);
      }
      var c := ReadAzureCredentials(auth.value);
      if c.Err? {
        return Err(c.error);
      }
      r := RunSteps(AzureRegistrySteps(c.value, registry));
    }

    /** `registry_auth_dockerhub`: log the Docker client in with the auth file's account. */
    method RegistryAuthDockerhub(deployment: string, authFile: string) returns (r: Result<()>)
      requires Valid()
      modifies this
      ensures DockerhubDone(deployment, authFile, r)
    {
      var auth := ReadAuthFile(deployment, authFile);
      if auth.Err? {
        return Err(auth.error);
      }
      var login := DockerhubLogin(auth.value);
      if login.Err? {
        return Err(login.error);
      }
      trace := trace + [login.value];
      if loginSucceeds(login.value) {
        r := Ok(());
      } else {
        r := Err(RegistryApi(login.value.registry));
      }
    }

    /** `cluster_auth_gcloud`: activate the service account, then fetch the cluster credentials. */
    method ClusterAuthGcloud(deployment: string, project: string, cluster: string, zone: string, serviceKey: string)
      returns (r: Result<()>)
      requires Valid()
      modifies this
      ensures GcloudClusterDone(deployment, project, cluster, zone, serviceKey, r)
    {
      r := RunSteps(GcloudClusterSteps(KeyFile(deployment, serviceKey), project, cluster, zone));
    }

    /** `cluster_auth_aws`: update the kubeconfig for the EKS cluster; project and key are unused. */
    method ClusterAuthAws(deployment: string, project: string, cluster: string, zone: string, serviceKey: string)
      returns (r: Result<()>)
      modifies this
      ensures RanSteps(AwsClusterSteps(cluster, zone), r)
    {
      r := RunSteps(AwsClusterSteps(cluster, zone));
    }

    /** `cluster_auth_azure`: log in with the service principal, then fetch the AKS credentials. */
    method ClusterAuthAzure(deployment: string, resourceGroup: string, cluster: string, authFile: string)
      returns (r: Result<()>)
      requires Valid()
      modifies this
      ensures AzureClusterDone(deployment, resourceGroup, cluster, authFile, r)
    {
      var auth := ReadAuthFile(deployment, authFile);
      if auth.Err? {
        return Err(auth.error);
      }
      var c := ReadAzureCredentials(auth.value);
      if c.Err? {
        return Err(c.error);
      }
      r := RunSteps(AzureClusterSteps(c.value, resourceGroup, cluster));
    }

    /** What the configuration of a deployment asks `registry_auth` to do. */
    function RegistrySelection(deployment: string): Result<Option<(Provider, Node)>>
      requires Valid()
      reads this
    {
      var config :- LoadConfig(deployment, cwd, dirs, files);
      if !config.Dict? then Err(WrongShape("hubploy.yaml")) else RegistryChoice(config.m)
    }

    /** What the configuration of a deployment asks `cluster_auth` to do. */
    function ClusterSelection(deployment: string): Result<Option<(Provider, Node)>>
      requires Valid()
      reads this
    {
      var config :- LoadConfig(deployment, cwd, dirs, files);
      if !config.Dict? then Err(WrongShape("hubploy.yaml")) else ClusterChoice(config.m)
    }

    /**
     * `registry_auth`: load the configuration, pick the provider's handler
     * and call it with the provider's sub-block. `handled` is the handler
     * that ran; nothing changes when none does.
     */
    method RegistryAuth(deployment: string) returns (handled: Option<Provider>, r: Result<()>)
      requires Valid()
      modifies this
      ensures var s := old(RegistrySelection(deployment));
              && (s.Err? ==> r == Err(s.error) && handled == None && unchanged(this))
              && (s == Ok(None) ==> r == Ok(()) && handled == None && unchanged(this))
      ensures var s := old(RegistrySelection(deployment));
              s.Ok? && s.value.Some? ==>
                var (p, block) := s.value.value;
                var args := Bind(RegistryHandler(p).0, block, RegistryHandler(p).1);
                && (args.Err? ==> r == Err(args.error) && handled == None && unchanged(this))
                && (args.Ok? ==> handled == Some(p) && RegistryHandlerDone(p, deployment, args.value, r))
    {
      var s := RegistrySelection(deployment);
      if s.Err? {
        return None, Err(s.error);
      }
      if s.value.None? {
        return None, Ok(());
      }
      var (p, block) := s.value.value;
      var args := Bind(RegistryHandler(p).0, block, RegistryHandler(p).1);
      if args.Err? {
        return None, Err(args.error);
      }
      handled := Some(p);
      var a := args.value;
      match p {
        case Gcloud => r := RegistryAuthGcloud(deployment, a[0], a[1]);
        case Aws => r := RegistryAuthAws(deployment, a[0], a[1], a[2]);
        case Azure => r := RegistryAuthAzure(deployment, a[0], a[1], a[2]);
        case Dockerhub => r := RegistryAuthDockerhub(deployment, a[0]);
      }
    }

    /**
     * `cluster_auth`: load the configuration, pick one of the three cluster
     * handlers and call it with the provider's sub-block.
     */
    method ClusterAuth(deployment: string) returns (handled: Option<Provider>, r: Result<()>)
      requires Valid()
      modifies this
      ensures var s := old(ClusterSelection(deployment));
              && (s.Err? ==> r == Err(s.error) && handled == None && unchanged(this))
              && (s == Ok(None) ==> r == Ok(()) && handled == None && unchanged(this))
      ensures var s := old(ClusterSelection(deployment));
              s.Ok? && s.value.Some? ==>
                var (p, block) := s.value.value;
                && p in ClusterProviders
                && var args := Bind(ClusterHandler(p).0, block, ClusterHandler(p).1);
                   && (args.Err? ==> r == Err(args.error) && handled == None && unchanged(this))
                   && (args.Ok? ==> handled == Some(p) && ClusterHandlerDone(p, deployment, args.value, r))
    {
      var s := ClusterSelection(deployment);
      if s.Err? {
        return None, Err(s.error);
      }
      if s.value.None? {
        return None, Ok(());
      }
      var (p, block) := s.value.value;
      var args := Bind(ClusterHandler(p).0, block, ClusterHandler(p).1);
      if args.Err? {
        return None, Err(args.error);
      }
      handled := Some(p);
      var a := args.value;
      match p {
        case Gcloud => r := ClusterAuthGcloud(deployment, a[0], a[1], a[2], a[3]);
        case Aws => r := ClusterAuthAws(deployment, a[0], a[1], a[2], a[3]);
        case Azure => r := ClusterAuthAzure(deployment, a[0], a[1], a[2]);
      }
    }
  }
}
