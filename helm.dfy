/**
 * Convention-based Helm deploys (hubploy/helm.py): the release name and
 * namespace, the values files that exist, the image overrides appended to
 * the caller's list, and the `helm upgrade` command line. The cluster and
 * the commands are a `Machine` of outcome functions; what the code does to
 * them is returned as a trace of events.
 */
module Helm {
  import opened Results
  import opened Config
  import Paths

  /** `os.environ.get('HELM_EXECUTABLE', 'helm')` */
  function HelmExecutable(environ: map<string, string>): (exe: string)
    ensures "HELM_EXECUTABLE" in environ ==> exe == environ["HELM_EXECUTABLE"]
    ensures "HELM_EXECUTABLE" !in environ ==> exe == "helm"
  {
    if "HELM_EXECUTABLE" in environ then environ["HELM_EXECUTABLE"] else "helm"
  }

  /** An external effect, in the order the code causes it. */
  datatype Event =
    | RemoveTree(path: string)                      // shutil.rmtree(..., ignore_errors=True)
    | Run(argv: seq<string>, cwd: Option<string>)   // subprocess.check_call
    | ReadNamespace(namespace: string)
    | CreateNamespace(namespace: string)

  /**
   * The world the deploy runs against: the working directory, the paths that
   * exist, the parsed YAML files, whether a command exits with status 0, and
   * what the Kubernetes API answers (None: success; Some(status): ApiException).
   */
  datatype Machine = Machine(
    cwd: string,
    existing: set<string>,
    files: map<string, Node>,
    succeeds: seq<string> -> bool,
    readNamespace: string -> Option<int>,
    createNamespace: string -> Option<int>)

  // ---------------------------------------------------------------------
  // Values files
  // ---------------------------------------------------------------------

  /** `xs` can be obtained from `ys` by deleting elements. */
  predicate IsSubsequence(xs: seq<string>, ys: seq<string>)
    decreases |ys|
  {
    if xs == [] then true
    else if ys == [] then false
    else if xs[0] == ys[0] then IsSubsequence(xs[1..], ys[1..])
    else IsSubsequence(xs, ys[1..])
  }

  /** `[f for f in paths if os.path.exists(f)]` */
  function ExistingOnly(paths: seq<string>, existing: set<string>): (r: seq<string>)
    ensures IsSubsequence(r, paths)
    ensures forall p :: p in r <==> p in paths && p in existing
    ensures forall p :: multiset(r)[p] == if p in existing then multiset(paths)[p] else 0
  {
    if paths == [] then []
    else
      var rest := ExistingOnly(paths[1..], existing);
      assert paths == [paths[0]] + paths[1..];
      if paths[0] in existing then [paths[0]] + rest else rest
  }

  /** The conventional values files of a deployment and environment, in precedence order. */
  function ValuesCandidates(deployment: string, environment: string): seq<string> {
    [ Paths.DeploymentFile(deployment, "config", "common.yaml"),
      Paths.DeploymentFile(deployment, "config", environment + ".yaml"),
      Paths.DeploymentFile(deployment, "secrets", environment + ".yaml") ]
  }

  /** The values files passed to helm: the conventional ones that exist, in order. */
  function ValuesFiles(deployment: string, environment: string, existing: set<string>): (files: seq<string>)
    ensures |files| <= 3
    ensures IsSubsequence(files, ValuesCandidates(deployment, environment))
    ensures forall p :: p in files <==> p in ValuesCandidates(deployment, environment) && p in existing
  {
    var files := ExistingOnly(ValuesCandidates(deployment, environment), existing);
    SubsequenceLength(files, ValuesCandidates(deployment, environment));
    files
  }

  /** A subsequence is never longer than the sequence it is taken from. */
  lemma {:induction false} SubsequenceLength(xs: seq<string>, ys: seq<string>)
    requires IsSubsequence(xs, ys)
    ensures |xs| <= |ys|
    decreases |ys|
  {
    if xs != [] {
      if xs[0] == ys[0] {
        SubsequenceLength(xs[1..], ys[1..]);
      } else {
        SubsequenceLength(xs, ys[1..]);
      }
    }
  }

  /** When every path exists, the filter keeps them all, in order. */
  lemma {:induction false} ExistingOnlyKeepsAll(paths: seq<string>, existing: set<string>)
    requires forall p :: p in paths ==> p in existing
    ensures ExistingOnly(paths, existing) == paths
  {
    if paths != [] {
      assert forall p :: p in paths[1..] ==> p in paths;
      ExistingOnlyKeepsAll(paths[1..], existing);
      assert [paths[0]] + paths[1..] == paths;
    }
  }

  /** When all three files exist helm gets all three, in precedence order. */
  lemma AllValuesFiles(deployment: string, environment: string, existing: set<string>)
    requires forall p :: p in ValuesCandidates(deployment, environment) ==> p in existing
    ensures ValuesFiles(deployment, environment, existing) == ValuesCandidates(deployment, environment)
  {
    ExistingOnlyKeepsAll(ValuesCandidates(deployment, environment), existing);
  }

  // ---------------------------------------------------------------------
  // Image overrides
  // ---------------------------------------------------------------------

  /** `f'{image.tag}'`: a missing tag prints as `None`. */
  function TagText(tag: Option<string>): string {
    match tag
    case None => "None"
    case Some(t) => t
  }

  function TagOverride(image: RemoteImage): string {
    image.helmSubstitutionPath + ".tag=" + TagText(image.tag)
  }

  function NameOverride(image: RemoteImage): string {
    image.helmSubstitutionPath + ".name=" + image.name
  }

  /** The `--set-string` values deploy adds: for each image its tag, then its name. */
  function ImageOverrides(images: seq<RemoteImage>): (r: seq<string>)
    ensures |r| == 2 * |images|
  {
    if images == [] then []
    else
      var last := images[|images| - 1];
      ImageOverrides(images[..|images| - 1]) + [TagOverride(last), NameOverride(last)]
  }

  /** Image `k` contributes its tag override, then its name override. */
  lemma {:induction false} ImageOverridesAt(images: seq<RemoteImage>)
    ensures forall k :: 0 <= k < |images| ==>
              ImageOverrides(images)[2 * k] == TagOverride(images[k])
              && ImageOverrides(images)[2 * k + 1] == NameOverride(images[k])
  {
    if images != [] {
      var init := images[..|images| - 1];
      ImageOverridesAt(init);
      assert forall k :: 0 <= k < |init| ==> init[k] == images[k];
    }
  }

  /** The caller's `helm_config_overrides_string` list, which deploy extends in place. */
  class OverrideList {
    var items: seq<string>

    constructor (initial: seq<string>)
      ensures items == initial
    {
      items := initial;
    }

    /** `list.append(s)` */
    method Append(s: string)
      modifies this
      ensures items == old(items) + [s]
    {
      items := items + [s];
    }
  }

  /** deploy's loop over the configured images, appending to the caller's list. */
  method AppendImageOverrides(list: OverrideList, images: seq<RemoteImage>)
    modifies list
    ensures list.items == old(list.items) + ImageOverrides(images)
  {
    ghost var start := list.items;
    for i := 0 to |images|
      invariant list.items == start + ImageOverrides(images[..i])
    {
      assert images[..i + 1][..i] == images[..i];
      list.Append(TagOverride(images[i]));
      list.Append(NameOverride(images[i]));
    }
    assert images[..|images|] == images;
  }

  /** The images deploy reads: `config['images']['images']`. */
  function ConfiguredImages(config: Node): (r: Result<seq<RemoteImage>>)
    ensures r.Ok? <==> config.Dict? && "images" in config.m && config.m["images"].Dict?
                       && "images" in config.m["images"].m && config.m["images"].m["images"].Images?
    ensures r.Ok? ==> r.value == config.m["images"].m["images"].images
  {
    if !config.Dict? then Err(WrongShape("hubploy.yaml"))
    else if "images" !in config.m then Err(MissingKey("images"))
    else if !config.m["images"].Dict? then Err(WrongShape("images"))
    else if "images" !in config.m["images"].m then Err(MissingKey("images"))
    else if !config.m["images"].m["images"].Images? then Err(WrongShape("images.images"))
    else Ok(config.m["images"].m["images"].images)
  }

  // ---------------------------------------------------------------------
  // The helm upgrade command line
  // ---------------------------------------------------------------------

  /** The optional arguments of helm_upgrade; a string option counts only when non-empty. */
  datatype UpgradeOptions = UpgradeOptions(
    version: Option<string>,
    timeout: Option<string>,
    force: bool,
    atomic: bool,
    cleanupOnFail: bool)

  /** Python truthiness of an optional string. */
  predicate Truthy(o: Option<string>) {
    o.Some? && o.value != ""
  }

  /** `itertools.chain(*[[flag, x] for x in xs])` */
  function Pairs(flag: string, xs: seq<string>): (r: seq<string>)
    ensures |r| == 2 * |xs|
  {
    if xs == [] then [] else Pairs(flag, xs[..|xs| - 1]) + [flag, xs[|xs| - 1]]
  }

  /** Pair `k` is the flag followed by `xs[k]`. */
  lemma {:induction false} PairsAt(flag: string, xs: seq<string>)
    ensures forall k :: 0 <= k < |xs| ==> Pairs(flag, xs)[2 * k] == flag && Pairs(flag, xs)[2 * k + 1] == xs[k]
  {
    if xs != [] {
      var init := xs[..|xs| - 1];
      PairsAt(flag, init);
      assert forall k :: 0 <= k < |init| ==> init[k] == xs[k];
    }
  }

  /** The fixed head of every upgrade command. */
  function UpgradeHead(helm: string, namespace: string, name: string, chart: string): seq<string> {
    [helm, "upgrade", "--wait", "--install", "--namespace", namespace, name, chart]
  }

  /** `[name, value]` when the option has a non-empty value, nothing otherwise. */
  function ValueFlag(name: string, value: Option<string>): seq<string> {
    if Truthy(value) then [name, value.value] else []
  }

  /** The flag when its switch is on, nothing otherwise. */
  function Switch(isSet: bool, name: string): seq<string> {
    if isSet then [name] else []
  }

  /** The optional flags, each present only when set, in a fixed order. */
  function OptionalFlags(opts: UpgradeOptions): seq<string> {
    ValueFlag("--version", opts.version)
    + ValueFlag("--timeout", opts.timeout)
    + Switch(opts.force, "--force")
    + Switch(opts.atomic, "--atomic")
    + Switch(opts.cleanupOnFail, "--cleanup-on-fail")
  }

  /** The `helm upgrade` command helm_upgrade runs. */
  function UpgradeArgv(helm: string, name: string, namespace: string, chart: string,
                       files: seq<string>, implicit: seq<string>, strings: seq<string>,
                       opts: UpgradeOptions): seq<string> {
    UpgradeHead(helm, namespace, name, chart) + OptionalFlags(opts)
    + Pairs("-f", files) + Pairs("--set", implicit) + Pairs("--set-string", strings)
  }

  /** How many words the optional flags take. */
  function FlagWords(opts: UpgradeOptions): nat {
    (if Truthy(opts.version) then 2 else 0) + (if Truthy(opts.timeout) then 2 else 0)
    + (if opts.force then 1 else 0) + (if opts.atomic then 1 else 0) + (if opts.cleanupOnFail then 1 else 0)
  }

  /** The words helm_upgrade uses as optional flags. */
  const FlagNames: set<string> := {"--version", "--timeout", "--force", "--atomic", "--cleanup-on-fail"}

  /**
   * Each flag appears exactly when it is set (for a version and timeout that
   * are not themselves flag words).
   */
  lemma OptionalFlagsPresent(opts: UpgradeOptions)
    requires opts.version.Some? ==> opts.version.value !in FlagNames
    requires opts.timeout.Some? ==> opts.timeout.value !in FlagNames
    ensures |OptionalFlags(opts)| == FlagWords(opts)
    ensures "--version" in OptionalFlags(opts) <==> Truthy(opts.version)
    ensures "--timeout" in OptionalFlags(opts) <==> Truthy(opts.timeout)
    ensures "--force" in OptionalFlags(opts) <==> opts.force
    ensures "--atomic" in OptionalFlags(opts) <==> opts.atomic
    ensures "--cleanup-on-fail" in OptionalFlags(opts) <==> opts.cleanupOnFail
  {
    OptionalFlagsLength(opts);
  }

  /** A block of pairs keeps its positions wherever it is placed. */
  lemma PairsInside(before: seq<string>, flag: string, xs: seq<string>, after: seq<string>)
    ensures var w := before + Pairs(flag, xs) + after;
            forall k :: 0 <= k < |xs| ==> w[|before| + 2 * k] == flag && w[|before| + 2 * k + 1] == xs[k]
  {
    var p := Pairs(flag, xs);
    PairsAt(flag, xs);
    var w := before + p + after;
    forall k | 0 <= k < |xs|
      ensures w[|before| + 2 * k] == flag && w[|before| + 2 * k + 1] == xs[k]
    {
      assert w[|before| + 2 * k] == p[2 * k];
      assert w[|before| + 2 * k + 1] == p[2 * k + 1];
    }
  }

  /** The fixed head and the optional flags open the upgrade command. */
  lemma UpgradeArgvHead(helm: string, name: string, namespace: string, chart: string,
                        files: seq<string>, implicit: seq<string>, strings: seq<string>,
                        opts: UpgradeOptions)
    ensures var argv := UpgradeArgv(helm, name, namespace, chart, files, implicit, strings, opts);
            && |argv| == 8 + FlagWords(opts) + 2 * (|files| + |implicit| + |strings|)
            && argv[..8] == [helm, "upgrade", "--wait", "--install", "--namespace", namespace, name, chart]
            && argv[8..8 + FlagWords(opts)] == OptionalFlags(opts)
  {
    var head := UpgradeHead(helm, namespace, name, chart);
    var flags := OptionalFlags(opts);
    OptionalFlagsLength(opts);
    var rest := Pairs("-f", files) + Pairs("--set", implicit) + Pairs("--set-string", strings);
    assert UpgradeArgv(helm, name, namespace, chart, files, implicit, strings, opts) == head + flags + rest;
    Slices(head, flags, rest);
  }

  /** The two front pieces of a three-piece sequence can be cut back out. */
  lemma Slices<T>(a: seq<T>, b: seq<T>, c: seq<T>)
    ensures (a + b + c)[..|a|] == a && (a + b + c)[|a|..|a| + |b|] == b && |a + b + c| == |a| + |b| + |c|
  {
  }

  /** The optional flags take two words per value flag and one per switch. */
  lemma OptionalFlagsLength(opts: UpgradeOptions)
    ensures |OptionalFlags(opts)| == FlagWords(opts)
  {
  }

  /** The `-f` pairs follow the flags, one per values file, in order. */
  lemma UpgradeArgvFiles(helm: string, name: string, namespace: string, chart: string,
                         files: seq<string>, implicit: seq<string>, strings: seq<string>,
                         opts: UpgradeOptions)
    ensures var argv := UpgradeArgv(helm, name, namespace, chart, files, implicit, strings, opts);
            var f := 8 + FlagWords(opts);
            forall k :: 0 <= k < |files| ==> argv[f + 2 * k] == "-f" && argv[f + 2 * k + 1] == files[k]
  {
    var before := UpgradeHead(helm, namespace, name, chart) + OptionalFlags(opts);
    assert |before| == 8 + FlagWords(opts);
    var after := Pairs("--set", implicit) + Pairs("--set-string", strings);
    assert UpgradeArgv(helm, name, namespace, chart, files, implicit, strings, opts) == before + Pairs("-f", files) + after;
    PairsInside(before, "-f", files, after);
  }

  /** The `--set` pairs follow the files, one per implicit override, in order. */
  lemma UpgradeArgvSet(helm: string, name: string, namespace: string, chart: string,
                       files: seq<string>, implicit: seq<string>, strings: seq<string>,
                       opts: UpgradeOptions)
    ensures var argv := UpgradeArgv(helm, name, namespace, chart, files, implicit, strings, opts);
            var s := 8 + FlagWords(opts) + 2 * |files|;
            forall k :: 0 <= k < |implicit| ==> argv[s + 2 * k] == "--set" && argv[s + 2 * k + 1] == implicit[k]
  {
    var before := UpgradeHead(helm, namespace, name, chart) + OptionalFlags(opts) + Pairs("-f", files);
    assert |before| == 8 + FlagWords(opts) + 2 * |files|;
    var after := Pairs("--set-string", strings);
    assert UpgradeArgv(helm, name, namespace, chart, files, implicit, strings, opts) == before + Pairs("--set", implicit) + after;
    PairsInside(before, "--set", implicit, after);
  }

  /** The `--set-string` pairs close the command, one per string override, in order. */
  lemma UpgradeArgvSetString(helm: string, name: string, namespace: string, chart: string,
                             files: seq<string>, implicit: seq<string>, strings: seq<string>,
                             opts: UpgradeOptions)
    ensures var argv := UpgradeArgv(helm, name, namespace, chart, files, implicit, strings, opts);
            var t := 8 + FlagWords(opts) + 2 * |files| + 2 * |implicit|;
            forall k :: 0 <= k < |strings| ==> argv[t + 2 * k] == "--set-string" && argv[t + 2 * k + 1] == strings[k]
  {
    var before := UpgradeHead(helm, namespace, name, chart) + OptionalFlags(opts) + Pairs("-f", files) + Pairs("--set", implicit);
    assert |before| == 8 + FlagWords(opts) + 2 * |files| + 2 * |implicit|;
    assert UpgradeArgv(helm, name, namespace, chart, files, implicit, strings, opts) == before + Pairs("--set-string", strings) + [];
    PairsInside(before, "--set-string", strings, []);
  }

  /** helm_upgrade's `cmd`, grown one `+=` at a time. */
  method BuildUpgradeArgv(helm: string, name: string, namespace: string, chart: string,
                          files: seq<string>, implicit: seq<string>, strings: seq<string>,
                          opts: UpgradeOptions) returns (cmd: seq<string>)
    ensures cmd == UpgradeArgv(helm, name, namespace, chart, files, implicit, strings, opts)
  {
    cmd := [helm, "upgrade", "--wait", "--install", "--namespace", namespace, name, chart];
    cmd := AppendOptionalFlags(cmd, opts);
    cmd := AppendPairs(cmd, "-f", files);
    cmd := AppendPairs(cmd, "--set", implicit);
    cmd := AppendPairs(cmd, "--set-string", strings);
  }

  /** The `if version: cmd += [...]` ... `if cleanup_on_fail: cmd += [...]` steps of helm_upgrade. */
  method AppendOptionalFlags(cmd: seq<string>, opts: UpgradeOptions) returns (out: seq<string>)
    ensures out == cmd + OptionalFlags(opts)
  {
    out := cmd;
    ghost var added: seq<string> := [];
    Extend(cmd, added, ValueFlag("--version", opts.version), out);
    if Truthy(opts.version) {
      out := out + ["--version", opts.version.value];
    }
    added := added + ValueFlag("--version", opts.version);
    Extend(cmd, added, ValueFlag("--timeout", opts.timeout), out);
    if Truthy(opts.timeout) {
      out := out + ["--timeout", opts.timeout.value];
    }
    added := added + ValueFlag("--timeout", opts.timeout);
    Extend(cmd, added, Switch(opts.force, "--force"), out);
    if opts.force {
      out := out + ["--force"];
    }
    added := added + Switch(opts.force, "--force");
    Extend(cmd, added, Switch(opts.atomic, "--atomic"), out);
    if opts.atomic {
      out := out + ["--atomic"];
    }
    added := added + Switch(opts.atomic, "--atomic");
    Extend(cmd, added, Switch(opts.cleanupOnFail, "--cleanup-on-fail"), out);
    if opts.cleanupOnFail {
      out := out + ["--cleanup-on-fail"];
    }
    added := added + Switch(opts.cleanupOnFail, "--cleanup-on-fail");
    assert [] + ValueFlag("--version", opts.version) == ValueFlag("--version", opts.version);
  }

  /** A `cmd += words` step, taken or skipped, keeps the command equal to its head plus the words added. */
  lemma Extend(cmd: seq<string>, added: seq<string>, words: seq<string>, out: seq<string>)
    requires out == cmd + added
    ensures out + words == cmd + (added + words)
    ensures out == cmd + (added + [])
  {
  }

  /** `cmd += itertools.chain(*[[flag, x] for x in xs])`, one pair at a time. */
  method AppendPairs(cmd: seq<string>, flag: string, xs: seq<string>) returns (out: seq<string>)
    ensures out == cmd + Pairs(flag, xs)
  {
    out := cmd;
    for i := 0 to |xs|
      invariant out == cmd + Pairs(flag, xs[..i])
    {
      assert xs[..i + 1][..i] == xs[..i];
      out := out + [flag, xs[i]];
    }
    assert xs[..|xs|] == xs;
  }

  // ---------------------------------------------------------------------
  // helm_upgrade and deploy
  // ---------------------------------------------------------------------

  /** `helm dep up`, run inside the chart directory when it exists. */
  function DepUp(helm: string): seq<string> {
    [helm, "dep", "up"]
  }

  /** The uninstall attempted before every upgrade, named after the namespace. */
  function Uninstall(helm: string, namespace: string): seq<string> {
    [helm, "uninstall", namespace, "--namespace", namespace]
  }

  /** The chart preparation steps: cleared and re-fetched dependencies, only for an existing chart. */
  function ChartSteps(machine: Machine, helm: string, chart: string): seq<Event> {
    if chart in machine.existing then [RemoveTree(Paths.Join(chart, "charts")), Run(DepUp(helm), Some(chart))] else []
  }

  /** The namespace exists, or reading it gave 404 and creating it succeeded. */
  predicate NamespaceReady(machine: Machine, namespace: string) {
    machine.readNamespace(namespace).None?
    || (machine.readNamespace(namespace) == Some(404) && machine.createNamespace(namespace).None?)
  }

  /**
   * What `helm_upgrade` does against `machine`: the events it causes, in
   * order, and how it ends. It prepares the chart, makes sure the namespace
   * exists (creating it only on a 404), tries an uninstall whose failure is
   * ignored, then runs the upgrade.
   */
  function UpgradeRun(machine: Machine, helm: string, name: string, namespace: string, chart: string,
                      files: seq<string>, implicit: seq<string>, strings: seq<string>, opts: UpgradeOptions)
    : (o: (seq<Event>, Result<()>))
    ensures var chartOk := chart !in machine.existing || machine.succeeds(DepUp(helm));
            var argv := UpgradeArgv(helm, name, namespace, chart, files, implicit, strings, opts);
            var read := machine.readNamespace(namespace);
            && (o.1.Ok? <==> chartOk && NamespaceReady(machine, namespace) && machine.succeeds(argv))
            && (!chartOk ==> o.0 == ChartSteps(machine, helm, chart) && o.1 == Err(CommandFailed(DepUp(helm))))
            && (chartOk && read.Some? && read.value != 404 ==>
                  o.0 == ChartSteps(machine, helm, chart) + [ReadNamespace(namespace)] && o.1 == Err(KubeApi(read.value)))
            && (chartOk && read == Some(404) && machine.createNamespace(namespace).Some? ==>
                  o.0 == ChartSteps(machine, helm, chart) + [ReadNamespace(namespace), CreateNamespace(namespace)]
                  && o.1 == Err(KubeApi(machine.createNamespace(namespace).value)))
            && (chartOk && NamespaceReady(machine, namespace) ==>
                  && o.0 == ChartSteps(machine, helm, chart) + [ReadNamespace(namespace)]
                            + (if read.Some? then [CreateNamespace(namespace)] else [])
                            + [Run(Uninstall(helm, namespace), None), Run(argv, None)]
                  && (o.1.Err? ==> o.1.error == CommandFailed(argv)))
  {
    var prep := ChartSteps(machine, helm, chart);
    var read := machine.readNamespace(namespace);
    var created := machine.createNamespace(namespace);
    var argv := UpgradeArgv(helm, name, namespace, chart, files, implicit, strings, opts);
    if chart in machine.existing && !machine.succeeds(DepUp(helm)) then
      (prep, Err(CommandFailed(DepUp(helm))))
    else if read.Some? && read.value != 404 then
      (prep + [ReadNamespace(namespace)], Err(KubeApi(read.value)))
    else if read.Some? && created.Some? then
      (prep + [ReadNamespace(namespace), CreateNamespace(namespace)], Err(KubeApi(created.value)))
    else
      (prep + [ReadNamespace(namespace)] + (if read.Some? then [CreateNamespace(namespace)] else [])
         + [Run(Uninstall(helm, namespace), None), Run(argv, None)],
       if machine.succeeds(argv) then Ok(()) else Err(CommandFailed(argv)))
  }

  /** `helm_upgrade`, step by step; it does exactly what `UpgradeRun` describes. */
  method HelmUpgrade(machine: Machine, helm: string, name: string, namespace: string, chart: string,
                     files: seq<string>, implicit: seq<string>, strings: seq<string>, opts: UpgradeOptions)
    returns (trace: seq<Event>, r: Result<()>)
    ensures (trace, r) == UpgradeRun(machine, helm, name, namespace, chart, files, implicit, strings, opts)
  {
    trace := [];
    if chart in machine.existing {
      trace := trace + [RemoveTree(Paths.Join(chart, "charts"))];
      trace := trace + [Run(DepUp(helm), Some(chart))];
      assert trace == ChartSteps(machine, helm, chart);
      if !machine.succeeds(DepUp(helm)) {
        r := Err(CommandFailed(DepUp(helm)));
        return;
      }
    }
    trace := trace + [ReadNamespace(namespace)];
    var read := machine.readNamespace(namespace);
    if read.Some? {
      if read.value == 404 {
        trace := trace + [CreateNamespace(namespace)];
        var created := machine.createNamespace(namespace);
        if created.Some? {
          assert trace == ChartSteps(machine, helm, chart) + [ReadNamespace(namespace), CreateNamespace(namespace)];
          r := Err(KubeApi(created.value));
          return;
        }
      } else {
        r := Err(KubeApi(read.value));
        return;
      }
    }
    ghost var ready := trace;
    assert ready == ChartSteps(machine, helm, chart) + [ReadNamespace(namespace)]
                    + (if read.Some? then [CreateNamespace(namespace)] else []);
    // the outcome of the uninstall is deliberately not looked at
    trace := trace + [Run(Uninstall(helm, namespace), None)];
    var cmd := BuildUpgradeArgv(helm, name, namespace, chart, files, implicit, strings, opts);
    trace := trace + [Run(cmd, None)];
    assert trace == ready + [Run(Uninstall(helm, namespace), None), Run(cmd, None)];
    r := if machine.succeeds(cmd) then Ok(()) else Err(CommandFailed(cmd));
  }

  /**
   * A successful helm_upgrade read the namespace and ended with the upgrade
   * command itself.
   */
  lemma UpgradeRunEndsWithUpgrade(machine: Machine, helm: string, name: string, namespace: string, chart: string,
                                  files: seq<string>, implicit: seq<string>, strings: seq<string>, opts: UpgradeOptions)
    requires UpgradeRun(machine, helm, name, namespace, chart, files, implicit, strings, opts).1.Ok?
    ensures var trace := UpgradeRun(machine, helm, name, namespace, chart, files, implicit, strings, opts).0;
            && |trace| > 0
            && trace[|trace| - 1] == Run(UpgradeArgv(helm, name, namespace, chart, files, implicit, strings, opts), None)
            && ReadNamespace(namespace) in trace
  {
    var trace := UpgradeRun(machine, helm, name, namespace, chart, files, implicit, strings, opts).0;
    var prep := ChartSteps(machine, helm, chart);
    assert trace[|prep|] == ReadNamespace(namespace);
  }

  /** `f'{deployment}-{environment}'` */
  function ReleaseName(deployment: string, environment: string): string {
    deployment + "-" + environment
  }

  /** The namespace given, or the release name when none is. */
  function NamespaceFor(namespace: Option<string>, release: string): string {
    if namespace.Some? then namespace.value else release
  }

  /**
   * `deploy`: loads the config, extends the caller's `--set-string` list in
   * place with the image overrides (a missing list becomes a fresh one), and
   * runs helm_upgrade with the release name, namespace and values files.
   */
  method Deploy(machine: Machine, helm: string, deployment: string, chart: string, environment: string,
                namespace: Option<string>, implicit: Option<seq<string>>, overrides: OverrideList?,
                opts: UpgradeOptions)
    returns (trace: seq<Event>, r: Result<()>)
    requires Paths.Absolute(machine.cwd)
    modifies overrides
    ensures var loaded := LoadConfig(deployment, machine.cwd, machine.existing, machine.files);
            (loaded.Err? || ConfiguredImages(loaded.value).Err?) ==>
              && trace == []
              && r == Err(if loaded.Err? then loaded.error else ConfiguredImages(loaded.value).error)
              && (overrides != null ==> overrides.items == old(overrides.items))
    ensures var loaded := LoadConfig(deployment, machine.cwd, machine.existing, machine.files);
            loaded.Ok? && ConfiguredImages(loaded.value).Ok? ==>
              var added := ImageOverrides(ConfiguredImages(loaded.value).value);
              var strings := (if overrides != null then old(overrides.items) else []) + added;
              var release := ReleaseName(deployment, environment);
              var ns := NamespaceFor(namespace, release);
              && (overrides != null ==> overrides.items == strings)
              && (trace, r) == UpgradeRun(machine, helm, release, ns, chart, ValuesFiles(deployment, environment, machine.existing),
                                          if implicit.Some? then implicit.value else [], strings, opts)
  {
    var implicitList := if implicit.Some? then implicit.value else [];
    var list: OverrideList;
    if overrides == null {
      list := new OverrideList([]);
    } else {
      list := overrides;
    }
    var config := GetConfig(deployment, machine.cwd, machine.existing, machine.files);
    if config.Err? {
      return [], Err(config.error);
    }
    var images := ConfiguredImages(config.value);
    if images.Err? {
      return [], Err(images.error);
    }
    var release := ReleaseName(deployment, environment);
    var ns := NamespaceFor(namespace, release);
    var files := ValuesFiles(deployment, environment, machine.existing);
    AppendImageOverrides(list, images.value);
    trace, r := HelmUpgrade(machine, helm, release, ns, chart, files, implicitList, list.items, opts);
  }
}
