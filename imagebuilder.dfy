/**
 * Building and pushing a deployment's image only when the registry does not
 * have it yet (hubploy/imagebuilder.py). Git, the Docker daemon and the
 * registry are a `Docker` value of outcome functions; what the code asks of
 * them is returned as a trace of events.
 */
module ImageBuilder {
  import opened Results
  import opened Text

  /** `f'{image_name}:{last_commit}'` */
  function ImageSpecFor(imageName: string, commit: string): string {
    imageName + ":" + commit
  }

  /** `s.rsplit(c, 1)` unpacked into two names: fails when `c` does not occur. */
  function RSplitOnce(s: string, c: char): (r: Result<(string, string)>)
    ensures r.Ok? <==> c in s
    ensures r.Err? ==> r.error == UnpackMismatch(1)
    ensures r.Ok? ==> r.value.0 + [c] + r.value.1 == s && c !in r.value.1
  {
    if c in s then
      var i := LastIndex(s, c);
      assert s == s[..i] + [c] + s[i + 1..];
      Ok((s[..i], s[i + 1..]))
    else Err(UnpackMismatch(1))
  }

  /**
   * The push split undoes the image spec: the tag is the commit and the
   * repository the image name, whatever `:` the image name itself holds
   * (a registry port, say), as long as the commit has none.
   */
  lemma {:induction false} PushSplitRecoversSpec(imageName: string, commit: string)
    requires ':' !in commit
    ensures RSplitOnce(ImageSpecFor(imageName, commit), ':') == Ok((imageName, commit))
  {
    var s := ImageSpecFor(imageName, commit);
    var j := |imageName|;
    assert s[j] == ':';
    assert forall k :: j < k < |s| ==> s[k] == commit[k - j - 1];
    LastIndexUnique(s, ':', j);
    assert s[..j] == imageName && s[j + 1..] == commit;
  }

  // ---------------------------------------------------------------------
  // needs_building
  // ---------------------------------------------------------------------

  /** What `client.images.get_registry_data(spec)` gives: data, or one of two exceptions. */
  datatype RegistryAnswer =
    | Data(manifest: Option<string>)
    | ImageNotFound
    | ApiError(explanation: string)

  const ManifestUnknown: string := "manifest unknown: "

  /** `needs_building`: whether the image must be built, or the registry error passed on. */
  function NeedsBuilding(answer: RegistryAnswer): (r: Result<bool>)
    ensures r == Ok(false) <==> answer.Data? && answer.manifest.Some?
    ensures r.Err? <==> answer.ApiError? && !StartsWith(answer.explanation, ManifestUnknown)
    ensures r.Err? ==> r.error == RegistryApi(answer.explanation)
  {
    match answer
    case Data(m) => Ok(m.None?)
    case ImageNotFound => Ok(true)
    case ApiError(e) => if StartsWith(e, ManifestUnknown) then Ok(true) else Err(RegistryApi(e))
  }

  // ---------------------------------------------------------------------
  // Streams of JSON output lines
  // ---------------------------------------------------------------------

  /** One decoded line of build or push output: its keys and their text. */
  type Line = map<string, string>

  /** How many lines are read: up to and including the first one with an `error` key. */
  function LinesRead(lines: seq<Line>): (n: nat)
    ensures n <= |lines|
    ensures forall k :: 0 <= k < n - 1 ==> "error" !in lines[k]
    ensures n < |lines| ==> n > 0 && "error" in lines[n - 1]
    ensures n == |lines| && n > 0 && "error" !in lines[n - 1] ==> forall k :: 0 <= k < n ==> "error" !in lines[k]
  {
    if lines == [] then 0
    else if "error" in lines[0] then 1
    else 1 + LinesRead(lines[1..])
  }

  /** Some line has an `error` key. */
  predicate HasError(lines: seq<Line>) {
    exists k :: 0 <= k < |lines| && "error" in lines[k]
  }

  /** The outcome of scanning a stream of output lines. */
  function StreamResult(lines: seq<Line>, failure: Error): (r: Result<()>)
    ensures r.Err? <==> HasError(lines)
    ensures r.Err? ==> r.error == failure
  {
    if HasError(lines) then Err(failure) else Ok(())
  }

  /**
   * The loop over an output stream in build_image and in the push: each
   * line is reported (to the progress callback, or printed) and an `error`
   * key stops the loop with `failure`.
   */
  method ScanOutput(lines: seq<Line>, report: bool, failure: Error) returns (reported: seq<Line>, r: Result<()>)
    ensures r == StreamResult(lines, failure)
    ensures reported == if report then lines[..LinesRead(lines)] else []
  {
    reported := [];
    for i := 0 to |lines|
      invariant forall k :: 0 <= k < i ==> "error" !in lines[k]
      invariant LinesRead(lines) >= i
      invariant reported == if report then lines[..i] else []
    {
      if report {
        reported := reported + [lines[i]];
      }
      if "error" in lines[i] {
        assert LinesRead(lines) == i + 1;
        return reported, Err(failure);
      }
    }
    return reported, Ok(());
  }

  // ---------------------------------------------------------------------
  // main, after argument parsing
  // ---------------------------------------------------------------------

  /**
   * The outside world of the image builder: whether the registry accepts
   * the login, the commit that last touched a path (`n`-th most recent), the
   * registry's answer for a spec, whether a pull of image and tag succeeds,
   * and the output of a build and of a push.
   */
  datatype Docker = Docker(
    loginSucceeds: string -> bool,
    lastModified: (string, nat) -> string,
    registryData: string -> RegistryAnswer,
    pullSucceeds: (string, string) -> bool,
    buildOutput: (string, seq<string>) -> seq<Line>,
    pushOutput: (string, string) -> seq<Line>)

  /** What the image builder asks of Docker, in order. */
  datatype Event =
    | Login(registry: string)
    | Pull(image: string, tag: string)
    | Build(spec: string, cacheFrom: seq<string>)
    | Repo2Docker(spec: string)
    | Push(repository: string, tag: string)

  /** `make_imagespec(path, image_name, last)` */
  function MakeImagespec(docker: Docker, path: string, imageName: string, last: nat): string {
    ImageSpecFor(imageName, docker.lastModified(path, last))
  }

  /** The pulls that succeed, in the order they were tried. */
  function Pulled(docker: Docker, imageName: string, tags: seq<string>): (r: seq<string>)
    ensures |r| <= |tags|
    ensures forall s :: s in r <==> exists t :: t in tags && docker.pullSucceeds(imageName, t) && s == ImageSpecFor(imageName, t)
  {
    if tags == [] then []
    else
      var last := tags[|tags| - 1];
      var init := tags[..|tags| - 1];
      assert forall t :: t in tags <==> t in init || t == last;
      Pulled(docker, imageName, init)
      + (if docker.pullSucceeds(imageName, last) then [ImageSpecFor(imageName, last)] else [])
  }

  /**
   * The pulls keep the order they were tried in: the pulls of a longer list
   * of tags are those of its first part followed by those of the rest.
   */
  lemma {:induction false} PulledAppend(docker: Docker, imageName: string, first: seq<string>, rest: seq<string>)
    ensures Pulled(docker, imageName, first + rest) == Pulled(docker, imageName, first) + Pulled(docker, imageName, rest)
    decreases |rest|
  {
    if rest == [] {
      assert first + rest == first;
    } else {
      var init := rest[..|rest| - 1];
      assert (first + rest)[..|first + rest| - 1] == first + init;
      PulledAppend(docker, imageName, first, init);
    }
  }

  /** The tags of the three previous builds, most recent first. */
  function CacheTags(docker: Docker, path: string): seq<string> {
    [docker.lastModified(path, 2), docker.lastModified(path, 3), docker.lastModified(path, 4)]
  }

  /**
   * The cache loop of main: try the previous three builds in order, keep
   * those whose pull succeeds, ignore the failures and never stop early.
   */
  method CollectCache(docker: Docker, path: string, imageName: string) returns (cacheFrom: seq<string>, pulls: seq<Event>)
    ensures cacheFrom == Pulled(docker, imageName, CacheTags(docker, path))
    ensures |cacheFrom| <= 3
    ensures |pulls| == 3 && forall k :: 0 <= k < 3 ==> pulls[k] == Pull(imageName, CacheTags(docker, path)[k])
  {
    cacheFrom := [];
    pulls := [];
    ghost var tags := CacheTags(docker, path);
    for i := 2 to 5
      invariant cacheFrom == Pulled(docker, imageName, tags[..i - 2])
      invariant |pulls| == i - 2 && forall k :: 0 <= k < i - 2 ==> pulls[k] == Pull(imageName, tags[k])
    {
      var tag := docker.lastModified(path, i);
      assert tags[i - 2] == tag;
      assert tags[..i - 1][..i - 2] == tags[..i - 2];
      pulls := pulls + [Pull(imageName, tag)];
      if docker.pullSucceeds(imageName, tag) {
        cacheFrom := cacheFrom + [ImageSpecFor(imageName, tag)];
      }
    }
    assert tags[..3] == tags;
  }

  /** The command-line switches of main that change what happens. */
  datatype Options = Options(registryUrl: Option<string>, push: bool, repo2docker: bool)

  /** `docker login` happens when a registry URL is given and is not empty. */
  function LoginEvents(opts: Options): seq<Event> {
    if opts.registryUrl.Some? && opts.registryUrl.value != "" then [Login(opts.registryUrl.value)] else []
  }

  /** No login was asked for, or the registry accepted it. */
  predicate LoginOk(docker: Docker, opts: Options) {
    LoginEvents(opts) == [] || docker.loginSucceeds(opts.registryUrl.value)
  }

  /** The pull attempts of the cache loop, one per candidate tag. */
  function PullEvents(imageName: string, tags: seq<string>): (r: seq<Event>)
    ensures |r| == |tags|
    ensures forall k :: 0 <= k < |tags| ==> r[k] == Pull(imageName, tags[k])
  {
    if tags == [] then [] else [Pull(imageName, tags[0])] + PullEvents(imageName, tags[1..])
  }

  /** The image spec always holds the `:` that the push split looks for. */
  lemma SpecHasColon(imageName: string, commit: string)
    ensures ':' in ImageSpecFor(imageName, commit)
  {
    assert ImageSpecFor(imageName, commit)[|imageName|] == ':';
  }

  /** Repository and tag of the push: the image spec split at its last `:`. */
  function PushTarget(spec: string): (string, string)
    requires ':' in spec
  {
    RSplitOnce(spec, ':').value
  }

  /** The push of a built image: its event and the outcome of its output. */
  function PushStep(docker: Docker, spec: string): (seq<Event>, Result<()>)
    requires ':' in spec
  {
    var target := PushTarget(spec);
    ([Push(target.0, target.1)], StreamResult(docker.pushOutput(target.0, target.1), PushFailed))
  }

  /** The events and result once the registry says the image is missing. */
  function BuildSteps(docker: Docker, path: string, imageName: string, opts: Options): (seq<Event>, Result<()>) {
    var spec := MakeImagespec(docker, path, imageName, 1);
    var tags := CacheTags(docker, path);
    var cache := Pulled(docker, imageName, tags);
    var pulls := PullEvents(imageName, tags);
    var build := if opts.repo2docker then Repo2Docker(spec) else Build(spec, cache);
    var built := if opts.repo2docker then Ok(()) else StreamResult(docker.buildOutput(spec, cache), BuildFailed);
    if built.Err? || !opts.push then (pulls + [build], built)
    else
      SpecHasColon(imageName, docker.lastModified(path, 1));
      var push := PushStep(docker, spec);
      (pulls + [build] + push.0, push.1)
  }

  /**
   * The events and the result of main after argument parsing, step by step:
   * log in, ask the registry, and when the image is missing pull the cache
   * candidates, build, and push when asked to; a failed step ends the run,
   * a rejected login included.
   */
  function BuildTrace(docker: Docker, path: string, imageName: string, opts: Options): (seq<Event>, Result<()>) {
    var login := LoginEvents(opts);
    var spec := MakeImagespec(docker, path, imageName, 1);
    var needs := NeedsBuilding(docker.registryData(spec));
    if !LoginOk(docker, opts) then (login, Err(RegistryApi(opts.registryUrl.value)))
    else if needs.Err? then (login, Err(needs.error))
    else if !needs.value then (login, Ok(()))
    else
      var steps := BuildSteps(docker, path, imageName, opts);
      (login + steps.0, steps.1)
  }

  /**
   * A build (by either builder) happens exactly when the login, if any, was
   * accepted and needs_building says so.
   */
  lemma BuildOnlyWhenNeeded(docker: Docker, path: string, imageName: string, opts: Options)
    ensures var spec := MakeImagespec(docker, path, imageName, 1);
            var events := BuildTrace(docker, path, imageName, opts).0;
            (exists e :: e in events && (e.Build? || e.Repo2Docker?))
            <==> LoginOk(docker, opts) && NeedsBuilding(docker.registryData(spec)) == Ok(true)
  {
    var spec := MakeImagespec(docker, path, imageName, 1);
    var events := BuildTrace(docker, path, imageName, opts).0;
    var login := LoginEvents(opts);
    var needs := NeedsBuilding(docker.registryData(spec));
    if !LoginOk(docker, opts) || needs != Ok(true) {
      assert events == login;
    } else {
      assert events[|login| + 3].Build? || events[|login| + 3].Repo2Docker?;
    }
  }

  /**
   * A push happens only for an image that was just built without error, only
   * when asked, and it names the image spec split at its last `:`; the
   * repository is the image name itself when the commit holds no `:`.
   */
  lemma PushOnlyAfterBuild(docker: Docker, path: string, imageName: string, opts: Options, e: Event)
    requires e in BuildTrace(docker, path, imageName, opts).0 && e.Push?
    ensures var spec := MakeImagespec(docker, path, imageName, 1);
            && LoginOk(docker, opts)
            && NeedsBuilding(docker.registryData(spec)) == Ok(true)
            && opts.push
            && (!opts.repo2docker ==> !HasError(docker.buildOutput(spec, Pulled(docker, imageName, CacheTags(docker, path)))))
            && e.repository + ":" + e.tag == spec
            && (':' !in docker.lastModified(path, 1) ==> e.repository == imageName && e.tag == docker.lastModified(path, 1))
  {
    var commit := docker.lastModified(path, 1);
    var spec := MakeImagespec(docker, path, imageName, 1);
    var needs := NeedsBuilding(docker.registryData(spec));
    var login := LoginEvents(opts);
    var tags := CacheTags(docker, path);
    var pulls := PullEvents(imageName, tags);
    assert forall x :: x in pulls ==> x.Pull? by {
      assert pulls == [Pull(imageName, tags[0]), Pull(imageName, tags[1]), Pull(imageName, tags[2])];
    }
    assert forall x :: x in login ==> x.Login?;
    SpecHasColon(imageName, commit);
    if ':' !in commit {
      PushSplitRecoversSpec(imageName, commit);
    }
  }

  /**
   * A rejected login raises before anything else happens: the registry is
   * not asked, and nothing is pulled, built or pushed.
   */
  lemma LoginFailureStops(docker: Docker, path: string, imageName: string, opts: Options)
    requires !LoginOk(docker, opts)
    ensures var (events, r) := BuildTrace(docker, path, imageName, opts);
            && events == [Login(opts.registryUrl.value)]
            && r == Err(RegistryApi(opts.registryUrl.value))
  {
  }

  /**
   * After an accepted login (or none), a successful build and `--push`, the
   * push is tried and decides the result.
   */
  lemma PushWhenAsked(docker: Docker, path: string, imageName: string, opts: Options)
    requires LoginOk(docker, opts)
    requires NeedsBuilding(docker.registryData(MakeImagespec(docker, path, imageName, 1))) == Ok(true)
    requires opts.push
    requires !opts.repo2docker ==> !HasError(docker.buildOutput(MakeImagespec(docker, path, imageName, 1),
                                                              Pulled(docker, imageName, CacheTags(docker, path))))
    ensures var (events, r) := BuildTrace(docker, path, imageName, opts);
            && |events| > 0 && events[|events| - 1].Push?
            && (r.Ok? <==> !HasError(docker.pushOutput(events[|events| - 1].repository, events[|events| - 1].tag)))
  {
  }

  /** The push of main: split the spec, push, and scan the printed output. */
  method PushImage(docker: Docker, spec: string) returns (events: seq<Event>, r: Result<()>)
    requires ':' in spec
    ensures (events, r) == PushStep(docker, spec)
  {
    var split := RSplitOnce(spec, ':');
    var repository, tag := split.value.0, split.value.1;
    events := [Push(repository, tag)];
    var printed;
    printed, r := ScanOutput(docker.pushOutput(repository, tag), true, PushFailed);
  }

  /** main once the image is known to be missing: cache loop, build, push. */
  method BuildAndPush(docker: Docker, path: string, imageName: string, opts: Options)
    returns (events: seq<Event>, r: Result<()>)
    ensures (events, r) == BuildSteps(docker, path, imageName, opts)
  {
    var spec := MakeImagespec(docker, path, imageName, 1);
    var cacheFrom, pulls := CollectCache(docker, path, imageName);
    assert pulls == PullEvents(imageName, CacheTags(docker, path));
    events := pulls;
    if opts.repo2docker {
      events := events + [Repo2Docker(spec)];
    } else {
      events := events + [Build(spec, cacheFrom)];
      var shown, built := ScanOutput(docker.buildOutput(spec, cacheFrom), true, BuildFailed);
      if built.Err? {
        return events, built;
      }
    }
    if opts.push {
      SpecHasColon(imageName, docker.lastModified(path, 1));
      var pushEvents;
      pushEvents, r := PushImage(docker, spec);
      events := events + pushEvents;
    } else {
      r := Ok(());
    }
  }

  /** main after parsing its arguments. */
  method BuildIfNeeded(docker: Docker, path: string, imageName: string, opts: Options)
    returns (events: seq<Event>, r: Result<()>)
    ensures (events, r) == BuildTrace(docker, path, imageName, opts)
  {
    events := [];
    if opts.registryUrl.Some? && opts.registryUrl.value != "" {
      events := events + [Login(opts.registryUrl.value)];
    }
    assert events == LoginEvents(opts);
    if events != [] && !docker.loginSucceeds(opts.registryUrl.value) {
      return events, Err(RegistryApi(opts.registryUrl.value));
    }
    var spec := MakeImagespec(docker, path, imageName, 1);
    var needs := NeedsBuilding(docker.registryData(spec));
    if needs.Err? {
      return events, Err(needs.error);
    }
    if !needs.value {
      return events, Ok(());
    }
    var steps;
    steps, r := BuildAndPush(docker, path, imageName, opts);
    events := events + steps;
  }
}
