# hubploy, modelled in Dafny

hubploy deploys JupyterHub instances from a conventional directory layout:
`deployments/<name>/` holds a `hubploy.yaml`, the Helm values files and the
secrets. This project models the core of hubploy's Python package and proves
properties of that model. The core covers:

- how commit hashes become image tags (`utils.py`);
- the registry helpers: the `WWW-Authenticate` parser, the image-spec split, the manifest URL and the two-step bearer-token exchange (`registry.py`);
- loading and normalising `hubploy.yaml` (`config.py`);
- the Helm deploy: values files, image overrides appended to the caller's list, the `helm upgrade` command line, and the namespace rule (`helm.py`);
- building and pushing an image only when the registry lacks it (`imagebuilder.py`);
- registry and cluster authentication per cloud provider (`auth.py`).

The outside world is never run. Each external dependency becomes a value passed in:

- git, the Docker daemon, the registry, subprocesses, the Kubernetes API and the file system are outcome functions and maps;
- each operation returns what it asked of them, as a trace of events, together with its result or the exception it raised (`Results.Result`).

Modules, one per source file plus shared helpers:

| module | file | models |
|---|---|---|
| `Results` | `results.dfy` | `Result`/`Option`, and one `Error` per exception raised |
| `Text` | `text.dfy` | `str.split`/`join`/`strip`/`count`/`rsplit`, as far as hubploy uses them |
| `Paths` | `paths.dfy` | `os.path.join`/`abspath` on POSIX |
| `Utils` | `utils.dfy` | `hubploy/utils.py` |
| `Registry` | `registry.dfy` | `hubploy/registry.py` |
| `Config` | `config.dfy` | `hubploy/config.py` |
| `Helm` | `helm.dfy` | `hubploy/helm.py` |
| `ImageBuilder` | `imagebuilder.dfy` | `hubploy/imagebuilder.py` |
| `Auth` | `auth.dfy` | `hubploy/auth.py` |

Where the code changes state in place, the model is imperative:

- `first_alpha`, `parse_www_authenticate`, `get_config`, `helm_upgrade` and the output, cache and step loops are methods with loops. Each is proved equal to a specification function, and the properties are proved about that function.
- The override list that `deploy` extends is a class (`Helm.OverrideList`).
- The machine the auth handlers change is a class (`Auth.Host`).

## Model

| member | source | states |
|---|---|---|
| Utils.AlphaPrefixLength | hubploy/utils.py:13-15 | the result `n` has `s[n-1]` alphabetic and no earlier character alphabetic |
| Utils.FirstAlpha | hubploy/utils.py:8-16 | succeeds exactly when `s` holds a letter, and then returns one past the index of the first letter; otherwise fails with `NoAlpha(s)` |
| Utils.SubstringWithAlpha | hubploy/utils.py:19-27 | succeeds iff `s` has a letter; the result is a prefix of `s`, holds a letter, and is at least `min(len(s), min_len)` long |
| Utils.SubstringWithAlphaLength | hubploy/utils.py:27 | the cut is exactly `min(len(s), max(min_len, first_alpha(s)))` long |
| Utils.AlphaPrefixLengthOfPrefix | hubploy/utils.py:13-15 | a prefix that still holds the first letter has its first letter at the same index |
| Utils.SubstringWithAlphaIdempotent | hubploy/utils.py:19-27 | shortening an already shortened tag gives the same tag |
| Utils.LastLine | hubploy/utils.py:39 | the last line of git's output has no newline, and is the text after the last newline (or the whole output if there is none) |
| Utils.LastModifiedCommit | hubploy/utils.py:30-40 | the tag is a newline-free prefix of the last output line, holds a letter, and fails iff that line has no letter. Its length is exactly `min(len(line), max(7, first_alpha(line)))` |
| Registry.AfterScheme | hubploy/registry.py:22 | dropping the first space-separated word leaves the text after the first space, or nothing when there is no space |
| Registry.EntryIsSplit | hubploy/registry.py:26-27 | unpacking `p.split('=')` succeeds iff the part holds exactly one `=` (otherwise it raises the unpack error with the number of pieces), and then gives the unstripped key and the `"`-stripped value |
| Registry.ParseWwwAuthenticate | hubploy/registry.py:13-28 | the loop's dictionary (or first error) is the fold `AuthParams` over the comma-separated parts |
| Registry.FoldErrorSticks | hubploy/registry.py:25-26 | once a part fails, later parts do not change the outcome |
| Registry.FoldSucceeds | hubploy/registry.py:24-27 | parsing succeeds iff every comma-separated part holds exactly one `=` |
| Registry.FoldStep | hubploy/registry.py:25-27 | a successful parse is the parse of all parts but the last, with the last part's entry assigned on top |
| Registry.FoldKeys | hubploy/registry.py:25-27 | the keys of the result are exactly the keys of the parts |
| Registry.FoldLastWins | hubploy/registry.py:25-27 | for a repeated key, the value of its last part wins |
| Registry.KeysGrow | hubploy/registry.py:27 | assigning one more part's entry adds exactly that part's key |
| Registry.LastValuesGrow | hubploy/registry.py:27 | assigning one more entry keeps every last-of-its-key value in place |
| Registry.StripQuoted | hubploy/registry.py:27 | `strip('"')` of a quoted text without inner quotes is the text, including the empty text |
| Registry.PeelEntry | hubploy/registry.py:26-27 | a part `key=rest` with no other `=` gives `key` and `rest` stripped of `"` |
| Registry.QuotedEntry | hubploy/registry.py:26-27 | a part `key="value"` gives exactly `key` and `value` |
| Registry.SplitPeel | hubploy/registry.py:24 | splitting at a separator that the head lacks peels the head off as the first part |
| Registry.BearerChallengeParts | hubploy/registry.py:22-24 | a bearer challenge splits into its three `key="value"` parts |
| Registry.FoldSnoc | hubploy/registry.py:25-27 | one more quoted part adds its key and unquoted value |
| Registry.FoldQuotedParts | hubploy/registry.py:25-27 | three quoted parts fold into their three entries |
| Registry.BearerChallengeParses | hubploy/registry.py:13-28 | `Bearer realm="…",service="…",scope="…"` parses into exactly the three unquoted entries, as the test of the Docker Hub challenge asserts |
| Registry.SchemeOnlyFails | hubploy/registry.py:22-26 | a header that is only a scheme word has no `key=value` part, and raises |
| Registry.Locate | hubploy/registry.py:42-52 | two `/`: the registry is `https://` plus the first segment and the image is the rest; one `/`: Docker Hub and the whole path; otherwise `InvalidImageSpec` |
| Registry.ParseImageSpec | hubploy/registry.py:41-52 | succeeds iff the spec has exactly one `:` and one or two `/` before it; a different `:` count is an unpack error; the parts reassemble into the spec |
| Registry.ManifestUrl | hubploy/registry.py:55 | the URL starts with the registry followed by `/v2/` |
| Registry.Challenge | hubploy/registry.py:58-81 | a token request is made iff the 401 carries a parsable `Www-Authenticate` header with a `realm`. It goes to the realm, with every other challenge parameter as query parameters. A missing header, a parse error or a missing realm raises before any request. The bearer retry follows iff the token response has a `token`, and a missing one raises `KeyError`. On the retry, 404/401 give None, a 4xx/5xx raises, and anything else returns the body |
| Registry.GetImageManifest | hubploy/registry.py:30-87 | the first GET is of the manifest URL. 200 returns the body, 404 returns None, and 401 continues with exactly the requests and the result of `Challenge` for that response. Any other status raises only for 400–599 and otherwise returns None. A bad spec sends no request |
| Registry.ChallengeEndsAtManifest | hubploy/registry.py:58-81 | after a 401, a manifest is returned only from the bearer retry of the manifest URL |
| Registry.ManifestComesFromManifestUrl | hubploy/registry.py:55-87 | at most three requests, and a returned manifest is the body of a GET of the manifest URL |
| Config.NewRemoteImage | hubploy/config.py:30-55 | rejects an empty or blank name; otherwise keeps name, tag and path, and the image spec is `name` or `name:tag` |
| Config.DeploymentNotFoundText | hubploy/config.py:21-22 | the message is `deployment `, the deployment name, ` not found at `, then the path, and nothing else |
| Config.DeploymentNotFoundTextDecodes | hubploy/config.py:21-22 | two messages for names of the same length are equal only for the same name and path |
| Config.SplitImageName | hubploy/config.py:96-106 | succeeds iff the name has at most one `:`; name and tag reassemble into the original; a tag is present iff there was a `:` |
| Config.ImageArgsOf | hubploy/config.py:96-106 | an entry is usable only as a mapping with a string `name` |
| Config.ImageArgsListMeaning | hubploy/config.py:93-106 | the list succeeds iff every entry can be read, and then holds one argument set per entry, in order |
| Config.ImageArgsListFirstError | hubploy/config.py:95-106 | the error reported is the error of an entry |
| Config.ImageArgsErrorSticks | hubploy/config.py:95-106 | once an entry fails, later entries do not change the outcome |
| Config.CollectImageArgs | hubploy/config.py:93-106 | the appending loop builds exactly `ImageArgsList` |
| Config.MakeImages | hubploy/config.py:108 | one record per argument set, in order, with the default substitution path; fails iff some name is blank |
| Config.ImagesFromConfig | hubploy/config.py:84-106 | `image_name` wins over `images` and gives a single image; otherwise one image per listed entry |
| Config.Entries | hubploy/config.py:93-95 | iterating a list visits its items; an empty mapping or string gives no iteration |
| Config.RenameKey | hubploy/config.py:115-116 | moving a present key gives its value to the new key, removes the old one, and leaves the rest unchanged |
| Config.AwsRenamesMove | hubploy/config.py:110-123 | after the renames no `project` or `zone` is left, their values sit under `account_id`/`region`, and no other key changes |
| Config.AwsCompat | hubploy/config.py:110-123 | the rewrite needs `cluster.provider`; only for provider `aws` does it touch `cluster.aws`; every other top-level key is unchanged |
| Config.GetConfig | hubploy/config.py:58-126 | the in-place loading and rewriting gives exactly `LoadConfig` |
| Config.NoImagesUnchanged | hubploy/config.py:80 | a document without `images` comes back unchanged |
| Config.NormalizedImageList | hubploy/config.py:93-108 | a list of image entries becomes a record list of the same length and order, built from each entry's name and tag |
| Config.ImageSpecRecoversName | hubploy/config.py:52-55 | each configured `name[:tag]` comes back as the image spec of its record |
| Config.MissingDeploymentReported | hubploy/config.py:69-71 | a missing deployment directory raises `DeploymentNotFoundError` before anything is read |
| Paths.DeploymentFile | hubploy/helm.py:157-159 | `deployments/<d>/<sub>/<file>` for plain names; an absolute file name replaces the rest |
| Paths.SecretPath | hubploy/auth.py:52-54 | secret files resolve to `deployments/<d>/secrets/<file>` |
| Helm.HelmExecutable | hubploy/helm.py:29 | `HELM_EXECUTABLE` from the environment, `helm` by default |
| Helm.ExistingOnly | hubploy/helm.py:156-160 | the result is a subsequence of the paths holding every existing path, as many times as the input holds it, and nothing else |
| Helm.ValuesFiles | hubploy/helm.py:156-160 | at most three files, in precedence order, exactly the candidates that exist |
| Helm.SubsequenceLength | hubploy/helm.py:156-160 | a filtered list is never longer than the candidates |
| Helm.ExistingOnlyKeepsAll | hubploy/helm.py:156-160 | when all paths exist, all are kept, in order |
| Helm.AllValuesFiles | hubploy/helm.py:156-160 | with all three present, helm gets common, environment and secrets files, in that order |
| Helm.ImageOverrides | hubploy/helm.py:162-168 | two overrides per image |
| Helm.ImageOverridesAt | hubploy/helm.py:167-168 | image `k` contributes `<path>.tag=<tag>` then `<path>.name=<name>`, a missing tag reading `None` |
| Helm.OverrideList.Append | hubploy/helm.py:167-168 | appends one item at the end of the caller's list |
| Helm.AppendImageOverrides | hubploy/helm.py:162-168 | the caller's list is its old contents followed by the image overrides |
| Helm.ConfiguredImages | hubploy/helm.py:162 | `config['images']['images']` is read only when present as a list of records |
| Helm.Pairs | hubploy/helm.py:106-108 | two words per item |
| Helm.PairsAt | hubploy/helm.py:106-108 | pair `k` is the flag then item `k` |
| Helm.PairsInside | hubploy/helm.py:106-108 | a block of pairs keeps its positions wherever it is placed in the command |
| Helm.OptionalFlagsPresent | hubploy/helm.py:96-105 | each optional flag appears exactly when its option is set (version and timeout only when non-empty) |
| Helm.UpgradeArgvHead | hubploy/helm.py:88-105 | the command starts with `helm upgrade --wait --install --namespace <ns> <name> <chart>` followed by the optional flags |
| Helm.UpgradeArgvFiles | hubploy/helm.py:106 | a `-f` pair follows the flags for each values file, in order |
| Helm.UpgradeArgvSet | hubploy/helm.py:107 | a `--set` pair follows the files for each implicit override, in order |
| Helm.UpgradeArgvSetString | hubploy/helm.py:108 | the `--set-string` pairs close the command, one per string override, in order |
| Helm.AppendPairs | hubploy/helm.py:106-108 | the `+=` of chained pairs extends the command by exactly `Pairs` |
| Helm.AppendOptionalFlags | hubploy/helm.py:96-105 | the five conditional `+=` steps extend the command by exactly `OptionalFlags` |
| Helm.OptionalFlagsLength | hubploy/helm.py:96-105 | the optional flags take two words per set value flag and one per set switch |
| Helm.BuildUpgradeArgv | hubploy/helm.py:88-108 | the command grown by successive `+=` is `UpgradeArgv` |
| Helm.UpgradeRun | hubploy/helm.py:32-109 | the whole decision table. An existing chart is cleared and `dep up` runs first; its failure stops the run. A namespace read error other than 404 raises. On a 404 the namespace is created, and a failure there raises. The uninstall's failure is ignored. The result is the upgrade command's, and it succeeds iff each of these steps does |
| Helm.HelmUpgrade | hubploy/helm.py:32-109 | the step-by-step run causes exactly the events and the result of `UpgradeRun` |
| Helm.UpgradeRunEndsWithUpgrade | hubploy/helm.py:66-109 | a successful run read the namespace and ended with the upgrade command |
| Helm.Deploy | hubploy/helm.py:112-182 | a config error changes nothing and runs nothing. Otherwise the caller's list gets the image overrides appended. The events and the result are then exactly those of `UpgradeRun`. It runs for release `<deployment>-<environment>`, in the given namespace or one named after the release, with the existing values files, the implicit overrides (none by default) and the extended list |
| ImageBuilder.RSplitOnce | hubploy/imagebuilder.py:151 | `rsplit(':', 1)` unpacks iff there is a `:`; `repository + ":" + tag` is the spec and the tag has no `:` |
| ImageBuilder.PushSplitRecoversSpec | hubploy/imagebuilder.py:149-151 | splitting `image_name:commit` gives back the image name and the commit when the commit has no `:`, even if the name has one |
| ImageBuilder.NeedsBuilding | hubploy/imagebuilder.py:16-31 | no build only when registry data with a manifest comes back; an image-not-found error or a `manifest unknown: ` API error means build; any other API error is re-raised |
| ImageBuilder.LinesRead | hubploy/imagebuilder.py:46-50 | the lines consumed stop at and include the first line with an `error` key |
| ImageBuilder.StreamResult | hubploy/imagebuilder.py:46-50 | a stream fails with the given error iff some line has an `error` key |
| ImageBuilder.ScanOutput | hubploy/imagebuilder.py:46-50 | the loop reports every line up to and including the first error line, then fails; a clean stream succeeds (the push loop, lines 153-157, has the same shape) |
| ImageBuilder.Pulled | hubploy/imagebuilder.py:131-141 | the cache list holds `image:tag` exactly for the tags whose pull succeeded, never more than tried |
| ImageBuilder.PulledAppend | hubploy/imagebuilder.py:131-141 | the cache list keeps the order in which the tags were tried |
| ImageBuilder.CollectCache | hubploy/imagebuilder.py:131-141 | the loop tries the 2nd, 3rd and 4th last commits in order, keeps the successful pulls, never stops early, and holds at most three entries |
| ImageBuilder.PullEvents | hubploy/imagebuilder.py:137 | one pull per candidate tag, in order |
| ImageBuilder.SpecHasColon | hubploy/imagebuilder.py:11-13 | an image spec always holds the `:` that the push split needs |
| ImageBuilder.BuildOnlyWhenNeeded | hubploy/imagebuilder.py:117-159 | a build (by either builder) happens exactly when the registry login, if one is asked for, is accepted and `needs_building` says so |
| ImageBuilder.PushOnlyAfterBuild | hubploy/imagebuilder.py:149-152 | a push follows only an accepted login (or none), a needed and successful build and `--push`, and it pushes the spec split at its last `:` |
| ImageBuilder.LoginFailureStops | hubploy/imagebuilder.py:117-122 | a rejected registry login raises `APIError` right after the login: the registry is not asked, and nothing is pulled, built or pushed |
| ImageBuilder.PushWhenAsked | hubploy/imagebuilder.py:149-157 | after an accepted login (or none) and a successful build with `--push`, the push is the last step, and it fails iff its output has an error line |
| ImageBuilder.PushImage | hubploy/imagebuilder.py:151-157 | the push step's event and result are `PushStep` |
| ImageBuilder.BuildAndPush | hubploy/imagebuilder.py:130-157 | cache loop, build and push give exactly `BuildSteps` |
| ImageBuilder.BuildIfNeeded | hubploy/imagebuilder.py:116-159 | login (which may be rejected), decision, build and push give exactly `BuildTrace` |
| Auth.NamedProvider | hubploy/auth.py:25-43 | a tag names a provider exactly when it is that provider's name |
| Auth.Select | hubploy/auth.py:24-43 | succeeds iff `provider` is a string naming an accepted provider whose sub-block is present; the handler gets that sub-block; a missing, non-string or unaccepted tag raises the unknown-provider error |
| Auth.RegistryChoice | hubploy/auth.py:22-43 | nothing to do unless `images.registry` exists; otherwise the selection among gcloud, aws, azure and dockerhub |
| Auth.ClusterChoice | hubploy/auth.py:153-170 | nothing to do unless `cluster` exists; any chosen provider is gcloud, aws or azure |
| Auth.DockerhubIsRegistryOnly | hubploy/auth.py:37-43 | `dockerhub` selects the registry handler but raises as unknown for a cluster |
| Auth.SelectByTag | hubploy/auth.py:22-43 | each accepted tag selects its own handler and sub-block |
| Auth.Bind | hubploy/auth.py:25-40 | binding succeeds iff the block is a mapping whose keys are exactly the handler's parameters, each with a string value. It then passes the values in parameter order; otherwise it raises the bad-arguments error |
| Auth.AwsRenamedBlockRefused | hubploy/auth.py:196-204 | a cluster `aws` block after the loader's renames of `config.py`:110-123 no longer fits `cluster_auth_aws`, and the call is refused |
| Auth.BindValues | hubploy/auth.py:25-40 | the bound values are the block's strings, in parameter order |
| Auth.Commands | hubploy/auth.py:55-63 | one command step per argv, in order |
| Auth.AttemptedIsPrefix | hubploy/auth.py:55-63 | the commands run are a prefix of the sequence; all but the last succeeded, and the run stops at the first failure |
| Auth.RunOutcomeMeaning | hubploy/auth.py:55-63 | the sequence succeeds iff every command does; otherwise it raises for a failing command |
| Auth.FailureStopsSequence | hubploy/auth.py:55-63 | on failure the last command run is the one that raised; on success every command ran |
| Auth.AttemptedAfter | hubploy/auth.py:55-63 | while every command so far succeeds, the run continues with the rest |
| Auth.TwoStepOrder | hubploy/auth.py:55-63 | the login step runs first; the second runs only after it succeeds; the handler succeeds iff both do |
| Auth.Field | hubploy/auth.py:122-127 | `auth[key]` is the key's string value, and a missing key raises `KeyError` |
| Auth.ReadAzureCredentials | hubploy/auth.py:122-127 | `appId`, `tenant` and `password` must all be present, and are taken as they are |
| Auth.DockerhubLogin | hubploy/auth.py:135-145 | the login uses `username` and `password`, and `registry` defaults to `https://index.docker.io/v1/` when the key is absent; a missing `username` or `password` raises |
| Auth.DockerhubRegistryNotText | hubploy/auth.py:141 | a `registry` value that is not a string is refused with `WrongShape` before any login; this departs from `auth.get`, as "## Left out" says |
| Auth.AddEcrHelper | hubploy/auth.py:86-94 | a missing Docker config or a missing `credHelpers` raises; otherwise the config is rewritten |
| Auth.EcrHelperOnlyChange | hubploy/auth.py:86-94 | after the rewrite, `credHelpers["<project>.dkr.ecr.<zone>.amazonaws.com"]` is `ecr-login`; every other helper, top-level key and file is unchanged |
| Auth.Host.KeyFile | hubploy/auth.py:52-58 | the key file passed to gcloud is the absolute form of `deployments/<d>/secrets/<key>` |
| Auth.Host.ReadAuthFile | hubploy/auth.py:117-119 | the auth file is read from the deployment's secrets, and a missing one raises |
| Auth.Host.RunSteps | hubploy/auth.py:55-63 | `check_call` in turn: the trace gains exactly the commands attempted, the result is `RunOutcome`, and files are untouched |
| Auth.Host.RegistryAuthGcloud | hubploy/auth.py:46-63 | it activates the service account and then configures Docker, stopping at the first failure |
| Auth.Host.RegistryAuthAws | hubploy/auth.py:66-94 | a missing key file raises before any change. Otherwise `~/.aws` exists afterwards and the key is copied to `~/.aws/credentials`. The Docker config then gets the ECR helper, or the error leaves only the copy behind |
| Auth.Host.RegistryAuthAzure | hubploy/auth.py:97-133 | the auth file must provide the service principal; then `az login` and, if that succeeds, `az acr login` |
| Auth.Host.RegistryAuthDockerhub | hubploy/auth.py:135-145 | one Docker login with the auth file's account, against the file's registry or the default |
| Auth.Host.ClusterAuthGcloud | hubploy/auth.py:173-193 | it activates the service account and then gets the cluster credentials, stopping at the first failure |
| Auth.Host.ClusterAuthAws | hubploy/auth.py:196-204 | one `aws eks update-kubeconfig --name <cluster> --region <zone>`; project and key are unused |
| Auth.Host.ClusterAuthAzure | hubploy/auth.py:207-244 | service principal login, then `az aks get-credentials`, stopping at the first failure |
| Auth.Host.RegistryAuth | hubploy/auth.py:16-43 | a config error or the absence of `images.registry` changes nothing. A failed binding of the sub-block also changes nothing. Otherwise the selected provider's handler runs with the bound arguments. The new state and the result are then exactly that handler's effect (`RegistryHandlerDone`) |
| Auth.Host.ClusterAuth | hubploy/auth.py:147-170 | the same for `cluster`, among gcloud, aws and azure only, with the effect `ClusterHandlerDone` |

## Left out

- External effects are not executed. This covers git, the Docker SDK and daemon, `requests`, `subprocess`, the Kubernetes client, YAML/JSON parsing and file I/O. Each is an outcome function, a map of parsed files, or an event in a returned trace.
- Logging, `print` and the progress callbacks' printing are not modelled. The build and push loops return the lines they would report.
- `str.isalpha` and `str.strip()` are restricted to ASCII letters and ASCII whitespace.
- `os.path.abspath` does not normalise `..` and `.` components. Paths are joined as `posixpath.join` does.
- A YAML value that is not a mapping where the code uses `in` or `[]` on it (a string or a number) is reported as a `WrongShape` error. Python would do a substring test, index a character, or raise a `TypeError`.
- `helm.py` reading `HELM_EXECUTABLE` and `KUBECONFIG` at import time: the executable is a parameter (`Helm.HelmExecutable` shows the default). The choice between a kubeconfig and in-cluster configuration is not modelled.
- `shutil.rmtree(..., ignore_errors=True)` always succeeds in the model; it is recorded as an event.
- `build_repo2docker` is a foreign library call. It is recorded as an event, and its failures are not modelled.
- A failure of the git commit lookup (`gitutils.last_git_modified`) is not modelled. The function is called in `imagebuilder.py` but is not defined in `gitutils.py`, so `ImageBuilder.Docker.lastModified` is an abstract total function.
- The username and password of `imagebuilder.main`'s login are not modelled. Only the registry URL is recorded, and whether the login is accepted is an outcome function of that URL. A rejected login is reported as `RegistryApi(url)`; the SDK's exception detail is not modelled.
- `api_client.build` and `client.images.push` are modelled as always returning their output stream. A build or push fails only through an `error` line in that stream. An exception raised by the call itself (an unreachable daemon, say) is not modelled.
- hubploy/gitutils.py, hubploy/commitrange.py, hubploy/__main__.py (including the argument parsing of `imagebuilder.main`) and setup.py are not part of this model.
- `cluster_auth` reads its block through the same config loader, and that loader renames an `aws` block's `project` and `zone`. Python then raises `TypeError` when it binds the renamed keys to `cluster_auth_aws`. The model gives `BadArguments` instead (`Auth.AwsRenamedBlockRefused`).
- Auth.Bind: a sub-block value that is not a string is refused with `WrongShape`. Python would bind it and fail, or not fail, later.
- Auth.ProviderText: the message text for a non-string provider tag is a fixed placeholder, not Python's `repr`.
- Auth.DockerhubLogin: a `registry`, `username` or `password` value in the Dockerhub auth file that is not a string is refused with `WrongShape`, and no login is attempted. Python passes such a value to `client.login` as it is; for a null `registry` that is a login to the Docker SDK's default index. The model cannot follow this: its YAML values other than strings, mappings and lists are a single `Scalar` node, so a null cannot be told apart from a number or a boolean.
- Auth.Host.RegistryAuthDockerhub: a failed login is reported as `RegistryApi(registry)`; the SDK's exception detail is not modelled. It also inherits `Auth.DockerhubLogin`'s refusal of non-string fields.
- Helm.OptionalFlagsPresent: this is proved only for a version and timeout that are not themselves flag words such as `--force`. For such a value the word would be present without its flag being set.
- Registry.BearerChallengeParses: this is stated for any realm, service and scope without `=`, `"` or `,`, rather than only for the one header of the registry test. That header's values satisfy these conditions.
- Registry.GetImageManifest follows the code rather than the comment-level reading that any other status raises. `raise_for_status` raises only for statuses 400–599, so an unexpected 1xx/2xx/3xx status on the first response returns None, and on the bearer retry returns the body.
- Registry.Challenge: the status of the token response is not checked, as in the code; a missing `token` field raises `KeyError`. A missing `Www-Authenticate` header is reported as `WrongShape`.
