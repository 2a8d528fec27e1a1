/**
 * Loading a deployment's hubploy.yaml (hubploy/config.py): the remote image
 * records, the `name[:tag]` image list built from the `images` block, and the
 * backwards-compatible renaming of legacy AWS keys in the `cluster` block.
 * The YAML document arrives already parsed, as a `Node` tree; the file
 * system is a set of existing paths and a map from file path to document.
 */
module Config {
  import opened Results
  import opened Text
  import Paths

  /** A parsed YAML value. Numbers, booleans and null are all `Scalar`. */
  datatype Node =
    | Str(s: string)
    | Dict(m: map<string, Node>)
    | List(items: seq<Node>)
    | Scalar
    | Images(images: seq<RemoteImage>)   // the RemoteImage objects get_config stores back

  /** A remote image as hubploy records it: the fields never change after construction. */
  datatype RemoteImage = RemoteImage(name: string, tag: Option<string>, helmSubstitutionPath: string, imageSpec: string)

  const DefaultSubstitutionPath: string := "jupyterhub.singleuser.image"

  /** `name` alone without a tag, `name:tag` with one. */
  function ImageSpec(name: string, tag: Option<string>): string {
    match tag
    case None => name
    case Some(t) => name + ":" + t
  }

  /** `RemoteImage(name, tag, helm_substitution_path)`: refuses an empty or blank name. */
  function NewRemoteImage(name: string, tag: Option<string>, path: string): (r: Result<RemoteImage>)
    ensures r.Ok? <==> !IsBlank(name)
    ensures r.Err? ==> r.error == EmptyImageName
    ensures r.Ok? ==> r.value.name == name && r.value.tag == tag && r.value.helmSubstitutionPath == path
    ensures r.Ok? && tag.None? ==> r.value.imageSpec == name
    ensures r.Ok? && tag.Some? ==> r.value.imageSpec == name + ":" + tag.value
  {
    if name == "" || IsBlank(name) then Err(EmptyImageName)
    else Ok(RemoteImage(name, tag, path, ImageSpec(name, tag)))
  }

  /** `str(DeploymentNotFoundError(deployment, path))` */
  function DeploymentNotFoundText(deployment: string, path: string): (text: string)
    ensures |text| == |deployment| + |path| + 25
    ensures text[..11] == "deployment " && text[11..11 + |deployment|] == deployment
    ensures text[11 + |deployment|..|text| - |path|] == " not found at "
    ensures text[|text| - |path|..] == path
  {
    "deployment " + deployment + " not found at " + path
  }

  /**
   * The message names its deployment and path unambiguously: two errors whose
   * deployment names have the same length report the same text only when
   * they are about the same deployment and path.
   */
  lemma DeploymentNotFoundTextDecodes(d1: string, p1: string, d2: string, p2: string)
    requires |d1| == |d2| && DeploymentNotFoundText(d1, p1) == DeploymentNotFoundText(d2, p2)
    ensures d1 == d2 && p1 == p2
  {
    var t := DeploymentNotFoundText(d1, p1);
    assert |p1| == |p2|;
    assert d1 == t[11..11 + |d1|] == d2;
    assert p1 == t[|t| - |p1|..] == p2;
  }

  // ---------------------------------------------------------------------
  // The image list of get_config
  // ---------------------------------------------------------------------

  /** The keyword arguments get_config passes to RemoteImage: a name and maybe a tag. */
  datatype ImageArgs = ImageArgs(name: string, tag: Option<string>)

  /**
   * A configured image name: with a `:` it must split into exactly a name
   * and a tag (`image_name, tag = name.split(':')`), without one it has no tag.
   */
  function SplitImageName(v: string): (r: Result<ImageArgs>)
    ensures r.Ok? <==> Count(v, ':') <= 1
    ensures r.Err? ==> r.error == UnpackMismatch(Count(v, ':') + 1)
    ensures r.Ok? ==> ImageSpec(r.value.name, r.value.tag) == v && ':' !in r.value.name
    ensures r.Ok? ==> (r.value.tag.None? <==> ':' !in v)
    ensures r.Ok? && r.value.tag.Some? ==> ':' !in r.value.tag.value
  {
    if ':' in v then
      var parts := Split(v, ':');
      SplitLength(v, ':');
      if |parts| != 2 then Err(UnpackMismatch(|parts|))
      else
        SplitOnce(v, ':');
        assert v == parts[0] + ":" + parts[1];
        Ok(ImageArgs(parts[0], Some(parts[1])))
    else
      Ok(ImageArgs(v, None))
  }

  /** One entry of `images.images`: a mapping whose `name` is a string. */
  function ImageArgsOf(item: Node): (r: Result<ImageArgs>)
    ensures r.Ok? ==> item.Dict? && "name" in item.m && item.m["name"].Str?
                      && SplitImageName(item.m["name"].s) == r
  {
    match item
    case Dict(m) =>
      if "name" !in m then Err(MissingKey("name"))
      else if !m["name"].Str? then Err(WrongShape("image name"))
      else SplitImageName(m["name"].s)
    case _ => Err(WrongShape("image entry"))
  }

  /**
   * The arguments built from a list of entries: one per entry, in order, or
   * the error of the first entry that cannot be read.
   */
  function ImageArgsList(items: seq<Node>): Result<seq<ImageArgs>> {
    if items == [] then Ok([])
    else
      match ImageArgsList(items[..|items| - 1])
      case Err(e) => Err(e)
      case Ok(done) =>
        match ImageArgsOf(items[|items| - 1])
        case Err(e) => Err(e)
        case Ok(a) => Ok(done + [a])
  }

  /** Every entry can be read. */
  predicate AllReadable(items: seq<Node>) {
    forall k :: 0 <= k < |items| ==> ImageArgsOf(items[k]).Ok?
  }

  /** A nonempty list of entries is readable when its front is and its last entry is. */
  lemma AllReadableSnoc(items: seq<Node>)
    requires items != []
    ensures AllReadable(items) <==> AllReadable(items[..|items| - 1]) && ImageArgsOf(items[|items| - 1]).Ok?
  {
    var init := items[..|items| - 1];
    assert forall k :: 0 <= k < |init| ==> init[k] == items[k];
  }

  /** The list succeeds exactly when every entry can be read, and then holds each entry's arguments in order. */
  lemma {:induction false} ImageArgsListMeaning(items: seq<Node>)
    ensures ImageArgsList(items).Ok? <==> AllReadable(items)
    ensures ImageArgsList(items).Ok? ==> |ImageArgsList(items).value| == |items|
    ensures ImageArgsList(items).Ok? ==>
              forall k :: 0 <= k < |items| ==> ImageArgsOf(items[k]) == Ok(ImageArgsList(items).value[k])
  {
    if items != [] {
      var init := items[..|items| - 1];
      ImageArgsListMeaning(init);
      AllReadableSnoc(items);
      if ImageArgsList(items).Ok? {
        var done := ImageArgsList(init).value;
        var r := ImageArgsList(items).value;
        assert r == done + [ImageArgsOf(items[|items| - 1]).value];
        forall k | 0 <= k < |items|
          ensures ImageArgsOf(items[k]) == Ok(r[k])
        {
          if k < |init| {
            assert init[k] == items[k];
          }
        }
      }
    }
  }

  /** The error reported is that of the first entry that cannot be read. */
  lemma {:induction false} ImageArgsListFirstError(items: seq<Node>)
    requires ImageArgsList(items).Err?
    ensures exists k :: 0 <= k < |items| && ImageArgsOf(items[k]) == Err(ImageArgsList(items).error)
                        && forall j :: 0 <= j < k ==> ImageArgsOf(items[j]).Ok?
  {
    var init := items[..|items| - 1];
    assert forall k :: 0 <= k < |init| ==> init[k] == items[k];
    if ImageArgsList(init).Err? {
      ImageArgsListFirstError(init);
      var k :| 0 <= k < |init| && ImageArgsOf(init[k]) == Err(ImageArgsList(init).error)
                && forall j :: 0 <= j < k ==> ImageArgsOf(init[j]).Ok?;
      assert ImageArgsOf(items[k]) == Err(ImageArgsList(items).error);
    } else {
      ImageArgsListMeaning(init);
      assert ImageArgsOf(items[|items| - 1]) == Err(ImageArgsList(items).error);
    }
  }

  /** Once an entry has failed, later entries do not change the outcome. */
  lemma {:induction false} ImageArgsErrorSticks(items: seq<Node>, n: nat)
    requires n <= |items| && ImageArgsList(items[..n]).Err?
    ensures ImageArgsList(items) == ImageArgsList(items[..n])
    decreases |items| - n
  {
    if n < |items| {
      assert items[..n + 1][..n] == items[..n];
      ImageArgsErrorSticks(items, n + 1);
    } else {
      assert items[..n] == items;
    }
  }

  /** The loop of get_config over `images.images`, appending one entry per configured image. */
  method CollectImageArgs(items: seq<Node>) returns (r: Result<seq<ImageArgs>>)
    ensures r == ImageArgsList(items)
  {
    var images: seq<ImageArgs> := [];
    for i := 0 to |items|
      invariant ImageArgsList(items[..i]) == Ok(images)
    {
      assert items[..i + 1][..i] == items[..i];
      var entry := ImageArgsOf(items[i]);
      if entry.Err? {
        ImageArgsErrorSticks(items, i + 1);
        return Err(entry.error);
      }
      images := images + [entry.value];
    }
    assert items[..|items|] == items;
    return Ok(images);
  }

  /**
   * `[RemoteImage(**i) for i in images]`: one record per argument set, in
   * order, each with the default substitution path; a blank name fails.
   */
  function MakeImages(args: seq<ImageArgs>): (r: Result<seq<RemoteImage>>)
    ensures r.Ok? <==> forall k :: 0 <= k < |args| ==> !IsBlank(args[k].name)
    ensures r.Err? ==> r.error == EmptyImageName
    ensures r.Ok? ==> |r.value| == |args|
    ensures r.Ok? ==> forall k :: 0 <= k < |args| ==>
              NewRemoteImage(args[k].name, args[k].tag, DefaultSubstitutionPath) == Ok(r.value[k])
  {
    if args == [] then Ok([])
    else
      var first :- NewRemoteImage(args[0].name, args[0].tag, DefaultSubstitutionPath);
      var rest :- MakeImages(args[1..]);
      Ok([first] + rest)
  }

  /** The image list a block `images` names: one `image_name`, or the list `images`. */
  function ImagesFromConfig(imagesConfig: map<string, Node>): (r: Result<seq<ImageArgs>>)
    ensures "image_name" in imagesConfig && r.Ok? ==>
              imagesConfig["image_name"].Str? && SplitImageName(imagesConfig["image_name"].s).Ok?
              && r == Ok([SplitImageName(imagesConfig["image_name"].s).value])
    ensures "image_name" !in imagesConfig && r.Ok? ==>
              "images" in imagesConfig && Entries(imagesConfig["images"]).Ok?
              && r == ImageArgsList(Entries(imagesConfig["images"]).value)
  {
    if "image_name" in imagesConfig then
      match imagesConfig["image_name"]
      case Str(v) =>
        var a :- SplitImageName(v);
        Ok([a])
      case _ => Err(WrongShape("image_name"))
    else if "images" !in imagesConfig then Err(MissingKey("images"))
    else
      var items :- Entries(imagesConfig["images"]);
      ImageArgsList(items)
  }

  /**
   * What `for i in node` visits: the items of a list; an empty mapping or
   * string gives no iteration; anything else fails on its first entry.
   */
  function Entries(n: Node): (r: Result<seq<Node>>)
    ensures n.List? ==> r == Ok(n.items)
    ensures r.Ok? && !n.List? ==> r.value == []
  {
    match n
    case List(items) => Ok(items)
    case Dict(m) => if m == map[] then Ok([]) else Err(WrongShape("image entry"))
    case Str(s) => if s == "" then Ok([]) else Err(WrongShape("image entry"))
    case _ => Err(WrongShape("images"))
  }

  // ---------------------------------------------------------------------
  // Legacy AWS keys
  // ---------------------------------------------------------------------

  /** `d[to] = d[from]; del d[from]` when `from` is present; nothing otherwise. */
  function RenameKey(d: map<string, Node>, from: string, to: string): (r: map<string, Node>)
    requires from != to
    ensures from !in d ==> r == d
    ensures from in d ==> to in r && r[to] == d[from] && from !in r
    ensures from in d ==> r.Keys == d.Keys - {from} + {to}
    ensures forall k :: k in d && k != from && k != to ==> k in r && r[k] == d[k]
  {
    if from in d then d[to := d[from]] - {from} else d
  }

  /** The two renames, `project` to `account_id` then `zone` to `region`. */
  function AwsRenames(aws: map<string, Node>): map<string, Node> {
    RenameKey(RenameKey(aws, "project", "account_id"), "zone", "region")
  }

  /** After the renames no legacy key is left, their values have moved, and nothing else changed. */
  lemma AwsRenamesMove(aws: map<string, Node>)
    ensures "project" !in AwsRenames(aws) && "zone" !in AwsRenames(aws)
    ensures "project" in aws ==> AwsRenames(aws)["account_id"] == aws["project"]
    ensures "zone" in aws ==> AwsRenames(aws)["region"] == aws["zone"]
    ensures "project" !in aws && "account_id" in aws ==> AwsRenames(aws)["account_id"] == aws["account_id"]
    ensures "zone" !in aws && "region" in aws ==> AwsRenames(aws)["region"] == aws["region"]
    ensures forall k :: k in aws && k !in {"project", "zone", "account_id", "region"} ==>
              k in AwsRenames(aws) && AwsRenames(aws)[k] == aws[k]
    ensures AwsRenames(aws).Keys ==
              (aws.Keys - {"project", "zone"})
              + (if "project" in aws then {"account_id"} else {})
              + (if "zone" in aws then {"region"} else {})
  {
    var once := RenameKey(aws, "project", "account_id");
    assert "zone" in once <==> "zone" in aws;
  }

  /**
   * The compatibility rewrite of the `cluster` block: only for provider
   * `aws`, and it needs `cluster`, `cluster.provider` and (for aws)
   * `cluster.aws` to be present.
   */
  function AwsCompat(c: map<string, Node>): (r: Result<map<string, Node>>)
    ensures r.Ok? ==> "cluster" in c && c["cluster"].Dict? && "provider" in c["cluster"].m
    ensures r.Ok? ==> r.value.Keys == c.Keys && forall k :: k in c && k != "cluster" ==> r.value[k] == c[k]
    ensures r.Ok? && c["cluster"].m["provider"] != Str("aws") ==> r.value == c
    ensures r.Ok? && c["cluster"].m["provider"] == Str("aws") ==>
              var cl := c["cluster"].m;
              && "aws" in cl && cl["aws"].Dict?
              && r.value["cluster"] == Dict(cl["aws" := Dict(AwsRenames(cl["aws"].m))])
  {
    if "cluster" !in c then Err(MissingKey("cluster"))
    else
      match c["cluster"]
      case Dict(cl) =>
        if "provider" !in cl then Err(MissingKey("provider"))
        else if cl["provider"] != Str("aws") then Ok(c)
        else if "aws" !in cl then Err(MissingKey("aws"))
        else if !cl["aws"].Dict? then Err(WrongShape("cluster.aws"))
        else Ok(c["cluster" := Dict(cl["aws" := Dict(AwsRenames(cl["aws"].m))])])
      case _ => Err(WrongShape("cluster"))
  }

  // ---------------------------------------------------------------------
  // get_config
  // ---------------------------------------------------------------------

  /**
   * The loaded document after get_config's rewrites: when it has an `images`
   * block, `images.images` becomes the list of RemoteImage records and the
   * AWS compatibility rewrite applies.
   */
  function Normalize(config: Node): Result<Node> {
    match config
    case Dict(c) =>
      if "images" !in c then Ok(config)
      else if !c["images"].Dict? then Err(WrongShape("images"))
      else
        var ic := c["images"].m;
        var args :- ImagesFromConfig(ic);
        var images :- MakeImages(args);
        var withImages := c["images" := Dict(ic["images" := Images(images)])];
        var compat :- AwsCompat(withImages);
        Ok(Dict(compat))
    case _ => Err(WrongShape("hubploy.yaml"))
  }

  /** `os.path.abspath(os.path.join("deployments", deployment))` */
  function DeploymentPath(cwd: string, deployment: string): string
    requires Paths.Absolute(cwd)
  {
    Paths.AbsPath(cwd, Paths.Join("deployments", deployment))
  }

  /** What `get_config(deployment)` returns or raises. */
  function LoadConfig(deployment: string, cwd: string, existing: set<string>, files: map<string, Node>): Result<Node>
    requires Paths.Absolute(cwd)
  {
    var path := DeploymentPath(cwd, deployment);
    if path !in existing then Err(DeploymentNotFound(deployment, path))
    else
      var configPath := Paths.Join(path, "hubploy.yaml");
      if configPath !in files then Err(FileMissing(configPath))
      else Normalize(files[configPath])
  }

  /**
   * `get_config`: checks the deployment directory, loads hubploy.yaml, and
   * rewrites the loaded document in place step by step.
   */
  method GetConfig(deployment: string, cwd: string, existing: set<string>, files: map<string, Node>)
    returns (r: Result<Node>)
    requires Paths.Absolute(cwd)
    ensures r == LoadConfig(deployment, cwd, existing, files)
  {
    var path := DeploymentPath(cwd, deployment);
    if path !in existing {
      return Err(DeploymentNotFound(deployment, path));
    }
    var configPath := Paths.Join(path, "hubploy.yaml");
    if configPath !in files {
      return Err(FileMissing(configPath));
    }
    var config := files[configPath];
    if !config.Dict? {
      return Err(WrongShape("hubploy.yaml"));
    }
    if "images" !in config.m {
      return Ok(config);
    }
    var imagesConfig := config.m["images"];
    if !imagesConfig.Dict? {
      return Err(WrongShape("images"));
    }
    var args: seq<ImageArgs>;
    if "image_name" in imagesConfig.m {
      var name := imagesConfig.m["image_name"];
      if !name.Str? {
        return Err(WrongShape("image_name"));
      }
      var single := SplitImageName(name.s);
      if single.Err? {
        return Err(single.error);
      }
      args := [single.value];
    } else {
      if "images" !in imagesConfig.m {
        return Err(MissingKey("images"));
      }
      var items := Entries(imagesConfig.m["images"]);
      if items.Err? {
        return Err(items.error);
      }
      var collected := CollectImageArgs(items.value);
      if collected.Err? {
        return Err(collected.error);
      }
      args := collected.value;
    }
    var images := MakeImages(args);
    if images.Err? {
      return Err(images.error);
    }
    var c := config.m["images" := Dict(imagesConfig.m["images" := Images(images.value)])];
    var compat := AwsCompat(c);
    if compat.Err? {
      return Err(compat.error);
    }
    return Ok(Dict(compat.value));
  }

  // ---------------------------------------------------------------------
  // Properties of the normalised configuration
  // ---------------------------------------------------------------------

  /** A document without an `images` block comes back unchanged. */
  lemma NoImagesUnchanged(c: map<string, Node>)
    requires "images" !in c
    ensures Normalize(Dict(c)) == Ok(Dict(c))
  {
  }

  /**
   * A configured list of images becomes a list of records of the same length
   * and order, each built from its entry's name and tag with the default
   * substitution path; only `images` and `cluster` change at the top level.
   */
  lemma {:induction false} NormalizedImageList(c: map<string, Node>)
    requires "images" in c && c["images"].Dict?
    requires "image_name" !in c["images"].m && "images" in c["images"].m && c["images"].m["images"].List?
    requires Normalize(Dict(c)).Ok?
    ensures var out := Normalize(Dict(c)).value;
            var entries := c["images"].m["images"].items;
            && out.Dict? && "images" in out.m && out.m["images"].Dict?
            && "images" in out.m["images"].m && out.m["images"].m["images"].Images?
            && |out.m["images"].m["images"].images| == |entries|
            && (forall k :: 0 <= k < |entries| ==>
                  var img := out.m["images"].m["images"].images[k];
                  && ImageArgsOf(entries[k]).Ok?
                  && img.name == ImageArgsOf(entries[k]).value.name && img.tag == ImageArgsOf(entries[k]).value.tag
                  && img.helmSubstitutionPath == DefaultSubstitutionPath)
            && out.m.Keys == c.Keys
            && (forall k :: k in c && k !in {"images", "cluster"} ==> out.m[k] == c[k])
  {
    var ic := c["images"].m;
    var entries := ic["images"].items;
    ImageArgsListMeaning(entries);
    var args := ImageArgsList(entries).value;
    var images := MakeImages(args).value;
    var withImages := c["images" := Dict(ic["images" := Images(images)])];
    var out := AwsCompat(withImages).value;
    assert Normalize(Dict(c)) == Ok(Dict(out));
    assert out["images"] == withImages["images"];
    forall k | 0 <= k < |entries|
      ensures ImageArgsOf(entries[k]).Ok?
      ensures images[k].name == args[k].name && images[k].tag == args[k].tag
      ensures images[k].helmSubstitutionPath == DefaultSubstitutionPath
    {
      assert NewRemoteImage(args[k].name, args[k].tag, DefaultSubstitutionPath) == Ok(images[k]);
    }
  }

  /** Each configured `name[:tag]` is recovered as the image spec of its record. */
  lemma ImageSpecRecoversName(v: string, path: string)
    requires SplitImageName(v).Ok?
    requires NewRemoteImage(SplitImageName(v).value.name, SplitImageName(v).value.tag, path).Ok?
    ensures NewRemoteImage(SplitImageName(v).value.name, SplitImageName(v).value.tag, path).value.imageSpec == v
  {
  }

  /** A missing deployment directory is reported before anything is read. */
  lemma MissingDeploymentReported(deployment: string, cwd: string, existing: set<string>, files: map<string, Node>)
    requires Paths.Absolute(cwd) && DeploymentPath(cwd, deployment) !in existing
    ensures LoadConfig(deployment, cwd, existing, files) == Err(DeploymentNotFound(deployment, DeploymentPath(cwd, deployment)))
  {
  }
}
