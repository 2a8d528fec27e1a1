/**
 * Talking to a Docker v2 registry (hubploy/registry.py): the partial parser
 * for `WWW-Authenticate` headers, the image-spec split, the manifest URL and
 * the classification of HTTP answers in the two-step bearer-token exchange.
 * HTTP itself is a function from request to response supplied by the caller.
 */
module Registry {
  import opened Results
  import opened Text

  // ---------------------------------------------------------------------
  // parse_www_authenticate
  // ---------------------------------------------------------------------

  /** `' '.join(header.split(' ')[1:])`: the header without its scheme word. */
  function AfterScheme(header: string): (rest: string)
    ensures ' ' in header ==> rest == header[FirstIndex(header, ' ') + 1..]
    ensures ' ' !in header ==> rest == ""
  {
    var rest := Join(Split(header, ' ')[1..], ' ');
    if ' ' in header then
      SplitAtFirst(header, ' ');
      JoinSplit(header[FirstIndex(header, ' ') + 1..], ' ');
      rest
    else
      SplitWithoutSep(header, ' ');
      rest
  }

  /** The key of a `key=value` part: the text before its `=`, not stripped. */
  function Key(part: string): string
    requires '=' in part
  {
    part[..FirstIndex(part, '=')]
  }

  /** The value of a `key=value` part, with every leading and trailing `"` removed. */
  function Value(part: string): string
    requires '=' in part
  {
    Strip(part[FirstIndex(part, '=') + 1..], '"')
  }

  /** One part as the parser reads it: its key and unquoted value when it holds exactly one `=`. */
  function Entry(part: string): Result<(string, string)> {
    if Count(part, '=') != 1 then Err(UnpackMismatch(Count(part, '=') + 1))
    else Ok((Key(part), Value(part)))
  }

  /** `k, v = part.split('='); v.strip('"')`, computed with the split itself. */
  function SplitEntry(part: string): Result<(string, string)> {
    var kv := Split(part, '=');
    if |kv| != 2 then Err(UnpackMismatch(|kv|)) else Ok((kv[0], Strip(kv[1], '"')))
  }

  /**
   * Unpacking the split fails, naming how many pieces it found, unless the
   * part holds exactly one `=`; then the pieces are the key and the value.
   */
  lemma EntryIsSplit(part: string)
    ensures SplitEntry(part) == Entry(part)
  {
    SplitLength(part, '=');
    if Count(part, '=') == 1 {
      SplitOnce(part, '=');
    }
  }

  /**
   * The dictionary the loop of `parse_www_authenticate` has built after the
   * given parts, or the error of the first part that is not `key=value`.
   */
  function Fold(parts: seq<string>): Result<map<string, string>> {
    if parts == [] then Ok(map[])
    else
      match Fold(parts[..|parts| - 1])
      case Err(e) => Err(e)
      case Ok(m) =>
        match Entry(parts[|parts| - 1])
        case Err(e) => Err(e)
        case Ok(kv) => Ok(m[kv.0 := kv.1])
  }

  /** What `parse_www_authenticate(header)` returns or raises. */
  function AuthParams(header: string): Result<map<string, string>> {
    Fold(Split(AfterScheme(header), ','))
  }

  /** Once a part has failed, later parts do not change the outcome. */
  lemma {:induction false} FoldErrorSticks(parts: seq<string>, n: nat)
    requires n <= |parts| && Fold(parts[..n]).Err?
    ensures Fold(parts) == Fold(parts[..n])
    decreases |parts| - n
  {
    if n < |parts| {
      assert parts[..n + 1][..n] == parts[..n];
      FoldErrorSticks(parts, n + 1);
    } else {
      assert parts[..n] == parts;
    }
  }

  /** `parse_www_authenticate`: fills a dictionary part by part. */
  method ParseWwwAuthenticate(header: string) returns (r: Result<map<string, string>>)
    ensures r == AuthParams(header)
  {
    var rest := Join(Split(header, ' ')[1..], ' ');
    var parts := Split(rest, ',');
    var parsed: map<string, string> := map[];
    for i := 0 to |parts|
      invariant Fold(parts[..i]) == Ok(parsed)
    {
      var kv := Split(parts[i], '=');
      EntryIsSplit(parts[i]);
      if |kv| != 2 {
        assert parts[..i + 1][..i] == parts[..i];
        FoldErrorSticks(parts, i + 1);
        return Err(UnpackMismatch(|kv|));
      }
      assert parts[..i + 1][..i] == parts[..i];
      parsed := parsed[kv[0] := Strip(kv[1], '"')];
    }
    assert parts[..|parts|] == parts;
    return Ok(parsed);
  }

  /** Every part holds exactly one `=`. */
  predicate AllEntries(parts: seq<string>) {
    forall i :: 0 <= i < |parts| ==> Count(parts[i], '=') == 1
  }

  /** A nonempty list of parts is well formed when its front is and its last part is. */
  lemma AllEntriesSnoc(parts: seq<string>)
    requires parts != []
    ensures AllEntries(parts) <==> AllEntries(parts[..|parts| - 1]) && Count(parts[|parts| - 1], '=') == 1
  {
    var init := parts[..|parts| - 1];
    assert forall i :: 0 <= i < |init| ==> init[i] == parts[i];
  }

  /** Parsing succeeds exactly when every comma-separated part holds one `=`. */
  lemma {:induction false} FoldSucceeds(parts: seq<string>)
    ensures Fold(parts).Ok? <==> AllEntries(parts)
  {
    if parts != [] {
      FoldSucceeds(parts[..|parts| - 1]);
      AllEntriesSnoc(parts);
    }
  }

  /** After a successful fold, the dictionary is the previous one with the last part's entry added. */
  lemma FoldStep(parts: seq<string>)
    requires parts != [] && Fold(parts).Ok?
    ensures Fold(parts[..|parts| - 1]).Ok?
    ensures Count(parts[|parts| - 1], '=') == 1
    ensures Fold(parts).value ==
              Fold(parts[..|parts| - 1]).value[Key(parts[|parts| - 1]) := Value(parts[|parts| - 1])]
  {
  }

  /** Some part among `parts` is a `key=value` part with key `k`. */
  predicate KeyOccurs(parts: seq<string>, k: string) {
    exists i :: 0 <= i < |parts| && '=' in parts[i] && Key(parts[i]) == k
  }

  /** The keys of `m` are exactly the keys of the parts. */
  ghost predicate KeysMatch(parts: seq<string>, m: map<string, string>) {
    forall k :: k in m <==> KeyOccurs(parts, k)
  }

  /** Adding the last part's entry adds exactly that part's key. */
  lemma KeysGrow(parts: seq<string>, m: map<string, string>)
    requires parts != [] && '=' in parts[|parts| - 1]
    requires KeysMatch(parts[..|parts| - 1], m)
    ensures KeysMatch(parts, m[Key(parts[|parts| - 1]) := Value(parts[|parts| - 1])])
  {
    var init, last := parts[..|parts| - 1], parts[|parts| - 1];
    var m' := m[Key(last) := Value(last)];
    forall k | k in m'
      ensures KeyOccurs(parts, k)
    {
      if k == Key(last) {
        assert '=' in parts[|init|] && Key(parts[|init|]) == k;
      } else {
        var i :| 0 <= i < |init| && '=' in init[i] && Key(init[i]) == k;
        assert parts[i] == init[i];
      }
    }
    forall k | KeyOccurs(parts, k)
      ensures k in m'
    {
      var i :| 0 <= i < |parts| && '=' in parts[i] && Key(parts[i]) == k;
      if i < |init| {
        assert parts[i] == init[i];
        assert KeyOccurs(init, k);
      }
    }
  }

  /** The keys of the parsed dictionary are exactly the keys of the parts. */
  lemma {:induction false} FoldKeys(parts: seq<string>)
    requires Fold(parts).Ok?
    ensures KeysMatch(parts, Fold(parts).value)
  {
    if parts != [] {
      FoldStep(parts);
      FoldKeys(parts[..|parts| - 1]);
      KeysGrow(parts, Fold(parts[..|parts| - 1]).value);
    }
  }

  /** Part `i` is a `key=value` part and no later part has the same key. */
  predicate LastOfKey(parts: seq<string>, i: nat)
    requires i < |parts|
  {
    '=' in parts[i] && forall j :: i < j < |parts| && '=' in parts[j] ==> Key(parts[j]) != Key(parts[i])
  }

  /** Every part that is the last of its key has its value in `m`. */
  predicate LastValuesIn(parts: seq<string>, m: map<string, string>) {
    forall i :: 0 <= i < |parts| && LastOfKey(parts, i) ==> Key(parts[i]) in m && m[Key(parts[i])] == Value(parts[i])
  }

  /** Adding one part's entry keeps every last-of-its-key value in place. */
  lemma LastValuesGrow(init: seq<string>, last: string, m: map<string, string>)
    requires '=' in last && LastValuesIn(init, m)
    ensures LastValuesIn(init + [last], m[Key(last) := Value(last)])
  {
    var parts := init + [last];
    forall i | 0 <= i < |parts| && LastOfKey(parts, i)
      ensures Key(parts[i]) in m[Key(last) := Value(last)]
      ensures m[Key(last) := Value(last)][Key(parts[i])] == Value(parts[i])
    {
      if i < |init| {
        assert parts[i] == init[i];
        assert parts[|init|] == last;
        assert forall j :: i < j < |init| ==> init[j] == parts[j];
        assert LastOfKey(init, i);
      }
    }
  }

  /**
   * For a repeated key the LAST part wins: a part whose key does not occur
   * again later gives that key its value.
   */
  lemma {:induction false} FoldLastWins(parts: seq<string>)
    requires Fold(parts).Ok?
    ensures AllEntries(parts)
    ensures LastValuesIn(parts, Fold(parts).value)
  {
    FoldSucceeds(parts);
    if parts != [] {
      var init, last := parts[..|parts| - 1], parts[|parts| - 1];
      FoldStep(parts);
      var m := Fold(init).value;
      assert LastValuesIn(parts, m[Key(last) := Value(last)]) by {
        FoldLastWins(init);
        LastValuesGrow(init, last, m);
        assert init + [last] == parts;
      }
    }
  }

  /** Stripping `"` from a quoted text without quotes inside gives the text. */
  lemma StripQuoted(value: string)
    requires '"' !in value
    ensures Strip(['"'] + value + ['"'], '"') == value
  {
    var quoted := ['"'] + value + ['"'];
    if value == [] {
      assert TrimLeft(quoted, '"') == [];
    } else {
      assert quoted[1..] == value + ['"'];
      assert TrimLeft(value + ['"'], '"') == value + ['"'];
      assert (value + ['"'])[..|value|] == value;
      assert TrimRight(value, '"') == value;
    }
  }

  /** A part made of a key, one `=` and a rest without `=` has that key and rest. */
  lemma PeelEntry(key: string, rest: string)
    requires '=' !in key && '=' !in rest
    ensures Entry(key + ['='] + rest) == Ok((key, Strip(rest, '"')))
  {
    var part := key + ['='] + rest;
    SplitPeel(key, '=', rest);
    SplitWithoutSep(rest, '=');
    SplitLength(part, '=');
    assert part[|key|] == '=';
    assert FirstIndex(part, '=') == |key|;
    assert part[..|key|] == key && part[|key| + 1..] == rest;
  }

  /** A part `key="value"` whose key and unquoted value hold no `=` or `"`. */
  lemma QuotedEntry(key: string, value: string)
    requires '=' !in key && '=' !in value && '"' !in value
    ensures Entry(key + "=\"" + value + "\"") == Ok((key, value))
  {
    var quoted := ['"'] + value + ['"'];
    assert key + "=\"" + value + "\"" == key + ['='] + quoted;
    PeelEntry(key, quoted);
    StripQuoted(value);
  }

  /** Splitting at a separator that the head does not hold peels the head off. */
  lemma SplitPeel(head: string, sep: char, tail: string)
    requires sep !in head
    ensures Split(head + [sep] + tail, sep) == [head] + Split(tail, sep)
  {
    var s := head + [sep] + tail;
    assert s[|head|] == sep;
    assert FirstIndex(s, sep) == |head|;
    SplitAtFirst(s, sep);
    assert s[..|head|] == head && s[|head| + 1..] == tail;
  }

  /** `key="value"` as a registry writes it in a challenge. */
  function QuotedPart(key: string, value: string): string {
    key + "=\"" + value + "\""
  }

  /** Text that can stand inside a quoted challenge value. */
  predicate PlainValue(v: string) {
    '=' !in v && '"' !in v && ',' !in v
  }

  /** The bearer challenge of a registry with a token realm, service and scope. */
  function BearerChallenge(realm: string, service: string, scope: string): string {
    "Bearer " + QuotedPart("realm", realm) + "," + QuotedPart("service", service) + "," + QuotedPart("scope", scope)
  }

  /** A bearer challenge without its scheme word is its three parts joined by commas. */
  lemma BearerAfterScheme(realm: string, service: string, scope: string)
    ensures AfterScheme(BearerChallenge(realm, service, scope)) ==
              QuotedPart("realm", realm) + [','] + (QuotedPart("service", service) + [','] + QuotedPart("scope", scope))
  {
    var rest := QuotedPart("realm", realm) + [','] + (QuotedPart("service", service) + [','] + QuotedPart("scope", scope));
    var h := BearerChallenge(realm, service, scope);
    assert h == "Bearer" + [' '] + rest;
    assert h[6] == ' ';
    assert FirstIndex(h, ' ') == 6;
    assert h[7..] == rest;
  }

  /** The parts of a bearer challenge after the scheme word. */
  lemma BearerChallengeParts(realm: string, service: string, scope: string)
    requires PlainValue(realm) && PlainValue(service) && PlainValue(scope)
    ensures Split(AfterScheme(BearerChallenge(realm, service, scope)), ',') ==
              [QuotedPart("realm", realm), QuotedPart("service", service), QuotedPart("scope", scope)]
  {
    var p1, p2, p3 := QuotedPart("realm", realm), QuotedPart("service", service), QuotedPart("scope", scope);
    BearerAfterScheme(realm, service, scope);
    assert ',' !in p1 && ',' !in p2 && ',' !in p3;
    SplitPeel(p1, ',', p2 + [','] + p3);
    SplitPeel(p2, ',', p3);
    SplitWithoutSep(p3, ',');
  }

  /** Folding one more well-formed part adds its entry. */
  lemma FoldSnoc(parts: seq<string>, key: string, value: string, m: map<string, string>)
    requires parts != [] && Fold(parts[..|parts| - 1]) == Ok(m)
    requires parts[|parts| - 1] == QuotedPart(key, value)
    requires '=' !in key && '=' !in value && '"' !in value
    ensures Fold(parts) == Ok(m[key := value])
  {
    QuotedEntry(key, value);
  }

  /**
   * A bearer challenge such as Docker Hub's
   * (`realm="https://auth.docker.io/token",service="registry.docker.io",scope="repository:ubuntu:pull"`)
   * parses into its three entries, unquoted.
   */
  lemma BearerChallengeParses(realm: string, service: string, scope: string)
    requires PlainValue(realm) && PlainValue(service) && PlainValue(scope)
    ensures AuthParams(BearerChallenge(realm, service, scope)) ==
              Ok(map["realm" := realm, "service" := service, "scope" := scope])
  {
    BearerChallengeParts(realm, service, scope);
    FoldQuotedParts("realm", realm, "service", service, "scope", scope);
  }

  /** Three well-formed quoted parts fold into their three entries, in order. */
  lemma FoldQuotedParts(k1: string, v1: string, k2: string, v2: string, k3: string, v3: string)
    requires '=' !in k1 && '=' !in k2 && '=' !in k3
    requires '=' !in v1 && '"' !in v1 && '=' !in v2 && '"' !in v2 && '=' !in v3 && '"' !in v3
    ensures Fold([QuotedPart(k1, v1), QuotedPart(k2, v2), QuotedPart(k3, v3)]) == Ok(map[k1 := v1, k2 := v2, k3 := v3])
  {
    var p1, p2, p3 := QuotedPart(k1, v1), QuotedPart(k2, v2), QuotedPart(k3, v3);
    var parts := [p1, p2, p3];
    assert parts[..1] == [p1] && parts[..2] == [p1, p2] && [p1, p2][..1] == [p1];
    FoldSnoc([p1], k1, v1, map[]);
    FoldSnoc([p1, p2], k2, v2, map[k1 := v1]);
    FoldSnoc(parts, k3, v3, map[k1 := v1, k2 := v2]);
  }

  /** A header that is only a scheme word has no `key=value` part and fails. */
  lemma SchemeOnlyFails(header: string)
    requires ' ' !in header
    ensures AuthParams(header) == Err(UnpackMismatch(1))
  {
    SplitWithoutSep("", ',');
    SplitWithoutSep("", '=');
    assert [""][..0] == [];
  }

  // ---------------------------------------------------------------------
  // get_image_manifest
  // ---------------------------------------------------------------------

  const DockerHubRegistry: string := "https://registry-1.docker.io"
  const Https: string := "https://"

  /** Where a manifest lives: registry base URL, repository path and tag. */
  datatype ImageLocation = ImageLocation(registry: string, image: string, tag: string)

  /** The image path of a spec: the text before its (only) `:`. */
  function ImagePath(spec: string): string
    requires ':' in spec
  {
    spec[..FirstIndex(spec, ':')]
  }

  /**
   * Where the image path of `spec` points: a path with two `/` names its
   * registry host first; a path with one `/` is a Docker Hub repository;
   * anything else is not a valid spec.
   */
  function Locate(spec: string, path: string, tag: string): (r: Result<ImageLocation>)
    ensures r.Ok? <==> Count(path, '/') in {1, 2}
    ensures r.Err? ==> r.error == InvalidImageSpec(spec)
    ensures r.Ok? ==> r.value.tag == tag && Count(r.value.image, '/') == 1
    ensures r.Ok? && Count(path, '/') == 1 ==> r.value.registry == DockerHubRegistry && r.value.image == path
    ensures r.Ok? && Count(path, '/') == 2 ==>
              && StartsWith(r.value.registry, Https)
              && '/' !in r.value.registry[|Https|..]
              && path == r.value.registry[|Https|..] + "/" + r.value.image
  {
    var slashes := Count(path, '/');
    if slashes == 2 then
      // `image_path.split('/', 1)`: cut at the first `/` only
      var s := FirstIndex(path, '/');
      CountAfterFirst(path, '/');
      var bare, image := path[..s], path[s + 1..];
      assert path == bare + "/" + image;
      assert (Https + bare)[|Https|..] == bare;
      Ok(ImageLocation(Https + bare, image, tag))
    else if slashes == 1 then
      Ok(ImageLocation(DockerHubRegistry, path, tag))
    else
      Err(InvalidImageSpec(spec))
  }

  /**
   * `<registry>/<image>:<tag>` or `<user>/<image>:<tag>` as get_image_manifest
   * splits it: exactly one `:`, and one or two `/` before it.
   */
  function ParseImageSpec(spec: string): (r: Result<ImageLocation>)
    ensures r.Ok? <==> Count(spec, ':') == 1 && Count(ImagePath(spec), '/') in {1, 2}
    ensures Count(spec, ':') != 1 ==> r == Err(UnpackMismatch(Count(spec, ':') + 1))
    ensures Count(spec, ':') == 1 && r.Err? ==> r == Err(InvalidImageSpec(spec))
    ensures r.Ok? ==> ':' !in r.value.tag && Count(r.value.image, '/') == 1
    ensures r.Ok? && Count(ImagePath(spec), '/') == 1 ==>
              r.value.registry == DockerHubRegistry && spec == r.value.image + ":" + r.value.tag
    ensures r.Ok? && Count(ImagePath(spec), '/') == 2 ==>
              && StartsWith(r.value.registry, Https)
              && '/' !in r.value.registry[|Https|..]
              && spec == r.value.registry[|Https|..] + "/" + r.value.image + ":" + r.value.tag
  {
    var halves := Split(spec, ':');
    SplitLength(spec, ':');
    if |halves| != 2 then Err(UnpackMismatch(|halves|))
    else
      SplitOnce(spec, ':');
      assert spec == halves[0] + ":" + halves[1];
      Locate(spec, halves[0], halves[1])
  }

  /** `'{}/v2/{}/manifests/{}'.format(registry, image, tag)` */
  function ManifestUrl(loc: ImageLocation): (url: string)
    ensures StartsWith(url, loc.registry + "/v2/")
  {
    loc.registry + "/v2/" + loc.image + "/manifests/" + loc.tag
  }

  /** An HTTP GET as the model sees it: URL, query parameters, optional bearer token. */
  datatype Request = Request(url: string, params: map<string, string>, bearer: Option<string>)

  /**
   * An HTTP answer: status, JSON body (kept as text), the `Www-Authenticate`
   * header if present, and the `token` field of the body if it has one.
   */
  datatype Response = Response(status: int, body: string, wwwAuthenticate: Option<string>, token: Option<string>)

  /** The requests sent, in order, and what get_image_manifest returned or raised. */
  datatype Lookup = Lookup(requests: seq<Request>, result: Result<Option<string>>)

  /** `Response.raise_for_status()` raises for client and server errors only. */
  predicate RaisesForStatus(status: int) {
    400 <= status < 600
  }

  /** The first, unauthenticated GET of the manifest. */
  function PlainGet(loc: ImageLocation): Request {
    Request(ManifestUrl(loc), map[], None)
  }

  /** The token request to the realm, with the other challenge entries as parameters. */
  function TokenGet(challenge: map<string, string>): Request
    requires "realm" in challenge
  {
    Request(challenge["realm"], challenge - {"realm"}, None)
  }

  /** The manifest GET retried with the bearer token. */
  function BearerGet(loc: ImageLocation, token: string): Request {
    Request(ManifestUrl(loc), map[], Some(token))
  }

  /** What happens after a 401: fetch a token from the realm and ask again. */
  function Challenge(loc: ImageLocation, first: Response, server: Request -> Response): (l: Lookup)
    ensures |l.requests| <= 2
    ensures first.wwwAuthenticate.None? ==> l == Lookup([], Err(WrongShape("Www-Authenticate header missing")))
    ensures first.wwwAuthenticate.Some? && AuthParams(first.wwwAuthenticate.value).Err? ==>
              l == Lookup([], Err(AuthParams(first.wwwAuthenticate.value).error))
    ensures first.wwwAuthenticate.Some? && AuthParams(first.wwwAuthenticate.value).Ok? &&
            "realm" !in AuthParams(first.wwwAuthenticate.value).value ==>
              l == Lookup([], Err(MissingKey("realm")))
    ensures |l.requests| >= 1 <==>
              && first.wwwAuthenticate.Some? && AuthParams(first.wwwAuthenticate.value).Ok?
              && "realm" in AuthParams(first.wwwAuthenticate.value).value
    ensures |l.requests| >= 1 ==>
              var c := AuthParams(first.wwwAuthenticate.value).value;
              l.requests[0] == Request(c["realm"], c - {"realm"}, None)
    ensures |l.requests| >= 1 ==> (|l.requests| == 2 <==> server(l.requests[0]).token.Some?)
    ensures |l.requests| == 1 ==> l.result == Err(MissingKey("token"))
    ensures |l.requests| == 2 ==>
              server(l.requests[0]).token.Some? && l.requests[1] == BearerGet(loc, server(l.requests[0]).token.value)
    ensures |l.requests| < 2 ==> l.result.Err?
    ensures |l.requests| == 2 ==>
              var second := server(l.requests[1]).status;
              l.result == if second == 404 || second == 401 then Ok(None)
                          else if second != 200 && RaisesForStatus(second) then Err(HttpStatus(second))
                          else Ok(Some(server(l.requests[1]).body))
  {
    if first.wwwAuthenticate.None? then Lookup([], Err(WrongShape("Www-Authenticate header missing")))
    else
      match AuthParams(first.wwwAuthenticate.value)
      case Err(e) => Lookup([], Err(e))
      case Ok(challenge) =>
        if "realm" !in challenge then Lookup([], Err(MissingKey("realm")))
        else
          var tokenReq := TokenGet(challenge);
          var auth := server(tokenReq);
          if auth.token.None? then Lookup([tokenReq], Err(MissingKey("token")))
          else
            var retry := BearerGet(loc, auth.token.value);
            var second := server(retry);
            var result :=
              if second.status == 404 || second.status == 401 then Ok(None)
              else if second.status != 200 && RaisesForStatus(second.status) then Err(HttpStatus(second.status))
              else Ok(Some(second.body));
            Lookup([tokenReq, retry], result)
  }

  /**
   * `get_image_manifest(image_spec)`: the manifest's body, None when the
   * registry says the image or tag does not exist, or the error raised.
   */
  function GetImageManifest(spec: string, server: Request -> Response): (l: Lookup)
    ensures ParseImageSpec(spec).Err? ==> l == Lookup([], Err(ParseImageSpec(spec).error))
    ensures ParseImageSpec(spec).Ok? ==>
              var loc := ParseImageSpec(spec).value;
              var first := server(PlainGet(loc)).status;
              && |l.requests| >= 1 && l.requests[0] == PlainGet(loc)
              && (first == 200 ==> l == Lookup([PlainGet(loc)], Ok(Some(server(PlainGet(loc)).body))))
              && (first == 404 ==> l == Lookup([PlainGet(loc)], Ok(None)))
              && (first == 401 ==>
                    var c := Challenge(loc, server(PlainGet(loc)), server);
                    l.requests[1..] == c.requests && l.result == c.result)
              && (first !in {200, 401, 404} ==>
                    l == Lookup([PlainGet(loc)], if RaisesForStatus(first) then Err(HttpStatus(first)) else Ok(None)))
  {
    match ParseImageSpec(spec)
    case Err(e) => Lookup([], Err(e))
    case Ok(loc) =>
      var req := PlainGet(loc);
      var resp := server(req);
      if resp.status == 401 then
        var rest := Challenge(loc, resp, server);
        Lookup([req] + rest.requests, rest.result)
      else if resp.status == 404 then Lookup([req], Ok(None))
      else if resp.status == 200 then Lookup([req], Ok(Some(resp.body)))
      else if RaisesForStatus(resp.status) then Lookup([req], Err(HttpStatus(resp.status)))
      else Lookup([req], Ok(None))
  }

  /**
   * A manifest is reported only after a GET of the manifest URL itself, and
   * every GET of the manifest URL is for this spec's manifest: at most two
   * manifest requests, the second only after a token request.
   */
  lemma ManifestComesFromManifestUrl(spec: string, server: Request -> Response)
    requires ParseImageSpec(spec).Ok?
    ensures var l := GetImageManifest(spec, server);
            var loc := ParseImageSpec(spec).value;
            && |l.requests| in {1, 2, 3}
            && (l.result.Ok? && l.result.value.Some? ==>
                  l.requests[|l.requests| - 1].url == ManifestUrl(loc)
                  && l.result.value.value == server(l.requests[|l.requests| - 1]).body)
  {
    var loc := ParseImageSpec(spec).value;
    var first := server(PlainGet(loc));
    if first.status == 401 {
      ChallengeEndsAtManifest(loc, first, server);
    }
  }

  /** After a 401, a manifest is reported only from the bearer retry of the manifest URL. */
  lemma ChallengeEndsAtManifest(loc: ImageLocation, first: Response, server: Request -> Response)
    ensures var l := Challenge(loc, first, server);
            l.result.Ok? && l.result.value.Some? ==>
              && |l.requests| == 2
              && l.requests[1].url == ManifestUrl(loc)
              && l.result.value.value == server(l.requests[1]).body
  {
  }
}
