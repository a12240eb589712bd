/** The Tekton "hub" remote-resolution plugin
    (pkg/resolution/resolver/hub/resolver.go).

    A resolution request is a list of (name, value) parameters. The
    resolver validates them, merges in installation defaults for the
    catalog and the kind, fills a URL template with catalog, kind, name and
    version, fetches that URL once and returns the `data.yaml` string of
    the JSON reply as the resolved bytes.

    The ambient request context (feature flags and the resolver's
    configuration map) is an explicit `Context` value. The HTTP round trip
    is an `HttpClient` whose ghost record of fetched URLs makes "no network
    call" observable; the JSON decoder is an oracle passed in as a function. */
module Hub {
  import opened Wrappers

  newtype byte = x: int | 0 <= x < 256

  // Request parameter names (declared beside the resolver in the package).
  const ParamName: string := "name"
  const ParamVersion: string := "version"
  const ParamKind: string := "kind"
  const ParamCatalog: string := "catalog"

  // Keys of the resolver's installation configuration map.
  const ConfigCatalog: string := "default-catalog"
  const ConfigKind: string := "default-kind"

  /** The label key that routes a resolution request to a resolver. */
  const LabelKeyResolverType: string := "resolution.tekton.dev/type"
  /** Value of the resolution.tekton.dev/type label for this resolver. */
  const LabelValueHubResolverType: string := "hub"

  const DisabledError: string :=
    "cannot handle resolution request, enable-hub-resolver feature flag not true"

  const StatusOK: int := 200

  /** One request parameter; only the string form of a value is used. */
  datatype Param = Param(name: string, value: string)

  /** What the resolver reads from the request context. */
  datatype Context = Context(enableHubResolver: bool, resolverConfig: map<string, string>)

  /** Every error the resolver returns; `Message` gives its text. */
  datatype Error =
    | Disabled
    | MissingParam(param: string)
    | InvalidKind
    | MissingDefaultCatalog
    | MissingDefaultKind
    | RequestFailed(cause: string)
    | NotFound(url: string)
    | ReadFailed(cause: string)
    | UnmarshalFailed(cause: string)

  const NotFoundPrefix: string := "requested resource '"
  const MissingParamPrefix: string := "must include "

  /** The error text. Wrapped errors end with their cause's text, the
      missing-parameter error names the parameter, and the not-found error
      names the URL. */
  function Message(e: Error): (msg: string)
    ensures e.MissingParam? ==>
      |MissingParamPrefix| + |e.param| <= |msg|
      && msg[|MissingParamPrefix|..|MissingParamPrefix| + |e.param|] == e.param
    ensures e.NotFound? ==>
      |NotFoundPrefix| + |e.url| <= |msg| && msg[|NotFoundPrefix|..|NotFoundPrefix| + |e.url|] == e.url
    ensures (e.RequestFailed? || e.ReadFailed? || e.UnmarshalFailed?) ==>
      |e.cause| <= |msg| && msg[|msg| - |e.cause|..] == e.cause
  {
    match e
    case Disabled => DisabledError
    case MissingParam(p) => MissingParamPrefix + p + " param"
    case InvalidKind => "kind param must be task or pipeline"
    case MissingDefaultCatalog =>
      "default catalog was not set during installation of the hub resolver"
    case MissingDefaultKind =>
      "default resource Kind was not set during installation of the hub resolver"
    case RequestFailed(cause) => "error requesting resource from hub: " + cause
    case NotFound(url) => NotFoundPrefix + url + "' not found on hub"
    case ReadFailed(cause) => "error reading response body: " + cause
    case UnmarshalFailed(cause) => "error unmarshalling json response: " + cause
  }

  /* ---------------------------------------------------------------- */
  /* Collapsing the parameter list into a map                         */
  /* ---------------------------------------------------------------- */

  /** The map a left-to-right loop builds by writing each parameter. */
  function Collapse(ps: seq<Param>): (m: map<string, string>)
    ensures m.Keys == set i | 0 <= i < |ps| :: ps[i].name
  {
    if ps == [] then map[]
    else
      var init := ps[..|ps| - 1];
      var m0 := Collapse(init);
      assert forall i :: 0 <= i < |init| ==> init[i] == ps[i];
      m0[ps[|ps| - 1].name := ps[|ps| - 1].value]
  }

  /** `i` is the position of the last parameter called `k`. */
  ghost predicate IsLastWith(ps: seq<Param>, k: string, i: int) {
    && 0 <= i < |ps|
    && ps[i].name == k
    && forall j :: i < j < |ps| ==> ps[j].name != k
  }

  /** Last write wins: the collapsed value of a name is the value of the
      last parameter carrying that name. */
  lemma {:induction false} CollapseLastWriteWins(ps: seq<Param>, k: string, i: int)
    requires IsLastWith(ps, k, i)
    ensures k in Collapse(ps) && Collapse(ps)[k] == ps[i].value
  {
    var n := |ps| - 1;
    if i < n {
      var init := ps[..n];
      assert IsLastWith(init, k, i);
      CollapseLastWriteWins(init, k, i);
      assert ps[n].name != k;
    }
  }

  /** The loop that builds `paramsMap` in both entry points. */
  method CollectParams(ps: seq<Param>) returns (m: map<string, string>)
    ensures m == Collapse(ps)
  {
    m := map[];
    for i := 0 to |ps|
      invariant m == Collapse(ps[..i])
    {
      assert ps[..i + 1][..i] == ps[..i];
      m := m[ps[i].name := ps[i].value];
    }
    assert ps[..|ps|] == ps;
  }

  /** Go's `m[k]` on a map of strings: the empty string when absent. */
  function Lookup(m: map<string, string>, k: string): (v: string)
    ensures k in m ==> v == m[k]
    ensures k !in m ==> v == ""
  {
    if k in m then m[k] else ""
  }

  predicate IsValidKind(kind: string) {
    kind == "task" || kind == "pipeline"
  }

  /** The gate both entry points check first; it reads only the flag. */
  function IsDisabled(ctx: Context): (disabled: bool)
    ensures disabled <==> !ctx.enableHubResolver
  {
    !ctx.enableHubResolver
  }

  /* ---------------------------------------------------------------- */
  /* Validation                                                       */
  /* ---------------------------------------------------------------- */

  /** What `ValidateParams` returns for the collapsed parameters `m`. It
      sees only the feature flag, never the installation configuration. */
  function Validation(disabled: bool, m: map<string, string>): (err: Option<Error>)
    ensures err == Some(Disabled) <==> disabled
    ensures err == Some(MissingParam(ParamName)) <==> !disabled && ParamName !in m
    ensures err == Some(MissingParam(ParamVersion)) <==>
      !disabled && ParamName in m && ParamVersion !in m
    ensures err == Some(InvalidKind) <==>
      !disabled && ParamName in m && ParamVersion in m
      && ParamKind in m && !IsValidKind(m[ParamKind])
    ensures err == None <==>
      !disabled && ParamName in m && ParamVersion in m
      && (ParamKind in m ==> IsValidKind(m[ParamKind]))
  {
    if disabled then Some(Disabled)
    else if ParamName !in m then Some(MissingParam(ParamName))
    else if ParamVersion !in m then Some(MissingParam(ParamVersion))
    else if ParamKind in m && !IsValidKind(m[ParamKind]) then Some(InvalidKind)
    else None
  }

  /* ---------------------------------------------------------------- */
  /* Default merging and URL construction                             */
  /* ---------------------------------------------------------------- */

  /** The four values substituted into the URL template. */
  datatype HubRequest = HubRequest(catalog: string, kind: string, name: string, version: string)

  /** The part of `Resolve` before the fetch: the feature gate, the
      catalog default, the kind default and the kind check, in that order. */
  function Merge(ctx: Context, m: map<string, string>): (r: Result<HubRequest, Error>)
    ensures r == Failure(Disabled) <==> IsDisabled(ctx)
    ensures r == Failure(MissingDefaultCatalog) <==>
      !IsDisabled(ctx) && ParamCatalog !in m && ConfigCatalog !in ctx.resolverConfig
    ensures r == Failure(MissingDefaultKind) <==>
      && !IsDisabled(ctx)
      && (ParamCatalog in m || ConfigCatalog in ctx.resolverConfig)
      && ParamKind !in m && ConfigKind !in ctx.resolverConfig
    ensures r == Failure(InvalidKind) <==>
      && !IsDisabled(ctx)
      && (ParamCatalog in m || ConfigCatalog in ctx.resolverConfig)
      && (ParamKind in m || ConfigKind in ctx.resolverConfig)
      && !IsValidKind(if ParamKind in m then m[ParamKind] else ctx.resolverConfig[ConfigKind])
    ensures r.Success? <==>
      && !IsDisabled(ctx)
      && (ParamCatalog in m || ConfigCatalog in ctx.resolverConfig)
      && (ParamKind in m || ConfigKind in ctx.resolverConfig)
      && IsValidKind(if ParamKind in m then m[ParamKind] else ctx.resolverConfig[ConfigKind])
    ensures r.Success? ==>
      && r.value.catalog ==
         (if ParamCatalog in m then m[ParamCatalog] else ctx.resolverConfig[ConfigCatalog])
      && r.value.kind ==
         (if ParamKind in m then m[ParamKind] else ctx.resolverConfig[ConfigKind])
      && IsValidKind(r.value.kind)
      && r.value.name == Lookup(m, ParamName)
      && r.value.version == Lookup(m, ParamVersion)
  {
    var conf := ctx.resolverConfig;
    if IsDisabled(ctx) then Failure(Disabled)
    else if ParamCatalog !in m && ConfigCatalog !in conf then Failure(MissingDefaultCatalog)
    else if ParamKind !in m && ConfigKind !in conf then Failure(MissingDefaultKind)
    else
      var catalog := if ParamCatalog in m then m[ParamCatalog] else conf[ConfigCatalog];
      var kind := if ParamKind in m then m[ParamKind] else conf[ConfigKind];
      if !IsValidKind(kind) then Failure(InvalidKind)
      else Success(HubRequest(catalog, kind, Lookup(m, ParamName), Lookup(m, ParamVersion)))
  }

  /** Validation and resolution agree on a request that spells out catalog
      and kind itself: the installation defaults play no part. */
  lemma ValidatedExplicitRequestResolves(ctx: Context, m: map<string, string>)
    requires Validation(IsDisabled(ctx), m) == None
    requires ParamCatalog in m && ParamKind in m
    ensures Merge(ctx, m) == Success(HubRequest(m[ParamCatalog], m[ParamKind], m[ParamName], m[ParamVersion]))
  {
  }

  /** The two entry points check different things. `Resolve` does not
      re-check name and version (absent ones become empty strings), and
      `ValidateParams` does not require a catalog or kind default. */
  lemma ValidationAndResolutionDiffer()
    ensures var ctx := Context(true, map[ConfigCatalog := "tekton", ConfigKind := "task"]);
      && Validation(IsDisabled(ctx), Collapse([])) == Some(MissingParam(ParamName))
      && Merge(ctx, Collapse([])) == Success(HubRequest("tekton", "task", "", ""))
    ensures var ps := [Param(ParamName, "git-clone"), Param(ParamVersion, "0.9")];
      var ctx := Context(true, map[]);
      && Validation(IsDisabled(ctx), Collapse(ps)) == None
      && Merge(ctx, Collapse(ps)) == Failure(MissingDefaultCatalog)
  {
  }

  /** A format string with four `%s` verbs, as the literal text around them. */
  datatype UrlTemplate = UrlTemplate(
    prefix: string, afterCatalog: string, afterKind: string, afterName: string, suffix: string)

  /** `fmt.Sprintf(template, catalog, kind, name, version)`. */
  function Fill(t: UrlTemplate, q: HubRequest): (url: string)
    ensures |url| == |t.prefix| + |q.catalog| + |t.afterCatalog| + |q.kind| + |t.afterKind|
                     + |q.name| + |t.afterName| + |q.version| + |t.suffix|
  {
    t.prefix + q.catalog + t.afterCatalog + q.kind + t.afterKind
      + q.name + t.afterName + q.version + t.suffix
  }

  /** Reading the filled URL back at the four slot positions gives catalog,
      kind, name and version, in that order, with the template text between
      them untouched: the substitution is positional and unescaped. */
  lemma FillSlots(t: UrlTemplate, q: HubRequest)
    ensures var u := Fill(t, q);
      // where catalog, kind, name and version start
      var c := |t.prefix|;
      var k := c + |q.catalog| + |t.afterCatalog|;
      var n := k + |q.kind| + |t.afterKind|;
      var v := n + |q.name| + |t.afterName|;
      && |u| == v + |q.version| + |t.suffix|
      && u[..c] == t.prefix
      && u[c..c + |q.catalog|] == q.catalog
      && u[c + |q.catalog|..k] == t.afterCatalog
      && u[k..k + |q.kind|] == q.kind
      && u[k + |q.kind|..n] == t.afterKind
      && u[n..n + |q.name|] == q.name
      && u[n + |q.name|..v] == t.afterName
      && u[v..v + |q.version|] == q.version
      && u[v + |q.version|..] == t.suffix
  {
    var u := Fill(t, q);
    var a1 := t.prefix + q.catalog;
    var a2 := a1 + t.afterCatalog;
    var a3 := a2 + q.kind;
    var a4 := a3 + t.afterKind;
    var a5 := a4 + q.name;
    var a6 := a5 + t.afterName;
    var a7 := a6 + q.version;
    assert u == a7 + t.suffix;
    PieceAt(u, a7, t.suffix);
    assert u[|a7|..] == t.suffix;
    PieceAt(u, a6, q.version);
    PieceAt(u, a5, t.afterName);
    PieceAt(u, a4, q.name);
    PieceAt(u, a3, t.afterKind);
    PieceAt(u, a2, q.kind);
    PieceAt(u, a1, t.afterCatalog);
    PieceAt(u, t.prefix, q.catalog);
  }

  /** If `u` starts with `a + piece`, then `piece` sits in `u` right after `a`. */
  lemma PieceAt(u: string, a: string, piece: string)
    requires |a| + |piece| <= |u| && u[..|a| + |piece|] == a + piece
    ensures u[..|a|] == a && u[|a|..|a| + |piece|] == piece
  {
    assert (a + piece)[..|a|] == a;
    assert (a + piece)[|a|..] == piece;
    assert u[..|a|] == u[..|a| + |piece|][..|a|];
    assert u[|a|..|a| + |piece|] == u[..|a| + |piece|][|a|..];
  }

  /** Name git-clone, version 0.9, kind task and an installation default
      catalog Tekton fill the template with Tekton, task, git-clone, 0.9. */
  lemma GitCloneExample(t: UrlTemplate)
    ensures var ps := [Param(ParamName, "git-clone"), Param(ParamVersion, "0.9"), Param(ParamKind, "task")];
      var ctx := Context(true, map[ConfigCatalog := "Tekton"]);
      && Validation(IsDisabled(ctx), Collapse(ps)) == None
      && Merge(ctx, Collapse(ps)) == Success(HubRequest("Tekton", "task", "git-clone", "0.9"))
      && Fill(t, Merge(ctx, Collapse(ps)).value)
         == t.prefix + "Tekton" + t.afterCatalog + "task" + t.afterKind
            + "git-clone" + t.afterName + "0.9" + t.suffix
  {
    var ps := [Param(ParamName, "git-clone"), Param(ParamVersion, "0.9"), Param(ParamKind, "task")];
    CollapseLastWriteWins(ps, ParamName, 0);
    CollapseLastWriteWins(ps, ParamVersion, 1);
    CollapseLastWriteWins(ps, ParamKind, 2);
    assert ParamCatalog !in Collapse(ps);
  }

  /* ---------------------------------------------------------------- */
  /* Fetching and decoding                                            */
  /* ---------------------------------------------------------------- */

  /** The outcome of draining a response body. */
  datatype BodyRead = ReadFailure(cause: string) | Drained(bytes: seq<byte>)

  /** The outcome of `http.Get`. */
  datatype HttpResult = TransportFailure(cause: string) | Response(statusCode: int, body: BodyRead)

  /** The reply envelope `{"data": {"yaml": ...}}`; a Go string is its bytes. */
  datatype DataResponse = DataResponse(yaml: seq<byte>)
  datatype HubResponse = HubResponse(data: DataResponse)

  /** The outcome of `json.Unmarshal` into a `HubResponse`. A well-formed
      body without `data.yaml` decodes to an envelope with empty `yaml`. */
  datatype Unmarshalled = UnmarshalFailure(cause: string) | Unmarshalled(envelope: HubResponse)

  datatype ConfigSource = ConfigSource(uri: string, digest: map<string, string>, entryPoint: string)

  /** What a successful resolution returns. */
  datatype ResolvedHubResource = ResolvedHubResource(content: seq<byte>) {
    /** The bytes stored at construction, handed back unchanged. */
    function Data(): (data: seq<byte>)
      ensures data == content
    {
      content
    }

    /** A nil map. */
    function Annotations(): (annotations: Option<map<string, string>>)
      ensures annotations.None?
    {
      None
    }

    /** A nil source: no URL, digest or entry point is recorded. */
    function Source(): (source: Option<ConfigSource>)
      ensures source.None?
    {
      None
    }
  }

  /** How `Resolve` turns the reply to its one request for `url` into a
      result. A non-200 status is a not-found error naming the URL, decided
      before the body is read or decoded. */
  function FetchOutcome(url: string, resp: HttpResult, decode: seq<byte> -> Unmarshalled)
    : (r: Result<ResolvedHubResource, Error>)
    ensures resp.TransportFailure? ==> r == Failure(RequestFailed(resp.cause))
    ensures resp.Response? && resp.statusCode != StatusOK ==> r == Failure(NotFound(url))
    ensures resp.Response? && resp.statusCode == StatusOK && resp.body.ReadFailure? ==>
      r == Failure(ReadFailed(resp.body.cause))
    ensures (resp.Response? && resp.statusCode == StatusOK && resp.body.Drained?
             && decode(resp.body.bytes).UnmarshalFailure?) ==>
      r == Failure(UnmarshalFailed(decode(resp.body.bytes).cause))
    ensures r.Success? <==>
      resp.Response? && resp.statusCode == StatusOK && resp.body.Drained?
      && decode(resp.body.bytes).Unmarshalled?
    ensures r.Success? ==>
      && r.value.Data() == decode(resp.body.bytes).envelope.data.yaml
      && r.value.Annotations() == None
      && r.value.Source() == None
  {
    match resp
    case TransportFailure(cause) => Failure(RequestFailed(cause))
    case Response(code, body) =>
      if code != StatusOK then Failure(NotFound(url))
      else match body
        case ReadFailure(cause) => Failure(ReadFailed(cause))
        case Drained(bytes) =>
          match decode(bytes)
          case UnmarshalFailure(cause) => Failure(UnmarshalFailed(cause))
          case Unmarshalled(hr) => Success(ResolvedHubResource(hr.data.yaml))
  }

  /** The HTTP transport: `Get` is one `http.Get` followed by draining
      the body. `serve` is how the hub answers a URL; `fetched` records,
      in order, every URL requested through this client. */
  class HttpClient {
    const serve: string -> HttpResult
    ghost var fetched: seq<string>

    constructor (serve: string -> HttpResult)
      ensures this.serve == serve && fetched == []
    {
      this.serve := serve;
      fetched := [];
    }

    method Get(url: string) returns (resp: HttpResult)
      modifies this
      ensures resp == serve(url)
      ensures fetched == old(fetched) + [url]
    {
      resp := serve(url);
      fetched := fetched + [url];
    }
  }

  /* ---------------------------------------------------------------- */
  /* The resolver                                                     */
  /* ---------------------------------------------------------------- */

  class Resolver {
    /** The URL template; set at construction, never changed. */
    const hubURL: UrlTemplate

    constructor (hubURL: UrlTemplate)
      ensures this.hubURL == hubURL
    {
      this.hubURL := hubURL;
    }

    function GetName(): (name: string)
      ensures name == "Hub"
    {
      "Hub"
    }

    function GetConfigName(): (name: string)
      ensures name == "hubresolver-config"
    {
      "hubresolver-config"
    }

    /** A single-entry selector keyed by the resolver-type label. */
    function GetSelector(): (selector: map<string, string>)
      ensures selector.Keys == {LabelKeyResolverType}
      ensures selector[LabelKeyResolverType] == LabelValueHubResolverType
    {
      map[LabelKeyResolverType := LabelValueHubResolverType]
    }

    method ValidateParams(ctx: Context, params: seq<Param>) returns (err: Option<Error>)
      ensures err == Validation(IsDisabled(ctx), Collapse(params))
    {
      if IsDisabled(ctx) {
        return Some(Disabled);
      }
      var paramsMap := CollectParams(params);
      if ParamName !in paramsMap {
        return Some(MissingParam(ParamName));
      }
      if ParamVersion !in paramsMap {
        return Some(MissingParam(ParamVersion));
      }
      if ParamKind in paramsMap {
        var kind := paramsMap[ParamKind];
        if kind != "task" && kind != "pipeline" {
          return Some(InvalidKind);
        }
      }
      return None;
    }

    /** Resolves `params`, fetching through `client` and decoding through
        `decode`. A request that fails before the fetch leaves the client
        untouched; otherwise exactly one URL, the filled template, is
        requested. */
    method Resolve(ctx: Context, params: seq<Param>,
                   client: HttpClient, decode: seq<byte> -> Unmarshalled)
      returns (r: Result<ResolvedHubResource, Error>)
      modifies client
      ensures match Merge(ctx, Collapse(params))
        case Failure(e) => r == Failure(e) && client.fetched == old(client.fetched)
        case Success(q) =>
          && client.fetched == old(client.fetched) + [Fill(hubURL, q)]
          && r == FetchOutcome(Fill(hubURL, q), client.serve(Fill(hubURL, q)), decode)
    {
      if IsDisabled(ctx) {
        return Failure(Disabled);
      }
      var conf := ctx.resolverConfig;
      var paramsMap := CollectParams(params);

      if ParamCatalog !in paramsMap {
        if ConfigCatalog in conf {
          paramsMap := paramsMap[ParamCatalog := conf[ConfigCatalog]];
        } else {
          return Failure(MissingDefaultCatalog);
        }
      }

      var kind: string;
      if ParamKind in paramsMap {
        kind := paramsMap[ParamKind];
      } else if ConfigKind in conf {
        kind := conf[ConfigKind];
      } else {
        return Failure(MissingDefaultKind);
      }
      if kind != "task" && kind != "pipeline" {
        return Failure(InvalidKind);
      }

      paramsMap := paramsMap[ParamKind := kind];
      var url := Fill(hubURL, HubRequest(Lookup(paramsMap, ParamCatalog), Lookup(paramsMap, ParamKind),
                                         Lookup(paramsMap, ParamName), Lookup(paramsMap, ParamVersion)));
      var resp := client.Get(url);
      if resp.TransportFailure? {
        return Failure(RequestFailed(resp.cause));
      }
      if resp.statusCode != StatusOK {
        return Failure(NotFound(url));
      }
      if resp.body.ReadFailure? {
        return Failure(ReadFailed(resp.body.cause));
      }
      var hr := decode(resp.body.bytes);
      if hr.UnmarshalFailure? {
        return Failure(UnmarshalFailed(hr.cause));
      }
      r := Success(ResolvedHubResource(hr.envelope.data.yaml));
    }
  }
}
