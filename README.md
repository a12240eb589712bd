# Tekton hub resolver, modelled in Dafny

This project models the decision logic of Tekton's "hub" remote-resolution
plugin (`pkg/resolution/resolver/hub/resolver.go`). A resolution request is a
list of (name, value) parameters. The resolver turns this list into a map in
which the last write wins. `ValidateParams` checks the map. `Resolve` merges in
installation defaults for `catalog` and `kind`, then fills a four-slot URL
template with catalog, kind, name and version, in that order. It fetches that
URL once and returns the `data.yaml` string of the JSON reply as the resolved
bytes. The resolved resource has nil annotations and a nil source.

Files:

- `wrappers.dfy` (module `Wrappers`): `Option` and `Result`. A nil-or-error Go
  `error` is an `Option<Error>`, and a `(value, error)` pair is a `Result`.
- `hub.dfy` (module `Hub`): the data model, the specification functions
  `Collapse`, `Validation`, `Merge`, `Fill` and `FetchOutcome`, and the class
  `Resolver`. `Resolver` holds the immutable URL template. Its
  `ValidateParams` and `Resolve` are imperative methods proved against those
  functions.

How the model treats what the core does not control:

- The request context is an explicit `Context` value. It holds the
  `enable-hub-resolver` feature flag and the resolver's configuration map.
- `http.Get` together with `io.ReadAll` is the `Get` method of the class
  `HttpClient`. Its result is a transport failure, or a status code with a body
  that was either drained or failed to read. The client's `serve` function says
  how the hub answers a URL. Its ghost field `fetched` records every URL
  requested, in order.
- `json.Unmarshal` into the reply envelope is an oracle
  `decode: seq<byte> -> Unmarshalled`. A well-formed body with no `data.yaml`
  decodes to an envelope with empty `yaml`, as Go's decoder does.
- `Resolve` leaves `fetched` unchanged when the request fails before the
  network call. Otherwise it appends exactly one URL, the filled template. So
  "no fetch happens" and "one fetch" are both part of the contract. A fetch
  here means a call of `HttpClient.Get`; reading the client's `serve` function
  directly is not recorded.
- The result of `Resolve` is fully determined by its inputs, the client's
  `serve` function and the decoder. So resolving the same request twice against the same hub reply gives
  the same bytes.

A well-formed body without `data.yaml` gives empty content, because
`json.Unmarshal` leaves the field empty (resolver.go:147-154).

## Model

| member | source | states |
|---|---|---|
| Hub.Collapse | pkg/resolution/resolver/hub/resolver.go:71-74 | the keys of the parameter map are exactly the names that occur in the parameter list |
| Hub.CollapseLastWriteWins | pkg/resolution/resolver/hub/resolver.go:105-108 | the map value for a name is the value of the last parameter carrying that name |
| Hub.CollectParams | pkg/resolution/resolver/hub/resolver.go:72-74 | the loop that builds `paramsMap` produces the last-write-wins map of the parameter list |
| Hub.Validation | pkg/resolution/resolver/hub/resolver.go:68-86 | each outcome as an if-and-only-if. Disabled exactly when the flag is off. Missing name exactly when enabled and name is absent. Missing version only when name is present. Invalid kind only when name and version are present and a given kind is not task/pipeline. Nil otherwise. The installation configuration is never an input |
| Hub.Resolver.ValidateParams | pkg/resolution/resolver/hub/resolver.go:67-87 | returns the error that `Validation` gives for the flag and the collapsed parameters; when disabled it returns before reading any parameter |
| Hub.Merge | pkg/resolution/resolver/hub/resolver.go:99-130 | each outcome as an if-and-only-if. Disabled exactly when the flag is off. A missing default catalog exactly when enabled and neither the request nor the configuration has a catalog, whatever the kind. A missing default kind exactly when the catalog is available and neither has a kind. An invalid kind exactly when both are available and the effective kind, including a configured default, is not task or pipeline. Success otherwise. The request value wins over the default. Name and version are not re-checked and become "" when absent |
| Hub.ValidatedExplicitRequestResolves | pkg/resolution/resolver/hub/resolver.go:75-131 | a request that passes validation and names its own catalog and kind resolves to exactly those four request values |
| Hub.ValidationAndResolutionDiffer | pkg/resolution/resolver/hub/resolver.go:75-131 | `Resolve` accepts a request without name and version when defaults exist, and `ValidateParams` accepts one that `Resolve` rejects for lack of a default catalog |
| Hub.FillSlots | pkg/resolution/resolver/hub/resolver.go:131 | the URL read back at the four slot positions gives catalog, kind, name and version in that order, with the template text between them unchanged |
| Hub.GitCloneExample | pkg/resolution/resolver/hub/resolver.go:105-131 | name git-clone, version 0.9, kind task and default catalog Tekton validate, merge to (Tekton, task, git-clone, 0.9) and fill the template in that order |
| Hub.FetchOutcome | pkg/resolution/resolver/hub/resolver.go:133-178 | a transport error, a non-200 status (not-found naming the URL, independent of body and decoder), a read failure and a decode failure each give their own error. Success iff status 200, body drained and decoded. Then `Data()` is the decoded `data.yaml` bytes and `Annotations()` and `Source()` are nil |
| Hub.Message | pkg/resolution/resolver/hub/resolver.go:69-150 | the missing-parameter text names the parameter, the not-found text contains the requested URL, and each wrapped error's text ends with its cause's text |
| Hub.IsDisabled | pkg/resolution/resolver/hub/resolver.go:180-187 | disabled exactly when the enable-hub-resolver flag is not true; nothing else in the context is read |
| Hub.Lookup | pkg/resolution/resolver/hub/resolver.go:131 | reading a map gives the stored value for a present key and the empty string for an absent one |
| Hub.Fill | pkg/resolution/resolver/hub/resolver.go:131 | the URL is exactly as long as the template text plus the four values: nothing is escaped or added |
| Hub.HttpClient.Get | pkg/resolution/resolver/hub/resolver.go:133-143 | one request: the reply is the hub's answer for the URL, and the URL is appended to the record of fetched URLs |
| Hub.ResolvedHubResource.Data | pkg/resolution/resolver/hub/resolver.go:164-167 | the content stored in the resource, unchanged |
| Hub.ResolvedHubResource.Annotations | pkg/resolution/resolver/hub/resolver.go:169-172 | always nil |
| Hub.ResolvedHubResource.Source | pkg/resolution/resolver/hub/resolver.go:174-178 | always nil: no URL, digest or entry point is kept |
| Hub.Resolver.Resolve | pkg/resolution/resolver/hub/resolver.go:98-155 | on a `Merge` failure it returns that error and the client's record of fetched URLs is unchanged; otherwise exactly the filled URL is appended to that record and the result is `FetchOutcome` of the hub's answer |
| Hub.Resolver.constructor | pkg/resolution/resolver/hub/resolver.go:39-42 | the resolver keeps the URL template it is given |
| Hub.Resolver.GetName | pkg/resolution/resolver/hub/resolver.go:50-52 | the resolver's fixed name is "Hub" |
| Hub.Resolver.GetConfigName | pkg/resolution/resolver/hub/resolver.go:55-57 | the fixed configuration-map name is "hubresolver-config" |
| Hub.Resolver.GetSelector | pkg/resolution/resolver/hub/resolver.go:60-64 | the selector has the single key resolution.tekton.dev/type, mapped to "hub" |

## Left out

- Network and stream I/O: `http.Get`, `io.ReadAll` and the deferred `resp.Body.Close` are replaced by the class `HttpClient`. Its `serve` function gives the hub's answer for a URL, and its `Get` method makes one request. Closing the body has no observable effect on the result.
- `json.Unmarshal` internals: the decoder is the `decode` oracle. The model only fixes how its outcome is mapped.
- `fmt.Sprintf` in general: the template is literal text around exactly four `%s` slots. Other verbs and `%!(EXTRA …)` output are not modelled. No escaping happens, in the model or in the code.
- Context plumbing (`resolverconfig.FromContextOrDefaults`, `framework.GetResolverConfigFromContext`): replaced by the explicit `Context` argument.
- Array and object `ParamValue` variants: only `StringVal` is read, so a parameter value is a string.
- `Initialize`: a no-op that returns nil.
- The parameter and configuration key constants are declared in files that are not part of this model. The parameter names are "name", "version", "kind" and "catalog". The configuration keys are taken as "default-catalog" and "default-kind". The proofs rely only on the four parameter names being distinct, and on the two configuration keys being distinct.
- The `context.Context` arguments of `GetName`, `GetConfigName` and `GetSelector` are unused in the code and are dropped.
- Concurrency: the resolver writes no shared state, so concurrent calls are not modelled.
