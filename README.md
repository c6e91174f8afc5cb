# Routing resolution of the NullServe origin service, in Dafny

This project models how the multi-tenant static host turns a request into a
response. A request is a host name and a path. The host names a deployment,
the deployment's routing configuration decides which stored object answers
the path, and the matched rule decides the status and extra headers. The
model covers five parts:

- **Host resolution.** Two versions are modelled:
  - `StaticHost.HostToDeploymentId` trims the suffix from the host.
  - `Service.HostToDeploymentId` reads `<id>.sites.<suffix>` as a direct
    reference and `<alias>.site.<suffix>` as an alias. It resolves an alias
    with one DynamoDB read keyed `Site#<alias>`.
- **Configuration fetch.** `DeploymentConfig.GetDeploymentConfig` covers
  both packages. A missing document, or a store error that is not an AWS
  error, gives the default configuration: one filesystem rule and no
  manifest. Any other AWS error fails, and so does a document that does not
  decode. A decoded document is never validated.
- **Rule matching and validation** (`RouteConfig`). Rules are tried in list
  order. A filesystem rule serves a path in the manifest as it is. A pattern
  rule serves its rewritten path when that path is in the manifest;
  otherwise the search goes on. When a pattern matches but the rule has no
  destination, the source dereferences a nil pointer. The model gives that
  panic its own outcome, `DestinationPanic`. The validators are total
  boolean checks.
- **Manifest encoding** (`ConfigCodec`). Covers the manifest list ↔ map
  conversion and the decoding of rules and of the configuration document.
- **Response head** (`Router.RouteAndRespond`). The five base headers are
  added first. Then each header directive of the matched rule is applied in
  order:
  - with `overwrite` true: `Set`, then `Add`;
  - otherwise: `Add` only.

  The status is written last.

External collaborators are parameters (module `External`):
- S3's GetObject and DynamoDB's GetItem are functions from a request to
  its outcome.
- `path.Join` and `path.Clean` are uninterpreted functions.
- Go's regexp is an uninterpreted `RegexEngine`: compilation, matching and
  replacement.
- The JSON decoder on the fetch path is a function. It receives the default
  configuration, because the source decodes into it.

The response writer is a class, `Http.Response`. Its header multimap changes
in place. The status is written once, and `sentHeader` records the headers
as they were at that moment.

Where the code and the design description disagree, the model follows the
code:
- An overwriting directive leaves two copies of its value (`Set` then
  `Add`), not one.
- A store error that is not an AWS error gives the default configuration,
  not a fetch error.
- `route.validate` does not check header directives.
- Configurations are not validated when fetched.
- The default configuration has an empty manifest, so it matches nothing. A
  deployment without a document answers every request with 502
  (`Service.MissingConfigAnswersBadGateway`).
- The manifest is a `map<string, bool>` whose key presence alone counts,
  as `_, ok := c.Manifest[path]` does.
- A nil rule list and an empty one behave alike and are both `[]`.

## Model

| member | source | states |
|---|---|---|
| `RouteConfig.MatchRoute` | static_host/config.go:38-72 | the loop with early returns computes `Match`: the first rule, in list order, that stops the search decides the outcome |
| `RouteConfig.MatchAtFirstStop` | static_host/config.go:38-70 | when every earlier rule lets the search go on, the first rule that yields or panics decides the result; later rules are never consulted |
| `RouteConfig.NoMatchIffAllContinue` | static_host/config.go:39-71 | the result is errNoMatchedRoute exactly when every rule lets the search go on |
| `RouteConfig.LaterRoutesIgnored` | static_host/config.go:38-70 | appending rules after a decided outcome does not change it |
| `RouteConfig.PassingRoutesSkipped` | static_host/config.go:39-70 | rules that all let the search go on can be dropped from the front without changing the result |
| `RouteConfig.MatchedDestinationInManifest` | static_host/config.go:42-66 | every returned action's destination is a key of the manifest |
| `RouteConfig.FilesystemRouteServesPath` | static_host/config.go:41-48 | a first filesystem rule serves a manifest path as `{200, [], path}` |
| `RouteConfig.PatternRouteYield` | static_host/config.go:50-66 | outside the filesystem branch, a rule yields iff its pattern matches and the rewritten path is in the manifest; the action is that path, the rule's status or 200, the rule's headers or none |
| `RouteConfig.PatternMissFallsThrough` | static_host/config.go:53-69 | a matching pattern whose rewritten path is not in the manifest passes on to the next rule |
| `RouteConfig.BothBranchesOfOneRoute` | static_host/config.go:41-66 | one rule can try the filesystem branch and then its pattern, yielding the rewritten path |
| `RouteConfig.Validate` | static_host/config.go:74-86 | the loop with its break is true iff every rule validates, so it is true for no rules, and when false an invalid rule exists |
| `RouteConfig.ValidRouteShapes` | static_host/config.go:167-181 | route.validate holds iff the filesystem shape or the pattern shape holds, never both, and headers play no part |
| `RouteConfig.ValidHeaderIgnoresOverwrite` | static_host/config.go:163-165 | header.validate holds iff key and value are both non-empty, whatever the overwrite flag |
| `RouteConfig.ValidRouteStep` | static_host/config.go:50-62 | a valid rule never reaches the unchecked destination dereference and yields statuses in [200, 499] |
| `RouteConfig.ValidConfigMatch` | static_host/config.go:74-86 | under a configuration that validates, matching never panics and every action's status is in [200, 499] |
| `ConfigCodec.UnmarshalManifest` | static_host/config.go:130-134 | the manifest list becomes a map whose keys are exactly the listed strings, all mapped to true |
| `ConfigCodec.MarshalManifest` | static_host/config.go:90-93 | the emitted list holds every manifest key exactly once, in no fixed order |
| `ConfigCodec.ManifestRoundTrip` | static_host/config.go:88-134 | reading back a listed manifest whose values are all true gives the same map |
| `ConfigCodec.DecodeRouteAsWritten` | static_host/config.go:146-159 | a rule decodes iff its source text, or the empty text when absent, compiles; the decoded rule always carries a pattern |
| `ConfigCodec.DecodeRoute` | static_host/config.go:138-161 | corrected decoding: a rule without a source has no pattern; a present source must compile |
| `ConfigCodec.DecodeAll` | static_host/config.go:117 | a rule list decodes iff every rule does, keeping order and length |
| `ConfigCodec.AliasPass` | static_host/config.go:116-119 | the first pass fails for a manifest list and never yields a manifest |
| `ConfigCodec.UnmarshalConfigAsWritten` | static_host/config.go:114-136 | as written, a document that lists a manifest is rejected, and a decoded configuration has an empty manifest |
| `ConfigCodec.UnmarshalConfig` | static_host/config.go:114-136 | corrected: decodes iff every rule decodes; the manifest keys are exactly the listed paths, all true; rules keep their order |
| `ConfigCodec.IndexManifestRejected` | static_host/config.go:117-119 | the document `{"manifest": ["/index.html"]}` fails the first pass |
| `ConfigCodec.DecodedFilesystemRuleInvalid` | static_host/config.go:155-159 | as written, the decoded `{"useFilesystem": true}` rule carries a pattern and fails route.validate |
| `ConfigCodec.DecodedFilesystemRulePanics` | static_host/config.go:50-51 | as written, that rule makes the matcher dereference its absent destination for every path outside the manifest |
| `ConfigCodec.DecodedFilesystemRuleValid` | static_host/config.go:167-172 | decoded as intended, that rule validates and serves exactly the manifest paths |
| `DeploymentConfig.GetDeploymentConfig` | service/service.go:110-134 | reads prefix/id/.well-known/nullserve.json; fails with "s3 service error" iff the store returns an AWS error other than NoSuchKey; gives the default for NoSuchKey or a non-AWS error; fails with "invalid config" iff the document does not decode; otherwise returns the decoded configuration unvalidated |
| `DeploymentConfig.DefaultConfigIsValid` | service/service.go:118 | the default configuration passes config.validate |
| `DeploymentConfig.DefaultConfigMatchesNothing` | service/service.go:118 | having no manifest, the default configuration matches no path |
| `StaticHost.HostToDeploymentId` | static_host/static_host.go:42-49 | an id exists iff the host ends with "." + suffix, and then id + "." + suffix is the host; no store is read |
| `StaticHost.HostRoundTrip` | static_host/static_host.go:43-45 | any id placed under the suffix resolves back to itself |
| `StaticHost.HostTestCases` | static_host/static_host_internal_test.go:16-39 | `1234.example.com` gives `1234`; `1234.duh.com` gives errNoSuchSuffix |
| `StaticHost.ServeHTTP` | static_host/static_host.go:51-77 | a host error answers 502 with no configuration fetched; a configuration error answers 500; otherwise the id and configuration are handed on with nothing written |
| `Service.HostToDeploymentId` | service/service.go:48-79 | at most one read; a host outside the suffix fails with no read; a direct id plus ".sites." + suffix is the host; a read only happens for ".site." hosts, keyed by the trimmed alias |
| `Service.AliasHostIsNotDirect` | service/service.go:50-53 | a host ending in ".site." + suffix never takes the ".sites." branch |
| `Service.DirectReference` | service/service.go:50-52 | `<id>.sites.<suffix>` resolves to id with zero reads |
| `Service.AliasReference` | service/service.go:53-75 | `<alias>.site.<suffix>` reads exactly the item keyed `Site#<alias>` in both key parts; a read error is passed on unchanged, an item without CurrentDeploymentId gives errNoSuchSuffix, otherwise its string is the id |
| `Service.NeitherScheme` | service/service.go:49-78 | a host under the suffix that follows neither scheme gives errNoSuchSuffix without a read |
| `Service.DirectTestCase` | service/service_test.go:18-35 | `1234.sites.example.com` gives `1234` with no read |
| `Service.ForeignDomainTestCase` | service/service_test.go:38-55 | `1234.sites.duh.com` gives errNoSuchSuffix with no read |
| `Service.AliasExample` | service/service.go:53-65 | `myalias.site.example.com` reads the item keyed `Site#myalias` |
| `Service.ServeHTTP` | service/service.go:81-108 | a host error answers 502 with no object read; a nil id panics before any read; a configuration error answers 500 after exactly the configuration read; a request without a matching rule answers 502 without an object read; a matched request reads the configuration, then the object |
| `Service.MissingConfigAnswersBadGateway` | service/service.go:117-124 | a deployment without a configuration document gets the default configuration, which matches no path |
| `Router.RouteAndRespond` | service/router.go:21-68 | no match: Content-Type set to JSON and 502, no object read; a match reads `site-deployments/Clean(id/destination)`; a failed read writes nothing; a served object gets the base headers, then the directives in order, then the action's status, sent with exactly those headers |
| `Router.ApplyDirectiveEffect` | service/router.go:54-59 | a directive changes only its own key: overwriting leaves exactly [value, value], appending keeps earlier values and adds its own |
| `Router.OverwriteIdempotent` | service/router.go:55-58 | applying an overwriting directive twice equals applying it once |
| `Router.OtherKeysUnchanged` | service/router.go:54-59 | directives for other keys leave a key's values and presence unchanged |
| `Router.AppendOnlyDirectives` | service/router.go:54-59 | with no overwriting directive for a key, its values are the earlier ones followed by the directives' values in list order |
| `Router.ApplyDirectivesSplit` | service/router.go:54-59 | applying a list in two parts equals applying it whole, so order is all that matters |
| `Router.LastOverwriteDecides` | service/router.go:54-59 | the last overwriting directive for a key leaves its value twice followed by the later directives' values for that key |
| `Router.BaseHeadersOfFreshResponse` | service/router.go:49-53 | on a fresh response the five base headers carry one value each, Server being NullServe |
| `Router.EtagDirectiveExample` | service/router.go:49-59 | after the base headers, an overwriting Etag directive leaves `[v2, v2]`; an appending one leaves the object's tag then `v2` |

## Left out

- Process startup is not modelled: `Main`, `controlServer` and the HTTP
  listeners of both packages. They are concurrency and I/O.
- Command-line flags and configuration records are not modelled. The
  `AppPrefix`/`RefPrefix` settings are never read by the code, which
  hardcodes `site`/`sites`.
- static_host/router.go is not part of this model. It calls a `matchRule`
  and a `s3Bucket` that do not exist. The static_host handler is therefore
  modelled up to the hand-off to its router.
- siteConfig and appConfig are not part of this model. Both packages' fetch
  and routing paths use the static_host `config` type in their place.
- Go's regexp semantics are abstract. Matching, replacement and
  compilation are uninterpreted. The lemmas that need the empty pattern to
  match a path say so in their `requires`.
- JSON syntax is abstract. The decoder on the fetch path is a function of
  the body and the default configuration. `ConfigCodec` takes a document as
  field values and decodes into a zero-valued receiver. How Go's decoder
  merges into a pre-populated value is not modelled.
- The first decoding pass of a rule's `source` string into a
  `*regexp.Regexp` is not modelled. Whether it succeeds depends on the Go
  version. The model lets the second, explicit compilation decide.
- `route.MarshalJSON` is not modelled. Only the manifest step of
  `config.MarshalJSON` is; the rest of its output is json.Marshal.
- AWS details are left out: contexts, cancellation, the bucket name,
  retries and closing the response body. `zap`/`log` logging is left out.
  Streaming the object body to the client is left out.
- `path.Join`/`path.Clean` are uninterpreted. Content-Length and
  Last-Modified are taken already formatted, as strings.
- Go's canonicalisation of header keys is not modelled; keys are used as
  given.
- net/http behaviour around the handler is not modelled:
  - the implicit 200 it writes when a handler returns without writing;
  - its recovery from handler panics;
  - its rejection of status codes outside 100-999.

  `Http.Response.WriteHeader` accepts any code.
- Integer widths are not modelled. Status codes are `nat`, so the `uint`
  width and the `int(...)` conversion before `WriteHeader` are absent. Nil
  pointers in the S3 answer's metadata are absent too.
- Service.ServeHTTP: for a routed request, it states only the object reads
  and the no-match status. The served headers and status are stated by
  `Router.RouteAndRespond`, which it calls.
- static_host/site_config_test.go has empty test bodies, so it states no
  behaviour.

## Findings

| source | as written | input that shows it | evidently intended | confidence | as-written member | corrected member |
|---|---|---|---|---|---|---|
| static_host/config.go:116-119 | The first pass unmarshals the whole document into the alias type. The alias's `manifest` field is `map[string]bool`, so a JSON list there is a type error. The pass returns that error before the list-to-map step at lines 122-134 runs, so a manifest can never be decoded. | `{"manifest": ["/index.html"]}` | the manifest becomes `{"/index.html": true}` | high (from Go's encoding/json rules; not executed) | `ConfigCodec.UnmarshalConfigAsWritten` | `ConfigCodec.UnmarshalConfig` |
| static_host/config.go:146-159 | `aux.Source` is compiled even when the field is absent, so every decoded rule carries a pattern. That pattern is the empty one, which matches every path. A decoded filesystem rule then fails route.validate. It also makes matchRoute dereference its nil destination for any path outside the manifest. | rule `{"useFilesystem": true}`, path not in the manifest | the rule keeps no pattern, validates, and lets the search go on | high (from Go's regexp and encoding/json rules; not executed) | `ConfigCodec.DecodeRouteAsWritten` | `ConfigCodec.DecodeRoute` |

The lemmas `ConfigCodec.IndexManifestRejected`,
`ConfigCodec.DecodedFilesystemRuleInvalid` and
`ConfigCodec.DecodedFilesystemRulePanics` show the two discrepancies.
`ConfigCodec.DecodedFilesystemRuleValid` and the contract of
`ConfigCodec.UnmarshalConfig` state the intended behaviour, which
`UnmarshalConfig` implements with `DecodeRoute`.
