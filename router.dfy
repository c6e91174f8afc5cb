/** Routing one request and writing the response head (routeAndRespond in
    service/router.go): match the path, fetch the object, add the base
    headers, apply the matched rule's header directives in order, then write
    the status. Streaming the body is not modelled. */
module Router {
  import opened Wrappers
  import opened External
  import opened Http
  import opened RouteConfig

  /** The object-key prefix, fixed in the code rather than taken from the
      configured site folder prefix. */
  const ObjectPrefix := "site-deployments"

  /** How routing one request ended. */
  datatype RouteOutcome =
    | NoRoute                                  // no rule matched: 502
    | MatchPanic                               // the matcher dereferenced an absent destination
    | ObjectFetchFailed                        // the object could not be read: nothing written
    | Served(action: Action, info: ObjectInfo) // headers and status written

  /** The object key of a destination: site-deployments/Clean(id/destination). */
  function ObjectKey(paths: PathOps, deploymentId: string, destination: string): string {
    paths.join([ObjectPrefix, paths.clean(paths.join([deploymentId, destination]))])
  }

  /** The five headers every served object gets, added in this order. */
  function BaseHeaders(h: HeaderMap, info: ObjectInfo): HeaderMap {
    var h1 := Added(h, "Content-Type", info.contentType);
    var h2 := Added(h1, "Content-Length", info.contentLength);
    var h3 := Added(h2, "Server", "NullServe");
    var h4 := Added(h3, "Etag", info.etag);
    Added(h4, "Last-Modified", info.lastModified)
  }

  /** One directive: Set first when overwrite is true, then Add in all cases. */
  function ApplyDirective(h: HeaderMap, d: Header): HeaderMap {
    var cleared := if d.overwrite == Some(true) then Replaced(h, d.key, d.value) else h;
    Added(cleared, d.key, d.value)
  }

  /** The directives applied one after another, in list order. */
  function ApplyDirectives(h: HeaderMap, ds: seq<Header>): HeaderMap
    decreases |ds|
  {
    if ds == [] then h
    else ApplyDirective(ApplyDirectives(h, ds[..|ds| - 1]), ds[|ds| - 1])
  }

  /** The values the directives for one key carry, in list order. */
  function ValuesFor(ds: seq<Header>, key: string): seq<string>
    decreases |ds|
  {
    if ds == [] then []
    else ValuesFor(ds[..|ds| - 1], key) + (if ds[|ds| - 1].key == key then [ds[|ds| - 1].value] else [])
  }

  /** One directive changes only its own key: an overwriting one leaves
      exactly two copies of its value, an appending one keeps the earlier
      values and adds its own. */
  lemma ApplyDirectiveEffect(h: HeaderMap, d: Header, key: string)
    ensures key in ApplyDirective(h, d) <==> key in h || key == d.key
    ensures Values(ApplyDirective(h, d), key)
            == if key != d.key then Values(h, key)
               else if d.overwrite == Some(true) then [d.value, d.value]
               else Values(h, key) + [d.value]
  {
  }

  /** Applying an overwriting directive twice is the same as applying it once. */
  lemma OverwriteIdempotent(h: HeaderMap, d: Header)
    requires d.overwrite == Some(true)
    ensures ApplyDirective(ApplyDirective(h, d), d) == ApplyDirective(h, d)
  {
  }

  /** Directives for other keys leave a key's values alone. */
  lemma {:induction false} OtherKeysUnchanged(h: HeaderMap, ds: seq<Header>, key: string)
    requires forall i :: 0 <= i < |ds| ==> ds[i].key != key
    ensures Values(ApplyDirectives(h, ds), key) == Values(h, key)
    ensures key in ApplyDirectives(h, ds) <==> key in h
    decreases |ds|
  {
    if ds != [] {
      OtherKeysUnchanged(h, ds[..|ds| - 1], key);
    }
  }

  /** Without an overwriting directive for a key, that key keeps its earlier
      values and gains the directives' values in list order. */
  lemma {:induction false} AppendOnlyDirectives(h: HeaderMap, ds: seq<Header>, key: string)
    requires forall i :: 0 <= i < |ds| && ds[i].key == key ==> ds[i].overwrite != Some(true)
    ensures Values(ApplyDirectives(h, ds), key) == Values(h, key) + ValuesFor(ds, key)
    decreases |ds|
  {
    if ds != [] {
      AppendOnlyDirectives(h, ds[..|ds| - 1], key);
    }
  }

  /** Applying a list in two parts is applying it whole. */
  lemma {:induction false} ApplyDirectivesSplit(h: HeaderMap, a: seq<Header>, b: seq<Header>)
    ensures ApplyDirectives(h, a + b) == ApplyDirectives(ApplyDirectives(h, a), b)
    decreases |b|
  {
    if b == [] {
      assert a + b == a;
    } else {
      assert (a + b)[..|a + b| - 1] == a + b[..|b| - 1];
      ApplyDirectivesSplit(h, a, b[..|b| - 1]);
    }
  }

  /** The last overwriting directive for a key decides: its value twice,
      then the values of the later directives for that key. */
  lemma LastOverwriteDecides(h: HeaderMap, ds: seq<Header>, i: nat)
    requires i < |ds| && ds[i].overwrite == Some(true)
    requires forall j :: i < j < |ds| && ds[j].key == ds[i].key ==> ds[j].overwrite != Some(true)
    ensures Values(ApplyDirectives(h, ds), ds[i].key)
            == [ds[i].value, ds[i].value] + ValuesFor(ds[i + 1..], ds[i].key)
  {
    var key := ds[i].key;
    assert ds == ds[..i + 1] + ds[i + 1..];
    ApplyDirectivesSplit(h, ds[..i + 1], ds[i + 1..]);
    assert ds[..i + 1][..i] == ds[..i];
    var mid := ApplyDirectives(h, ds[..i + 1]);
    assert Values(mid, key) == [ds[i].value, ds[i].value];
    var tail := ds[i + 1..];
    assert forall j :: 0 <= j < |tail| ==> tail[j] == ds[i + 1 + j];
    AppendOnlyDirectives(mid, tail, key);
  }

  /** On a fresh response the base headers carry one value each. */
  lemma BaseHeadersOfFreshResponse(info: ObjectInfo)
    ensures BaseHeaders(map[], info)
            == map["Content-Type" := [info.contentType],
                   "Content-Length" := [info.contentLength],
                   "Server" := ["NullServe"],
                   "Etag" := [info.etag],
                   "Last-Modified" := [info.lastModified]]
  {
    var e: HeaderMap := map[];
    var h1 := Added(e, "Content-Type", info.contentType);
    AddedToAbsent(e, "Content-Type", info.contentType);
    var h2 := Added(h1, "Content-Length", info.contentLength);
    AddedToAbsent(h1, "Content-Length", info.contentLength);
    var h3 := Added(h2, "Server", "NullServe");
    AddedToAbsent(h2, "Server", "NullServe");
    var h4 := Added(h3, "Etag", info.etag);
    AddedToAbsent(h3, "Etag", info.etag);
    AddedToAbsent(h4, "Last-Modified", info.lastModified);
  }

  /** Adding to an absent key gives it exactly the one value. */
  lemma AddedToAbsent(h: HeaderMap, key: string, value: string)
    requires key !in h
    ensures Added(h, key, value) == h[key := [value]]
  {
    assert [] + [value] == [value];
  }

  /** After the base headers, {Etag, v2, overwrite: true} leaves Etag with
      two copies of v2; without overwrite it keeps the object's tag first. */
  lemma EtagDirectiveExample(info: ObjectInfo)
    ensures Values(ApplyDirectives(BaseHeaders(map[], info), [Header(Some(true), "Etag", "v2")]), "Etag")
            == ["v2", "v2"]
    ensures Values(ApplyDirectives(BaseHeaders(map[], info), [Header(None, "Etag", "v2")]), "Etag")
            == [info.etag, "v2"]
  {
    BaseHeadersOfFreshResponse(info);
    var one: seq<Header> := [Header(Some(true), "Etag", "v2")];
    assert one[..0] == [];
    var two: seq<Header> := [Header(None, "Etag", "v2")];
    assert two[..0] == [];
  }

  /** routeAndRespond. */
  method RouteAndRespond(rw: Response, deploymentId: string, config: Config, path: string,
                         engine: RegexEngine, paths: PathOps, getObject: string -> GetObjectOutcome)
      returns (outcome: RouteOutcome, fetched: Option<string>)
    requires rw.status.None?
    modifies rw
    ensures var m := Match(config.routes, path, config.manifest, engine);
      m == NoMatchedRoute ==>
        && outcome == NoRoute && fetched == None
        && rw.header == Replaced(old(rw.header), "Content-Type", JsonContentType)
        && rw.status == Some(StatusBadGateway) && rw.sentHeader == rw.header
    ensures var m := Match(config.routes, path, config.manifest, engine);
      m == DestinationPanic ==>
        outcome == MatchPanic && fetched == None && rw.header == old(rw.header) && rw.status == None
    ensures var m := Match(config.routes, path, config.manifest, engine);
      m.Matched? ==> fetched == Some(ObjectKey(paths, deploymentId, m.action.destination))
    ensures var m := Match(config.routes, path, config.manifest, engine);
      m.Matched? && getObject(ObjectKey(paths, deploymentId, m.action.destination)).GetObjectFailed? ==>
        outcome == ObjectFetchFailed && rw.header == old(rw.header) && rw.status == None
    ensures var m := Match(config.routes, path, config.manifest, engine);
      m.Matched? ==>
        var res := getObject(ObjectKey(paths, deploymentId, m.action.destination));
        res.Found? ==>
        && outcome == Served(m.action, res.info)
        && rw.header == ApplyDirectives(BaseHeaders(old(rw.header), res.info), m.action.headers)
        && rw.status == Some(m.action.statusCode) && rw.sentHeader == rw.header
  {
    var m := MatchRoute(config, path, engine);
    if m == NoMatchedRoute {
      rw.Set("Content-Type", JsonContentType);
      rw.WriteHeader(StatusBadGateway);
      return NoRoute, None;
    }
    if m == DestinationPanic {
      return MatchPanic, None;
    }
    var action := m.action;
    var key := ObjectKey(paths, deploymentId, action.destination);
    fetched := Some(key);
    var res := getObject(key);
    if res.GetObjectFailed? {
      return ObjectFetchFailed, fetched;
    }

    rw.Add("Content-Type", res.info.contentType);
    rw.Add("Content-Length", res.info.contentLength);
    rw.Add("Server", "NullServe");
    rw.Add("Etag", res.info.etag);
    rw.Add("Last-Modified", res.info.lastModified);
    ghost var base := rw.header;
    assert base == BaseHeaders(old(rw.header), res.info);

    var hs := action.headers;
    var i := 0;
    while i < |hs|
      invariant 0 <= i <= |hs|
      invariant rw.header == ApplyDirectives(base, hs[..i])
      invariant rw.status == None
    {
      var d := hs[i];
      if d.overwrite == Some(true) {
        rw.Set(d.key, d.value);
      }
      rw.Add(d.key, d.value);
      assert hs[..i + 1][..i] == hs[..i];
      i := i + 1;
    }
    assert hs[..i] == hs;
    rw.WriteHeader(action.statusCode);
    outcome := Served(action, res.info);
  }
}
