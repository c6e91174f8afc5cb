/** Decoding and encoding of a routing configuration document
    (config.UnmarshalJSON, route.UnmarshalJSON and config.MarshalJSON in
    static_host/config.go). JSON syntax itself is abstract: a document is
    given as the values its fields hold. */
module ConfigCodec {
  import opened Wrappers
  import opened RouteConfig

  /** The "manifest" field of a document: absent, null, or a list. */
  datatype ManifestField = ManifestAbsent | ManifestNull | ManifestList(items: seq<string>)

  /** A rule object of a document, field by field (None: absent or null). */
  datatype RawRoute = RawRoute(
    useFilesystem: Option<bool>,
    source: Option<string>,
    destination: Option<string>,
    statusCode: Option<nat>,
    headers: Option<seq<Header>>)

  /** A configuration document: its manifest and its "rules" list. */
  datatype RawConfig = RawConfig(manifest: ManifestField, rules: Option<seq<RawRoute>>)

  /** The strings a manifest field lists (none unless it is a list). */
  function ListedItems(f: ManifestField): seq<string> {
    if f.ManifestList? then f.items else []
  }

  /** The manifest map a list of paths stands for: each listed path maps to true. */
  function ManifestOf(items: seq<string>): (m: map<string, bool>)
    ensures m.Keys == set x | x in items
    ensures forall k :: k in m ==> m[k]
  {
    map x | x in items :: true
  }

  /** The loop of config.UnmarshalJSON that turns the manifest list into a map. */
  method UnmarshalManifest(items: seq<string>) returns (m: map<string, bool>)
    ensures forall k :: k in m <==> k in items
    ensures forall k :: k in m ==> m[k]
    ensures m == ManifestOf(items)
  {
    m := map[];
    var i := 0;
    while i < |items|
      invariant 0 <= i <= |items|
      invariant forall k :: k in m <==> k in items[..i]
      invariant forall k :: k in m ==> m[k]
    {
      m := m[items[i] := true];
      i := i + 1;
    }
    assert items[..i] == items;
  }

  /** The loop of config.MarshalJSON that lists the manifest's keys. Go visits
      map keys in no fixed order, so the order chosen here is arbitrary. */
  method MarshalManifest(m: map<string, bool>) returns (list: seq<string>)
    ensures forall k :: k in list <==> k in m
    ensures forall i, j :: 0 <= i < j < |list| ==> list[i] != list[j]
  {
    list := [];
    var rest := m.Keys;
    while rest != {}
      invariant rest <= m.Keys
      invariant forall k :: k in list <==> k in m && k !in rest
      invariant forall i, j :: 0 <= i < j < |list| ==> list[i] != list[j]
      decreases rest
    {
      var k :| k in rest;
      list := list + [k];
      rest := rest - {k};
    }
  }

  /** Listing a manifest whose values are all true and reading the list back
      gives the same manifest. */
  lemma ManifestRoundTrip(m: map<string, bool>, list: seq<string>)
    requires forall k :: k in list <==> k in m
    requires forall k :: k in m ==> m[k]
    ensures ManifestOf(list) == m
  {
    assert ManifestOf(list).Keys == m.Keys;
  }

  /** route.UnmarshalJSON as written: the source text is compiled even when
      the field is absent, so the empty pattern is used then. */
  function DecodeRouteAsWritten(raw: RawRoute, engine: RegexEngine): (r: Option<Route>)
    ensures r.Some? <==> engine.compiles(raw.source.GetOr(""))
    ensures r.Some? ==> r.value.source == Some(Pattern(raw.source.GetOr("")))
  {
    var text := raw.source.GetOr("");
    if engine.compiles(text) then
      Some(Route(raw.useFilesystem, Some(Pattern(text)), raw.destination, raw.statusCode, raw.headers))
    else
      None
  }

  /** route.UnmarshalJSON as evidently intended: a rule without a source has
      no pattern; a present source must compile. */
  function DecodeRoute(raw: RawRoute, engine: RegexEngine): (r: Option<Route>)
    ensures r.Some? <==> (raw.source.None? || engine.compiles(raw.source.value))
    ensures r.Some? ==> r.value.source.None? == raw.source.None?
  {
    match raw.source
    case None =>
      Some(Route(raw.useFilesystem, None, raw.destination, raw.statusCode, raw.headers))
    case Some(text) =>
      if engine.compiles(text) then
        Some(Route(raw.useFilesystem, Some(Pattern(text)), raw.destination, raw.statusCode, raw.headers))
      else
        None
  }

  /** Decodes every rule of a list in order; one failure fails the list. */
  function DecodeAll(raws: seq<RawRoute>, decode: RawRoute -> Option<Route>): (r: Option<seq<Route>>)
    ensures r.Some? <==> forall i :: 0 <= i < |raws| ==> decode(raws[i]).Some?
    ensures r.Some? ==> |r.value| == |raws| && forall i :: 0 <= i < |raws| ==> Some(r.value[i]) == decode(raws[i])
    decreases |raws|
  {
    if raws == [] then Some([])
    else
      match decode(raws[0])
      case None => None
      case Some(first) =>
        match DecodeAll(raws[1..], decode)
        case None => None
        case Some(rest) => Some([first] + rest)
  }

  /** The "rules" field decoded with the given rule decoder; absent or null
      leaves the zero value's empty list. */
  function DecodeRules(rules: Option<seq<RawRoute>>, decode: RawRoute -> Option<Route>): Option<seq<Route>> {
    if rules.Some? then DecodeAll(rules.value, decode) else Some([])
  }

  /** The first pass of config.UnmarshalJSON: json.Unmarshal into the
      method-less alias type, whose manifest field is a map to booleans, so
      a JSON list there is a type error that the pass returns. */
  function AliasPass(doc: RawConfig, engine: RegexEngine): (r: Option<Config>)
    ensures doc.manifest.ManifestList? ==> r == None
    ensures r.Some? ==> r.value.manifest == map[]
  {
    if doc.manifest.ManifestList? then None
    else
      match DecodeRules(doc.rules, raw => DecodeRouteAsWritten(raw, engine))
      case None => None
      case Some(routes) => Some(Config(map[], routes))
  }

  /** config.UnmarshalJSON as written, into a zero config: the alias pass,
      then the list-to-map pass. A document that lists a manifest is
      rejected, and a decoded config never has a manifest. */
  method UnmarshalConfigAsWritten(doc: RawConfig, engine: RegexEngine) returns (r: Option<Config>)
    ensures doc.manifest.ManifestList? ==> r == None
    ensures r.Some? ==> r.value.manifest == map[]
    ensures r.Some? <==> !doc.manifest.ManifestList?
                         && DecodeRules(doc.rules, raw => DecodeRouteAsWritten(raw, engine)).Some?
    ensures r.Some? ==> Some(r.value.routes) == DecodeRules(doc.rules, raw => DecodeRouteAsWritten(raw, engine))
  {
    var first := AliasPass(doc, engine);
    if first.None? {
      return None;
    }
    var manifest := UnmarshalManifest(ListedItems(doc.manifest));
    return Some(first.value.(manifest := manifest));
  }

  /** config.UnmarshalJSON as evidently intended: the first pass leaves the
      manifest alone and rules without a source get no pattern; the listed
      paths become the manifest's keys, each mapped to true. */
  method UnmarshalConfig(doc: RawConfig, engine: RegexEngine) returns (r: Option<Config>)
    ensures r.Some? <==> DecodeRules(doc.rules, raw => DecodeRoute(raw, engine)).Some?
    ensures r.Some? ==> forall k :: k in r.value.manifest <==> k in ListedItems(doc.manifest)
    ensures r.Some? ==> forall k :: k in r.value.manifest ==> r.value.manifest[k]
    ensures r.Some? ==> Some(r.value.routes) == DecodeRules(doc.rules, raw => DecodeRoute(raw, engine))
  {
    var routes := DecodeRules(doc.rules, raw => DecodeRoute(raw, engine));
    if routes.None? {
      return None;
    }
    var manifest := UnmarshalManifest(ListedItems(doc.manifest));
    return Some(Config(manifest, routes.value));
  }

  /** The document {"manifest": ["/index.html"]} fails to decode as written. */
  lemma IndexManifestRejected(engine: RegexEngine)
    ensures AliasPass(RawConfig(ManifestList(["/index.html"]), None), engine) == None
  {
  }

  /** The bare filesystem rule {"useFilesystem": true}. */
  const FilesystemRule := RawRoute(Some(true), None, None, None, None)

  /** As written, the decoded filesystem rule carries the empty pattern, so
      route.validate rejects it. */
  lemma DecodedFilesystemRuleInvalid(engine: RegexEngine)
    requires engine.compiles("")
    ensures DecodeRouteAsWritten(FilesystemRule, engine).Some?
    ensures !ValidRoute(DecodeRouteAsWritten(FilesystemRule, engine).value)
  {
  }

  /** As written, the decoded filesystem rule makes the matcher dereference
      its absent destination for any path outside the manifest, since the
      empty pattern matches every path. */
  lemma DecodedFilesystemRulePanics(rest: seq<Route>, path: string, manifest: map<string, bool>, engine: RegexEngine)
    requires engine.compiles("") && engine.matchString("", path)
    requires path !in manifest
    ensures DecodeRouteAsWritten(FilesystemRule, engine).Some?
    ensures Match([DecodeRouteAsWritten(FilesystemRule, engine).value] + rest, path, manifest, engine)
            == DestinationPanic
  {
    var r := DecodeRouteAsWritten(FilesystemRule, engine).value;
    assert ([r] + rest)[0] == r;
  }

  /** Decoded as intended, the filesystem rule validates and never makes the
      matcher panic. */
  lemma DecodedFilesystemRuleValid(path: string, manifest: map<string, bool>, engine: RegexEngine)
    ensures DecodeRoute(FilesystemRule, engine) == Some(Route(Some(true), None, None, None, None))
    ensures ValidRoute(DecodeRoute(FilesystemRule, engine).value)
    ensures TryRoute(DecodeRoute(FilesystemRule, engine).value, path, manifest, engine)
            == (if path in manifest then Yield(Action(200, [], path)) else Continue)
  {
  }
}
