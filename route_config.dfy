/** The routing configuration of one deployment and the rule matcher that
    evaluates it (static_host/config.go). Regular expressions are left
    abstract: a RegexEngine supplies compilation, matching and replacement. */
module RouteConfig {
  import opened Wrappers

  /** Go's regexp package, uninterpreted: whether a pattern text compiles,
      MatchString(pattern, path) and ReplaceAllString(pattern, path, template). */
  datatype RegexEngine = RegexEngine(
    compiles: string -> bool,
    matchString: (string, string) -> bool,
    replaceAll: (string, string, string) -> string)

  /** A compiled regular expression, known by its source text. */
  datatype Pattern = Pattern(expr: string)

  /** A response-header directive of a rule. */
  datatype Header = Header(overwrite: Option<bool>, key: string, value: string)

  /** A rule as the source stores it: five optional fields, of which the
      validator admits two shapes (filesystem and pattern). */
  datatype Route = Route(
    useFilesystem: Option<bool>,
    source: Option<Pattern>,
    destination: Option<string>,
    statusCode: Option<nat>,
    headers: Option<seq<Header>>)

  /** The manifest is a map to booleans; only the presence of a key matters.
      A nil rule list and an empty one behave alike and are both []. */
  datatype Config = Config(manifest: map<string, bool>, routes: seq<Route>)

  /** What the matcher resolves a request to. */
  datatype Action = Action(statusCode: nat, headers: seq<Header>, destination: string)

  /** What a single rule does with a path: yields an action, lets the search
      go on, or dereferences an absent destination (a Go panic). */
  datatype Step = Yield(action: Action) | Continue | NilDestination

  /** The result of matchRoute, with the panic as an explicit outcome. */
  datatype MatchOutcome = Matched(action: Action) | NoMatchedRoute | DestinationPanic

  predicate UsesFilesystem(r: Route) {
    r.useFilesystem == Some(true)
  }

  /** One iteration of the loop in matchRoute: the filesystem branch first,
      then, for the same rule, the pattern branch. */
  function TryRoute(r: Route, path: string, manifest: map<string, bool>, engine: RegexEngine): Step {
    if UsesFilesystem(r) && path in manifest then
      Yield(Action(200, [], path))
    else if r.source.Some? && engine.matchString(r.source.value.expr, path) then
      if r.destination.None? then
        NilDestination
      else
        var newPath := engine.replaceAll(r.source.value.expr, path, r.destination.value);
        if newPath in manifest then
          Yield(Action(r.statusCode.GetOr(200), r.headers.GetOr([]), newPath))
        else
          Continue
    else
      Continue
  }

  /** The specification of matchRoute: the first rule, in list order, that
      does not let the search go on decides the outcome. */
  function Match(routes: seq<Route>, path: string, manifest: map<string, bool>, engine: RegexEngine): MatchOutcome
    decreases |routes|
  {
    if routes == [] then NoMatchedRoute
    else
      match TryRoute(routes[0], path, manifest, engine)
      case Yield(a) => Matched(a)
      case NilDestination => DestinationPanic
      case Continue => Match(routes[1..], path, manifest, engine)
  }

  /** config.matchRoute: walks the rules in order with early returns. */
  method MatchRoute(c: Config, path: string, engine: RegexEngine) returns (outcome: MatchOutcome)
    ensures outcome == Match(c.routes, path, c.manifest, engine)
  {
    var i := 0;
    while i < |c.routes|
      invariant 0 <= i <= |c.routes|
      invariant Match(c.routes, path, c.manifest, engine) == Match(c.routes[i..], path, c.manifest, engine)
    {
      assert c.routes[i..][1..] == c.routes[i + 1..];
      var route := c.routes[i];
      if UsesFilesystem(route) && path in c.manifest {
        return Matched(Action(200, [], path));
      }
      if route.source.Some? && engine.matchString(route.source.value.expr, path) {
        if route.destination.None? {
          return DestinationPanic;
        }
        var newPath := engine.replaceAll(route.source.value.expr, path, route.destination.value);
        if newPath in c.manifest {
          var respAction := Action(200, [], newPath);
          if route.statusCode.Some? {
            respAction := respAction.(statusCode := route.statusCode.value);
          }
          if route.headers.Some? {
            respAction := respAction.(headers := route.headers.value);
          }
          return Matched(respAction);
        }
      }
      i := i + 1;
    }
    return NoMatchedRoute;
  }

  /** The outcome a stopping step gives the whole search. */
  function Stop(s: Step): MatchOutcome
    requires !s.Continue?
  {
    if s.Yield? then Matched(s.action) else DestinationPanic
  }

  /** First match wins: when every earlier rule lets the search go on, the
      first rule that stops it decides the outcome, and later rules are never
      consulted. */
  lemma {:induction false} MatchAtFirstStop(routes: seq<Route>, i: nat, path: string, manifest: map<string, bool>, engine: RegexEngine)
    requires i < |routes|
    requires forall j :: 0 <= j < i ==> TryRoute(routes[j], path, manifest, engine).Continue?
    requires !TryRoute(routes[i], path, manifest, engine).Continue?
    ensures Match(routes, path, manifest, engine) == Stop(TryRoute(routes[i], path, manifest, engine))
  {
    if i > 0 {
      assert TryRoute(routes[0], path, manifest, engine).Continue?;
      MatchAtFirstStop(routes[1..], i - 1, path, manifest, engine);
    }
  }

  /** No rule matches exactly when every rule lets the search go on. */
  lemma {:induction false} NoMatchIffAllContinue(routes: seq<Route>, path: string, manifest: map<string, bool>, engine: RegexEngine)
    ensures Match(routes, path, manifest, engine) == NoMatchedRoute
        <==> forall j :: 0 <= j < |routes| ==> TryRoute(routes[j], path, manifest, engine).Continue?
  {
    if routes != [] {
      NoMatchIffAllContinue(routes[1..], path, manifest, engine);
      assert forall j :: 1 <= j < |routes| ==> routes[j] == routes[1..][j - 1];
    }
  }

  /** Every matched action points into the manifest. */
  lemma {:induction false} MatchedDestinationInManifest(routes: seq<Route>, path: string, manifest: map<string, bool>, engine: RegexEngine)
    ensures Match(routes, path, manifest, engine).Matched?
        ==> Match(routes, path, manifest, engine).action.destination in manifest
  {
    if routes != [] {
      MatchedDestinationInManifest(routes[1..], path, manifest, engine);
    }
  }

  /** Rules after the deciding one are never consulted: appending rules does
      not change a decided outcome. */
  lemma {:induction false} LaterRoutesIgnored(a: seq<Route>, b: seq<Route>, path: string, manifest: map<string, bool>, engine: RegexEngine)
    requires Match(a, path, manifest, engine) != NoMatchedRoute
    ensures Match(a + b, path, manifest, engine) == Match(a, path, manifest, engine)
  {
    assert a != [];
    assert (a + b)[0] == a[0];
    if TryRoute(a[0], path, manifest, engine).Continue? {
      assert (a + b)[1..] == a[1..] + b;
      LaterRoutesIgnored(a[1..], b, path, manifest, engine);
    }
  }

  /** Rules that all let the search go on can be skipped. */
  lemma {:induction false} PassingRoutesSkipped(a: seq<Route>, b: seq<Route>, path: string, manifest: map<string, bool>, engine: RegexEngine)
    requires forall j :: 0 <= j < |a| ==> TryRoute(a[j], path, manifest, engine).Continue?
    ensures Match(a + b, path, manifest, engine) == Match(b, path, manifest, engine)
  {
    if a != [] {
      assert TryRoute(a[0], path, manifest, engine).Continue?;
      assert (a + b)[0] == a[0];
      assert (a + b)[1..] == a[1..] + b;
      assert forall j :: 0 <= j < |a[1..]| ==> a[1..][j] == a[j + 1];
      PassingRoutesSkipped(a[1..], b, path, manifest, engine);
    } else {
      assert a + b == b;
    }
  }

  /** A filesystem rule serves a path of the manifest as it is, with
      status 200 and no extra headers. */
  lemma FilesystemRouteServesPath(r: Route, rest: seq<Route>, path: string, manifest: map<string, bool>, engine: RegexEngine)
    requires UsesFilesystem(r) && path in manifest
    ensures Match([r] + rest, path, manifest, engine) == Matched(Action(200, [], path))
  {
    assert ([r] + rest)[0] == r;
  }

  /** A rule that does not hit the filesystem branch yields an action exactly
      when its pattern matches and the rewritten path is in the manifest; the
      action carries that path, the rule's status (default 200) and the rule's
      headers (default none). */
  lemma PatternRouteYield(r: Route, path: string, manifest: map<string, bool>, engine: RegexEngine)
    requires !(UsesFilesystem(r) && path in manifest)
    requires r.destination.Some?
    ensures TryRoute(r, path, manifest, engine).Yield?
        <==> r.source.Some? && engine.matchString(r.source.value.expr, path)
             && engine.replaceAll(r.source.value.expr, path, r.destination.value) in manifest
    ensures TryRoute(r, path, manifest, engine).Yield? ==>
              TryRoute(r, path, manifest, engine).action
              == Action(r.statusCode.GetOr(200), r.headers.GetOr([]),
                        engine.replaceAll(r.source.value.expr, path, r.destination.value))
  {
  }

  /** A pattern that matches but rewrites to a path outside the manifest
      does not stop the search: the next rule is tried. */
  lemma PatternMissFallsThrough(r: Route, rest: seq<Route>, path: string, manifest: map<string, bool>, engine: RegexEngine)
    requires !(UsesFilesystem(r) && path in manifest)
    requires r.source.Some? && engine.matchString(r.source.value.expr, path)
    requires r.destination.Some?
    requires engine.replaceAll(r.source.value.expr, path, r.destination.value) !in manifest
    ensures Match([r] + rest, path, manifest, engine) == Match(rest, path, manifest, engine)
  {
    assert ([r] + rest)[0] == r;
    assert ([r] + rest)[1..] == rest;
  }

  /** One rule may try both branches: a filesystem rule that also carries a
      pattern falls through to the pattern when the path itself is missing. */
  lemma BothBranchesOfOneRoute(r: Route, path: string, manifest: map<string, bool>, engine: RegexEngine)
    requires UsesFilesystem(r) && path !in manifest
    requires r.source.Some? && engine.matchString(r.source.value.expr, path)
    requires r.destination.Some?
    requires engine.replaceAll(r.source.value.expr, path, r.destination.value) in manifest
    ensures TryRoute(r, path, manifest, engine).Yield?
    ensures TryRoute(r, path, manifest, engine).action.destination
            == engine.replaceAll(r.source.value.expr, path, r.destination.value)
  {
  }

  // ---------------------------------------------------------------------
  // Validation

  /** header.validate. */
  predicate ValidHeader(h: Header) {
    h.key != "" && h.value != ""
  }

  /** The filesystem shape of a rule. */
  predicate FilesystemShape(r: Route) {
    UsesFilesystem(r) && r.source.None? && r.destination.None? && r.statusCode.None?
  }

  /** The pattern shape of a rule. */
  predicate PatternShape(r: Route) {
    && !UsesFilesystem(r)
    && r.source.Some?
    && r.destination.Some? && r.destination.value != ""
    && (r.statusCode.None? || 200 <= r.statusCode.value <= 499)
  }

  /** route.validate, written as the source's single boolean expression. */
  predicate ValidRoute(r: Route) {
    (UsesFilesystem(r) && r.source.None? && r.destination.None? && r.statusCode.None?)
    || (!UsesFilesystem(r) && r.source.Some? && r.destination.Some? && r.destination.value != ""
        && (r.statusCode.None? || (r.statusCode.Some? && r.statusCode.value >= 200 && r.statusCode.value <= 499)))
  }

  /** config.validate: vacuously true without rules, otherwise every rule
      must validate. */
  predicate ValidConfig(c: Config) {
    forall i :: 0 <= i < |c.routes| ==> ValidRoute(c.routes[i])
  }

  /** config.validate as the source runs it: a loop that stops at the first
      invalid rule. */
  method Validate(c: Config) returns (ok: bool)
    ensures ok <==> ValidConfig(c)
    ensures !ok ==> exists i :: 0 <= i < |c.routes| && !ValidRoute(c.routes[i])
  {
    ok := true;
    var i := 0;
    while i < |c.routes|
      invariant 0 <= i <= |c.routes|
      invariant ok
      invariant forall j :: 0 <= j < i ==> ValidRoute(c.routes[j])
    {
      ok := ValidRoute(c.routes[i]);
      if !ok {
        break;
      }
      i := i + 1;
    }
  }

  /** A rule is valid exactly in one of the two shapes, never in both, and
      its headers play no part. */
  lemma ValidRouteShapes(r: Route, hs: Option<seq<Header>>)
    ensures ValidRoute(r) <==> FilesystemShape(r) || PatternShape(r)
    ensures !(FilesystemShape(r) && PatternShape(r))
    ensures ValidRoute(r) == ValidRoute(r.(headers := hs))
  {
  }

  /** A header directive is valid when its key and value are non-empty;
      the overwrite flag plays no part. */
  lemma ValidHeaderIgnoresOverwrite(h: Header, o: Option<bool>)
    ensures ValidHeader(h) <==> |h.key| > 0 && |h.value| > 0
    ensures ValidHeader(h) == ValidHeader(h.(overwrite := o))
  {
  }

  /** A valid rule never dereferences an absent destination, and an action
      it yields carries a status in [200, 499]. */
  lemma ValidRouteStep(r: Route, path: string, manifest: map<string, bool>, engine: RegexEngine)
    requires ValidRoute(r)
    ensures !TryRoute(r, path, manifest, engine).NilDestination?
    ensures TryRoute(r, path, manifest, engine).Yield? ==>
              200 <= TryRoute(r, path, manifest, engine).action.statusCode <= 499
  {
  }

  /** Under a valid configuration the matcher never panics, and every action
      it returns carries a status in [200, 499]. */
  lemma {:induction false} ValidConfigMatch(c: Config, path: string, engine: RegexEngine)
    requires ValidConfig(c)
    ensures Match(c.routes, path, c.manifest, engine) != DestinationPanic
    ensures Match(c.routes, path, c.manifest, engine).Matched? ==>
              200 <= Match(c.routes, path, c.manifest, engine).action.statusCode <= 499
    decreases |c.routes|
  {
    if c.routes != [] {
      ValidRouteStep(c.routes[0], path, c.manifest, engine);
      ValidConfigMatch(c.(routes := c.routes[1..]), path, engine);
    }
  }
}
