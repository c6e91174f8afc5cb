/** The request handler of the service package (service/service.go): the
    host name names a deployment directly ("<id>.sites.<suffix>") or through
    an alias kept in DynamoDB ("<alias>.site.<suffix>"); the deployment's
    configuration is fetched and the request is routed. */
module Service {
  import opened Wrappers
  import opened Strings
  import opened External
  import opened Http
  import opened RouteConfig
  import opened DeploymentConfig
  import opened Router

  /** The attribute of an alias item that holds its deployment id. */
  const CurrentDeploymentId := "CurrentDeploymentId"

  /** Why a host did not resolve: errNoSuchSuffix, or the store's own error. */
  datatype HostError = NoSuchSuffix | LookupFailed(err: StoreError)

  /** The (id, error) pair hostToDeploymentId returns. NilId is a nil id
      with a nil error: the alias item's attribute has no string value. */
  datatype IdResult = Id(id: string) | NilId | IdFailed(err: HostError)

  /** The result together with the metadata-store reads it issued. */
  datatype Resolution = Resolution(result: IdResult, lookups: seq<GetItemInput>)

  /** The key of an alias item: partition and sort key are both "Site#" + alias. */
  function SiteKey(tableName: string, alias: string): GetItemInput {
    GetItemInput(tableName, "Site#" + alias, "Site#" + alias)
  }

  /** The id an alias item yields. */
  function AliasResult(res: GetItemOutcome): IdResult {
    match res
    case GetItemFailed(e) => IdFailed(LookupFailed(e))
    case Item(attributes) =>
      if CurrentDeploymentId in attributes then
        match attributes[CurrentDeploymentId].s
        case Some(id) => Id(id)
        case None => NilId
      else
        IdFailed(NoSuchSuffix)
  }

  /** hostToDeploymentId. At most one read is issued, only for an alias,
      and a direct reference is the host minus ".sites." + suffix. */
  function HostToDeploymentId(host: string, suffix: string, tableName: string,
                              getItem: GetItemInput -> GetItemOutcome): (r: Resolution)
    ensures |r.lookups| <= 1
    ensures !HasSuffix(host, "." + suffix) ==> r == Resolution(IdFailed(NoSuchSuffix), [])
    ensures r.lookups == [] && r.result.Id? ==> r.result.id + ".sites." + suffix == host
    ensures r.lookups != [] ==>
              && HasSuffix(host, ".site." + suffix)
              && r.lookups == [SiteKey(tableName, TrimSuffix(host, ".site." + suffix))]
              && r.result == AliasResult(getItem(r.lookups[0]))
  {
    if HasSuffix(host, "." + suffix) then
      if HasSuffix(host, ".sites." + suffix) then
        Resolution(Id(TrimSuffix(host, ".sites." + suffix)), [])
      else if HasSuffix(host, ".site." + suffix) then
        var key := SiteKey(tableName, TrimSuffix(host, ".site." + suffix));
        Resolution(AliasResult(getItem(key)), [key])
      else
        Resolution(IdFailed(NoSuchSuffix), [])
    else
      Resolution(IdFailed(NoSuchSuffix), [])
  }

  /** A host ending in ".site." + suffix never ends in ".sites." + suffix. */
  lemma AliasHostIsNotDirect(alias: string, suffix: string)
    ensures !HasSuffix(alias + ".site." + suffix, ".sites." + suffix)
  {
    var host := alias + ".site." + suffix;
    var t := ".sites." + suffix;
    if |t| <= |host| {
      assert |host| - |t| + 5 == |alias| + 4;
      assert host[|alias| + 4] == 'e' && t[5] == 's';
      assert host[|host| - |t|..][5] != t[5];
    }
  }

  /** A direct reference resolves to its id without any read. */
  lemma DirectReference(id: string, suffix: string, tableName: string, getItem: GetItemInput -> GetItemOutcome)
    ensures HostToDeploymentId(id + ".sites." + suffix, suffix, tableName, getItem) == Resolution(Id(id), [])
  {
    var host := id + ".sites." + suffix;
    assert host == id + (".sites." + suffix);
    TrimAppended(id, ".sites." + suffix);
    assert ".sites." + suffix == ".sites" + ("." + suffix);
    SuffixOfSuffix(host, ".sites", "." + suffix);
  }

  /** An alias issues exactly one read, keyed "Site#" + alias: a store error
      is passed on, an item without CurrentDeploymentId gives errNoSuchSuffix,
      and otherwise the attribute's string is the id. */
  lemma AliasReference(alias: string, suffix: string, tableName: string, getItem: GetItemInput -> GetItemOutcome)
    ensures var r := HostToDeploymentId(alias + ".site." + suffix, suffix, tableName, getItem);
      && r.lookups == [GetItemInput(tableName, "Site#" + alias, "Site#" + alias)]
      && (getItem(r.lookups[0]).GetItemFailed? ==> r.result == IdFailed(LookupFailed(getItem(r.lookups[0]).err)))
      && ((getItem(r.lookups[0]).Item? && CurrentDeploymentId !in getItem(r.lookups[0]).attributes)
            ==> r.result == IdFailed(NoSuchSuffix))
      && ((getItem(r.lookups[0]).Item? && CurrentDeploymentId in getItem(r.lookups[0]).attributes
           && getItem(r.lookups[0]).attributes[CurrentDeploymentId].s.Some?)
            ==> r.result == Id(getItem(r.lookups[0]).attributes[CurrentDeploymentId].s.value))
  {
    var host := alias + ".site." + suffix;
    assert host == alias + (".site." + suffix);
    TrimAppended(alias, ".site." + suffix);
    assert ".site." + suffix == ".site" + ("." + suffix);
    SuffixOfSuffix(host, ".site", "." + suffix);
    AliasHostIsNotDirect(alias, suffix);
  }

  /** A host under the suffix that follows neither scheme is rejected
      without a read. */
  lemma NeitherScheme(host: string, suffix: string, tableName: string, getItem: GetItemInput -> GetItemOutcome)
    requires !HasSuffix(host, ".sites." + suffix) && !HasSuffix(host, ".site." + suffix)
    ensures HostToDeploymentId(host, suffix, tableName, getItem) == Resolution(IdFailed(NoSuchSuffix), [])
  {
  }

  /** The first case of service/service_test.go: a direct reference. */
  lemma DirectTestCase(tableName: string, getItem: GetItemInput -> GetItemOutcome)
    ensures HostToDeploymentId("1234.sites.example.com", "example.com", tableName, getItem)
            == Resolution(Id("1234"), [])
  {
    DirectReference("1234", "example.com", tableName, getItem);
    assert "1234" + ".sites." + "example.com" == "1234.sites.example.com";
  }

  /** The second case of service/service_test.go: a host under another domain. */
  lemma ForeignDomainTestCase(tableName: string, getItem: GetItemInput -> GetItemOutcome)
    ensures HostToDeploymentId("1234.sites.duh.com", "example.com", tableName, getItem)
            == Resolution(IdFailed(NoSuchSuffix), [])
  {
    var host := "1234.sites.duh.com";
    var t := "." + "example.com";
    assert |host| == 18 && |t| == 12;
    assert host[6] == 'i' && t[0] == '.';
    assert host[|host| - |t|..][0] == host[6];
    assert !HasSuffix(host, t);
  }

  /** An alias host reads the item keyed "Site#myalias". */
  lemma AliasExample(tableName: string, getItem: GetItemInput -> GetItemOutcome)
    ensures HostToDeploymentId("myalias.site.example.com", "example.com", tableName, getItem).lookups
            == [GetItemInput(tableName, "Site#myalias", "Site#myalias")]
  {
    var r := HostToDeploymentId("myalias" + ".site." + "example.com", "example.com", tableName, getItem);
    AliasReference("myalias", "example.com", tableName, getItem);
    assert r.lookups == [SiteKey(tableName, "myalias")];
    assert "myalias" + ".site." + "example.com" == "myalias.site.example.com";
    assert "Site#" + "myalias" == "Site#myalias";
  }

  /** The settings the handler reads. */
  datatype Settings = Settings(hostSuffix: string, tableName: string, siteFolderPrefix: string)

  /** How the handler ended. */
  datatype ServeOutcome =
    | HostRejected             // 502, nothing fetched
    | DeploymentIdPanic        // nil id dereferenced
    | ConfigRejected           // 500
    | Routed(route: RouteOutcome)

  /** ServeHTTP: host resolution, then the configuration, then routing; each
      failure answers at once and stops the later steps. objectKeys lists
      the object-store reads in order. */
  method ServeHTTP(rw: Response, host: string, path: string, settings: Settings,
                   getItem: GetItemInput -> GetItemOutcome, getObject: string -> GetObjectOutcome,
                   decode: (string, Config) -> Option<Config>, engine: RegexEngine, paths: PathOps)
      returns (outcome: ServeOutcome, lookups: seq<GetItemInput>, objectKeys: seq<string>)
    requires rw.status.None?
    modifies rw
    ensures var res := HostToDeploymentId(host, settings.hostSuffix, settings.tableName, getItem);
      lookups == res.lookups
    ensures var res := HostToDeploymentId(host, settings.hostSuffix, settings.tableName, getItem);
      res.result.IdFailed? ==>
        && outcome == HostRejected && objectKeys == []
        && rw.header == Replaced(old(rw.header), "Content-Type", JsonContentType)
        && rw.status == Some(StatusBadGateway)
    ensures var res := HostToDeploymentId(host, settings.hostSuffix, settings.tableName, getItem);
      res.result.NilId? ==>
        outcome == DeploymentIdPanic && objectKeys == [] && rw.header == old(rw.header) && rw.status == None
    ensures var res := HostToDeploymentId(host, settings.hostSuffix, settings.tableName, getItem);
      res.result.Id? ==>
        var key := ConfigKey(paths, settings.siteFolderPrefix, res.result.id);
        var cfg := Classified(getObject(key), decode);
        && |objectKeys| >= 1 && objectKeys[0] == key
        && (!cfg.ConfigOk? ==>
              && outcome == ConfigRejected && objectKeys == [key]
              && rw.header == Replaced(old(rw.header), "Content-Type", JsonContentType)
              && rw.status == Some(StatusInternalServerError))
        && (cfg.ConfigOk? ==> outcome.Routed?)
        && (cfg.ConfigOk? && Match(cfg.config.routes, path, cfg.config.manifest, engine) == NoMatchedRoute ==>
              && outcome == Routed(NoRoute) && objectKeys == [key]
              && rw.status == Some(StatusBadGateway))
        && (cfg.ConfigOk? && Match(cfg.config.routes, path, cfg.config.manifest, engine).Matched? ==>
              objectKeys == [key, ObjectKey(paths, res.result.id,
                                            Match(cfg.config.routes, path, cfg.config.manifest, engine).action.destination)])
  {
    var res := HostToDeploymentId(host, settings.hostSuffix, settings.tableName, getItem);
    lookups := res.lookups;
    objectKeys := [];
    if res.result.IdFailed? {
      rw.Set("Content-Type", JsonContentType);
      rw.WriteHeader(StatusBadGateway);
      return HostRejected, lookups, objectKeys;
    }
    if res.result.NilId? {
      return DeploymentIdPanic, lookups, objectKeys;
    }
    var deploymentId := res.result.id;
    var cfg, key := GetDeploymentConfig(deploymentId, settings.siteFolderPrefix, paths, getObject, decode);
    objectKeys := [key];
    if !cfg.ConfigOk? {
      rw.Set("Content-Type", JsonContentType);
      rw.WriteHeader(StatusInternalServerError);
      return ConfigRejected, lookups, objectKeys;
    }
    var routed, fetched := RouteAndRespond(rw, deploymentId, cfg.config, path, engine, paths, getObject);
    if fetched.Some? {
      objectKeys := objectKeys + [fetched.value];
    }
    outcome := Routed(routed);
  }

  /** A deployment without a configuration document answers every request
      with 502: the default configuration has no manifest. */
  lemma MissingConfigAnswersBadGateway(res: GetObjectOutcome, decode: (string, Config) -> Option<Config>,
                                       path: string, engine: RegexEngine)
    requires res.GetObjectFailed? && res.err == AwsError(NoSuchKey)
    ensures Classified(res, decode) == ConfigOk(DefaultConfig())
    ensures Match(Classified(res, decode).config.routes, path, Classified(res, decode).config.manifest, engine)
            == NoMatchedRoute
  {
    DefaultConfigMatchesNothing(path, engine);
  }
}
