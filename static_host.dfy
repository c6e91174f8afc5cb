/** The request handler of the static_host package
    (static_host/static_host.go): the deployment id is the host name with
    the configured suffix trimmed. Routing itself is handed to a response
    router that is not part of this model. */
module StaticHost {
  import opened Wrappers
  import opened Strings
  import opened External
  import opened Http
  import opened RouteConfig
  import opened DeploymentConfig

  /** hostToDeploymentId: the host minus "." + suffix; None stands for the
      nil id returned with errNoSuchSuffix. No store is consulted. */
  function HostToDeploymentId(host: string, suffix: string): (id: Option<string>)
    ensures id.Some? <==> HasSuffix(host, "." + suffix)
    ensures id.Some? ==> id.value + "." + suffix == host
  {
    if HasSuffix(host, "." + suffix) then Some(TrimSuffix(host, "." + suffix)) else None
  }

  /** Any id under the suffix resolves back to itself. */
  lemma HostRoundTrip(id: string, suffix: string)
    ensures HostToDeploymentId(id + "." + suffix, suffix) == Some(id)
  {
    assert id + "." + suffix == id + ("." + suffix);
    TrimAppended(id, "." + suffix);
  }

  /** The cases of static_host/static_host_internal_test.go. */
  lemma HostTestCases()
    ensures HostToDeploymentId("1234.example.com", "example.com") == Some("1234")
    ensures HostToDeploymentId("1234.duh.com", "example.com") == None
  {
    HostRoundTrip("1234", "example.com");
    assert "1234" + "." + "example.com" == "1234.example.com";
    var host := "1234.duh.com";
    assert host[0] != ("." + "example.com")[0];
  }

  /** The request-level settings the handler reads. */
  datatype Settings = Settings(hostSuffix: string, siteFolderPrefix: string)

  /** How the handler ended: a 502, a 500, or a hand-off to the router with
      the resolved id and configuration. */
  datatype ServeOutcome = HostRejected | ConfigRejected | Routed(deploymentId: string, config: Config)

  /** ServeHTTP: a host error answers 502 before any configuration is
      fetched; a configuration error answers 500; otherwise the request is
      handed on. */
  method ServeHTTP(rw: Response, host: string, settings: Settings, paths: PathOps,
                   getObject: string -> GetObjectOutcome, decode: (string, Config) -> Option<Config>)
      returns (outcome: ServeOutcome, configKey: Option<string>)
    requires rw.status.None?
    modifies rw
    ensures var id := HostToDeploymentId(host, settings.hostSuffix);
      id.None? ==>
        && outcome == HostRejected && configKey == None
        && rw.header == Replaced(old(rw.header), "Content-Type", JsonContentType)
        && rw.status == Some(StatusBadGateway)
    ensures var id := HostToDeploymentId(host, settings.hostSuffix);
      id.Some? ==>
        var key := ConfigKey(paths, settings.siteFolderPrefix, id.value);
        && configKey == Some(key)
        && (Classified(getObject(key), decode).ConfigOk? ==>
              outcome == Routed(id.value, Classified(getObject(key), decode).config)
              && rw.header == old(rw.header) && rw.status == None)
        && (!Classified(getObject(key), decode).ConfigOk? ==>
              outcome == ConfigRejected
              && rw.header == Replaced(old(rw.header), "Content-Type", JsonContentType)
              && rw.status == Some(StatusInternalServerError))
  {
    var deploymentId := HostToDeploymentId(host, settings.hostSuffix);
    if deploymentId.None? {
      rw.Set("Content-Type", JsonContentType);
      rw.WriteHeader(StatusBadGateway);
      return HostRejected, None;
    }
    var cfg, key := GetDeploymentConfig(deploymentId.value, settings.siteFolderPrefix, paths, getObject, decode);
    configKey := Some(key);
    if !cfg.ConfigOk? {
      rw.Set("Content-Type", JsonContentType);
      rw.WriteHeader(StatusInternalServerError);
      return ConfigRejected, configKey;
    }
    outcome := Routed(deploymentId.value, cfg.config);
  }
}
