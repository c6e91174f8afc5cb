/** Fetching a deployment's routing configuration (getDeploymentConfig).
    service/service.go:110-134 and static_host/static_host.go:79-103 hold
    the same code, and both are modelled here. The object store and the
    JSON decoder are parameters. */
module DeploymentConfig {
  import opened Wrappers
  import opened External
  import opened RouteConfig

  /** How fetching the configuration ended. */
  datatype ConfigResult =
    | ConfigOk(config: Config)
    | S3ServiceError   // "s3 service error"
    | InvalidConfig    // "invalid config, failing"

  /** The configuration used when the document is missing: one filesystem
      rule and no manifest. */
  function DefaultConfig(): Config {
    Config(map[], [Route(Some(true), None, None, None, None)])
  }

  /** The key of the configuration document: prefix/id/.well-known/nullserve.json. */
  function ConfigKey(paths: PathOps, siteFolderPrefix: string, deploymentId: string): string {
    paths.join([siteFolderPrefix, deploymentId, ".well-known", "nullserve.json"])
  }

  /** The classification getDeploymentConfig makes of the store's answer.
      The decoder starts from the default configuration, as the source
      decodes into it. */
  function Classified(res: GetObjectOutcome, decode: (string, Config) -> Option<Config>): ConfigResult {
    match res
    case GetObjectFailed(e) =>
      if e.AwsError? && e.code != NoSuchKey then S3ServiceError else ConfigOk(DefaultConfig())
    case Found(_, body) =>
      match decode(body, DefaultConfig())
      case None => InvalidConfig
      case Some(c) => ConfigOk(c)
  }

  /** getDeploymentConfig: starts from the default configuration and
      overwrites it with the decoded document when there is one. A missing
      document, or an error that is not an AWS error, gives the default;
      any other AWS error fails; a document that does not decode fails; a
      decoded document is returned without being validated. */
  method GetDeploymentConfig(deploymentId: string, siteFolderPrefix: string, paths: PathOps,
                             getObject: string -> GetObjectOutcome,
                             decode: (string, Config) -> Option<Config>)
      returns (r: ConfigResult, key: string)
    ensures key == ConfigKey(paths, siteFolderPrefix, deploymentId)
    ensures r == Classified(getObject(key), decode)
    ensures r == S3ServiceError
        <==> getObject(key).GetObjectFailed? && getObject(key).err.AwsError? && getObject(key).err.code != NoSuchKey
    ensures getObject(key).GetObjectFailed? && r != S3ServiceError ==> r == ConfigOk(DefaultConfig())
    ensures r == InvalidConfig <==> getObject(key).Found? && decode(getObject(key).body, DefaultConfig()).None?
    ensures getObject(key).Found? && decode(getObject(key).body, DefaultConfig()).Some?
        ==> r == ConfigOk(decode(getObject(key).body, DefaultConfig()).value)
  {
    key := ConfigKey(paths, siteFolderPrefix, deploymentId);
    var res := getObject(key);
    var cfg := DefaultConfig();
    if res.GetObjectFailed? {
      if res.err.AwsError? && res.err.code != NoSuchKey {
        return S3ServiceError, key;
      }
    } else {
      var decoded := decode(res.body, cfg);
      if decoded.None? {
        return InvalidConfig, key;
      }
      cfg := decoded.value;
    }
    r := ConfigOk(cfg);
  }

  /** The default configuration passes validation. */
  lemma DefaultConfigIsValid()
    ensures ValidConfig(DefaultConfig())
  {
  }

  /** Having no manifest, the default configuration matches no path at all. */
  lemma DefaultConfigMatchesNothing(path: string, engine: RegexEngine)
    ensures Match(DefaultConfig().routes, path, DefaultConfig().manifest, engine) == NoMatchedRoute
  {
    var routes := DefaultConfig().routes;
    assert routes[1..] == [];
  }
}
