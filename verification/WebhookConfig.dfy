/** The webhook's configuration and the start-up checks of cmd/webhook. */
module WebhookConfig {
  import opened Wrappers
  import ByteSize
  import Validate

  /**
   The fields of Config the mutator reads. `decodeEnv` stands for
   encoding/json decoding an annotation into a string map, None on error.
   */
  datatype Config = Config(
    volumeSizeLimit: int,
    allowedNamespaces: seq<string>,
    initImage: string,
    initImagePullPolicy: string,
    maxSecretSize: string,
    localBasePath: string,
    runAsUser: int,
    runAsGroup: Option<int>,
    fsGroup: int,
    keeperServiceName: string,
    keeperServiceNamespace: string,
    keeperServicePort: string,
    keeperTLSCertPath: string,
    keeperTLSKeyPath: string,
    keeperServerCA: string,
    keeperClientCertSecretName: string,
    keeperClientMaxSecretSize: string,
    allowKeeperSkipVerify: bool,
    decodeEnv: string -> Option<map<string, string>>)

  /** parseMaxSecretSizeEnv: the value unchanged, or None for its errors. */
  function ParseMaxSecretSizeEnv(v: string, volumeLimit: int): Option<string> {
    if v == "" then Some("")
    else
      match ByteSize.Parse(v)
      case Err(_) => None
      case Ok(maxBytes) => if volumeLimit < maxBytes then None else Some(v)
  }

  /**
   What run() has established when it starts serving. CHUR_MAX_SECRET_SIZE
   starts from a non-empty default and is only ever replaced by a non-empty value.
   */
  predicate StartupChecked(cfg: Config) {
    && cfg.maxSecretSize != ""
    && ParseMaxSecretSizeEnv(cfg.maxSecretSize, cfg.volumeSizeLimit).Some?
    && Validate.ValidLocalBasePath(cfg.localBasePath)
  }

  /** A size setting passes the start-up check exactly if it is empty or denotes a size within the volume. */
  lemma StartupSizeIff(v: string, volumeLimit: int)
    ensures ParseMaxSecretSizeEnv(v, volumeLimit) == Some(v) <==>
            || v == ""
            || exists n ::
                 ByteSize.DenotesInBlanks(v, n) && 0 <= n <= 9_223_372_036_854_775_807 && n <= volumeLimit
    ensures ParseMaxSecretSizeEnv(v, volumeLimit) == Some(v) || ParseMaxSecretSizeEnv(v, volumeLimit) == None
  {
    forall n ensures ByteSize.Parse(v) == Ok(n) <==>
                     ByteSize.DenotesInBlanks(v, n) && 0 <= n <= 9_223_372_036_854_775_807
    {
      ByteSize.ParseTextIff(v, n);
    }
  }
}
