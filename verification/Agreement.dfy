/**
 Agreement between admission and chur-init: the environment the webhook writes
 into the pod is read back by another program, with the same validators.
 */
module Agreement {
  import opened Injection
  import opened JsonPatch
  import opened Mutator
  import opened Pods
  import opened ProviderEnv
  import opened Reinvocation
  import opened Text
  import opened Urls
  import opened Validate
  import opened WebhookConfig
  import opened Wrappers
  import ByteSize

  // ---- cmd/init: what it reads and checks ---------------------------------------

  /** os.Getenv in a container started with this list; the last entry of a name counts. */
  function Getenv(env: seq<EnvVar>, name: string): string {
    if env == [] then ""
    else
      var last := env[|env| - 1];
      if last.name == name then last.value else Getenv(env[..|env| - 1], name)
  }

  function Default(value: string, default: string): string {
    if value == "" then default else value
  }

  datatype Settings = Settings(provider: string, ref: string, mountPath: string, maxBytes: int)

  datatype InitError = RefRequired | InvalidRef | InvalidMaxSize | InvalidMountPath

  /** The configuration part of chur-init's main, with its defaults. */
  function ReadSettings(env: seq<EnvVar>): Result<Settings, InitError> {
    var provider := Default(Getenv(env, "CHUR_PROVIDER"), "env");
    var ref := Getenv(env, "CHUR_SECRET_REF");
    var mountPath := Default(Getenv(env, "CHUR_MOUNT_PATH"), "/secrets");
    if ref == "" then Err(RefRequired)
    else if !ValidRefFor(provider, ref) then Err(InvalidRef)
    else
      match ByteSize.Parse(Default(Getenv(env, "CHUR_MAX_SECRET_SIZE"), "1Mi"))
      case Err(_) => Err(InvalidMaxSize)
      case Ok(maxBytes) =>
        if !ValidMountPath(mountPath) then Err(InvalidMountPath)
        else Ok(Settings(provider, ref, mountPath, maxBytes))
  }

  /** The checks the local provider's factory makes on its environment. */
  predicate LocalFactoryAccepts(env: seq<EnvVar>) {
    var v := Getenv(env, "CHUR_MAX_SECRET_SIZE");
    && ValidLocalBasePath(Default(Getenv(env, "CHUR_LOCAL_BASE_PATH"), "/etc/chur/secrets"))
    && (v == "" || ByteSize.Parse(v).Ok?)
  }

  /** What only the init container's machine can tell: which files load, and the IPv6 grammar of its net/netip. */
  datatype Machine = Machine(
    caLoads: string -> bool, keyPairLoads: (string, string) -> bool, isIPv6: (string, string) -> bool)

  const DEFAULT_URL := "https://chur-keeper.chur-system.svc:9443"

  /** What the keeper provider's factory reads. */
  datatype KeeperSettings = KeeperSettings(
    url: string, skipVerify: bool, cert: string, key: string, ca: string, maxSize: string)

  function ReadKeeperSettings(env: seq<EnvVar>): KeeperSettings {
    KeeperSettings(
      Default(Getenv(env, "CHUR_KEEPER_URL"), DEFAULT_URL),
      Getenv(env, "CHUR_KEEPER_INSECURE_SKIP_VERIFY") in {"1", "true"},
      Getenv(env, "CHUR_KEEPER_TLS_CERT_PATH"), Getenv(env, "CHUR_KEEPER_TLS_KEY_PATH"),
      Getenv(env, "CHUR_KEEPER_SERVER_CA"), Getenv(env, "CHUR_KEEPER_CLIENT_MAX_SECRET_SIZE"))
  }

  /** No step of the factory fails. */
  predicate FactoryStarts(k: KeeperSettings, m: Machine) {
    && !(k.skipVerify && k.ca != "")
    && (k.ca == "" || m.caLoads(k.ca))
    && (k.cert == "" || k.key == "" || m.keyPairLoads(k.cert, k.key))
    && UrlParses(k.url, m.isIPv6)
    && (k.maxSize == "" || ByteSize.Parse(k.maxSize).Ok?)
  }

  predicate KeeperFactoryAccepts(env: seq<EnvVar>, m: Machine) {
    FactoryStarts(ReadKeeperSettings(env), m)
  }

  // ---- The environment as it stands in the document ------------------------------

  function DecodeEnvVar(j: Json): EnvVar {
    EnvVar(AsText(Field(j, "name")), AsText(Field(j, "value")))
  }

  function ContainerEnv(c: Json): seq<EnvVar> {
    var es := Elems(Field(c, "env"));
    seq(|es|, i requires 0 <= i < |es| => DecodeEnvVar(es[i]))
  }

  lemma EnvRoundTrip(e: EnvVar)
    ensures DecodeEnvVar(EnvJson(e)) == e
  {
  }

  lemma ContainerEnvRoundTrip(c: InitContainer)
    ensures ContainerEnv(ContainerJson(c)) == c.env
  {
    forall i | 0 <= i < |c.env| ensures ContainerEnv(ContainerJson(c))[i] == c.env[i] {
      EnvRoundTrip(c.env[i]);
    }
  }

  // ---- Distinct names ----------------------------------------------------------------

  /** The names are pairwise distinct and all among `names`. */
  ghost predicate NamesWithin(env: seq<EnvVar>, names: set<string>) {
    DistinctNames(env) && forall e | e in env :: e.name in names
  }

  lemma AppendWithin(env: seq<EnvVar>, names: set<string>, present: bool, name: string, value: string)
    requires NamesWithin(env, names) && name !in names
    ensures NamesWithin(env + When(present, name, value), names + {name})
  {
    assert forall i | 0 <= i < |env| :: env[i] in env;
  }

  lemma ConcatWithin(a: seq<EnvVar>, b: seq<EnvVar>, aNames: set<string>, bNames: set<string>)
    requires NamesWithin(a, aNames) && NamesWithin(b, bNames) && aNames !! bNames
    ensures NamesWithin(a + b, aNames + bNames)
  {
    assert forall i | 0 <= i < |a| :: a[i] in a;
    assert forall i | 0 <= i < |b| :: b[i] in b;
  }

  const BASE_NAMES: set<string> :=
    {"CHUR_PROVIDER", "CHUR_SECRET_REF", "CHUR_MOUNT_PATH", "CHUR_MAX_SECRET_SIZE", "CHUR_LOCAL_BASE_PATH"}

  const KEEPER_NAMES: set<string> := NamesOf(KEEPER_VARS)

  function NamesOf(k: KeeperVars): set<string> {
    {k.url, k.cert, k.key, k.ca, k.maxSize, k.skip}
  }

  predicate DistinctVars(k: KeeperVars) {
    && k.url !in {k.cert, k.key, k.ca, k.maxSize, k.skip} && k.cert !in {k.key, k.ca, k.maxSize, k.skip}
    && k.key !in {k.ca, k.maxSize, k.skip} && k.ca !in {k.maxSize, k.skip} && k.maxSize != k.skip
  }

  /** Their lengths alone tell them apart. */
  lemma KeeperVarsDistinct()
    ensures DistinctVars(KEEPER_VARS)
  {
    var k := KEEPER_VARS;
    assert |k.url| == 15 && |k.cert| == 25 && |k.key| == 24 && |k.ca| == 21 && |k.maxSize| == 34 && |k.skip| == 32;
  }

  lemma IdentityWithin(k: KeeperVars, cfg: Config)
    requires DistinctVars(k)
    ensures NamesWithin(KeeperIdentity(k, cfg), {k.url, k.cert, k.key})
  {
    var e1 := When(cfg.keeperServiceName != "", k.url, KeeperURL(cfg));
    var e2 := e1 + When(cfg.keeperTLSCertPath != "", k.cert, cfg.keeperTLSCertPath);
    AppendWithin(e1, {k.url}, cfg.keeperTLSCertPath != "", k.cert, cfg.keeperTLSCertPath);
    AppendWithin(e2, {k.url, k.cert}, cfg.keeperTLSKeyPath != "", k.key, cfg.keeperTLSKeyPath);
  }

  lemma OptionsWithin(k: KeeperVars, cfg: Config)
    requires DistinctVars(k)
    ensures NamesWithin(KeeperIdentity(k, cfg) + When(cfg.keeperServerCA != "", k.ca, cfg.keeperServerCA) +
                        When(cfg.keeperClientMaxSecretSize != "", k.maxSize, cfg.keeperClientMaxSecretSize),
                        {k.url, k.cert, k.key, k.ca, k.maxSize})
  {
    var e3 := KeeperIdentity(k, cfg);
    var e4 := e3 + When(cfg.keeperServerCA != "", k.ca, cfg.keeperServerCA);
    IdentityWithin(k, cfg);
    AppendWithin(e3, {k.url, k.cert, k.key}, cfg.keeperServerCA != "", k.ca, cfg.keeperServerCA);
    AppendWithin(e4, {k.url, k.cert, k.key, k.ca},
                 cfg.keeperClientMaxSecretSize != "", k.maxSize, cfg.keeperClientMaxSecretSize);
  }

  lemma KeeperNamesWithin(k: KeeperVars, cfg: Config, pod: Pod)
    requires DistinctVars(k)
    ensures NamesWithin(KeeperEnvAs(k, cfg, pod), NamesOf(k))
  {
    var e3 := KeeperIdentity(k, cfg);
    var e5 := e3 + When(cfg.keeperServerCA != "", k.ca, cfg.keeperServerCA) +
              When(cfg.keeperClientMaxSecretSize != "", k.maxSize, cfg.keeperClientMaxSecretSize);
    OptionsWithin(k, cfg);
    AppendWithin(e5, {k.url, k.cert, k.key, k.ca, k.maxSize}, SkipVerify(pod), k.skip, "1");
  }

  /** Of the managed names only the keeper's have a 'K' there. */
  lemma NamesApart()
    ensures (BASE_NAMES + {"CHUR_SECRET_KEY"}) !! KEEPER_NAMES
  {
    assert forall n | n in KEEPER_NAMES :: n[5] == 'K';
    assert forall n | n in BASE_NAMES + {"CHUR_SECRET_KEY"} :: |n| > 5 && n[5] != 'K';
  }

  lemma ManagedNamesWithin(cfg: Config, provider: string, ref: string, key: string, mountPath: string, pod: Pod)
    ensures NamesWithin(ManagedEnv(cfg, provider, ref, key, mountPath, pod), RESERVED)
  {
    var base := BaseEnv(cfg, provider, ref, mountPath);
    assert NamesWithin(base, BASE_NAMES);
    AppendWithin(base, BASE_NAMES, key != "", "CHUR_SECRET_KEY", key);
    KeeperVarsDistinct();
    KeeperNamesWithin(KEEPER_VARS, cfg, pod);
    NamesApart();
    var first := base + When(key != "", "CHUR_SECRET_KEY", key);
    if provider == "keeper" {
      ConcatWithin(first, KeeperEnv(cfg, pod), BASE_NAMES + {"CHUR_SECRET_KEY"}, KEEPER_NAMES);
    } else {
      assert first + [] == first;
    }
  }

  lemma ExtraNamesOutside(cfg: Config, pod: Pod)
    requires ExtraEnv(cfg, pod).Some?
    ensures DistinctNames(ExtraEnv(cfg, pod).value)
    ensures forall e | e in ExtraEnv(cfg, pod).value ::
              e.name !in RESERVED && ValidKey(e.name) && ByteLen(e.value) <= 4096
  {
    var envs := ExtraEnv(cfg, pod).value;
    forall i, j | 0 <= i < j < |envs| ensures envs[i].name != envs[j].name {
      LessTrichotomy(envs[i].name, envs[j].name);
    }
  }

  /**
   The generated environment has pairwise distinct names, and an annotation
   entry never has the name of a variable the webhook manages.
   */
  lemma EnvNamesDistinct(pod: Pod, cfg: Config)
    requires Admit(pod, cfg).Accept?
    ensures DistinctNames(Admit(pod, cfg).req.env)
    ensures var req := Admit(pod, cfg).req;
            var managed := ManagedEnv(cfg, req.provider, req.ref, req.key, req.mountPath, pod);
            && managed <= req.env
            && (forall e | e in managed :: e.name in RESERVED)
            && (forall e | e in req.env[|managed|..] :: e.name !in RESERVED && ValidKey(e.name))
  {
    AcceptedRequest(pod, cfg);
    var req := Admit(pod, cfg).req;
    var managed := ManagedEnv(cfg, req.provider, req.ref, req.key, req.mountPath, pod);
    var extra := ExtraEnv(cfg, pod).value;
    ManagedNamesWithin(cfg, req.provider, req.ref, req.key, req.mountPath, pod);
    ExtraNamesOutside(cfg, pod);
    assert req.env == managed + extra && req.env[|managed|..] == extra;
    ConcatWithin(managed, extra, RESERVED, set e | e in extra :: e.name);
  }

  // ---- Reading the environment back ------------------------------------------------

  lemma GetenvWhen(env: seq<EnvVar>, present: bool, name: string, value: string, n: string)
    ensures Getenv(env + When(present, name, value), n) == if present && name == n then value else Getenv(env, n)
  {
    if present {
      var whole := env + [EnvVar(name, value)];
      assert whole[..|whole| - 1] == env;
    } else {
      assert env + [] == env;
    }
  }

  lemma {:induction false} GetenvSkips(a: seq<EnvVar>, b: seq<EnvVar>, n: string)
    requires forall e | e in b :: e.name != n
    ensures Getenv(a + b, n) == Getenv(a, n)
    decreases |b|
  {
    if b == [] {
      assert a + b == a;
    } else {
      var whole := a + b;
      assert whole[|whole| - 1] == b[|b| - 1] && b[|b| - 1] in b;
      assert whole[..|whole| - 1] == a + b[..|b| - 1];
      GetenvSkips(a, b[..|b| - 1], n);
    }
  }

  lemma {:induction false} GetenvFinds(env: seq<EnvVar>, e: EnvVar)
    requires DistinctNames(env) && e in env
    ensures Getenv(env, e.name) == e.value
  {
    var last := env[|env| - 1];
    if last != e {
      assert env == env[..|env| - 1] + [last];
      GetenvFinds(env[..|env| - 1], e);
    }
  }

  function IdentityValue(k: KeeperVars, cfg: Config, n: string): string {
    if cfg.keeperTLSKeyPath != "" && k.key == n then cfg.keeperTLSKeyPath
    else if cfg.keeperTLSCertPath != "" && k.cert == n then cfg.keeperTLSCertPath
    else if cfg.keeperServiceName != "" && k.url == n then KeeperURL(cfg)
    else ""
  }

  lemma IdentityLookup(k: KeeperVars, cfg: Config, n: string)
    ensures Getenv(KeeperIdentity(k, cfg), n) == IdentityValue(k, cfg, n)
  {
    var e1 := When(cfg.keeperServiceName != "", k.url, KeeperURL(cfg));
    var e2 := e1 + When(cfg.keeperTLSCertPath != "", k.cert, cfg.keeperTLSCertPath);
    assert [] + e1 == e1;
    GetenvWhen([], cfg.keeperServiceName != "", k.url, KeeperURL(cfg), n);
    GetenvWhen(e1, cfg.keeperTLSCertPath != "", k.cert, cfg.keeperTLSCertPath, n);
    GetenvWhen(e2, cfg.keeperTLSKeyPath != "", k.key, cfg.keeperTLSKeyPath, n);
  }

  /** The value of any name, the later entries first. */
  lemma KeeperLookup(k: KeeperVars, cfg: Config, pod: Pod, n: string)
    ensures Getenv(KeeperEnvAs(k, cfg, pod), n) ==
            if SkipVerify(pod) && k.skip == n then "1"
            else if cfg.keeperClientMaxSecretSize != "" && k.maxSize == n then cfg.keeperClientMaxSecretSize
            else if cfg.keeperServerCA != "" && k.ca == n then cfg.keeperServerCA
            else IdentityValue(k, cfg, n)
  {
    var e3 := KeeperIdentity(k, cfg);
    var e4 := e3 + When(cfg.keeperServerCA != "", k.ca, cfg.keeperServerCA);
    var e5 := e4 + When(cfg.keeperClientMaxSecretSize != "", k.maxSize, cfg.keeperClientMaxSecretSize);
    IdentityLookup(k, cfg, n);
    GetenvWhen(e3, cfg.keeperServerCA != "", k.ca, cfg.keeperServerCA, n);
    GetenvWhen(e4, cfg.keeperClientMaxSecretSize != "", k.maxSize, cfg.keeperClientMaxSecretSize, n);
    GetenvWhen(e5, SkipVerify(pod), k.skip, "1", n);
  }

  lemma IdentityLookups(k: KeeperVars, cfg: Config, pod: Pod)
    requires DistinctVars(k)
    ensures var env := KeeperEnvAs(k, cfg, pod);
            && Getenv(env, k.url) == (if cfg.keeperServiceName != "" then KeeperURL(cfg) else "")
            && Getenv(env, k.cert) == cfg.keeperTLSCertPath && Getenv(env, k.key) == cfg.keeperTLSKeyPath
  {
    KeeperLookup(k, cfg, pod, k.url);
    KeeperLookup(k, cfg, pod, k.cert);
    KeeperLookup(k, cfg, pod, k.key);
  }

  lemma OptionLookups(k: KeeperVars, cfg: Config, pod: Pod)
    requires DistinctVars(k)
    ensures var env := KeeperEnvAs(k, cfg, pod);
            && Getenv(env, k.ca) == cfg.keeperServerCA && Getenv(env, k.maxSize) == cfg.keeperClientMaxSecretSize
            && Getenv(env, k.skip) == (if SkipVerify(pod) then "1" else "")
  {
    KeeperLookup(k, cfg, pod, k.ca);
    KeeperLookup(k, cfg, pod, k.maxSize);
    KeeperLookup(k, cfg, pod, k.skip);
  }

  /** The five variables every init container gets, read back from the accepted request's environment. */
  lemma BaseLookups(pod: Pod, cfg: Config)
    requires Admit(pod, cfg).Accept?
    ensures var req := Admit(pod, cfg).req;
            && Getenv(req.env, "CHUR_PROVIDER") == req.provider
            && Getenv(req.env, "CHUR_SECRET_REF") == req.ref
            && Getenv(req.env, "CHUR_MOUNT_PATH") == req.mountPath
            && Getenv(req.env, "CHUR_MAX_SECRET_SIZE") == cfg.maxSecretSize
            && Getenv(req.env, "CHUR_LOCAL_BASE_PATH") == cfg.localBasePath
  {
    EnvNamesDistinct(pod, cfg);
    var req := Admit(pod, cfg).req;
    var base := BaseEnv(cfg, req.provider, req.ref, req.mountPath);
    assert base <= req.env;
    forall i | 0 <= i < 5 ensures Getenv(req.env, base[i].name) == base[i].value {
      assert req.env[i] in req.env;
      GetenvFinds(req.env, base[i]);
    }
    assert base[0].value == req.provider && base[1].value == req.ref && base[2].value == req.mountPath;
    assert base[3].value == cfg.maxSecretSize && base[4].value == cfg.localBasePath;
  }

  // ---- Agreement ------------------------------------------------------------------------

  /** chur-init starts from this environment with exactly what the pod's annotations asked for. */
  ghost predicate ReadsBack(env: seq<EnvVar>, pod: Pod, cfg: Config) {
    match ReadSettings(env)
    case Err(_) => false
    case Ok(s) =>
      && s.provider == Annotation(pod, "chur.io/provider")
      && s.ref == Annotation(pod, "chur.io/secret-ref")
      && s.mountPath == MountPathOf(pod)
      && 0 <= s.maxBytes <= cfg.volumeSizeLimit
  }

  /**
   What admission accepts, chur-init accepts: from the environment it reads
   back the provider, ref and mount path of the annotations, all its checks
   pass, and its size limit fits the volume.
   */
  lemma InitAcceptsRequest(pod: Pod, cfg: Config)
    requires StartupChecked(cfg) && Admit(pod, cfg).Accept?
    ensures ReadsBack(Admit(pod, cfg).req.env, pod, cfg)
    ensures Admit(pod, cfg).req.provider == "local" ==> LocalFactoryAccepts(Admit(pod, cfg).req.env)
  {
    AcceptedRequest(pod, cfg);
    BaseLookups(pod, cfg);
    ByteSize.ParseIff(cfg.maxSecretSize, ByteSize.Parse(cfg.maxSecretSize).value);
  }

  /** The same from the patched document itself, for every pod that gets a new init container. */
  lemma InitAcceptsDocument(doc: Json, cfg: Config)
    requires StartupChecked(cfg) && IsPodDocument(doc) && Admit(Decode(doc), cfg).Accept?
    requires !Named(List(SpecOf(doc), "initContainers"), INIT_NAME)
    ensures var req := Admit(Decode(doc), cfg).req;
            var next := Patch(doc, cfg, req);
            && ApplyAll(doc, Ops(Decode(doc), cfg, req)) == Some(next)
            && IsPodDocument(next)
            && List(SpecOf(next), "initContainers") == List(SpecOf(doc), "initContainers") + [InitJson(cfg, req)]
            && ReadsBack(ContainerEnv(InitJson(cfg, req)), Decode(doc), cfg)
  {
    var req := Admit(Decode(doc), cfg).req;
    PatchApplies(doc, cfg, req);
    PatchedDocument(doc, cfg, req);
    KeysDistinct();
    SpecWithMembers(SpecOf(doc), KEYS, cfg, req, AddedVolumes(VolumesOf(doc), cfg, req.provider));
    ContainerEnvRoundTrip(InitContainerFor(cfg, req));
    InitAcceptsRequest(Decode(doc), cfg);
  }

  /**
   Where admission and chur-init do not agree: beside the files it needs, the
   keeper client asks for three things admission never checked. Skip-verify and
   a server CA must not meet, the service's address must parse, and so must the
   client's size limit.
   */
  lemma KeeperAcceptsIff(pod: Pod, cfg: Config, m: Machine)
    requires Admit(pod, cfg).Accept? && Admit(pod, cfg).req.provider == "keeper"
    ensures KeeperFactoryAccepts(Admit(pod, cfg).req.env, m) <==>
            && !(SkipVerify(pod) && cfg.keeperServerCA != "")
            && (cfg.keeperServerCA == "" || m.caLoads(cfg.keeperServerCA))
            && (cfg.keeperTLSCertPath == "" || cfg.keeperTLSKeyPath == "" ||
                m.keyPairLoads(cfg.keeperTLSCertPath, cfg.keeperTLSKeyPath))
            && (cfg.keeperServiceName == "" || UrlParses(KeeperURL(cfg), m.isIPv6))
            && (cfg.keeperClientMaxSecretSize == "" || ByteSize.Parse(cfg.keeperClientMaxSecretSize).Ok?)
  {
    KeeperSettingsReadBack(pod, cfg);
    if cfg.keeperServiceName == "" {
      DefaultUrlParses(DEFAULT_URL, m.isIPv6);
    }
  }

  /** The keeper client reads back the webhook's configuration, and the annotation's skip-verify. */
  lemma KeeperSettingsReadBack(pod: Pod, cfg: Config)
    requires Admit(pod, cfg).Accept? && Admit(pod, cfg).req.provider == "keeper"
    ensures ReadKeeperSettings(Admit(pod, cfg).req.env) ==
            KeeperSettings(if cfg.keeperServiceName == "" then DEFAULT_URL else KeeperURL(cfg), SkipVerify(pod),
                           cfg.keeperTLSCertPath, cfg.keeperTLSKeyPath, cfg.keeperServerCA,
                           cfg.keeperClientMaxSecretSize)
  {
    KeeperVarsDistinct();
    IdentityLookups(KEEPER_VARS, cfg, pod);
    OptionLookups(KEEPER_VARS, cfg, pod);
    forall n | n in KEEPER_NAMES ensures Getenv(Admit(pod, cfg).req.env, n) == Getenv(KeeperEnv(cfg, pod), n) {
      KeeperVariable(pod, cfg, n);
    }
    assert |KeeperURL(cfg)| >= 8;
  }

  /**
   When the written address parses: for a service without ':', exactly when the
   port is digits and the names hold no '[' and no character a host may not hold.
   */
  lemma ServiceUrlParsesIff(cfg: Config, isIPv6: (string, string) -> bool)
    requires ':' !in cfg.keeperServiceName && ':' !in cfg.keeperServiceNamespace
    ensures UrlParses(KeeperURL(cfg), isIPv6) <==>
            && AllDigits(cfg.keeperServicePort)
            && forall c | c in cfg.keeperServiceName || c in cfg.keeperServiceNamespace :: c != '[' && !Unwritable(c)
  {
    var host := KeeperHost(cfg);
    assert host[|host| - 4] == '.';
    NamedHostParsesIff(host, cfg.keeperServicePort, isIPv6);
    forall c | c in ".svc" ensures c != ':' && c != '[' && Survives(c) {
    }
    forall c ensures c in host <==> c in cfg.keeperServiceName || c in cfg.keeperServiceNamespace || c in ".svc" {
    }
    forall c | c in host ensures Survives(c) <==> !Unwritable(c) {
      SurvivesIff(c);
    }
  }

  lemma DefaultUrlParses(url: string, isIPv6: (string, string) -> bool)
    requires url == DEFAULT_URL
    ensures UrlParses(url, isIPv6)
  {
    var host, port := "chur-keeper.chur-system.svc", "9443";
    DefaultHost(host);
    DefaultParts(url, host, port);
    OrdinaryUrlParses(host, port, isIPv6);
  }

  lemma DefaultHost(host: string)
    requires host == "chur-keeper.chur-system.svc"
    ensures (forall c | c in host :: IsLetter(c) || IsDigit(c) || c == '-' || c == '.') && '.' in host
  {
    assert host[11] == '.';
  }

  lemma DefaultParts(url: string, host: string, port: string)
    requires url == DEFAULT_URL && host == "chur-keeper.chur-system.svc" && port == "9443"
    ensures url == "https://" + (host + ":" + port) && AllDigits(port)
  {
  }

  lemma KeeperVariable(pod: Pod, cfg: Config, n: string)
    requires Admit(pod, cfg).Accept? && Admit(pod, cfg).req.provider == "keeper"
    requires n in KEEPER_NAMES
    ensures Getenv(Admit(pod, cfg).req.env, n) == Getenv(KeeperEnv(cfg, pod), n)
  {
    EnvNamesDistinct(pod, cfg);
    KeeperNamesReserved();
    var req := Admit(pod, cfg).req;
    var managed := ManagedEnv(cfg, req.provider, req.ref, req.key, req.mountPath, pod);
    FirstNotKeeper(cfg, req, n);
    LookupMiddle(BaseEnv(cfg, req.provider, req.ref, req.mountPath) + When(req.key != "", "CHUR_SECRET_KEY", req.key),
                 KeeperEnv(cfg, pod), req.env[|managed|..], n);
    SplitAtPrefix(managed, req.env);
  }

  lemma SplitAtPrefix(p: seq<EnvVar>, s: seq<EnvVar>)
    requires p <= s
    ensures s == p + s[|p|..]
  {
  }

  lemma LookupMiddle(a: seq<EnvVar>, b: seq<EnvVar>, c: seq<EnvVar>, n: string)
    requires (forall e | e in a :: e.name != n) && (forall e | e in c :: e.name != n)
    ensures Getenv(a + b + c, n) == Getenv(b, n)
  {
    GetenvSkips(a + b, c, n);
    GetenvAfter(a, b, n);
  }

  lemma KeeperNamesReserved()
    ensures KEEPER_NAMES <= RESERVED
  {
  }

  lemma FirstNotKeeper(cfg: Config, req: Request, n: string)
    requires n in KEEPER_NAMES
    ensures forall e | e in BaseEnv(cfg, req.provider, req.ref, req.mountPath) +
                            When(req.key != "", "CHUR_SECRET_KEY", req.key) :: e.name != n
  {
    assert n[5] == 'K';
  }

  lemma {:induction false} GetenvAfter(a: seq<EnvVar>, b: seq<EnvVar>, n: string)
    requires forall e | e in a :: e.name != n
    ensures Getenv(a + b, n) == Getenv(b, n)
    decreases |b|
  {
    var whole := a + b;
    if b == [] {
      assert a + b == [] + a;
      GetenvSkips([], a, n);
    } else {
      assert whole[..|whole| - 1] == a + b[..|b| - 1];
      GetenvAfter(a, b[..|b| - 1], n);
    }
  }

  // ---- The disagreement is real ------------------------------------------------------

  /** Admission accepts this pod, and its init container can never start its provider. */
  lemma SkipVerifyWithServerCA(pod: Pod, cfg: Config, m: Machine)
    requires cfg.allowedNamespaces == [] && cfg.allowKeeperSkipVerify && cfg.keeperServerCA != ""
    requires pod.annotations ==
             map["chur.io/provider" := "keeper", "chur.io/secret-ref" := "a", "chur.io/keeper-skip-verify" := "1"]
    ensures Admit(pod, cfg).Accept? && !KeeperFactoryAccepts(Admit(pod, cfg).req.env, m)
  {
    ExampleAnnotations(pod);
    ExampleAccepted(pod, cfg);
    AcceptedRequest(pod, cfg);
    KeeperAcceptsIff(pod, cfg, m);
  }

  /** The same for a service port that is no number: no start-up check looks at it. */
  lemma PortIsNotChecked(pod: Pod, cfg: Config, m: Machine)
    requires cfg.allowedNamespaces == []
    requires cfg.keeperServiceName == "k" && cfg.keeperServiceNamespace == "chur-system" && cfg.keeperServicePort == "x"
    requires pod.annotations == map["chur.io/provider" := "keeper", "chur.io/secret-ref" := "a"]
    ensures Admit(pod, cfg).Accept? && !KeeperFactoryAccepts(Admit(pod, cfg).req.env, m)
  {
    PlainAnnotations(pod);
    ExampleAccepted(pod, cfg);
    AcceptedRequest(pod, cfg);
    assert cfg.keeperServicePort[0] in cfg.keeperServicePort;
    ServiceUrlParsesIff(cfg, m.isIPv6);
    KeeperAcceptsIff(pod, cfg, m);
  }

  lemma ExampleAccepted(pod: Pod, cfg: Config)
    requires cfg.allowedNamespaces == []
    requires "chur.io/provider" in pod.annotations && Annotation(pod, "chur.io/provider") == "keeper"
    requires Annotation(pod, "chur.io/secret-ref") == "a" && Annotation(pod, "chur.io/secret-key") == ""
    requires Annotation(pod, "chur.io/mount-path") == "" && Annotation(pod, "chur.io/provider-env") == ""
    requires SkipVerify(pod) ==> cfg.allowKeeperSkipVerify
    ensures Admit(pod, cfg).Accept? && Admit(pod, cfg).req.provider == "keeper"
  {
    DefaultMountPathValid();
    ShortKeeperRef("a");
    assert ExtraEnv(cfg, pod) == Some([]);
  }

  lemma ExampleAnnotations(pod: Pod)
    requires pod.annotations ==
             map["chur.io/provider" := "keeper", "chur.io/secret-ref" := "a", "chur.io/keeper-skip-verify" := "1"]
    ensures Annotation(pod, "chur.io/provider") == "keeper" && "chur.io/provider" in pod.annotations
    ensures Annotation(pod, "chur.io/secret-ref") == "a" && Annotation(pod, "chur.io/secret-key") == ""
    ensures Annotation(pod, "chur.io/mount-path") == "" && Annotation(pod, "chur.io/provider-env") == ""
    ensures SkipVerify(pod)
  {
    AnnotationKeysDistinct();
  }

  lemma PlainAnnotations(pod: Pod)
    requires pod.annotations == map["chur.io/provider" := "keeper", "chur.io/secret-ref" := "a"]
    ensures Annotation(pod, "chur.io/provider") == "keeper" && "chur.io/provider" in pod.annotations
    ensures Annotation(pod, "chur.io/secret-ref") == "a" && Annotation(pod, "chur.io/secret-key") == ""
    ensures Annotation(pod, "chur.io/mount-path") == "" && Annotation(pod, "chur.io/provider-env") == ""
    ensures !SkipVerify(pod)
  {
    AnnotationKeysDistinct();
  }

  lemma AnnotationKeysDistinct()
    ensures var p, r, s := "chur.io/provider", "chur.io/secret-ref", "chur.io/keeper-skip-verify";
            var k, m, e := "chur.io/secret-key", "chur.io/mount-path", "chur.io/provider-env";
            && |p| == 16 && |r| == 18 && |s| == 26 && |k| == 18 && |m| == 18 && |e| == 20
            && r[15] == 'r' && k[15] == 'k' && m[8] == 'm' && r[8] == 's'
  {
  }
}
