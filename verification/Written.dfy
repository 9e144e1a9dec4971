/**
 What admission accepts and what it writes into the pod, in the texts and
 values themselves: no name of the model stands for a value here.
 */
module Written {
  import opened Agreement
  import opened Injection
  import opened JsonPatch
  import opened Languages
  import opened Mutator
  import opened Pods
  import opened ProviderEnv
  import opened Reinvocation
  import opened Text
  import opened Validate
  import opened WebhookConfig
  import opened Wrappers
  import ByteSize
  import Urls

  // ---- The decision --------------------------------------------------------------------

  ghost predicate RefText(provider: string, ref: string) {
    if provider == "keeper" then KeeperRefText(ref) else FlatRefText(ref)
  }

  lemma RefIff(provider: string, ref: string)
    ensures ValidRefFor(provider, ref) <==> RefText(provider, ref)
  {
    KeeperRefIff(ref);
    FlatRefIff(ref);
  }

  predicate InNamespace(pod: Pod, cfg: Config) {
    cfg.allowedNamespaces == [] || pod.namespace in cfg.allowedNamespaces
  }

  predicate KnownProvider(provider: string) {
    provider == "env" || provider == "local" || provider == "k8s" || provider == "keeper"
  }

  /** The pod asks a keeper to be trusted unverified. */
  predicate AsksSkip(pod: Pod) {
    var v := Annotation(pod, "chur.io/keeper-skip-verify");
    Annotation(pod, "chur.io/provider") == "keeper" && (v == "1" || v == "true")
  }

  ghost predicate ProviderEnvText(pod: Pod, cfg: Config) {
    var text := Annotation(pod, "chur.io/provider-env");
    text == "" || (cfg.decodeEnv(text).Some? && ExtraText(cfg.decodeEnv(text).value))
  }

  /** Which pods are accepted, in terms of the texts of their annotations. */
  lemma AcceptedIff(pod: Pod, cfg: Config)
    ensures Admit(pod, cfg).Accept? <==>
            && InNamespace(pod, cfg)
            && KnownProvider(Annotation(pod, "chur.io/provider"))
            && RefText(Annotation(pod, "chur.io/provider"), Annotation(pod, "chur.io/secret-ref"))
            && SecretKeyText(Annotation(pod, "chur.io/secret-key"))
            && MountPathText(Annotation(pod, "chur.io/mount-path"))
            && (AsksSkip(pod) ==> cfg.allowKeeperSkipVerify)
            && ProviderEnvText(pod, cfg)
  {
    var text := Annotation(pod, "chur.io/provider-env");
    DecisionIff(pod, cfg);
    RefIff(Annotation(pod, "chur.io/provider"), Annotation(pod, "chur.io/secret-ref"));
    SecretKeyIff(Annotation(pod, "chur.io/secret-key"));
    MountAnnotation(pod);
    if cfg.decodeEnv(text).Some? {
      ExtraIff(cfg.decodeEnv(text).value);
    }
  }

  lemma MountAnnotation(pod: Pod)
    ensures ValidMountPath(MountPathOf(pod)) <==> MountPathText(Annotation(pod, "chur.io/mount-path"))
  {
    MountPathIff(Annotation(pod, "chur.io/mount-path"));
    DefaultMountPathValid();
  }

  /** Why a pod is refused: the first of these that fails. */
  lemma RefusedBecause(pod: Pod, cfg: Config)
    requires Admit(pod, cfg).Reject?
    ensures var provider, ref := Annotation(pod, "chur.io/provider"), Annotation(pod, "chur.io/secret-ref");
            var known := KnownProvider(provider);
            var named := known && RefText(provider, ref) && SecretKeyText(Annotation(pod, "chur.io/secret-key"));
            var placed := named && MountPathText(Annotation(pod, "chur.io/mount-path"));
            match Admit(pod, cfg).why
            case EmptyProvider => provider == ""
            case UnknownProvider => provider != "" && !known
            case BadSecretRef => known && !RefText(provider, ref)
            case BadSecretKey => known && RefText(provider, ref) && !named
            case BadMountPath => named && !placed
            case SkipVerifyNotAllowed => placed && AsksSkip(pod) && !cfg.allowKeeperSkipVerify
            case BadProviderEnv => placed && (AsksSkip(pod) ==> cfg.allowKeeperSkipVerify) && !ProviderEnvText(pod, cfg)
  {
    var text := Annotation(pod, "chur.io/provider-env");
    RefIff(Annotation(pod, "chur.io/provider"), Annotation(pod, "chur.io/secret-ref"));
    SecretKeyIff(Annotation(pod, "chur.io/secret-key"));
    MountAnnotation(pod);
    if cfg.decodeEnv(text).Some? {
      ExtraIff(cfg.decodeEnv(text).value);
    }
  }

  // ---- The environment -------------------------------------------------------------------

  lemma GetenvAbsent(env: seq<EnvVar>, n: string)
    requires forall e | e in env :: e.name != n
    ensures Getenv(env, n) == ""
  {
    assert [] + env == env;
    GetenvSkips([], env, n);
  }

  /** The parts of the environment: five variables, the key, the keeper's, the annotation's. */
  lemma EnvParts(pod: Pod, cfg: Config) returns (extra: seq<EnvVar>)
    requires Admit(pod, cfg).Accept?
    ensures var req := Admit(pod, cfg).req;
            req.env == BaseEnv(cfg, req.provider, req.ref, req.mountPath) +
                       When(req.key != "", "CHUR_SECRET_KEY", req.key) +
                       (if req.provider == "keeper" then KeeperEnv(cfg, pod) else []) + extra
    ensures ExtraEnv(cfg, pod) == Some(extra)
    ensures forall e | e in extra :: e.name !in RESERVED
  {
    AcceptedRequest(pod, cfg);
    extra := ExtraEnv(cfg, pod).value;
    ExtraNamesOutside(cfg, pod);
  }

  lemma KeyVariable(pod: Pod, cfg: Config)
    requires Admit(pod, cfg).Accept?
    ensures Getenv(Admit(pod, cfg).req.env, "CHUR_SECRET_KEY") == Admit(pod, cfg).req.key
  {
    var req, n := Admit(pod, cfg).req, "CHUR_SECRET_KEY";
    var extra := EnvParts(pod, cfg);
    EnvNamesDistinct(pod, cfg);
    if req.key != "" {
      var e := EnvVar(n, req.key);
      assert e in When(req.key != "", n, req.key);
      GetenvFinds(req.env, e);
    } else {
      KeyNotManagedElsewhere(cfg, pod, req);
      assert n in RESERVED;
      GetenvAbsent(req.env, n);
    }
  }

  lemma KeyNotManagedElsewhere(cfg: Config, pod: Pod, req: Request)
    ensures forall e | e in BaseEnv(cfg, req.provider, req.ref, req.mountPath) :: e.name != "CHUR_SECRET_KEY"
    ensures forall e | e in KeeperEnv(cfg, pod) :: e.name != "CHUR_SECRET_KEY"
  {
    var n := "CHUR_SECRET_KEY";
    KeeperVarsDistinct();
    KeeperNamesWithin(KEEPER_VARS, cfg, pod);
    NamesApart();
    assert n in BASE_NAMES + {n};
    forall e | e in BaseEnv(cfg, req.provider, req.ref, req.mountPath) ensures e.name != n {
      BaseNames(cfg, req, e);
    }
  }

  lemma BaseNames(cfg: Config, req: Request, e: EnvVar)
    requires e in BaseEnv(cfg, req.provider, req.ref, req.mountPath)
    ensures e.name in BASE_NAMES && e.name != "CHUR_SECRET_KEY"
  {
    var key := "CHUR_SECRET_KEY";
    assert |key| == 15 && key[5] == 'S' && key[12] == 'K';
  }

  /** The variables of every init container, under their names. */
  lemma EnvWritten(pod: Pod, cfg: Config)
    requires Admit(pod, cfg).Accept?
    ensures var env := Admit(pod, cfg).req.env;
            && Getenv(env, "CHUR_PROVIDER") == Annotation(pod, "chur.io/provider")
            && Getenv(env, "CHUR_SECRET_REF") == Annotation(pod, "chur.io/secret-ref")
            && Getenv(env, "CHUR_SECRET_KEY") == Annotation(pod, "chur.io/secret-key")
            && Getenv(env, "CHUR_MOUNT_PATH") == Default(Annotation(pod, "chur.io/mount-path"), "/secrets")
            && Getenv(env, "CHUR_MAX_SECRET_SIZE") == cfg.maxSecretSize
            && Getenv(env, "CHUR_LOCAL_BASE_PATH") == cfg.localBasePath
  {
    AcceptedRequest(pod, cfg);
    BaseLookups(pod, cfg);
    KeyVariable(pod, cfg);
  }

  /** The keeper client's variables, which only a keeper pod gets. */
  lemma KeeperEnvWritten(pod: Pod, cfg: Config)
    requires Admit(pod, cfg).Accept?
    ensures var env, keeper := Admit(pod, cfg).req.env, Annotation(pod, "chur.io/provider") == "keeper";
            && Getenv(env, "CHUR_KEEPER_TLS_CERT_PATH") == (if keeper then cfg.keeperTLSCertPath else "")
            && Getenv(env, "CHUR_KEEPER_TLS_KEY_PATH") == (if keeper then cfg.keeperTLSKeyPath else "")
            && Getenv(env, "CHUR_KEEPER_SERVER_CA") == (if keeper then cfg.keeperServerCA else "")
            && Getenv(env, "CHUR_KEEPER_CLIENT_MAX_SECRET_SIZE") ==
               (if keeper then cfg.keeperClientMaxSecretSize else "")
            && Getenv(env, "CHUR_KEEPER_INSECURE_SKIP_VERIFY") == (if AsksSkip(pod) then "1" else "")
            && Getenv(env, "CHUR_KEEPER_URL") == (if keeper && cfg.keeperServiceName != "" then KeeperURL(cfg) else "")
  {
    var k := KEEPER_VARS;
    AcceptedRequest(pod, cfg);
    if Admit(pod, cfg).req.provider == "keeper" {
      KeeperVarsDistinct();
      IdentityLookups(k, cfg, pod);
      OptionLookups(k, cfg, pod);
      forall n | n in KEEPER_NAMES ensures Getenv(Admit(pod, cfg).req.env, n) == Getenv(KeeperEnv(cfg, pod), n) {
        KeeperVariable(pod, cfg, n);
      }
    } else {
      forall n | n in KEEPER_NAMES ensures Getenv(Admit(pod, cfg).req.env, n) == "" {
        NoKeeperVariable(pod, cfg, n);
      }
    }
    assert k.url in KEEPER_NAMES && k.cert in KEEPER_NAMES && k.key in KEEPER_NAMES;
    assert k.ca in KEEPER_NAMES && k.maxSize in KEEPER_NAMES && k.skip in KEEPER_NAMES;
  }

  lemma NoKeeperVariable(pod: Pod, cfg: Config, n: string)
    requires Admit(pod, cfg).Accept? && Admit(pod, cfg).req.provider != "keeper" && n in KEEPER_NAMES
    ensures Getenv(Admit(pod, cfg).req.env, n) == ""
  {
    var req := Admit(pod, cfg).req;
    var extra := EnvParts(pod, cfg);
    FirstNotKeeper(cfg, req, n);
    KeeperNamesReserved();
    GetenvAbsent(req.env, n);
  }

  /** Nothing but chur's own prefix: every name begins with CHUR_, and those chur does not set are the annotation's. */
  lemma EnvNamesWritten(pod: Pod, cfg: Config)
    requires Admit(pod, cfg).Accept?
    ensures var env, text := Admit(pod, cfg).req.env, Annotation(pod, "chur.io/provider-env");
            && (forall e | e in env :: "CHUR_" <= e.name)
            && (forall e | e in env :: Managed(e.name) ||
                  (text != "" && cfg.decodeEnv(text).Some? && e.name in cfg.decodeEnv(text).value
                   && e.value == cfg.decodeEnv(text).value[e.name]))
            && (text != "" ==>
                  && cfg.decodeEnv(text).Some?
                  && forall k | k in cfg.decodeEnv(text).value :: Getenv(env, k) == cfg.decodeEnv(text).value[k])
  {
    var req, text := Admit(pod, cfg).req, Annotation(pod, "chur.io/provider-env");
    var extra := EnvParts(pod, cfg);
    EnvNamesDistinct(pod, cfg);
    var managed := ManagedEnv(cfg, req.provider, req.ref, req.key, req.mountPath, pod);
    assert req.env == managed + extra;
    forall e | e in managed ensures Managed(e.name) && "CHUR_" <= e.name {
      ManagedIsReserved(e.name);
      ManagedPrefix(e.name);
    }
    if text != "" {
      var m := cfg.decodeEnv(text).value;
      assert extra == SortedOf(m);
      forall k | k in m ensures Getenv(req.env, k) == m[k] {
        assert EnvVar(k, m[k]) in extra;
        GetenvFinds(req.env, EnvVar(k, m[k]));
      }
      forall e | e in extra ensures "CHUR_" <= e.name {
        assert Acceptable(e.name, m[e.name]);
      }
    }
  }

  lemma ManagedPrefix(n: string)
    requires Managed(n)
    ensures "CHUR_" <= n
  {
  }

  /** The keeper's address as it is written into the environment: the service's name, then its namespace. */
  lemma KeeperAddressWritten(pod: Pod, cfg: Config)
    requires Admit(pod, cfg).Accept? && Annotation(pod, "chur.io/provider") == "keeper" && cfg.keeperServiceName != ""
    requires Ordinary(cfg.keeperServiceName) && Ordinary(cfg.keeperServiceNamespace) && Ordinary(cfg.keeperServicePort)
    ensures Getenv(Admit(pod, cfg).req.env, "CHUR_KEEPER_URL") ==
            "https://" + cfg.keeperServiceName + "." + cfg.keeperServiceNamespace + ".svc:" + cfg.keeperServicePort
  {
    KeeperEnvWritten(pod, cfg);
    OrdinaryAddress(cfg.keeperServiceName, cfg.keeperServiceNamespace, cfg.keeperServicePort);
  }

  /** Letters, digits, '-' and '.'. */
  predicate Ordinary(s: string) {
    forall c | c in s :: c in LOWER || c in UPPER || c in DIGITS || c == '-' || c == '.'
  }

  lemma OrdinaryIsHost(s: string)
    requires Ordinary(s)
    ensures forall c | c in s :: Urls.HostChar(c) && c != ':'
  {
    forall c | c in s ensures Urls.HostChar(c) && c != ':' {
      LowerIs(c);
      UpperIs(c);
      DigitsAre(c);
    }
  }

  lemma OrdinaryAddress(name: string, namespace: string, port: string)
    requires Ordinary(name) && Ordinary(namespace) && Ordinary(port)
    ensures Urls.HttpsURL(Urls.JoinHostPort(name + "." + namespace + ".svc", port)) ==
            "https://" + name + "." + namespace + ".svc:" + port
  {
    var host := name + "." + namespace + ".svc";
    OrdinaryIsHost(name);
    OrdinaryIsHost(namespace);
    OrdinaryIsHost(port);
    SuffixIsHost();
    assert ':' !in host;
    assert forall c | c in host + ":" + port :: Urls.HostChar(c);
    Urls.EscapeHosts(host + ":" + port);
    AddressText(name, namespace, port);
  }

  lemma SuffixIsHost()
    ensures forall c | c in ".svc" :: Urls.HostChar(c) && c != ':'
  {
  }

  lemma AddressText(name: string, namespace: string, port: string)
    ensures "https://" + (name + "." + namespace + ".svc" + ":" + port) ==
            "https://" + name + "." + namespace + ".svc:" + port
  {
  }

  // ---- The volumes -------------------------------------------------------------------------

  predicate HasName(v: Json, name: string) {
    Field(v, "name") == Str(name)
  }

  /** An emptyDir in memory of this size, and no other source. */
  predicate InMemory(v: Json, limit: int) {
    var dir := Field(v, "emptyDir");
    && v.Obj? && v.members.Keys == {"name", "emptyDir"}
    && dir.Obj? && dir.members.Keys == {"medium", "sizeLimit"}
    && Field(dir, "medium") == Str("Memory") && Field(dir, "sizeLimit") == Num(limit)
  }

  /** A directory of the node, made if it is not there. */
  predicate OnHost(v: Json, path: string) {
    var dir := Field(v, "hostPath");
    && v.Obj? && v.members.Keys == {"name", "hostPath"}
    && Field(dir, "path") == Str(path) && Field(dir, "type") == Str("DirectoryOrCreate")
  }

  /** A Kubernetes Secret, readable by all and writable by none (0444). */
  predicate FromSecret(v: Json, secretName: string) {
    var source := Field(v, "secret");
    var mode := Field(source, "defaultMode");
    && v.Obj? && v.members.Keys == {"name", "secret"}
    && Field(source, "secretName") == Str(secretName)
    && mode.Num? && mode.n / 64 == 4 && mode.n / 8 % 8 == 4 && mode.n % 8 == 4
  }

  lemma SecretsVolumeWritten(cfg: Config)
    ensures HasName(SecretsVolume(cfg), "chur-secrets") && InMemory(SecretsVolume(cfg), cfg.volumeSizeLimit)
  {
    var v, dir := SecretsVolume(cfg), Field(SecretsVolume(cfg), "emptyDir");
    var kind, name := "emptyDir", "name";
    assert kind != name;
    assert dir == Obj(map["medium" := Str("Memory"), "sizeLimit" := Num(cfg.volumeSizeLimit)]);
  }

  lemma LocalVolumeWritten(cfg: Config)
    ensures HasName(LocalVolume(cfg), "chur-local-base") && OnHost(LocalVolume(cfg), cfg.localBasePath)
  {
    var kind, name := "hostPath", "name";
    assert kind != name;
    assert Field(LocalVolume(cfg), "hostPath") ==
           Obj(map["path" := Str(cfg.localBasePath), "type" := Str("DirectoryOrCreate")]);
  }

  lemma KeeperVolumeWritten(cfg: Config)
    ensures HasName(KeeperVolume(cfg), "chur-keeper-client-tls")
    ensures FromSecret(KeeperVolume(cfg), cfg.keeperClientCertSecretName)
  {
    var kind, name := "secret", "name";
    assert kind != name;
    assert Field(KeeperVolume(cfg), "secret").members["secretName"] == Str(cfg.keeperClientCertSecretName);
  }

  /** The pod needs the client certificate's volume. */
  predicate WithCert(cfg: Config, provider: string) {
    provider == "keeper" && cfg.keeperClientCertSecretName != ""
  }

  /** One of the three volumes, where the provider asks for it. */
  predicate VolumeWritten(v: Json, cfg: Config, provider: string) {
    || (HasName(v, "chur-secrets") && InMemory(v, cfg.volumeSizeLimit))
    || (provider == "local" && HasName(v, "chur-local-base") && OnHost(v, cfg.localBasePath))
    || (WithCert(cfg, provider) && HasName(v, "chur-keeper-client-tls")
        && FromSecret(v, cfg.keeperClientCertSecretName))
  }

  lemma AddedWritten(vols: seq<Json>, cfg: Config, provider: string)
    ensures forall v | v in AddedVolumes(vols, cfg, provider) :: VolumeWritten(v, cfg, provider)
  {
    AddedByName(vols, cfg, provider);
    SecretsVolumeWritten(cfg);
    LocalVolumeWritten(cfg);
    KeeperVolumeWritten(cfg);
  }

  /**
   The patched list is the pod's own, then volumes as above; outside a clash a
   volume is there for each name the provider asks for.
   */
  lemma VolumesWritten(doc: Json, cfg: Config, req: Request)
    requires IsPodDocument(doc)
    ensures IsPodDocument(Patch(doc, cfg, req))
    ensures var vols, next := VolumesOf(doc), VolumesOf(Patch(doc, cfg, req));
            && vols <= next && (forall v | v in next[|vols|..] :: VolumeWritten(v, cfg, req.provider))
            && (Named(next, "chur-secrets") <==>
                  Named(vols, "chur-secrets") || !WithCert(cfg, req.provider) || vols != [])
            && (req.provider == "local" ==> Named(next, "chur-local-base"))
            && (WithCert(cfg, req.provider) ==> Named(next, "chur-keeper-client-tls"))
  {
    var vols, added := VolumesOf(doc), AddedVolumes(VolumesOf(doc), cfg, req.provider);
    PatchedDocument(doc, cfg, req);
    KeysDistinct();
    SpecWithMembers(SpecOf(doc), KEYS, cfg, req, added);
    assert (vols + added)[|vols|..] == added;
    AddedWritten(vols, cfg, req.provider);
    NamesAdded(vols, cfg, req.provider, VOL_SECRETS);
    NamesAdded(vols, cfg, req.provider, VOL_LOCAL);
    NamesAdded(vols, cfg, req.provider, VOL_KEEPER);
  }

  lemma NamesAdded(vols: seq<Json>, cfg: Config, provider: string, name: string)
    ensures Named(vols + AddedVolumes(vols, cfg, provider), name) <==>
            || Named(vols, name) || (name == VOL_SECRETS && !Clash(vols, cfg, provider))
            || (name == VOL_LOCAL && provider == "local")
            || (name == VOL_KEEPER && NeedsKeeperVolume(cfg, provider))
  {
    AddedNames(vols, cfg, provider, name);
    NamedConcat(vols, AddedVolumes(vols, cfg, provider), name);
  }

  /** Every volume called chur-secrets is in memory. */
  predicate OnlyMemory(volumes: seq<Json>, cfg: Config) {
    forall v | v in volumes && AsText(Field(v, "name")) == "chur-secrets" :: InMemory(v, cfg.volumeSizeLimit)
  }

  /** The mounts of chur-secrets find a volume, and it is in memory. */
  predicate SecretsInMemory(volumes: seq<Json>, cfg: Config) {
    Named(volumes, "chur-secrets") && OnlyMemory(volumes, cfg)
  }

  /**
   In the patched pod the mounts resolve to a volume in memory of the configured
   size exactly when the pod brought no other volume of its name and there was no clash.
   */
  lemma SecretsInMemoryIff(doc: Json, cfg: Config, req: Request)
    requires IsPodDocument(doc)
    ensures IsPodDocument(Patch(doc, cfg, req))
    ensures SecretsInMemory(VolumesOf(Patch(doc, cfg, req)), cfg) <==>
            OnlyMemory(VolumesOf(doc), cfg) && !(WithCert(cfg, req.provider) && VolumesOf(doc) == [])
  {
    VolumesWritten(doc, cfg, req);
    var vols, next := VolumesOf(doc), VolumesOf(Patch(doc, cfg, req));
    OnlyMemoryOfBoth(vols, next, cfg, req.provider);
    NamedNotEmpty(vols, "chur-secrets");
  }

  lemma NamedNotEmpty(vols: seq<Json>, name: string)
    ensures Named(vols, name) ==> vols != []
  {
  }

  lemma OnlyMemoryOfBoth(vols: seq<Json>, next: seq<Json>, cfg: Config, provider: string)
    requires vols <= next && forall v | v in next[|vols|..] :: VolumeWritten(v, cfg, provider)
    ensures OnlyMemory(next, cfg) <==> OnlyMemory(vols, cfg)
  {
    assert next == vols + next[|vols|..];
    forall v | v in next[|vols|..] && AsText(Field(v, "name")) == "chur-secrets"
      ensures InMemory(v, cfg.volumeSizeLimit)
    {
      SecretsAmongWritten(v, cfg, provider);
    }
  }

  lemma SecretsAmongWritten(v: Json, cfg: Config, provider: string)
    requires VolumeWritten(v, cfg, provider) && AsText(Field(v, "name")) == "chur-secrets"
    ensures InMemory(v, cfg.volumeSizeLimit)
  {
    OtherNames();
  }

  lemma OtherNames()
    ensures "chur-secrets" != "chur-local-base" && "chur-secrets" != "chur-keeper-client-tls"
  {
  }

  // ---- The init container ----------------------------------------------------------------------

  /** What chur-init runs as: not root, without privileges, its file system read-only. */
  predicate Confined(sc: Json, cfg: Config, fsGroup: int) {
    && sc.Obj?
    && Field(sc, "runAsNonRoot") == Bool(true) && Field(sc, "runAsUser") == Num(cfg.runAsUser)
    && Field(sc, "runAsGroup") == Num(if cfg.runAsGroup.Some? then cfg.runAsGroup.value else fsGroup)
    && Field(sc, "readOnlyRootFilesystem") == Bool(true) && Field(sc, "allowPrivilegeEscalation") == Bool(false)
    && Field(Field(sc, "capabilities"), "drop") == Arr([Str("ALL")])
    && Field(Field(sc, "seccompProfile"), "type") == Str("RuntimeDefault")
  }

  predicate MountWritten(m: Json, name: string, path: string, readOnly: bool) {
    && HasName(m, name) && Field(m, "mountPath") == Str(path)
    && Field(m, "readOnly") == (if readOnly then Bool(true) else Null)
  }

  /** dir is the path up to its last '/', or all of a path without one. */
  ghost predicate DirectoryOf(dir: string, path: string) {
    if '/' !in path then dir == path else exists base :: '/' !in base && path == dir + "/" + base
  }

  /** The secrets volume writable, and after it the provider's own volume, read-only. */
  ghost predicate InitMountsWritten(ms: seq<Json>, cfg: Config, provider: string, mountPath: string) {
    && ms != [] && MountWritten(ms[0], "chur-secrets", mountPath, false)
    && (if provider == "local" then
          |ms| == 2 && MountWritten(ms[1], "chur-local-base", cfg.localBasePath, true)
        else if WithCert(cfg, provider) then
          && |ms| == 2 && MountWritten(ms[1], "chur-keeper-client-tls", AsText(Field(ms[1], "mountPath")), true)
          && DirectoryOf(AsText(Field(ms[1], "mountPath")),
                         Default(cfg.keeperTLSCertPath, "/etc/chur-keeper/client-tls"))
        else |ms| == 1)
  }

  ghost predicate InitWritten(c: Json, cfg: Config, req: Request) {
    && HasName(c, "chur-init")
    && Field(c, "image") == Str(cfg.initImage) && Field(c, "imagePullPolicy") == Str(cfg.initImagePullPolicy)
    && Field(c, "command") == Arr([Str("/chur-init")])
    && Confined(Field(c, "securityContext"), cfg, req.fsGroup)
    && InitMountsWritten(Elems(Field(c, "volumeMounts")), cfg, req.provider, req.mountPath)
  }

  lemma MountJsonWritten(m: MountSpec)
    ensures MountWritten(MountJson(m), m.name, m.mountPath, m.readOnly)
  {
    var name, path, ro := "name", "mountPath", "readOnly";
    assert |name| == 4 && |path| == 9 && |ro| == 8;
  }

  lemma ConfinedWritten(c: InitContainer, cfg: Config, fsGroup: int)
    requires c.runAsUser == cfg.runAsUser
    requires c.runAsGroup == if cfg.runAsGroup.Some? then cfg.runAsGroup.value else fsGroup
    ensures Confined(SecurityJson(c), cfg, fsGroup)
  {
    assert Field(SecurityJson(c), "capabilities") == Obj(map["drop" := Arr([Str("ALL")])]);
    assert Field(SecurityJson(c), "seccompProfile") == Obj(map["type" := Str("RuntimeDefault")]);
  }

  lemma InitMountsAre(cfg: Config, req: Request)
    ensures InitMountsWritten(Elems(Field(InitJson(cfg, req), "volumeMounts")), cfg, req.provider, req.mountPath)
  {
    var specs, ms := InitContainerFor(cfg, req).mounts, Elems(Field(InitJson(cfg, req), "volumeMounts"));
    assert |ms| == |specs|;
    forall i | 0 <= i < |specs| ensures MountWritten(ms[i], specs[i].name, specs[i].mountPath, specs[i].readOnly) {
      assert ms[i] == MountJson(specs[i]);
      MountJsonWritten(specs[i]);
    }
    if WithCert(cfg, req.provider) {
      assert AsText(Field(ms[1], "mountPath")) == CertMountDir(cfg);
      CertMountDirIs(cfg);
    }
  }

  /** The certificate's mount is the directory of its path, configured or not. */
  lemma CertMountDirIs(cfg: Config)
    ensures DirectoryOf(CertMountDir(cfg), Default(cfg.keeperTLSCertPath, "/etc/chur-keeper/client-tls"))
  {
    CutIsDirectory(Default(cfg.keeperTLSCertPath, DEFAULT_CERT_DIR));
  }

  lemma {:induction false} CutIsDirectory(s: string)
    ensures DirectoryOf(CutAtLastSlash(s), s)
  {
    if '/' in s {
      if s[|s| - 1] == '/' {
        assert s == s[..|s| - 1] + "/" + "";
      } else {
        var init := s[..|s| - 1];
        assert s == init + [s[|s| - 1]];
        CutIsDirectory(init);
        var base :| '/' !in base && init == CutAtLastSlash(init) + "/" + base;
        assert s == CutAtLastSlash(s) + "/" + (base + [s[|s| - 1]]);
      }
    }
  }

  lemma InitJsonWritten(cfg: Config, req: Request)
    ensures InitWritten(InitJson(cfg, req), cfg, req)
  {
    var c := InitContainerFor(cfg, req);
    ConfinedWritten(c, cfg, req.fsGroup);
    InitMountsAre(cfg, req);
    SecurityField(c);
  }

  lemma SecurityField(c: InitContainer)
    ensures Field(ContainerJson(c), "securityContext") == SecurityJson(c)
    ensures HasName(ContainerJson(c), "chur-init") && Field(ContainerJson(c), "command") == Arr([Str("/chur-init")])
    ensures Field(ContainerJson(c), "image") == Str(c.image)
    ensures Field(ContainerJson(c), "imagePullPolicy") == Str(c.pullPolicy)
  {
  }

  /**
   The init container of an accepted pod that had none: its fields, and an
   environment that holds the annotations' texts under the names chur-init reads.
   */
  lemma InitContainerWritten(doc: Json, cfg: Config)
    requires IsPodDocument(doc) && Admit(Decode(doc), cfg).Accept?
    requires !Named(List(SpecOf(doc), "initContainers"), "chur-init")
    ensures var pod, req := Decode(doc), Admit(Decode(doc), cfg).req;
            var next := Patch(doc, cfg, req);
            && IsPodDocument(next)
            && req.provider == Annotation(pod, "chur.io/provider")
            && req.mountPath == Default(Annotation(pod, "chur.io/mount-path"), "/secrets")
            && var ics := List(SpecOf(next), "initContainers");
               && |ics| == |List(SpecOf(doc), "initContainers")| + 1
               && InitWritten(ics[|ics| - 1], cfg, req)
               && ContainerEnv(ics[|ics| - 1]) == req.env
  {
    var req := Admit(Decode(doc), cfg).req;
    AcceptedRequest(Decode(doc), cfg);
    PatchedDocument(doc, cfg, req);
    KeysDistinct();
    SpecWithMembers(SpecOf(doc), KEYS, cfg, req, AddedVolumes(VolumesOf(doc), cfg, req.provider));
    InitJsonWritten(cfg, req);
    ContainerEnvRoundTrip(InitContainerFor(cfg, req));
  }

  // ---- The app containers and the group -----------------------------------------------------------

  /** The pod's own group if it names one, else the configured one. */
  function GroupOf(doc: Json, cfg: Config): int {
    var g := Field(Field(Spec(doc), "securityContext"), "fsGroup");
    if g.Num? then g.n else cfg.fsGroup
  }

  /**
   Every app container has the secrets mount at the annotation's path, or at
   /secrets; where it is new it is the last and read-only. The pod has its own
   fsGroup, or the configured one.
   */
  lemma AppWritten(doc: Json, cfg: Config)
    requires IsPodDocument(doc) && Admit(Decode(doc), cfg).Accept?
    ensures var next := Patch(doc, cfg, Admit(Decode(doc), cfg).req);
            var path := Default(Annotation(Decode(doc), "chur.io/mount-path"), "/secrets");
            && IsPodDocument(next)
            && Field(Field(Spec(next), "securityContext"), "fsGroup") == Num(GroupOf(doc, cfg))
            && var cs, cs' := List(SpecOf(doc), "containers"), List(SpecOf(next), "containers");
               && |cs'| == |cs|
               && forall i | 0 <= i < |cs| :: AppMountWritten(cs[i], cs'[i], path)
  {
    var req := Admit(Decode(doc), cfg).req;
    AcceptedRequest(Decode(doc), cfg);
    PatchedDocument(doc, cfg, req);
    KeysDistinct();
    SpecWithMembers(SpecOf(doc), KEYS, cfg, req, AddedVolumes(VolumesOf(doc), cfg, req.provider));
    FsGroupAfter(SpecOf(doc), KEYS.securityContext, req.fsGroup);
    GroupDecoded(doc, cfg);
    GroupField(Field(Spec(Patch(doc, cfg, req)), KEYS.securityContext));
    var cs := List(SpecOf(doc), "containers");
    DecodeRepresents(doc);
    forall i | 0 <= i < |cs| ensures AppMountWritten(cs[i], WithMount(cs[i], req.mountPath), req.mountPath) {
      assert cs[i] in cs;
      NewMountWritten(cs[i], req.mountPath);
    }
  }

  lemma GroupDecoded(doc: Json, cfg: Config)
    ensures FsGroupOf(Decode(doc), cfg) == GroupOf(doc, cfg)
  {
  }

  lemma GroupField(sc: Json)
    requires DecodeSecurityContext(sc).Some? && DecodeSecurityContext(sc).value.fsGroup.Some?
    ensures Field(sc, "fsGroup") == Num(DecodeSecurityContext(sc).value.fsGroup.value)
  {
  }

  /** A mount of chur-secrets at the path, as Kubernetes reads it. */
  predicate HasMount(c: Json, path: string) {
    exists m | m in Elems(Field(c, "volumeMounts")) ::
      AsText(Field(m, "name")) == "chur-secrets" && AsText(Field(m, "mountPath")) == path
  }

  predicate AppMountWritten(c: Json, next: Json, path: string) {
    var ms, ms' := Elems(Field(c, "volumeMounts")), Elems(Field(next, "volumeMounts"));
    if HasMount(c, path) then next == c
    else |ms'| == |ms| + 1 && ms <= ms' && MountWritten(ms'[|ms|], "chur-secrets", path, true)
  }

  lemma HasMountIff(c: Json, path: string)
    ensures HasMount(c, path) <==> Mounted(c, path)
  {
    var ms := Elems(Field(c, "volumeMounts"));
    assert |Mounts(c)| == |ms|;
    forall i | 0 <= i < |ms|
      ensures ms[i] in ms
      ensures Mounts(c)[i] == VolumeMount(AsText(Field(ms[i], "name")), AsText(Field(ms[i], "mountPath")))
    {
    }
  }

  lemma NewMountWritten(c: Json, path: string)
    requires c.Obj?
    ensures AppMountWritten(c, WithMount(c, path), path)
  {
    HasMountIff(c, path);
    MountJsonWritten(MountSpec(VOL_SECRETS, path, true));
    if !Mounted(c, path) {
      assert Elems(Field(WithMount(c, path), "volumeMounts")) == List(c.members, "volumeMounts") + [AppMount(path)];
    }
  }

  // ---- What chur-init makes of its environment ------------------------------------------------------

  ghost predicate SizeText(s: string, n: int) {
    ByteSize.DenotesInBlanks(s, n) && 0 <= n <= 9_223_372_036_854_775_807
  }

  lemma SizeIff(s: string)
    ensures ByteSize.Parse(s).Ok? <==> exists n :: SizeText(s, n)
    ensures ByteSize.Parse(s).Ok? ==> SizeText(s, ByteSize.Parse(s).value)
  {
    forall n ensures ByteSize.Parse(s) == Ok(n) <==> SizeText(s, n) {
      ByteSize.ParseTextIff(s, n);
    }
  }

  /** These settings come out, or the first of these reasons. */
  ghost predicate InitOutcome(
    res: Result<Settings, InitError>, provider: string, ref: string, size: string, path: string)
  {
    match res
    case Ok(s) =>
      && s.provider == provider && s.ref == ref && s.mountPath == path && SizeText(size, s.maxBytes)
      && ref != "" && RefText(provider, ref) && MountPathText(path)
    case Err(RefRequired) => ref == ""
    case Err(InvalidRef) => ref != "" && !RefText(provider, ref)
    case Err(InvalidMaxSize) => ref != "" && RefText(provider, ref) && !exists n :: SizeText(size, n)
    case Err(InvalidMountPath) =>
      ref != "" && RefText(provider, ref) && (exists n :: SizeText(size, n)) && !MountPathText(path)
  }

  /** Started with any environment, chur-init reads its variables so, or stops for that reason. */
  lemma SettingsRead(env: seq<EnvVar>)
    ensures InitOutcome(ReadSettings(env), Default(Getenv(env, "CHUR_PROVIDER"), "env"), Getenv(env, "CHUR_SECRET_REF"),
                    Default(Getenv(env, "CHUR_MAX_SECRET_SIZE"), "1Mi"),
                    Default(Getenv(env, "CHUR_MOUNT_PATH"), "/secrets"))
  {
    SettingsInitOutcome(env, Default(Getenv(env, "CHUR_PROVIDER"), "env"), Getenv(env, "CHUR_SECRET_REF"),
                    Default(Getenv(env, "CHUR_MAX_SECRET_SIZE"), "1Mi"),
                    Default(Getenv(env, "CHUR_MOUNT_PATH"), "/secrets"));
  }

  lemma SettingsInitOutcome(env: seq<EnvVar>, provider: string, ref: string, size: string, path: string)
    requires provider == Default(Getenv(env, "CHUR_PROVIDER"), "env") && ref == Getenv(env, "CHUR_SECRET_REF")
    requires size == Default(Getenv(env, "CHUR_MAX_SECRET_SIZE"), "1Mi")
    requires path == Default(Getenv(env, "CHUR_MOUNT_PATH"), "/secrets")
    ensures InitOutcome(ReadSettings(env), provider, ref, size, path)
  {
    RefIff(provider, ref);
    SizeIff(size);
    MountPathIff(path);
    assert ReadSettings(env) ==
           if ref == "" then Err(RefRequired)
           else if !ValidRefFor(provider, ref) then Err(InvalidRef)
           else if ByteSize.Parse(size).Err? then Err(InvalidMaxSize)
           else if !ValidMountPath(path) then Err(InvalidMountPath)
           else Ok(Settings(provider, ref, path, ByteSize.Parse(size).value));
  }

  /** When the local provider starts. */
  lemma LocalStartsIff(env: seq<EnvVar>)
    ensures LocalFactoryAccepts(env) <==>
            && BasePathText(Default(Getenv(env, "CHUR_LOCAL_BASE_PATH"), "/etc/chur/secrets"))
            && (Getenv(env, "CHUR_MAX_SECRET_SIZE") == "" ||
                exists n :: SizeText(Getenv(env, "CHUR_MAX_SECRET_SIZE"), n))
  {
    BasePathIff(Default(Getenv(env, "CHUR_LOCAL_BASE_PATH"), "/etc/chur/secrets"));
    SizeIff(Getenv(env, "CHUR_MAX_SECRET_SIZE"));
  }

  // ---- What admission reads --------------------------------------------------------------------------

  /** The metadata of a pod, encoded. */
  function Metadata(name: string, namespace: string, annotations: map<string, string>): Json {
    Obj(map["name" := Str(name), "namespace" := Str(namespace),
            "annotations" := Obj(map k | k in annotations :: Str(annotations[k]))])
  }

  /** Name, namespace and annotations are read from the metadata as they were encoded. */
  lemma MetadataRead(doc: Json, name: string, namespace: string, annotations: map<string, string>)
    requires Field(doc, "metadata") == Metadata(name, namespace, annotations)
    ensures Decode(doc).name == name && Decode(doc).namespace == namespace && Decode(doc).annotations == annotations
  {
    MetadataFields(name, namespace, annotations);
  }

  lemma MetadataFields(name: string, namespace: string, annotations: map<string, string>)
    ensures var meta := Metadata(name, namespace, annotations);
            && Field(meta, "name") == Str(name) && Field(meta, "namespace") == Str(namespace)
            && DecodeAnnotations(Field(meta, "annotations")) == annotations
  {
    var n, ns, a := "name", "namespace", "annotations";
    assert |n| == 4 && |ns| == 9 && |a| == 11;
  }
}
