/** internal/webhook/mutator.go: from a pod and a configuration to a JSON Patch. */
module Mutator {
  import opened JsonPatch
  import opened Pods
  import opened ProviderEnv
  import opened Text
  import opened Validate
  import opened WebhookConfig
  import opened Wrappers
  import Urls

  const VOL_SECRETS := "chur-secrets"
  const VOL_LOCAL := "chur-local-base"
  const VOL_KEEPER := "chur-keeper-client-tls"
  const INIT_NAME := "chur-init"
  const DEFAULT_CERT_DIR := "/etc/chur-keeper/client-tls"

  const VALID_PROVIDERS: set<string> := {"env", "local", "k8s", "keeper"}

  datatype Reason =
    | EmptyProvider | UnknownProvider | BadSecretRef | BadSecretKey | BadMountPath
    | SkipVerifyNotAllowed | BadProviderEnv

  datatype Audit = Audit(namespace: string, pod: string, provider: string)

  /** What an accepted pod asks for, with every default filled in. */
  datatype Request = Request(
    provider: string, ref: string, key: string, mountPath: string, fsGroup: int, env: seq<EnvVar>)

  datatype Verdict = Skip | Reject(audit: Audit, why: Reason) | Accept(audit: Audit, req: Request)

  datatype Outcome = Skipped | Rejected(audit: Audit, why: Reason) | Patched(audit: Audit, ops: seq<Op>)

  datatype MountSpec = MountSpec(name: string, mountPath: string, readOnly: bool)

  /** The varying fields of the injected init container. */
  datatype InitContainer = InitContainer(
    image: string, pullPolicy: string, runAsUser: int, runAsGroup: int, env: seq<EnvVar>, mounts: seq<MountSpec>)

  // ---- Values as encoded into the patch ------------------------------------

  function VolumeJson(name: string, kind: string, source: map<string, Json>): Json {
    Obj(map["name" := Str(name), kind := Obj(source)])
  }

  function SecretsVolume(cfg: Config): Json {
    VolumeJson(VOL_SECRETS, "emptyDir", map["medium" := Str("Memory"), "sizeLimit" := Num(cfg.volumeSizeLimit)])
  }

  function LocalVolume(cfg: Config): Json {
    VolumeJson(VOL_LOCAL, "hostPath", map["path" := Str(cfg.localBasePath), "type" := Str("DirectoryOrCreate")])
  }

  function KeeperVolume(cfg: Config): Json {
    VolumeJson(VOL_KEEPER, "secret",
               map["secretName" := Str(cfg.keeperClientCertSecretName), "defaultMode" := Num(292)])
  }

  function MountJson(m: MountSpec): Json {
    var fields := map["name" := Str(m.name), "mountPath" := Str(m.mountPath)];
    Obj(if m.readOnly then fields["readOnly" := Bool(true)] else fields)
  }

  function EnvJson(e: EnvVar): Json {
    Obj(if e.value == "" then map["name" := Str(e.name)] else map["name" := Str(e.name), "value" := Str(e.value)])
  }

  function SecurityJson(c: InitContainer): Json {
    Obj(map[
          "runAsNonRoot" := Bool(true), "runAsUser" := Num(c.runAsUser), "runAsGroup" := Num(c.runAsGroup),
          "readOnlyRootFilesystem" := Bool(true), "allowPrivilegeEscalation" := Bool(false),
          "capabilities" := Obj(map["drop" := Arr([Str("ALL")])]),
          "seccompProfile" := Obj(map["type" := Str("RuntimeDefault")])])
  }

  function ContainerJson(c: InitContainer): Json {
    Obj(map[
          "name" := Str(INIT_NAME), "image" := Str(c.image), "imagePullPolicy" := Str(c.pullPolicy),
          "command" := Arr([Str("/chur-init")]), "resources" := Obj(map[]),
          "securityContext" := SecurityJson(c),
          "env" := Arr(seq(|c.env|, i requires 0 <= i < |c.env| => EnvJson(c.env[i]))),
          "volumeMounts" := Arr(seq(|c.mounts|, i requires 0 <= i < |c.mounts| => MountJson(c.mounts[i])))])
  }

  // ---- Look-ups -------------------------------------------------------------

  function Annotation(pod: Pod, key: string): string {
    if key in pod.annotations then pod.annotations[key] else ""
  }

  predicate VolumeExists(volumes: seq<Volume>, name: string) {
    exists v | v in volumes :: v.name == name
  }

  predicate InitContainerExists(containers: seq<Container>, name: string) {
    exists c | c in containers :: c.name == name
  }

  predicate MountExists(mounts: seq<VolumeMount>, name: string, mountPath: string) {
    VolumeMount(name, mountPath) in mounts
  }

  predicate SkipVerify(pod: Pod) {
    Annotation(pod, "chur.io/keeper-skip-verify") in {"1", "true"}
  }

  // ---- Specification: the decision ------------------------------------------

  function When(present: bool, name: string, value: string): seq<EnvVar> {
    if present then [EnvVar(name, value)] else []
  }

  function KeeperHost(cfg: Config): string {
    cfg.keeperServiceName + "." + cfg.keeperServiceNamespace + ".svc"
  }

  function KeeperURL(cfg: Config): string {
    Urls.HttpsURL(Urls.JoinHostPort(KeeperHost(cfg), cfg.keeperServicePort))
  }

  function BaseEnv(cfg: Config, provider: string, ref: string, mountPath: string): seq<EnvVar> {
    [ EnvVar("CHUR_PROVIDER", provider),
      EnvVar("CHUR_SECRET_REF", ref),
      EnvVar("CHUR_MOUNT_PATH", mountPath),
      EnvVar("CHUR_MAX_SECRET_SIZE", cfg.maxSecretSize),
      EnvVar("CHUR_LOCAL_BASE_PATH", cfg.localBasePath) ]
  }

  /** The names of the keeper client's variables. */
  datatype KeeperVars = KeeperVars(url: string, cert: string, key: string, ca: string, maxSize: string, skip: string)

  const KEEPER_VARS := KeeperVars(
    "CHUR_KEEPER_URL", "CHUR_KEEPER_TLS_CERT_PATH", "CHUR_KEEPER_TLS_KEY_PATH", "CHUR_KEEPER_SERVER_CA",
    "CHUR_KEEPER_CLIENT_MAX_SECRET_SIZE", "CHUR_KEEPER_INSECURE_SKIP_VERIFY")

  /** Where the keeper is, and what the client shows it. */
  function KeeperIdentity(k: KeeperVars, cfg: Config): seq<EnvVar> {
    When(cfg.keeperServiceName != "", k.url, KeeperURL(cfg)) +
    When(cfg.keeperTLSCertPath != "", k.cert, cfg.keeperTLSCertPath) +
    When(cfg.keeperTLSKeyPath != "", k.key, cfg.keeperTLSKeyPath)
  }

  function KeeperEnvAs(k: KeeperVars, cfg: Config, pod: Pod): seq<EnvVar> {
    KeeperIdentity(k, cfg) +
    When(cfg.keeperServerCA != "", k.ca, cfg.keeperServerCA) +
    When(cfg.keeperClientMaxSecretSize != "", k.maxSize, cfg.keeperClientMaxSecretSize) +
    When(SkipVerify(pod), k.skip, "1")
  }

  function KeeperEnv(cfg: Config, pod: Pod): seq<EnvVar> {
    KeeperEnvAs(KEEPER_VARS, cfg, pod)
  }

  /** The variables the webhook manages itself. */
  function ManagedEnv(
    cfg: Config, provider: string, ref: string, key: string, mountPath: string, pod: Pod): seq<EnvVar>
  {
    BaseEnv(cfg, provider, ref, mountPath) +
    When(key != "", "CHUR_SECRET_KEY", key) +
    (if provider == "keeper" then KeeperEnv(cfg, pod) else [])
  }

  /** The variables of the chur.io/provider-env annotation. */
  ghost function ExtraEnv(cfg: Config, pod: Pod): Option<seq<EnvVar>> {
    var annotation := Annotation(pod, "chur.io/provider-env");
    if annotation == "" then Some([])
    else
      match cfg.decodeEnv(annotation)
      case None => None
      case Some(extra) => if AllAcceptable(extra) then Some(SortedOf(extra)) else None
  }

  ghost function InitEnv(cfg: Config, provider: string, ref: string, key: string, mountPath: string, pod: Pod)
    : Result<seq<EnvVar>, Reason>
  {
    if provider == "keeper" && SkipVerify(pod) && !cfg.allowKeeperSkipVerify then Err(SkipVerifyNotAllowed)
    else
      match ExtraEnv(cfg, pod)
      case None => Err(BadProviderEnv)
      case Some(extra) => Ok(ManagedEnv(cfg, provider, ref, key, mountPath, pod) + extra)
  }

  function MountPathOf(pod: Pod): string {
    var m := Annotation(pod, "chur.io/mount-path");
    if m == "" then "/secrets" else m
  }

  function FsGroupOf(pod: Pod, cfg: Config): int {
    match pod.securityContext
    case Some(SecurityContext(Some(g))) => g
    case _ => cfg.fsGroup
  }

  ghost function Admit(pod: Pod, cfg: Config): Verdict {
    if cfg.allowedNamespaces != [] && pod.namespace !in cfg.allowedNamespaces then Skip
    else if "chur.io/provider" !in pod.annotations then Skip
    else
      var provider := pod.annotations["chur.io/provider"];
      var audit := Audit(pod.namespace, pod.name, provider);
      var ref, key := Annotation(pod, "chur.io/secret-ref"), Annotation(pod, "chur.io/secret-key");
      if provider == "" then Reject(audit, EmptyProvider)
      else if provider !in VALID_PROVIDERS then Reject(audit, UnknownProvider)
      else if !ValidRefFor(provider, ref) then Reject(audit, BadSecretRef)
      else if !ValidSecretKey(key) then Reject(audit, BadSecretKey)
      else if !ValidMountPath(MountPathOf(pod)) then Reject(audit, BadMountPath)
      else
        match InitEnv(cfg, provider, ref, key, MountPathOf(pod), pod)
        case Err(why) => Reject(audit, why)
        case Ok(env) => Accept(audit, Request(provider, ref, key, MountPathOf(pod), FsGroupOf(pod, cfg), env))
  }

  // ---- Specification: the operations -----------------------------------------

  predicate NeedsKeeperVolume(cfg: Config, provider: string) {
    provider == "keeper" && cfg.keeperClientCertSecretName != ""
  }

  function SecurityOps(path: string, pod: Pod, fsGroup: int): seq<Op> {
    match pod.securityContext
    case None => [Add(path, Obj(map["fsGroup" := Num(fsGroup)]))]
    case Some(SecurityContext(None)) => [Add(path + "/fsGroup", Num(fsGroup))]
    case _ => []
  }

  /** Create the list with its first element, or append to the one the pod has. */
  function AddOrCreate(path: string, isEmpty: bool, value: Json): Op {
    if isEmpty then Add(path, Arr([value])) else Add(path + "/-", value)
  }

  /** The operations on the volume list found at `path`. */
  function VolumeOps(path: string, pod: Pod, cfg: Config, provider: string): seq<Op> {
    var none := pod.volumes == [];
    (if VolumeExists(pod.volumes, VOL_SECRETS) then [] else [AddOrCreate(path, none, SecretsVolume(cfg))]) +
    (if provider == "local" && !VolumeExists(pod.volumes, VOL_LOCAL)
     then [AddOrCreate(path, false, LocalVolume(cfg))] else []) +
    (if NeedsKeeperVolume(cfg, provider) && !VolumeExists(pod.volumes, VOL_KEEPER)
     then [AddOrCreate(path, none, KeeperVolume(cfg))] else [])
  }

  /** strings.LastIndex(s, "/") cut: the part before the last '/', or all of s without one. */
  function CutAtLastSlash(s: string): string {
    if '/' !in s then s else if s[|s| - 1] == '/' then s[..|s| - 1] else CutAtLastSlash(s[..|s| - 1])
  }

  function CertMountDir(cfg: Config): string {
    CutAtLastSlash(if cfg.keeperTLSCertPath == "" then DEFAULT_CERT_DIR else cfg.keeperTLSCertPath)
  }

  function InitContainerFor(cfg: Config, req: Request): InitContainer {
    InitContainer(
      cfg.initImage, cfg.initImagePullPolicy, cfg.runAsUser,
      match cfg.runAsGroup case Some(g) => g case None => req.fsGroup,
      req.env,
      [MountSpec(VOL_SECRETS, req.mountPath, false)] +
      (if req.provider == "local" then [MountSpec(VOL_LOCAL, cfg.localBasePath, true)] else []) +
      (if NeedsKeeperVolume(cfg, req.provider) then [MountSpec(VOL_KEEPER, CertMountDir(cfg), true)] else []))
  }

  /** The container in the patch. */
  function InitJson(cfg: Config, req: Request): Json {
    ContainerJson(InitContainerFor(cfg, req))
  }

  function InitOps(path: string, pod: Pod, container: Json): seq<Op> {
    if InitContainerExists(pod.initContainers, INIT_NAME) then []
    else [AddOrCreate(path, pod.initContainers == [], container)]
  }

  function AppMount(mountPath: string): Json {
    MountJson(MountSpec(VOL_SECRETS, mountPath, true))
  }

  /** The operation for app container i of the list at `path`, if it lacks the mount. */
  function MountOp(path: string, c: Container, i: nat, mountPath: string): seq<Op> {
    if MountExists(c.volumeMounts, VOL_SECRETS, mountPath) then []
    else [AddOrCreate(path + "/" + Digits(i) + "/volumeMounts", c.volumeMounts == [], AppMount(mountPath))]
  }

  /** The operations for containers from..|cs|. */
  function MountOps(path: string, cs: seq<Container>, from: nat, mountPath: string): seq<Op>
    requires from <= |cs|
    decreases |cs| - from
  {
    if from == |cs| then [] else MountOp(path, cs[from], from, mountPath) + MountOps(path, cs, from + 1, mountPath)
  }

  /** The names of the spec members the patch extends. */
  datatype Keys = Keys(securityContext: string, volumes: string, initContainers: string, containers: string)

  const KEYS := Keys("securityContext", "volumes", "initContainers", "containers")

  function At(key: string): string {
    "/spec/" + key
  }

  function OpsAt(k: Keys, pod: Pod, cfg: Config, req: Request): seq<Op> {
    SecurityOps(At(k.securityContext), pod, req.fsGroup) + VolumeOps(At(k.volumes), pod, cfg, req.provider) +
    InitOps(At(k.initContainers), pod, InitJson(cfg, req)) +
    MountOps(At(k.containers), pod.containers, 0, req.mountPath)
  }

  function Ops(pod: Pod, cfg: Config, req: Request): seq<Op> {
    OpsAt(KEYS, pod, cfg, req)
  }

  ghost function Mutation(pod: Pod, cfg: Config): Outcome {
    match Admit(pod, cfg)
    case Skip => Skipped
    case Reject(audit, why) => Rejected(audit, why)
    case Accept(audit, req) => Patched(audit, Ops(pod, cfg, req))
  }

  /** An accepted request is what the annotations say, and every part of it passed its validator. */
  lemma AcceptedRequest(pod: Pod, cfg: Config)
    requires Admit(pod, cfg).Accept?
    ensures var req := Admit(pod, cfg).req;
            && "chur.io/provider" in pod.annotations && req.provider == pod.annotations["chur.io/provider"]
            && req.provider in VALID_PROVIDERS
            && req.ref == Annotation(pod, "chur.io/secret-ref") && ValidRefFor(req.provider, req.ref)
            && req.key == Annotation(pod, "chur.io/secret-key") && ValidSecretKey(req.key)
            && req.mountPath == MountPathOf(pod) && req.mountPath != "" && ValidMountPath(req.mountPath)
            && req.fsGroup == FsGroupOf(pod, cfg)
            && InitEnv(cfg, req.provider, req.ref, req.key, req.mountPath, pod) == Ok(req.env)
  {
  }

  /** The audit names the pod and the provider it asked for. */
  lemma AuditNames(pod: Pod, cfg: Config)
    requires !Admit(pod, cfg).Skip?
    ensures var audit := Admit(pod, cfg).audit;
            && audit.namespace == pod.namespace && audit.pod == pod.name
            && audit.provider == Annotation(pod, "chur.io/provider")
  {
  }

  /** A pod is left alone, accepted or refused for these reasons and no others. */
  lemma DecisionIff(pod: Pod, cfg: Config)
    ensures Admit(pod, cfg).Skip? <==>
            || (cfg.allowedNamespaces != [] && pod.namespace !in cfg.allowedNamespaces)
            || "chur.io/provider" !in pod.annotations
    ensures Admit(pod, cfg).Accept? <==>
            && !Admit(pod, cfg).Skip?
            && Annotation(pod, "chur.io/provider") in VALID_PROVIDERS
            && ValidRefFor(Annotation(pod, "chur.io/provider"), Annotation(pod, "chur.io/secret-ref"))
            && ValidSecretKey(Annotation(pod, "chur.io/secret-key"))
            && ValidMountPath(MountPathOf(pod))
            && (Annotation(pod, "chur.io/provider") == "keeper" && SkipVerify(pod) ==> cfg.allowKeeperSkipVerify)
            && (Annotation(pod, "chur.io/provider-env") != "" ==>
                  cfg.decodeEnv(Annotation(pod, "chur.io/provider-env")).Some?
                  && AllAcceptable(cfg.decodeEnv(Annotation(pod, "chur.io/provider-env")).value))
  {
    assert "" !in VALID_PROVIDERS;
  }

  lemma PatchedIsAccepted(pod: Pod, cfg: Config)
    requires Mutation(pod, cfg).Patched?
    ensures Admit(pod, cfg).Accept? && Mutation(pod, cfg).ops == Ops(pod, cfg, Admit(pod, cfg).req)
  {
  }

  lemma OpsByPath(pod: Pod, cfg: Config, req: Request)
    ensures Ops(pod, cfg, req) ==
            SecurityOps("/spec/securityContext", pod, req.fsGroup) +
            VolumeOps("/spec/volumes", pod, cfg, req.provider) +
            InitOps("/spec/initContainers", pod, InitJson(cfg, req)) +
            MountOps("/spec/containers", pod.containers, 0, req.mountPath)
  {
    assert At(KEYS.securityContext) == "/spec/securityContext" && At(KEYS.volumes) == "/spec/volumes";
    assert At(KEYS.initContainers) == "/spec/initContainers" && At(KEYS.containers) == "/spec/containers";
  }

  // ---- The program ------------------------------------------------------------

  method PatchVolumes(pod: Pod, cfg: Config, provider: string) returns (patches: seq<Op>)
    ensures patches == VolumeOps("/spec/volumes", pod, cfg, provider)
  {
    patches := [];
    assert "/spec/volumes" + "/-" == "/spec/volumes/-";
    if !VolumeExists(pod.volumes, VOL_SECRETS) {
      if |pod.volumes| == 0 {
        patches := patches + [Add("/spec/volumes", Arr([SecretsVolume(cfg)]))];
      } else {
        patches := patches + [Add("/spec/volumes/-", SecretsVolume(cfg))];
      }
    }
    if provider == "local" && !VolumeExists(pod.volumes, VOL_LOCAL) {
      patches := patches + [Add("/spec/volumes/-", LocalVolume(cfg))];
    }
    if provider == "keeper" && cfg.keeperClientCertSecretName != "" {
      if !VolumeExists(pod.volumes, VOL_KEEPER) {
        if |pod.volumes| == 0 {
          patches := patches + [Add("/spec/volumes", Arr([KeeperVolume(cfg)]))];
        } else {
          patches := patches + [Add("/spec/volumes/-", KeeperVolume(cfg))];
        }
      }
    }
  }

  /** The keeper block of buildInitEnv: None when the skip-verify annotation is not allowed. */
  method BuildKeeperEnv(cfg: Config, pod: Pod) returns (res: Option<seq<EnvVar>>)
    ensures res == if SkipVerify(pod) && !cfg.allowKeeperSkipVerify then None else Some(KeeperEnv(cfg, pod))
  {
    var env := [];
    if cfg.keeperServiceName != "" {
      env := env + [EnvVar("CHUR_KEEPER_URL", KeeperURL(cfg))];
    }
    assert env == When(cfg.keeperServiceName != "", "CHUR_KEEPER_URL", KeeperURL(cfg));
    env := AppendWhen(env, cfg.keeperTLSCertPath, "CHUR_KEEPER_TLS_CERT_PATH");
    env := AppendWhen(env, cfg.keeperTLSKeyPath, "CHUR_KEEPER_TLS_KEY_PATH");
    env := AppendWhen(env, cfg.keeperServerCA, "CHUR_KEEPER_SERVER_CA");
    env := AppendWhen(env, cfg.keeperClientMaxSecretSize, "CHUR_KEEPER_CLIENT_MAX_SECRET_SIZE");
    if SkipVerify(pod) {
      if !cfg.allowKeeperSkipVerify {
        return None;
      }
      env := env + [EnvVar("CHUR_KEEPER_INSECURE_SKIP_VERIFY", "1")];
    }
    assert env == KeeperEnv(cfg, pod);
    return Some(env);
  }

  /** `if value != "" { env = append(env, ...) }`. */
  method AppendWhen(env: seq<EnvVar>, value: string, name: string) returns (r: seq<EnvVar>)
    ensures r == env + When(value != "", name, value)
  {
    r := env;
    if value != "" {
      r := r + [EnvVar(name, value)];
    }
  }

  method BuildInitEnv(cfg: Config, provider: string, ref: string, key: string, mountPath: string, pod: Pod)
    returns (res: Result<seq<EnvVar>, Reason>)
    ensures res == InitEnv(cfg, provider, ref, key, mountPath, pod)
  {
    var env := AppendWhen(BaseEnv(cfg, provider, ref, mountPath), key, "CHUR_SECRET_KEY");
    if provider == "keeper" {
      var keeperEnv := BuildKeeperEnv(cfg, pod);
      if keeperEnv.None? {
        return Err(SkipVerifyNotAllowed);
      }
      env := env + keeperEnv.value;
    }
    assert env == ManagedEnv(cfg, provider, ref, key, mountPath, pod);
    var annotation := Annotation(pod, "chur.io/provider-env");
    var extraEnv: seq<EnvVar> := [];
    if annotation != "" {
      var extra := cfg.decodeEnv(annotation);
      if extra.None? {
        return Err(BadProviderEnv);
      }
      var parsed := ParseProviderEnv(extra.value);
      if parsed.None? {
        return Err(BadProviderEnv);
      }
      extraEnv := parsed.value;
    }
    return Ok(env + extraEnv);
  }

  method BuildInitContainer(cfg: Config, req: Request) returns (c: InitContainer)
    ensures c == InitContainerFor(cfg, req)
  {
    var runAsGroup := req.fsGroup;
    if cfg.runAsGroup.Some? {
      runAsGroup := cfg.runAsGroup.value;
    }
    c := InitContainer(cfg.initImage, cfg.initImagePullPolicy, cfg.runAsUser, runAsGroup, req.env,
                       [MountSpec(VOL_SECRETS, req.mountPath, false)]);
    if req.provider == "local" {
      c := c.(mounts := c.mounts + [MountSpec(VOL_LOCAL, cfg.localBasePath, true)]);
    }
    if req.provider == "keeper" && cfg.keeperClientCertSecretName != "" {
      c := c.(mounts := c.mounts + [MountSpec(VOL_KEEPER, CertMountDir(cfg), true)]);
    }
  }

  lemma {:induction false} MountOpsSnoc(path: string, cs: seq<Container>, from: nat, i: nat, mountPath: string)
    requires from <= i < |cs|
    ensures MountOps(path, cs[..i + 1], from, mountPath) ==
            MountOps(path, cs[..i], from, mountPath) + MountOp(path, cs[i], i, mountPath)
    decreases i - from
  {
    if from < i {
      MountOpsSnoc(path, cs, from + 1, i, mountPath);
    }
  }

  method MountToAppContainers(pod: Pod, mountPath: string) returns (patches: seq<Op>)
    ensures patches == MountOps("/spec/containers", pod.containers, 0, mountPath)
  {
    patches := [];
    var cs := pod.containers;
    for i := 0 to |cs|
      invariant patches == MountOps("/spec/containers", cs[..i], 0, mountPath)
    {
      MountOpsSnoc("/spec/containers", cs, 0, i, mountPath);
      if MountExists(cs[i].volumeMounts, VOL_SECRETS, mountPath) {
        continue;
      }
      var path := "/spec/containers" + "/" + Digits(i) + "/volumeMounts";
      if |cs[i].volumeMounts| == 0 {
        patches := patches + [Add(path, Arr([AppMount(mountPath)]))];
      } else {
        patches := patches + [Add(path + "/-", AppMount(mountPath))];
      }
    }
    assert cs[..|cs|] == cs;
  }

  /** The block of MutatePod that adds the init container. */
  method PatchInitContainers(pod: Pod, container: InitContainer) returns (patches: seq<Op>)
    ensures patches == InitOps("/spec/initContainers", pod, ContainerJson(container))
  {
    patches := [];
    assert "/spec/initContainers" + "/-" == "/spec/initContainers/-";
    if !InitContainerExists(pod.initContainers, INIT_NAME) {
      if |pod.initContainers| == 0 {
        patches := patches + [Add("/spec/initContainers", Arr([ContainerJson(container)]))];
      } else {
        patches := patches + [Add("/spec/initContainers/-", ContainerJson(container))];
      }
    }
  }

  method MutatePod(pod: Pod, cfg: Config) returns (outcome: Outcome)
    ensures outcome == Mutation(pod, cfg)
  {
    if |cfg.allowedNamespaces| > 0 && pod.namespace !in cfg.allowedNamespaces {
      return Skipped;
    }
    if "chur.io/provider" !in pod.annotations {
      return Skipped;
    }
    var provider := pod.annotations["chur.io/provider"];
    var audit := Audit(pod.namespace, pod.name, provider);
    if provider == "" {
      return Rejected(audit, EmptyProvider);
    }
    if provider !in VALID_PROVIDERS {
      return Rejected(audit, UnknownProvider);
    }
    var ref := Annotation(pod, "chur.io/secret-ref");
    if !ValidRefFor(provider, ref) {
      return Rejected(audit, BadSecretRef);
    }
    var key := Annotation(pod, "chur.io/secret-key");
    if !ValidSecretKey(key) {
      return Rejected(audit, BadSecretKey);
    }
    var mountPath := MountPathOf(pod);
    if !ValidMountPath(mountPath) {
      return Rejected(audit, BadMountPath);
    }
    var fsGroup := FsGroupOf(pod, cfg);
    var patches := SecurityOps("/spec/securityContext", pod, fsGroup);
    var volumes := PatchVolumes(pod, cfg, provider);
    patches := patches + volumes;
    var env := BuildInitEnv(cfg, provider, ref, key, mountPath, pod);
    if env.Err? {
      return Rejected(audit, env.error);
    }
    var req := Request(provider, ref, key, mountPath, fsGroup, env.value);
    var container := BuildInitContainer(cfg, req);
    assert Admit(pod, cfg) == Accept(audit, req);
    var inits := PatchInitContainers(pod, container);
    patches := patches + inits;
    var mounts := MountToAppContainers(pod, mountPath);
    patches := patches + mounts;
    OpsByPath(pod, cfg, req);
    return Patched(audit, patches);
  }
}
