/** The parts of one patch agree with each other: volumes, mounts, groups and certificate paths. */
module Coherence {
  import opened Injection
  import opened JsonPatch
  import opened Mutator
  import opened Pods
  import opened Reinvocation
  import opened WebhookConfig
  import opened Wrappers
  import Agreement
  import Written

  /** Every mount of the init container, and the mount of the app containers, names one of these volumes. */
  predicate MountsResolve(volumes: seq<Json>, cfg: Config, req: Request) {
    && (forall m | m in InitContainerFor(cfg, req).mounts :: Named(volumes, m.name))
    && Named(volumes, VOL_SECRETS)
  }

  /** Every mount chur adds names a volume of the patched pod, exactly when the volume operations did not clash. */
  lemma MountsResolveIff(doc: Json, cfg: Config, req: Request)
    requires IsPodDocument(doc)
    ensures IsPodDocument(Patch(doc, cfg, req))
    ensures MountsResolve(VolumesOf(Patch(doc, cfg, req)), cfg, req) <==> !Clash(VolumesOf(doc), cfg, req.provider)
  {
    var vols, added := VolumesOf(doc), AddedVolumes(VolumesOf(doc), cfg, req.provider);
    PatchedDocument(doc, cfg, req);
    KeysDistinct();
    SpecWithMembers(SpecOf(doc), KEYS, cfg, req, added);
    ResolveIn(vols, cfg, req);
  }

  lemma ResolveIn(vols: seq<Json>, cfg: Config, req: Request)
    ensures MountsResolve(vols + AddedVolumes(vols, cfg, req.provider), cfg, req) <==> !Clash(vols, cfg, req.provider)
  {
    var added := AddedVolumes(vols, cfg, req.provider);
    var mounts := InitContainerFor(cfg, req).mounts;
    forall n ensures Named(vols + added, n) <==> Named(vols, n) || Named(added, n) {
      NamedConcat(vols, added, n);
    }
    AddedNames(vols, cfg, req.provider, VOL_SECRETS);
    AddedNames(vols, cfg, req.provider, VOL_LOCAL);
    AddedNames(vols, cfg, req.provider, VOL_KEEPER);
    assert mounts[0].name == VOL_SECRETS;
    forall m | m in mounts
      ensures m.name == VOL_SECRETS || (m.name == VOL_LOCAL && req.provider == "local") ||
              (m.name == VOL_KEEPER && NeedsKeeperVolume(cfg, req.provider))
    {
    }
  }

  // ---- Which volume the secret goes to ----------------------------------------------------

  /** A pod with this spec that asks the keeper for the secret "a". */
  function ExampleDocument(spec: Members): Json {
    Obj(map["metadata" := Obj(map["annotations" := Obj(ExampleAnnotations())]), "spec" := Obj(spec)])
  }

  function ExampleAnnotations(): map<string, Json> {
    map["chur.io/provider" := Str("keeper"), "chur.io/secret-ref" := Str("a")]
  }

  lemma ExampleSpec(spec: Members)
    ensures Spec(ExampleDocument(spec)) == Obj(spec)
  {
    var key := "spec";
    assert ExampleDocument(spec).members[key] == Obj(spec);
  }

  lemma ExampleDecodes(spec: Members)
    ensures Decode(ExampleDocument(spec)).annotations ==
            map["chur.io/provider" := "keeper", "chur.io/secret-ref" := "a"]
  {
    var key := "annotations";
    assert Field(Field(ExampleDocument(spec), "metadata"), key) == Obj(ExampleAnnotations());
    DecodeExampleAnnotations();
  }

  lemma DecodeExampleAnnotations()
    ensures DecodeAnnotations(Obj(ExampleAnnotations())) ==
            map["chur.io/provider" := "keeper", "chur.io/secret-ref" := "a"]
  {
  }

  lemma ExampleIsAccepted(spec: Members, cfg: Config)
    requires cfg.allowedNamespaces == []
    ensures var verdict := Admit(Decode(ExampleDocument(spec)), cfg);
            verdict.Accept? && verdict.req.provider == "keeper"
  {
    var pod := Decode(ExampleDocument(spec));
    ExampleDecodes(spec);
    Agreement.PlainAnnotations(pod);
    Agreement.ExampleAccepted(pod, cfg);
  }

  /** A volume on the node's disk that has the name of the webhook's own. */
  function DiskVolume(): Json {
    VolumeJson(VOL_SECRETS, "hostPath", map["path" := Str("/data")])
  }

  function OwnVolumeSpec(): Members {
    map["volumes" := Arr([DiskVolume()])]
  }

  lemma OwnVolumeSpecVolumes()
    ensures IsPodDocument(ExampleDocument(OwnVolumeSpec()))
    ensures VolumesOf(ExampleDocument(OwnVolumeSpec())) == [DiskVolume()]
  {
    ExampleSpec(OwnVolumeSpec());
  }

  lemma DiskVolumeIsOther(cfg: Config)
    ensures !Written.OnlyMemory([DiskVolume()], cfg)
  {
    var v, kind := DiskVolume(), "hostPath";
    assert kind in v.members && kind !in {"name", "emptyDir"};
    assert v in [v] && AsText(Field(v, "name")) == "chur-secrets";
  }

  /** The document is accepted, and its patch leaves the secret's mounts on another volume. */
  ghost predicate MissesMemory(doc: Json, cfg: Config) {
    var verdict := Admit(Decode(doc), cfg);
    && IsPodDocument(doc) && verdict.Accept? && IsPodDocument(Patch(doc, cfg, verdict.req))
    && !Written.SecretsInMemory(VolumesOf(Patch(doc, cfg, verdict.req)), cfg)
  }

  lemma BroughtVolumeStays(doc: Json, cfg: Config)
    requires IsPodDocument(doc) && Admit(Decode(doc), cfg).Accept? && !Written.OnlyMemory(VolumesOf(doc), cfg)
    ensures MissesMemory(doc, cfg)
  {
    Written.SecretsInMemoryIff(doc, cfg, Admit(Decode(doc), cfg).req);
  }

  /** The family is inhabited: an accepted pod that brings a disk volume of that name. */
  lemma OwnVolumeStays(cfg: Config)
    requires cfg.allowedNamespaces == []
    ensures MissesMemory(ExampleDocument(OwnVolumeSpec()), cfg)
  {
    OwnVolumeSpecVolumes();
    ExampleIsAccepted(OwnVolumeSpec(), cfg);
    DiskVolumeIsOther(cfg);
    BroughtVolumeStays(ExampleDocument(OwnVolumeSpec()), cfg);
  }

  // ---- The clash on a pod ------------------------------------------------------------------

  /** A pod without volumes. */
  function ClashDocument(): Json {
    ExampleDocument(map[])
  }

  /** The operations emitted for this document apply, and lose the secrets volume that it mounts. */
  ghost predicate LosesSecrets(doc: Json, cfg: Config) {
    && IsPodDocument(doc)
    && match Mutation(Decode(doc), cfg)
       case Patched(_, ops) =>
         var next := ApplyAll(doc, ops);
         next.Some? && IsPodDocument(next.value) && VolumesOf(next.value) == [KeeperVolume(cfg)]
         && !Named(VolumesOf(next.value), VOL_SECRETS)
       case _ => false
  }

  lemma AcceptedClash(doc: Json, cfg: Config)
    requires IsPodDocument(doc) && Admit(Decode(doc), cfg).Accept?
    requires Clash(VolumesOf(doc), cfg, Admit(Decode(doc), cfg).req.provider)
    ensures LosesSecrets(doc, cfg)
  {
    ClashLoses(doc, cfg, Admit(Decode(doc), cfg).req);
  }

  /** The failing family is inhabited: with a client-cert secret configured, this pod is accepted and clashes. */
  lemma ClashLosesSecrets(cfg: Config)
    requires cfg.allowedNamespaces == [] && cfg.keeperClientCertSecretName != ""
    ensures LosesSecrets(ClashDocument(), cfg)
  {
    ExampleSpec(map[]);
    ExampleIsAccepted(map[], cfg);
    AcceptedClash(ClashDocument(), cfg);
  }

  /** What a clash leaves, for every document and request: the keeper volume alone. */
  lemma ClashLoses(doc: Json, cfg: Config, req: Request)
    requires IsPodDocument(doc) && Clash(VolumesOf(doc), cfg, req.provider)
    ensures ApplyAll(doc, Ops(Decode(doc), cfg, req)) == Some(Patch(doc, cfg, req))
    ensures IsPodDocument(Patch(doc, cfg, req))
    ensures VolumesOf(Patch(doc, cfg, req)) == [KeeperVolume(cfg)]
    ensures !Named(VolumesOf(Patch(doc, cfg, req)), VOL_SECRETS)
  {
    PatchApplies(doc, cfg, req);
    PatchedDocument(doc, cfg, req);
    KeysDistinct();
    SpecWithMembers(SpecOf(doc), KEYS, cfg, req, AddedVolumes(VolumesOf(doc), cfg, req.provider));
    VolumeNames(cfg);
    assert [] + [KeeperVolume(cfg)] == [KeeperVolume(cfg)];
  }

  /** The init container mounts each required volume once, in order, and nothing else. */
  lemma MountsMatchRequired(cfg: Config, req: Request)
    ensures var mounts, required := InitContainerFor(cfg, req).mounts, Required(cfg, req.provider);
            && |mounts| == |required|
            && forall i | 0 <= i < |mounts| :: mounts[i].name == AsText(Field(required[i], "name"))
  {
    assert AsText(Field(SecretsVolume(cfg), "name")) == VOL_SECRETS;
    assert AsText(Field(LocalVolume(cfg), "name")) == VOL_LOCAL;
    assert AsText(Field(KeeperVolume(cfg), "name")) == VOL_KEEPER;
  }

  // ---- Mount paths within one container ----------------------------------------------------

  /** No path is mounted twice, as Kubernetes demands of each container. */
  predicate DistinctPaths(mounts: seq<VolumeMount>) {
    forall i, j | 0 <= i < j < |mounts| :: mounts[i].mountPath != mounts[j].mountPath
  }

  /** The container has the mount already, or nothing at its path. */
  predicate HasRoom(c: Json, mountPath: string) {
    Mounted(c, mountPath) || forall m | m in Mounts(c) :: m.mountPath != mountPath
  }

  lemma AppPathsIff(c: Json, mountPath: string)
    requires c.Obj? && DistinctPaths(Mounts(c))
    ensures DistinctPaths(Mounts(WithMount(c, mountPath))) <==> HasRoom(c, mountPath)
  {
    if !Mounted(c, mountPath) {
      var ms, m := Mounts(c), VolumeMount(VOL_SECRETS, mountPath);
      var ms' := Mounts(WithMount(c, mountPath));
      var have := List(c.members, "volumeMounts");
      assert Elems(Field(WithMount(c, mountPath), "volumeMounts")) == have + [AppMount(mountPath)];
      assert DecodeMount(AppMount(mountPath)) == m;
      assert ms' == ms + [m];
      assert forall i | 0 <= i < |ms| :: ms[i] in ms && ms'[i] == ms[i];
      assert ms'[|ms|] == m;
    }
  }

  /** The mount path of the pod is none of the init container's other ones. */
  predicate InitHasRoom(cfg: Config, req: Request) {
    && (req.provider == "local" ==> req.mountPath != cfg.localBasePath)
    && (NeedsKeeperVolume(cfg, req.provider) ==> req.mountPath != CertMountDir(cfg))
  }

  lemma InitPathsIff(cfg: Config, req: Request)
    ensures DistinctPaths(Mounts(InitJson(cfg, req))) <==> InitHasRoom(cfg, req)
  {
    var specs, ms := InitContainerFor(cfg, req).mounts, Mounts(InitJson(cfg, req));
    assert |ms| == |specs| <= 2;
    forall i | 0 <= i < |specs| ensures ms[i].mountPath == specs[i].mountPath {
      assert Elems(Field(InitJson(cfg, req), "volumeMounts"))[i] == MountJson(specs[i]);
      MountJsonPath(specs[i]);
    }
    if |specs| == 2 {
      assert specs[0].mountPath == req.mountPath;
      assert DistinctPaths(ms) <==> ms[0].mountPath != ms[1].mountPath;
    }
  }

  lemma MountJsonPath(m: MountSpec)
    ensures DecodeMount(MountJson(m)) == VolumeMount(m.name, m.mountPath)
  {
  }

  /** No container of the pod has a path twice. */
  predicate PathsDistinct(doc: Json)
    requires IsPodDocument(doc)
  {
    && (forall c | c in List(SpecOf(doc), "initContainers") :: DistinctPaths(Mounts(c)))
    && forall c | c in List(SpecOf(doc), "containers") :: DistinctPaths(Mounts(c))
  }

  /**
   A pod without doubled paths stays so exactly when every app container has
   room for the mount, and so has the init container where one is added.
   */
  lemma PathsStayDistinctIff(doc: Json, cfg: Config, req: Request)
    requires IsPodDocument(doc) && PathsDistinct(doc)
    ensures IsPodDocument(Patch(doc, cfg, req))
    ensures PathsDistinct(Patch(doc, cfg, req)) <==>
            && (forall c | c in List(SpecOf(doc), "containers") :: HasRoom(c, req.mountPath))
            && (Named(List(SpecOf(doc), "initContainers"), INIT_NAME) || InitHasRoom(cfg, req))
  {
    var cs, ics := List(SpecOf(doc), "containers"), List(SpecOf(doc), "initContainers");
    var next := Patch(doc, cfg, req);
    PatchedDocument(doc, cfg, req);
    KeysDistinct();
    SpecWithMembers(SpecOf(doc), KEYS, cfg, req, AddedVolumes(VolumesOf(doc), cfg, req.provider));
    InitPathsIff(cfg, req);
    AppListIff(cs, req.mountPath);
    var newInit := InitToAdd(ics, InitJson(cfg, req));
    assert forall c :: c in ics + newInit <==> c in ics || c in newInit;
  }

  lemma AppListIff(cs: seq<Json>, mountPath: string)
    requires forall c | c in cs :: c.Obj? && DistinctPaths(Mounts(c))
    ensures (forall c | c in MountAll(cs, mountPath) :: DistinctPaths(Mounts(c))) <==>
            forall c | c in cs :: HasRoom(c, mountPath)
  {
    var next := MountAll(cs, mountPath);
    forall i | 0 <= i < |cs|
      ensures cs[i] in cs && next[i] in next
      ensures DistinctPaths(Mounts(next[i])) <==> HasRoom(cs[i], mountPath)
    {
      AppPathsIff(cs[i], mountPath);
    }
  }

  /** Init and app containers see the secrets volume at one path, in a pod with a new init container. */
  lemma SameMountPath(doc: Json, cfg: Config, req: Request)
    requires IsPodDocument(doc) && !Named(List(SpecOf(doc), "initContainers"), INIT_NAME)
    ensures var next := Patch(doc, cfg, req);
            && IsPodDocument(next)
            && (exists c | c in List(SpecOf(next), "initContainers") ::
                  AsText(Field(c, "name")) == INIT_NAME && Mounted(c, req.mountPath))
            && (forall c | c in List(SpecOf(next), "containers") :: Mounted(c, req.mountPath))
  {
    var next, cs := Patch(doc, cfg, req), List(SpecOf(doc), "containers");
    PatchedDocument(doc, cfg, req);
    KeysDistinct();
    SpecWithMembers(SpecOf(doc), KEYS, cfg, req, AddedVolumes(VolumesOf(doc), cfg, req.provider));
    var c := InitJson(cfg, req);
    assert InitToAdd(List(SpecOf(doc), "initContainers"), c)[0] == c;
    assert c in List(SpecOf(next), "initContainers");
    InitMounts(cfg, req);
    DecodeRepresents(doc);
    forall i | 0 <= i < |cs| ensures Mounted(MountAll(cs, req.mountPath)[i], req.mountPath) {
      assert cs[i] in cs;
      MountedAfter(cs[i], req.mountPath);
    }
  }

  lemma InitMounts(cfg: Config, req: Request)
    ensures Mounted(InitJson(cfg, req), req.mountPath) && AsText(Field(InitJson(cfg, req), "name")) == INIT_NAME
  {
    var spec := InitContainerFor(cfg, req);
    var ms := Mounts(InitJson(cfg, req));
    assert spec.mounts[0] == MountSpec(VOL_SECRETS, req.mountPath, false);
    assert Elems(Field(InitJson(cfg, req), "volumeMounts"))[0] == MountJson(spec.mounts[0]);
    assert ms[0] == VolumeMount(VOL_SECRETS, req.mountPath);
  }

  /** chur-init alone can write, and only to the secrets volume: every other mount chur adds is read-only. */
  lemma OnlyInitWrites(cfg: Config, req: Request)
    ensures forall m | m in InitContainerFor(cfg, req).mounts :: m.readOnly <==> m.name != VOL_SECRETS
    ensures Field(AppMount(req.mountPath), "readOnly") == Bool(true)
    ensures forall m: MountSpec :: Field(MountJson(m), "readOnly") == (if m.readOnly then Bool(true) else Null)
  {
    VolumeNames(cfg);
  }

  /** The group that owns the volume is the init container's group, unless another one is configured. */
  lemma GroupsAgree(doc: Json, cfg: Config)
    requires IsPodDocument(doc) && Admit(Decode(doc), cfg).Accept?
    ensures var req := Admit(Decode(doc), cfg).req;
            var runAsGroup := Field(Field(InitJson(cfg, req), "securityContext"), "runAsGroup");
            && Decode(Patch(doc, cfg, req)).securityContext == Some(SecurityContext(Some(req.fsGroup)))
            && runAsGroup == Num(match cfg.runAsGroup case Some(g) => g case None => req.fsGroup)
  {
    var req := Admit(Decode(doc), cfg).req;
    AcceptedRequest(Decode(doc), cfg);
    PatchedDocument(doc, cfg, req);
    KeysDistinct();
    SpecWithMembers(SpecOf(doc), KEYS, cfg, req, AddedVolumes(VolumesOf(doc), cfg, req.provider));
    FsGroupAfter(SpecOf(doc), KEYS.securityContext, req.fsGroup);
    SecurityJsonGroup(InitContainerFor(cfg, req));
  }

  lemma SecurityJsonGroup(c: InitContainer)
    ensures Field(Field(ContainerJson(c), "securityContext"), "runAsGroup") == Num(c.runAsGroup)
  {
    assert Field(ContainerJson(c), "securityContext") == SecurityJson(c);
  }

  // ---- The client certificate directory -----------------------------------------------

  /** path is a file directly inside dir. */
  ghost predicate DirectlyUnder(path: string, dir: string) {
    exists base :: base != "" && '/' !in base && path == dir + "/" + base
  }

  /** Something follows the last '/' of the path. */
  predicate EndsInName(path: string) {
    '/' in path && path[|path| - 1] != '/'
  }

  lemma {:induction false} CutSplits(s: string)
    requires '/' in s
    ensures exists base :: '/' !in base && s == CutAtLastSlash(s) + "/" + base
  {
    if s[|s| - 1] == '/' {
      assert s == s[..|s| - 1] + "/" + "";
      assert '/' !in "";
    } else {
      var init := s[..|s| - 1];
      assert s == init + [s[|s| - 1]];
      CutSplits(init);
      var base :| '/' !in base && init == CutAtLastSlash(init) + "/" + base;
      var base' := base + [s[|s| - 1]];
      assert s == CutAtLastSlash(s) + "/" + base' && '/' !in base';
    }
  }

  lemma {:induction false} CutConcat(a: string, b: string)
    requires '/' !in b
    ensures CutAtLastSlash(a + "/" + b) == a
    decreases |b|
  {
    var s := a + "/" + b;
    if b == "" {
      assert s[..|s| - 1] == a;
    } else {
      assert s[..|s| - 1] == a + "/" + b[..|b| - 1];
      CutConcat(a, b[..|b| - 1]);
      assert s[|a|] == '/';
    }
  }

  /** Any path lies directly under the mount exactly when it ends in a name and has the same directory before it. */
  lemma FileUnderMountIff(cfg: Config, path: string)
    ensures DirectlyUnder(path, CertMountDir(cfg)) <==> EndsInName(path) && CutAtLastSlash(path) == CertMountDir(cfg)
  {
    var dir := CertMountDir(cfg);
    if '/' in path {
      CutSplits(path);
      var base :| '/' !in base && path == CutAtLastSlash(path) + "/" + base;
      assert path[|path| - 1] == if base == "" then '/' else base[|base| - 1];
      forall b | b != "" && '/' !in b && path == dir + "/" + b
        ensures CutAtLastSlash(path) == dir && path[|path| - 1] == b[|b| - 1]
      {
        CutConcat(dir, b);
      }
    } else {
      forall base ensures path != dir + "/" + base {
        assert '/' in dir + "/" + base;
      }
    }
  }

  /**
   A configured certificate path lies directly under the mount the webhook
   makes for it exactly when it has a '/' and a name after the last one; that
   mount has a path at all exactly when the '/' is not only the leading one.
   */
  lemma CertUnderMountIff(cfg: Config)
    requires cfg.keeperTLSCertPath != ""
    ensures DirectlyUnder(cfg.keeperTLSCertPath, CertMountDir(cfg)) <==> EndsInName(cfg.keeperTLSCertPath)
    ensures CertMountDir(cfg) == "" <==> cfg.keeperTLSCertPath[0] == '/' && '/' !in cfg.keeperTLSCertPath[1..]
  {
    var p, dir := cfg.keeperTLSCertPath, CertMountDir(cfg);
    FileUnderMountIff(cfg, p);
    if '/' in p {
      CutSplits(p);
      var base :| '/' !in base && p == dir + "/" + base;
      assert p[|dir|] == '/';
      assert dir == "" ==> p[1..] == base;
      assert dir != "" ==> p[1..][|dir| - 1] == '/';
    }
  }

  /**
   The key path plays no part in the mount: certificate and key are both
   directly under it exactly when each ends in a name and they share a directory.
   */
  lemma KeyUnderMountIff(cfg: Config)
    requires cfg.keeperTLSCertPath != ""
    ensures var cert, key := cfg.keeperTLSCertPath, cfg.keeperTLSKeyPath;
            DirectlyUnder(cert, CertMountDir(cfg)) && DirectlyUnder(key, CertMountDir(cfg)) <==>
            EndsInName(cert) && EndsInName(key) && CutAtLastSlash(cert) == CutAtLastSlash(key)
  {
    FileUnderMountIff(cfg, cfg.keeperTLSCertPath);
    FileUnderMountIff(cfg, cfg.keeperTLSKeyPath);
  }

  /** Without a configured path the mount is one directory above the default one: the cut applies to it too. */
  lemma DefaultCertMount(cfg: Config)
    requires cfg.keeperTLSCertPath == ""
    ensures CertMountDir(cfg) == "/etc/chur-keeper"
  {
    CutConcat("/etc/chur-keeper", "client-tls");
    assert DEFAULT_CERT_DIR == "/etc/chur-keeper" + "/" + "client-tls";
  }
}
