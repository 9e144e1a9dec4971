/** The webhook run again on its own output. */
module Reinvocation {
  import opened Injection
  import opened JsonPatch
  import opened Mutator
  import opened Pods
  import opened WebhookConfig
  import opened Wrappers

  // ---- A second application --------------------------------------------------

  predicate Mounted(c: Json, mountPath: string) {
    MountExists(Mounts(c), VOL_SECRETS, mountPath)
  }

  /** Nothing is left to add. */
  predicate Settled(doc: Json, cfg: Config, req: Request)
    requires IsPodDocument(doc)
  {
    && (Decode(doc).securityContext.Some? && Decode(doc).securityContext.value.fsGroup.Some?)
    && MissingVolumes(VolumesOf(doc), cfg, req.provider) == []
    && Named(List(SpecOf(doc), "initContainers"), INIT_NAME)
    && forall c | c in List(SpecOf(doc), "containers") :: Mounted(c, req.mountPath)
  }

  lemma {:induction false} MountOpsEmptyIff(path: string, cs: seq<Container>, from: nat, mountPath: string)
    requires from <= |cs|
    ensures MountOps(path, cs, from, mountPath) == [] <==>
            forall i | from <= i < |cs| :: MountExists(cs[i].volumeMounts, VOL_SECRETS, mountPath)
    decreases |cs| - from
  {
    if from < |cs| {
      MountOpsEmptyIff(path, cs, from + 1, mountPath);
      assert |MountOps(path, cs, from, mountPath)| ==
             |MountOp(path, cs[from], from, mountPath)| + |MountOps(path, cs, from + 1, mountPath)|;
    }
  }

  lemma VolumeOpsEmptyIff(path: string, pod: Pod, vols: seq<Json>, cfg: Config, provider: string)
    requires SameVolumes(pod, vols)
    ensures VolumeOps(path, pod, cfg, provider) == [] <==> MissingVolumes(vols, cfg, provider) == []
  {
    MissingByName(vols, cfg, provider);
    SameVolumesNamed(pod, vols, VOL_SECRETS);
    SameVolumesNamed(pod, vols, VOL_LOCAL);
    SameVolumesNamed(pod, vols, VOL_KEEPER);
  }

  lemma OpsEmptyAt(spec: Members, k: Keys, pod: Pod, cfg: Config, req: Request)
    requires Represents(pod, spec, k)
    ensures OpsAt(k, pod, cfg, req) == [] <==>
            && (pod.securityContext.Some? && pod.securityContext.value.fsGroup.Some?)
            && MissingVolumes(List(spec, k.volumes), cfg, req.provider) == []
            && Named(List(spec, k.initContainers), INIT_NAME)
            && forall i | 0 <= i < |pod.containers| ::
                 MountExists(pod.containers[i].volumeMounts, VOL_SECRETS, req.mountPath)
  {
    MountOpsEmptyIff(At(k.containers), pod.containers, 0, req.mountPath);
    VolumeOpsEmptyIff(At(k.volumes), pod, List(spec, k.volumes), cfg, req.provider);
    SameContainersNamed(pod.initContainers, List(spec, k.initContainers), INIT_NAME);
    assert |OpsAt(k, pod, cfg, req)| ==
           |SecurityOps(At(k.securityContext), pod, req.fsGroup)| + |VolumeOps(At(k.volumes), pod, cfg, req.provider)| +
           |InitOps(At(k.initContainers), pod, InitJson(cfg, req))| +
           |MountOps(At(k.containers), pod.containers, 0, req.mountPath)|;
  }

  /** The generator emits nothing exactly for a settled pod. */
  lemma OpsEmptyIff(doc: Json, cfg: Config, req: Request)
    requires IsPodDocument(doc)
    ensures Ops(Decode(doc), cfg, req) == [] <==> Settled(doc, cfg, req)
  {
    DecodeRepresents(doc);
    OpsEmptyAt(SpecOf(doc), KEYS, Decode(doc), cfg, req);
    var cs := List(SpecOf(doc), "containers");
    assert forall i | 0 <= i < |cs| :: cs[i] in cs && Decode(doc).containers[i].volumeMounts == Mounts(cs[i]);
  }

  /** The patched document is again a pod's, with the same metadata. */
  lemma PatchedDocument(doc: Json, cfg: Config, req: Request)
    requires IsPodDocument(doc)
    ensures IsPodDocument(Patch(doc, cfg, req))
    ensures SpecOf(Patch(doc, cfg, req)) ==
            SpecWith(SpecOf(doc), cfg, req, AddedVolumes(VolumesOf(doc), cfg, req.provider))
    ensures Field(Patch(doc, cfg, req), "metadata") == Field(doc, "metadata")
  {
    KeysDistinct();
    SpecWithMembers(SpecOf(doc), KEYS, cfg, req, AddedVolumes(VolumesOf(doc), cfg, req.provider));
    DecodeRepresents(doc);
  }

  // ---- What the patch leaves to do ---------------------------------------------

  lemma NamedConcat(a: seq<Json>, b: seq<Json>, name: string)
    ensures Named(a + b, name) <==> Named(a, name) || Named(b, name)
  {
    assert forall j :: j in a + b <==> j in a || j in b;
  }

  lemma VolumeNames(cfg: Config)
    ensures forall n :: Named([SecretsVolume(cfg)], n) <==> n == VOL_SECRETS
    ensures forall n :: Named([LocalVolume(cfg)], n) <==> n == VOL_LOCAL
    ensures forall n :: Named([KeeperVolume(cfg)], n) <==> n == VOL_KEEPER
    ensures VOL_SECRETS != VOL_LOCAL && VOL_SECRETS != VOL_KEEPER && VOL_LOCAL != VOL_KEEPER
  {
    assert AsText(Field(SecretsVolume(cfg), "name")) == VOL_SECRETS;
    assert AsText(Field(LocalVolume(cfg), "name")) == VOL_LOCAL;
    assert AsText(Field(KeeperVolume(cfg), "name")) == VOL_KEEPER;
    assert SecretsVolume(cfg) in [SecretsVolume(cfg)];
    assert LocalVolume(cfg) in [LocalVolume(cfg)];
    assert KeeperVolume(cfg) in [KeeperVolume(cfg)];
  }

  lemma AddedNames(vols: seq<Json>, cfg: Config, provider: string, name: string)
    ensures Named(AddedVolumes(vols, cfg, provider), name) <==>
            || (name == VOL_SECRETS && !Clash(vols, cfg, provider) && !Named(vols, VOL_SECRETS))
            || (name == VOL_LOCAL && provider == "local" && !Named(vols, VOL_LOCAL))
            || (name == VOL_KEEPER && NeedsKeeperVolume(cfg, provider) && !Named(vols, VOL_KEEPER))
  {
    AddedByName(vols, cfg, provider);
    VolumeNames(cfg);
    NamedConcat(if Clash(vols, cfg, provider) then [] else Unless(Named(vols, VOL_SECRETS), SecretsVolume(cfg)),
                ProviderVolume(vols, cfg, provider), name);
  }

  /** After the patch all required volumes are there, except chur-secrets in a clash. */
  lemma VolumesAfter(vols: seq<Json>, cfg: Config, provider: string)
    ensures MissingVolumes(vols + AddedVolumes(vols, cfg, provider), cfg, provider) == [] <==>
            !Clash(vols, cfg, provider)
  {
    var added := AddedVolumes(vols, cfg, provider);
    VolumeNames(cfg);
    MissingByName(vols + added, cfg, provider);
    NamedConcat(vols, added, VOL_SECRETS);
    NamedConcat(vols, added, VOL_LOCAL);
    NamedConcat(vols, added, VOL_KEEPER);
    AddedNames(vols, cfg, provider, VOL_SECRETS);
    AddedNames(vols, cfg, provider, VOL_LOCAL);
    AddedNames(vols, cfg, provider, VOL_KEEPER);
  }

  lemma MountedAfter(c: Json, mountPath: string)
    requires c.Obj?
    ensures Mounted(WithMount(c, mountPath), mountPath)
  {
    if !Mounted(c, mountPath) {
      var have := List(c.members, "volumeMounts");
      var ms := Mounts(WithMount(c, mountPath));
      assert Elems(Field(WithMount(c, mountPath), "volumeMounts")) == have + [AppMount(mountPath)];
      assert DecodeMount(AppMount(mountPath)) == VolumeMount(VOL_SECRETS, mountPath);
      assert ms[|have|] == VolumeMount(VOL_SECRETS, mountPath);
    }
  }

  lemma FsGroupAfter(spec: Members, key: string, fsGroup: int)
    ensures DecodeSecurityContext(Field(Obj(WithFsGroupAt(spec, key, fsGroup)), key)) ==
            Some(SecurityContext(Some(
              match DecodeSecurityContext(Field(Obj(spec), key))
              case Some(SecurityContext(Some(g))) => g
              case _ => fsGroup)))
  {
  }

  lemma InitName(cfg: Config, req: Request)
    ensures AsText(Field(InitJson(cfg, req), "name")) == INIT_NAME
  {
  }

  lemma InitAfter(ics: seq<Json>, cfg: Config, req: Request)
    ensures Named(ics + InitToAdd(ics, InitJson(cfg, req)), INIT_NAME)
  {
    var container := InitJson(cfg, req);
    InitName(cfg, req);
    NamedConcat(ics, InitToAdd(ics, container), INIT_NAME);
    assert container in [container];
  }

  /** One application settles the pod, unless the volume operations clashed. */
  lemma SettledAfter(doc: Json, cfg: Config, req: Request)
    requires IsPodDocument(doc)
    ensures IsPodDocument(Patch(doc, cfg, req))
    ensures Settled(Patch(doc, cfg, req), cfg, req) <==> !Clash(VolumesOf(doc), cfg, req.provider)
  {
    var spec := SpecOf(doc);
    var added := AddedVolumes(VolumesOf(doc), cfg, req.provider);
    PatchedDocument(doc, cfg, req);
    KeysDistinct();
    SpecWithMembers(spec, KEYS, cfg, req, added);
    FsGroupAfter(spec, KEYS.securityContext, req.fsGroup);
    VolumesAfter(VolumesOf(doc), cfg, req.provider);
    InitAfter(List(spec, KEYS.initContainers), cfg, req);
    var cs := List(spec, KEYS.containers);
    DecodeRepresents(doc);
    forall i | 0 <= i < |cs| ensures Mounted(MountAll(cs, req.mountPath)[i], req.mountPath) {
      assert cs[i] in cs;
      MountedAfter(cs[i], req.mountPath);
    }
  }

  /** The decision for the patched pod is the decision for the original one. */
  lemma AdmitAgain(doc: Json, cfg: Config, req: Request)
    requires IsPodDocument(doc) && Admit(Decode(doc), cfg).Accept? && Admit(Decode(doc), cfg).req == req
    ensures IsPodDocument(Patch(doc, cfg, req))
    ensures Admit(Decode(Patch(doc, cfg, req)), cfg) == Admit(Decode(doc), cfg)
  {
    var p, q := Decode(doc), Decode(Patch(doc, cfg, req));
    PatchedDocument(doc, cfg, req);
    KeysDistinct();
    SpecWithMembers(SpecOf(doc), KEYS, cfg, req, AddedVolumes(VolumesOf(doc), cfg, req.provider));
    FsGroupAfter(SpecOf(doc), KEYS.securityContext, req.fsGroup);
    SameAnnotations(p, q);
    SameDecision(p, q, cfg);
  }

  /** All that the decision is read from, except the fsGroup. Other annotations have no part in it. */
  datatype Inputs = Inputs(
    namespace: string, annotated: bool, provider: string, ref: string, key: string, mountPath: string,
    providerEnv: string, skipVerify: string)

  function InputsOf(p: Pod): Inputs {
    Inputs(
      p.namespace, "chur.io/provider" in p.annotations, Annotation(p, "chur.io/provider"),
      Annotation(p, "chur.io/secret-ref"), Annotation(p, "chur.io/secret-key"), Annotation(p, "chur.io/mount-path"),
      Annotation(p, "chur.io/provider-env"), Annotation(p, "chur.io/keeper-skip-verify"))
  }

  lemma SameAnnotations(p: Pod, q: Pod)
    requires p.namespace == q.namespace && p.annotations == q.annotations
    ensures InputsOf(p) == InputsOf(q)
  {
  }

  lemma SameEnv(p: Pod, q: Pod, cfg: Config, provider: string, ref: string, key: string, mountPath: string)
    requires InputsOf(p) == InputsOf(q)
    ensures InitEnv(cfg, provider, ref, key, mountPath, p) == InitEnv(cfg, provider, ref, key, mountPath, q)
  {
    assert SkipVerify(p) == SkipVerify(q);
    assert KeeperEnv(cfg, p) == KeeperEnv(cfg, q);
    assert ExtraEnv(cfg, p) == ExtraEnv(cfg, q);
  }

  /** A verdict but for the pod's name and fsGroup. */
  ghost predicate SameVerdict(v: Verdict, w: Verdict) {
    match v
    case Skip => w.Skip?
    case Reject(_, why) => w.Reject? && w.why == why
    case Accept(_, req) => w.Accept? && w.req == req.(fsGroup := w.req.fsGroup)
  }

  /** The verdict depends on nothing else; the fsGroup and the audited name pass through it. */
  lemma SameDecision(p: Pod, q: Pod, cfg: Config)
    requires InputsOf(p) == InputsOf(q)
    ensures SameVerdict(Admit(p, cfg), Admit(q, cfg))
    ensures p.name == q.name && FsGroupOf(p, cfg) == FsGroupOf(q, cfg) ==> Admit(p, cfg) == Admit(q, cfg)
  {
    assert MountPathOf(p) == MountPathOf(q);
    SameEnv(p, q, cfg, Annotation(p, "chur.io/provider"), Annotation(p, "chur.io/secret-ref"),
            Annotation(p, "chur.io/secret-key"), MountPathOf(p));
  }

  /**
   Reinvocation on its own output: no operation is emitted exactly when the
   first application did not clash.
   */
  lemma Idempotent(doc: Json, cfg: Config)
    requires IsPodDocument(doc) && Admit(Decode(doc), cfg).Accept?
    ensures var req := Admit(Decode(doc), cfg).req;
            var once := ApplyAll(doc, Ops(Decode(doc), cfg, req));
            && once.Some? && IsPodDocument(once.value)
            && (Mutation(Decode(once.value), cfg) == Patched(Admit(Decode(doc), cfg).audit, []) <==>
                !Clash(VolumesOf(doc), cfg, req.provider))
  {
    var req := Admit(Decode(doc), cfg).req;
    PatchApplies(doc, cfg, req);
    SettledAfter(doc, cfg, req);
    AdmitAgain(doc, cfg, req);
    OpsEmptyIff(Patch(doc, cfg, req), cfg, req);
  }

  /** Two applications always reach a fixpoint that holds every required volume. */
  lemma TwoApplicationsSettle(doc: Json, cfg: Config)
    requires IsPodDocument(doc) && Admit(Decode(doc), cfg).Accept?
    ensures var req := Admit(Decode(doc), cfg).req;
            var once := Patch(doc, cfg, req);
            && IsPodDocument(once) && Admit(Decode(once), cfg) == Admit(Decode(doc), cfg)
            && var twice := Patch(once, cfg, req);
               && IsPodDocument(twice) && Settled(twice, cfg, req)
               && Mutation(Decode(twice), cfg) == Patched(Admit(Decode(doc), cfg).audit, [])
  {
    var req := Admit(Decode(doc), cfg).req;
    var once := Patch(doc, cfg, req);
    AdmitAgain(doc, cfg, req);
    AdmitAgain(once, cfg, req);
    SettledAfter(once, cfg, req);
    VolumesNonEmpty(doc, cfg, req);
    OpsEmptyIff(Patch(once, cfg, req), cfg, req);
  }

  lemma VolumesNonEmpty(doc: Json, cfg: Config, req: Request)
    requires IsPodDocument(doc)
    ensures IsPodDocument(Patch(doc, cfg, req)) && VolumesOf(Patch(doc, cfg, req)) != []
  {
    PatchedDocument(doc, cfg, req);
    KeysDistinct();
    SpecWithMembers(SpecOf(doc), KEYS, cfg, req, AddedVolumes(VolumesOf(doc), cfg, req.provider));
    AddedNames(VolumesOf(doc), cfg, req.provider, VOL_SECRETS);
  }
}
