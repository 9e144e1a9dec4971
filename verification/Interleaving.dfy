/**
 Runs that interleave the webhook with other admission plugins, which never
 add anything under chur's own names.
 */
module Interleaving {
  import opened Injection
  import opened JsonPatch
  import opened Mutator
  import opened Pods
  import opened Reinvocation
  import opened WebhookConfig
  import opened Wrappers

  // ---- Counting by name ---------------------------------------------------------

  function CountNamed(elems: seq<Json>, name: string): nat {
    if elems == [] then 0
    else (if AsText(Field(elems[0], "name")) == name then 1 else 0) + CountNamed(elems[1..], name)
  }

  function CountMount(mounts: seq<VolumeMount>, m: VolumeMount): nat {
    multiset(mounts)[m]
  }

  lemma {:induction false} CountConcat(a: seq<Json>, b: seq<Json>, name: string)
    ensures CountNamed(a + b, name) == CountNamed(a, name) + CountNamed(b, name)
  {
    if a == [] {
      assert a + b == b;
    } else {
      assert (a + b)[0] == a[0] && (a + b)[1..] == a[1..] + b;
      CountConcat(a[1..], b, name);
    }
  }

  lemma {:induction false} CountZeroIff(elems: seq<Json>, name: string)
    ensures CountNamed(elems, name) == 0 <==> !Named(elems, name)
  {
    if elems != [] {
      CountZeroIff(elems[1..], name);
      assert elems == [elems[0]] + elems[1..];
      NamedConcat([elems[0]], elems[1..], name);
      assert elems[0] in [elems[0]];
    }
  }

  lemma CountAdded(vols: seq<Json>, cfg: Config, provider: string, name: string)
    ensures CountNamed(AddedVolumes(vols, cfg, provider), name) <= if Named(vols, name) then 0 else 1
  {
    var a := if Clash(vols, cfg, provider) then [] else Unless(Named(vols, VOL_SECRETS), SecretsVolume(cfg));
    var b := ProviderVolume(vols, cfg, provider);
    AddedByName(vols, cfg, provider);
    CountConcat(a, b, name);
    assert |a| <= 1 && |b| <= 1;
    assert CountNamed(a, name) <= |a| && CountNamed(b, name) <= |b|;
    VolumeNames(cfg);
    CountZeroIff(a, name);
    CountZeroIff(b, name);
  }

  // ---- Steps ----------------------------------------------------------------------

  const CHUR_VOLUMES := [VOL_SECRETS, VOL_LOCAL, VOL_KEEPER]

  function ChurMount(doc: Json): VolumeMount {
    VolumeMount(VOL_SECRETS, MountPathOf(Decode(doc)))
  }

  function Containers(doc: Json): seq<Json>
    requires IsPodDocument(doc)
  {
    List(SpecOf(doc), "containers")
  }

  function InitContainers(doc: Json): seq<Json>
    requires IsPodDocument(doc)
  {
    List(SpecOf(doc), "initContainers")
  }

  /** No chur volume, init container or mount is there twice. */
  predicate NoDuplicates(doc: Json)
    requires IsPodDocument(doc)
  {
    && (forall n | n in CHUR_VOLUMES :: CountNamed(VolumesOf(doc), n) <= 1)
    && CountNamed(InitContainers(doc), INIT_NAME) <= 1
    && forall c | c in Containers(doc) :: CountMount(Mounts(c), ChurMount(doc)) <= 1
  }

  /** An admission call to the webhook; a rejected pod makes no step. */
  ghost predicate ChurStep(cfg: Config, doc: Json, next: Json) {
    match Mutation(Decode(doc), cfg)
    case Skipped => next == doc
    case Rejected(_, _) => false
    case Patched(_, ops) => ApplyAll(doc, ops) == Some(next)
  }

  /** The step was a real mutation, not a skip. */
  ghost predicate Mutates(cfg: Config, doc: Json, next: Json) {
    ChurStep(cfg, doc, next) && Mutation(Decode(doc), cfg).Patched?
  }

  /**
   Another plugin: it may change anything but the namespace and the six
   annotations the webhook's decision is read from, and may add volumes,
   containers, init containers and mounts anywhere, but none of chur's.
   */
  predicate OtherStep(doc: Json, next: Json)
    requires IsPodDocument(doc)
  {
    && IsPodDocument(next)
    && InputsOf(Decode(next)) == InputsOf(Decode(doc))
    && (forall n | n in CHUR_VOLUMES :: CountNamed(VolumesOf(next), n) == CountNamed(VolumesOf(doc), n))
    && CountNamed(InitContainers(next), INIT_NAME) == CountNamed(InitContainers(doc), INIT_NAME)
    && (forall c' | c' in Containers(next) ::
          CountMount(Mounts(c'), ChurMount(doc)) == 0 ||
          exists c | c in Containers(doc) ::
            CountMount(Mounts(c'), ChurMount(doc)) == CountMount(Mounts(c), ChurMount(doc)))
  }

  ghost predicate Step(cfg: Config, doc: Json, next: Json) {
    ChurStep(cfg, doc, next) || (IsPodDocument(doc) && OtherStep(doc, next))
  }

  ghost predicate StepAt(cfg: Config, run: seq<Json>, i: nat)
    requires 0 < i < |run|
  {
    Step(cfg, run[i - 1], run[i])
  }

  ghost predicate IsRun(cfg: Config, run: seq<Json>) {
    && |run| > 0
    && IsPodDocument(run[0]) && NoDuplicates(run[0])
    && forall i | 0 < i < |run| :: StepAt(cfg, run, i)
  }

  // ---- What every step keeps ---------------------------------------------------------

  /** A step of the webhook that is not a skip is the Patch of its pod. */
  lemma ChurStepIsPatch(cfg: Config, doc: Json, next: Json)
    requires IsPodDocument(doc) && Mutates(cfg, doc, next)
    ensures var verdict := Admit(Decode(doc), cfg);
            && verdict.Accept? && next == Patch(doc, cfg, verdict.req) && IsPodDocument(next)
            && verdict.req.mountPath == MountPathOf(Decode(doc))
            && Decode(next).annotations == Decode(doc).annotations && Decode(next).namespace == Decode(doc).namespace
  {
    PatchedIsAccepted(Decode(doc), cfg);
    var req := Admit(Decode(doc), cfg).req;
    AcceptedRequest(Decode(doc), cfg);
    PatchStep(doc, cfg, req, next);
  }

  lemma PatchStep(doc: Json, cfg: Config, req: Request, next: Json)
    requires IsPodDocument(doc) && ApplyAll(doc, Ops(Decode(doc), cfg, req)) == Some(next)
    ensures next == Patch(doc, cfg, req) && IsPodDocument(next)
    ensures Decode(next).annotations == Decode(doc).annotations && Decode(next).namespace == Decode(doc).namespace
  {
    PatchApplies(doc, cfg, req);
    PatchedDocument(doc, cfg, req);
  }

  lemma MountCount(c: Json, mountPath: string)
    requires c.Obj?
    ensures var m := VolumeMount(VOL_SECRETS, mountPath);
            CountMount(Mounts(WithMount(c, mountPath)), m) ==
            if Mounted(c, mountPath) then CountMount(Mounts(c), m) else 1
  {
    if !Mounted(c, mountPath) {
      var have := List(c.members, "volumeMounts");
      assert Elems(Field(WithMount(c, mountPath), "volumeMounts")) == have + [AppMount(mountPath)];
      assert DecodeMount(AppMount(mountPath)) == VolumeMount(VOL_SECRETS, mountPath);
      assert Mounts(WithMount(c, mountPath)) == Mounts(c) + [VolumeMount(VOL_SECRETS, mountPath)];
      assert multiset(Mounts(c))[VolumeMount(VOL_SECRETS, mountPath)] == 0;
    }
  }

  lemma PatchKeepsNoDuplicates(doc: Json, cfg: Config, req: Request)
    requires IsPodDocument(doc) && NoDuplicates(doc) && req.mountPath == MountPathOf(Decode(doc))
    ensures IsPodDocument(Patch(doc, cfg, req)) && NoDuplicates(Patch(doc, cfg, req))
  {
    var next, spec := Patch(doc, cfg, req), SpecOf(doc);
    var added := AddedVolumes(VolumesOf(doc), cfg, req.provider);
    PatchedDocument(doc, cfg, req);
    KeysDistinct();
    SpecWithMembers(spec, KEYS, cfg, req, added);
    forall n | n in CHUR_VOLUMES ensures CountNamed(VolumesOf(next), n) <= 1 {
      CountConcat(VolumesOf(doc), added, n);
      CountAdded(VolumesOf(doc), cfg, req.provider, n);
      CountZeroIff(VolumesOf(doc), n);
    }
    InitCount(InitContainers(doc), InitJson(cfg, req));
    var cs := Containers(doc);
    assert ChurMount(next) == ChurMount(doc);
    DecodeRepresents(doc);
    forall i | 0 <= i < |cs| ensures CountMount(Mounts(MountAll(cs, req.mountPath)[i]), ChurMount(doc)) <= 1 {
      assert cs[i] in cs;
      MountCount(cs[i], req.mountPath);
    }
  }

  lemma InitCount(ics: seq<Json>, container: Json)
    requires CountNamed(ics, INIT_NAME) <= 1
    ensures CountNamed(ics + InitToAdd(ics, container), INIT_NAME) <= 1
  {
    CountConcat(ics, InitToAdd(ics, container), INIT_NAME);
    CountZeroIff(ics, INIT_NAME);
  }

  lemma StepKeeps(cfg: Config, doc: Json, next: Json)
    requires IsPodDocument(doc) && NoDuplicates(doc) && Step(cfg, doc, next)
    ensures IsPodDocument(next) && NoDuplicates(next)
    ensures InputsOf(Decode(next)) == InputsOf(Decode(doc))
  {
    if ChurStep(cfg, doc, next) {
      if Mutation(Decode(doc), cfg).Patched? {
        ChurStepIsPatch(cfg, doc, next);
        PatchKeepsNoDuplicates(doc, cfg, Admit(Decode(doc), cfg).req);
      }
      SameAnnotations(Decode(doc), Decode(next));
    }
  }

  /** Over every run no chur volume, init container or mount is ever duplicated. */
  lemma {:induction false} NeverDuplicated(cfg: Config, run: seq<Json>, i: nat)
    requires IsRun(cfg, run) && i < |run|
    ensures IsPodDocument(run[i]) && NoDuplicates(run[i])
    ensures InputsOf(Decode(run[i])) == InputsOf(Decode(run[0]))
  {
    if i > 0 {
      NeverDuplicated(cfg, run, i - 1);
      assert StepAt(cfg, run, i);
      StepKeeps(cfg, run[i - 1], run[i]);
    }
  }

  /** Every call of the webhook in a run gives the pod the verdict of the first, but for name and fsGroup. */
  lemma DecisionStays(cfg: Config, run: seq<Json>, i: nat)
    requires IsRun(cfg, run) && i < |run|
    ensures SameVerdict(Admit(Decode(run[0]), cfg), Admit(Decode(run[i]), cfg))
  {
    NeverDuplicated(cfg, run, i);
    SameDecision(Decode(run[0]), Decode(run[i]), cfg);
  }

  // ---- What holds right after a step of the webhook ------------------------------------

  predicate MountedOnce(doc: Json) {
    && IsPodDocument(doc)
    && (forall c | c in Containers(doc) :: CountMount(Mounts(c), ChurMount(doc)) == 1)
    && CountNamed(InitContainers(doc), INIT_NAME) == 1
  }

  lemma MutationMounts(cfg: Config, doc: Json, next: Json)
    requires IsPodDocument(doc) && NoDuplicates(doc) && Mutates(cfg, doc, next)
    ensures MountedOnce(next)
  {
    var req := Admit(Decode(doc), cfg).req;
    ChurStepIsPatch(cfg, doc, next);
    PatchKeepsNoDuplicates(doc, cfg, req);
    ExactlyOne(doc, cfg, req);
  }

  /** Right after each mutation every app container has the mount, and the pod its init container, exactly once. */
  lemma MountedAfterStep(cfg: Config, run: seq<Json>, i: nat)
    requires IsRun(cfg, run) && i + 1 < |run| && Mutates(cfg, run[i], run[i + 1])
    ensures MountedOnce(run[i + 1])
  {
    NeverDuplicated(cfg, run, i);
    MutationMounts(cfg, run[i], run[i + 1]);
  }

  lemma ExactlyOne(doc: Json, cfg: Config, req: Request)
    requires IsPodDocument(doc) && IsPodDocument(Patch(doc, cfg, req)) && NoDuplicates(Patch(doc, cfg, req))
    requires req.mountPath == MountPathOf(Decode(Patch(doc, cfg, req)))
    ensures var next := Patch(doc, cfg, req);
            && (forall c | c in Containers(next) :: CountMount(Mounts(c), ChurMount(next)) == 1)
            && CountNamed(InitContainers(next), INIT_NAME) == 1
  {
    var next := Patch(doc, cfg, req);
    AfterPatch(doc, cfg, req);
    CountZeroIff(InitContainers(next), INIT_NAME);
    forall c | c in Containers(next) ensures CountMount(Mounts(c), ChurMount(next)) == 1 {
      assert Mounted(c, req.mountPath);
    }
  }

  lemma AfterPatch(doc: Json, cfg: Config, req: Request)
    requires IsPodDocument(doc)
    ensures IsPodDocument(Patch(doc, cfg, req))
    ensures Named(InitContainers(Patch(doc, cfg, req)), INIT_NAME)
    ensures forall c | c in Containers(Patch(doc, cfg, req)) :: Mounted(c, req.mountPath)
    ensures MissingVolumes(VolumesOf(Patch(doc, cfg, req)), cfg, req.provider) == [] <==>
            !Clash(VolumesOf(doc), cfg, req.provider)
  {
    var spec := SpecOf(doc);
    PatchedDocument(doc, cfg, req);
    KeysDistinct();
    SpecWithMembers(spec, KEYS, cfg, req, AddedVolumes(VolumesOf(doc), cfg, req.provider));
    VolumesAfter(VolumesOf(doc), cfg, req.provider);
    InitAfter(InitContainers(doc), cfg, req);
    var cs := Containers(doc);
    DecodeRepresents(doc);
    forall i | 0 <= i < |cs| ensures Mounted(MountAll(cs, req.mountPath)[i], req.mountPath) {
      assert cs[i] in cs;
      MountedAfter(cs[i], req.mountPath);
    }
  }

  // ---- No volume is lost after the second mutation --------------------------------------

  /** Some chur volume is in the list; no plugin and no webhook step ever takes it away. */
  predicate HasChurVolume(doc: Json) {
    IsPodDocument(doc) && ChurVolumes(VolumesOf(doc)) > 0
  }

  function ChurVolumes(vols: seq<Json>): nat {
    CountNamed(vols, VOL_SECRETS) + CountNamed(vols, VOL_LOCAL) + CountNamed(vols, VOL_KEEPER)
  }

  lemma ChurVolumesConcat(a: seq<Json>, b: seq<Json>)
    ensures ChurVolumes(a + b) == ChurVolumes(a) + ChurVolumes(b)
  {
    CountConcat(a, b, VOL_SECRETS);
    CountConcat(a, b, VOL_LOCAL);
    CountConcat(a, b, VOL_KEEPER);
  }

  lemma OtherStepKeepsChurVolumes(doc: Json, next: Json)
    requires IsPodDocument(doc) && OtherStep(doc, next)
    ensures ChurVolumes(VolumesOf(next)) == ChurVolumes(VolumesOf(doc))
  {
    assert VOL_SECRETS in CHUR_VOLUMES && VOL_LOCAL in CHUR_VOLUMES && VOL_KEEPER in CHUR_VOLUMES;
  }

  lemma StepKeepsChurVolume(cfg: Config, doc: Json, next: Json)
    requires IsPodDocument(doc) && Step(cfg, doc, next)
    ensures IsPodDocument(next)
    ensures HasChurVolume(doc) ==> HasChurVolume(next)
  {
    if Mutates(cfg, doc, next) {
      var req := Admit(Decode(doc), cfg).req;
      ChurStepIsPatch(cfg, doc, next);
      VolumesOfPatch(doc, cfg, req);
      ChurVolumesConcat(VolumesOf(doc), AddedVolumes(VolumesOf(doc), cfg, req.provider));
    } else if !ChurStep(cfg, doc, next) {
      OtherStepKeepsChurVolumes(doc, next);
    }
  }

  lemma VolumesOfPatch(doc: Json, cfg: Config, req: Request)
    requires IsPodDocument(doc)
    ensures IsPodDocument(Patch(doc, cfg, req))
    ensures VolumesOf(Patch(doc, cfg, req)) == VolumesOf(doc) + AddedVolumes(VolumesOf(doc), cfg, req.provider)
  {
    PatchedDocument(doc, cfg, req);
    KeysDistinct();
    SpecWithMembers(SpecOf(doc), KEYS, cfg, req, AddedVolumes(VolumesOf(doc), cfg, req.provider));
  }

  lemma MutationLeavesChurVolume(cfg: Config, doc: Json, next: Json)
    requires IsPodDocument(doc) && Mutates(cfg, doc, next)
    ensures HasChurVolume(next)
  {
    var req := Admit(Decode(doc), cfg).req;
    var vols := VolumesOf(doc);
    ChurStepIsPatch(cfg, doc, next);
    VolumesOfPatch(doc, cfg, req);
    var n := if Clash(vols, cfg, req.provider) then VOL_KEEPER else VOL_SECRETS;
    AddedNames(vols, cfg, req.provider, n);
    NamedConcat(vols, AddedVolumes(vols, cfg, req.provider), n);
    CountZeroIff(VolumesOf(next), n);
  }

  lemma RunKeepsChurVolume(cfg: Config, run: seq<Json>, j: nat)
    requires IsRun(cfg, run) && 0 < j < |run|
    ensures HasChurVolume(run[j - 1]) ==> HasChurVolume(run[j])
  {
    NeverDuplicated(cfg, run, j - 1);
    assert StepAt(cfg, run, j);
    StepKeepsChurVolume(cfg, run[j - 1], run[j]);
  }

  lemma {:induction false} ChurVolumeStays(cfg: Config, run: seq<Json>, i: nat, j: nat)
    requires IsRun(cfg, run) && i <= j < |run|
    ensures HasChurVolume(run[i]) ==> HasChurVolume(run[j])
    decreases j - i
  {
    if i < j {
      RunKeepsChurVolume(cfg, run, j);
      ChurVolumeStays(cfg, run, i, j - 1);
    }
  }

  /** Every volume the pod's provider needs is in its list. */
  ghost predicate HasAllVolumes(cfg: Config, doc: Json) {
    IsPodDocument(doc) && Admit(Decode(doc), cfg).Accept? &&
    MissingVolumes(VolumesOf(doc), cfg, Admit(Decode(doc), cfg).req.provider) == []
  }

  lemma MutationCompletes(cfg: Config, doc: Json, next: Json)
    requires HasChurVolume(doc) && Mutates(cfg, doc, next)
    ensures HasAllVolumes(cfg, next)
  {
    ChurStepIsPatch(cfg, doc, next);
    AfterPatch(doc, cfg, Admit(Decode(doc), cfg).req);
    AdmitAgain(doc, cfg, Admit(Decode(doc), cfg).req);
    assert VolumesOf(doc) != [];
  }

  lemma ChurVolumeAfterMutation(cfg: Config, run: seq<Json>, i: nat, k: nat)
    requires IsRun(cfg, run) && k == i + 1 < |run| && Mutates(cfg, run[i], run[k])
    ensures HasChurVolume(run[k])
  {
    NeverDuplicated(cfg, run, i);
    MutationLeavesChurVolume(cfg, run[i], run[k]);
  }

  lemma ChurVolumeBefore(cfg: Config, run: seq<Json>, i: nat, k: nat, j: nat)
    requires IsRun(cfg, run) && i + 1 == k <= j < |run| && Mutates(cfg, run[i], run[k])
    ensures HasChurVolume(run[j])
  {
    ChurVolumeAfterMutation(cfg, run, i, k);
    ChurVolumeStays(cfg, run, k, j);
  }

  /**
   From the second mutation of a run on, every mutation leaves all required
   volumes, clash or not. The mutations lead from i to i1 and from j to j1.
   */
  lemma AllVolumesAfterSecondMutation(cfg: Config, run: seq<Json>, i: nat, i1: nat, j: nat, j1: nat)
    requires IsRun(cfg, run) && i + 1 == i1 <= j && j + 1 == j1 < |run|
    requires Mutates(cfg, run[i], run[i1]) && Mutates(cfg, run[j], run[j1])
    ensures HasAllVolumes(cfg, run[j1])
  {
    ChurVolumeBefore(cfg, run, i, i1, j);
    MutationCompletes(cfg, run[j], run[j1]);
  }

  /** The document with these elements appended to a list of its spec. */
  function Append(doc: Json, key: string, extra: seq<Json>): Json
    requires IsPodDocument(doc)
  {
    WithSpec(doc, Extended(SpecOf(doc), key, extra))
  }

  /** A plugin that adds a volume under another name makes such a step. */
  lemma PluginMayAddVolume(doc: Json, v: Json)
    requires IsPodDocument(doc) && AsText(Field(v, "name")) !in CHUR_VOLUMES
    ensures OtherStep(doc, Append(doc, KEYS.volumes, [v]))
  {
    var spec, next := SpecOf(doc), Append(doc, KEYS.volumes, [v]);
    KeysDistinct();
    AppendKeepsRest(doc, KEYS.volumes, [v]);
    ExtendedFrame(spec, KEYS.volumes, [v], KEYS.securityContext);
    ExtendedFrame(spec, KEYS.volumes, [v], KEYS.initContainers);
    ExtendedFrame(spec, KEYS.volumes, [v], KEYS.containers);
    ExtendedList(spec, KEYS.volumes, [v]);
    forall n | n in CHUR_VOLUMES ensures CountNamed(VolumesOf(next), n) == CountNamed(VolumesOf(doc), n) {
      CountConcat(VolumesOf(doc), [v], n);
      assert CountNamed([v], n) == 0;
    }
  }

  lemma AppendKeepsRest(doc: Json, key: string, extra: seq<Json>)
    requires IsPodDocument(doc)
    ensures Append(doc, key, extra).Obj? && Spec(Append(doc, key, extra)) == Obj(Extended(SpecOf(doc), key, extra))
    ensures Field(Append(doc, key, extra), "metadata") == Field(doc, "metadata")
  {
    var spec, meta := "spec", "metadata";
    assert |spec| != |meta|;
  }
}
