/**
 What the patch is meant to do, stated directly on the pod's document, and the
 proof that the API server's reading of the patch does exactly that.
 */
module Injection {
  import opened JsonPatch
  import opened Mutator
  import opened Pods
  import opened Text
  import opened WebhookConfig
  import opened Wrappers

  type Members = map<string, Json>

  // ---- The intended effect ---------------------------------------------------

  predicate Named(elems: seq<Json>, name: string) {
    exists j | j in elems :: AsText(Field(j, "name")) == name
  }

  /** The volumes a pod of this provider needs. */
  function Required(cfg: Config, provider: string): seq<Json> {
    [SecretsVolume(cfg)] +
    (if provider == "local" then [LocalVolume(cfg)] else []) +
    (if NeedsKeeperVolume(cfg, provider) then [KeeperVolume(cfg)] else [])
  }

  function Missing(required: seq<Json>, present: seq<Json>): seq<Json> {
    if required == [] then []
    else
      (if Named(present, AsText(Field(required[0], "name"))) then [] else [required[0]]) +
      Missing(required[1..], present)
  }

  function List(spec: Members, key: string): seq<Json> {
    Elems(Field(Obj(spec), key))
  }

  function Extended(spec: Members, key: string, extra: seq<Json>): Members {
    if extra == [] then spec else spec[key := Arr(List(spec, key) + extra)]
  }

  function WithFsGroupAt(spec: Members, key: string, fsGroup: int): Members {
    match DecodeSecurityContext(Field(Obj(spec), key))
    case None => spec[key := Obj(map["fsGroup" := Num(fsGroup)])]
    case Some(SecurityContext(None)) => spec[key := Obj(spec[key].members["fsGroup" := Num(fsGroup)])]
    case _ => spec
  }

  function WithMount(c: Json, mountPath: string): Json {
    if !c.Obj? || MountExists(Mounts(c), VOL_SECRETS, mountPath) then c
    else Obj(c.members["volumeMounts" := Arr(List(c.members, "volumeMounts") + [AppMount(mountPath)])])
  }

  function MountAll(cs: seq<Json>, mountPath: string): seq<Json> {
    seq(|cs|, i requires 0 <= i < |cs| => WithMount(cs[i], mountPath))
  }

  function WithMountsAt(spec: Members, key: string, mountPath: string): Members {
    var cs := List(spec, key);
    if cs == [] then spec else spec[key := Arr(MountAll(cs, mountPath))]
  }

  function InitToAdd(initContainers: seq<Json>, container: Json): seq<Json> {
    if Named(initContainers, INIT_NAME) then [] else [container]
  }

  function SpecWithAt(spec: Members, k: Keys, cfg: Config, req: Request, volumes: seq<Json>): Members {
    WithMountsAt(
      Extended(
        Extended(WithFsGroupAt(spec, k.securityContext, req.fsGroup), k.volumes, volumes),
        k.initContainers, InitToAdd(List(spec, k.initContainers), InitJson(cfg, req))),
      k.containers, req.mountPath)
  }

  /** The pod's spec with an fsGroup, these volumes, the init container and the app mounts added. */
  function SpecWith(spec: Members, cfg: Config, req: Request, volumes: seq<Json>): Members {
    SpecWithAt(spec, KEYS, cfg, req, volumes)
  }

  function WithSpec(doc: Json, spec: Members): Json
    requires doc.Obj?
  {
    Obj(doc.members["spec" := Obj(spec)])
  }

  function SpecOf(doc: Json): Members
    requires IsPodDocument(doc)
  {
    Spec(doc).members
  }

  /** The required volumes no element of vols has the name of. */
  function MissingVolumes(vols: seq<Json>, cfg: Config, provider: string): seq<Json> {
    Missing(Required(cfg, provider), vols)
  }

  function VolumesOf(doc: Json): seq<Json>
    requires IsPodDocument(doc)
  {
    List(SpecOf(doc), "volumes")
  }

  /** What the webhook is for: the document with only what is missing added, all else as it was. */
  function Inject(doc: Json, cfg: Config, req: Request): Json
    requires IsPodDocument(doc)
  {
    WithSpec(doc, SpecWith(SpecOf(doc), cfg, req, MissingVolumes(VolumesOf(doc), cfg, req.provider)))
  }

  /** Two operations create the volume list, and the second replaces the first. */
  predicate Clash(vols: seq<Json>, cfg: Config, provider: string) {
    NeedsKeeperVolume(cfg, provider) && vols == []
  }

  /** The volumes the patch really adds. */
  function AddedVolumes(vols: seq<Json>, cfg: Config, provider: string): seq<Json> {
    if Clash(vols, cfg, provider) then [KeeperVolume(cfg)] else MissingVolumes(vols, cfg, provider)
  }

  /** The document the API server really ends up with. */
  function Patch(doc: Json, cfg: Config, req: Request): Json
    requires IsPodDocument(doc)
  {
    WithSpec(doc, SpecWith(SpecOf(doc), cfg, req, AddedVolumes(VolumesOf(doc), cfg, req.provider)))
  }

  // ---- One operation at a time -------------------------------------------------

  predicate HasSpec(doc: Json, spec: Members) {
    doc.Obj? && "spec" in doc.members && doc.members["spec"] == Obj(spec)
  }

  lemma AddSpecMember(doc: Json, spec: Members, key: string, v: Json)
    requires HasSpec(doc, spec) && Plain(key)
    ensures Apply(doc, Add("/spec/" + key, v)) == Some(WithSpec(doc, spec[key := v]))
  {
    var toks := ["spec", key];
    ParseRender(toks);
    assert Render([key]) == "/" + key;
    assert toks[1..] == [key];
    assert Render(toks) == "/spec/" + key;
    assert AddAt(Obj(spec), [key], v) == Some(Obj(spec[key := v]));
    assert AddAt(doc, toks, v) == Some(WithSpec(doc, spec[key := v]));
  }

  lemma AddBelowMember(doc: Json, spec: Members, key: string, last: string, v: Json)
    requires HasSpec(doc, spec) && Plain(key) && Plain(last) && key in spec
    ensures Apply(doc, Add("/spec/" + key + "/" + last, v)) ==
            match AddMember(spec[key], last, v)
            case None => None
            case Some(child) => Some(WithSpec(doc, spec[key := child]))
  {
    var toks := ["spec", key, last];
    ParseRender(toks);
    assert toks[1..] == [key, last] && [key, last][1..] == [last];
    assert Render([last]) == "/" + last;
    assert Render([key, last]) == "/" + key + "/" + last;
    assert Render(toks) == "/spec/" + key + "/" + last;
    assert AddAt(spec[key], [last], v) == AddMember(spec[key], last, v);
    assert AddAt(Obj(spec), [key, last], v) ==
           match AddMember(spec[key], last, v) case None => None case Some(child) => Some(Obj(spec[key := child]));
  }

  lemma ApplyOne(doc: Json, op: Op)
    ensures ApplyAll(doc, [op]) == Apply(doc, op)
  {
    assert [op][1..] == [];
  }

  // ---- The four groups of operations --------------------------------------------

  lemma SecurityEffect(doc: Json, spec: Members, path: string, key: string, pod: Pod, fsGroup: int)
    requires HasSpec(doc, spec) && Plain(key) && path == "/spec/" + key
    requires pod.securityContext == DecodeSecurityContext(Field(Obj(spec), key))
    ensures ApplyAll(doc, SecurityOps(path, pod, fsGroup)) == Some(WithSpec(doc, WithFsGroupAt(spec, key, fsGroup)))
  {
    if pod.securityContext.None? {
      var v := Obj(map["fsGroup" := Num(fsGroup)]);
      AddSpecMember(doc, spec, key, v);
      ApplyOne(doc, Add(path, v));
    } else if pod.securityContext == Some(SecurityContext(None)) {
      assert Plain("fsGroup");
      AddBelowMember(doc, spec, key, "fsGroup", Num(fsGroup));
      assert path + "/fsGroup" == "/spec/" + key + "/" + "fsGroup";
      ApplyOne(doc, Add(path + "/fsGroup", Num(fsGroup)));
    } else {
      assert doc.members["spec" := Obj(spec)] == doc.members;
    }
  }

  lemma WithSpecTwice(doc: Json, a: Members, b: Members)
    requires doc.Obj?
    ensures HasSpec(WithSpec(doc, a), a)
    ensures WithSpec(WithSpec(doc, a), b) == WithSpec(doc, b)
  {
    assert doc.members["spec" := Obj(a)]["spec" := Obj(b)] == doc.members["spec" := Obj(b)];
  }

  function Unless(present: bool, v: Json): seq<Json> {
    if present then [] else [v]
  }

  lemma MissingByName(vols: seq<Json>, cfg: Config, provider: string)
    ensures Missing(Required(cfg, provider), vols) ==
            Unless(Named(vols, VOL_SECRETS), SecretsVolume(cfg)) +
            (if provider == "local" then Unless(Named(vols, VOL_LOCAL), LocalVolume(cfg)) else []) +
            (if NeedsKeeperVolume(cfg, provider) then Unless(Named(vols, VOL_KEEPER), KeeperVolume(cfg)) else [])
  {
    var r := Required(cfg, provider);
    assert AsText(Field(SecretsVolume(cfg), "name")) == VOL_SECRETS;
    assert AsText(Field(LocalVolume(cfg), "name")) == VOL_LOCAL;
    assert AsText(Field(KeeperVolume(cfg), "name")) == VOL_KEEPER;
    if |r| == 2 {
      assert Missing(r[1..], vols) ==
             Unless(Named(vols, AsText(Field(r[1], "name"))), r[1]) + Missing(r[1..][1..], vols);
    }
    assert r[1..] == [] || r[1..][1..] == [];
  }

  predicate SameVolumes(pod: Pod, vols: seq<Json>) {
    && |pod.volumes| == |vols|
    && forall i | 0 <= i < |vols| :: pod.volumes[i] == DecodeVolume(vols[i])
  }

  lemma SameVolumesNamed(pod: Pod, vols: seq<Json>, name: string)
    requires SameVolumes(pod, vols)
    ensures VolumeExists(pod.volumes, name) <==> Named(vols, name)
  {
    assert forall i | 0 <= i < |vols| :: pod.volumes[i] in pod.volumes && vols[i] in vols;
  }

  predicate SameContainers(containers: seq<Container>, cs: seq<Json>) {
    && |containers| == |cs|
    && forall i | 0 <= i < |cs| :: containers[i] == DecodeContainer(cs[i])
  }

  lemma SameContainersNamed(containers: seq<Container>, cs: seq<Json>, name: string)
    requires SameContainers(containers, cs)
    ensures InitContainerExists(containers, name) <==> Named(cs, name)
  {
    assert forall i | 0 <= i < |cs| :: containers[i] in containers && cs[i] in cs;
  }

  /** One create-or-append operation on the list member `key`. */
  lemma ListStep(doc: Json, spec: Members, key: string, create: bool, v: Json)
    requires HasSpec(doc, spec) && Plain(key)
    requires create || (key in spec && spec[key].Arr?)
    ensures ApplyAll(doc, [AddOrCreate("/spec/" + key, create, v)]) ==
            Some(WithSpec(doc, spec[key := Arr((if create then [] else List(spec, key)) + [v])]))
  {
    ApplyOne(doc, AddOrCreate("/spec/" + key, create, v));
    if create {
      AddSpecMember(doc, spec, key, Arr([v]));
      assert [] + [v] == [v];
    } else {
      assert Plain("-");
      AddBelowMember(doc, spec, key, "-", v);
      assert "/spec/" + key + "/-" == "/spec/" + key + "/" + "-";
    }
  }

  /** The first volume operation: chur-secrets, unless the pod has it. */
  lemma SecretsStep(doc: Json, spec: Members, key: string, pod: Pod, cfg: Config) returns (next: Members)
    requires HasSpec(doc, spec) && Plain(key) && NullOrArray(Field(Obj(spec), key)) && SameVolumes(pod, List(spec, key))
    ensures next == Extended(spec, key, Unless(Named(List(spec, key), VOL_SECRETS), SecretsVolume(cfg)))
    ensures ApplyAll(doc, VolumeOps("/spec/" + key, pod, cfg, "env")) == Some(WithSpec(doc, next))
    ensures List(next, key) == List(spec, key) + Unless(Named(List(spec, key), VOL_SECRETS), SecretsVolume(cfg))
    ensures key in next && next[key].Arr?
  {
    var vols := List(spec, key);
    SameVolumesNamed(pod, vols, VOL_SECRETS);
    next := Extended(spec, key, Unless(Named(vols, VOL_SECRETS), SecretsVolume(cfg)));
    if Named(vols, VOL_SECRETS) {
      assert doc.members["spec" := Obj(spec)] == doc.members;
      assert VolumeOps("/spec/" + key, pod, cfg, "env") == [];
    } else {
      ListStep(doc, spec, key, vols == [], SecretsVolume(cfg));
      assert VolumeOps("/spec/" + key, pod, cfg, "env") ==
             [AddOrCreate("/spec/" + key, vols == [], SecretsVolume(cfg))];
    }
  }

  /** The provider's own volume, if the pod lacks it: what the later operations of the group add. */
  function ProviderVolume(vols: seq<Json>, cfg: Config, provider: string): seq<Json> {
    if provider == "local" then Unless(Named(vols, VOL_LOCAL), LocalVolume(cfg))
    else if NeedsKeeperVolume(cfg, provider) then Unless(Named(vols, VOL_KEEPER), KeeperVolume(cfg))
    else []
  }

  lemma VolumeOpsByName(path: string, pod: Pod, vols: seq<Json>, cfg: Config, provider: string)
    requires SameVolumes(pod, vols)
    ensures VolumeOps(path, pod, cfg, provider) ==
            VolumeOps(path, pod, cfg, "env") +
            (var more := ProviderVolume(vols, cfg, provider);
             if more == [] then [] else [AddOrCreate(path, provider != "local" && vols == [], more[0])])
  {
    SameVolumesNamed(pod, vols, VOL_LOCAL);
    SameVolumesNamed(pod, vols, VOL_KEEPER);
  }

  /** The list elements an operation of the webhook brings: those of a new list, or the one it appends. */
  function Carried(ops: seq<Op>): seq<Json> {
    if ops == [] then []
    else (if ops[0].value.Arr? then ops[0].value.elems else [ops[0].value]) + Carried(ops[1..])
  }

  lemma {:induction false} CarriedConcat(a: seq<Op>, b: seq<Op>)
    ensures Carried(a + b) == Carried(a) + Carried(b)
  {
    if a == [] {
      assert a + b == b;
    } else {
      assert (a + b)[0] == a[0] && (a + b)[1..] == a[1..] + b;
      CarriedConcat(a[1..], b);
    }
  }

  lemma CarriedOne(path: string, isEmpty: bool, v: Json)
    requires v.Obj?
    ensures Carried([AddOrCreate(path, isEmpty, v)]) == [v]
  {
  }

  /**
   The volume operations bring exactly the required volumes the pod lacks, each
   once and in order, in a clash too: there they are applied to less effect.
   */
  lemma VolumeOpsCarryMissing(path: string, pod: Pod, vols: seq<Json>, cfg: Config, provider: string)
    requires SameVolumes(pod, vols)
    ensures Carried(VolumeOps(path, pod, cfg, provider)) == MissingVolumes(vols, cfg, provider)
  {
    var first := VolumeOps(path, pod, cfg, "env");
    var more := ProviderVolume(vols, cfg, provider);
    VolumeOpsByName(path, pod, vols, cfg, provider);
    MissingByName(vols, cfg, provider);
    SameVolumesNamed(pod, vols, VOL_SECRETS);
    CarriedOne(path, pod.volumes == [], SecretsVolume(cfg));
    assert Carried(first) == Unless(Named(vols, VOL_SECRETS), SecretsVolume(cfg));
    if more == [] {
      assert first + [] == first;
    } else {
      var create := provider != "local" && vols == [];
      CarriedConcat(first, [AddOrCreate(path, create, more[0])]);
      CarriedOne(path, create, more[0]);
    }
  }

  lemma AddedByName(vols: seq<Json>, cfg: Config, provider: string)
    ensures AddedVolumes(vols, cfg, provider) ==
            (if Clash(vols, cfg, provider) then [] else Unless(Named(vols, VOL_SECRETS), SecretsVolume(cfg))) +
            ProviderVolume(vols, cfg, provider)
  {
    MissingByName(vols, cfg, provider);
  }

  /** The provider's volume after chur-secrets: appended, or replacing the list in a clash. */
  lemma ProviderStep(doc: Json, spec: Members, have: seq<Json>, path: string, key: string, more: Json, create: bool)
    requires doc.Obj? && Plain(key) && path == "/spec/" + key && key in spec && spec[key] == Arr(have)
    ensures ApplyAll(WithSpec(doc, spec), [AddOrCreate(path, create, more)]) ==
            Some(WithSpec(doc, spec[key := Arr((if create then [] else have) + [more])]))
  {
    ListStep(WithSpec(doc, spec), spec, key, create, more);
    WithSpecTwice(doc, spec, spec[key := Arr((if create then [] else have) + [more])]);
  }

  /** What the list holds after the provider's operation. */
  lemma ListAfterProvider(vols: seq<Json>, cfg: Config, provider: string)
    requires ProviderVolume(vols, cfg, provider) != []
    ensures var create := provider != "local" && vols == [];
            var secrets := Unless(Named(vols, VOL_SECRETS), SecretsVolume(cfg));
            (if create then [] else vols + secrets) + [ProviderVolume(vols, cfg, provider)[0]] ==
            vols + AddedVolumes(vols, cfg, provider)
  {
    AddedByName(vols, cfg, provider);
  }

  lemma VolumeEffect(doc: Json, spec: Members, path: string, key: string, pod: Pod, cfg: Config, provider: string)
    requires HasSpec(doc, spec) && Plain(key) && NullOrArray(Field(Obj(spec), key)) && SameVolumes(pod, List(spec, key))
    requires path == "/spec/" + key
    ensures ApplyAll(doc, VolumeOps(path, pod, cfg, provider)) ==
            Some(WithSpec(doc, Extended(spec, key, AddedVolumes(List(spec, key), cfg, provider))))
  {
    var vols := List(spec, key);
    VolumeOpsByName(path, pod, vols, cfg, provider);
    AddedByName(vols, cfg, provider);
    var next := SecretsStep(doc, spec, key, pod, cfg);
    var more := ProviderVolume(vols, cfg, provider);
    var create := provider != "local" && vols == [];
    var secrets := Unless(Named(vols, VOL_SECRETS), SecretsVolume(cfg));
    if more == [] {
      assert VolumeOps(path, pod, cfg, provider) == VolumeOps(path, pod, cfg, "env");
      assert secrets + more == secrets;
      assert !Clash(vols, cfg, provider);
    } else {
      ApplyAllConcat(doc, VolumeOps(path, pod, cfg, "env"), [AddOrCreate(path, create, more[0])]);
      ProviderStep(doc, next, List(next, key), path, key, more[0], create);
      ListAfterProvider(vols, cfg, provider);
      ExtendedTwice(spec, key, secrets, if create then more else vols + secrets + more);
      assert (if create then [] else List(next, key)) + [more[0]] == if create then more else vols + secrets + more;
    }
  }

  /** A second write to the list member hides the first. */
  lemma ExtendedTwice(spec: Members, key: string, extra: seq<Json>, list: seq<Json>)
    ensures Extended(spec, key, extra)[key := Arr(list)] == spec[key := Arr(list)]
  {
  }

  lemma InitEffect(doc: Json, spec: Members, path: string, key: string, pod: Pod, container: Json)
    requires HasSpec(doc, spec) && Plain(key) && NullOrArray(Field(Obj(spec), key))
    requires SameContainers(pod.initContainers, List(spec, key))
    requires path == "/spec/" + key
    ensures ApplyAll(doc, InitOps(path, pod, container)) ==
            Some(WithSpec(doc, Extended(spec, key, InitToAdd(List(spec, key), container))))
  {
    SameContainersNamed(pod.initContainers, List(spec, key), INIT_NAME);
    if Named(List(spec, key), INIT_NAME) {
      assert doc.members["spec" := Obj(spec)] == doc.members;
    } else {
      ListStep(doc, spec, key, pod.initContainers == [], container);
    }
  }

  /** An operation below element i of the list member `key` acts on that element alone. */
  lemma AddInElement(doc: Json, spec: Members, key: string, es: seq<Json>, i: nat, toks: seq<string>, v: Json)
    requires HasSpec(doc, spec) && Plain(key) && key in spec && spec[key] == Arr(es) && i < |es|
    requires toks != [] && forall t | t in toks :: Plain(t)
    ensures Apply(doc, Add("/spec/" + key + "/" + Digits(i) + Render(toks), v)) ==
            match AddAt(es[i], toks, v)
            case None => None
            case Some(child) => Some(WithSpec(doc, spec[key := Arr(es[i := child])]))
  {
    IndexToken(i);
    var t1 := [Digits(i)] + toks;
    var t2 := [key] + t1;
    var t3 := ["spec"] + t2;
    assert t1[1..] == toks && t2[1..] == t1 && t3[1..] == t2;
    assert Render(t1) == "/" + Digits(i) + Render(toks);
    assert Render(t2) == "/" + key + "/" + Digits(i) + Render(toks);
    assert Render(t3) == "/spec/" + key + "/" + Digits(i) + Render(toks);
    ParseRender(t3);
    assert AddAt(Arr(es), t1, v) ==
           match AddAt(es[i], toks, v) case None => None case Some(child) => Some(Arr(es[i := child]));
    assert AddAt(Obj(spec), t2, v) ==
           match AddAt(Arr(es), t1, v) case None => None case Some(child) => Some(Obj(spec[key := child]));
  }

  /** Creating or appending to the list member `sub` of element i. */
  lemma ElementListStep(doc: Json, spec: Members, key: string, es: seq<Json>, i: nat, sub: string, v: Json)
    requires HasSpec(doc, spec) && Plain(key) && key in spec && spec[key] == Arr(es) && i < |es|
    requires Plain(sub) && es[i].Obj? && NullOrArray(Field(es[i], sub))
    ensures var have := Elems(Field(es[i], sub));
            Apply(doc, AddOrCreate("/spec/" + key + "/" + Digits(i) + "/" + sub, have == [], v)) ==
            Some(WithSpec(doc, spec[key := Arr(es[i := Obj(es[i].members[sub := Arr(have + [v])])])]))
  {
    var have := Elems(Field(es[i], sub));
    var path := "/spec/" + key + "/" + Digits(i) + "/" + sub;
    assert [sub][1..] == [] && [sub, "-"][1..] == ["-"];
    if have == [] {
      AddInElement(doc, spec, key, es, i, [sub], Arr([v]));
      assert Render([sub]) == "/" + sub;
      assert "/spec/" + key + "/" + Digits(i) + Render([sub]) == path;
      assert have + [v] == [v];
    } else {
      assert Plain("-");
      AddInElement(doc, spec, key, es, i, [sub, "-"], v);
      assert Render(["-"]) == "/-" && Render([sub, "-"]) == "/" + sub + "/-";
      assert "/spec/" + key + "/" + Digits(i) + Render([sub, "-"]) == path + "/-";
      assert AddAt(es[i].members[sub], ["-"], v) == Some(Arr(have + [v]));
    }
  }

  lemma MountStep(doc: Json, spec: Members, key: string, es: seq<Json>, i: nat, mountPath: string)
    requires HasSpec(doc, spec) && Plain(key) && key in spec && spec[key] == Arr(es) && i < |es|
    requires es[i].Obj? && NullOrArray(Field(es[i], "volumeMounts"))
    ensures ApplyAll(doc, MountOp("/spec/" + key, DecodeContainer(es[i]), i, mountPath)) ==
            Some(WithSpec(doc, spec[key := Arr(es[i := WithMount(es[i], mountPath)])]))
  {
    var c := DecodeContainer(es[i]);
    if MountExists(c.volumeMounts, VOL_SECRETS, mountPath) {
      assert es[i := es[i]] == es && spec[key := Arr(es)] == spec;
      assert doc.members["spec" := Obj(spec)] == doc.members;
    } else {
      ElementListStep(doc, spec, key, es, i, "volumeMounts", AppMount(mountPath));
      var path := "/spec/" + key + "/" + Digits(i) + "/volumeMounts";
      MountsText("/spec/" + key + "/" + Digits(i));
      ApplyOne(doc, AddOrCreate(path, c.volumeMounts == [], AppMount(mountPath)));
    }
  }

  lemma MountsText(prefix: string)
    ensures prefix + "/" + "volumeMounts" == prefix + "/volumeMounts"
  {
    assert "/" + "volumeMounts" == "/volumeMounts";
  }

  /** The operations for container `from` move the mounted prefix on by one. */
  lemma MountNext(
    doc: Json, spec: Members, key: string, cs: seq<Json>, pods: seq<Container>, from: nat, mountPath: string)
    returns (next: Members)
    requires from < |cs| == |pods|
    requires pods[from] == DecodeContainer(cs[from]) && cs[from].Obj? && NullOrArray(Field(cs[from], "volumeMounts"))
    requires HasSpec(doc, spec) && Plain(key) && key in spec
    requires spec[key] == Arr(MountAll(cs[..from], mountPath) + cs[from..])
    ensures next == spec[key := Arr(MountAll(cs[..from + 1], mountPath) + cs[from + 1..])]
    ensures ApplyAll(doc, MountOp("/spec/" + key, pods[from], from, mountPath)) == Some(WithSpec(doc, next))
  {
    var es := MountAll(cs[..from], mountPath) + cs[from..];
    assert es[from] == cs[from];
    MountStep(doc, spec, key, es, from, mountPath);
    assert es[from := WithMount(es[from], mountPath)] == MountAll(cs[..from + 1], mountPath) + cs[from + 1..];
    next := spec[key := Arr(MountAll(cs[..from + 1], mountPath) + cs[from + 1..])];
  }

  /** The operations for containers from.. turn exactly those into their mounted form. */
  lemma {:induction false} MountEffect(
    doc: Json, spec: Members, key: string, cs: seq<Json>, pods: seq<Container>, from: nat, mountPath: string)
    requires from <= |cs| == |pods|
    requires forall i | 0 <= i < |cs| ::
               pods[i] == DecodeContainer(cs[i]) && cs[i].Obj? && NullOrArray(Field(cs[i], "volumeMounts"))
    requires HasSpec(doc, spec) && Plain(key) && key in spec
    requires spec[key] == Arr(MountAll(cs[..from], mountPath) + cs[from..])
    ensures ApplyAll(doc, MountOps("/spec/" + key, pods, from, mountPath)) ==
            Some(WithSpec(doc, spec[key := Arr(MountAll(cs, mountPath))]))
    decreases |cs| - from
  {
    var es := MountAll(cs[..from], mountPath) + cs[from..];
    var goal := Arr(MountAll(cs, mountPath));
    if from == |cs| {
      assert es == MountAll(cs, mountPath);
      assert spec[key := Arr(es)] == spec && doc.members["spec" := Obj(spec)] == doc.members;
    } else {
      var spec' := MountNext(doc, spec, key, cs, pods, from, mountPath);
      MountEffect(WithSpec(doc, spec'), spec', key, cs, pods, from + 1, mountPath);
      WithSpecTwice(doc, spec', spec'[key := goal]);
      assert spec'[key := goal] == spec[key := goal];
      ApplyAllConcat(doc, MountOp("/spec/" + key, pods[from], from, mountPath),
                     MountOps("/spec/" + key, pods, from + 1, mountPath));
    }
  }

  // ---- The whole patch ---------------------------------------------------------

  /** Four groups of operations, each taking the document to the next stage. */
  lemma Compose(d0: Json, a: seq<Op>, d1: Json, b: seq<Op>, d2: Json, c: seq<Op>, d3: Json, e: seq<Op>)
    requires ApplyAll(d0, a) == Some(d1) && ApplyAll(d1, b) == Some(d2) && ApplyAll(d2, c) == Some(d3)
    ensures ApplyAll(d0, a + b + c + e) == ApplyAll(d3, e)
  {
    ApplyAllConcat(d0, a, b);
    ApplyAllConcat(d0, a + b, c);
    ApplyAllConcat(d0, a + b + c, e);
  }

  predicate MountableAll(cs: seq<Json>) {
    forall c | c in cs :: c.Obj? && NullOrArray(Field(c, "volumeMounts"))
  }

  lemma MountGroup(doc: Json, spec: Members, path: string, key: string, pods: seq<Container>, mountPath: string)
    requires HasSpec(doc, spec) && Plain(key) && path == "/spec/" + key
    requires SameContainers(pods, List(spec, key)) && MountableAll(List(spec, key))
    ensures ApplyAll(doc, MountOps(path, pods, 0, mountPath)) ==
            Some(WithSpec(doc, if pods == [] then spec else spec[key := Arr(MountAll(List(spec, key), mountPath))]))
  {
    var cs := List(spec, key);
    if pods == [] {
      assert doc.members["spec" := Obj(spec)] == doc.members;
    } else {
      assert MountAll(cs[..0], mountPath) + cs[0..] == cs;
      MountEffect(doc, spec, key, cs, pods, 0, mountPath);
    }
  }

  /** What the webhook knows of a spec. */
  predicate Represents(pod: Pod, spec: Members, k: Keys) {
    && pod.securityContext == DecodeSecurityContext(Field(Obj(spec), k.securityContext))
    && SameVolumes(pod, List(spec, k.volumes))
    && SameContainers(pod.initContainers, List(spec, k.initContainers))
    && SameContainers(pod.containers, List(spec, k.containers))
  }

  predicate WellFormed(spec: Members, k: Keys) {
    && NullOrArray(Field(Obj(spec), k.volumes))
    && NullOrArray(Field(Obj(spec), k.initContainers))
    && NullOrArray(Field(Obj(spec), k.containers))
    && MountableAll(List(spec, k.containers))
  }

  lemma DecodeRepresents(doc: Json)
    requires IsPodDocument(doc)
    ensures HasSpec(doc, SpecOf(doc)) && Represents(Decode(doc), SpecOf(doc), KEYS) && WellFormed(SpecOf(doc), KEYS)
  {
  }

  // Each group, started from an intermediate spec s and ending in the next one t.

  lemma VolumeStage(
    doc: Json, s: Members, t: Members, path: string, key: string, vols: seq<Json>,
    pod: Pod, cfg: Config, provider: string)
    requires doc.Obj? && Plain(key) && path == "/spec/" + key
    requires NullOrArray(Field(Obj(s), key)) && List(s, key) == vols && SameVolumes(pod, vols)
    requires t == Extended(s, key, AddedVolumes(vols, cfg, provider))
    ensures ApplyAll(WithSpec(doc, s), VolumeOps(path, pod, cfg, provider)) == Some(WithSpec(doc, t))
  {
    WithSpecTwice(doc, s, t);
    VolumeEffect(WithSpec(doc, s), s, path, key, pod, cfg, provider);
  }

  lemma InitStage(
    doc: Json, s: Members, t: Members, path: string, key: string, ics: seq<Json>, pod: Pod, container: Json)
    requires doc.Obj? && Plain(key) && path == "/spec/" + key
    requires NullOrArray(Field(Obj(s), key)) && List(s, key) == ics && SameContainers(pod.initContainers, ics)
    requires t == Extended(s, key, InitToAdd(ics, container))
    ensures ApplyAll(WithSpec(doc, s), InitOps(path, pod, container)) == Some(WithSpec(doc, t))
  {
    WithSpecTwice(doc, s, t);
    InitEffect(WithSpec(doc, s), s, path, key, pod, container);
  }

  lemma MountStage(
    doc: Json, s: Members, path: string, key: string, cs: seq<Json>, pods: seq<Container>, mountPath: string)
    requires doc.Obj? && Plain(key) && path == "/spec/" + key
    requires List(s, key) == cs && SameContainers(pods, cs) && MountableAll(cs)
    ensures ApplyAll(WithSpec(doc, s), MountOps(path, pods, 0, mountPath)) ==
            Some(WithSpec(doc, WithMountsAt(s, key, mountPath)))
  {
    WithSpecTwice(doc, s, WithMountsAt(s, key, mountPath));
    MountGroup(WithSpec(doc, s), s, path, key, pods, mountPath);
  }

  /** The groups do not disturb each other's members. */
  lemma ExtendedFrame(spec: Members, key: string, extra: seq<Json>, other: string)
    requires key != other
    ensures Field(Obj(Extended(spec, key, extra)), other) == Field(Obj(spec), other)
    ensures List(Extended(spec, key, extra), other) == List(spec, other)
  {
  }

  lemma FsGroupFrame(spec: Members, key: string, fsGroup: int, other: string)
    requires key != other
    ensures Field(Obj(WithFsGroupAt(spec, key, fsGroup)), other) == Field(Obj(spec), other)
    ensures List(WithFsGroupAt(spec, key, fsGroup), other) == List(spec, other)
  {
  }

  predicate Distinct(k: Keys) {
    && Plain(k.securityContext) && Plain(k.volumes) && Plain(k.initContainers) && Plain(k.containers)
    && k.securityContext != k.volumes && k.securityContext != k.initContainers && k.securityContext != k.containers
    && k.volumes != k.initContainers && k.volumes != k.containers && k.initContainers != k.containers
  }

  lemma SpecPatch(doc: Json, spec: Members, k: Keys, pod: Pod, cfg: Config, req: Request)
    requires HasSpec(doc, spec) && Represents(pod, spec, k) && WellFormed(spec, k) && Distinct(k)
    ensures ApplyAll(doc, OpsAt(k, pod, cfg, req)) ==
            Some(WithSpec(doc, SpecWithAt(spec, k, cfg, req, AddedVolumes(List(spec, k.volumes), cfg, req.provider))))
  {
    var vols, ics, cs := List(spec, k.volumes), List(spec, k.initContainers), List(spec, k.containers);
    var newVolumes := AddedVolumes(vols, cfg, req.provider);
    var newInit := InitToAdd(ics, InitJson(cfg, req));
    var s1 := WithFsGroupAt(spec, k.securityContext, req.fsGroup);
    var s2 := Extended(s1, k.volumes, newVolumes);
    var s3 := Extended(s2, k.initContainers, newInit);
    FsGroupFrame(spec, k.securityContext, req.fsGroup, k.volumes);
    FsGroupFrame(spec, k.securityContext, req.fsGroup, k.initContainers);
    FsGroupFrame(spec, k.securityContext, req.fsGroup, k.containers);
    ExtendedFrame(s1, k.volumes, newVolumes, k.initContainers);
    ExtendedFrame(s1, k.volumes, newVolumes, k.containers);
    ExtendedFrame(s2, k.initContainers, newInit, k.containers);
    SecurityEffect(doc, spec, At(k.securityContext), k.securityContext, pod, req.fsGroup);
    VolumeStage(doc, s1, s2, At(k.volumes), k.volumes, vols, pod, cfg, req.provider);
    InitStage(doc, s2, s3, At(k.initContainers), k.initContainers, ics, pod, InitJson(cfg, req));
    MountStage(doc, s3, At(k.containers), k.containers, cs, pod.containers, req.mountPath);
    Compose(doc, SecurityOps(At(k.securityContext), pod, req.fsGroup), WithSpec(doc, s1),
            VolumeOps(At(k.volumes), pod, cfg, req.provider), WithSpec(doc, s2),
            InitOps(At(k.initContainers), pod, InitJson(cfg, req)), WithSpec(doc, s3),
            MountOps(At(k.containers), pod.containers, 0, req.mountPath));
  }

  lemma KeysDistinct()
    ensures Distinct(KEYS)
  {
    KeysPlain();
    assert |KEYS.securityContext| == 15 && |KEYS.volumes| == 7;
    assert |KEYS.initContainers| == 14 && |KEYS.containers| == 10;
  }

  lemma KeysPlain()
    ensures Plain(KEYS.securityContext) && Plain(KEYS.volumes) && Plain(KEYS.initContainers) && Plain(KEYS.containers)
  {
    PlainSecurityContext(KEYS.securityContext);
    PlainVolumes(KEYS.volumes);
    PlainInitContainers(KEYS.initContainers);
    PlainContainers(KEYS.containers);
  }

  lemma PlainSecurityContext(key: string)
    requires key == "securityContext"
    ensures Plain(key)
  {
  }

  lemma PlainVolumes(key: string)
    requires key == "volumes"
    ensures Plain(key)
  {
  }

  lemma PlainInitContainers(key: string)
    requires key == "initContainers"
    ensures Plain(key)
  {
  }

  lemma PlainContainers(key: string)
    requires key == "containers"
    ensures Plain(key)
  {
  }

  /** Applying the patch never fails, and this is the document it gives. */
  lemma PatchApplies(doc: Json, cfg: Config, req: Request)
    requires IsPodDocument(doc)
    ensures ApplyAll(doc, Ops(Decode(doc), cfg, req)) == Some(Patch(doc, cfg, req))
  {
    DecodeRepresents(doc);
    KeysDistinct();
    SpecPatch(doc, SpecOf(doc), KEYS, Decode(doc), cfg, req);
  }

  lemma MountsFrame(spec: Members, key: string, mountPath: string, other: string)
    requires key != other
    ensures Field(Obj(WithMountsAt(spec, key, mountPath)), other) == Field(Obj(spec), other)
    ensures List(WithMountsAt(spec, key, mountPath), other) == List(spec, other)
  {
  }

  /** Every member of the spec, after the patch. */
  lemma SpecWithMembers(spec: Members, k: Keys, cfg: Config, req: Request, volumes: seq<Json>)
    requires Distinct(k)
    ensures var t := SpecWithAt(spec, k, cfg, req, volumes);
            && Field(Obj(t), k.securityContext) ==
               Field(Obj(WithFsGroupAt(spec, k.securityContext, req.fsGroup)), k.securityContext)
            && List(t, k.volumes) == List(spec, k.volumes) + volumes
            && List(t, k.initContainers) ==
               List(spec, k.initContainers) + InitToAdd(List(spec, k.initContainers), InitJson(cfg, req))
            && List(t, k.containers) == MountAll(List(spec, k.containers), req.mountPath)
    ensures WellFormed(spec, k) ==> WellFormed(SpecWithAt(spec, k, cfg, req, volumes), k)
  {
    var newInit := InitToAdd(List(spec, k.initContainers), InitJson(cfg, req));
    var s1 := WithFsGroupAt(spec, k.securityContext, req.fsGroup);
    var s2 := Extended(s1, k.volumes, volumes);
    var s3 := Extended(s2, k.initContainers, newInit);
    FsGroupFrame(spec, k.securityContext, req.fsGroup, k.volumes);
    FsGroupFrame(spec, k.securityContext, req.fsGroup, k.initContainers);
    FsGroupFrame(spec, k.securityContext, req.fsGroup, k.containers);
    ExtendedFrame(s1, k.volumes, volumes, k.securityContext);
    ExtendedFrame(s1, k.volumes, volumes, k.initContainers);
    ExtendedFrame(s1, k.volumes, volumes, k.containers);
    ExtendedFrame(s2, k.initContainers, newInit, k.securityContext);
    ExtendedFrame(s2, k.initContainers, newInit, k.volumes);
    ExtendedFrame(s2, k.initContainers, newInit, k.containers);
    MountsFrame(s3, k.containers, req.mountPath, k.securityContext);
    MountsFrame(s3, k.containers, req.mountPath, k.volumes);
    MountsFrame(s3, k.containers, req.mountPath, k.initContainers);
    ExtendedList(s1, k.volumes, volumes);
    ExtendedList(s2, k.initContainers, newInit);
    MountedList(s3, k.containers, req.mountPath);
  }

  lemma ExtendedList(spec: Members, key: string, extra: seq<Json>)
    ensures List(Extended(spec, key, extra), key) == List(spec, key) + extra
    ensures NullOrArray(Field(Obj(spec), key)) ==> NullOrArray(Field(Obj(Extended(spec, key, extra)), key))
  {
  }

  lemma MountedList(spec: Members, key: string, mountPath: string)
    ensures List(WithMountsAt(spec, key, mountPath), key) == MountAll(List(spec, key), mountPath)
    ensures NullOrArray(Field(Obj(spec), key)) ==> NullOrArray(Field(Obj(WithMountsAt(spec, key, mountPath)), key))
    ensures MountableAll(List(spec, key)) ==> MountableAll(List(WithMountsAt(spec, key, mountPath), key))
  {
    var cs := List(spec, key);
    if MountableAll(cs) {
      forall i | 0 <= i < |cs|
        ensures WithMount(cs[i], mountPath).Obj? && NullOrArray(Field(WithMount(cs[i], mountPath), "volumeMounts"))
      {
        assert cs[i] in cs;
      }
    }
  }

  /** The patch does what it is meant to exactly when its volume operations do not clash. */
  lemma PatchMeansInject(doc: Json, cfg: Config, req: Request)
    requires IsPodDocument(doc)
    ensures ApplyAll(doc, Ops(Decode(doc), cfg, req)) == Some(Inject(doc, cfg, req)) <==>
            !Clash(VolumesOf(doc), cfg, req.provider)
  {
    PatchApplies(doc, cfg, req);
    var vols := VolumesOf(doc);
    if Clash(vols, cfg, req.provider) {
      KeysDistinct();
      SpecWithMembers(SpecOf(doc), KEYS, cfg, req, AddedVolumes(vols, cfg, req.provider));
      SpecWithMembers(SpecOf(doc), KEYS, cfg, req, MissingVolumes(vols, cfg, req.provider));
      MissingByName(vols, cfg, req.provider);
      assert !Named(vols, VOL_SECRETS) && !Named(vols, VOL_KEEPER);
      assert |MissingVolumes(vols, cfg, req.provider)| == 2;
      SpecDiffers(doc, SpecWith(SpecOf(doc), cfg, req, AddedVolumes(vols, cfg, req.provider)),
                  SpecWith(SpecOf(doc), cfg, req, MissingVolumes(vols, cfg, req.provider)), KEYS.volumes);
    }
  }

  /** `next` is the container `c` with mounts appended at most. */
  ghost predicate OnlyMountsAppended(c: Json, next: Json) {
    && Elems(Field(c, "volumeMounts")) <= Elems(Field(next, "volumeMounts"))
    && (c.Obj? ==> next.Obj? && forall k :: k != "volumeMounts" ==> Field(next, k) == Field(c, k))
  }

  /** `next` is the security context `sc` with an fsGroup set at most, and only if it had none. */
  ghost predicate OnlyFsGroupSet(sc: Json, next: Json) {
    && next.Obj?
    && (forall k :: k != "fsGroup" ==> Field(next, k) == Field(sc, k))
    && (Field(sc, "fsGroup").Num? ==> Field(next, "fsGroup") == Field(sc, "fsGroup"))
  }

  /**
   The patch only adds: outside the spec and outside the four members nothing
   changes, lists keep their elements in order, a container only gains a mount,
   and the security context only an fsGroup where it had none.
   */
  lemma OnlyAdds(doc: Json, cfg: Config, req: Request)
    requires IsPodDocument(doc)
    ensures var next := Patch(doc, cfg, req);
            && next.members.Keys == doc.members.Keys
            && (forall k | k in doc.members && k != "spec" :: next.members[k] == doc.members[k])
            && Spec(next).Obj?
    ensures var s, t := SpecOf(doc), Spec(Patch(doc, cfg, req)).members;
            && (forall k | k !in {KEYS.securityContext, KEYS.volumes, KEYS.initContainers, KEYS.containers} ::
                  Field(Obj(t), k) == Field(Obj(s), k))
            && OnlyFsGroupSet(Field(Obj(s), KEYS.securityContext), Field(Obj(t), KEYS.securityContext))
            && List(s, "volumes") <= List(t, "volumes")
            && List(s, "initContainers") <= List(t, "initContainers")
            && |List(s, "containers")| == |List(t, "containers")|
            && forall i | 0 <= i < |List(s, "containers")| ::
                 OnlyMountsAppended(List(s, "containers")[i], List(t, "containers")[i])
  {
    var spec, vols := SpecOf(doc), AddedVolumes(VolumesOf(doc), cfg, req.provider);
    KeysDistinct();
    SpecWithMembers(spec, KEYS, cfg, req, vols);
    forall k | k !in {KEYS.securityContext, KEYS.volumes, KEYS.initContainers, KEYS.containers}
      ensures Field(Obj(SpecWithAt(spec, KEYS, cfg, req, vols)), k) == Field(Obj(spec), k)
    {
      OtherMember(spec, KEYS, cfg, req, vols, k);
    }
    FsGroupOnly(spec, KEYS.securityContext, req.fsGroup);
    var cs := List(spec, "containers");
    forall i | 0 <= i < |cs| ensures OnlyMountsAppended(cs[i], WithMount(cs[i], req.mountPath)) {
      MountOnlyAppends(cs[i], req.mountPath);
    }
  }

  lemma FsGroupOnly(spec: Members, key: string, fsGroup: int)
    requires Field(Obj(spec), key).Null? || Field(Obj(spec), key).Obj?
    ensures OnlyFsGroupSet(Field(Obj(spec), key), Field(Obj(WithFsGroupAt(spec, key, fsGroup)), key))
  {
  }

  lemma OtherMember(spec: Members, k: Keys, cfg: Config, req: Request, volumes: seq<Json>, other: string)
    requires other != k.securityContext && other != k.volumes && other != k.initContainers && other != k.containers
    ensures Field(Obj(SpecWithAt(spec, k, cfg, req, volumes)), other) == Field(Obj(spec), other)
  {
    var newInit := InitToAdd(List(spec, k.initContainers), InitJson(cfg, req));
    var s1 := WithFsGroupAt(spec, k.securityContext, req.fsGroup);
    var s2 := Extended(s1, k.volumes, volumes);
    var s3 := Extended(s2, k.initContainers, newInit);
    FsGroupFrame(spec, k.securityContext, req.fsGroup, other);
    ExtendedFrame(s1, k.volumes, volumes, other);
    ExtendedFrame(s2, k.initContainers, newInit, other);
    MountsFrame(s3, k.containers, req.mountPath, other);
  }

  lemma MountOnlyAppends(c: Json, mountPath: string)
    ensures OnlyMountsAppended(c, WithMount(c, mountPath))
  {
  }

  /** Without a spec object no patch of the webhook applies, so requiring one loses nothing. */
  lemma NoSpecNoPatch(doc: Json, cfg: Config, req: Request)
    requires !Spec(doc).Obj?
    ensures ApplyAll(doc, Ops(Decode(doc), cfg, req)) == None
  {
    FailsAtOnce(doc, KEYS, Decode(doc), cfg, req);
  }

  lemma FailsAtOnce(doc: Json, k: Keys, pod: Pod, cfg: Config, req: Request)
    requires !Spec(doc).Obj? && pod.securityContext.None? && k.securityContext == "securityContext"
    ensures ApplyAll(doc, OpsAt(k, pod, cfg, req)) == None
  {
    var first := Add(At(k.securityContext), Obj(map["fsGroup" := Num(req.fsGroup)]));
    var rest := OpsAt(k, pod, cfg, req)[1..];
    AddWithoutSpec(doc, At(k.securityContext), k.securityContext, first.value);
    assert OpsAt(k, pod, cfg, req) == [first] + rest;
    ApplyOne(doc, first);
    ApplyAllConcat(doc, [first], rest);
  }

  lemma AddWithoutSpec(doc: Json, path: string, key: string, v: Json)
    requires !Spec(doc).Obj? && key == "securityContext" && path == "/spec/" + key
    ensures Apply(doc, Add(path, v)) == None
  {
    var toks := ["spec", key];
    assert Plain("spec") && Plain(key);
    ParseRender(toks);
    assert toks[1..] == [key] && Render([key]) == "/" + key;
    assert Render(toks) == path;
    assert !IsDigit(key[0]) && !IsDigit("spec"[0]);
    assert ParseIndex(key) == None && ParseIndex("spec") == None;
    assert AddAt(Spec(doc), [key], v) == None;
  }

  lemma SpecDiffers(doc: Json, a: Members, b: Members, key: string)
    requires doc.Obj? && List(a, key) != List(b, key)
    ensures WithSpec(doc, a) != WithSpec(doc, b)
  {
    assert WithSpec(doc, a).members["spec"] == Obj(a);
    assert WithSpec(doc, b).members["spec"] == Obj(b);
  }
}
