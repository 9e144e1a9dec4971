/**
 The pod as MutatePod sees it: the Go struct decoded from the admission
 request's JSON document. Only the fields the webhook reads are kept.
 */
module Pods {
  import opened JsonPatch
  import opened Wrappers

  datatype Volume = Volume(name: string)

  datatype VolumeMount = VolumeMount(name: string, mountPath: string)

  datatype Container = Container(name: string, volumeMounts: seq<VolumeMount>)

  datatype SecurityContext = SecurityContext(fsGroup: Option<int>)

  datatype Pod = Pod(
    name: string,
    namespace: string,
    annotations: map<string, string>,
    securityContext: Option<SecurityContext>,
    volumes: seq<Volume>,
    initContainers: seq<Container>,
    containers: seq<Container>)

  // ---- Decoding ----------------------------------------------------------

  /** An absent member and null decode alike, to Go's zero value. */
  function Field(j: Json, key: string): Json {
    if j.Obj? && key in j.members then j.members[key] else Null
  }

  function Elems(j: Json): seq<Json> {
    if j.Arr? then j.elems else []
  }

  function AsText(j: Json): string {
    if j.Str? then j.s else ""
  }

  function DecodeVolume(j: Json): Volume {
    Volume(AsText(Field(j, "name")))
  }

  function DecodeMount(j: Json): VolumeMount {
    VolumeMount(AsText(Field(j, "name")), AsText(Field(j, "mountPath")))
  }

  function Mounts(j: Json): seq<VolumeMount> {
    var ms := Elems(Field(j, "volumeMounts"));
    seq(|ms|, i requires 0 <= i < |ms| => DecodeMount(ms[i]))
  }

  function DecodeContainer(j: Json): Container {
    Container(AsText(Field(j, "name")), Mounts(j))
  }

  function DecodeSecurityContext(j: Json): Option<SecurityContext> {
    if !j.Obj? then None
    else
      var g := Field(j, "fsGroup");
      Some(SecurityContext(if g.Num? then Some(g.n) else None))
  }

  function DecodeAnnotations(j: Json): map<string, string> {
    if j.Obj? then map k | k in j.members :: AsText(j.members[k]) else map[]
  }

  function Spec(doc: Json): Json {
    Field(doc, "spec")
  }

  function Decode(doc: Json): Pod {
    var meta := Field(doc, "metadata");
    var spec := Spec(doc);
    var vs, ics := Elems(Field(spec, "volumes")), Elems(Field(spec, "initContainers"));
    var cs := Elems(Field(spec, "containers"));
    Pod(
      AsText(Field(meta, "name")),
      AsText(Field(meta, "namespace")),
      DecodeAnnotations(Field(meta, "annotations")),
      DecodeSecurityContext(Field(spec, "securityContext")),
      seq(|vs|, i requires 0 <= i < |vs| => DecodeVolume(vs[i])),
      seq(|ics|, i requires 0 <= i < |ics| => DecodeContainer(ics[i])),
      seq(|cs|, i requires 0 <= i < |cs| => DecodeContainer(cs[i])))
  }

  // ---- Documents the API server sends ------------------------------------

  predicate NullOrArray(j: Json) {
    j.Null? || j.Arr?
  }

  /**
   A document the API server encodes from a pod: "spec" and every app
   container are objects, and the optional members the webhook extends are
   absent, null or of their own kind.
   */
  predicate IsPodDocument(doc: Json) {
    var spec := Spec(doc);
    && doc.Obj?
    && spec.Obj?
    && (Field(spec, "securityContext").Null? || Field(spec, "securityContext").Obj?)
    && NullOrArray(Field(spec, "volumes"))
    && NullOrArray(Field(spec, "initContainers"))
    && NullOrArray(Field(spec, "containers"))
    && forall c | c in Elems(Field(spec, "containers")) :: c.Obj? && NullOrArray(Field(c, "volumeMounts"))
  }
}
