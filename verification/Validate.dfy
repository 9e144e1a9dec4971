/** The validators shared by the webhook and chur-init (internal/validate). */
module Validate {
  import opened Paths
  import opened Text

  predicate AllowedRune(c: char) {
    IsLetter(c) || IsDigit(c) || c == '-' || c == '_' || c == '.'
  }

  predicate AllowedMountRune(c: char) {
    AllowedRune(c) || c == '/'
  }

  predicate Edge(c: char) {
    c == '-' || c == '.'
  }

  predicate ValidSecretRef(ref: string) {
    && ref != ""
    && ByteLen(ref) <= 255
    && ref != "."
    && !HasDotDot(ref)
    && '/' !in ref && '\\' !in ref
    && (forall c | c in ref :: AllowedRune(c))
    && !Edge(ref[0])
    && !Edge(ref[|ref| - 1])
  }

  predicate ValidSecretKey(key: string) {
    key == "" ||
    (&& ByteLen(key) <= 253
     && !HasDotDot(key)
     && '/' !in key && '\\' !in key
     && forall c | c in key :: AllowedRune(c))
  }

  predicate ValidMountPath(path: string) {
    path == "" ||
    (&& ByteLen(path) <= 4096
     && Rooted(path)
     && !HasDotDot(path)
     && forall c | c in path :: AllowedMountRune(c))
  }

  predicate ValidLocalBasePath(path: string) {
    && path != ""
    && ByteLen(path) <= 4096
    && Rooted(path)
    && Clean(path) != "/" && Clean(path) != "."
    && !HasDotDot(path)
    && forall c | c in path :: AllowedMountRune(c)
  }

  predicate ValidKeeperRef(ref: string) {
    && ref != ""
    && ByteLen(ref) <= 4096
    && ref[0] != '/'
    && !HasDotDot(ref)
    && forall c | c in ref :: AllowedMountRune(c)
  }

  /** The validator admission and chur-init both pick by provider name. */
  predicate ValidRefFor(provider: string, ref: string) {
    if provider == "keeper" then ValidKeeperRef(ref) else ValidSecretRef(ref)
  }

  lemma {:induction false} ByteLenBound(s: string)
    ensures ByteLen(s) <= 4 * |s|
  {
    if s != "" {
      ByteLenBound(s[1..]);
    }
  }

  lemma DefaultMountPathValid()
    ensures ValidMountPath("/secrets")
  {
    var m := "/secrets";
    ByteLenBound(m);
    assert |m| == 8;
  }

  lemma ShortKeeperRef(ref: string)
    requires |ref| == 1 && AllowedMountRune(ref[0]) && ref[0] != '/'
    ensures ValidKeeperRef(ref)
  {
    ByteLenBound(ref);
  }

  // ---- Path containment -------------------------------------------------

  /**
   The file chur-init writes: below the mount path come exactly the names of
   the ref, whatever accepted mount path and ref are combined.
   */
  lemma Containment(provider: string, mountPath: string, ref: string)
    requires mountPath != "" && ValidMountPath(mountPath)
    requires ValidRefFor(provider, ref)
    ensures Rooted(Join(mountPath, ref))
    ensures Components(Join(mountPath, ref)) == Components(mountPath) + Components(ref)
    ensures Components(ref) == Names(Split(ref))
  {
    JoinComponents(mountPath, ref);
    ComponentsAreNames(ref);
  }

  /** A ref is strictly below the mount exactly when it has a name other than "" and ".". */
  lemma StrictlyBelow(provider: string, mountPath: string, ref: string)
    requires mountPath != "" && ValidMountPath(mountPath)
    requires ValidRefFor(provider, ref)
    ensures Components(mountPath) < Components(Join(mountPath, ref)) <==>
            exists p | p in Split(ref) :: p != "" && p != "."
  {
    Containment(provider, mountPath, ref);
    NamesEmpty(Split(ref));
  }

  lemma {:induction false} NamesEmpty(pieces: seq<string>)
    ensures Names(pieces) == [] <==> forall p | p in pieces :: p == "" || p == "."
  {
    if pieces != [] {
      NamesEmpty(pieces[1..]);
      assert pieces[0] in pieces;
      assert forall p | p in pieces :: p == pieces[0] || p in pieces[1..];
      assert forall p | p in pieces[1..] :: p in pieces;
      assert |Names(pieces)| == 0 <==> (pieces[0] == "" || pieces[0] == ".") && |Names(pieces[1..])| == 0;
    }
  }

  /** Flat refs add exactly one component, the ref itself ... */
  lemma FlatRefIsOneComponent(mountPath: string, ref: string)
    requires mountPath != "" && ValidMountPath(mountPath)
    requires ValidSecretRef(ref)
    ensures Components(Join(mountPath, ref)) == Components(mountPath) + [ref]
  {
    Containment("env", mountPath, ref);
    SplitPlain(ref);
    assert Names([ref]) == [ref] + Names([]);
  }

  /** ... and so no two of them share a file. */
  lemma FlatRefsAreInjective(mountPath: string, ref1: string, ref2: string)
    requires mountPath != "" && ValidMountPath(mountPath)
    requires ValidSecretRef(ref1) && ValidSecretRef(ref2)
    requires Join(mountPath, ref1) == Join(mountPath, ref2)
    ensures ref1 == ref2
  {
    FlatRefIsOneComponent(mountPath, ref1);
    FlatRefIsOneComponent(mountPath, ref2);
    var c := Components(mountPath);
    assert (c + [ref1])[|c|] == (c + [ref2])[|c|];
  }

  /** Two refs of any provider are delivered to one file exactly when their names agree. */
  lemma SameFileIff(provider: string, mountPath: string, ref1: string, ref2: string)
    requires mountPath != "" && ValidMountPath(mountPath)
    requires ValidRefFor(provider, ref1) && ValidRefFor(provider, ref2)
    ensures Join(mountPath, ref1) == Join(mountPath, ref2) <==> Components(ref1) == Components(ref2)
  {
    Containment(provider, mountPath, ref1);
    Containment(provider, mountPath, ref2);
    JoinComponents(mountPath, ref1);
    JoinComponents(mountPath, ref2);
    var n := |Components(mountPath)|;
    assert (Components(mountPath) + Components(ref1))[n..] == Components(ref1);
    assert (Components(mountPath) + Components(ref2))[n..] == Components(ref2);
    assert Rooted(mountPath + "/" + ref1) && Rooted(mountPath + "/" + ref2);
  }

  // ---- The temporary file beside the target --------------------------------------

  lemma {:induction false} JoinSlashAppend(comps: seq<string>, x: string)
    requires comps != []
    ensures JoinSlash(comps) + x == JoinSlash(comps[..|comps| - 1] + [comps[|comps| - 1] + x])
  {
    var longer := comps[..|comps| - 1] + [comps[|comps| - 1] + x];
    if |comps| > 1 {
      JoinSlashAppend(comps[1..], x);
      assert longer[1..] == comps[1..][..|comps[1..]| - 1] + [comps[1..][|comps[1..]| - 1] + x];
    }
  }

  lemma LongerIsProper(c: string, x: string)
    requires Proper(c) && Proper(x) && |x| > 2
    ensures Proper(c + x)
  {
    assert |c + x| > 2;
  }

  function Extended(comps: seq<string>, x: string): seq<string> {
    if comps == [] then [x] else comps[..|comps| - 1] + [comps[|comps| - 1] + x]
  }

  lemma RenderExtended(comps: seq<string>, x: string)
    ensures JoinSlash(comps) + x == JoinSlash(Extended(comps, x))
  {
    if comps == [] {
      assert "" + x == x;
    } else {
      JoinSlashAppend(comps, x);
    }
  }

  lemma ExtendedProper(comps: seq<string>, x: string)
    requires forall c | c in comps :: Proper(c)
    requires Proper(x) && |x| > 2
    ensures forall c | c in Extended(comps, x) :: Proper(c)
  {
    if comps != [] {
      LongerIsProper(comps[|comps| - 1], x);
    }
  }

  /** Appending an extension to a cleaned rooted path changes its last component alone. */
  lemma ExtendedName(comps: seq<string>, x: string)
    requires forall c | c in comps :: Proper(c)
    requires Proper(x) && |x| > 2
    ensures Components("/" + JoinSlash(comps) + x) == Extended(comps, x)
  {
    ExtendedProper(comps, x);
    ComponentsOfRendering(Extended(comps, x));
    assert "/" + JoinSlash(comps) + x == "/" + JoinSlash(Extended(comps, x)) by {
      RenderExtended(comps, x);
      SlashFirst(JoinSlash(comps), x);
    }
  }

  lemma SlashFirst(a: string, b: string)
    ensures "/" + a + b == "/" + (a + b)
  {
  }

  /**
   The temporary file lies inside the mount exactly when the target does, or
   the mount is the root: a ref such as "." would put it next to the mount.
   */
  lemma TempFileInMountIff(provider: string, mountPath: string, ref: string)
    requires mountPath != "" && ValidMountPath(mountPath)
    requires ValidRefFor(provider, ref)
    ensures var tmp := Join(mountPath, ref) + ".tmp";
            Components(mountPath) < Components(tmp) <==> Components(ref) != [] || Components(mountPath) == []
  {
    var dir, names := Components(mountPath), Components(ref);
    var comps := dir + names;
    JoinComponents(mountPath, ref);
    Containment(provider, mountPath, ref);
    CleanKeepsComponents(mountPath + "/" + ref);
    assert Join(mountPath, ref) == "/" + JoinSlash(comps);
    ExtendedName(comps, ".tmp");
    if names == [] && dir != [] {
      assert comps == dir;
    }
  }

  /** Such a ref is accepted, and makes the mount itself the target and the temporary file its neighbour. */
  lemma DotRefLeavesMount(mountPath: string, name: string)
    requires Proper(name) && mountPath == "/" + name && ValidMountPath(mountPath)
    ensures ValidKeeperRef(".") && Join(mountPath, ".") == mountPath
    ensures Components(Join(mountPath, ".") + ".tmp") == [name + ".tmp"]
  {
    ShortKeeperRef(".");
    ComponentsOfRendering([name]);
    assert JoinSlash([name]) == name;
    SplitPlain(".");
    assert Names(["."]) == [] && [name] + [] == [name];
    JoinComponents(mountPath, ".");
    ExtendedName([name], ".tmp");
  }

  /** With the default mount: the secret would replace /secrets, and be written to /secrets.tmp first. */
  lemma DotRefExample()
    ensures ValidKeeperRef(".") && ValidMountPath("/secrets") && Join("/secrets", ".") == "/secrets"
    ensures Join("/secrets", ".") + ".tmp" == "/secrets.tmp"
  {
    DefaultMountPathValid();
    DotRefLeavesMount("/secrets", "secrets");
  }
}
