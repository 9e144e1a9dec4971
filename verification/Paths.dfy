/** filepath.Clean and filepath.Join, by components. */
module Paths {
  import opened Text

  predicate Rooted(path: string) {
    path != "" && path[0] == '/'
  }

  /** One left-to-right pass over the pieces of a path, as filepath.Clean makes it. */
  function Resolve(pieces: seq<string>, rooted: bool, acc: seq<string>): seq<string> {
    if pieces == [] then acc
    else
      var p, rest := pieces[0], pieces[1..];
      if p == "" || p == "." then Resolve(rest, rooted, acc)
      else if p != ".." then Resolve(rest, rooted, acc + [p])
      else if acc != [] && acc[|acc| - 1] != ".." then Resolve(rest, rooted, acc[..|acc| - 1])
      else Resolve(rest, rooted, if rooted then acc else acc + [p])
  }

  function Components(path: string): seq<string> {
    Resolve(Split(path), Rooted(path), [])
  }

  function JoinSlash(comps: seq<string>): string {
    if comps == [] then ""
    else if |comps| == 1 then comps[0]
    else comps[0] + "/" + JoinSlash(comps[1..])
  }

  function Clean(path: string): string {
    var body := JoinSlash(Components(path));
    if Rooted(path) then "/" + body else if body == "" then "." else body
  }

  /** filepath.Join of two non-empty elements. */
  function Join(dir: string, name: string): string {
    Clean(dir + "/" + name)
  }

  /** The pieces that survive cleaning when none of them is "..". */
  function Names(pieces: seq<string>): seq<string> {
    if pieces == [] then []
    else (if pieces[0] == "" || pieces[0] == "." then [] else [pieces[0]]) + Names(pieces[1..])
  }

  // ---- Lemmas -----------------------------------------------------------

  lemma {:induction false} ResolveConcat(a: seq<string>, b: seq<string>, rooted: bool, acc: seq<string>)
    ensures Resolve(a + b, rooted, acc) == Resolve(b, rooted, Resolve(a, rooted, acc))
    decreases |a|
  {
    if a == [] {
      assert a + b == b;
    } else {
      assert (a + b)[1..] == a[1..] + b && (a + b)[0] == a[0];
      forall acc' {
        ResolveConcat(a[1..], b, rooted, acc');
      }
    }
  }

  lemma {:induction false} ResolveNames(pieces: seq<string>, rooted: bool, acc: seq<string>)
    requires ".." !in pieces
    ensures Resolve(pieces, rooted, acc) == acc + Names(pieces)
    decreases |pieces|
  {
    if pieces != [] {
      var acc' := if pieces[0] == "" || pieces[0] == "." then acc else acc + [pieces[0]];
      ResolveNames(pieces[1..], rooted, acc');
    }
  }

  lemma NoDotDotPiece(s: string)
    requires !HasDotDot(s)
    ensures ".." !in Split(s)
  {
    forall k | 0 <= k < |Split(s)| ensures Split(s)[k] != ".." {
      var _ := SplitPiece(s, k);
    }
  }

  predicate Proper(comp: string) {
    comp != "" && comp != "." && comp != ".." && '/' !in comp
  }

  /** Components of a rooted path are proper names; no ".." is left. */
  lemma {:induction false} ResolveProper(pieces: seq<string>, acc: seq<string>)
    requires forall p | p in pieces :: '/' !in p
    requires forall c | c in acc :: Proper(c)
    ensures forall c | c in Resolve(pieces, true, acc) :: Proper(c)
    decreases |pieces|
  {
    if pieces != [] {
      var p := pieces[0];
      var acc' := if p == "" || p == "." then acc
                  else if p != ".." then acc + [p]
                  else if acc != [] then acc[..|acc| - 1] else acc;
      assert acc != [] ==> Proper(acc[|acc| - 1]);
      ResolveProper(pieces[1..], acc');
    }
  }

  lemma {:induction false} SplitJoined(comps: seq<string>)
    requires comps != [] && forall c | c in comps :: '/' !in c
    ensures Split(JoinSlash(comps)) == comps
  {
    SplitPlain(comps[0]);
    if |comps| > 1 {
      SplitJoined(comps[1..]);
      SplitConcat(comps[0], JoinSlash(comps[1..]));
    }
  }

  lemma {:induction false} NamesProper(comps: seq<string>)
    requires forall c | c in comps :: Proper(c)
    ensures Names(comps) == comps
  {
    if comps != [] {
      assert Proper(comps[0]);
      NamesProper(comps[1..]);
    }
  }

  /** A rooted list of proper names is what its rendering resolves to. */
  lemma ComponentsOfRendering(comps: seq<string>)
    requires forall c | c in comps :: Proper(c)
    ensures Components("/" + JoinSlash(comps)) == comps
  {
    var path := "/" + JoinSlash(comps);
    SplitConcat("", JoinSlash(comps));
    assert path == "" + "/" + JoinSlash(comps);
    var tail := Split(JoinSlash(comps));
    if comps != [] {
      SplitJoined(comps);
    }
    forall p | p in tail ensures p != ".." {
      if comps != [] {
        assert Proper(p);
      }
    }
    assert Split(path) == [""] + tail;
    ResolveNames([""] + tail, true, []);
    assert ([""] + tail)[1..] == tail;
    if comps != [] {
      NamesProper(comps);
    } else {
      assert Names([""]) == [];
    }
  }

  /** Cleaning a rooted path does not change its components. */
  lemma CleanKeepsComponents(path: string)
    requires Rooted(path)
    ensures Rooted(Clean(path)) && Components(Clean(path)) == Components(path)
    ensures forall c | c in Components(path) :: Proper(c)
  {
    forall k | 0 <= k < |Split(path)| ensures '/' !in Split(path)[k] {
      var _ := SplitPiece(path, k);
    }
    ResolveProper(Split(path), []);
    ComponentsOfRendering(Components(path));
  }

  /** Joining below a rooted directory keeps its components and adds the name's own. */
  lemma JoinComponents(dir: string, name: string)
    requires Rooted(dir) && !HasDotDot(name)
    ensures Rooted(Join(dir, name))
    ensures Components(Join(dir, name)) == Components(dir + "/" + name) == Components(dir) + Names(Split(name))
  {
    var path := dir + "/" + name;
    assert path[0] == dir[0];
    CleanKeepsComponents(path);
    SplitConcat(dir, name);
    ResolveConcat(Split(dir), Split(name), true, []);
    NoDotDotPiece(name);
    ResolveNames(Split(name), true, Components(dir));
  }

  lemma ComponentsAreNames(path: string)
    requires !HasDotDot(path)
    ensures Components(path) == Names(Split(path))
  {
    NoDotDotPiece(path);
    ResolveNames(Split(path), Rooted(path), []);
  }

  /** A ".." takes back the name before it ... */
  lemma DotDotTakesBack(dir: string, name: string, up: string)
    requires Rooted(dir) && Proper(name) && up == ".."
    ensures Components(dir + "/" + (name + "/" + up)) == Components(dir)
  {
    SplitPlain(name);
    SplitPlain(up);
    SplitConcat(name, up);
    SplitConcat(dir, name + "/" + up);
    var acc, path, last := Components(dir), dir + "/" + (name + "/" + up), [name] + [up];
    assert path[0] == dir[0] && Split(path) == Split(dir) + last;
    ResolveConcat(Split(dir), last, true, []);
    assert last[1..] == [up] && [up][1..] == [];
    assert (acc + [name])[..|acc|] == acc && (acc + [name])[|acc|] == name;
    assert Resolve(last, true, acc) == Resolve([up], true, acc + [name]);
    assert Resolve([up], true, acc + [name]) == Resolve([], true, acc);
  }

  /** ... and at the root nothing is there to take. */
  lemma DotDotAtRoot(up: string)
    requires up == ".."
    ensures Components("/" + up) == []
  {
    SplitPlain(up);
    SplitConcat("", up);
    assert "" + "/" + up == "/" + up;
    var path, pieces := "/" + up, [""] + [up];
    assert Split(path) == pieces && Rooted(path);
    assert pieces[1..] == [up] && [up][1..] == [];
    assert Resolve([up], true, []) == Resolve([], true, []);
    assert Resolve(pieces, true, []) == Resolve([up], true, []);
  }
}
