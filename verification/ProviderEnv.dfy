/** The chur.io/provider-env annotation: checked, then sorted by key. */
module ProviderEnv {
  import opened Text
  import opened Wrappers

  datatype EnvVar = EnvVar(name: string, value: string)

  const RESERVED: set<string> := {
    "CHUR_PROVIDER", "CHUR_SECRET_REF", "CHUR_SECRET_KEY", "CHUR_MOUNT_PATH",
    "CHUR_MAX_SECRET_SIZE", "CHUR_LOCAL_BASE_PATH", "CHUR_KEEPER_URL",
    "CHUR_KEEPER_TLS_CERT_PATH", "CHUR_KEEPER_TLS_KEY_PATH", "CHUR_KEEPER_SERVER_CA",
    "CHUR_KEEPER_INSECURE_SKIP_VERIFY", "CHUR_KEEPER_CLIENT_MAX_SECRET_SIZE"
  }

  predicate ValidKey(k: string) {
    && 0 < ByteLen(k) <= 128
    && (forall c | c in k :: c == '_' || 'A' <= c <= 'Z' || IsDigit(c))
    && "CHUR_" <= k
  }

  predicate Acceptable(k: string, v: string) {
    ValidKey(k) && k !in RESERVED && ByteLen(v) <= 4096
  }

  predicate AllAcceptable(extra: map<string, string>) {
    forall k | k in extra :: Acceptable(k, extra[k])
  }

  // ---- The sorted list of a map -------------------------------------------

  predicate Sorted(envs: seq<EnvVar>) {
    forall i, j | 0 <= i < j < |envs| :: Less(envs[i].name, envs[j].name)
  }

  /** envs holds exactly the entries of m. */
  ghost predicate Lists(envs: seq<EnvVar>, m: map<string, string>) {
    && (forall e | e in envs :: e.name in m && m[e.name] == e.value)
    && (forall k | k in m :: EnvVar(k, m[k]) in envs)
  }

  predicate Least(k: string, keys: set<string>) {
    k in keys && forall k' | k' in keys :: k == k' || Less(k, k')
  }

  /** The list every iteration order of the map ends in, by SortedOf's own contract and SortedUnique. */
  ghost function SortedOf(m: map<string, string>): (envs: seq<EnvVar>)
    ensures Sorted(envs) && Lists(envs, m)
    decreases |m|
  {
    if m == map[] then []
    else
      LeastKeyExists(m.Keys);
      var k :| Least(k, m.Keys);
      var rest := SortedOf(m - {k});
      PrependLeast(k, m, rest);
      [EnvVar(k, m[k])] + rest
  }

  lemma PrependLeast(k: string, m: map<string, string>, rest: seq<EnvVar>)
    requires Least(k, m.Keys)
    requires Sorted(rest) && Lists(rest, m - {k})
    ensures Sorted([EnvVar(k, m[k])] + rest) && Lists([EnvVar(k, m[k])] + rest, m)
  {
    assert forall e | e in rest :: Less(k, e.name);
    assert forall k' | k' in m && k' != k :: k' in m - {k} && EnvVar(k', (m - {k})[k']) in rest;
  }

  lemma {:induction false} LeastKeyExists(keys: set<string>)
    requires keys != {}
    ensures exists k :: Least(k, keys)
  {
    var x :| x in keys;
    var rest := keys - {x};
    assert keys == rest + {x};
    if rest == {} {
      assert Least(x, keys);
    } else {
      LeastKeyExists(rest);
      var k :| Least(k, rest);
      LessTrichotomy(k, x);
      if Less(x, k) {
        forall k' | k' in rest && k' != k ensures Less(x, k') {
          LessTransitive(x, k, k');
        }
        assert Least(x, keys);
      } else {
        assert Least(k, keys);
      }
    }
  }

  /** Two strictly sorted lists of one map are the same list. */
  lemma {:induction false} SortedUnique(a: seq<EnvVar>, b: seq<EnvVar>, m: map<string, string>)
    requires Sorted(a) && Sorted(b) && Lists(a, m) && Lists(b, m)
    ensures a == b
    decreases |a|
  {
    if a == [] {
      assert forall e | e in b :: EnvVar(e.name, m[e.name]) in a;
    } else {
      assert a[0] in a;
      assert EnvVar(a[0].name, m[a[0].name]) in b;
      assert b[0] in b && EnvVar(b[0].name, m[b[0].name]) in a;
      LessTrichotomy(a[0].name, b[0].name);
      assert a[0] == b[0];
      var rest := m - {a[0].name};
      TailLists(a, m);
      TailLists(b, m);
      SortedUnique(a[1..], b[1..], rest);
    }
  }

  lemma TailLists(a: seq<EnvVar>, m: map<string, string>)
    requires a != [] && Sorted(a) && Lists(a, m)
    ensures Sorted(a[1..]) && Lists(a[1..], m - {a[0].name})
  {
    forall e | e in a[1..] ensures e.name != a[0].name {
      LessTrichotomy(a[0].name, e.name);
    }
    forall k | k in m - {a[0].name} ensures EnvVar(k, m[k]) in a[1..] {
      assert EnvVar(k, m[k]) in a;
    }
  }

  // ---- parseProviderEnv ----------------------------------------------------

  function Insert(e: EnvVar, envs: seq<EnvVar>): (r: seq<EnvVar>)
    ensures multiset(r) == multiset(envs) + multiset{e}
  {
    if envs == [] || Less(e.name, envs[0].name) then [e] + envs
    else
      assert envs == [envs[0]] + envs[1..];
      [envs[0]] + Insert(e, envs[1..])
  }

  /** sort.Slice by name; any sort gives this result on distinct names. */
  function SortByName(envs: seq<EnvVar>): (r: seq<EnvVar>)
    ensures multiset(r) == multiset(envs)
  {
    if envs == [] then []
    else
      assert envs == [envs[0]] + envs[1..];
      Insert(envs[0], SortByName(envs[1..]))
  }

  predicate DistinctNames(envs: seq<EnvVar>) {
    forall i, j | 0 <= i < j < |envs| :: envs[i].name != envs[j].name
  }

  lemma {:induction false} InsertSorted(e: EnvVar, envs: seq<EnvVar>)
    requires Sorted(envs)
    requires forall f | f in envs :: f.name != e.name
    ensures Sorted(Insert(e, envs))
  {
    if envs != [] {
      LessTrichotomy(e.name, envs[0].name);
      if Less(e.name, envs[0].name) {
        forall f | f in envs ensures Less(e.name, f.name) {
          if f != envs[0] {
            LessTransitive(e.name, envs[0].name, f.name);
          }
        }
      } else {
        assert envs[0] in envs;
        InsertSorted(e, envs[1..]);
        var r := Insert(e, envs[1..]);
        forall f | f in r ensures Less(envs[0].name, f.name) {
          assert f in multiset(r);
        }
      }
    }
  }

  lemma {:induction false} SortByNameSorts(envs: seq<EnvVar>)
    requires DistinctNames(envs)
    ensures Sorted(SortByName(envs))
  {
    if envs != [] {
      SortByNameSorts(envs[1..]);
      var r := SortByName(envs[1..]);
      forall f | f in r ensures f.name != envs[0].name {
        assert f in multiset(r);
      }
      InsertSorted(envs[0], r);
    }
  }

  lemma SortByNameLists(envs: seq<EnvVar>, m: map<string, string>)
    requires DistinctNames(envs) && Lists(envs, m)
    ensures SortByName(envs) == SortedOf(m)
  {
    var sorted := SortByName(envs);
    SortByNameSorts(envs);
    assert forall e :: e in sorted <==> e in multiset(sorted);
    assert forall e :: e in envs <==> e in multiset(envs);
    SortedUnique(sorted, SortedOf(m), m);
  }

  /** Any two enumerations of one map sort to one list. */
  lemma OrderIndependent(a: seq<EnvVar>, b: seq<EnvVar>, m: map<string, string>)
    requires DistinctNames(a) && DistinctNames(b) && Lists(a, m) && Lists(b, m)
    ensures SortByName(a) == SortByName(b)
  {
    SortByNameLists(a, m);
    SortByNameLists(b, m);
  }

  lemma AppendLists(envs: seq<EnvVar>, m: map<string, string>, k: string, v: string)
    requires k !in m && DistinctNames(envs) && Lists(envs, m)
    ensures DistinctNames(envs + [EnvVar(k, v)]) && Lists(envs + [EnvVar(k, v)], m[k := v])
  {
    assert forall i | 0 <= i < |envs| :: envs[i] in envs;
  }

  /**
   parseProviderEnv on a decoded map, visiting the keys in an arbitrary order.
   Whether it succeeds, and with which list, does not depend on that order.
   */
  method ParseProviderEnv(extra: map<string, string>) returns (res: Option<seq<EnvVar>>)
    ensures res.Some? <==> AllAcceptable(extra)
    ensures res.Some? ==> res.value == SortedOf(extra)
  {
    var envs: seq<EnvVar> := [];
    var todo := extra.Keys;
    while todo != {}
      invariant todo <= extra.Keys
      invariant AllAcceptable(extra - todo)
      invariant DistinctNames(envs) && Lists(envs, extra - todo)
    {
      var k :| k in todo;
      var v := extra[k];
      if !Acceptable(k, v) {
        return None;
      }
      AppendLists(envs, extra - todo, k, v);
      assert (extra - todo)[k := v] == extra - (todo - {k});
      envs := envs + [EnvVar(k, v)];
      todo := todo - {k};
    }
    assert extra - todo == extra;
    SortByNameLists(envs, extra);
    return Some(SortByName(envs));
  }
}
