/**
 * Ordered collections of entities identified by a string key, as the file store keeps
 * them, and the ID-keyed maps the caching proxy builds from them.
 *
 * `key` extracts an entity's ID (Models.AccountId and its siblings).
 */
module Keyed {

  /** Position of the first entry whose key is `k`, or |s| when there is none. */
  function FirstIndex<T>(s: seq<T>, key: T -> string, k: string): (i: nat)
    ensures i <= |s|
    ensures i < |s| ==> key(s[i]) == k
    ensures forall j :: 0 <= j < i ==> key(s[j]) != k
  {
    if s == [] then 0 else if key(s[0]) == k then 0 else 1 + FirstIndex(s[1..], key, k)
  }

  /** The properties of FirstIndex determine it. */
  lemma {:induction false} FirstIndexIs<T>(s: seq<T>, key: T -> string, k: string, i: nat)
    requires i <= |s|
    requires i < |s| ==> key(s[i]) == k
    requires forall j :: 0 <= j < i ==> key(s[j]) != k
    ensures FirstIndex(s, key, k) == i
  {
    if s != [] && i > 0 {
      FirstIndexIs(s[1..], key, k, i - 1);
    }
  }

  /** The loop that looks for the first entry keyed `k`, as the store's Get, Update and
      Delete run it. */
  method FindFirst<T>(s: seq<T>, key: T -> string, k: string) returns (i: nat)
    ensures i == FirstIndex(s, key, k)
  {
    i := 0;
    while i < |s| && key(s[i]) != k
      invariant i <= |s|
      invariant forall j :: 0 <= j < i ==> key(s[j]) != k
    {
      i := i + 1;
    }
    FirstIndexIs(s, key, k, i);
  }

  /** Every key of `m` maps to an entity carrying that key. */
  ghost predicate KeyedBy<T>(m: map<string, T>, key: T -> string) {
    forall k :: k in m ==> key(m[k]) == k
  }

  /** The loop that fills a map from `s`, later entries overwriting earlier ones. */
  method BuildIndex<T>(s: seq<T>, key: T -> string) returns (m: map<string, T>)
    ensures m == Index(s, key)
  {
    m := map[];
    for i := 0 to |s|
      invariant m == Index(s[..i], key)
    {
      IndexAppend(s[..i], key, s[i]);
      assert s[..i + 1] == s[..i] + [s[i]];
      m := m[key(s[i]) := s[i]];
    }
    assert s[..|s|] == s;
  }

  /** The loop that lists a map's values in an arbitrary order (Go's map iteration). */
  method Values<T>(m: map<string, T>, key: T -> string) returns (s: seq<T>)
    requires KeyedBy(m, key)
    ensures Enumerates(s, m, key)
  {
    s := [];
    var rest := m.Keys;
    assert m - rest == map[];
    while rest != {}
      invariant rest <= m.Keys
      invariant Enumerates(s, m - rest, key)
      decreases rest
    {
      var k :| k in rest;
      EnumeratesAppend(s, m, key, k, rest);
      s := s + [m[k]];
      rest := rest - {k};
    }
    assert m - {} == m;
  }

  predicate HasKey<T>(s: seq<T>, key: T -> string, k: string) {
    exists i :: 0 <= i < |s| && key(s[i]) == k
  }

  lemma FirstIndexFound<T>(s: seq<T>, key: T -> string, k: string)
    ensures FirstIndex(s, key, k) < |s| <==> HasKey(s, key, k)
  {
  }

  /** No two entries share a key. */
  predicate UniqueKeys<T>(s: seq<T>, key: T -> string) {
    forall i, j :: 0 <= i < j < |s| ==> key(s[i]) != key(s[j])
  }

  /** `s` with its first entry keyed like `x` replaced by `x`; `s` itself when no entry is. */
  function ReplaceFirst<T>(s: seq<T>, key: T -> string, x: T): (r: seq<T>)
    ensures |r| == |s|
    ensures forall j :: 0 <= j < |s| ==> key(r[j]) == key(s[j])
    ensures forall j :: 0 <= j < |s| && j != FirstIndex(s, key, key(x)) ==> r[j] == s[j]
    ensures FirstIndex(s, key, key(x)) < |s| ==> r[FirstIndex(s, key, key(x))] == x
  {
    var i := FirstIndex(s, key, key(x));
    if i < |s| then s[i := x] else s
  }

  /** `s` without its first entry keyed `k`; `s` itself when no entry is. */
  function RemoveFirst<T>(s: seq<T>, key: T -> string, k: string): (r: seq<T>)
    ensures FirstIndex(s, key, k) == |s| ==> r == s
    ensures FirstIndex(s, key, k) < |s| ==> |r| == |s| - 1
    ensures forall j :: 0 <= j < FirstIndex(s, key, k) && j < |r| ==> r[j] == s[j]
    ensures forall j :: FirstIndex(s, key, k) <= j < |r| ==> r[j] == s[j + 1]
  {
    var i := FirstIndex(s, key, k);
    if i < |s| then s[..i] + s[i + 1..] else s
  }

  /** The map a loop `m[key(e)] = e` over `s` builds: a later entry overwrites an earlier one. */
  function Index<T>(s: seq<T>, key: T -> string): (m: map<string, T>)
    ensures forall k :: k in m ==> key(m[k]) == k
  {
    if s == [] then map[] else Index(s[..|s| - 1], key)[key(s[|s| - 1]) := s[|s| - 1]]
  }

  lemma IndexAppend<T>(s: seq<T>, key: T -> string, x: T)
    ensures Index(s + [x], key) == Index(s, key)[key(x) := x]
  {
    assert (s + [x])[..|s|] == s;
  }

  /** The index holds exactly the keys that occur in `s`. */
  lemma {:induction false} IndexKeys<T>(s: seq<T>, key: T -> string, k: string)
    ensures k in Index(s, key) <==> HasKey(s, key, k)
  {
    if s != [] {
      var p := s[..|s| - 1];
      IndexKeys(p, key, k);
      if HasKey(p, key, k) {
        var i :| 0 <= i < |p| && key(p[i]) == k;
        assert key(s[i]) == k;
      }
      if HasKey(s, key, k) && key(s[|s| - 1]) != k {
        var i :| 0 <= i < |s| && key(s[i]) == k;
        assert key(p[i]) == k;
      }
    }
  }

  /** With unique keys every entry is what the index holds under its key. */
  lemma {:induction false} IndexUnique<T>(s: seq<T>, key: T -> string, i: nat)
    requires UniqueKeys(s, key)
    requires i < |s|
    ensures key(s[i]) in Index(s, key) && Index(s, key)[key(s[i])] == s[i]
  {
    var p := s[..|s| - 1];
    if i < |s| - 1 {
      IndexUnique(p, key, i);
      assert p[i] == s[i];
    }
  }

  lemma UpdateCommute<T>(m: map<string, T>, a: string, u: T, b: string, v: T)
    requires a != b
    ensures m[a := u][b := v] == m[b := v][a := u]
  {
  }

  lemma RemoveAfterUpdate<T>(m: map<string, T>, a: string, v: T, k: string)
    ensures m[a := v] - {k} == if a == k then m - {k} else (m - {k})[a := v]
  {
  }

  lemma {:induction false} FirstIndexSnoc<T>(p: seq<T>, key: T -> string, k: string, y: T)
    ensures FirstIndex(p + [y], key, k)
      == if FirstIndex(p, key, k) < |p| || key(y) == k then FirstIndex(p, key, k) else |p| + 1
  {
    if p != [] {
      assert (p + [y])[1..] == p[1..] + [y];
      FirstIndexSnoc(p[1..], key, k, y);
    }
  }

  /** How ReplaceFirst acts on a sequence with one more entry `y` at its end. */
  lemma ReplaceFirstSnoc<T>(p: seq<T>, key: T -> string, x: T, y: T)
    ensures HasKey(p, key, key(x)) ==> ReplaceFirst(p + [y], key, x) == ReplaceFirst(p, key, x) + [y]
    ensures !HasKey(p, key, key(x)) && key(y) == key(x) ==> ReplaceFirst(p + [y], key, x) == p + [x]
    ensures !HasKey(p, key, key(x)) && key(y) != key(x) ==> ReplaceFirst(p + [y], key, x) == p + [y]
  {
    FirstIndexFound(p, key, key(x));
    FirstIndexSnoc(p, key, key(x), y);
  }

  /** Two maps that agree once `x` is written under `kx` still agree after a further
      entry `y` under `ky` is written before it. */
  lemma OverrideSnoc<T>(a: map<string, T>, b: map<string, T>, kx: string, x: T, ky: string, y: T)
    requires a[kx := x] == b[kx := x]
    ensures a[ky := y][kx := x] == b[ky := y][kx := x]
  {
    if ky != kx {
      UpdateCommute(a, ky, y, kx, x);
      UpdateCommute(b, ky, y, kx, x);
    } else {
      assert a[ky := y][kx := x] == a[kx := x];
      assert b[ky := y][kx := x] == b[kx := x];
    }
  }

  /** Replacing the first entry keyed like `x` and then writing `x` under its key gives
      the same map as writing `x` over the original index: no uniqueness needed. */
  lemma {:induction false} IndexReplaceFirstOverride<T>(s: seq<T>, key: T -> string, x: T)
    ensures Index(ReplaceFirst(s, key, x), key)[key(x) := x] == Index(s, key)[key(x) := x]
  {
    if s != [] {
      var n := |s| - 1;
      var p, y := s[..n], s[n];
      assert s == p + [y];
      ReplaceFirstSnoc(p, key, x, y);
      IndexAppend(p, key, y);
      if HasKey(p, key, key(x)) {
        var rp := ReplaceFirst(p, key, x);
        IndexReplaceFirstOverride(p, key, x);
        IndexAppend(rp, key, y);
        OverrideSnoc(Index(rp, key), Index(p, key), key(x), x, key(y), y);
      } else if key(y) == key(x) {
        IndexAppend(p, key, x);
      } else {
        assert ReplaceFirst(s, key, x) == s;
      }
    }
  }

  /** With unique keys, replacing the entry keyed like `x` updates the index at that key only. */
  lemma IndexReplaceFirstUnique<T>(s: seq<T>, key: T -> string, x: T)
    requires UniqueKeys(s, key)
    requires HasKey(s, key, key(x))
    ensures Index(ReplaceFirst(s, key, x), key) == Index(s, key)[key(x) := x]
  {
    var r := ReplaceFirst(s, key, x);
    var i := FirstIndex(s, key, key(x));
    FirstIndexFound(s, key, key(x));
    assert UniqueKeys(r, key);
    IndexUnique(r, key, i);
    IndexReplaceFirstOverride(s, key, x);
    var m := Index(r, key);
    assert m == m[key(x) := x];
  }

  /** Removing the first entry keyed `k` and dropping `k` from the index gives the same map as
      dropping `k` from the original index: no uniqueness needed. */
  lemma {:induction false} IndexRemoveFirstOverride<T>(s: seq<T>, key: T -> string, k: string)
    ensures Index(RemoveFirst(s, key, k), key) - {k} == Index(s, key) - {k}
  {
    var r := RemoveFirst(s, key, k);
    var i := FirstIndex(s, key, k);
    if i < |s| {
      var n := |s| - 1;
      var p, y := s[..n], s[n];
      assert s == p + [y];
      IndexAppend(p, key, y);
      RemoveAfterUpdate(Index(p, key), key(y), y, k);
      if i == n {
        assert r == p;
        assert key(y) == k;
      } else {
        var rp := r[..|r| - 1];
        assert FirstIndex(p, key, k) == i;
        assert rp == RemoveFirst(p, key, k);
        assert r == rp + [y];
        IndexRemoveFirstOverride(p, key, k);
        IndexAppend(rp, key, y);
        RemoveAfterUpdate(Index(rp, key), key(y), y, k);
      }
    }
  }

  /** With unique keys, removing the entry keyed `k` removes `k` from the index and nothing else. */
  lemma IndexRemoveFirstUnique<T>(s: seq<T>, key: T -> string, k: string)
    requires UniqueKeys(s, key)
    ensures Index(RemoveFirst(s, key, k), key) == Index(s, key) - {k}
  {
    var r := RemoveFirst(s, key, k);
    IndexRemoveFirstOverride(s, key, k);
    IndexKeys(r, key, k);
    assert k !in Index(r, key);
  }

  lemma UniqueReplaceFirst<T>(s: seq<T>, key: T -> string, x: T)
    requires UniqueKeys(s, key)
    ensures UniqueKeys(ReplaceFirst(s, key, x), key)
  {
  }

  lemma UniqueRemoveFirst<T>(s: seq<T>, key: T -> string, k: string)
    requires UniqueKeys(s, key)
    ensures UniqueKeys(RemoveFirst(s, key, k), key)
  {
    var r := RemoveFirst(s, key, k);
    var i := FirstIndex(s, key, k);
    forall a, b | 0 <= a < b < |r|
      ensures key(r[a]) != key(r[b])
    {
      var a' := if a < i then a else a + 1;
      var b' := if b < i then b else b + 1;
      assert r[a] == s[a'] && r[b] == s[b'];
    }
  }

  lemma UniqueAppend<T>(s: seq<T>, key: T -> string, x: T)
    requires UniqueKeys(s, key)
    requires !HasKey(s, key, key(x))
    ensures UniqueKeys(s + [x], key)
  {
  }

  /** `s` lists every value of `m` exactly once, in some order (peeled from the end). */
  ghost predicate Enumerates<T>(s: seq<T>, m: map<string, T>, key: T -> string)
    decreases |s|
  {
    if s == [] then m == map[]
    else
      var x := s[|s| - 1];
      key(x) in m && m[key(x)] == x && Enumerates(s[..|s| - 1], m - {key(x)}, key)
  }

  /** Appending the value under a key that is not yet enumerated extends an enumeration. */
  lemma EnumeratesAppend<T>(s: seq<T>, m: map<string, T>, key: T -> string, k: string, rest: set<string>)
    requires k in m && k in rest && key(m[k]) == k
    requires Enumerates(s, m - rest, key)
    ensures Enumerates(s + [m[k]], m - (rest - {k}), key)
  {
    var s' := s + [m[k]];
    assert s'[..|s|] == s;
    assert (m - (rest - {k})) - {k} == m - rest;
  }

  /** An enumeration has one entry per key of the map. */
  lemma {:induction false} EnumeratesLength<T>(s: seq<T>, m: map<string, T>, key: T -> string)
    requires Enumerates(s, m, key)
    ensures |s| == |m|
  {
    if s != [] {
      var x := s[|s| - 1];
      EnumeratesLength(s[..|s| - 1], m - {key(x)}, key);
      assert (m - {key(x)}).Keys == m.Keys - {key(x)};
    }
  }

  /** Every entry of an enumeration is the map's value under the entry's key, and every
      value of the map occurs in it. */
  lemma {:induction false} EnumeratesMembers<T>(s: seq<T>, m: map<string, T>, key: T -> string)
    requires Enumerates(s, m, key)
    ensures forall i :: 0 <= i < |s| ==> key(s[i]) in m && m[key(s[i])] == s[i]
    ensures forall k :: k in m ==> exists i :: 0 <= i < |s| && s[i] == m[k]
    ensures UniqueKeys(s, key)
  {
    if s != [] {
      var n := |s| - 1;
      var p, x := s[..n], s[n];
      var m' := m - {key(x)};
      EnumeratesMembers(p, m', key);
      forall k | k in m
        ensures exists i :: 0 <= i < |s| && s[i] == m[k]
      {
        if k == key(x) {
          assert s[n] == m[k];
        } else {
          var i :| 0 <= i < |p| && p[i] == m'[k];
          assert s[i] == m[k];
        }
      }
      forall i | 0 <= i < n
        ensures key(s[i]) != key(x)
      {
        assert s[i] == p[i];
      }
    }
  }

  /** The index of an enumeration is the enumerated map itself. */
  lemma {:induction false} EnumeratesIndex<T>(s: seq<T>, m: map<string, T>, key: T -> string)
    requires Enumerates(s, m, key)
    ensures Index(s, key) == m
  {
    if s != [] {
      var x := s[|s| - 1];
      EnumeratesIndex(s[..|s| - 1], m - {key(x)}, key);
      assert (m - {key(x)})[key(x) := x] == m;
    }
  }

  /** Sum of `f` over the entries of `s`, accumulated front to back. */
  function SumOf<T>(s: seq<T>, f: T -> real): real {
    if s == [] then 0.0 else SumOf(s[..|s| - 1], f) + f(s[|s| - 1])
  }

  lemma SumOfAppend<T>(s: seq<T>, f: T -> real, x: T)
    ensures SumOf(s + [x], f) == SumOf(s, f) + f(x)
  {
    assert (s + [x])[..|s|] == s;
  }

  /** Sum of `f` over the values of `m`, independent of any order. */
  ghost function SumMap<T>(m: map<string, T>, f: T -> real): real
    decreases m.Keys
  {
    if m == map[] then 0.0
    else
      var k :| k in m;
      f(m[k]) + SumMap(m - {k}, f)
  }

  /** SumMap may peel any key first. */
  lemma {:induction false} SumMapRemove<T>(m: map<string, T>, f: T -> real, k: string)
    requires k in m
    ensures SumMap(m, f) == f(m[k]) + SumMap(m - {k}, f)
    decreases m.Keys
  {
    var c :| c in m && SumMap(m, f) == f(m[c]) + SumMap(m - {c}, f);
    if c != k {
      var mc, mk := m - {c}, m - {k};
      SumMapRemove(mc, f, k);
      SumMapRemove(mk, f, c);
      assert mc - {k} == mk - {c};
    }
  }

  lemma SumMapUpdate<T>(m: map<string, T>, f: T -> real, k: string, x: T)
    ensures SumMap(m[k := x], f) == SumMap(m, f) + f(x) - (if k in m then f(m[k]) else 0.0)
  {
    var m' := m[k := x];
    SumMapRemove(m', f, k);
    assert m' - {k} == m - {k};
    if k in m {
      SumMapRemove(m, f, k);
    } else {
      assert m - {k} == m;
    }
  }

  /** Summing over any enumeration of a map gives the order-free sum over the map. */
  lemma {:induction false} SumOfEnumerates<T>(s: seq<T>, m: map<string, T>, key: T -> string, f: T -> real)
    requires Enumerates(s, m, key)
    ensures SumOf(s, f) == SumMap(m, f)
  {
    if s != [] {
      var x := s[|s| - 1];
      SumOfEnumerates(s[..|s| - 1], m - {key(x)}, key, f);
      SumMapRemove(m, f, key(x));
    }
  }

  /** Some value of `m` points at `id` through `ref`. */
  predicate Referenced<T>(m: map<string, T>, ref: T -> string, id: string) {
    exists k :: k in m && ref(m[k]) == id
  }

  /** Scanning an enumeration of a map finds a reference exactly when the map holds one. */
  lemma EnumeratesReferenced<T>(s: seq<T>, m: map<string, T>, key: T -> string, ref: T -> string, id: string)
    requires Enumerates(s, m, key)
    ensures Referenced(m, ref, id) <==> exists i :: 0 <= i < |s| && ref(s[i]) == id
  {
    EnumeratesMembers(s, m, key);
    if Referenced(m, ref, id) {
      var k :| k in m && ref(m[k]) == id;
      var i :| 0 <= i < |s| && s[i] == m[k];
      assert ref(s[i]) == id;
    }
    if exists i :: 0 <= i < |s| && ref(s[i]) == id {
      var i :| 0 <= i < |s| && ref(s[i]) == id;
      assert key(s[i]) in m && ref(m[key(s[i])]) == id;
    }
  }

  /** Scanning an enumeration of a map finds a value with property `p` exactly when the
      map holds one. */
  lemma EnumeratesSome<T>(s: seq<T>, m: map<string, T>, key: T -> string, p: T -> bool)
    requires Enumerates(s, m, key)
    ensures (exists k :: k in m && p(m[k])) <==> exists i :: 0 <= i < |s| && p(s[i])
  {
    EnumeratesMembers(s, m, key);
    if exists k :: k in m && p(m[k]) {
      var k :| k in m && p(m[k]);
      var i :| 0 <= i < |s| && s[i] == m[k];
      assert p(s[i]);
    }
    if exists i :: 0 <= i < |s| && p(s[i]) {
      var i :| 0 <= i < |s| && p(s[i]);
      assert key(s[i]) in m && p(m[key(s[i])]);
    }
  }
}
