/** Lists of records with a text key: the list operations the registry closures
    perform, the loops that perform them, and the keyed map each list stands for. */
module KeyedLists {
  import opened Wrappers

  // ----- what the loops compute -----

  /** The first record with key k. */
  function Find<T>(s: seq<T>, key: T -> string, k: string): Option<T> {
    if s == [] then None
    else if key(s[0]) == k then Some(s[0])
    else Find(s[1..], key, k)
  }

  /** Replaces the first record with x's key, or appends x. */
  function Upsert<T>(s: seq<T>, key: T -> string, x: T): seq<T> {
    if s == [] then [x]
    else if key(s[0]) == key(x) then [x] + s[1..]
    else [s[0]] + Upsert(s[1..], key, x)
  }

  /** Changes every record with key k. */
  function Update<T>(s: seq<T>, key: T -> string, k: string, f: T -> T): (r: seq<T>)
    ensures |r| == |s|
    ensures forall i {:trigger r[i]} | 0 <= i < |s| :: r[i] == if key(s[i]) == k then f(s[i]) else s[i]
  {
    if s == [] then []
    else [if key(s[0]) == k then f(s[0]) else s[0]] + Update(s[1..], key, k, f)
  }

  /** Drops every record with key k. */
  function Without<T>(s: seq<T>, key: T -> string, k: string): seq<T> {
    if s == [] then []
    else if key(s[0]) == k then Without(s[1..], key, k)
    else [s[0]] + Without(s[1..], key, k)
  }

  ghost predicate Has<T>(s: seq<T>, key: T -> string, k: string) {
    exists i :: 0 <= i < |s| && key(s[i]) == k
  }

  ghost predicate Unique<T>(s: seq<T>, key: T -> string) {
    forall i, j | 0 <= i < j < |s| :: key(s[i]) != key(s[j])
  }

  // ----- the loops -----

  method FindEntry<T>(s: seq<T>, key: T -> string, k: string) returns (r: Option<T>)
    ensures r == Find(s, key, k)
    ensures r.Some? <==> Has(s, key, k)
  {
    for i := 0 to |s|
      invariant !Has(s[..i], key, k)
      invariant Find(s, key, k) == Find(s[i..], key, k)
    {
      if key(s[i]) == k {
        return Some(s[i]);
      }
      assert s[i..][1..] == s[i + 1..];
    }
    assert s[..|s|] == s;
    return None;
  }

  method UpsertEntry<T>(s: seq<T>, key: T -> string, x: T) returns (r: seq<T>)
    ensures r == Upsert(s, key, x)
  {
    for i := 0 to |s|
      invariant forall j | 0 <= j < i :: key(s[j]) != key(x)
    {
      if key(s[i]) == key(x) {
        UpsertAt(s, key, x, i);
        return s[i := x];
      }
    }
    UpsertAppends(s, key, x);
    return s + [x];
  }

  method UpdateEntries<T>(s: seq<T>, key: T -> string, k: string, f: T -> T) returns (r: seq<T>, found: bool)
    ensures r == Update(s, key, k, f)
    ensures found <==> Has(s, key, k)
  {
    r, found := s, false;
    for i := 0 to |s|
      invariant |r| == |s|
      invariant forall j | 0 <= j < |s| :: r[j] == if j < i && key(s[j]) == k then f(s[j]) else s[j]
      invariant found <==> exists j :: 0 <= j < i && key(s[j]) == k
    {
      if key(r[i]) == k {
        r := r[i := f(r[i])];
        found := true;
      }
    }
  }

  /** The removal loop: the output shares the storage of the input, so the write
      position never overtakes the read position. */
  method CompactInPlace<T>(a: array<T>, key: T -> string, k: string) returns (n: nat, removed: bool)
    modifies a
    ensures n <= a.Length && a[..n] == Without(old(a[..]), key, k)
    ensures removed <==> Has(old(a[..]), key, k)
  {
    ghost var was := a[..];
    n, removed := 0, false;
    for i := 0 to a.Length
      invariant n <= i
      invariant forall j | i <= j < a.Length :: a[j] == was[j]
      invariant a[..n] == Without(was[..i], key, k)
      invariant removed <==> Has(was[..i], key, k)
    {
      assert a[i] == was[i];
      assert was[..i + 1] == was[..i] + [was[i]];
      WithoutConcat(was[..i], [was[i]], key, k);
      if key(a[i]) == k {
        removed := true;
        assert was[..i + 1][i] == was[i];
      } else {
        a[n] := a[i];
        n := n + 1;
        assert forall j | 0 <= j < i :: was[..i + 1][j] == was[..i][j];
      }
    }
    assert was[..a.Length] == was;
  }

  // ----- positions -----

  lemma {:induction false} UpsertAt<T>(s: seq<T>, key: T -> string, x: T, i: nat)
    requires i < |s| && key(s[i]) == key(x)
    requires forall j | 0 <= j < i :: key(s[j]) != key(x)
    ensures Upsert(s, key, x) == s[i := x]
  {
    if i > 0 {
      UpsertAt(s[1..], key, x, i - 1);
    }
  }

  lemma {:induction false} UpsertAppends<T>(s: seq<T>, key: T -> string, x: T)
    requires forall j | 0 <= j < |s| :: key(s[j]) != key(x)
    ensures Upsert(s, key, x) == s + [x]
  {
    if s != [] {
      UpsertAppends(s[1..], key, x);
    }
  }

  /** Upserting either replaces one record in its place or appends. */
  lemma UpsertShape<T>(s: seq<T>, key: T -> string, x: T) returns (i: nat)
    ensures i <= |s|
    ensures i < |s| ==> key(s[i]) == key(x) && Upsert(s, key, x) == s[i := x]
    ensures i == |s| ==> !Has(s, key, key(x)) && Upsert(s, key, x) == s + [x]
    ensures forall j | 0 <= j < i :: key(s[j]) != key(x)
  {
    i := 0;
    while i < |s| && key(s[i]) != key(x)
      invariant i <= |s|
      invariant forall j | 0 <= j < i :: key(s[j]) != key(x)
    {
      i := i + 1;
    }
    if i < |s| {
      UpsertAt(s, key, x, i);
    } else {
      UpsertAppends(s, key, x);
    }
  }

  lemma {:induction false} WithoutConcat<T>(a: seq<T>, b: seq<T>, key: T -> string, k: string)
    ensures Without(a + b, key, k) == Without(a, key, k) + Without(b, key, k)
  {
    if a == [] {
      assert a + b == b;
    } else {
      assert (a + b)[1..] == a[1..] + b;
      WithoutConcat(a[1..], b, key, k);
    }
  }

  /** The survivors of a removal stand in the order they had. */
  lemma {:induction false} WithoutOrder<T>(s: seq<T>, key: T -> string, k: string, i: nat, j: nat)
    returns (i': nat, j': nat)
    requires i <= j < |Without(s, key, k)|
    ensures i' <= j' < |s| && (i < j ==> i' < j')
    ensures Without(s, key, k)[i] == s[i'] && Without(s, key, k)[j] == s[j']
    ensures key(s[i']) != k && key(s[j']) != k
  {
    if key(s[0]) == k {
      i', j' := WithoutOrder(s[1..], key, k, i, j);
      i', j' := i' + 1, j' + 1;
    } else if j == 0 {
      i', j' := 0, 0;
    } else if i == 0 {
      ghost var u;
      u, j' := WithoutOrder(s[1..], key, k, j - 1, j - 1);
      i', j' := 0, j' + 1;
    } else {
      i', j' := WithoutOrder(s[1..], key, k, i - 1, j - 1);
      i', j' := i' + 1, j' + 1;
    }
  }

  lemma {:induction false} FindMeans<T>(s: seq<T>, key: T -> string, k: string)
    ensures Find(s, key, k).Some? <==> Has(s, key, k)
    ensures Find(s, key, k).Some? ==> exists i :: 0 <= i < |s| && key(s[i]) == k && s[i] == Find(s, key, k).value
  {
    if s != [] {
      FindMeans(s[1..], key, k);
      if key(s[0]) == k {
        assert s[0] == Find(s, key, k).value;
      } else {
        if Has(s, key, k) {
          var i :| 0 <= i < |s| && key(s[i]) == k;
          assert s[1..][i - 1] == s[i];
        }
        if Has(s[1..], key, k) {
          var i :| 0 <= i < |s[1..]| && key(s[1..][i]) == k && s[1..][i] == Find(s[1..], key, k).value;
          assert s[i + 1] == s[1..][i];
        }
      }
    }
  }

  // ----- the keyed map a list stands for -----

  /** The first record of each key. */
  function AsMap<T>(s: seq<T>, key: T -> string): map<string, T> {
    if s == [] then map[] else AsMap(s[1..], key)[key(s[0]) := s[0]]
  }

  lemma {:induction false} FindIsLookup<T>(s: seq<T>, key: T -> string, k: string)
    ensures Find(s, key, k) == if k in AsMap(s, key) then Some(AsMap(s, key)[k]) else None
  {
    if s != [] {
      FindIsLookup(s[1..], key, k);
    }
  }

  lemma {:induction false} UpsertIsMapUpdate<T>(s: seq<T>, key: T -> string, x: T)
    ensures AsMap(Upsert(s, key, x), key) == AsMap(s, key)[key(x) := x]
  {
    if s != [] {
      if key(s[0]) == key(x) {
        assert ([x] + s[1..])[1..] == s[1..];
      } else {
        UpsertIsMapUpdate(s[1..], key, x);
        assert ([s[0]] + Upsert(s[1..], key, x))[1..] == Upsert(s[1..], key, x);
      }
    }
  }

  lemma {:induction false} UpdateIsMapUpdate<T(!new)>(s: seq<T>, key: T -> string, k: string, f: T -> T)
    requires forall x: T :: key(f(x)) == key(x)
    ensures AsMap(Update(s, key, k, f), key) ==
            if k in AsMap(s, key) then AsMap(s, key)[k := f(AsMap(s, key)[k])] else AsMap(s, key)
  {
    if s != [] {
      UpdateIsMapUpdate(s[1..], key, k, f);
      assert Update(s, key, k, f)[1..] == Update(s[1..], key, k, f);
    }
  }

  lemma {:induction false} WithoutIsMapRemoval<T>(s: seq<T>, key: T -> string, k: string)
    ensures AsMap(Without(s, key, k), key) == AsMap(s, key) - {k}
  {
    if s != [] {
      WithoutIsMapRemoval(s[1..], key, k);
      if key(s[0]) != k {
        assert ([s[0]] + Without(s[1..], key, k))[1..] == Without(s[1..], key, k);
      }
    }
  }

  // ----- uniqueness -----

  lemma UpsertKeepsUnique<T>(s: seq<T>, key: T -> string, x: T)
    requires Unique(s, key)
    ensures Unique(Upsert(s, key, x), key)
  {
    var i := UpsertShape(s, key, x);
    if i == |s| {
      forall j | 0 <= j < |s| ensures key(s[j]) != key(x) {
        assert !Has(s, key, key(x));
      }
    }
  }

  lemma WithoutKeepsUnique<T>(s: seq<T>, key: T -> string, k: string)
    requires Unique(s, key)
    ensures Unique(Without(s, key, k), key)
    ensures !Has(Without(s, key, k), key, k)
  {
    var r := Without(s, key, k);
    forall i, j | 0 <= i < j < |r| ensures key(r[i]) != key(r[j]) {
      var i', j' := WithoutOrder(s, key, k, i, j);
    }
    forall i | 0 <= i < |r| ensures key(r[i]) != k {
      var i', j' := WithoutOrder(s, key, k, i, i);
    }
  }

  // ----- order -----

  function KeyOrder<T>(s: seq<T>, key: T -> string): (r: seq<string>)
    ensures |r| == |s|
    ensures forall i | 0 <= i < |s| :: r[i] == key(s[i])
  {
    if s == [] then [] else [key(s[0])] + KeyOrder(s[1..], key)
  }

  /** A new key goes to the end of the order; a known one keeps its place. */
  function Appended(keys: seq<string>, k: string): seq<string> {
    if k in keys then keys else keys + [k]
  }

  function Dropped(keys: seq<string>, k: string): seq<string> {
    if keys == [] then []
    else (if keys[0] == k then [] else [keys[0]]) + Dropped(keys[1..], k)
  }

  lemma {:induction false} UpsertOrder<T>(s: seq<T>, key: T -> string, x: T)
    ensures KeyOrder(Upsert(s, key, x), key) == Appended(KeyOrder(s, key), key(x))
  {
    if s != [] {
      var order := KeyOrder(s, key);
      assert order[1..] == KeyOrder(s[1..], key);
      if key(s[0]) == key(x) {
        assert order[0] == key(x);
        assert ([x] + s[1..])[1..] == s[1..];
      } else {
        UpsertOrder(s[1..], key, x);
        assert ([s[0]] + Upsert(s[1..], key, x))[1..] == Upsert(s[1..], key, x);
        assert key(x) in order <==> key(x) in order[1..];
      }
    }
  }

  lemma {:induction false} UpdateOrder<T>(s: seq<T>, key: T -> string, k: string, f: T -> T)
    requires forall i | 0 <= i < |s| :: key(f(s[i])) == key(s[i])
    ensures KeyOrder(Update(s, key, k, f), key) == KeyOrder(s, key)
  {
    if s != [] {
      UpdateOrder(s[1..], key, k, f);
      assert key(f(s[0])) == key(s[0]);
      assert Update(s, key, k, f)[1..] == Update(s[1..], key, k, f);
    }
  }

  lemma {:induction false} WithoutKeyOrder<T>(s: seq<T>, key: T -> string, k: string)
    ensures KeyOrder(Without(s, key, k), key) == Dropped(KeyOrder(s, key), k)
  {
    if s != [] {
      WithoutKeyOrder(s[1..], key, k);
      assert KeyOrder(s, key)[1..] == KeyOrder(s[1..], key);
      if key(s[0]) != k {
        assert ([s[0]] + Without(s[1..], key, k))[1..] == Without(s[1..], key, k);
      }
    }
  }

  /** A list with unique keys is its key order plus its map, and nothing else. */
  lemma {:induction false} UniqueListIsOrderAndMap<T>(s: seq<T>, key: T -> string)
    requires Unique(s, key)
    ensures forall i | 0 <= i < |s| :: key(s[i]) in AsMap(s, key) && AsMap(s, key)[key(s[i])] == s[i]
  {
    if s != [] {
      UniqueListIsOrderAndMap(s[1..], key);
      forall i | 0 <= i < |s| ensures key(s[i]) in AsMap(s, key) && AsMap(s, key)[key(s[i])] == s[i] {
        if i > 0 {
          assert s[i] == s[1..][i - 1];
        }
      }
    }
  }
}
