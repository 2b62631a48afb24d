/** List operations the crypto and weather slices both perform on records
    identified by a key (a coin's `symbol`, a city's `name`): `findIndex`, the
    replace-or-push merge of the `refreshOnly` fulfilled case, the favorites
    toggle, and the `map` that rewrites the items with one key. */
module Keyed {
  import opened Common

  /** `s.findIndex(x => key(x) === k)`: -1 when no item has the key. */
  function FindIndex<T, K(==)>(s: seq<T>, key: T -> K, k: K): (r: int)
    ensures -1 <= r < |s|
    ensures r >= 0 ==> key(s[r]) == k
    ensures r >= 0 ==> forall j :: 0 <= j < r ==> key(s[j]) != k
    ensures r == -1 ==> forall j :: 0 <= j < |s| ==> key(s[j]) != k
  {
    if s == [] then -1
    else if key(s[0]) == k then 0
    else
      var i := FindIndex(s[1..], key, k);
      if i < 0 then -1 else i + 1
  }

  /** One step of `newData.forEach(...)`: the first item with the same key is
      replaced, otherwise the new item is pushed. */
  function Upsert<T, K(==)>(s: seq<T>, x: T, key: T -> K): seq<T>
  {
    var i := FindIndex(s, key, key(x));
    if i >= 0 then s[i := x] else s + [x]
  }

  /** The whole `forEach` over the payload, in payload order. */
  function UpsertAll<T, K(==)>(s: seq<T>, xs: seq<T>, key: T -> K): seq<T>
  {
    if xs == [] then s
    else Upsert(UpsertAll(s, xs[..|xs| - 1], key), xs[|xs| - 1], key)
  }

  /** After one step the item is found under its key. */
  lemma UpsertFinds<T, K>(s: seq<T>, x: T, key: T -> K)
    ensures var r := Upsert(s, x, key);
      var i := FindIndex(r, key, key(x));
      i >= 0 && r[i] == x
  {
    var r := Upsert(s, x, key);
    var i := FindIndex(s, key, key(x));
    if i >= 0 {
      assert FindIndex(r, key, key(x)) == i by { FindIndexAt(r, key, key(x), i); }
    } else {
      assert FindIndex(r, key, key(x)) == |s| by { FindIndexAt(r, key, key(x), |s|); }
    }
  }

  /** `FindIndex` only looks as far as the first hit. */
  lemma {:induction false} FindIndexAt<T, K>(r: seq<T>, key: T -> K, k: K, i: nat)
    requires i < |r|
    requires forall j :: 0 <= j < i ==> key(r[j]) != k
    requires key(r[i]) == k
    ensures FindIndex(r, key, k) == i
  {
    if i > 0 {
      FindIndexAt(r[1..], key, k, i - 1);
    }
  }

  /** A step under another key neither moves nor changes what that key finds. */
  lemma UpsertOther<T, K>(s: seq<T>, x: T, key: T -> K, k: K)
    requires k != key(x)
    ensures var r := Upsert(s, x, key);
      && FindIndex(r, key, k) == FindIndex(s, key, k)
      && (FindIndex(s, key, k) >= 0 ==> r[FindIndex(s, key, k)] == s[FindIndex(s, key, k)])
  {
    var r := Upsert(s, x, key);
    var i := FindIndex(s, key, k);
    if i >= 0 {
      FindIndexAt(r, key, k, i);
    } else {
      assert forall j :: 0 <= j < |r| ==> key(r[j]) != k;
    }
  }

  /** The merge keeps every item whose key no payload item has, at the same
      index, and only ever grows the list, by at most one item per payload item. */
  lemma {:induction false} UpsertAllKeeps<T, K>(s: seq<T>, xs: seq<T>, key: T -> K)
    ensures |s| <= |UpsertAll(s, xs, key)| <= |s| + |xs|
    ensures forall i :: 0 <= i < |s| && (forall p :: 0 <= p < |xs| ==> key(xs[p]) != key(s[i])) ==>
              UpsertAll(s, xs, key)[i] == s[i]
  {
    if xs != [] {
      var init := xs[..|xs| - 1];
      UpsertAllKeeps(s, init, key);
      var r' := UpsertAll(s, init, key);
      var x := xs[|xs| - 1];
      var j := FindIndex(r', key, key(x));
      forall i | 0 <= i < |s| && (forall p :: 0 <= p < |xs| ==> key(xs[p]) != key(s[i]))
        ensures UpsertAll(s, xs, key)[i] == s[i]
      {
        assert forall p :: 0 <= p < |init| ==> key(init[p]) != key(s[i]) by {
          forall p | 0 <= p < |init| ensures key(init[p]) != key(s[i]) { assert init[p] == xs[p]; }
        }
        assert r'[i] == s[i];
        assert key(x) != key(s[i]);
        if j >= 0 { assert j != i; }
      }
    }
  }

  /** Last write wins: a payload item that no later payload item shares a key
      with is what its key finds after the merge. */
  lemma {:induction false} UpsertAllLastWins<T, K>(s: seq<T>, xs: seq<T>, key: T -> K, p: nat)
    requires p < |xs|
    requires forall q :: p < q < |xs| ==> key(xs[q]) != key(xs[p])
    ensures var r := UpsertAll(s, xs, key);
      var i := FindIndex(r, key, key(xs[p]));
      i >= 0 && r[i] == xs[p]
  {
    var n := |xs| - 1;
    var init := xs[..n];
    if p == n {
      UpsertFinds(UpsertAll(s, init, key), xs[n], key);
    } else {
      forall q | p < q < |init| ensures key(init[q]) != key(init[p]) {
        assert init[q] == xs[q] && init[p] == xs[p];
      }
      UpsertAllLastWins(s, init, key, p);
      assert init[p] == xs[p];
      UpsertOther(UpsertAll(s, init, key), xs[n], key, key(xs[p]));
    }
  }

  /** The merge brings in nothing but the original items and the payload. */
  lemma {:induction false} UpsertAllMembers<T, K>(s: seq<T>, xs: seq<T>, key: T -> K)
    ensures forall y :: y in UpsertAll(s, xs, key) ==> y in s || y in xs
  {
    if xs != [] {
      var init := xs[..|xs| - 1];
      UpsertAllMembers(s, init, key);
      var r' := UpsertAll(s, init, key);
      var x := xs[|xs| - 1];
      var i := FindIndex(r', key, key(x));
      forall y | y in UpsertAll(s, xs, key) ensures y in s || y in xs {
        if y != x {
          assert y in r' by {
            if i >= 0 {
              var j :| 0 <= j < |r'[i := x]| && r'[i := x][j] == y;
              assert r'[j] == y;
            }
          }
          if y in init {
            var q :| 0 <= q < |init| && init[q] == y;
            assert xs[q] == y;
          }
        }
      }
    }
  }

  // ---------------------------------------------------------------------------
  // Favorites toggle
  // ---------------------------------------------------------------------------

  /** `favorites.includes(k) ? favorites.filter(x => x !== k) : [...favorites, k]`. */
  function Toggle<K(==)>(favorites: seq<K>, k: K): seq<K>
  {
    if k in favorites then Filter(favorites, x => x != k) else favorites + [k]
  }

  lemma {:induction false} FilterAll<T>(s: seq<T>, p: T -> bool)
    requires forall x :: x in s ==> p(x)
    ensures Filter(s, p) == s
  {
    if s != [] { FilterAll(s[1..], p); }
  }

  /** The toggled key is present afterwards exactly when it was absent before,
      every other key keeps its membership, and an absent key goes to the back. */
  lemma ToggleSpec<K>(favorites: seq<K>, k: K)
    ensures k in Toggle(favorites, k) ==> k !in favorites
    ensures k !in favorites ==> Toggle(favorites, k) == favorites + [k]
    ensures forall x :: x != k && x in favorites ==> x in Toggle(favorites, k)
    ensures forall x :: x != k && x in Toggle(favorites, k) ==> x in favorites
  {
    var p := (x: K) => x != k;
    forall x | x != k && x in favorites ensures x in Toggle(favorites, k) {
      if k in favorites { FilterKeeps(favorites, p, x); }
    }
  }

  /** Adding an absent key and toggling it again restores the list. */
  lemma ToggleTwice<K>(favorites: seq<K>, k: K)
    requires k !in favorites
    ensures Toggle(Toggle(favorites, k), k) == favorites
  {
    var p := (x: K) => x != k;
    FilterAppendLast(favorites, k, p);
    FilterAll(favorites, p);
  }

  lemma {:induction false} FilterAppendLast<T>(s: seq<T>, x: T, p: T -> bool)
    requires !p(x)
    ensures Filter(s + [x], p) == Filter(s, p)
  {
    if s != [] {
      assert (s + [x])[1..] == s[1..] + [x];
      FilterAppendLast(s[1..], x, p);
    }
  }

  // ---------------------------------------------------------------------------
  // Rewriting the items with one key
  // ---------------------------------------------------------------------------

  /** `s.map(x => key(x) === k ? f(x) : x)`. */
  function MapWhere<T, K(==)>(s: seq<T>, key: T -> K, k: K, f: T -> T): (r: seq<T>)
    ensures |r| == |s|
    ensures forall i :: 0 <= i < |s| && key(s[i]) != k ==> r[i] == s[i]
    ensures forall i :: 0 <= i < |s| && key(s[i]) == k ==> r[i] == f(s[i])
  {
    seq(|s|, i requires 0 <= i < |s| => if key(s[i]) == k then f(s[i]) else s[i])
  }

  /** Rewriting twice with a key-preserving involution gives the list back. */
  lemma MapWhereTwice<T, K>(s: seq<T>, key: T -> K, k: K, f: T -> T)
    requires forall x :: key(f(x)) == key(x) && f(f(x)) == x
    ensures MapWhere(MapWhere(s, key, k, f), key, k, f) == s
  {
    var once := MapWhere(s, key, k, f);
    var twice := MapWhere(once, key, k, f);
    forall i | 0 <= i < |s| ensures twice[i] == s[i] {
      if key(s[i]) == k { assert key(once[i]) == k; }
    }
  }
}
