/**
  `sorted()` over values that carry a string key, as the source uses it on a
  set of namespace names and on the items of an argument dictionary. Both
  inputs have distinct keys, so sorting them yields the one list that is
  strictly increasing by key; an element whose key is already present is not
  added twice.
*/
module KeySort {
  import opened Strings

  ghost predicate SortedByKey<T>(s: seq<T>, key: T -> string)
  {
    forall i, j :: 0 <= i < j < |s| ==> Less(key(s[i]), key(s[j]))
  }

  /** No two elements share a key, as in the items of a Python dict or the members of a set. */
  ghost predicate KeysUnique<T>(s: seq<T>, key: T -> string)
  {
    forall y, z :: y in s && z in s && key(y) == key(z) ==> y == z
  }

  /** Some element of `s` has key `k`. */
  ghost predicate HasKey<T>(s: seq<T>, key: T -> string, k: string)
  {
    exists z :: z in s && key(z) == k
  }

  /** Inserts `x` into a list that is strictly increasing by key. */
  function InsertByKey<T>(s: seq<T>, x: T, key: T -> string): seq<T>
  {
    if |s| == 0 then [x]
    else if key(x) == key(s[0]) then s
    else if Less(key(x), key(s[0])) then [x] + s
    else [s[0]] + InsertByKey(s[1..], x, key)
  }

  /** `sorted(s)` for elements with distinct keys. */
  function SortByKey<T>(s: seq<T>, key: T -> string): seq<T>
  {
    if |s| == 0 then [] else InsertByKey(SortByKey(s[..|s| - 1], key), s[|s| - 1], key)
  }

  lemma {:induction false} InsertByKeySorted<T>(s: seq<T>, x: T, key: T -> string)
    requires SortedByKey(s, key)
    ensures SortedByKey(InsertByKey(s, x, key), key)
    ensures forall y :: y in InsertByKey(s, x, key) ==> y in s || y == x
    ensures forall y :: y in s ==> y in InsertByKey(s, x, key)
    ensures x in InsertByKey(s, x, key) || HasKey(s, key, key(x))
  {
    if |s| == 0 {
    } else if key(x) == key(s[0]) {
    } else if Less(key(x), key(s[0])) {
      var r := [x] + s;
      forall i, j | 0 <= i < j < |r| ensures Less(key(r[i]), key(r[j])) {
        if i == 0 && j > 1 {
          LessTransitive(key(x), key(s[0]), key(s[j - 1]));
        }
      }
    } else {
      LessTotal(key(x), key(s[0]));
      var t := s[1..];
      assert SortedByKey(t, key);
      InsertByKeySorted(t, x, key);
      var u := InsertByKey(t, x, key);
      var r := [s[0]] + u;
      forall y | y in u ensures Less(key(s[0]), key(y)) {
        if y != x {
          assert y in t;
          var k :| 0 <= k < |t| && t[k] == y;
          assert s[k + 1] == y;
        }
      }
      forall i, j | 0 <= i < j < |r| ensures Less(key(r[i]), key(r[j])) {
        if i == 0 {
          assert r[j] in u;
        } else {
          assert r[i] == u[i - 1] && r[j] == u[j - 1];
        }
      }
      assert s == [s[0]] + t;
      if x !in r {
        var z :| z in t && key(z) == key(x);
        assert z in s;
      }
      assert x in r || HasKey(s, key, key(x));
    }
  }

  /** The result of `sorted()` is strictly increasing, holds only input elements, and holds every key of the input. */
  lemma {:induction false} SortByKeySorted<T>(s: seq<T>, key: T -> string)
    ensures SortedByKey(SortByKey(s, key), key)
    ensures forall y :: y in SortByKey(s, key) ==> y in s
    ensures forall y :: y in s ==> HasKey(SortByKey(s, key), key, key(y))
  {
    if |s| > 0 {
      var init, last := s[..|s| - 1], s[|s| - 1];
      var sorted := SortByKey(init, key);
      var r := InsertByKey(sorted, last, key);
      assert s == init + [last];
      assert SortByKey(s, key) == r;
      SortByKeySorted(init, key);
      InsertByKeySorted(sorted, last, key);
      forall y | y in r ensures y in s {
        if y in sorted {
          assert y in init;
        }
      }
      forall y | y in s ensures HasKey(r, key, key(y)) {
        if y in init {
          var z :| z in sorted && key(z) == key(y);
          assert z in r;
        } else if last !in r {
          var z :| z in sorted && key(z) == key(last);
          assert z in r;
        } else {
          assert y == last;
        }
      }
    }
  }

  /** With distinct keys nothing is dropped: `sorted()` holds exactly the input's elements. */
  lemma SortByKeyElements<T>(s: seq<T>, key: T -> string)
    requires KeysUnique(s, key)
    ensures forall y :: y in SortByKey(s, key) <==> y in s
  {
    SortByKeySorted(s, key);
  }

  /** The first element of a non-empty list is in it. */
  lemma HeadIn<T>(s: seq<T>)
    ensures |s| > 0 ==> s[0] in s
  {
  }

  /** Two lists that are strictly increasing by key and hold the same elements are the same list. */
  lemma {:induction false} SortedUnique<T>(a: seq<T>, b: seq<T>, key: T -> string)
    requires SortedByKey(a, key) && SortedByKey(b, key)
    requires forall y :: y in a <==> y in b
    ensures a == b
  {
    if |a| == 0 {
      if |b| > 0 {
        HeadIn(b);
        assert false;
      }
    } else {
      assert a[0] in b;
      assert b[0] in a;
      var j :| 0 <= j < |b| && b[j] == a[0];
      var i :| 0 <= i < |a| && a[i] == b[0];
      if i > 0 && j > 0 {
        LessAsymmetric(key(a[0]), key(b[0]));
      }
      assert a[0] == b[0];
      forall y ensures y in a[1..] <==> y in b[1..] {
        if y in a[1..] {
          var k :| 0 <= k < |a| - 1 && a[1..][k] == y;
          LessIrreflexive(key(a[0]));
          assert Less(key(a[0]), key(a[k + 1]));
          assert y in b;
        }
        if y in b[1..] {
          var k :| 0 <= k < |b| - 1 && b[1..][k] == y;
          LessIrreflexive(key(b[0]));
          assert Less(key(b[0]), key(b[k + 1]));
          assert y in a;
        }
      }
      SortedUnique(a[1..], b[1..], key);
      assert a == [a[0]] + a[1..] && b == [b[0]] + b[1..];
    }
  }
}

/**
  `list.sort(key=..., reverse=True)` as Python specifies it: the result is in
  descending order of the key, is a permutation of the input, and is stable
  (elements with equal keys keep their original relative order).
*/
module StableSort {

  ghost predicate Descending<T>(s: seq<T>, key: T -> real)
  {
    forall i, j :: 0 <= i < j < |s| ==> key(s[i]) >= key(s[j])
  }

  /** The elements of `s` whose key is `k`, in their order in `s`. */
  function WithKey<T>(s: seq<T>, key: T -> real, k: real): seq<T>
  {
    if |s| == 0 then [] else (if key(s[0]) == k then [s[0]] else []) + WithKey(s[1..], key, k)
  }

  /** Inserts `x` before the first element whose key is not larger than its own. */
  function InsertDesc<T>(x: T, s: seq<T>, key: T -> real): seq<T>
  {
    if |s| == 0 || key(s[0]) <= key(x) then [x] + s else [s[0]] + InsertDesc(x, s[1..], key)
  }

  function SortDesc<T>(s: seq<T>, key: T -> real): seq<T>
  {
    if |s| == 0 then [] else InsertDesc(s[0], SortDesc(s[1..], key), key)
  }

  /** Inserting adds exactly one copy of `x`. */
  lemma {:induction false} InsertDescPermutes<T>(x: T, s: seq<T>, key: T -> real)
    ensures multiset(InsertDesc(x, s, key)) == multiset(s) + multiset{x}
  {
    if |s| > 0 && key(s[0]) > key(x) {
      InsertDescPermutes(x, s[1..], key);
      assert s == [s[0]] + s[1..];
    }
  }

  /** Inserting into a descending list keeps it descending. */
  lemma {:induction false} InsertDescSorted<T>(x: T, s: seq<T>, key: T -> real)
    requires Descending(s, key)
    ensures Descending(InsertDesc(x, s, key), key)
  {
    if |s| > 0 && key(s[0]) > key(x) {
      var t := s[1..];
      InsertDescSorted(x, t, key);
      InsertDescPermutes(x, t, key);
      var u := InsertDesc(x, t, key);
      forall m | 0 <= m < |u| ensures key(u[m]) <= key(s[0]) {
        assert u[m] in multiset(u);
        if u[m] != x {
          assert u[m] in multiset(t);
          var n :| 0 <= n < |t| && t[n] == u[m];
          assert s[n + 1] == u[m];
        }
      }
      var r := [s[0]] + u;
      forall i, j | 0 <= i < j < |r| ensures key(r[i]) >= key(r[j]) {
        assert r[j] == u[j - 1];
        if i > 0 {
          assert r[i] == u[i - 1];
        }
      }
    }
  }

  /** `x` lands before every element with its own key: insertion keeps equal keys in order. */
  lemma {:induction false} InsertDescStable<T>(x: T, s: seq<T>, key: T -> real, k: real)
    ensures WithKey(InsertDesc(x, s, key), key, k) == (if key(x) == k then [x] else []) + WithKey(s, key, k)
  {
    var own := if key(x) == k then [x] else [];
    if |s| == 0 || key(s[0]) <= key(x) {
      var u := [x] + s;
      assert u[0] == x && u[1..] == s;
      assert WithKey(u, key, k) == own + WithKey(s, key, k);
    } else {
      var v := InsertDesc(x, s[1..], key);
      var u := [s[0]] + v;
      assert u[0] == s[0] && u[1..] == v;
      var head := if key(s[0]) == k then [s[0]] else [];
      InsertDescStable(x, s[1..], key, k);
      assert WithKey(v, key, k) == own + WithKey(s[1..], key, k);
      assert WithKey(u, key, k) == head + WithKey(v, key, k);
      assert head == [] || own == [];
      assert head + own == own + head;
      assert WithKey(s, key, k) == head + WithKey(s[1..], key, k);
    }
  }

  /** Python's stable descending sort. */
  lemma {:induction false} SortDescCorrect<T>(s: seq<T>, key: T -> real)
    ensures Descending(SortDesc(s, key), key)
    ensures multiset(SortDesc(s, key)) == multiset(s)
    ensures forall k :: WithKey(SortDesc(s, key), key, k) == WithKey(s, key, k)
  {
    if |s| > 0 {
      SortDescCorrect(s[1..], key);
      InsertDescSorted(s[0], SortDesc(s[1..], key), key);
      InsertDescPermutes(s[0], SortDesc(s[1..], key), key);
      assert s == [s[0]] + s[1..];
      forall k ensures WithKey(SortDesc(s, key), key, k) == WithKey(s, key, k) {
        InsertDescStable(s[0], SortDesc(s[1..], key), key, k);
      }
    }
  }
}
