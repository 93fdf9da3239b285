/**
 * Python's ordering of `str` values (lexicographic by code point) and the
 * stable sort that `list.sort(key=...)` and `sorted(...)` perform with it.
 */
module StringOrder {

  /** `a <= b` on Python strings. */
  predicate LexLe(a: string, b: string)
    decreases |a|
  {
    |a| == 0 || (|b| > 0 && (a[0] < b[0] || (a[0] == b[0] && LexLe(a[1..], b[1..]))))
  }

  lemma {:induction false} LexLeRefl(a: string)
    ensures LexLe(a, a)
    decreases |a|
  {
    if |a| > 0 { LexLeRefl(a[1..]); }
  }

  lemma {:induction false} LexLeTotal(a: string, b: string)
    ensures LexLe(a, b) || LexLe(b, a)
    decreases |a|
  {
    if |a| > 0 && |b| > 0 && a[0] == b[0] { LexLeTotal(a[1..], b[1..]); }
  }

  lemma {:induction false} LexLeTrans(a: string, b: string, c: string)
    requires LexLe(a, b) && LexLe(b, c)
    ensures LexLe(a, c)
    decreases |a|
  {
    if |a| > 0 && a[0] == b[0] && b[0] == c[0] { LexLeTrans(a[1..], b[1..], c[1..]); }
  }

  lemma {:induction false} LexLeAntisym(a: string, b: string)
    requires LexLe(a, b) && LexLe(b, a)
    ensures a == b
    decreases |a|
  {
    if |a| > 0 {
      LexLeAntisym(a[1..], b[1..]);
      assert a == [a[0]] + a[1..] && b == [b[0]] + b[1..];
    }
  }

  /** Every element's key is at most the key of every later element. */
  ghost predicate SortedBy<T>(s: seq<T>, key: T -> string)
  {
    forall i, j :: 0 <= i < j < |s| ==> LexLe(key(s[i]), key(s[j]))
  }

  /** The elements of `s` whose key is `k`, in the order they occur in `s`. */
  function WithKey<T>(s: seq<T>, key: T -> string, k: string): seq<T>
  {
    if |s| == 0 then []
    else (if key(s[0]) == k then [s[0]] else []) + WithKey(s[1..], key, k)
  }

  /** Inserts `x` after every element whose key is not greater than its own. */
  function Insert<T>(x: T, s: seq<T>, key: T -> string): seq<T>
  {
    if |s| == 0 then [x]
    else if !LexLe(key(s[0]), key(x)) then [x] + s
    else [s[0]] + Insert(x, s[1..], key)
  }

  /** A stable sort by `key`: elements are inserted in their original order. */
  function StableSort<T>(s: seq<T>, key: T -> string): (r: seq<T>)
    ensures |r| == |s| && multiset(r) == multiset(s)
  {
    if |s| == 0 then []
    else
      var init := StableSort(s[..|s| - 1], key);
      InsertCount(s[|s| - 1], init, key);
      assert s == s[..|s| - 1] + [s[|s| - 1]];
      Insert(s[|s| - 1], init, key)
  }

  lemma {:induction false} WithKeyAppend<T>(a: seq<T>, b: seq<T>, key: T -> string, k: string)
    ensures WithKey(a + b, key, k) == WithKey(a, key, k) + WithKey(b, key, k)
    decreases |a|
  {
    if |a| > 0 {
      assert (a + b)[1..] == a[1..] + b;
      WithKeyAppend(a[1..], b, key, k);
    } else {
      assert a + b == b;
    }
  }

  lemma {:induction false} WithKeyMembers<T>(s: seq<T>, key: T -> string, k: string, x: T)
    ensures x in WithKey(s, key, k) <==> x in s && key(x) == k
    decreases |s|
  {
    if |s| > 0 {
      WithKeyMembers(s[1..], key, k, x);
      assert s == [s[0]] + s[1..];
    }
  }

  /** Elements after a sorted sequence's head all have keys at least the head's. */
  lemma {:induction false} NoneBelowHead<T>(s: seq<T>, key: T -> string, k: string)
    requires SortedBy(s, key)
    requires |s| > 0 && !LexLe(key(s[0]), k)
    ensures WithKey(s, key, k) == []
    decreases |s|
  {
    if |s| > 1 {
      if LexLe(key(s[1]), k) {
        LexLeTrans(key(s[0]), key(s[1]), k);
      }
      NoneBelowHead(s[1..], key, k);
    }
    if key(s[0]) == k { LexLeRefl(k); }
  }

  lemma {:induction false} InsertCount<T>(x: T, s: seq<T>, key: T -> string)
    ensures |Insert(x, s, key)| == |s| + 1
    ensures multiset(Insert(x, s, key)) == multiset(s) + multiset{x}
    decreases |s|
  {
    if |s| > 0 {
      assert s == [s[0]] + s[1..];
      if LexLe(key(s[0]), key(x)) { InsertCount(x, s[1..], key); }
    }
  }

  lemma {:induction false} InsertSorted<T>(x: T, s: seq<T>, key: T -> string)
    requires SortedBy(s, key)
    ensures SortedBy(Insert(x, s, key), key)
    decreases |s|
  {
    var r := Insert(x, s, key);
    if |s| == 0 {
    } else if !LexLe(key(s[0]), key(x)) {
      LexLeTotal(key(s[0]), key(x));
      forall i, j | 0 <= i < j < |r| ensures LexLe(key(r[i]), key(r[j])) {
        if i == 0 && j > 1 {
          assert r[j] == s[j - 1];
          LexLeTrans(key(x), key(s[0]), key(s[j - 1]));
        }
      }
    } else {
      var t := Insert(x, s[1..], key);
      InsertSorted(x, s[1..], key);
      InsertCount(x, s[1..], key);
      assert r == [s[0]] + t;
      forall j | 0 < j < |r| ensures LexLe(key(r[0]), key(r[j])) {
        assert r[j] in multiset(t);
        if r[j] != x {
          assert r[j] in multiset(s[1..]);
          var m :| 0 <= m < |s[1..]| && s[1..][m] == r[j];
          assert LexLe(key(s[0]), key(s[1 + m]));
        }
      }
    }
  }

  lemma {:induction false} InsertWithKey<T>(x: T, s: seq<T>, key: T -> string, k: string)
    requires SortedBy(s, key)
    ensures WithKey(Insert(x, s, key), key, k) == WithKey(s, key, k) + (if key(x) == k then [x] else [])
    decreases |s|
  {
    var r := Insert(x, s, key);
    if |s| == 0 {
    } else if !LexLe(key(s[0]), key(x)) {
      assert r[1..] == s;
      if key(x) == k { NoneBelowHead(s, key, k); }
    } else {
      InsertWithKey(x, s[1..], key, k);
      assert r[1..] == Insert(x, s[1..], key);
    }
  }

  lemma {:induction false} StableSortProps<T>(s: seq<T>, key: T -> string)
    ensures |StableSort(s, key)| == |s|
    ensures multiset(StableSort(s, key)) == multiset(s)
    ensures SortedBy(StableSort(s, key), key)
    ensures forall k :: WithKey(StableSort(s, key), key, k) == WithKey(s, key, k)
    decreases |s|
  {
    if |s| > 0 {
      var init, x := s[..|s| - 1], s[|s| - 1];
      StableSortProps(init, key);
      InsertCount(x, StableSort(init, key), key);
      InsertSorted(x, StableSort(init, key), key);
      assert s == init + [x];
      forall k ensures WithKey(StableSort(s, key), key, k) == WithKey(s, key, k) {
        InsertWithKey(x, StableSort(init, key), key, k);
        WithKeyAppend(init, [x], key, k);
      }
    }
  }

  /**
   * A sorted sequence is determined by its per-key subsequences: two sorted
   * sequences that agree on every key's elements (in order) are equal.
   */
  lemma {:induction false} SortedUnique<T>(a: seq<T>, b: seq<T>, key: T -> string)
    requires SortedBy(a, key) && SortedBy(b, key)
    requires forall k :: WithKey(a, key, k) == WithKey(b, key, k)
    ensures a == b
    decreases |a|
  {
    if |a| == 0 {
      if |b| > 0 {
        WithKeyMembers(a, key, key(b[0]), b[0]);
        WithKeyMembers(b, key, key(b[0]), b[0]);
      }
    } else if |b| == 0 {
      WithKeyMembers(a, key, key(a[0]), a[0]);
      WithKeyMembers(b, key, key(a[0]), a[0]);
    } else {
      var ka, kb := key(a[0]), key(b[0]);
      WithKeyMembers(a, key, kb, b[0]);
      WithKeyMembers(b, key, kb, b[0]);
      var i :| 0 <= i < |a| && a[i] == b[0];
      assert LexLe(ka, kb) by { if i > 0 { } else { LexLeRefl(ka); } }
      WithKeyMembers(a, key, ka, a[0]);
      WithKeyMembers(b, key, ka, a[0]);
      var j :| 0 <= j < |b| && b[j] == a[0];
      assert LexLe(kb, ka) by { if j > 0 { } else { LexLeRefl(kb); } }
      LexLeAntisym(ka, kb);
      assert WithKey(a, key, ka)[0] == a[0];
      assert WithKey(b, key, ka)[0] == b[0];
      assert a[0] == b[0];
      forall k ensures WithKey(a[1..], key, k) == WithKey(b[1..], key, k) {
        var p := if ka == k then [a[0]] else [];
        assert WithKey(a, key, k) == p + WithKey(a[1..], key, k);
        assert WithKey(b, key, k) == p + WithKey(b[1..], key, k);
        assert WithKey(a[1..], key, k) == WithKey(a, key, k)[|p|..];
        assert WithKey(b[1..], key, k) == WithKey(b, key, k)[|p|..];
      }
      SortedUnique(a[1..], b[1..], key);
      assert a == [a[0]] + a[1..] && b == [b[0]] + b[1..];
    }
  }
}
