/** Python's ordering of sort keys and its stable `sorted(…, key=…, reverse=…)`. */
module Ordering {

  /** One component of a sort key: a string or a number. */
  datatype Atom = AStr(s: string) | ANum(x: real)

  /** A sort key, compared like a Python tuple. */
  type Key = seq<Atom>

  /** Python's `<=` on strings: code point by code point, a proper prefix first. */
  predicate StrLe(a: string, b: string) {
    if |a| == 0 then true
    else if |b| == 0 then false
    else if a[0] != b[0] then a[0] < b[0]
    else StrLe(a[1..], b[1..])
  }

  /** Strings and numbers are never compared with each other by the sorts modelled here;
      numbers are put first so that the order is total. */
  predicate AtomLe(a: Atom, b: Atom) {
    match (a, b)
    case (AStr(x), AStr(y)) => StrLe(x, y)
    case (ANum(x), ANum(y)) => x <= y
    case (ANum(_), AStr(_)) => true
    case (AStr(_), ANum(_)) => false
  }

  /** Python's `<=` on tuples: the first differing component decides, a proper prefix first. */
  predicate KeyLe(a: Key, b: Key) {
    if |a| == 0 then true
    else if |b| == 0 then false
    else if a[0] != b[0] then AtomLe(a[0], b[0])
    else KeyLe(a[1..], b[1..])
  }

  lemma StrLeRefl(a: string)
    ensures StrLe(a, a)
  {
  }

  lemma StrLeTotal(a: string, b: string)
    ensures StrLe(a, b) || StrLe(b, a)
  {
  }

  lemma StrLeAntisym(a: string, b: string)
    requires StrLe(a, b) && StrLe(b, a)
    ensures a == b
  {
    if |a| > 0 && |b| > 0 && a[0] == b[0] {
      StrLeAntisym(a[1..], b[1..]);
      assert a == [a[0]] + a[1..];
      assert b == [b[0]] + b[1..];
    }
  }

  lemma StrLeTrans(a: string, b: string, c: string)
    requires StrLe(a, b) && StrLe(b, c)
    ensures StrLe(a, c)
  {
  }

  lemma AtomLeTotal(a: Atom, b: Atom)
    ensures AtomLe(a, b) || AtomLe(b, a)
  {
    if a.AStr? && b.AStr? {
      StrLeTotal(a.s, b.s);
    }
  }

  lemma AtomLeTrans(a: Atom, b: Atom, c: Atom)
    requires AtomLe(a, b) && AtomLe(b, c)
    ensures AtomLe(a, c)
  {
    if a.AStr? && b.AStr? && c.AStr? {
      StrLeTrans(a.s, b.s, c.s);
    }
  }

  lemma AtomLeAntisym(a: Atom, b: Atom)
    requires AtomLe(a, b) && AtomLe(b, a)
    ensures a == b
  {
    if a.AStr? && b.AStr? {
      StrLeAntisym(a.s, b.s);
    }
  }

  lemma KeyLeRefl(a: Key)
    ensures KeyLe(a, a)
  {
  }

  lemma KeyLeTotal(a: Key, b: Key)
    ensures KeyLe(a, b) || KeyLe(b, a)
  {
    if |a| > 0 && |b| > 0 {
      if a[0] != b[0] {
        AtomLeTotal(a[0], b[0]);
      } else {
        KeyLeTotal(a[1..], b[1..]);
      }
    }
  }

  lemma KeyLeTrans(a: Key, b: Key, c: Key)
    requires KeyLe(a, b) && KeyLe(b, c)
    ensures KeyLe(a, c)
  {
    if |a| > 0 && |b| > 0 && |c| > 0 {
      if a[0] == b[0] && b[0] == c[0] {
        KeyLeTrans(a[1..], b[1..], c[1..]);
      } else if a[0] != b[0] && b[0] != c[0] {
        AtomLeTrans(a[0], b[0], c[0]);
        if a[0] == c[0] {
          AtomLeAntisym(a[0], b[0]);
        }
      }
    }
  }

  lemma KeyLeAntisym(a: Key, b: Key)
    requires KeyLe(a, b) && KeyLe(b, a)
    ensures a == b
  {
    if |a| > 0 && |b| > 0 {
      if a[0] != b[0] {
        AtomLeAntisym(a[0], b[0]);
      } else {
        KeyLeAntisym(a[1..], b[1..]);
        assert a == [a[0]] + a[1..];
        assert b == [b[0]] + b[1..];
      }
    }
  }

  /** `a` may stand before `b` in a list sorted ascending, or descending when `desc`
      (`reverse=True`). */
  predicate InOrder(a: Key, b: Key, desc: bool) {
    if desc then KeyLe(b, a) else KeyLe(a, b)
  }

  lemma InOrderTotal(a: Key, b: Key, desc: bool)
    ensures InOrder(a, b, desc) || InOrder(b, a, desc)
  {
    KeyLeTotal(a, b);
  }

  lemma InOrderTrans(a: Key, b: Key, c: Key, desc: bool)
    requires InOrder(a, b, desc) && InOrder(b, c, desc)
    ensures InOrder(a, c, desc)
  {
    if desc {
      KeyLeTrans(c, b, a);
    } else {
      KeyLeTrans(a, b, c);
    }
  }

  predicate SortedBy<T>(s: seq<T>, key: T -> Key, desc: bool) {
    forall i, j :: 0 <= i < j < |s| ==> InOrder(key(s[i]), key(s[j]), desc)
  }

  /** Insert `x` into a list before the first element it may precede. Because `x` came
      earlier in the input than every element of `s`, this is what keeps the sort stable. */
  function Insert<T>(x: T, s: seq<T>, key: T -> Key, desc: bool): (r: seq<T>)
    ensures multiset(r) == multiset(s) + multiset{x}
  {
    if |s| == 0 then [x]
    else if InOrder(key(x), key(s[0]), desc) then [x] + s
    else
      assert s == [s[0]] + s[1..];
      [s[0]] + Insert(x, s[1..], key, desc)
  }

  lemma SortedTail<T>(s: seq<T>, key: T -> Key, desc: bool)
    requires |s| > 0 && SortedBy(s, key, desc)
    ensures SortedBy(s[1..], key, desc)
  {
    forall i, j | 0 <= i < j < |s[1..]|
      ensures InOrder(key(s[1..][i]), key(s[1..][j]), desc)
    {
      assert s[1..][i] == s[i + 1] && s[1..][j] == s[j + 1];
    }
  }

  /** `y` may stand before every element of `s`. */
  predicate Precedes<T>(y: T, s: seq<T>, key: T -> Key, desc: bool) {
    forall j :: 0 <= j < |s| ==> InOrder(key(y), key(s[j]), desc)
  }

  /** A list whose head precedes its sorted tail is sorted. */
  lemma SortedCons<T>(y: T, s: seq<T>, key: T -> Key, desc: bool)
    requires SortedBy(s, key, desc) && Precedes(y, s, key, desc)
    ensures SortedBy([y] + s, key, desc)
  {
    var r := [y] + s;
    forall i, j | 0 <= i < j < |r|
      ensures InOrder(key(r[i]), key(r[j]), desc)
    {
      if i > 0 {
        assert r[i] == s[i - 1] && r[j] == s[j - 1];
      } else {
        assert r[j] == s[j - 1];
      }
    }
  }

  lemma {:induction false} InsertPrecedes<T>(y: T, x: T, s: seq<T>, key: T -> Key, desc: bool)
    requires Precedes(y, s, key, desc) && InOrder(key(y), key(x), desc)
    ensures Precedes(y, Insert(x, s, key, desc), key, desc)
  {
    if |s| > 0 && !InOrder(key(x), key(s[0]), desc) {
      InsertPrecedes(y, x, s[1..], key, desc);
      var rest := Insert(x, s[1..], key, desc);
      assert Insert(x, s, key, desc) == [s[0]] + rest;
      forall j | 0 <= j < |[s[0]] + rest|
        ensures InOrder(key(y), key(([s[0]] + rest)[j]), desc)
      {
        if j > 0 {
          assert ([s[0]] + rest)[j] == rest[j - 1];
        }
      }
    }
  }

  /** Inserting into a sorted list keeps it sorted. */
  lemma {:induction false} InsertSorted<T>(x: T, s: seq<T>, key: T -> Key, desc: bool)
    requires SortedBy(s, key, desc)
    ensures SortedBy(Insert(x, s, key, desc), key, desc)
  {
    if |s| == 0 {
    } else if InOrder(key(x), key(s[0]), desc) {
      forall j | 0 <= j < |s|
        ensures InOrder(key(x), key(s[j]), desc)
      {
        if j > 0 {
          InOrderTrans(key(x), key(s[0]), key(s[j]), desc);
        }
      }
      SortedCons(x, s, key, desc);
    } else {
      InOrderTotal(key(x), key(s[0]), desc);
      SortedTail(s, key, desc);
      InsertSorted(x, s[1..], key, desc);
      InsertPrecedes(s[0], x, s[1..], key, desc);
      SortedCons(s[0], Insert(x, s[1..], key, desc), key, desc);
    }
  }

  /** `sorted(s, key=key, reverse=desc)`: a stable sort. */
  function SortBy<T>(s: seq<T>, key: T -> Key, desc: bool): (r: seq<T>)
    ensures multiset(r) == multiset(s)
    ensures |r| == |s|
    ensures SortedBy(r, key, desc)
  {
    if |s| == 0 then []
    else
      assert s == [s[0]] + s[1..];
      var rest := SortBy(s[1..], key, desc);
      InsertSorted(s[0], rest, key, desc);
      Insert(s[0], rest, key, desc)
  }

  /** The elements of `s` whose key is `k`, in their order. */
  function WithKey<T>(s: seq<T>, key: T -> Key, k: Key): seq<T> {
    if |s| == 0 then []
    else (if key(s[0]) == k then [s[0]] else []) + WithKey(s[1..], key, k)
  }

  lemma WithKeyCons<T>(y: T, t: seq<T>, key: T -> Key, k: Key)
    ensures WithKey([y] + t, key, k) == (if key(y) == k then [y] else []) + WithKey(t, key, k)
  {
    assert ([y] + t)[1..] == t;
  }

  lemma SwapEmpty<T>(a: seq<T>, b: seq<T>, c: seq<T>)
    requires a == [] || b == []
    ensures a + (b + c) == b + (a + c)
  {
    if a == [] {
      assert a + (b + c) == b + c == b + (a + c);
    } else {
      assert a + (b + c) == a + c == b + (a + c);
    }
  }

  /** `x` goes in front of every element with its own key, so among the elements with any
      one key it comes first. */
  lemma {:induction false} InsertWithKey<T>(x: T, s: seq<T>, key: T -> Key, desc: bool, k: Key)
    ensures WithKey(Insert(x, s, key, desc), key, k) == (if key(x) == k then [x] else []) + WithKey(s, key, k)
    decreases |s|
  {
    if |s| == 0 {
      assert Insert(x, s, key, desc) == [x] + s;
      WithKeyCons(x, s, key, k);
    } else if InOrder(key(x), key(s[0]), desc) {
      assert Insert(x, s, key, desc) == [x] + s;
      WithKeyCons(x, s, key, k);
    } else {
      KeyLeRefl(key(x));
      assert InOrder(key(x), key(x), desc);
      var rest := Insert(x, s[1..], key, desc);
      var head := if key(s[0]) == k then [s[0]] else [];
      var mine := if key(x) == k then [x] else [];
      assert Insert(x, s, key, desc) == [s[0]] + rest;
      WithKeyCons(s[0], rest, key, k);
      InsertWithKey(x, s[1..], key, desc, k);
      assert s == [s[0]] + s[1..];
      WithKeyCons(s[0], s[1..], key, k);
      SwapEmpty(head, mine, WithKey(s[1..], key, k));
    }
  }

  /** `sorted` is stable, also with `reverse=True`: the elements with equal keys keep the
      order they had in the input. */
  lemma {:induction false} SortByStable<T>(s: seq<T>, key: T -> Key, desc: bool, k: Key)
    ensures WithKey(SortBy(s, key, desc), key, k) == WithKey(s, key, k)
    decreases |s|
  {
    if |s| > 0 {
      SortByStable(s[1..], key, desc, k);
      InsertWithKey(s[0], SortBy(s[1..], key, desc), key, desc, k);
    }
  }

  /** The elements of `s` that satisfy `p`, in their order. */
  function Filter<T>(s: seq<T>, p: T -> bool): (r: seq<T>)
    ensures |r| <= |s|
    ensures forall i :: 0 <= i < |r| ==> r[i] in s && p(r[i])
    ensures forall i :: 0 <= i < |s| && p(s[i]) ==> s[i] in r
  {
    if |s| == 0 then []
    else if p(s[0]) then [s[0]] + Filter(s[1..], p)
    else Filter(s[1..], p)
  }

  /** Keeping only some elements of a sorted list leaves it sorted. */
  lemma {:induction false} FilterSorted<T>(s: seq<T>, p: T -> bool, key: T -> Key, desc: bool)
    requires SortedBy(s, key, desc)
    ensures SortedBy(Filter(s, p), key, desc)
  {
    if |s| > 0 {
      SortedTail(s, key, desc);
      FilterSorted(s[1..], p, key, desc);
      var f := Filter(s[1..], p);
      if p(s[0]) {
        var r := [s[0]] + f;
        forall i, j | 0 <= i < j < |r|
          ensures InOrder(key(r[i]), key(r[j]), desc)
        {
          if i == 0 {
            assert r[j] in f;
            var k :| 0 <= k < |s[1..]| && s[1..][k] == r[j];
            assert s[k + 1] == r[j];
          } else {
            assert r[i] == f[i - 1] && r[j] == f[j - 1];
          }
        }
      }
    }
  }

  /** In a list without repeated keys, sorted ascending, each key is strictly below the next. */
  lemma SortedDistinctStrict<T>(s: seq<T>, key: T -> Key, i: int, j: int)
    requires SortedBy(s, key, false)
    requires 0 <= i < j < |s| && key(s[i]) != key(s[j])
    ensures !KeyLe(key(s[j]), key(s[i]))
  {
    if KeyLe(key(s[j]), key(s[i])) {
      KeyLeAntisym(key(s[i]), key(s[j]));
    }
  }

  /** Filtering a list with one more element at the end. */
  lemma {:induction false} FilterSnoc<T>(s: seq<T>, x: T, p: T -> bool)
    ensures Filter(s + [x], p) == Filter(s, p) + (if p(x) then [x] else [])
    decreases |s|
  {
    if |s| == 0 {
      assert s + [x] == [x];
      assert [x][1..] == [];
    } else {
      assert (s + [x])[1..] == s[1..] + [x];
      assert (s + [x])[0] == s[0];
      FilterSnoc(s[1..], x, p);
    }
  }

  /** Two filters that never keep the same element keep no more than the list holds. */
  lemma {:induction false} FilterDisjoint<T>(s: seq<T>, p: T -> bool, q: T -> bool)
    requires forall i :: 0 <= i < |s| ==> !(p(s[i]) && q(s[i]))
    ensures |Filter(s, p)| + |Filter(s, q)| <= |s|
    decreases |s|
  {
    if |s| > 0 {
      assert forall i :: 0 <= i < |s| - 1 ==> s[1..][i] == s[i + 1];
      FilterDisjoint(s[1..], p, q);
    }
  }

  /** `[f(x) for x in s if p(x)]`, built from the front as a loop appends. */
  function KeepMap<T, U>(s: seq<T>, p: T -> bool, f: T -> U): (r: seq<U>)
    ensures |r| <= |s|
  {
    if |s| == 0 then []
    else KeepMap(s[..|s| - 1], p, f) + (if p(s[|s| - 1]) then [f(s[|s| - 1])] else [])
  }

  /** Element by element, `KeepMap` maps the filtered list. */
  lemma {:induction false} KeepMapFilter<T, U>(s: seq<T>, p: T -> bool, f: T -> U)
    ensures |KeepMap(s, p, f)| == |Filter(s, p)|
    ensures forall i :: 0 <= i < |Filter(s, p)| ==> KeepMap(s, p, f)[i] == f(Filter(s, p)[i])
    decreases |s|
  {
    if |s| > 0 {
      var init := s[..|s| - 1];
      var last := s[|s| - 1];
      KeepMapFilter(init, p, f);
      assert s == init + [last];
      FilterSnoc(init, last, p);
    }
  }

  predicate Distinct<T(==)>(s: seq<T>) {
    forall i, j :: 0 <= i < j < |s| ==> s[i] != s[j]
  }

  /** No element occurs twice in a list without repeats. */
  lemma {:induction false} DistinctCount<T>(s: seq<T>, x: T)
    requires Distinct(s)
    ensures multiset(s)[x] <= 1
    decreases |s|
  {
    if |s| > 0 {
      assert s == [s[0]] + s[1..];
      DistinctCount(s[1..], x);
      if s[0] == x {
        assert x !in s[1..];
      }
    }
  }

  /** A rearrangement of a list without repeats has none either. */
  lemma DistinctPerm<T>(a: seq<T>, b: seq<T>)
    requires Distinct(a) && multiset(a) == multiset(b)
    ensures Distinct(b)
  {
    forall i, j | 0 <= i < j < |b|
      ensures b[i] != b[j]
    {
      if b[i] == b[j] {
        assert b == b[..j] + b[j..];
        assert b[i] in b[..j];
        assert b[j] in b[j..];
        assert multiset(b)[b[i]] == multiset(b[..j])[b[i]] + multiset(b[j..])[b[i]];
        DistinctCount(a, b[i]);
      }
    }
  }
}
