/** `Array.prototype.sort` with a comparator, as the dashboard uses it: the engine
    sorts stably, putting `a` before `b` exactly when the comparator is negative.
    Every comparator in the dashboard compares one key per element (a number, a
    time or a string) in one direction, so the sort is modelled as a stable
    insertion sort on that key and direction, with its properties proved. */
module StableSort {
  import Text

  /** A comparison key: a number (prices, quantities, times in milliseconds) or a string. */
  datatype SortKey = Num(x: real) | Str(s: string)

  /** Numbers by value, strings in code-point order, every number before every string. */
  predicate KeyLt(a: SortKey, b: SortKey) {
    match (a, b)
    case (Num(x), Num(y)) => x < y
    case (Str(s), Str(t)) => Text.LexLe(s, t) && s != t
    case (Num(_), Str(_)) => true
    case (Str(_), Num(_)) => false
  }

  lemma KeyLtIrreflexive(a: SortKey)
    ensures !KeyLt(a, a)
  {
  }

  lemma KeyLtTrans(a: SortKey, b: SortKey, c: SortKey)
    requires KeyLt(a, b) && KeyLt(b, c)
    ensures KeyLt(a, c)
  {
    if a.Str? && b.Str? && c.Str? {
      Text.LexLeTrans(a.s, b.s, c.s);
      if a.s == c.s {
        Text.LexLeAntisym(a.s, b.s);
      }
    }
  }

  /** Any two different keys are ordered one way or the other. */
  lemma KeyLtTotal(a: SortKey, b: SortKey)
    ensures a == b || KeyLt(a, b) || KeyLt(b, a)
  {
    if a.Str? && b.Str? {
      Text.LexLeTotal(a.s, b.s);
    }
  }

  /** `sortDir`: `"asc"` multiplies the comparison by 1, anything else by -1. */
  datatype Dir = Asc | Desc

  /** The comparator is negative: `a` goes strictly before `b`. */
  predicate Ahead<T>(a: T, b: T, key: T -> SortKey, dir: Dir) {
    if dir == Asc then KeyLt(key(a), key(b)) else KeyLt(key(b), key(a))
  }

  lemma AheadTrans<T>(a: T, b: T, c: T, key: T -> SortKey, dir: Dir)
    requires Ahead(a, b, key, dir) && Ahead(b, c, key, dir)
    ensures Ahead(a, c, key, dir)
  {
    if dir == Asc {
      KeyLtTrans(key(a), key(b), key(c));
    } else {
      KeyLtTrans(key(c), key(b), key(a));
    }
  }

  /** No element is strictly ahead of an earlier one. */
  predicate SortedBy<T>(r: seq<T>, key: T -> SortKey, dir: Dir) {
    forall i, j :: 0 <= i < j < |r| ==> !Ahead(r[j], r[i], key, dir)
  }

  /** Insert `x`, the latest element, before the first element it is strictly ahead of. */
  function Insert<T>(x: T, t: seq<T>, key: T -> SortKey, dir: Dir): (r: seq<T>)
    ensures |r| == |t| + 1
    ensures multiset(r) == multiset(t) + multiset{x}
  {
    if t == [] || Ahead(x, t[0], key, dir) then [x] + t
    else
      assert t == [t[0]] + t[1..];
      [t[0]] + Insert(x, t[1..], key, dir)
  }

  /** `copy.sort(cmp)` for a comparator that compares `key` in direction `dir`. */
  function SortBy<T>(s: seq<T>, key: T -> SortKey, dir: Dir): (r: seq<T>)
    ensures |r| == |s|
    ensures multiset(r) == multiset(s)
  {
    if s == [] then []
    else
      assert s == s[..|s| - 1] + [s[|s| - 1]];
      Insert(s[|s| - 1], SortBy(s[..|s| - 1], key, dir), key, dir)
  }

  lemma {:induction false} InsertSorted<T>(x: T, t: seq<T>, key: T -> SortKey, dir: Dir)
    requires SortedBy(t, key, dir)
    ensures SortedBy(Insert(x, t, key, dir), key, dir)
  {
    var r := Insert(x, t, key, dir);
    if t == [] {
    } else if Ahead(x, t[0], key, dir) {
      forall i, j | 0 <= i < j < |r| ensures !Ahead(r[j], r[i], key, dir) {
        if i == 0 && Ahead(r[j], x, key, dir) {
          AheadTrans(r[j], x, t[0], key, dir);
          assert r[j] == t[j - 1];
          if j - 1 == 0 {
            KeyLtIrreflexive(key(t[0]));
          }
        }
      }
    } else {
      var rest := Insert(x, t[1..], key, dir);
      InsertSorted(x, t[1..], key, dir);
      forall i, j | 0 <= i < j < |r| ensures !Ahead(r[j], r[i], key, dir) {
        if i == 0 {
          var y := r[j];
          assert y in multiset(rest);
          assert y == x || y in multiset(t[1..]);
          if y != x {
            var k :| 0 <= k < |t[1..]| && t[1..][k] == y;
            assert t[k + 1] == y;
          }
        } else {
          assert r[i] == rest[i - 1] && r[j] == rest[j - 1];
        }
      }
    }
  }

  /** The result is sorted. */
  lemma {:induction false} SortBySorted<T>(s: seq<T>, key: T -> SortKey, dir: Dir)
    ensures SortedBy(SortBy(s, key, dir), key, dir)
  {
    if s != [] {
      SortBySorted(s[..|s| - 1], key, dir);
      InsertSorted(s[|s| - 1], SortBy(s[..|s| - 1], key, dir), key, dir);
    }
  }

  /** The elements of `s` whose key is `k`, in order. */
  function WithKey<T>(s: seq<T>, key: T -> SortKey, k: SortKey): (r: seq<T>)
    ensures forall e :: e in r ==> e in s && key(e) == k
  {
    if s == [] then []
    else (if key(s[0]) == k then [s[0]] else []) + WithKey(s[1..], key, k)
  }

  lemma {:induction false} WithKeyAppend<T>(a: seq<T>, b: seq<T>, key: T -> SortKey, k: SortKey)
    ensures WithKey(a + b, key, k) == WithKey(a, key, k) + WithKey(b, key, k)
  {
    if a == [] {
      assert a + b == b;
    } else {
      assert (a + b)[1..] == a[1..] + b;
      WithKeyAppend(a[1..], b, key, k);
    }
  }

  lemma {:induction false} WithKeyNone<T>(s: seq<T>, key: T -> SortKey, k: SortKey)
    requires forall e :: e in s ==> key(e) != k
    ensures WithKey(s, key, k) == []
  {
    if s != [] {
      WithKeyNone(s[1..], key, k);
    }
  }

  /** An element strictly ahead of the head of a sorted sequence shares its key with none of it. */
  lemma NoneShareKeyAhead<T>(x: T, t: seq<T>, key: T -> SortKey, dir: Dir)
    requires SortedBy(t, key, dir) && t != [] && Ahead(x, t[0], key, dir)
    ensures forall e :: e in t ==> key(e) != key(x)
  {
    forall e | e in t ensures key(e) != key(x) {
      var j :| 0 <= j < |t| && t[j] == e;
      if key(e) == key(x) {
        if j == 0 {
          KeyLtIrreflexive(key(x));
        }
        assert Ahead(t[j], t[0], key, dir);
      }
    }
  }

  lemma ConcatAssoc<T>(a: seq<T>, b: seq<T>, c: seq<T>)
    ensures a + (b + c) == (a + b) + c
  {
  }

  /** Inserting at the front: the new element's key group gains it first. */
  lemma InsertFrontWithKey<T>(x: T, t: seq<T>, key: T -> SortKey, dir: Dir, k: SortKey)
    requires SortedBy(t, key, dir) && (t == [] || Ahead(x, t[0], key, dir))
    ensures WithKey(Insert(x, t, key, dir), key, k) == WithKey(t, key, k) + (if key(x) == k then [x] else [])
  {
    var mark := if key(x) == k then [x] else [];
    assert Insert(x, t, key, dir) == [x] + t;
    assert WithKey([x] + t, key, k) == mark + WithKey(t, key, k) by {
      assert ([x] + t)[1..] == t;
    }
    if key(x) == k && t != [] {
      NoneShareKeyAhead(x, t, key, dir);
      WithKeyNone(t, key, k);
    }
  }

  lemma {:induction false} InsertWithKey<T>(x: T, t: seq<T>, key: T -> SortKey, dir: Dir, k: SortKey)
    requires SortedBy(t, key, dir)
    ensures WithKey(Insert(x, t, key, dir), key, k) == WithKey(t, key, k) + (if key(x) == k then [x] else [])
  {
    if t == [] || Ahead(x, t[0], key, dir) {
      InsertFrontWithKey(x, t, key, dir, k);
    } else {
      var mark := if key(x) == k then [x] else [];
      var rest := Insert(x, t[1..], key, dir);
      var head := if key(t[0]) == k then [t[0]] else [];
      assert Insert(x, t, key, dir) == [t[0]] + rest;
      InsertWithKey(x, t[1..], key, dir, k);
      assert WithKey([t[0]] + rest, key, k) == head + WithKey(rest, key, k) by {
        assert ([t[0]] + rest)[1..] == rest;
      }
      assert WithKey(t, key, k) == head + WithKey(t[1..], key, k);
      ConcatAssoc(head, WithKey(t[1..], key, k), mark);
    }
  }

  /** The sort is stable: the elements sharing any one key keep their input order. */
  lemma {:induction false} SortByStable<T>(s: seq<T>, key: T -> SortKey, dir: Dir, k: SortKey)
    ensures WithKey(SortBy(s, key, dir), key, k) == WithKey(s, key, k)
  {
    if s != [] {
      var init := s[..|s| - 1];
      var last := s[|s| - 1];
      SortByStable(init, key, dir, k);
      SortBySorted(init, key, dir);
      InsertWithKey(last, SortBy(init, key, dir), key, dir, k);
      assert s == init + [last];
      WithKeyAppend(init, [last], key, k);
      assert WithKey([last], key, k) == (if key(last) == k then [last] else []) by {
        assert [last][1..] == [];
      }
    }
  }

  /** `Σ f(e)` over `s`. */
  function Sum<T>(s: seq<T>, f: T -> real): real {
    if s == [] then 0.0 else f(s[0]) + Sum(s[1..], f)
  }

  lemma {:induction false} SumAppend<T>(a: seq<T>, b: seq<T>, f: T -> real)
    ensures Sum(a + b, f) == Sum(a, f) + Sum(b, f)
  {
    if a == [] {
      assert a + b == b;
    } else {
      assert (a + b)[1..] == a[1..] + b;
      SumAppend(a[1..], b, f);
    }
  }

  lemma {:induction false} InsertSum<T>(x: T, t: seq<T>, key: T -> SortKey, dir: Dir, f: T -> real)
    ensures Sum(Insert(x, t, key, dir), f) == Sum(t, f) + f(x)
  {
    if t == [] {
    } else if Ahead(x, t[0], key, dir) {
      assert ([x] + t)[1..] == t;
    } else {
      InsertSum(x, t[1..], key, dir, f);
      assert ([t[0]] + Insert(x, t[1..], key, dir))[1..] == Insert(x, t[1..], key, dir);
    }
  }

  /** Sorting does not change a sum over the elements. */
  lemma {:induction false} SortBySum<T>(s: seq<T>, key: T -> SortKey, dir: Dir, f: T -> real)
    ensures Sum(SortBy(s, key, dir), f) == Sum(s, f)
  {
    if s != [] {
      var init := s[..|s| - 1];
      var last := s[|s| - 1];
      SortBySum(init, key, dir, f);
      InsertSum(last, SortBy(init, key, dir), key, dir, f);
      assert s == init + [last];
      SumAppend(init, [last], f);
      assert Sum([last], f) == f(last) by {
        assert [last][1..] == [];
      }
    }
  }
}
