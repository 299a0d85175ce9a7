/** Stable sorting by a key, and how it commutes with filtering. The model's
    stand-in for the library sort the source calls. */
module Sorting {
  /** Sort keys, compared lexicographically. */
  datatype Key = Key(first: int, second: int, third: int)

  predicate NotAfter(x: Key, y: Key) {
    || x.first < y.first
    || (x.first == y.first && (x.second < y.second || (x.second == y.second && x.third <= y.third)))
  }

  ghost predicate InOrder<T(!new)>(s: seq<T>, key: T -> Key) {
    forall i, j | 0 <= i < j < |s| :: NotAfter(key(s[i]), key(s[j]))
  }

  /** `e` placed behind everything that does not come after it. */
  function Insert<T>(e: T, s: seq<T>, key: T -> Key): seq<T> {
    if s == [] || NotAfter(key(s[|s| - 1]), key(e)) then s + [e]
    else Insert(e, s[..|s| - 1], key) + [s[|s| - 1]]
  }

  function Sorted<T>(s: seq<T>, key: T -> Key): seq<T> {
    if s == [] then [] else Insert(s[|s| - 1], Sorted(s[..|s| - 1], key), key)
  }

  lemma {:induction false} InsertPermutes<T>(e: T, s: seq<T>, key: T -> Key)
    ensures multiset(Insert(e, s, key)) == multiset(s + [e])
  {
    if s != [] && !NotAfter(key(s[|s| - 1]), key(e)) {
      assert s == s[..|s| - 1] + [s[|s| - 1]];
      InsertPermutes(e, s[..|s| - 1], key);
    }
  }

  lemma {:induction false} SortedPermutes<T>(s: seq<T>, key: T -> Key)
    ensures multiset(Sorted(s, key)) == multiset(s)
    ensures |Sorted(s, key)| == |s|
  {
    if s != [] {
      assert s == s[..|s| - 1] + [s[|s| - 1]];
      SortedPermutes(s[..|s| - 1], key);
      InsertPermutes(s[|s| - 1], Sorted(s[..|s| - 1], key), key);
    }
    assert |multiset(Sorted(s, key))| == |Sorted(s, key)|;
  }

  lemma {:induction false} InsertKeepsOrder<T(!new)>(e: T, s: seq<T>, key: T -> Key)
    requires InOrder(s, key)
    ensures InOrder(Insert(e, s, key), key)
  {
    if s != [] && !NotAfter(key(s[|s| - 1]), key(e)) {
      var last, r := s[|s| - 1], Insert(e, s[..|s| - 1], key);
      InsertKeepsOrder(e, s[..|s| - 1], key);
      InsertPermutes(e, s[..|s| - 1], key);
      forall i | 0 <= i < |r| ensures NotAfter(key(r[i]), key(last)) {
        assert r[i] in multiset(r);
        assert r[i] == e || r[i] in s[..|s| - 1];
      }
    }
  }

  lemma {:induction false} SortedInOrder<T(!new)>(s: seq<T>, key: T -> Key)
    ensures InOrder(Sorted(s, key), key)
  {
    if s != [] {
      SortedInOrder(s[..|s| - 1], key);
      InsertKeepsOrder(s[|s| - 1], Sorted(s[..|s| - 1], key), key);
    }
  }

  lemma {:induction false} SortedUnchanged<T(!new)>(s: seq<T>, key: T -> Key)
    requires InOrder(s, key)
    ensures Sorted(s, key) == s
  {
    if s != [] {
      SortedUnchanged(s[..|s| - 1], key);
    }
  }

  function Restrict<T>(s: seq<T>, keep: T -> bool): seq<T> {
    if s == [] then []
    else if keep(s[|s| - 1]) then Restrict(s[..|s| - 1], keep) + [s[|s| - 1]]
    else Restrict(s[..|s| - 1], keep)
  }

  lemma {:induction false} RestrictMembers<T(!new)>(s: seq<T>, keep: T -> bool)
    ensures forall e :: e in Restrict(s, keep) <==> e in s && keep(e)
  {
    if s != [] {
      RestrictMembers(s[..|s| - 1], keep);
    }
  }

  lemma {:induction false} RestrictConcat<T>(a: seq<T>, b: seq<T>, keep: T -> bool)
    ensures Restrict(a + b, keep) == Restrict(a, keep) + Restrict(b, keep)
  {
    if b == [] {
      assert a + b == a;
    } else {
      assert (a + b)[..|a + b| - 1] == a + b[..|b| - 1];
      RestrictConcat(a, b[..|b| - 1], keep);
    }
  }

  lemma RestrictSnoc<T>(a: seq<T>, e: T, keep: T -> bool)
    ensures Restrict(a + [e], keep) == if keep(e) then Restrict(a, keep) + [e] else Restrict(a, keep)
  {
    assert (a + [e])[..|a|] == a;
  }

  lemma {:induction false} RestrictAll<T>(s: seq<T>, keep: T -> bool)
    requires forall e <- s :: keep(e)
    ensures Restrict(s, keep) == s
  {
    if s != [] {
      RestrictAll(s[..|s| - 1], keep);
    }
  }

  lemma {:induction false} RestrictNone<T>(s: seq<T>, keep: T -> bool)
    requires forall e <- s :: !keep(e)
    ensures Restrict(s, keep) == []
  {
    if s != [] {
      RestrictNone(s[..|s| - 1], keep);
    }
  }

  lemma {:induction false} RestrictSplits<T>(s: seq<T>, keep: T -> bool, drop: T -> bool)
    requires forall e <- s :: keep(e) <==> !drop(e)
    ensures |Restrict(s, keep)| + |Restrict(s, drop)| == |s|
  {
    if s != [] {
      RestrictSplits(s[..|s| - 1], keep, drop);
    }
  }

  lemma {:induction false} RestrictTwice<T>(s: seq<T>, p: T -> bool, q: T -> bool, both: T -> bool)
    requires forall e <- s :: both(e) <==> p(e) && q(e)
    ensures Restrict(Restrict(s, p), q) == Restrict(s, both)
  {
    if s != [] {
      RestrictTwice(s[..|s| - 1], p, q, both);
      RestrictSnoc(Restrict(s[..|s| - 1], p), s[|s| - 1], q);
    }
  }

  lemma {:induction false} RestrictFrom<T(!new)>(s: seq<T>, keep: T -> bool, k: nat) returns (i: nat)
    requires k < |Restrict(s, keep)|
    ensures i < |s| && s[i] == Restrict(s, keep)[k]
  {
    if keep(s[|s| - 1]) && k == |Restrict(s, keep)| - 1 {
      i := |s| - 1;
    } else {
      i := RestrictFrom(s[..|s| - 1], keep, k);
    }
  }

  lemma {:induction false} RestrictHas<T(!new)>(s: seq<T>, keep: T -> bool, i: nat) returns (k: nat)
    requires i < |s| && keep(s[i])
    ensures k < |Restrict(s, keep)| && Restrict(s, keep)[k] == s[i]
  {
    if i == |s| - 1 {
      k := |Restrict(s, keep)| - 1;
    } else {
      k := RestrictHas(s[..|s| - 1], keep, i);
    }
  }

  lemma {:induction false} RestrictInOrder<T(!new)>(s: seq<T>, key: T -> Key, keep: T -> bool)
    requires InOrder(s, key)
    ensures InOrder(Restrict(s, keep), key)
  {
    if s != [] {
      RestrictInOrder(s[..|s| - 1], key, keep);
      var r := Restrict(s[..|s| - 1], keep);
      forall k | 0 <= k < |r| ensures NotAfter(key(r[k]), key(s[|s| - 1])) {
        var i := RestrictFrom(s[..|s| - 1], keep, k);
      }
    }
  }

  lemma {:induction false} RestrictInsertLast<T(!new)>(e: T, s: seq<T>, key: T -> Key, keep: T -> bool)
    requires InOrder(s, key) && (s == [] || NotAfter(key(s[|s| - 1]), key(e)))
    ensures Insert(e, Restrict(s, keep), key) == Restrict(s, keep) + [e]
  {
    var r := Restrict(s, keep);
    if r != [] {
      var i := RestrictFrom(s, keep, |r| - 1);
      assert i == |s| - 1 || NotAfter(key(s[i]), key(s[|s| - 1]));
      assert NotAfter(key(r[|r| - 1]), key(e));
    }
  }

  lemma {:induction false} RestrictInsert<T(!new)>(e: T, s: seq<T>, key: T -> Key, keep: T -> bool)
    requires InOrder(s, key)
    ensures Restrict(Insert(e, s, key), keep)
            == if keep(e) then Insert(e, Restrict(s, keep), key) else Restrict(s, keep)
  {
    if s == [] || NotAfter(key(s[|s| - 1]), key(e)) {
      RestrictSnoc(s, e, keep);
      RestrictInsertLast(e, s, key, keep);
    } else {
      var init, last := s[..|s| - 1], s[|s| - 1];
      RestrictInsert(e, init, key, keep);
      RestrictSnoc(Insert(e, init, key), last, keep);
      assert (Restrict(init, keep) + [last])[..|Restrict(init, keep)|] == Restrict(init, keep);
    }
  }

  /** A stable sort, filtered, is the filter's own stable sort. */
  lemma {:induction false} RestrictSorted<T(!new)>(s: seq<T>, key: T -> Key, keep: T -> bool)
    ensures Restrict(Sorted(s, key), keep) == Sorted(Restrict(s, keep), key)
  {
    if s != [] {
      var init, e := s[..|s| - 1], s[|s| - 1];
      RestrictSorted(init, key, keep);
      SortedInOrder(init, key);
      RestrictInsert(e, Sorted(init, key), key, keep);
      assert (Restrict(init, keep) + [e])[..|Restrict(init, keep)|] == Restrict(init, keep);
    }
  }

  lemma {:induction false} RestrictCount<T>(s: seq<T>, keep: T -> bool, e: T)
    requires keep(e)
    ensures multiset(Restrict(s, keep))[e] == multiset(s)[e]
  {
    if s != [] {
      assert s == s[..|s| - 1] + [s[|s| - 1]];
      RestrictCount(s[..|s| - 1], keep, e);
    }
  }

  // ---------- sequences without repeats ----------

  ghost predicate Distinct<T(!new)>(s: seq<T>) {
    forall i, j | 0 <= i < j < |s| :: s[i] != s[j]
  }

  lemma {:induction false} DistinctSize<T(!new)>(s: seq<T>)
    requires Distinct(s)
    ensures |set e | e in s| == |s|
  {
    if s != [] {
      var init, last := s[..|s| - 1], s[|s| - 1];
      DistinctSize(init);
      assert (set e | e in s) == (set e | e in init) + {last};
    }
  }

  lemma {:induction false} DistinctCounts<T(!new)>(s: seq<T>)
    ensures Distinct(s) <==> forall e <- s :: multiset(s)[e] == 1
  {
    if s != [] {
      var init, last := s[..|s| - 1], s[|s| - 1];
      assert s == init + [last];
      DistinctCounts(init);
      assert last in init <==> multiset(init)[last] > 0;
      if Distinct(s) {
        forall e <- s ensures multiset(s)[e] == 1 {
          assert e == last || e in init;
        }
      } else {
        var i, j :| 0 <= i < j < |s| && s[i] == s[j];
        assert s == s[..j] + s[j..] && s[..j][i] == s[i] && s[j..][0] == s[i];
        assert multiset(s)[s[i]] >= 2;
      }
    }
  }

  lemma SortedDistinct<T(!new)>(s: seq<T>, key: T -> Key)
    requires Distinct(s)
    ensures Distinct(Sorted(s, key))
    ensures forall e :: e in Sorted(s, key) <==> e in s
  {
    DistinctCounts(s);
    DistinctCounts(Sorted(s, key));
    SortedPermutes(s, key);
    forall e ensures e in Sorted(s, key) <==> e in s {
      assert e in s <==> e in multiset(s);
      assert e in Sorted(s, key) <==> e in multiset(Sorted(s, key));
    }
  }

  lemma {:induction false} RestrictDistinct<T(!new)>(s: seq<T>, keep: T -> bool)
    requires Distinct(s)
    ensures Distinct(Restrict(s, keep))
  {
    if s != [] {
      RestrictDistinct(s[..|s| - 1], keep);
      RestrictMembers(s[..|s| - 1], keep);
    }
  }

  /** Two repeat-free sequences with the same elements are equally long. */
  lemma SameElementsSameLength<T(!new)>(a: seq<T>, b: seq<T>)
    requires Distinct(a) && Distinct(b)
    requires forall e :: e in a <==> e in b
    ensures |a| == |b|
  {
    DistinctSize(a);
    DistinctSize(b);
    assert (set e | e in a) == (set e | e in b);
  }

  lemma DistinctConcat<T(!new)>(a: seq<T>, b: seq<T>)
    requires Distinct(a) && Distinct(b) && forall e <- a :: e !in b
    ensures Distinct(a + b)
  {
    var c := a + b;
    forall i, j | 0 <= i < j < |c| ensures c[i] != c[j] {
      if i < |a| <= j {
        assert a[i] in a && b[j - |a|] in b;
      }
    }
  }

  /** What is left of a repeat-free list. */
  lemma LeftSize<T(!new)>(whole: seq<T>, gone: seq<T>, left: seq<T>)
    requires Distinct(whole) && Distinct(gone) && Distinct(left) && forall e <- gone :: e in whole
    requires forall e :: e in left <==> e in whole && e !in gone
    ensures |left| == |whole| - |gone|
  {
    DistinctSize(whole);
    DistinctSize(gone);
    DistinctSize(left);
    assert (set e | e in left) == (set e | e in whole) - (set e | e in gone);
    assert (set e | e in gone) <= (set e | e in whole);
  }
}
