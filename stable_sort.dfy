/** `list.sort(key=...)` on string keys: a stable sort, modelled as
    insertion of each element after every earlier one whose key is not
    greater. */
module StableSort {
  import opened Text
  import opened SeqUtil

  ghost predicate SortedBy<T>(s: seq<T>, key: T -> string) {
    forall i, j :: 0 <= i < j < |s| ==> StrLe(key(s[i]), key(s[j]))
  }

  /** Insert `x` into `t` just after the last element whose key is not greater than `x`'s. */
  function Insert<T>(x: T, t: seq<T>, key: T -> string): (r: seq<T>)
    ensures |r| == |t| + 1
  {
    if t == [] then [x]
    else if StrLt(key(x), key(t[|t| - 1])) then Insert(x, t[..|t| - 1], key) + [t[|t| - 1]]
    else t + [x]
  }

  /** The sort: every element in turn inserted into the sorted prefix. */
  function SortBy<T>(s: seq<T>, key: T -> string): (r: seq<T>)
    ensures |r| == |s|
  {
    if s == [] then [] else Insert(s[|s| - 1], SortBy(s[..|s| - 1], key), key)
  }

  /** Selects the elements whose key is `k`. */
  function KeyIs<T>(k: string, key: T -> string): T -> bool {
    x => key(x) == k
  }

  lemma {:induction false} InsertPermutes<T>(x: T, t: seq<T>, key: T -> string)
    ensures multiset(Insert(x, t, key)) == multiset(t) + multiset{x}
  {
    if t != [] && StrLt(key(x), key(t[|t| - 1])) {
      var n := |t| - 1;
      InsertPermutes(x, t[..n], key);
      assert t == t[..n] + [t[n]];
      assert multiset(t) == multiset(t[..n]) + multiset{t[n]};
      assert Insert(x, t, key) == Insert(x, t[..n], key) + [t[n]];
    }
  }

  lemma {:induction false} InsertSorted<T>(x: T, t: seq<T>, key: T -> string)
    requires SortedBy(t, key)
    ensures SortedBy(Insert(x, t, key), key)
  {
    if t == [] {
    } else {
      var n := |t| - 1;
      var r := Insert(x, t, key);
      if StrLt(key(x), key(t[n])) {
        var front := Insert(x, t[..n], key);
        InsertSorted(x, t[..n], key);
        InsertPermutes(x, t[..n], key);
        forall i | 0 <= i < |front| ensures StrLe(key(front[i]), key(t[n])) {
          assert front[i] in multiset(front);
          if front[i] != x {
            var j :| 0 <= j < n && t[..n][j] == front[i];
            assert t[j] == front[i];
          } else {
            StrLtAsymmetric(key(x), key(t[n]));
          }
        }
        assert r == front + [t[n]];
      } else {
        forall i | 0 <= i < n ensures StrLe(key(t[i]), key(x)) {
          StrLeTransitive(key(t[i]), key(t[n]), key(x));
        }
      }
    }
  }

  /** Inserting `x` adds it after every element of its own key. */
  lemma {:induction false} InsertStable<T>(x: T, t: seq<T>, key: T -> string, k: string)
    requires SortedBy(t, key)
    ensures Filter(Insert(x, t, key), KeyIs(k, key)) == Filter(t, KeyIs(k, key)) + (if key(x) == k then [x] else [])
  {
    var keep := KeyIs(k, key);
    if t == [] {
      FilterSnoc([], x, keep);
    } else {
      var n := |t| - 1;
      assert t == t[..n] + [t[n]];
      FilterSnoc(t[..n], t[n], keep);
      if StrLt(key(x), key(t[n])) {
        InsertStable(x, t[..n], key, k);
        FilterSnoc(Insert(x, t[..n], key), t[n], keep);
        if key(x) == k {
          StrLtIrreflexive(k);
        }
      } else {
        FilterSnoc(t, x, keep);
      }
    }
  }

  lemma {:induction false} SortByPermutes<T>(s: seq<T>, key: T -> string)
    ensures multiset(SortBy(s, key)) == multiset(s)
  {
    if s != [] {
      var n := |s| - 1;
      SortByPermutes(s[..n], key);
      InsertPermutes(s[n], SortBy(s[..n], key), key);
      assert s == s[..n] + [s[n]];
    }
  }

  lemma {:induction false} SortBySorted<T>(s: seq<T>, key: T -> string)
    ensures SortedBy(SortBy(s, key), key)
  {
    if s != [] {
      SortBySorted(s[..|s| - 1], key);
      InsertSorted(s[|s| - 1], SortBy(s[..|s| - 1], key), key);
    }
  }

  /** Stability: the elements of any one key keep their relative order. */
  lemma {:induction false} SortByStable<T>(s: seq<T>, key: T -> string, k: string)
    ensures Filter(SortBy(s, key), KeyIs(k, key)) == Filter(s, KeyIs(k, key))
  {
    if s != [] {
      var n := |s| - 1;
      SortByStable(s[..n], key, k);
      SortBySorted(s[..n], key);
      InsertStable(s[n], SortBy(s[..n], key), key, k);
      assert s == s[..n] + [s[n]];
      FilterSnoc(s[..n], s[n], KeyIs(k, key));
    }
  }
}
