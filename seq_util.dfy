/** Order-preserving filtering of sequences, the list comprehensions and
    append-in-a-loop idioms of the original code. */
module SeqUtil {

  function Filter<T>(s: seq<T>, keep: T -> bool): (r: seq<T>)
    ensures |r| <= |s|
    ensures forall i :: 0 <= i < |r| ==> keep(r[i])
  {
    if s == [] then [] else (if keep(s[0]) then [s[0]] else []) + Filter(s[1..], keep)
  }

  lemma {:induction false} FilterAppend<T>(a: seq<T>, b: seq<T>, keep: T -> bool)
    ensures Filter(a + b, keep) == Filter(a, keep) + Filter(b, keep)
  {
    if a != [] {
      assert (a + b)[1..] == a[1..] + b;
      FilterAppend(a[1..], b, keep);
    } else {
      assert a + b == b;
    }
  }

  /** Appending one element extends the filtered sequence by that element
      exactly when it is kept: the step of an append loop. */
  lemma FilterSnoc<T>(s: seq<T>, x: T, keep: T -> bool)
    ensures Filter(s + [x], keep) == Filter(s, keep) + (if keep(x) then [x] else [])
  {
    FilterAppend(s, [x], keep);
  }

  /** The last element of a filtered sequence is the last kept element of the
      original: it sits at some index k, and nothing after k is kept. */
  lemma {:induction false} FilterLast<T>(s: seq<T>, keep: T -> bool)
    requires Filter(s, keep) != []
    ensures exists k :: 0 <= k < |s| && s[k] == Filter(s, keep)[|Filter(s, keep)| - 1]
              && keep(s[k]) && forall j :: k < j < |s| ==> !keep(s[j])
  {
    var n := |s| - 1;
    assert s == s[..n] + [s[n]];
    FilterSnoc(s[..n], s[n], keep);
    if keep(s[n]) {
      assert Filter(s, keep)[|Filter(s, keep)| - 1] == s[n];
    } else {
      FilterLast(s[..n], keep);
      var k :| 0 <= k < n && s[..n][k] == Filter(s[..n], keep)[|Filter(s[..n], keep)| - 1]
                && keep(s[..n][k]) && forall j :: k < j < n ==> !keep(s[..n][j]);
      assert s[k] == Filter(s, keep)[|Filter(s, keep)| - 1];
      assert forall j :: k < j < |s| ==> !keep(s[j]) by {
        forall j | k < j < |s| ensures !keep(s[j]) {
          if j < n { assert s[j] == s[..n][j]; }
        }
      }
    }
  }

  /** Conversely, when s[k] is kept and nothing after it is, s[k] is the last
      element of the filtered sequence. */
  lemma {:induction false} FilterLastAt<T>(s: seq<T>, keep: T -> bool, k: nat)
    requires k < |s| && keep(s[k]) && forall j :: k < j < |s| ==> !keep(s[j])
    ensures Filter(s, keep) != [] && Filter(s, keep)[|Filter(s, keep)| - 1] == s[k]
  {
    var n := |s| - 1;
    assert s == s[..n] + [s[n]];
    FilterSnoc(s[..n], s[n], keep);
    if k < n {
      FilterLastAt(s[..n], keep, k);
    }
  }

  /** The first element of a filtered sequence is the first kept element of
      the original: nothing before its index is kept. */
  lemma {:induction false} FilterFirst<T>(s: seq<T>, keep: T -> bool)
    requires Filter(s, keep) != []
    ensures exists k :: 0 <= k < |s| && s[k] == Filter(s, keep)[0]
              && keep(s[k]) && forall j :: 0 <= j < k ==> !keep(s[j])
  {
    if keep(s[0]) {
      assert Filter(s, keep)[0] == s[0];
    } else {
      FilterFirst(s[1..], keep);
      var k :| 0 <= k < |s[1..]| && s[1..][k] == Filter(s[1..], keep)[0]
                && keep(s[1..][k]) && forall j :: 0 <= j < k ==> !keep(s[1..][j]);
      assert s[k + 1] == Filter(s, keep)[0];
      assert forall j :: 0 <= j < k + 1 ==> !keep(s[j]) by {
        forall j | 0 <= j < k + 1 ensures !keep(s[j]) {
          if j > 0 { assert s[j] == s[1..][j - 1]; }
        }
      }
    }
  }

  /** Nothing is kept exactly when the filtered sequence is empty. */
  lemma {:induction false} FilterEmpty<T>(s: seq<T>, keep: T -> bool)
    ensures Filter(s, keep) == [] <==> forall i :: 0 <= i < |s| ==> !keep(s[i])
  {
    if s != [] {
      FilterEmpty(s[1..], keep);
      assert forall i :: 1 <= i < |s| ==> s[i] == s[1..][i - 1];
    }
  }

  /** An element is in the filtered sequence exactly when it is in the
      original and kept. */
  lemma {:induction false} FilterMembership<T>(s: seq<T>, keep: T -> bool, x: T)
    ensures x in Filter(s, keep) <==> x in s && keep(x)
  {
    if s != [] {
      FilterMembership(s[1..], keep, x);
      assert s == [s[0]] + s[1..];
    }
  }
}
