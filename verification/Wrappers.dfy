/** The option and result types used for the program's `Option` and `Result`,
    and what sequences share. */
module Wrappers {

  datatype Option<+T> = None | Some(value: T)

  datatype Result<+T, +E> = Ok(value: T) | Err(error: E)

  predicate Increasing(at: seq<int>) {
    forall i, j :: 0 <= i < j < |at| ==> at[i] < at[j]
  }

  predicate GivesAt<T, U>(s: seq<T>, f: T -> Option<U>, k: int) {
    0 <= k < |s| && f(s[k]).Some?
  }

  /** `r` is what `f` gives at the positions `at`, in order, and `f` gives nothing
      anywhere else. */
  ghost predicate PickedAt<T, U>(s: seq<T>, f: T -> Option<U>, at: seq<int>, r: seq<U>) {
    && |at| == |r| && Increasing(at)
    && (forall i :: 0 <= i < |at| ==> GivesAt(s, f, at[i]) && f(s[at[i]]).value == r[i])
    && (forall k: int :: GivesAt(s, f, k) ==> k in at)
  }

  /** What `f` gives on the elements of `s`, where it gives something. */
  ghost predicate Picked<T, U>(s: seq<T>, f: T -> Option<U>, r: seq<U>) {
    exists at: seq<int> :: PickedAt(s, f, at, r)
  }

  lemma PickedNone<T, U>(f: T -> Option<U>)
    ensures Picked([], f, [])
  {
    assert PickedAt([], f, [], []);
  }

  lemma GivesBefore<T, U>(s: seq<T>, x: T, f: T -> Option<U>)
    ensures forall k: int :: GivesAt(s + [x], f, k) <==> GivesAt(s, f, k) || (k == |s| && f(x).Some?)
  {
  }

  lemma IncreasingOneMore(at: seq<int>, n: int)
    requires Increasing(at) && forall i :: 0 <= i < |at| ==> at[i] < n
    ensures Increasing(at + [n])
  {
  }

  lemma PickedOneMore<T, U>(s: seq<T>, f: T -> Option<U>, r: seq<U>, x: T)
    requires Picked(s, f, r)
    ensures Picked(s + [x], f, r + if f(x).Some? then [f(x).value] else [])
  {
    var at: seq<int> :| PickedAt(s, f, at, r);
    GivesBefore(s, x, f);
    if f(x).Some? {
      PickedThere(s, f, at, r, x);
    } else {
      assert r + [] == r;
      assert PickedAt(s + [x], f, at, r);
    }
  }

  lemma PickedThere<T, U>(s: seq<T>, f: T -> Option<U>, at: seq<int>, r: seq<U>, x: T)
    requires PickedAt(s, f, at, r) && f(x).Some?
    ensures PickedAt(s + [x], f, at + [|s|], r + [f(x).value])
  {
    var t, more, all := s + [x], at + [|s|], r + [f(x).value];
    GivesBefore(s, x, f);
    forall i | 0 <= i < |at|
      ensures at[i] < |s|
    {
      assert GivesAt(s, f, at[i]);
    }
    IncreasingOneMore(at, |s|);
    forall i | 0 <= i < |more|
      ensures GivesAt(t, f, more[i]) && f(t[more[i]]).value == all[i]
    {
      if i < |at| {
        assert GivesAt(s, f, at[i]);
        assert t[at[i]] == s[at[i]];
      }
    }
    forall k | GivesAt(t, f, k)
      ensures k in more
    {
      if k < |s| {
        assert k in at;
      } else {
        assert more[|at|] == k;
      }
    }
  }

  /** What `f` gives along a sequence. */
  function PickedBy<T, U>(s: seq<T>, f: T -> Option<U>): seq<U> {
    if s == [] then []
    else
      var last := f(s[|s| - 1]);
      PickedBy(s[..|s| - 1], f) + if last.Some? then [last.value] else []
  }

  lemma {:induction false} PickedInOrder<T, U>(s: seq<T>, f: T -> Option<U>)
    ensures Picked(s, f, PickedBy(s, f))
    decreases |s|
  {
    if s == [] {
      PickedNone(f);
    } else {
      var n := |s| - 1;
      PickedInOrder(s[..n], f);
      PickedOneMore(s[..n], f, PickedBy(s[..n], f), s[n]);
      assert s[..n] + [s[n]] == s;
    }
  }

  lemma Associate<T>(a: seq<T>, b: seq<T>, c: seq<T>)
    ensures (a + b) + c == a + (b + c)
  {
  }

  /** `r` is what `f` gives on the last element on which it gives something. */
  ghost predicate IsLast<T, U>(s: seq<T>, f: T -> Option<U>, r: Option<U>) {
    if r.None? then forall k :: 0 <= k < |s| ==> f(s[k]).None?
    else exists k :: 0 <= k < |s| && f(s[k]) == r && forall j :: k < j < |s| ==> f(s[j]).None?
  }

  function LastOf<T, U>(s: seq<T>, f: T -> Option<U>): Option<U> {
    if s == [] then None
    else if f(s[|s| - 1]).Some? then f(s[|s| - 1])
    else LastOf(s[..|s| - 1], f)
  }

  lemma {:induction false} LastOfIsLast<T, U>(s: seq<T>, f: T -> Option<U>)
    ensures IsLast(s, f, LastOf(s, f))
    decreases |s|
  {
    if s == [] {
    } else {
      LastOfIsLast(s[..|s| - 1], f);
    }
  }

  lemma LastIsOne<T, U>(s: seq<T>, f: T -> Option<U>, a: Option<U>, b: Option<U>)
    requires IsLast(s, f, a) && IsLast(s, f, b)
    ensures a == b
  {
  }

  predicate Distinct<T(==)>(s: seq<T>) {
    forall i, j :: 0 <= i < j < |s| ==> s[i] != s[j]
  }
}
