/** Failure-compatible result types shared by the model's modules. */
module Wrappers {

  /** A value that may be absent (Python's `Optional`, or a `dict.get` miss). */
  datatype Option<+T> = None | Some(value: T) {

    /** The value, or `default` when absent, as `dict.get(key, default)` returns. */
    function GetOr(default: T): (r: T)
      ensures Some? ==> r == value
      ensures None? ==> r == default
    {
      match this
      case Some(v) => v
      case None => default
    }
  }

  /** The outcome of an operation that may raise: a value or an error message. */
  datatype Result<+R> = Success(value: R) | Failure(error: string) {

    predicate IsFailure() {
      Failure?
    }

    function PropagateFailure<U>(): Result<U>
      requires Failure?
    {
      Failure(error)
    }

    function Extract(): R
      requires Success?
    {
      value
    }
  }

  /** The first element of `xs` whose key is `k`, as a scan with an early
      return or `dict.get` on a table with distinct keys finds it. */
  function FindBy<T>(xs: seq<T>, key: T -> string, k: string): (r: Option<T>)
    ensures r.None? <==> forall i :: 0 <= i < |xs| ==> key(xs[i]) != k
    ensures r.Some? ==> r.value in xs && key(r.value) == k
    ensures r.Some? ==> exists i :: 0 <= i < |xs| && xs[i] == r.value
                                    && forall j :: 0 <= j < i ==> key(xs[j]) != k
    decreases |xs|
  {
    if |xs| == 0 then None
    else if key(xs[0]) == k then Some(xs[0])
    else
      var r := FindBy(xs[1..], key, k);
      if r.Some? then FirstMatchShift(xs, key, k, r.value); r else r
  }

  /** A first match in the tail is a first match in the whole sequence
      when the head does not match. */
  lemma FirstMatchShift<T>(xs: seq<T>, key: T -> string, k: string, v: T)
    requires |xs| > 0 && key(xs[0]) != k
    requires exists i :: 0 <= i < |xs[1..]| && xs[1..][i] == v && forall j :: 0 <= j < i ==> key(xs[1..][j]) != k
    ensures exists i :: 0 <= i < |xs| && xs[i] == v && forall j :: 0 <= j < i ==> key(xs[j]) != k
  {
    var i :| 0 <= i < |xs[1..]| && xs[1..][i] == v && forall j :: 0 <= j < i ==> key(xs[1..][j]) != k;
    assert xs[i + 1] == v;
    assert forall j :: 0 <= j < i + 1 ==> key(xs[j]) != k by {
      forall j | 0 <= j < i + 1 ensures key(xs[j]) != k {
        if j > 0 {
          assert xs[j] == xs[1..][j - 1];
        }
      }
    }
  }
  /** The present values of `os`, in order, as a loop that appends only
      the entries it could compute builds them. */
  function Somes<T>(os: seq<Option<T>>): (xs: seq<T>)
    ensures |xs| <= |os|
    ensures (forall i :: 0 <= i < |os| ==> os[i].Some?) ==> |xs| == |os|
    decreases |os|
  {
    if |os| == 0 then []
    else
      var before := Somes(os[..|os| - 1]);
      var last := os[|os| - 1];
      if last.Some? then before + [last.value] else before
  }

  /** A value is kept exactly when some entry holds it. */
  lemma SomesMembers<T>(os: seq<Option<T>>)
    ensures forall x :: x in Somes(os) <==> exists i :: 0 <= i < |os| && os[i] == Some(x)
  {
    forall x ensures x in Somes(os) <==> exists i :: 0 <= i < |os| && os[i] == Some(x)
    {
      if x in Somes(os) {
        var k :| 0 <= k < |Somes(os)| && Somes(os)[k] == x;
        SomesSound(os, k);
      }
      if exists i :: 0 <= i < |os| && os[i] == Some(x) {
        var i :| 0 <= i < |os| && os[i] == Some(x);
        SomesComplete(os, i);
      }
    }
  }

  /** Every kept value comes from some entry. */
  lemma {:induction false} SomesSound<T>(os: seq<Option<T>>, k: int)
    requires 0 <= k < |Somes(os)|
    ensures exists i :: 0 <= i < |os| && os[i] == Some(Somes(os)[k])
    decreases |os|
  {
    var n := |os| - 1;
    var before := Somes(os[..n]);
    if k < |before| {
      assert Somes(os)[k] == before[k];
      SomesSound(os[..n], k);
      var i :| 0 <= i < n && os[..n][i] == Some(before[k]);
      assert os[i] == os[..n][i];
    } else {
      assert os[n] == Some(Somes(os)[k]);
    }
  }

  /** Every present entry is kept. */
  lemma {:induction false} SomesComplete<T>(os: seq<Option<T>>, i: int)
    requires 0 <= i < |os| && os[i].Some?
    ensures os[i].value in Somes(os)
    decreases |os|
  {
    var n := |os| - 1;
    if i < n {
      assert os[..n][i] == os[i];
      SomesComplete(os[..n], i);
    }
  }
}
