/** The validation loops of the ExcelClient iterate over a dict literal's
    `items()`. Under Python 2 that order is fixed by the keys' hashes and the
    program does not control it, so the model takes it as a permutation of the
    literal's entries and states which outcomes do not depend on it. */
module DictOrder {
  import opened PyValues

  /** `order` lists each of the indices 0..n-1: the order in which `items()`
      visits the n entries of a dict literal. */
  predicate IsIterationOrder(order: seq<nat>, n: nat) {
    && |order| == n
    && (forall i :: 0 <= i < |order| ==> order[i] < n)
    && (forall j :: 0 <= j < n ==> j in order)
  }

  /** The exception raised by the first entry, visited in `order`, that fails
      `check`; None when every visited entry passes. */
  function FirstFailure<T>(items: seq<T>, order: seq<nat>, check: T -> Option<Error>): Option<Error>
    requires forall i :: 0 <= i < |order| ==> order[i] < |items|
  {
    if order == [] then None
    else if check(items[order[0]]).Some? then check(items[order[0]])
    else FirstFailure(items, order[1..], check)
  }

  lemma {:induction false} FirstFailureVisited<T>(items: seq<T>, order: seq<nat>, check: T -> Option<Error>)
    requires forall i :: 0 <= i < |order| ==> order[i] < |items|
    ensures FirstFailure(items, order, check).None? <==>
      forall i :: 0 <= i < |order| ==> check(items[order[i]]).None?
    ensures FirstFailure(items, order, check).Some? ==>
      exists i :: 0 <= i < |order| && check(items[order[i]]) == FirstFailure(items, order, check)
  {
    if order != [] {
      FirstFailureVisited(items, order[1..], check);
      if check(items[order[0]]).None? {
        forall i | 0 < i < |order|
          ensures check(items[order[i]]) == check(items[order[1..][i - 1]])
        {
        }
        if FirstFailure(items, order, check).Some? {
          var i :| 0 <= i < |order[1..]| && check(items[order[1..][i]]) == FirstFailure(items, order, check);
          assert order[1..][i] == order[i + 1];
        }
      }
    }
  }

  /** Whatever the iteration order, the loop passes exactly when every entry
      passes, and a failure it reports is the failure of some entry. */
  lemma FirstFailureSpec<T>(items: seq<T>, order: seq<nat>, check: T -> Option<Error>)
    requires IsIterationOrder(order, |items|)
    ensures FirstFailure(items, order, check).None? <==>
      forall j :: 0 <= j < |items| ==> check(items[j]).None?
    ensures FirstFailure(items, order, check).Some? ==>
      exists j :: 0 <= j < |items| && check(items[j]) == FirstFailure(items, order, check)
  {
    FirstFailureVisited(items, order, check);
    if FirstFailure(items, order, check).None? {
      forall j | 0 <= j < |items|
        ensures check(items[j]).None?
      {
        assert j in order;
        var i :| 0 <= i < |order| && order[i] == j;
      }
    }
  }

  /** When every failing entry fails with the same exception class, the class
      raised does not depend on the iteration order. */
  lemma FirstFailureKind<T>(items: seq<T>, order: seq<nat>, check: T -> Option<Error>, kind: ErrorKind)
    requires IsIterationOrder(order, |items|)
    requires forall j :: 0 <= j < |items| && check(items[j]).Some? ==> check(items[j]).value.kind == kind
    ensures FirstFailure(items, order, check).Some? ==> FirstFailure(items, order, check).value.kind == kind
  {
    FirstFailureSpec(items, order, check);
  }

  /** The validation loop itself: visit the entries in `order`, stopping at
      the first one whose check raises. */
  method Validate<T>(items: seq<T>, order: seq<nat>, check: T -> Option<Error>) returns (e: Option<Error>)
    requires IsIterationOrder(order, |items|)
    ensures e.None? <==> forall j :: 0 <= j < |items| ==> check(items[j]).None?
    ensures e.Some? ==> exists j :: 0 <= j < |items| && check(items[j]) == e
    ensures e == FirstFailure(items, order, check)
  {
    FirstFailureSpec(items, order, check);
    var i := 0;
    while i < |order|
      invariant 0 <= i <= |order|
      invariant FirstFailure(items, order, check) == FirstFailure(items, order[i..], check)
    {
      var failure := check(items[order[i]]);
      if failure.Some? {
        return failure;
      }
      assert order[i..][1..] == order[i + 1..];
      i := i + 1;
    }
    return None;
  }
}
