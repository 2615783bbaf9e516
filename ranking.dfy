/** Ranking of executions by their `updated` timestamp, most recent first:
    the `executions.sort((a, b) => b.updated - a.updated)` step of the
    execution table. The library sort is stable; so is this insertion sort. */
module Ranking {
  import opened Types

  predicate SortedByUpdated(s: seq<Execution>)
  {
    forall i, j :: 0 <= i < j < |s| ==> s[i].updated >= s[j].updated
  }

  /** Inserts `e` ahead of the first execution it is at least as recent as. */
  function InsertByUpdated(e: Execution, s: seq<Execution>): (r: seq<Execution>)
    ensures multiset(r) == multiset(s) + multiset{e}
    ensures |r| == |s| + 1
  {
    if s == [] then [e]
    else if e.updated >= s[0].updated then [e] + s
    else
      assert s == [s[0]] + s[1..];
      [s[0]] + InsertByUpdated(e, s[1..])
  }

  /** Insertion keeps a list ranked. */
  lemma {:induction false} InsertKeepsSorted(e: Execution, s: seq<Execution>)
    requires SortedByUpdated(s)
    ensures SortedByUpdated(InsertByUpdated(e, s))
    decreases |s|
  {
    if s == [] {
    } else if e.updated >= s[0].updated {
      assert forall y | y in s :: y.updated <= e.updated by {
        forall y | y in s
          ensures y.updated <= e.updated
        {
          var k :| 0 <= k < |s| && s[k] == y;
          assert k == 0 || s[0].updated >= s[k].updated;
        }
      }
      PrependSorted(e, s);
    } else {
      var rest := InsertByUpdated(e, s[1..]);
      InsertKeepsSorted(e, s[1..]);
      assert forall x | x in rest :: x.updated <= s[0].updated by {
        forall x | x in rest
          ensures x.updated <= s[0].updated
        {
          assert x in multiset(rest);
          assert x == e || x in s[1..];
        }
      }
      PrependSorted(s[0], rest);
    }
  }

  /** An execution at least as recent as all of a ranked list can head it. */
  lemma PrependSorted(x: Execution, s: seq<Execution>)
    requires SortedByUpdated(s)
    requires forall y | y in s :: y.updated <= x.updated
    ensures SortedByUpdated([x] + s)
  {
    forall i, j | 0 <= i < j < |[x] + s|
      ensures ([x] + s)[i].updated >= ([x] + s)[j].updated
    {
      if i > 0 {
        assert ([x] + s)[i] == s[i - 1];
      }
      assert ([x] + s)[j] == s[j - 1];
      assert s[j - 1] in s;
    }
  }

  function SortByUpdated(s: seq<Execution>): (r: seq<Execution>)
    ensures SortedByUpdated(r)
    ensures multiset(r) == multiset(s)
    ensures |r| == |s|
  {
    if s == [] then []
    else
      assert s == [s[0]] + s[1..];
      InsertKeepsSorted(s[0], SortByUpdated(s[1..]));
      InsertByUpdated(s[0], SortByUpdated(s[1..]))
  }

  /** In a list ranked by `updated`, the first execution with a given status is
      a most recently updated one among those with that status. */
  lemma FirstIsLatest(s: seq<Execution>, st: TrainingStatus, i: nat)
    requires SortedByUpdated(s)
    requires i < |s| && s[i].status == st
    requires forall j :: 0 <= j < i ==> s[j].status != st
    ensures forall j :: 0 <= j < |s| && s[j].status == st ==> s[j].updated <= s[i].updated
  {
  }

  /** `Array.prototype.find` on a status: the first execution with it. */
  method FindFirstWithStatus(s: seq<Execution>, st: TrainingStatus) returns (found: Option<Execution>)
    ensures found.None? <==> forall j :: 0 <= j < |s| ==> s[j].status != st
    ensures found.Some? ==> exists i :: 0 <= i < |s| && s[i] == found.value && s[i].status == st && forall j :: 0 <= j < i ==> s[j].status != st
  {
    var i := 0;
    while i < |s|
      invariant 0 <= i <= |s|
      invariant forall j :: 0 <= j < i ==> s[j].status != st
    {
      if s[i].status == st {
        return Some(s[i]);
      }
      i := i + 1;
    }
    return None;
  }
}
