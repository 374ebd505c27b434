/** Sorting task lists in place by one field, ascending or descending (`array.sort(comparator)`). */
module Sorting {
  import opened Records
  import Text

  /** The fields a task list can be sorted by; dates compare as instants. */
  datatype SortField = CreatedAt | UpdatedAt | TimeToComplete | Name

  /** `a` is not after `b` in the ascending order of `field`. */
  predicate KeyLe(a: Task, b: Task, field: SortField) {
    match field
    case CreatedAt => a.createdAt <= b.createdAt
    case UpdatedAt => a.updatedAt <= b.updatedAt
    case TimeToComplete => a.timeToComplete <= b.timeToComplete
    case Name => Text.StrLe(a.name, b.name)
  }

  /** `a` may stand before `b` in the requested direction. */
  predicate InOrder(a: Task, b: Task, field: SortField, descending: bool) {
    if descending then KeyLe(b, a, field) else KeyLe(a, b, field)
  }

  predicate Sorted(s: seq<Task>, field: SortField, descending: bool) {
    forall i, j :: 0 <= i < j < |s| ==> InOrder(s[i], s[j], field, descending)
  }

  predicate AdjacentSorted(s: seq<Task>, field: SortField, descending: bool) {
    forall k :: 0 < k < |s| ==> InOrder(s[k - 1], s[k], field, descending)
  }

  lemma InOrderTotal(a: Task, b: Task, field: SortField, descending: bool)
    ensures InOrder(a, b, field, descending) || InOrder(b, a, field, descending)
  {
    if field == Name {
      Text.StrLeTotal(a.name, b.name);
    }
  }

  lemma InOrderTrans(a: Task, b: Task, c: Task, field: SortField, descending: bool)
    requires InOrder(a, b, field, descending) && InOrder(b, c, field, descending)
    ensures InOrder(a, c, field, descending)
  {
    if field == Name {
      if descending {
        Text.StrLeTrans(c.name, b.name, a.name);
      } else {
        Text.StrLeTrans(a.name, b.name, c.name);
      }
    }
  }

  /** Neighbours in order means every pair in order. */
  lemma {:induction false} AdjacentToSorted(s: seq<Task>, field: SortField, descending: bool)
    requires AdjacentSorted(s, field, descending)
    ensures Sorted(s, field, descending)
  {
    if |s| > 1 {
      var t := s[..|s| - 1];
      assert AdjacentSorted(t, field, descending) by {
        forall k | 0 < k < |t| ensures InOrder(t[k - 1], t[k], field, descending) {
          assert t[k - 1] == s[k - 1] && t[k] == s[k];
        }
      }
      AdjacentToSorted(t, field, descending);
      forall i, j | 0 <= i < j < |s| ensures InOrder(s[i], s[j], field, descending) {
        if j < |s| - 1 {
          assert s[i] == t[i] && s[j] == t[j];
        } else if i < j - 1 {
          assert s[i] == t[i] && s[j - 1] == t[j - 1];
          InOrderTrans(s[i], s[j - 1], s[j], field, descending);
        }
      }
    }
  }

  /** The neighbours of `a` between positions `lo` and `hi` (inclusive) are in order. */
  predicate OrderedBetween(a: array<Task>, lo: int, hi: int, field: SortField, descending: bool)
    reads a
  {
    forall k :: lo < k <= hi && 0 < k < a.Length ==> InOrder(a[k - 1], a[k], field, descending)
  }

  /** Exchanges two neighbours. */
  method SwapDown(a: array<Task>, j: int)
    requires 0 < j < a.Length
    modifies a
    ensures a[j - 1] == old(a[j]) && a[j] == old(a[j - 1])
    ensures forall k :: 0 <= k < a.Length && k != j - 1 && k != j ==> a[k] == old(a[k])
    ensures multiset(a[..]) == multiset(old(a[..]))
  {
    a[j - 1], a[j] := a[j], a[j - 1];
  }

  /** Moves `a[i]` down into the ordered prefix `a[..i]`, so that `a[..i + 1]` is ordered. */
  method InsertDown(a: array<Task>, i: int, field: SortField, descending: bool)
    requires 0 < i < a.Length
    requires OrderedBetween(a, 0, i - 1, field, descending)
    modifies a
    ensures OrderedBetween(a, 0, i, field, descending)
    ensures multiset(a[..]) == multiset(old(a[..]))
  {
    var j := i;
    while j > 0 && !InOrder(a[j - 1], a[j], field, descending)
      invariant 0 <= j <= i
      invariant OrderedBetween(a, 0, j - 1, field, descending)
      invariant OrderedBetween(a, j + 1, i, field, descending)
      invariant 0 < j < i ==> InOrder(a[j - 1], a[j + 1], field, descending)
      invariant j < i ==> InOrder(a[j], a[j + 1], field, descending)
      invariant multiset(a[..]) == multiset(old(a[..]))
    {
      InOrderTotal(a[j - 1], a[j], field, descending);
      SwapDown(a, j);
      j := j - 1;
    }
  }

  /** Insertion sort: afterwards `a` is ordered by `field` and holds a permutation of what it held. */
  method SortTasks(a: array<Task>, field: SortField, descending: bool)
    modifies a
    ensures Sorted(a[..], field, descending)
    ensures multiset(a[..]) == multiset(old(a[..]))
  {
    var i := 1;
    while i < a.Length
      invariant a.Length == 0 || 1 <= i <= a.Length
      invariant OrderedBetween(a, 0, i - 1, field, descending)
      invariant multiset(a[..]) == multiset(old(a[..]))
    {
      InsertDown(a, i, field, descending);
      i := i + 1;
    }
    assert AdjacentSorted(a[..], field, descending);
    AdjacentToSorted(a[..], field, descending);
  }
}
