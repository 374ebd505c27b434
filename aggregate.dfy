/** The aggregate status of a project or team, derived from its tasks, and its completion percentage. */
module Aggregate {
  import opened Lists
  import opened Records

  /** The `{ status, class }` object the status functions return. */
  datatype StatusBadge = StatusBadge(status: string, badgeClass: string)

  function CompletedCount(tasks: seq<Task>): nat {
    Count(tasks, HasStatus(Completed))
  }

  /** The completed count is positive exactly when some task is completed. */
  lemma CompletedCountPositive(tasks: seq<Task>)
    ensures CompletedCount(tasks) > 0 <==> exists t :: t in tasks && t.status == Completed
  {
    var f := Filter(tasks, HasStatus(Completed));
    if |f| > 0 {
      assert f[0] in f;
    }
  }

  /** The four-way rule: no tasks; all completed; some completed; none completed. */
  function AggregateStatus(tasks: seq<Task>): (b: StatusBadge)
    ensures b.status == "No Tasks" <==> tasks == []
    ensures b.status == "Completed" <==> tasks != [] && forall t :: t in tasks ==> t.status == Completed
    ensures b.status == "In Progress" <==>
      (exists t :: t in tasks && t.status == Completed) && (exists t :: t in tasks && t.status != Completed)
    ensures b.status == "Active" <==> tasks != [] && forall t :: t in tasks ==> t.status != Completed
    ensures b.badgeClass == match b.status
      case "No Tasks" => "bg-secondary"
      case "Completed" => "bg-success"
      case "In Progress" => "bg-warning"
      case _ => "bg-primary"
  {
    CountAll(tasks, HasStatus(Completed));
    CompletedCountPositive(tasks);
    assert tasks != [] ==> tasks[0] in tasks;
    BadgeOf(CompletedCount(tasks), |tasks|)
  }

  /** The rule on the two counts alone. */
  function BadgeOf(completed: nat, total: nat): StatusBadge {
    if total == 0 then StatusBadge("No Tasks", "bg-secondary")
    else if completed == total then StatusBadge("Completed", "bg-success")
    else if completed > 0 then StatusBadge("In Progress", "bg-warning")
    else StatusBadge("Active", "bg-primary")
  }

  /** The status does not depend on the order of the tasks. */
  lemma AggregatePermutation(a: seq<Task>, b: seq<Task>)
    requires multiset(a) == multiset(b)
    ensures AggregateStatus(a) == AggregateStatus(b)
    ensures CompletionPercentage(a) == CompletionPercentage(b)
  {
    FilterPermutation(a, b, HasStatus(Completed));
    assert |a| == |multiset(a)| == |multiset(b)| == |b|;
    assert CompletedCount(a) == CompletedCount(b);
  }

  /** `Math.round(completed / total * 100)`, or 0 without tasks. */
  function CompletionPercentage(tasks: seq<Task>): (pct: nat)
    ensures pct <= 100
    ensures tasks == [] ==> pct == 0
    ensures tasks != [] ==>
      var exact := 100.0 * CompletedCount(tasks) as real / |tasks| as real;
      pct as real <= exact + 0.5 < pct as real + 1.0
  {
    var total := |tasks|;
    var completed := CompletedCount(tasks);
    if total == 0 then Percent(completed, total)
    else
      RoundBounds(completed, total, Percent(completed, total));
      Percent(completed, total)
  }

  /** The rounding on the two counts alone. */
  function Percent(completed: nat, total: nat): int {
    if total == 0 then 0 else (200 * completed + total) / (2 * total)
  }

  /** `q` is the integer nearest to 100 * c / t, halves rounded up. */
  lemma RoundBounds(c: nat, t: nat, q: int)
    requires 0 < t && c <= t
    requires q == (200 * c + t) / (2 * t)
    ensures 0 <= q <= 100
    ensures q as real <= 100.0 * c as real / t as real + 0.5 < q as real + 1.0
  {
    var n := 200 * c + t;
    var d := 2 * t;
    DivBounds(n, d);
    assert q * d <= n < q * d + d;
    assert n < 101 * d;
    QuotientBelow(q, d, n, 101);
    RealQuotient(n, d, q);
    ScaleFraction(c, t);
  }

  /** A quotient bounded by `k * d` from above is below `k`. */
  lemma QuotientBelow(q: int, d: nat, n: int, k: int)
    requires 0 < d && q * d <= n < k * d
    ensures q < k
  {
    if q >= k {
      MulMonotone(k, q, d);
    }
  }

  lemma MulMonotone(a: int, b: int, d: nat)
    requires a <= b
    ensures a * d <= b * d
  {
    assert b * d == a * d + (b - a) * d;
  }

  lemma DivBounds(n: nat, d: nat)
    requires 0 < d
    ensures n / d * d <= n < n / d * d + d
  {
    assert n == d * (n / d) + n % d;
  }

  /** Dividing by `b` undoes multiplying by `b`. */
  lemma DivUnique(a: real, b: real, c: real)
    requires b != 0.0 && a * b == c
    ensures a == c / b
  {
  }

  /** The integer bounds of a quotient carry over to the reals. */
  lemma RealQuotient(n: nat, d: nat, q: int)
    requires 0 < d
    requires q * d <= n < q * d + d
    ensures q as real <= n as real / d as real < q as real + 1.0
  {
    var nr, dr, qr := n as real, d as real, q as real;
    var x := nr / dr;
    DivUnique(x, dr, nr);
    var lo, hi := q * d, (q + 1) * d;
    assert hi == q * d + d;
    CastMul(q, d);
    CastMul(q + 1, d);
    assert lo as real <= nr < hi as real;
    assert lo as real == qr * dr;
    assert hi as real == (qr + 1.0) * dr;
    MulCancel(qr, x, dr);
    MulCancelStrict(x, qr + 1.0, dr);
  }

  lemma CastMul(a: int, b: int)
    ensures (a * b) as real == a as real * b as real
  {
  }

  lemma MulCancel(a: real, b: real, c: real)
    requires c > 0.0 && a * c <= b * c
    ensures a <= b
  {
  }

  lemma MulCancelStrict(a: real, b: real, c: real)
    requires c > 0.0 && a * c < b * c
    ensures a < b
  {
  }

  lemma ScaleFraction(c: nat, t: nat)
    requires 0 < t
    ensures 100.0 * c as real / t as real + 0.5 == (200 * c + t) as real / (2 * t) as real
  {
    var cr, tr := c as real, t as real;
    var y := 100.0 * cr / tr;
    DivUnique(y, tr, 100.0 * cr);
    assert (y + 0.5) * (2.0 * tr) == 2.0 * (y * tr) + tr;
    DivUnique(y + 0.5, 2.0 * tr, 200.0 * cr + tr);
  }

  /** A "Completed" team or project shows 100 percent, an "Active" one 0 percent. */
  lemma PercentageMatchesStatus(tasks: seq<Task>)
    ensures AggregateStatus(tasks).status == "Completed" ==> CompletionPercentage(tasks) == 100
    ensures AggregateStatus(tasks).status == "Active" ==> CompletionPercentage(tasks) == 0
  {
    CountAll(tasks, HasStatus(Completed));
    CompletedCountPositive(tasks);
    var t := |tasks|;
    if t > 0 {
      var pct := CompletionPercentage(tasks);
      var exact := 100.0 * CompletedCount(tasks) as real / t as real;
      if CompletedCount(tasks) == t {
        DivUnique(100.0, t as real, 100.0 * t as real);
      }
    }
  }
}
