/** Status badges and the priority bands derived from `timeToComplete`. */
module Badges {
  import opened Records

  /** `getStatusBadgeClass(status)`: the badge colour of a task status. */
  function StatusBadgeClass(status: string): (c: string)
    ensures c == "bg-success" <==> status == Completed
    ensures c == "bg-warning" <==> status == InProgress
    ensures c == "bg-danger" <==> status == Blocked
    ensures c == "bg-secondary" <==> status != Completed && status != InProgress && status != Blocked
  {
    if status == Completed then "bg-success"
    else if status == InProgress then "bg-warning"
    else if status == Blocked then "bg-danger"
    else "bg-secondary"
  }

  /** The priority a task's duration implies: at most one day is Low, at most three Medium, longer High. */
  datatype Priority = Low | Medium | High

  function PriorityOf(days: real): Priority {
    if days <= 1.0 then Low else if days <= 3.0 then Medium else High
  }

  function Rank(p: Priority): nat {
    match p
    case Low => 0
    case Medium => 1
    case High => 2
  }

  /** A longer task never has a lower priority. */
  lemma PriorityMonotone(a: real, b: real)
    requires a <= b
    ensures Rank(PriorityOf(a)) <= Rank(PriorityOf(b))
  {
  }

  function ColorOf(p: Priority): string {
    match p
    case Low => "text-success"
    case Medium => "text-warning"
    case High => "text-danger"
  }

  function LabelOf(p: Priority): string {
    match p
    case Low => "Low Priority"
    case Medium => "Medium Priority"
    case High => "High Priority"
  }

  /** `getPriorityColor(timeToComplete)`: the colour of the task's priority band. */
  function PriorityColor(days: real): (c: string)
    ensures c == ColorOf(PriorityOf(days))
    ensures c == "text-success" <==> days <= 1.0
    ensures c == "text-danger" <==> days > 3.0
  {
    if days <= 1.0 then "text-success"
    else if days <= 3.0 then "text-warning"
    else "text-danger"
  }

  /** The priority caption of the task details sidebar: the name of the task's priority band. */
  function PriorityLabel(days: real): (l: string)
    ensures l == LabelOf(PriorityOf(days))
    ensures l == "Low Priority" <==> PriorityColor(days) == "text-success"
    ensures l == "Medium Priority" <==> PriorityColor(days) == "text-warning"
    ensures l == "High Priority" <==> PriorityColor(days) == "text-danger"
  {
    if days <= 1.0 then "Low Priority"
    else if days <= 3.0 then "Medium Priority"
    else "High Priority"
  }
}
