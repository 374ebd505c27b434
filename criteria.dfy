/** The per-field task criteria the team and project views combine. An empty criterion imposes nothing. */
module Criteria {
  import opened Wrappers
  import opened Records
  import Text

  /** `tags.split(',').map(tag => tag.trim())`. */
  function FilterTags(tags: string): (r: seq<string>)
    ensures |r| == |Text.Split(tags, ',')| >= 1
    ensures forall i :: 0 <= i < |r| ==> r[i] == Text.Trim(Text.Split(tags, ',')[i])
  {
    TrimAll(Text.Split(tags, ','))
  }

  function TrimAll(parts: seq<string>): (r: seq<string>)
    ensures |r| == |parts|
    ensures forall i :: 0 <= i < |r| ==> r[i] == Text.Trim(parts[i])
  {
    if parts == [] then [] else [Text.Trim(parts[0])] + TrimAll(parts[1..])
  }

  /** `wanted.some(tag => have.includes(tag))`. */
  function SomeIncluded(wanted: seq<string>, have: seq<string>): (b: bool)
    ensures b <==> exists tag :: tag in wanted && tag in have
  {
    if wanted == [] then false
    else
      assert forall tag :: tag in wanted <==> tag == wanted[0] || tag in wanted[1..];
      wanted[0] in have || SomeIncluded(wanted[1..], have)
  }

  /** `task.owners && task.owners.includes(owner)`. */
  predicate HasOwner(t: Task, owner: string) {
    t.owners.Some? && owner in t.owners.value
  }

  /** `task.tags && filterTags.some(tag => task.tags.includes(tag))`. */
  predicate HasAnyTag(t: Task, wanted: seq<string>) {
    t.tags.Some? && SomeIncluded(wanted, t.tags.value)
  }

  /** The owner filter step as a predicate value. */
  function OwnerIs(owner: string): Task -> bool { (t: Task) => HasOwner(t, owner) }

  /** The tags filter step as a predicate value. */
  function TagsAny(wanted: seq<string>): Task -> bool { (t: Task) => HasAnyTag(t, wanted) }

  predicate OwnerCriterion(t: Task, owner: string) {
    owner == "" || HasOwner(t, owner)
  }

  predicate StatusCriterion(t: Task, status: string) {
    status == "" || t.status == status
  }

  predicate TagsCriterion(t: Task, tags: string) {
    tags == "" || HasAnyTag(t, FilterTags(tags))
  }

  /** A task without tags never passes a non-empty tags criterion. */
  lemma UntaggedDropped(t: Task, tags: string)
    requires tags != ""
    requires t.tags.None? || t.tags == Some([])
    ensures !TagsCriterion(t, tags)
  {
  }
}
