/** The selection and query-string rules the team and project views share. A view keeps one
    selected parent (a team or a project) whose id also stands in the URL under `key`. */
module Selection {
  import opened Wrappers
  import opened Lists
  import opened Query

  /** The query a view writes while a parent is selected: the non-empty filters, then `key=id`. */
  function SelectionQuery(entries: seq<(string, string)>, key: string, id: string): (p: Params)
    requires DistinctKeys(entries)
    ensures Get(p, key) == Some(id)
    ensures forall k :: k != key ==> GetOrEmpty(p, k) == GetOrEmpty(entries, k)
    ensures forall k :: k != key ==> (Get(p, k).Some? <==> GetOrEmpty(entries, k) != "")
  {
    var base := NonEmpty(entries);
    forall k ensures GetOrEmpty(base, k) == GetOrEmpty(entries, k)
      ensures Get(base, k).Some? <==> GetOrEmpty(entries, k) != "" {
      GetNonEmpty(entries, k);
    }
    Set(base, key, id)
  }

  function IdIs<T>(idOf: T -> string, id: string): T -> bool { (x: T) => idOf(x) == id }

  /** The URL effect: no (or an empty) id clears the selection; a known id selects the first
      parent with that id; an unknown id leaves the selection as it was. */
  function ResolveSelection<T(!new)>(raw: Option<string>, items: seq<T>, idOf: T -> string, current: Option<T>): (r: Option<T>)
    ensures raw.None? || raw == Some("") ==> r.None?
    ensures raw.Some? && raw.value != "" && (exists x :: x in items && idOf(x) == raw.value) ==>
      r.Some? && r.value in items && idOf(r.value) == raw.value
    ensures raw.Some? && raw.value != "" && (forall x :: x in items ==> idOf(x) != raw.value) ==> r == current
  {
    match raw
    case None => None
    case Some(id) =>
      if id == "" then None
      else match FindFirst(items, IdIs(idOf, id))
        case Some(x) => Some(x)
        case None => current
  }

  /** Clicking a parent card: the selected one is deselected, any other becomes selected. */
  function ClickSelection<T>(current: Option<T>, clicked: T, idOf: T -> string): (r: Option<T>)
    ensures r.None? <==> current.Some? && idOf(current.value) == idOf(clicked)
    ensures r.Some? ==> r == Some(clicked)
  {
    if current.Some? && idOf(current.value) == idOf(clicked) then None else Some(clicked)
  }

  /** No parent id was written after a deselection, so the URL effect that follows clears the selection too. */
  lemma ResolveAfterDeselect<T(!new)>(items: seq<T>, idOf: T -> string, current: Option<T>, key: string)
    ensures ResolveSelection(Get([], key), items, idOf, current).None?
  {
  }

  /** After a selection has written its query, the URL effect that follows selects a parent with the same id:
      the filter and click reactions never undo one another. */
  lemma ResolveAfterSelect<T(!new)>(entries: seq<(string, string)>, key: string, items: seq<T>, idOf: T -> string, chosen: T)
    requires DistinctKeys(entries)
    requires chosen in items && idOf(chosen) != ""
    ensures var r := ResolveSelection(Get(SelectionQuery(entries, key, idOf(chosen)), key), items, idOf, Some(chosen));
      r.Some? && idOf(r.value) == idOf(chosen)
  {
  }
}
