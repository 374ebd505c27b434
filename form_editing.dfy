/** The list-editing helpers of the task forms: toggling an owner or a tag, adding a new tag,
    and filling in the default owner when a task is submitted. */
module FormEditing {
  import opened Lists
  import opened Records
  import Text

  /** `y => y !== x` */
  function NotEqual(x: string): string -> bool { (y: string) => y != x }

  /** `list.includes(x) ? list.filter(y => y !== x) : [...list, x]`: a present value is removed
      with every repetition of it, an absent one is appended at the end. */
  function Toggle(list: seq<string>, x: string): (r: seq<string>)
    ensures x in r <==> x !in list
    ensures forall y :: y != x ==> (y in r <==> y in list)
    ensures x !in list ==> r == list + [x]
    ensures x in list ==> |r| < |list|
  {
    if x in list then
      FilterShrinks(list, NotEqual(x), x);
      Filter(list, NotEqual(x))
    else list + [x]
  }

  /** Dropping an element that is present makes the sequence strictly shorter. */
  lemma {:induction false} FilterShrinks(s: seq<string>, p: string -> bool, x: string)
    requires x in s && !p(x)
    ensures |Filter(s, p)| < |s|
  {
    assert s == [s[0]] + s[1..];
    if s[0] != x {
      FilterShrinks(s[1..], p, x);
    }
  }

  /** Toggling an absent value twice gives back the original list. */
  lemma ToggleTwiceAbsent(list: seq<string>, x: string)
    requires x !in list
    ensures Toggle(Toggle(list, x), x) == list
  {
    FilterAppend(list, [x], NotEqual(x));
    FilterAll(list, NotEqual(x));
    assert Filter([x], NotEqual(x)) == [];
  }

  /** Toggling a present value twice drops all its repetitions and puts a single copy last. */
  lemma ToggleTwicePresent(list: seq<string>, x: string)
    requires x in list
    ensures Toggle(Toggle(list, x), x) == Filter(list, NotEqual(x)) + [x]
  {
  }

  /** `newTag.trim() && !availableTags.includes(newTag.trim())`. */
  predicate AcceptsNewTag(raw: string, available: seq<string>) {
    Text.Trim(raw) != "" && Text.Trim(raw) !in available
  }

  /** After a tag is added, the same input is refused: adding is idempotent. */
  lemma AddTagOnce(raw: string, available: seq<string>)
    requires AcceptsNewTag(raw, available)
    ensures !AcceptsNewTag(raw, available + [Text.Trim(raw)])
    ensures !AcceptsNewTag("", available + [Text.Trim(raw)])
  {
    assert Text.Trim(raw) in available + [Text.Trim(raw)];
  }

  /** The submitted task data: whatever the form holds, with `[userId]` standing in for an empty owner list. */
  function WithDefaultOwner(form: TaskForm, userId: string): (r: TaskForm)
    ensures r.owners != []
    ensures form.owners != [] ==> r == form
    ensures form.owners == [] ==> r == form.(owners := [userId])
  {
    if |form.owners| > 0 then form else form.(owners := [userId])
  }
}
