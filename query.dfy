/** A query string as `URLSearchParams` holds it: an ordered list of name/value pairs. */
module Query {
  import opened Wrappers
  import opened Lists
  import Text

  type Params = seq<(string, string)>

  /** `params.get(k)`: the value of the first pair named `k`. */
  function Get(p: Params, k: string): (r: Option<string>)
    ensures r.None? <==> forall i :: 0 <= i < |p| ==> p[i].0 != k
    ensures r.Some? ==> (k, r.value) in p
  {
    if p == [] then None else if p[0].0 == k then Some(p[0].1) else Get(p[1..], k)
  }

  /** The value of the first pair named `k` is what `get` returns. */
  lemma {:induction false} GetFirst(p: Params, k: string, i: nat)
    requires i < |p| && p[i].0 == k
    requires forall j :: 0 <= j < i ==> p[j].0 != k
    ensures Get(p, k) == Some(p[i].1)
  {
    if i > 0 {
      GetFirst(p[1..], k, i - 1);
    }
  }

  /** `params.get(k) || ''`: a missing parameter reads as the empty string. */
  function GetOrEmpty(p: Params, k: string): string {
    Get(p, k).GetOr("")
  }

  /** No name occurs twice, as for the entries of a JavaScript object. */
  predicate DistinctKeys(p: Params) {
    forall i, j :: 0 <= i < j < |p| ==> p[i].0 != p[j].0
  }

  function KeyIsNot(k: string): ((string, string)) -> bool { (e: (string, string)) => e.0 != k }

  /** Replaces the value of the first pair named `k` and drops the later pairs named `k`. */
  function ReplaceFirst(p: Params, k: string, v: string): (r: Params)
    requires Get(p, k).Some?
    ensures Get(r, k) == Some(v)
    ensures forall k' :: k' != k ==> Get(r, k') == Get(p, k')
    ensures forall i :: 0 <= i < |r| && r[i].0 == k ==> r[i] == (k, v)
  {
    if p[0].0 == k then
      var rest := Filter(p[1..], KeyIsNot(k));
      GetFiltered(p[1..], k);
      [(k, v)] + rest
    else [p[0]] + ReplaceFirst(p[1..], k, v)
  }

  /** Dropping the pairs named `k` leaves every other name's lookup alone. */
  lemma {:induction false} GetFiltered(p: Params, k: string)
    ensures Get(Filter(p, KeyIsNot(k)), k).None?
    ensures forall k' :: k' != k ==> Get(Filter(p, KeyIsNot(k)), k') == Get(p, k')
  {
    if p != [] {
      GetFiltered(p[1..], k);
      var rest := Filter(p[1..], KeyIsNot(k));
      if p[0].0 == k {
        assert Filter(p, KeyIsNot(k)) == rest;
      } else {
        assert Filter(p, KeyIsNot(k)) == [p[0]] + rest;
        assert ([p[0]] + rest)[1..] == rest;
      }
    }
  }

  /** `params.set(k, v)`: afterwards `k` maps to `v` and every other name is unaffected. */
  function Set(p: Params, k: string, v: string): (r: Params)
    ensures Get(r, k) == Some(v)
    ensures forall k' :: k' != k ==> Get(r, k') == Get(p, k')
    ensures Get(p, k).None? ==> r == p + [(k, v)]
  {
    if Get(p, k).None? then
      GetAppend(p, k, v);
      p + [(k, v)]
    else ReplaceFirst(p, k, v)
  }

  /** Appending a pair with a new name: that name now maps to the pair's value, others are unaffected. */
  lemma {:induction false} GetAppend(p: Params, k: string, v: string)
    requires Get(p, k).None?
    ensures Get(p + [(k, v)], k) == Some(v)
    ensures forall k' :: k' != k ==> Get(p + [(k, v)], k') == Get(p, k')
  {
    if p != [] {
      assert (p + [(k, v)])[1..] == p[1..] + [(k, v)];
      GetAppend(p[1..], k, v);
    } else {
      assert p + [(k, v)] == [(k, v)];
    }
  }

  /** The pair has a truthy (non-empty) value. */
  function HasValue(): ((string, string)) -> bool { (e: (string, string)) => e.1 != "" }

  /** The pairs of `entries` whose value is not empty, in order. */
  function NonEmpty(entries: seq<(string, string)>): Params {
    Filter(entries, HasValue())
  }

  /** The `Object.entries(...).forEach(([k, v]) => { if (v) params.set(k, v) })` loop. */
  method SetNonEmpty(entries: seq<(string, string)>) returns (p: Params)
    requires DistinctKeys(entries)
    ensures p == NonEmpty(entries)
  {
    p := [];
    var i := 0;
    while i < |entries|
      invariant 0 <= i <= |entries|
      invariant p == NonEmpty(entries[..i])
    {
      var (k, v) := entries[i];
      assert entries[..i + 1] == entries[..i] + [entries[i]];
      FilterAppend(entries[..i], [entries[i]], HasValue());
      if v != "" {
        assert Get(p, k).None? by {
          forall j | 0 <= j < |p| ensures p[j].0 != k {
            assert p[j] in entries[..i];
          }
        }
        p := Set(p, k, v);
      }
      i := i + 1;
    }
    assert entries[..i] == entries;
  }

  /** Reading a name back from the non-empty entries gives its value when that is non-empty. */
  lemma {:induction false} GetNonEmpty(entries: seq<(string, string)>, k: string)
    requires DistinctKeys(entries)
    ensures GetOrEmpty(NonEmpty(entries), k) == GetOrEmpty(entries, k)
    ensures Get(NonEmpty(entries), k) == if GetOrEmpty(entries, k) == "" then None else Get(entries, k)
  {
    if entries != [] {
      GetNonEmpty(entries[1..], k);
      if entries[0].0 == k {
        assert Get(entries[1..], k).None? by {
          forall i | 0 <= i < |entries[1..]| ensures entries[1..][i].0 != k {
            assert entries[1..][i] == entries[i + 1];
          }
        }
      }
    }
  }

  /** One `name=value` piece of a query string. */
  function Piece(e: (string, string)): string {
    e.0 + "=" + e.1
  }

  function Pieces(p: Params): (r: seq<string>)
    ensures |r| == |p|
    ensures forall i :: 0 <= i < |p| ==> r[i] == Piece(p[i])
  {
    if p == [] then [] else [Piece(p[0])] + Pieces(p[1..])
  }

  /** `params.toString()`, leaving out percent-encoding: the pieces joined with `&`. */
  function Serialize(p: Params): (q: string)
    ensures q == "" <==> p == []
  {
    if p == [] then "" else
      var r := Text.Join(Pieces(p), '&');
      JoinNonEmpty(Pieces(p));
      r
  }

  lemma {:induction false} JoinNonEmpty(parts: seq<string>)
    requires parts != [] && parts[0] != ""
    ensures Text.Join(parts, '&') != ""
  {
  }

  predicate NonEmptyText(s: string) { s != "" }

  /** Reads one `name=value` piece; a piece without `=` has the empty value. */
  function ParsePiece(s: string): (string, string) {
    var parts := Text.Split(s, '=');
    (parts[0], if |parts| > 1 then Text.Join(parts[1..], '=') else "")
  }

  function ParsePieces(pieces: seq<string>): (r: Params)
    ensures |r| == |pieces|
  {
    if pieces == [] then [] else [ParsePiece(pieces[0])] + ParsePieces(pieces[1..])
  }

  /** `new URLSearchParams(q)` without percent-decoding: empty pieces between `&` are skipped. */
  function Parse(q: string): Params {
    ParsePieces(Filter(Text.Split(q, '&'), NonEmptyText))
  }

  /** Names and values contain neither `&` nor `=`, so no percent-encoding would be needed. */
  predicate Plain(p: Params) {
    forall i :: 0 <= i < |p| ==> '&' !in p[i].0 && '=' !in p[i].0 && '&' !in p[i].1 && '=' !in p[i].1
  }

  /** Parsing a serialised query string gives back the same pairs. */
  lemma ParseSerialize(p: Params)
    requires Plain(p)
    ensures Parse(Serialize(p)) == p
  {
    var pieces := Pieces(p);
    if p == [] {
      assert Text.Split("", '&') == [""];
    } else {
      forall i | 0 <= i < |pieces| ensures '&' !in pieces[i] {
        assert pieces[i] == p[i].0 + "=" + p[i].1;
      }
      Text.SplitJoin(pieces, '&');
      FilterAll(pieces, NonEmptyText);
      PiecesRoundTrip(p);
    }
  }

  lemma {:induction false} PiecesRoundTrip(p: Params)
    requires Plain(p)
    ensures ParsePieces(Pieces(p)) == p
  {
    if p != [] {
      var (k, v) := p[0];
      Text.SplitFree(v, '=');
      Text.SplitPrefix(k, v, '=');
      assert k + "=" + v == k + ['='] + v;
      assert Text.Split(Piece(p[0]), '=') == [k, v];
      assert Plain(p[1..]) by {
        forall i | 0 <= i < |p[1..]| ensures '&' !in p[1..][i].0 {
          assert p[1..][i] == p[i + 1];
        }
      }
      PiecesRoundTrip(p[1..]);
    }
  }
}
