/**
 * Helpers the recipe and product repositories share, letter for letter: turning
 * a plain field dict into a `$set` update, and validating a sort specification.
 * These helpers shape a request and stand alone: the stores elsewhere model each
 * update by its effect on the documents, not through these helpers.
 */
module Repository {
  import opened Wrappers
  import opened Text

  /** Some top-level key is an update operator (starts with `$`). */
  predicate HasOperator<V>(u: seq<(string, V)>) {
    exists i :: 0 <= i < |u| && StartsWith(u[i].0, "$")
  }

  /**
   * `_wrap_update`: an update that already uses an operator passes unchanged;
   * anything else becomes `{"$set": update}` (`asDoc` embeds the dict as a value).
   */
  function WrapUpdate<V>(u: seq<(string, V)>, asDoc: seq<(string, V)> -> V): (r: seq<(string, V)>)
    ensures HasOperator(r)
    ensures HasOperator(u) ==> r == u
    ensures !HasOperator(u) ==> r == [("$set", asDoc(u))]
  {
    if exists i :: 0 <= i < |u| && StartsWith(u[i].0, "$") then u
    else
      var r := [("$set", asDoc(u))];
      assert StartsWith(r[0].0, "$");
      r
  }

  /** Wrapping twice is wrapping once. */
  lemma WrapUpdateIdempotent<V>(u: seq<(string, V)>, asDoc: seq<(string, V)> -> V)
    ensures WrapUpdate(WrapUpdate(u, asDoc), asDoc) == WrapUpdate(u, asDoc)
  {
  }

  /** `ASCENDING` and `DESCENDING` are 1 and -1. */
  predicate ValidDirection(d: int) { d == 1 || d == -1 }

  /** The field of the first entry whose direction is invalid, if any. */
  function FirstBadDirection(sort: seq<(string, int)>): (r: Option<nat>)
    ensures r.Some? ==> r.value < |sort| && !ValidDirection(sort[r.value].1)
    ensures r.Some? ==> forall j :: 0 <= j < r.value ==> ValidDirection(sort[j].1)
    ensures r.None? <==> forall j :: 0 <= j < |sort| ==> ValidDirection(sort[j].1)
  {
    if sort == [] then None
    else if !ValidDirection(sort[0].1) then Some(0)
    else
      var t := FirstBadDirection(sort[1..]);
      assert forall j :: 1 <= j < |sort| ==> sort[j] == sort[1..][j - 1];
      if t.Some? then Some(t.value + 1) else None
  }

  /**
   * `_normalize_sort`: no sort gives None; a direction other than 1 or -1 raises,
   * naming the first offending field; otherwise the pairs are kept in order.
   */
  function NormalizeSort(sort: seq<(string, int)>): (r: Result<Option<seq<(string, int)>>, string>)
    ensures sort == [] ==> r == Ok(None)
    ensures r.Err? <==> exists i :: 0 <= i < |sort| && !ValidDirection(sort[i].1)
    ensures r.Err? ==> exists i :: 0 <= i < |sort| && !ValidDirection(sort[i].1) && r.error == sort[i].0
                                   && forall j :: 0 <= j < i ==> ValidDirection(sort[j].1)
    ensures r.Ok? && sort != [] ==> r.value == Some(sort)
  {
    if sort == [] then Ok(None)
    else
      match FirstBadDirection(sort)
      case Some(i) => Err(sort[i].0)
      case None => Ok(Some(sort))
  }
}
