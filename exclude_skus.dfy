/**
 * The `exclude_skus` collection: materials that must never be sent to the WMS.
 * A SKU is looked up both as text and, when it reads as an integer, as a number,
 * because stored SKUs may hold either.
 */
module ExcludeSkus {
  import opened Wrappers
  import opened Text

  /** A value offered to the `$in` query: the stripped text, or its integer reading. */
  datatype Candidate = CText(text: string) | CInt(n: int)

  /** The `sku` field of a stored exclusion: text, an integer, or null. */
  datatype StoredSku = SkuText(text: string) | SkuInt(n: int) | SkuNull

  /**
   * `_normalize_sku_for_query`: nothing for null or blank input; otherwise the
   * stripped text, plus its integer value when `int()` accepts it.
   */
  function NormalizeSkuForQuery(value: Option<string>): set<Candidate>
  {
    if value.None? then {}
    else
      var text := Strip(value.value);
      if text == [] then {}
      else
        var n := ParseInt(text);
        if n.Some? then {CText(text), CInt(n.value)} else {CText(text)}
  }

  function CIntOf(n: Option<int>): Option<Candidate> {
    if n.Some? then Some(CInt(n.value)) else None
  }

  /**
   * The query forms of a SKU: none for null or blank input; else the stripped
   * text, its integer reading when there is one, and nothing else.
   */
  lemma NormalizeSkuForms(value: Option<string>)
    ensures var r := NormalizeSkuForQuery(value);
      (value.None? || Strip(value.value) == [] ==> r == {}) &&
      (value.Some? && Strip(value.value) != [] ==>
        CText(Strip(value.value)) in r &&
        (ParseInt(Strip(value.value)).Some? ==> CInt(ParseInt(Strip(value.value)).value) in r)) &&
      (forall c :: c in r ==>
        value.Some? && (c == CText(Strip(value.value)) || Some(c) == CIntOf(ParseInt(Strip(value.value)))))
  {
  }

  /** All candidates of a list of SKUs. */
  function CandidatesOf(skus: seq<string>): set<Candidate>
  {
    if skus == [] then {}
    else CandidatesOf(skus[..|skus| - 1]) + NormalizeSkuForQuery(Some(skus[|skus| - 1]))
  }

  /** A candidate comes from some SKU of the list, and every SKU's forms are candidates. */
  lemma {:induction false} CandidatesOfMembers(skus: seq<string>)
    ensures forall c :: c in CandidatesOf(skus) <==> exists i :: 0 <= i < |skus| && c in NormalizeSkuForQuery(Some(skus[i]))
  {
    if skus != [] {
      var n := |skus| - 1;
      var init := skus[..n];
      var last := NormalizeSkuForQuery(Some(skus[n]));
      CandidatesOfMembers(init);
      assert CandidatesOf(skus) == CandidatesOf(init) + last;
      forall c | c in CandidatesOf(skus)
        ensures exists i :: 0 <= i < |skus| && c in NormalizeSkuForQuery(Some(skus[i]))
      {
        if c !in last {
          var i :| 0 <= i < n && c in NormalizeSkuForQuery(Some(init[i]));
          assert init[i] == skus[i];
        }
      }
      forall i | 0 <= i < |skus|
        ensures NormalizeSkuForQuery(Some(skus[i])) <= CandidatesOf(skus)
      {
        var forms := NormalizeSkuForQuery(Some(skus[i]));
        if i < n {
          assert init[i] == skus[i];
          forall c | c in forms ensures c in CandidatesOf(init) {
            assert 0 <= i < |init| && c in NormalizeSkuForQuery(Some(init[i]));
          }
        } else {
          assert i == n;
        }
      }
    }
  }

  /** `$in` on the `sku` field: text matches text and integer matches integer, never across. */
  predicate Matches(d: StoredSku, cs: set<Candidate>) {
    match d
    case SkuText(t) => CText(t) in cs
    case SkuInt(n) => CInt(n) in cs
    case SkuNull => false
  }

  /** `str()` of a stored SKU. */
  function StoredText(d: StoredSku): string
    requires !d.SkuNull?
  {
    if d.SkuText? then d.text else IntToDecimal(d.n)
  }

  /** The text of every stored SKU that matches a candidate. */
  function Excluded(stored: seq<StoredSku>, cs: set<Candidate>): set<string>
  {
    if stored == [] then {}
    else
      var n := |stored| - 1;
      Excluded(stored[..n], cs) + (if Matches(stored[n], cs) then {StoredText(stored[n])} else {})
  }

  /** A text is excluded exactly when some stored SKU with that text matches a candidate. */
  lemma {:induction false} ExcludedMembers(stored: seq<StoredSku>, cs: set<Candidate>)
    ensures forall x :: x in Excluded(stored, cs) <==>
      exists i :: 0 <= i < |stored| && Matches(stored[i], cs) && StoredText(stored[i]) == x
  {
    if stored != [] {
      var n := |stored| - 1;
      ExcludedMembers(stored[..n], cs);
      assert forall i :: 0 <= i < n ==> stored[..n][i] == stored[i];
    }
  }

  /**
   * `find_matching_skus`: collect the candidates of every SKU; with none, answer
   * the empty set without querying; otherwise the `str()` of every stored SKU
   * among them, skipping nulls.
   */
  method FindMatchingSkus(stored: seq<StoredSku>, skus: seq<string>) returns (excluded: set<string>)
    ensures excluded == Excluded(stored, CandidatesOf(skus))
  {
    var candidates := CollectCandidates(skus);
    if candidates == {} {
      EmptyCandidates(stored);
      return {};
    }
    excluded := {};
    var j := 0;
    while j < |stored|
      invariant 0 <= j <= |stored|
      invariant excluded == Excluded(stored[..j], candidates)
    {
      assert stored[..j + 1][..j] == stored[..j];
      if Matches(stored[j], candidates) {
        excluded := excluded + {StoredText(stored[j])};
      }
      j := j + 1;
    }
    assert stored[..j] == stored;
  }

  /** The first loop of `find_matching_skus`: the union of every SKU's query forms. */
  method CollectCandidates(skus: seq<string>) returns (candidates: set<Candidate>)
    ensures candidates == CandidatesOf(skus)
  {
    candidates := {};
    var i := 0;
    while i < |skus|
      invariant 0 <= i <= |skus|
      invariant candidates == CandidatesOf(skus[..i])
    {
      assert skus[..i + 1][..i] == skus[..i];
      candidates := candidates + NormalizeSkuForQuery(Some(skus[i]));
      i := i + 1;
    }
    assert skus[..i] == skus;
  }

  lemma EmptyCandidates(stored: seq<StoredSku>)
    ensures Excluded(stored, {}) == {}
  {
  }

  /** With only blank SKUs there are no candidates, so nothing is excluded. */
  lemma BlankSkusExcludeNothing(stored: seq<StoredSku>, skus: seq<string>)
    requires forall i :: 0 <= i < |skus| ==> Strip(skus[i]) == []
    ensures CandidatesOf(skus) == {}
    ensures Excluded(stored, CandidatesOf(skus)) == {}
  {
    CandidatesOfMembers(skus);
    EmptyCandidates(stored);
  }

  /** A SKU stored as the same text is always found. */
  lemma TextMatchFound(stored: seq<StoredSku>, skus: seq<string>, i: nat, j: nat)
    requires i < |skus| && j < |stored| && Strip(skus[i]) != [] && stored[j] == SkuText(Strip(skus[i]))
    ensures Strip(skus[i]) in Excluded(stored, CandidatesOf(skus))
  {
    NormalizeSkuForms(Some(skus[i]));
    assert CText(Strip(skus[i])) in NormalizeSkuForQuery(Some(skus[i]));
    CandidatesOfMembers(skus);
    assert Matches(stored[j], CandidatesOf(skus));
    ExcludedMembers(stored, CandidatesOf(skus));
  }

  /**
   * The result holds the stored spelling, not the caller's: "007" finds a SKU
   * stored as the integer 7, and the answer is "7", which the caller then
   * compares against "007".
   */
  lemma LeadingZeroAnswer()
    ensures Excluded([SkuInt(7)], CandidatesOf(["007"])) == {"7"}
    ensures "007" !in Excluded([SkuInt(7)], CandidatesOf(["007"]))
  {
    var s := "007";
    assert Strip(s) == s;
    assert s[1..] == "07" && "07"[..1] == "0" && s[..2] == "00" && "00"[..1] == "0";
    assert DigitsValue("0") == 0;
    assert DigitsValue("00") == 0;
    assert DigitsValue(s) == 7;
    GroupedOfDigits(s);
    assert ParseInt(s) == Some(7);
    assert CInt(7) in NormalizeSkuForQuery(Some(s));
    var none: seq<string> := [];
    assert CandidatesOf([s]) == NormalizeSkuForQuery(Some(s)) by {
      assert [s][..0] == none;
    }
    assert Matches(SkuInt(7), CandidatesOf([s]));
    assert NatToDecimal(7) == "7";
    var none': seq<StoredSku> := [];
    assert [SkuInt(7)][..0] == none';
    assert StoredText(SkuInt(7)) == "7";
    var cs := CandidatesOf([s]);
    assert Excluded(none', cs) == {};
    assert Excluded([SkuInt(7)], cs) == Excluded(none', cs) + {"7"};
    assert "007" != "7";
  }

  /**
   * The inputs the exclusion list actually covers: each stripped SKU whose
   * candidates match a stored exclusion, in the caller's own spelling.
   */
  function ExcludedInputs(stored: seq<StoredSku>, skus: seq<string>): set<string>
  {
    CoveredInputs(sku => Covered(stored, sku), skus)
  }

  /** The stripped SKUs among `skus` that `covered` accepts. */
  function CoveredInputs(covered: string -> bool, skus: seq<string>): set<string>
  {
    if skus == [] then {}
    else
      var n := |skus| - 1;
      CoveredInputs(covered, skus[..n]) + (if covered(skus[n]) then {Strip(skus[n])} else {})
  }

  /** The covered inputs are exactly the stripped SKUs some stored exclusion matches. */
  lemma ExcludedInputsMembers(stored: seq<StoredSku>, skus: seq<string>)
    ensures forall x :: x in ExcludedInputs(stored, skus) <==> exists i :: 0 <= i < |skus| && Strip(skus[i]) == x && Covered(stored, skus[i])
  {
    CoveredInputsMembers(sku => Covered(stored, sku), skus);
  }

  /** Membership in `CoveredInputs`, for any predicate on inputs. */
  lemma {:induction false} CoveredInputsMembers(covered: string -> bool, skus: seq<string>)
    ensures forall x :: x in CoveredInputs(covered, skus) <==> exists i :: 0 <= i < |skus| && Strip(skus[i]) == x && covered(skus[i])
  {
    if skus != [] {
      var n := |skus| - 1;
      CoveredInputsMembers(covered, skus[..n]);
      assert forall i :: 0 <= i < n ==> skus[..n][i] == skus[i];
    }
  }

  /** Some stored exclusion matches one of the SKU's query forms. */
  predicate Covered(stored: seq<StoredSku>, sku: string) {
    exists j :: 0 <= j < |stored| && Matches(stored[j], NormalizeSkuForQuery(Some(sku)))
  }

  /** With the caller's spelling returned, "007" against a stored 7 is excluded. */
  lemma LeadingZeroCovered()
    ensures "007" in ExcludedInputs([SkuInt(7)], ["007"])
  {
    var s := "007";
    assert Strip(s) == s;
    assert s[1..] == "07" && "07"[..1] == "0" && s[..2] == "00" && "00"[..1] == "0";
    assert DigitsValue("0") == 0;
    assert DigitsValue("00") == 0;
    assert DigitsValue(s) == 7;
    GroupedOfDigits(s);
    assert ParseInt(s) == Some(7);
    assert Matches([SkuInt(7)][0], NormalizeSkuForQuery(Some(s)));
    assert Covered([SkuInt(7)], s);
    assert [s][0] == s;
  }
}
