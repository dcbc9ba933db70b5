/**
 * The recipe endpoints that hold logic of their own: disabling the current or a
 * given version, the two enable aliases of `set_vigente`, and the conversion of a
 * stored document into a JSON-friendly one.
 */
module RecipeApi {
  import opened Wrappers
  import opened Calendar
  import opened Catalog
  import opened Recipes
  import opened RecipeRepo
  import opened RecipeService

  /** The HTTP errors these handlers raise, with the service error behind them. */
  datatype ApiError = NotFound(reason: RecipeError) | Unprocessable(reason: RecipeError)

  /** `get_recipe_by_sku`: the PT must exist, and so must its recipe. */
  function RecipeBySku(recipes: map<ObjectId, Recipe>, cat: Catalog, skuPT: string): (r: Result<Recipe, RecipeError>)
    ensures r.Ok? <==> PtBySku(cat, skuPT).Some? && PtBySku(cat, skuPT).value.id in recipes
    ensures r.Ok? ==> r.value == recipes[PtBySku(cat, skuPT).value.id]
    ensures PtBySku(cat, skuPT).None? ==> r == Err(PtNotFound(skuPT))
    ensures PtBySku(cat, skuPT).Some? && r.Err? ==> r == Err(RecipeMissing)
  {
    match PtBySku(cat, skuPT)
    case None => Err(PtNotFound(skuPT))
    case Some(pt) => if pt.id in recipes then Ok(recipes[pt.id]) else Err(RecipeMissing)
  }

  // ----------------------------------------------------------------- disable

  /** The document after `disable_current_vigente`: nothing when there is no `vigenteVersion`, else demote and unset. */
  function DisableCurrentDoc(r: Recipe, now: Instant): Recipe {
    match r.vigenteVersion
    case None => r
    case Some(p) => ClearVigente(SetEstado(r, p, OBSOLETA, now), now)
  }

  /** `disable_current_vigente` as a function of the store before the call. */
  function DisableCurrentOutcome(recipes: map<ObjectId, Recipe>, cat: Catalog, skuPT: string, now: Instant): (r: Result<Recipe, ApiError>)
    ensures r.Err? <==> RecipeBySku(recipes, cat, skuPT).Err?
    ensures r.Err? ==> r == Err(NotFound(RecipeBySku(recipes, cat, skuPT).error))
    ensures r.Ok? ==> r.value == DisableCurrentDoc(RecipeBySku(recipes, cat, skuPT).value, now)
  {
    match RecipeBySku(recipes, cat, skuPT)
    case Err(e) => Err(NotFound(e))
    case Ok(rec) => Ok(DisableCurrentDoc(rec, now))
  }

  /** `disable_current_vigente`: one estado update and one unset, or no write at all. */
  method DisableCurrentVigente(store: RecipeStore, cat: Catalog, skuPT: string, now: Instant) returns (r: Result<Recipe, ApiError>)
    requires store.Valid()
    modifies store
    ensures store.Valid()
    ensures r == DisableCurrentOutcome(old(store.recipes), cat, skuPT, now)
    ensures store.recipes == if r.Ok? then old(store.recipes)[r.value.productPTId := r.value] else old(store.recipes)
  {
    var pt := PtBySku(cat, skuPT);
    if pt.None? {
      return Err(NotFound(PtNotFound(skuPT)));
    }
    var rec := store.FindByPtId(pt.value.id);
    if rec.None? {
      return Err(NotFound(RecipeMissing));
    }
    var vigente := rec.value.vigenteVersion;
    if vigente.None? {
      return Ok(rec.value);
    }
    var _ := store.UpdateVersionEstado(pt.value.id, vigente.value, OBSOLETA, now);
    var cleaned := store.ClearVigenteVersion(pt.value.id, now);
    r := Ok(cleaned.value);
  }

  /** The document after `disable_specific_version(n)`: demote `n`, and unset `vigenteVersion` when it named `n`. */
  function DisableSpecificDoc(r: Recipe, n: int, now: Instant): Recipe {
    var r1 := SetEstado(r, n, OBSOLETA, now);
    if r.vigenteVersion == Some(n) then ClearVigente(r1, now) else r1
  }

  /** `disable_specific_version` as a function of the store before the call. */
  function DisableSpecificOutcome(recipes: map<ObjectId, Recipe>, cat: Catalog, skuPT: string, n: int, now: Instant): (r: Result<Recipe, ApiError>)
    ensures RecipeBySku(recipes, cat, skuPT).Err? ==> r == Err(NotFound(RecipeBySku(recipes, cat, skuPT).error))
    ensures RecipeBySku(recipes, cat, skuPT).Ok? ==>
      (r == Err(Unprocessable(VersionMissing(n))) <==> !HasVersion(RecipeBySku(recipes, cat, skuPT).value, n))
    ensures r.Ok? ==> r.value == DisableSpecificDoc(RecipeBySku(recipes, cat, skuPT).value, n, now)
  {
    match RecipeBySku(recipes, cat, skuPT)
    case Err(e) => Err(NotFound(e))
    case Ok(rec) =>
      if !HasVersion(rec, n) then Err(Unprocessable(VersionMissing(n)))
      else Ok(DisableSpecificDoc(rec, n, now))
  }

  /** `disable_specific_version`: a version that does not exist is a 422 and nothing is written. */
  method DisableSpecificVersion(store: RecipeStore, cat: Catalog, skuPT: string, n: int, now: Instant) returns (r: Result<Recipe, ApiError>)
    requires store.Valid()
    modifies store
    ensures store.Valid()
    ensures r == DisableSpecificOutcome(old(store.recipes), cat, skuPT, n, now)
    ensures store.recipes == if r.Ok? then old(store.recipes)[r.value.productPTId := r.value] else old(store.recipes)
  {
    var pt := PtBySku(cat, skuPT);
    if pt.None? {
      return Err(NotFound(PtNotFound(skuPT)));
    }
    var rec := store.FindByPtId(pt.value.id);
    if rec.None? {
      return Err(NotFound(RecipeMissing));
    }
    if VersionIndex(rec.value.versiones, n).None? {
      return Err(Unprocessable(VersionMissing(n)));
    }
    var updated := store.UpdateVersionEstado(pt.value.id, n, OBSOLETA, now);
    if rec.value.vigenteVersion == Some(n) {
      var cleaned := store.ClearVigenteVersion(pt.value.id, now);
      return Ok(cleaned.value);
    }
    r := Ok(updated.value);
  }

  /**
   * Disabling the current version: with no `vigenteVersion` the recipe is as it was;
   * otherwise `vigenteVersion` is gone, the version it named is "obsoleta", and no
   * other version changes.
   */
  lemma DisableCurrentEffect(r: Recipe, now: Instant)
    ensures r.vigenteVersion.None? ==> DisableCurrentDoc(r, now) == r
    ensures var r' := DisableCurrentDoc(r, now);
            r'.vigenteVersion.None? && Numbers(r') == Numbers(r) &&
            forall j :: 0 <= j < |r.versiones| ==>
              r'.versiones[j] == r.versiones[j].(estado := r'.versiones[j].estado) &&
              r'.versiones[j].estado ==
                (if r.vigenteVersion.Some? && VersionIndex(r.versiones, r.vigenteVersion.value) == Some(j) then OBSOLETA
                 else r.versiones[j].estado)
  {
    if r.vigenteVersion.Some? {
      var r1 := SetEstado(r, r.vigenteVersion.value, OBSOLETA, now);
      assert Numbers(ClearVigente(r1, now)) == Numbers(r1);
    }
  }

  /**
   * Disabling a given version: it becomes "obsoleta"; `vigenteVersion` is unset when it
   * named that version and kept otherwise; no other version changes.
   */
  lemma DisableSpecificEffect(r: Recipe, n: int, now: Instant)
    requires HasVersion(r, n)
    ensures var r' := DisableSpecificDoc(r, n, now);
            r'.vigenteVersion == (if r.vigenteVersion == Some(n) then None else r.vigenteVersion) &&
            Numbers(r') == Numbers(r) && r'.updatedAt == now &&
            forall j :: 0 <= j < |r.versiones| ==>
              r'.versiones[j] == r.versiones[j].(estado := r'.versiones[j].estado) &&
              r'.versiones[j].estado == (if VersionIndex(r.versiones, n) == Some(j) then OBSOLETA else r.versiones[j].estado)
  {
    var r1 := SetEstado(r, n, OBSOLETA, now);
    assert Numbers(ClearVigente(r1, now)) == Numbers(r1);
  }

  /**
   * With distinct version numbers, both disable handlers keep the rule that only
   * the referenced version is "vigente", and keep `vigenteVersion` valid.
   */
  lemma DisableKeepsInvariants(r: Recipe, n: int, now: Instant)
    requires UniqueNumbers(r) && VigenteOnlyAtPointer(r) && PointerValid(r)
    ensures VigenteOnlyAtPointer(DisableCurrentDoc(r, now)) && PointerValid(DisableCurrentDoc(r, now))
    ensures HasVersion(r, n) ==>
      VigenteOnlyAtPointer(DisableSpecificDoc(r, n, now)) && PointerValid(DisableSpecificDoc(r, n, now))
  {
    DisableCurrentEffect(r, now);
    var c := DisableCurrentDoc(r, now);
    forall j | 0 <= j < |c.versiones| && c.versiones[j].estado == VIGENTE
      ensures false
    {
      var p := r.vigenteVersion.value;
      assert r.versiones[j].number == p;
      UniqueIndex(r, p, j);
    }
    if HasVersion(r, n) {
      DisableSpecificEffect(r, n, now);
      var d := DisableSpecificDoc(r, n, now);
      forall j | 0 <= j < |d.versiones| && d.versiones[j].estado == VIGENTE
        ensures d.vigenteVersion == Some(d.versiones[j].number)
      {
        UniqueIndex(r, n, j);
        assert d.versiones[j].number == r.versiones[j].number;
      }
      SameNumbersKeep(r, d.(vigenteVersion := r.vigenteVersion));
    }
  }

  // ------------------------------------------------------------------ enable

  /**
   * `enable_recipe` and `enable_specific_version` both call `set_vigente`; a service
   * error becomes a 422. The body of `enable_recipe` also demands a version of at
   * least 1, which `bound` carries (1 there, no bound on the path variant).
   */
  function EnableOutcome(recipes: map<ObjectId, Recipe>, cat: Catalog, skuPT: string, n: int, bound: Option<int>, now: Instant): (r: Result<Recipe, ApiError>)
    ensures bound.Some? && n < bound.value ==> r.Err? && r.error.Unprocessable?
    ensures (bound.None? || n >= bound.value) && SetVigenteOutcome(recipes, cat, skuPT, n, now).Ok? ==>
      r == Ok(SetVigenteOutcome(recipes, cat, skuPT, n, now).value)
    ensures (bound.None? || n >= bound.value) && SetVigenteOutcome(recipes, cat, skuPT, n, now).Err? ==>
      r == Err(Unprocessable(SetVigenteOutcome(recipes, cat, skuPT, n, now).error))
  {
    if bound.Some? && n < bound.value then Err(Unprocessable(VersionMissing(n)))
    else
      match SetVigenteOutcome(recipes, cat, skuPT, n, now)
      case Err(e) => Err(Unprocessable(e))
      case Ok(doc) => Ok(doc)
  }

  /** `POST /{skuPT}/enable` with a body `{version}` (at least 1). */
  method EnableRecipe(store: RecipeStore, cat: Catalog, skuPT: string, n: int, now: Instant) returns (r: Result<Recipe, ApiError>)
    requires store.Valid()
    modifies store
    ensures store.Valid()
    ensures r == EnableOutcome(old(store.recipes), cat, skuPT, n, Some(1), now)
    ensures store.recipes == if r.Ok? then old(store.recipes)[r.value.productPTId := r.value] else old(store.recipes)
  {
    if n < 1 {
      return Err(Unprocessable(VersionMissing(n)));
    }
    var s := SetVigente(store, cat, skuPT, n, now);
    r := if s.Err? then Err(Unprocessable(s.error)) else Ok(s.value);
  }

  /** `POST /{skuPT}/versions/{version}/enable`. */
  method EnableSpecificVersion(store: RecipeStore, cat: Catalog, skuPT: string, n: int, now: Instant) returns (r: Result<Recipe, ApiError>)
    requires store.Valid()
    modifies store
    ensures store.Valid()
    ensures r == EnableOutcome(old(store.recipes), cat, skuPT, n, None, now)
    ensures store.recipes == if r.Ok? then old(store.recipes)[r.value.productPTId := r.value] else old(store.recipes)
  {
    var s := SetVigente(store, cat, skuPT, n, now);
    r := if s.Err? then Err(Unprocessable(s.error)) else Ok(s.value);
  }

  // ----------------------------------------------------------- serialisation

  /** A stored value: object ids, scalars, lists and dicts (key order kept). */
  datatype Bson =
    | BOid(oid: ObjectId)
    | BStr(s: string)
    | BNum(x: real)
    | BBool(b: bool)
    | BNull
    | BList(items: seq<Bson>)
    | BDoc(fields: seq<(string, Bson)>)

  predicate NoOids(v: Bson) {
    match v
    case BOid(_) => false
    case BList(items) => forall i :: 0 <= i < |items| ==> NoOids(items[i])
    case BDoc(fields) => forall i :: 0 <= i < |fields| ==> NoOids(fields[i].1)
    case _ => true
  }

  /** `a` and `b` have the same lists and dicts, with the same keys, and differ at most where `a` has an id and `b` a string. */
  predicate SameShape(a: Bson, b: Bson) {
    match a
    case BOid(_) => b.BStr?
    case BList(xs) => b.BList? && |b.items| == |xs| && forall i :: 0 <= i < |xs| ==> SameShape(xs[i], b.items[i])
    case BDoc(fs) =>
      b.BDoc? && |b.fields| == |fs| &&
      forall i :: 0 <= i < |fs| ==> b.fields[i].0 == fs[i].0 && SameShape(fs[i].1, b.fields[i].1)
    case _ => b == a
  }

  /** `bson_to_py`: every object id becomes its text (`oidStr`), recursively through lists and dicts. */
  function BsonToPy(v: Bson, oidStr: ObjectId -> string): (r: Bson)
    ensures NoOids(r) && SameShape(v, r)
  {
    match v
    case BOid(id) => BStr(oidStr(id))
    case BList(items) => BList(seq(|items|, i requires 0 <= i < |items| => BsonToPy(items[i], oidStr)))
    case BDoc(fields) => BDoc(seq(|fields|, i requires 0 <= i < |fields| => (fields[i].0, BsonToPy(fields[i].1, oidStr))))
    case _ => v
  }

  /** A value without ids passes through unchanged, so converting twice is converting once. */
  lemma {:induction false} BsonToPyIdentity(v: Bson, oidStr: ObjectId -> string)
    requires NoOids(v)
    ensures BsonToPy(v, oidStr) == v
  {
    match v
    case BList(items) =>
      forall i | 0 <= i < |items| ensures BsonToPy(items[i], oidStr) == items[i] {
        BsonToPyIdentity(items[i], oidStr);
      }
    case BDoc(fields) =>
      forall i | 0 <= i < |fields| ensures BsonToPy(fields[i].1, oidStr) == fields[i].1 {
        BsonToPyIdentity(fields[i].1, oidStr);
      }
      assert BsonToPy(v, oidStr).fields == fields;
    case _ =>
  }

  lemma BsonToPyIdempotent(v: Bson, oidStr: ObjectId -> string)
    ensures BsonToPy(BsonToPy(v, oidStr), oidStr) == BsonToPy(v, oidStr)
  {
    BsonToPyIdentity(BsonToPy(v, oidStr), oidStr);
  }

  predicate DistinctKeys(fs: seq<(string, Bson)>) {
    forall i, j :: 0 <= i < j < |fs| ==> fs[i].0 != fs[j].0
  }

  function KeyIndex(fs: seq<(string, Bson)>, k: string): (r: Option<nat>)
    ensures r.Some? ==> r.value < |fs| && fs[r.value].0 == k
    ensures r.Some? ==> forall j :: 0 <= j < r.value ==> fs[j].0 != k
    ensures r.None? <==> forall j :: 0 <= j < |fs| ==> fs[j].0 != k
  {
    if fs == [] then None
    else if fs[0].0 == k then Some(0)
    else
      var t := KeyIndex(fs[1..], k);
      assert forall j :: 1 <= j < |fs| ==> fs[j] == fs[1..][j - 1];
      if t.Some? then Some(t.value + 1) else None
  }

  /** The keys of a dict with one key removed, order kept. */
  function Without(fs: seq<(string, Bson)>, k: string): (r: seq<(string, Bson)>)
    ensures forall j :: 0 <= j < |r| ==> r[j].0 != k
    ensures forall j :: 0 <= j < |r| ==> r[j] in fs
    ensures forall j :: 0 <= j < |fs| && fs[j].0 != k ==> fs[j] in r
  {
    if fs == [] then []
    else
      var t := Without(fs[1..], k);
      assert forall j :: 1 <= j < |fs| ==> fs[j] == fs[1..][j - 1];
      if fs[0].0 == k then t
      else
        var r := [fs[0]] + t;
        assert forall j :: 1 <= j < |r| ==> r[j] == t[j - 1];
        r
  }

  /** Removing a key from a dict with distinct keys leaves distinct keys. */
  lemma {:induction false} WithoutDistinct(fs: seq<(string, Bson)>, k: string)
    requires DistinctKeys(fs)
    ensures DistinctKeys(Without(fs, k))
  {
    if fs != [] {
      var t := Without(fs[1..], k);
      assert DistinctKeys(fs[1..]) by {
        assert forall j :: 0 <= j < |fs| - 1 ==> fs[1..][j] == fs[j + 1];
      }
      WithoutDistinct(fs[1..], k);
      if fs[0].0 != k {
        var r := [fs[0]] + t;
        forall j | 0 <= j < |t| ensures t[j].0 != fs[0].0 {
          var m :| 0 <= m < |fs[1..]| && fs[1..][m] == t[j];
          assert fs[m + 1] == t[j];
        }
        assert forall j :: 1 <= j < |r| ==> r[j] == t[j - 1];
      }
    }
  }

  /** `d[k] = v` on a dict: the value is replaced in place when `k` is a key, else appended. */
  function PutKey(fs: seq<(string, Bson)>, k: string, v: Bson): (r: seq<(string, Bson)>)
    requires DistinctKeys(fs)
    ensures DistinctKeys(r)
    ensures KeyIndex(r, k).Some? && r[KeyIndex(r, k).value].1 == v
    ensures forall j :: 0 <= j < |fs| && fs[j].0 != k ==> fs[j] in r
    ensures forall j :: 0 <= j < |r| && r[j].0 != k ==> r[j] in fs
  {
    match KeyIndex(fs, k)
    case Some(i) => PutKeyReplaces(fs, i, k, v); fs[i := (k, v)]
    case None => PutKeyAppends(fs, k, v); fs + [(k, v)]
  }

  lemma PutKeyReplaces(fs: seq<(string, Bson)>, i: nat, k: string, v: Bson)
    requires DistinctKeys(fs) && KeyIndex(fs, k) == Some(i)
    ensures i < |fs| && DistinctKeys(fs[i := (k, v)]) && KeyIndex(fs[i := (k, v)], k) == Some(i)
    ensures forall j :: 0 <= j < |fs| && j != i ==> fs[i := (k, v)][j] == fs[j]
  {
    var r := fs[i := (k, v)];
    assert forall j :: 0 <= j < |fs| && j != i ==> r[j] == fs[j];
    assert r[i].0 == k && fs[i].0 == k;
  }

  lemma PutKeyAppends(fs: seq<(string, Bson)>, k: string, v: Bson)
    requires DistinctKeys(fs) && KeyIndex(fs, k).None?
    ensures DistinctKeys(fs + [(k, v)]) && KeyIndex(fs + [(k, v)], k) == Some(|fs|)
  {
    var r := fs + [(k, v)];
    assert forall j :: 0 <= j < |fs| ==> r[j] == fs[j];
    assert r[|fs|].0 == k;
  }

  /** The fields of a converted dict: same keys in the same order, each value converted. */
  lemma ConvertedFields(doc: seq<(string, Bson)>, oidStr: ObjectId -> string)
    requires DistinctKeys(doc)
    ensures var data := BsonToPy(BDoc(doc), oidStr).fields;
      |data| == |doc| && DistinctKeys(data) &&
      (forall j :: 0 <= j < |data| ==> data[j] == (doc[j].0, BsonToPy(doc[j].1, oidStr))) &&
      (forall j :: 0 <= j < |data| ==> NoOids(data[j].1)) &&
      KeyIndex(data, "_id") == KeyIndex(doc, "_id")
  {
    var data := BsonToPy(BDoc(doc), oidStr).fields;
    assert forall j :: 0 <= j < |data| ==> data[j] == (doc[j].0, BsonToPy(doc[j].1, oidStr));
    assert forall j :: 0 <= j < |doc| ==> data[j].0 == doc[j].0;
    KeyIndexSameKeys(data, doc, "_id");
  }

  /** Two field lists with the same keys in the same order find a key at the same place. */
  lemma {:induction false} KeyIndexSameKeys(a: seq<(string, Bson)>, b: seq<(string, Bson)>, k: string)
    requires |a| == |b| && forall j :: 0 <= j < |a| ==> a[j].0 == b[j].0
    ensures KeyIndex(a, k) == KeyIndex(b, k)
  {
    if a != [] && a[0].0 != k {
      KeyIndexSameKeys(a[1..], b[1..], k);
    }
  }

  /** Popping `_id` and storing its value under `id`: what is left, what moved and what stays. */
  lemma PopIdPut(data: seq<(string, Bson)>, i: nat)
    requires DistinctKeys(data) && KeyIndex(data, "_id") == Some(i)
    ensures DistinctKeys(Without(data, "_id"))
    ensures var r := PutKey(Without(data, "_id"), "id", data[i].1);
      DistinctKeys(r) && KeyIndex(r, "_id").None? &&
      KeyIndex(r, "id").Some? && r[KeyIndex(r, "id").value].1 == data[i].1 &&
      (forall j :: 0 <= j < |r| ==> r[j].0 == "id" || r[j] in data) &&
      (forall j :: 0 <= j < |data| && data[j].0 != "_id" && data[j].0 != "id" ==> data[j] in r)
  {
    var rest := Without(data, "_id");
    WithoutDistinct(data, "_id");
    var r := PutKey(rest, "id", data[i].1);
    assert forall j :: 0 <= j < |r| ==> r[j].0 != "_id";
  }

  /**
   * `_to_out_dict`: convert the ids, then, when `_id` is present, pop it and store
   * its value under `id` (in place when `id` is already a key, else at the end).
   */
  function ToOutDict(doc: seq<(string, Bson)>, oidStr: ObjectId -> string): seq<(string, Bson)>
    requires DistinctKeys(doc)
  {
    var data := BsonToPy(BDoc(doc), oidStr).fields;
    match KeyIndex(data, "_id")
    case None => data
    case Some(i) =>
      ConvertedFields(doc, oidStr);
      WithoutDistinct(data, "_id");
      PutKey(Without(data, "_id"), "id", data[i].1)
  }

  /** A field taken from a list of id-free fields is id-free. */
  lemma MemberNoOids(data: seq<(string, Bson)>, e: (string, Bson))
    requires forall j :: 0 <= j < |data| ==> NoOids(data[j].1)
    requires e in data
    ensures NoOids(e.1)
  {
    var k :| 0 <= k < |data| && data[k] == e;
  }

  /** The output dict has distinct keys and no `ObjectId` left anywhere in it. */
  lemma ToOutDictClean(doc: seq<(string, Bson)>, oidStr: ObjectId -> string)
    requires DistinctKeys(doc)
    ensures var r := ToOutDict(doc, oidStr);
      DistinctKeys(r) && forall j :: 0 <= j < |r| ==> NoOids(r[j].1)
  {
    ConvertedFields(doc, oidStr);
    var data := BsonToPy(BDoc(doc), oidStr).fields;
    var r := ToOutDict(doc, oidStr);
    match KeyIndex(data, "_id")
    case None =>
    case Some(i) =>
      PopIdPut(data, i);
      forall j | 0 <= j < |r|
        ensures NoOids(r[j].1)
      {
        if r[j].0 == "id" {
          var m := KeyIndex(r, "id").value;
          assert NoOids(r[m].1);
          assert m == j;
        } else {
          MemberNoOids(data, r[j]);
        }
      }
  }

  /** Without `_id` the output is the converted document as it stands. */
  lemma ToOutDictWithoutId(doc: seq<(string, Bson)>, oidStr: ObjectId -> string)
    requires DistinctKeys(doc) && KeyIndex(doc, "_id").None?
    ensures ToOutDict(doc, oidStr) == BsonToPy(BDoc(doc), oidStr).fields
  {
    ConvertedFields(doc, oidStr);
  }

  /** With `_id`, the output has no `_id` and its `id` holds the converted `_id` value. */
  lemma ToOutDictMovesId(doc: seq<(string, Bson)>, oidStr: ObjectId -> string)
    requires DistinctKeys(doc) && KeyIndex(doc, "_id").Some?
    ensures var r := ToOutDict(doc, oidStr);
      KeyIndex(r, "_id").None? && KeyIndex(r, "id").Some? &&
      r[KeyIndex(r, "id").value].1 == BsonToPy(doc[KeyIndex(doc, "_id").value].1, oidStr)
  {
    ConvertedFields(doc, oidStr);
    var data := BsonToPy(BDoc(doc), oidStr).fields;
    PopIdPut(data, KeyIndex(data, "_id").value);
  }

  /** Every field other than `_id` and `id` keeps its converted value. */
  lemma ToOutDictKeepsFields(doc: seq<(string, Bson)>, oidStr: ObjectId -> string)
    requires DistinctKeys(doc)
    ensures forall j :: 0 <= j < |doc| && doc[j].0 != "_id" && doc[j].0 != "id" ==>
      (doc[j].0, BsonToPy(doc[j].1, oidStr)) in ToOutDict(doc, oidStr)
  {
    ConvertedFields(doc, oidStr);
    var data := BsonToPy(BDoc(doc), oidStr).fields;
    var r := ToOutDict(doc, oidStr);
    match KeyIndex(data, "_id")
    case None =>
      forall j | 0 <= j < |doc| && doc[j].0 != "_id" && doc[j].0 != "id"
        ensures (doc[j].0, BsonToPy(doc[j].1, oidStr)) in r
      {
        assert r[j] == data[j];
      }
    case Some(i) =>
      PopIdPut(data, i);
      forall j | 0 <= j < |doc| && doc[j].0 != "_id" && doc[j].0 != "id"
        ensures (doc[j].0, BsonToPy(doc[j].1, oidStr)) in r
      {
        assert data[j] in r;
      }
  }
}
