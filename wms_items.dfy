/**
 * The material explosion of a work order for the warehouse system (WMS): which
 * recipe version is used, how each material's quantity scales with the ordered
 * quantity, and the removal of materials on the exclusion list.
 */
module WmsItems {
  import opened Wrappers
  import opened Text
  import opened Calendar
  import opened Catalog
  import opened Recipes
  import opened ExcludeSkus
  import opened WorkOrders

  /** `WorkOrderIntegrationItem`; the start date is kept as a day (its dd/mm/YYYY text is not modelled). */
  datatype Item = Item(
    fecIniOrden: Day,
    glosaOrden: string,
    orden: string,
    codigoProducto: string,
    descripcionProducto: string,
    cantidadAFabricar: real,
    codigoMaterial: string,
    descripcionMaterial: string,
    cantidadMaterial: real)

  /** Why the explosion is refused. */
  datatype ExplodeError =
    | PtNotFound(sku: string)
    | RecipeNotFound(sku: string)
    | RecipeWithoutComponents(sku: string)
    | BadProductId(raw: string)
    | NoProductIds
    | ProductsNotFound(ids: seq<ObjectId>)
    | ComponentProductMissing(ref: ProductRef)
    | ComponentWithoutSku(id: ObjectId)
    | MaterialNotPositive(id: ObjectId)
    | AllExcluded

  // -------------------------------------------------------- version choice

  /** Position `k` holds the highest version number, and no earlier position reaches it. */
  predicate FirstMaxAt(vs: seq<Version>, k: nat) {
    k < |vs|
    && (forall i :: 0 <= i < |vs| ==> vs[i].number <= vs[k].number)
    && (forall j :: 0 <= j < k ==> vs[j].number < vs[k].number)
  }

  /**
   * The head of `sorted(versiones, key=version, reverse=True)`: the sort is stable,
   * so among equal numbers the earliest version wins.
   */
  function HighestAt(vs: seq<Version>): (k: nat)
    requires vs != []
    ensures FirstMaxAt(vs, k)
  {
    if |vs| == 1 then 0
    else
      var t := HighestAt(vs[1..]) + 1;
      assert forall i :: 1 <= i < |vs| ==> vs[i] == vs[1..][i - 1];
      if vs[0].number >= vs[t].number then 0 else t
  }

  /** The version used: the first one numbered like the current `vigenteVersion`, else the highest. */
  function ChosenIndex(r: Recipe): (k: nat)
    requires r.versiones != []
    ensures k < |r.versiones|
    ensures r.vigenteVersion.Some? && HasVersion(r, r.vigenteVersion.value) ==>
      Some(k) == VersionIndex(r.versiones, r.vigenteVersion.value)
    ensures r.vigenteVersion.None? || !HasVersion(r, r.vigenteVersion.value) ==> FirstMaxAt(r.versiones, k)
  {
    var byPointer := if r.vigenteVersion.Some? then VersionIndex(r.versiones, r.vigenteVersion.value) else None;
    if byPointer.Some? then byPointer.value else HighestAt(r.versiones)
  }

  // -------------------------------------------------------------- scaling

  /** The base quantity the order is divided by: a missing, zero or negative `base_qty` counts as 1. */
  function BaseQty(v: Version): (b: real)
    ensures b > 0.0
    ensures v.baseQty > 0.0 ==> b == v.baseQty
    ensures v.baseQty <= 0.0 ==> b == 1.0
  {
    if v.baseQty > 0.0 then v.baseQty else 1.0
  }

  /** A component's quantity for the order: per-base quantity times the factor, raised by its merma. */
  function MaterialQty(c: Component, factor: real): real {
    if c.mermaPct != 0.0 then c.cantidadPorBase * factor * (1.0 + c.mermaPct / 100.0)
    else c.cantidadPorBase * factor
  }

  /** Skipping the merma factor for a zero merma changes nothing: the quantity is always the full product. */
  lemma MaterialQtyUniform(c: Component, factor: real)
    ensures MaterialQty(c, factor) == c.cantidadPorBase * factor * (1.0 + c.mermaPct / 100.0)
  {
  }

  /** Per unit of the base quantity, the material scales with the ordered quantity. */
  lemma MaterialQtyScales(c: Component, v: Version, cantidad: real)
    ensures MaterialQty(c, cantidad / BaseQty(v)) * BaseQty(v)
            == c.cantidadPorBase * cantidad * (1.0 + c.mermaPct / 100.0)
  {
    var b := BaseQty(v);
    MaterialQtyUniform(c, cantidad / b);
    calc {
      MaterialQty(c, cantidad / b) * b;
      c.cantidadPorBase * (cantidad / b) * (1.0 + c.mermaPct / 100.0) * b;
      c.cantidadPorBase * ((cantidad / b) * b) * (1.0 + c.mermaPct / 100.0);
      { assert (cantidad / b) * b == cantidad; }
      c.cantidadPorBase * cantidad * (1.0 + c.mermaPct / 100.0);
    }
  }

  // ----------------------------------------------------------- component ids

  /** A `productId` that is present but not an ObjectId: `ObjectId(pid)` raises on it. */
  predicate Unusable(p: ProductRef) {
    p.NotAnId? && p.raw != []
  }

  /** `Ok(xs + rest)`, or the error. */
  function Prepend<T>(xs: seq<T>, r: Result<seq<T>, ExplodeError>): Result<seq<T>, ExplodeError> {
    if r.Err? then r else Ok(xs + r.value)
  }

  lemma PrependNil<T>(r: Result<seq<T>, ExplodeError>)
    ensures Prepend([], r) == r
  {
    if r.Ok? {
      assert [] + r.value == r.value;
    }
  }

  lemma PrependAssoc<T>(xs: seq<T>, ys: seq<T>, r: Result<seq<T>, ExplodeError>)
    ensures Prepend(xs, Prepend(ys, r)) == Prepend(xs + ys, r)
  {
    if r.Ok? {
      assert xs + (ys + r.value) == (xs + ys) + r.value;
    }
  }

  /**
   * The first loop over the components: empty ids are skipped, an id that is not an
   * ObjectId stops the explosion, every other id is collected in order.
   */
  function ComponentIds(cs: seq<Component>): (r: Result<seq<ObjectId>, ExplodeError>)
    ensures r.Ok? <==> forall i :: 0 <= i < |cs| ==> !Unusable(cs[i].productId)
    ensures r.Ok? ==> forall id :: id in r.value <==> exists i :: 0 <= i < |cs| && cs[i].productId == Oid(id)
    ensures r.Err? ==> exists i :: 0 <= i < |cs| && Unusable(cs[i].productId)
                        && r.error == BadProductId(cs[i].productId.raw)
                        && forall j :: 0 <= j < i ==> !Unusable(cs[j].productId)
  {
    if cs == [] then Ok([])
    else
      assert forall i :: 1 <= i < |cs| ==> cs[i] == cs[1..][i - 1];
      var p := cs[0].productId;
      if Unusable(p) then Err(BadProductId(p.raw))
      else
        var rest := ComponentIds(cs[1..]);
        if p.Oid? then Prepend([p.id], rest) else rest
  }

  /** The collected ids the catalogue does not hold, in order. */
  function MissingIds(ids: seq<ObjectId>, byId: map<ObjectId, Product>): (r: seq<ObjectId>)
    ensures forall id :: id in r <==> id in ids && id !in byId
  {
    if ids == [] then []
    else (if ids[0] in byId then [] else [ids[0]]) + MissingIds(ids[1..], byId)
  }

  // ------------------------------------------------------------ item lines

  /** The fields every item of one order shares, and the scaling factor. */
  datatype Header = Header(
    fecIni: Day,
    glosa: string,
    orden: string,
    codigoProducto: string,
    descripcionProducto: string,
    cantidad: real,
    factor: real)

  /** Python's `a or b` on strings. */
  function Or(a: string, b: string): string {
    if a != [] then a else b
  }

  function HeaderFor(ot: int, c: ContentIn, pt: Product, v: Version): Header {
    var ptNombre := pt.nombre.GetOr("");
    Header(c.fechaIni, Or(c.encargado, Or(c.linea, Or(ptNombre, c.sku))), IntToDecimal(ot), c.sku,
           Or(ptNombre, c.sku), c.cantidad, c.cantidad / BaseQty(v))
  }

  function ItemOf(h: Header, p: Product, qty: real): Item {
    Item(h.fecIni, h.glosa, h.orden, h.codigoProducto, h.descripcionProducto, h.cantidad,
         p.sku, Or(p.nombre.GetOr(""), p.sku), qty)
  }

  /**
   * One pass of the second loop: the component's product must be found; a
   * non-positive quantity is skipped; a product without SKU, or a quantity that
   * rounds to zero, stops the explosion.
   */
  function LineFor(c: Component, h: Header, byId: map<ObjectId, Product>, round6: real -> real): (r: Result<Option<Item>, ExplodeError>)
    ensures r.Err? ==> r.error.ComponentProductMissing? || r.error.ComponentWithoutSku? || r.error.MaterialNotPositive?
    ensures r.Ok? && r.value.Some? ==>
      c.productId.Oid? && c.productId.id in byId && MaterialQty(c, h.factor) > 0.0
      && r.value.value == ItemOf(h, byId[c.productId.id], round6(MaterialQty(c, h.factor)))
      && r.value.value.codigoMaterial != [] && r.value.value.cantidadMaterial > 0.0
    ensures r.Ok? && r.value.None? <==> c.productId.Oid? && c.productId.id in byId && MaterialQty(c, h.factor) <= 0.0
  {
    match c.productId
    case NotAnId(_) => Err(ComponentProductMissing(c.productId))
    case Oid(id) =>
      if id !in byId then Err(ComponentProductMissing(c.productId))
      else
        var qty := MaterialQty(c, h.factor);
        if qty <= 0.0 then Ok(None)
        else if byId[id].sku == [] then Err(ComponentWithoutSku(id))
        else if round6(qty) <= 0.0 then Err(MaterialNotPositive(id))
        else Ok(Some(ItemOf(h, byId[id], round6(qty))))
  }

  function Lines(cs: seq<Component>, h: Header, byId: map<ObjectId, Product>, round6: real -> real): (r: Result<seq<Item>, ExplodeError>)
    ensures r.Ok? <==> forall i :: 0 <= i < |cs| ==> LineFor(cs[i], h, byId, round6).Ok?
    ensures r.Ok? ==> |r.value| <= |cs|
    ensures r.Err? ==> r.error.ComponentProductMissing? || r.error.ComponentWithoutSku? || r.error.MaterialNotPositive?
  {
    if cs == [] then Ok([])
    else
      assert forall i :: 1 <= i < |cs| ==> cs[i] == cs[1..][i - 1];
      var l := LineFor(cs[0], h, byId, round6);
      if l.Err? then Err(l.error)
      else Prepend(if l.value.Some? then [l.value.value] else [], Lines(cs[1..], h, byId, round6))
  }

  /** The components whose scaled quantity is positive, in order. */
  function Positive(cs: seq<Component>, factor: real): (r: seq<Component>)
    ensures |r| <= |cs|
    ensures forall c :: c in r <==> c in cs && MaterialQty(c, factor) > 0.0
  {
    if cs == [] then []
    else (if MaterialQty(cs[0], factor) > 0.0 then [cs[0]] else []) + Positive(cs[1..], factor)
  }

  /**
   * The lines are exactly the positive components, in order, each with its
   * product's SKU and its rounded quantity.
   */
  lemma {:induction false} LinesArePositive(cs: seq<Component>, h: Header, byId: map<ObjectId, Product>, round6: real -> real)
    requires Lines(cs, h, byId, round6).Ok?
    ensures |Lines(cs, h, byId, round6).value| == |Positive(cs, h.factor)|
    ensures forall k :: 0 <= k < |Positive(cs, h.factor)| ==>
      var c := Positive(cs, h.factor)[k];
      c.productId.Oid? && c.productId.id in byId
      && Lines(cs, h, byId, round6).value[k] == ItemOf(h, byId[c.productId.id], round6(MaterialQty(c, h.factor)))
  {
    if cs != [] {
      assert LineFor(cs[0], h, byId, round6).Ok?;
      LinesArePositive(cs[1..], h, byId, round6);
    }
  }

  // ------------------------------------------------------------ exclusion

  /** The stripped material codes of the items. */
  function Codes(items: seq<Item>): seq<string> {
    seq(|items|, i requires 0 <= i < |items| => Strip(items[i].codigoMaterial))
  }

  /** The items whose stripped code is not in `excluded`, in order. */
  function KeepNotExcluded(items: seq<Item>, excluded: set<string>): (r: seq<Item>)
    ensures |r| <= |items|
  {
    KeepUnless(items, (it: Item) => Strip(it.codigoMaterial) in excluded)
  }

  /** The elements of `xs` for which `drop` is false, in order. */
  function KeepUnless<T>(xs: seq<T>, drop: T -> bool): (r: seq<T>)
    ensures |r| <= |xs|
  {
    if xs == [] then []
    else
      var n := |xs| - 1;
      KeepUnless(xs[..n], drop) + (if drop(xs[n]) then [] else [xs[n]])
  }

  /** Membership in `KeepUnless`. */
  lemma {:induction false} KeepUnlessMembers<T>(xs: seq<T>, drop: T -> bool)
    ensures forall x :: x in KeepUnless(xs, drop) <==> x in xs && !drop(x)
  {
    if xs != [] {
      var n := |xs| - 1;
      KeepUnlessMembers(xs[..n], drop);
      assert xs == xs[..n] + [xs[n]];
    }
  }

  /** Dropping nothing keeps the sequence as it is. */
  lemma {:induction false} KeepUnlessAll<T>(xs: seq<T>, drop: T -> bool)
    requires forall x :: x in xs ==> !drop(x)
    ensures KeepUnless(xs, drop) == xs
  {
    if xs != [] {
      var n := |xs| - 1;
      assert xs[n] in xs;
      KeepUnlessAll(xs[..n], drop);
      assert xs == xs[..n] + [xs[n]];
    }
  }

  /** An item is kept exactly when it is among the items and its stripped code is not excluded. */
  lemma KeepNotExcludedMembers(items: seq<Item>, excluded: set<string>)
    ensures forall it :: it in KeepNotExcluded(items, excluded) <==> it in items && Strip(it.codigoMaterial) !in excluded
  {
    KeepUnlessMembers(items, (it: Item) => Strip(it.codigoMaterial) in excluded);
  }

  /** With nothing excluded, every item is kept in place. */
  lemma KeepAllWhenNoneExcluded(items: seq<Item>, excluded: set<string>)
    requires forall it :: it in items ==> Strip(it.codigoMaterial) !in excluded
    ensures KeepNotExcluded(items, excluded) == items
  {
    KeepUnlessAll(items, (it: Item) => Strip(it.codigoMaterial) in excluded);
  }

  /**
   * `_filter_excluded_skus_from_payload`: no items, or nothing excluded, leaves the
   * list as it is; otherwise the excluded codes are removed, and removing all of
   * them is an error.
   */
  function FilterExcluded(stored: seq<StoredSku>, items: seq<Item>): (r: Result<seq<Item>, ExplodeError>)
    ensures items == [] ==> r == Ok(items)
    ensures r.Ok? ==> forall it :: it in r.value <==>
      it in items && Strip(it.codigoMaterial) !in Excluded(stored, CandidatesOf(Codes(items)))
    ensures Excluded(stored, CandidatesOf(Codes(items))) == {} ==> r == Ok(items)
    ensures r.Err? <==> items != [] && Excluded(stored, CandidatesOf(Codes(items))) != {}
                        && KeepNotExcluded(items, Excluded(stored, CandidatesOf(Codes(items)))) == []
    ensures r.Err? ==> r.error == AllExcluded
  {
    if items == [] then Ok(items)
    else
      var excluded := Excluded(stored, CandidatesOf(Codes(items)));
      if excluded == {} then Ok(items)
      else
        var kept := KeepNotExcluded(items, excluded);
        KeepNotExcludedMembers(items, excluded);
        if kept == [] then Err(AllExcluded) else Ok(kept)
  }

  method FilterExcludedItems(stored: seq<StoredSku>, items: seq<Item>) returns (r: Result<seq<Item>, ExplodeError>)
    ensures r == FilterExcluded(stored, items)
  {
    if items == [] {
      return Ok(items);
    }
    var excluded := FindMatchingSkus(stored, Codes(items));
    if excluded == {} {
      return Ok(items);
    }
    var kept := KeepNotExcluded(items, excluded);
    if kept == [] {
      return Err(AllExcluded);
    }
    r := Ok(kept);
  }

  /**
   * The filter as evidently intended: an item is removed when a stored exclusion
   * matches its code in either spelling, so the caller's own spelling is compared.
   */
  function FilterExcludedIntended(stored: seq<StoredSku>, items: seq<Item>): (r: Result<seq<Item>, ExplodeError>)
    ensures r.Ok? ==> forall it :: it in r.value <==> it in items && !Covered(stored, Strip(it.codigoMaterial))
    ensures r.Err? ==> r.error == AllExcluded
  {
    if items == [] then Ok(items)
    else
      var excluded := ExcludedInputs(stored, Codes(items));
      InputsExactlyCovered(stored, items);
      var kept := KeepNotExcluded(items, excluded);
      KeepNotExcludedMembers(items, excluded);
      if kept == [] then Err(AllExcluded) else Ok(kept)
  }

  /** An item's stripped code is among the excluded inputs exactly when a stored exclusion covers it. */
  lemma InputsExactlyCovered(stored: seq<StoredSku>, items: seq<Item>)
    ensures forall it :: it in items ==>
      (Strip(it.codigoMaterial) in ExcludedInputs(stored, Codes(items)) <==> Covered(stored, Strip(it.codigoMaterial)))
  {
    var codes := Codes(items);
    ExcludedInputsMembers(stored, codes);
    forall it | it in items
      ensures Strip(it.codigoMaterial) in ExcludedInputs(stored, codes) <==> Covered(stored, Strip(it.codigoMaterial))
    {
      var x := Strip(it.codigoMaterial);
      var i :| 0 <= i < |items| && items[i] == it;
      assert codes[i] == x && Strip(x) == x;
      if x in ExcludedInputs(stored, codes) {
        var k :| 0 <= k < |codes| && Strip(codes[k]) == x && Covered(stored, codes[k]);
        assert Strip(codes[k]) == codes[k];
      }
    }
  }

  /** As written, a material coded "007" survives an exclusion stored as the integer 7. */
  lemma LeadingZeroKept(it: Item)
    requires it.codigoMaterial == "007"
    ensures FilterExcluded([SkuInt(7)], [it]) == Ok([it])
  {
    assert Strip("007") == "007";
    assert Codes([it]) == ["007"];
    LeadingZeroAnswer();
    var none: seq<Item> := [];
    assert [it][..0] == none;
    assert KeepNotExcluded([it], {"7"}) == [it];
  }

  /** As intended, the same material is removed, and with it the whole (single-item) list is refused. */
  lemma LeadingZeroRemoved(it: Item)
    requires it.codigoMaterial == "007"
    ensures FilterExcludedIntended([SkuInt(7)], [it]) == Err(AllExcluded)
  {
    assert Strip("007") == "007";
    assert Codes([it]) == ["007"];
    LeadingZeroCovered();
    var none: seq<Item> := [];
    assert [it][..0] == none;
    assert KeepNotExcluded([it], ExcludedInputs([SkuInt(7)], ["007"])) == [];
  }

  // ------------------------------------------------------------ explosion

  /**
   * The version an order for `sku` explodes: none when the sku is not a PT or its
   * recipe is missing or has no versions, else the version `ChosenIndex` picks.
   */
  function ChosenVersion(cat: Catalog, recipes: map<ObjectId, Recipe>, sku: string): (r: Option<Version>)
    ensures r.Some? <==>
      PtBySku(cat, sku).Some? && PtBySku(cat, sku).value.id in recipes && recipes[PtBySku(cat, sku).value.id].versiones != []
    ensures r.Some? ==> var rec := recipes[PtBySku(cat, sku).value.id]; r.value == rec.versiones[ChosenIndex(rec)]
  {
    var pt := PtBySku(cat, sku);
    if pt.None? || pt.value.id !in recipes || recipes[pt.value.id].versiones == [] then None
    else Some(recipes[pt.value.id].versiones[ChosenIndex(recipes[pt.value.id])])
  }

  /**
   * `build_wms_integration_items` for a validated order: find the PT and its
   * recipe, choose the version, collect and check the component ids, build one
   * line per positive component, then apply the exclusion filter.
   */
  function Explode(cat: Catalog, recipes: map<ObjectId, Recipe>, stored: seq<StoredSku>, ot: int, c: ContentIn, round6: real -> real): (r: Result<seq<Item>, ExplodeError>)
    requires ContentValid(c)
    ensures r == Err(PtNotFound(c.sku)) <==> PtBySku(cat, c.sku).None?
    ensures r == Err(RecipeNotFound(c.sku)) <==> PtBySku(cat, c.sku).Some? && ChosenVersion(cat, recipes, c.sku).None?
    ensures r == Err(RecipeWithoutComponents(c.sku)) <==>
      ChosenVersion(cat, recipes, c.sku).Some? && ChosenVersion(cat, recipes, c.sku).value.componentes == []
    ensures r.Err? && r.error.BadProductId? <==>
      ChosenVersion(cat, recipes, c.sku).Some? && ChosenVersion(cat, recipes, c.sku).value.componentes != [] &&
      ComponentIds(ChosenVersion(cat, recipes, c.sku).value.componentes).Err?
    ensures r.Ok? ==>
      var v := ChosenVersion(cat, recipes, c.sku).value;
      var lines := Lines(v.componentes, HeaderFor(ot, c, PtBySku(cat, c.sku).value, v), cat.byId, round6);
      ChosenVersion(cat, recipes, c.sku).Some? && v.componentes != [] &&
      ComponentIds(v.componentes).Ok? && MissingIds(ComponentIds(v.componentes).value, cat.byId) == [] &&
      lines.Ok? && r == FilterExcluded(stored, lines.value)
    ensures r.Ok? ==> forall it :: it in r.value ==>
      it.orden == IntToDecimal(ot) && it.codigoProducto == c.sku && it.glosaOrden == c.encargado
      && it.cantidadAFabricar == c.cantidad && it.fecIniOrden == c.fechaIni
      && it.codigoMaterial != [] && it.cantidadMaterial > 0.0
  {
    var pt := PtBySku(cat, c.sku);
    if pt.None? then Err(PtNotFound(c.sku))
    else if pt.value.id !in recipes || recipes[pt.value.id].versiones == [] then Err(RecipeNotFound(c.sku))
    else
      var recipe := recipes[pt.value.id];
      var v := recipe.versiones[ChosenIndex(recipe)];
      if v.componentes == [] then Err(RecipeWithoutComponents(c.sku))
      else
        var ids := ComponentIds(v.componentes);
        if ids.Err? then Err(ids.error)
        else if ids.value == [] then Err(NoProductIds)
        else
          var missing := MissingIds(ids.value, cat.byId);
          if missing != [] then Err(ProductsNotFound(missing))
          else
            var h := HeaderFor(ot, c, pt.value, v);
            var lines := Lines(v.componentes, h, cat.byId, round6);
            if lines.Err? then Err(lines.error)
            else
              LinesShareHeader(v.componentes, h, cat.byId, round6);
              FilterExcluded(stored, lines.value)
  }

  lemma {:induction false} LinesShareHeader(cs: seq<Component>, h: Header, byId: map<ObjectId, Product>, round6: real -> real)
    requires Lines(cs, h, byId, round6).Ok?
    ensures forall it :: it in Lines(cs, h, byId, round6).value ==>
      it.orden == h.orden && it.codigoProducto == h.codigoProducto && it.glosaOrden == h.glosa
      && it.cantidadAFabricar == h.cantidad && it.fecIniOrden == h.fecIni
      && it.codigoMaterial != [] && it.cantidadMaterial > 0.0
  {
    if cs != [] {
      assert LineFor(cs[0], h, byId, round6).Ok?;
      LinesShareHeader(cs[1..], h, byId, round6);
    }
  }

  method CollectComponentIds(cs: seq<Component>) returns (r: Result<seq<ObjectId>, ExplodeError>)
    ensures r == ComponentIds(cs)
  {
    var ids: seq<ObjectId> := [];
    var i := 0;
    assert cs[0..] == cs;
    PrependNil(ComponentIds(cs));
    while i < |cs|
      invariant 0 <= i <= |cs|
      invariant ComponentIds(cs) == Prepend(ids, ComponentIds(cs[i..]))
    {
      assert cs[i..][1..] == cs[i + 1..];
      var pid := cs[i].productId;
      if pid.NotAnId? {
        if pid.raw != [] {
          return Err(BadProductId(pid.raw));
        }
      } else {
        PrependAssoc(ids, [pid.id], ComponentIds(cs[i + 1..]));
        ids := ids + [pid.id];
      }
      i := i + 1;
    }
    assert ComponentIds(cs[i..]) == Ok([]);
    assert ids + [] == ids;
    r := Ok(ids);
  }

  method BuildLines(cs: seq<Component>, h: Header, byId: map<ObjectId, Product>, round6: real -> real) returns (r: Result<seq<Item>, ExplodeError>)
    ensures r == Lines(cs, h, byId, round6)
  {
    var items: seq<Item> := [];
    var i := 0;
    assert cs[0..] == cs;
    PrependNil(Lines(cs, h, byId, round6));
    while i < |cs|
      invariant 0 <= i <= |cs|
      invariant Lines(cs, h, byId, round6) == Prepend(items, Lines(cs[i..], h, byId, round6))
    {
      assert cs[i..][1..] == cs[i + 1..];
      var c := cs[i];
      if c.productId.NotAnId? || c.productId.id !in byId {
        return Err(ComponentProductMissing(c.productId));
      }
      var p := byId[c.productId.id];
      var qty := c.cantidadPorBase * h.factor;
      if c.mermaPct != 0.0 {
        qty := qty * (1.0 + c.mermaPct / 100.0);
      }
      assert qty == MaterialQty(c, h.factor);
      if qty > 0.0 {
        if p.sku == [] {
          return Err(ComponentWithoutSku(c.productId.id));
        }
        if round6(qty) <= 0.0 {
          return Err(MaterialNotPositive(c.productId.id));
        }
        PrependAssoc(items, [ItemOf(h, p, round6(qty))], Lines(cs[i + 1..], h, byId, round6));
        items := items + [ItemOf(h, p, round6(qty))];
      } else {
        PrependNil(Lines(cs[i + 1..], h, byId, round6));
      }
      i := i + 1;
    }
    assert Lines(cs[i..], h, byId, round6) == Ok([]);
    assert items + [] == items;
    r := Ok(items);
  }

  /** `build_wms_integration_items`, with its two loops over the components. */
  method BuildWmsIntegrationItems(cat: Catalog, recipes: map<ObjectId, Recipe>, stored: seq<StoredSku>, ot: int, c: ContentIn, round6: real -> real)
    returns (r: Result<seq<Item>, ExplodeError>)
    requires ContentValid(c)
    ensures r == Explode(cat, recipes, stored, ot, c, round6)
  {
    var pt := PtBySku(cat, c.sku);
    if pt.None? {
      return Err(PtNotFound(c.sku));
    }
    if pt.value.id !in recipes || recipes[pt.value.id].versiones == [] {
      return Err(RecipeNotFound(c.sku));
    }
    var recipe := recipes[pt.value.id];
    var v := recipe.versiones[ChosenIndex(recipe)];
    if v.componentes == [] {
      return Err(RecipeWithoutComponents(c.sku));
    }
    var ids := CollectComponentIds(v.componentes);
    if ids.Err? {
      return Err(ids.error);
    }
    if ids.value == [] {
      return Err(NoProductIds);
    }
    var missing := MissingIds(ids.value, cat.byId);
    if missing != [] {
      return Err(ProductsNotFound(missing));
    }
    var h := HeaderFor(ot, c, pt.value, v);
    var lines := BuildLines(v.componentes, h, cat.byId, round6);
    if lines.Err? {
      return Err(lines.error);
    }
    r := FilterExcludedItems(stored, lines.value);
  }
}
