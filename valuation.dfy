/**
 * Recipe valuation: the unit cost of a material under a cost method, one
 * breakdown line per component, and the total with the special-process cost.
 * Python's `round(x, 6)` is the parameter `round6`, and `str(ObjectId)` is `oidStr`.
 */
module Valuation {
  import opened Wrappers
  import opened Text
  import opened Parsing
  import opened Calendar
  import opened Catalog
  import opened Recipes
  import opened RecipeService

  /** `_num_or_zero`: a finite number is kept; NaN, the infinities and anything `float()` rejects give 0. */
  function NumOrZero(v: Option<Num>): (r: real)
    ensures v.Some? && v.value.Finite? ==> r == v.value.value
    ensures !(v.Some? && v.value.Finite?) ==> r == 0.0
  {
    if v.Some? && v.value.Finite? then v.value.value else 0.0
  }

  /**
   * `_get_unit_cost`: "pneto" reads pneto, else last; "piva" reads piva, else 1.19 times
   * a positive pneto (rounded), else last; any other method reads last, else pneto.
   * A field counts as absent only when missing or null, so a present but unusable
   * value gives 0 without falling back.
   */
  function UnitCost(p: Product, costMethod: string, round6: real -> real): (r: real)
    ensures costMethod == "pneto" ==> r == NumOrZero(if p.pneto.Some? then p.pneto else p.last)
    ensures costMethod == "piva" && p.piva.Some? ==> r == NumOrZero(p.piva)
    ensures costMethod == "piva" && p.piva.None? && NumOrZero(p.pneto) > 0.0 ==> r == round6(NumOrZero(p.pneto) * 1.19)
    ensures costMethod == "piva" && p.piva.None? && NumOrZero(p.pneto) <= 0.0 ==> r == NumOrZero(p.last)
    ensures costMethod != "pneto" && costMethod != "piva" ==> r == NumOrZero(if p.last.Some? then p.last else p.pneto)
  {
    if costMethod == "pneto" then NumOrZero(if p.pneto.Some? then p.pneto else p.last)
    else if costMethod == "piva" then
      if p.piva.Some? then NumOrZero(p.piva)
      else
        var pn := NumOrZero(p.pneto);
        if pn > 0.0 then round6(pn * 1.19) else NumOrZero(p.last)
    else NumOrZero(if p.last.Some? then p.last else p.pneto)
  }

  /** A finite value of one of the product's cost fields. */
  predicate FieldValue(p: Product, x: real) {
    p.pneto == Some(Finite(x)) || p.piva == Some(Finite(x)) || p.last == Some(Finite(x))
  }

  /**
   * Whatever the method, the unit cost is 0, a finite value stored on the product,
   * or the rounded 1.19 times a positive pneto (only under "piva" with no piva).
   */
  lemma UnitCostSource(p: Product, costMethod: string, round6: real -> real)
    ensures var r := UnitCost(p, costMethod, round6);
            r == 0.0 || FieldValue(p, r) ||
            (costMethod == "piva" && p.piva.None? && NumOrZero(p.pneto) > 0.0 && r == round6(NumOrZero(p.pneto) * 1.19))
  {
  }

  /** A breakdown line; every text field is a string, never null. */
  datatype BreakdownLine = BreakdownLine(
    sku: string, productId: string, descripcion: string, unidad: string,
    unitCost: real, qtyEff: real, subtotal: real)

  datatype Warning =
    | InvalidProductId(raw: string)
    | ProductNotFound(id: string)
    | MissingSku(id: string)
    | MissingCost(subject: string, costMethod: string)

  /** `round(qty * (1 + merma / 100), 6)`: the quantity with the merma percentage added. */
  function EffectiveQty(qty: real, mermaPct: real, round6: real -> real): real {
    round6(qty * (1.0 + mermaPct / 100.0))
  }

  /** `round(qty_eff * unit_cost, 6)`. */
  function Subtotal(qtyEff: real, unitCost: real, round6: real -> real): real {
    round6(qtyEff * unitCost)
  }

  function ZeroLine(productId: string): BreakdownLine {
    BreakdownLine("", productId, "", "", 0.0, 0.0, 0.0)
  }

  /**
   * The line and warnings of one component: an id that is not an ObjectId or names no
   * product gives a zero line and a warning; otherwise the effective quantity applies
   * the merma and the subtotal prices it at the unit cost.
   */
  function ComponentLine(cat: Catalog, c: Component, costMethod: string, round6: real -> real, oidStr: ObjectId -> string)
    : (res: (BreakdownLine, seq<Warning>))
    ensures c.productId.NotAnId? ==> res == (ZeroLine(c.productId.raw), [InvalidProductId(c.productId.raw)])
    ensures c.productId.Oid? && c.productId.id !in cat.byId ==>
      res == (ZeroLine(oidStr(c.productId.id)), [ProductNotFound(oidStr(c.productId.id))])
    ensures c.productId.Oid? && c.productId.id in cat.byId ==>
      var p := cat.byId[c.productId.id];
      res.0.productId == oidStr(c.productId.id) &&
      res.0.unitCost == UnitCost(p, costMethod, round6) &&
      res.0.qtyEff == EffectiveQty(c.cantidadPorBase, c.mermaPct, round6) &&
      res.0.subtotal == Subtotal(res.0.qtyEff, res.0.unitCost, round6) &&
      res.0.sku == (if Strip(p.sku) == [] then "" else p.sku) &&
      (Strip(p.sku) == [] <==> MissingSku(oidStr(c.productId.id)) in res.1) &&
      (res.0.unitCost == 0.0 <==> exists w :: w in res.1 && w.MissingCost?)
  {
    match c.productId
    case NotAnId(raw) => (ZeroLine(raw), [InvalidProductId(raw)])
    case Oid(id) =>
      if id !in cat.byId then (ZeroLine(oidStr(id)), [ProductNotFound(oidStr(id))])
      else
        var p := cat.byId[id];
        var pid := oidStr(id);
        var skuMissing := Strip(p.sku) == [];
        var sku := if skuMissing then "" else p.sku;
        var w1 := if skuMissing then [MissingSku(pid)] else [];
        var qtyEff := EffectiveQty(c.cantidadPorBase, c.mermaPct, round6);
        var unitCost := UnitCost(p, costMethod, round6);
        var w2 := if unitCost == 0.0 then [MissingCost(if sku != "" then sku else pid, costMethod)] else [];
        assert w2 != [] ==> w2[0] in w1 + w2;
        (BreakdownLine(sku, pid, p.nombre.GetOr(""), p.unidad.GetOr(""), unitCost, qtyEff, Subtotal(qtyEff, unitCost, round6)), w1 + w2)
  }

  /** The breakdown of a component list: its lines in order, and its warnings in order. */
  function Breakdown(cat: Catalog, cs: seq<Component>, costMethod: string, round6: real -> real, oidStr: ObjectId -> string)
    : (res: (seq<BreakdownLine>, seq<Warning>))
    ensures |res.0| == |cs|
  {
    if cs == [] then ([], [])
    else
      var prev := Breakdown(cat, cs[..|cs| - 1], costMethod, round6, oidStr);
      var last := ComponentLine(cat, cs[|cs| - 1], costMethod, round6, oidStr);
      (prev.0 + [last.0], prev.1 + last.1)
  }

  /** Line `i` of the breakdown is the pricing of component `i`. */
  lemma {:induction false} BreakdownLines(cat: Catalog, cs: seq<Component>, costMethod: string, round6: real -> real, oidStr: ObjectId -> string)
    ensures forall i :: 0 <= i < |cs| ==>
      Breakdown(cat, cs, costMethod, round6, oidStr).0[i] == ComponentLine(cat, cs[i], costMethod, round6, oidStr).0
  {
    if cs != [] {
      var n := |cs| - 1;
      BreakdownLines(cat, cs[..n], costMethod, round6, oidStr);
      assert forall i :: 0 <= i < n ==> cs[..n][i] == cs[i];
    }
  }

  /** `sum(x["subtotal"] for x in breakdown)`, added left to right. */
  function SumSubtotals(lines: seq<BreakdownLine>): real {
    if lines == [] then 0.0 else SumSubtotals(lines[..|lines| - 1]) + lines[|lines| - 1].subtotal
  }

  /** The valuation response (without the clock reading `valued_at`). */
  datatype ValuationOut = ValuationOut(
    skuPT: string, version: int, currency: string,
    breakdown: seq<BreakdownLine>, processCost: real, total: real, warnings: seq<Warning>)

  /** The valuation of one version, once found. */
  function ValueOf(cat: Catalog, skuPT: string, n: int, v: Version, costMethod: string, currency: string,
                   round6: real -> real, oidStr: ObjectId -> string): (out: ValuationOut)
    ensures |out.breakdown| == |v.componentes|
    ensures out.processCost == v.especialCosto.GetOr(0.0)
    ensures out.total == round6(round6(SumSubtotals(out.breakdown)) + out.processCost)
  {
    var b := Breakdown(cat, v.componentes, costMethod, round6, oidStr);
    var processCost := if v.especialCosto.Some? then v.especialCosto.value else 0.0;
    ValuationOut(skuPT, n, currency, b.0, processCost, round6(round6(SumSubtotals(b.0)) + processCost), b.1)
  }

  /** The process reference plays no part: only the special-process cost is added. */
  lemma ProcessIdIgnored(cat: Catalog, skuPT: string, n: int, v: Version, pid: Option<ObjectId>, costMethod: string,
                         currency: string, round6: real -> real, oidStr: ObjectId -> string)
    ensures ValueOf(cat, skuPT, n, v.(processId := pid), costMethod, currency, round6, oidStr)
         == ValueOf(cat, skuPT, n, v, costMethod, currency, round6, oidStr)
  {
  }

  /** `preview_valuation` as a function: the PT, its recipe and the version must exist. */
  function Valuate(recipes: map<ObjectId, Recipe>, cat: Catalog, skuPT: string, n: int, costMethod: string, currency: string,
                   round6: real -> real, oidStr: ObjectId -> string): (r: Result<ValuationOut, RecipeError>)
    ensures PtBySku(cat, skuPT).None? ==> r == Err(PtNotFound(skuPT))
    ensures PtBySku(cat, skuPT).Some? && PtBySku(cat, skuPT).value.id !in recipes ==> r == Err(RecipeMissing)
    ensures r.Ok? <==>
      PtBySku(cat, skuPT).Some? && PtBySku(cat, skuPT).value.id in recipes &&
      HasVersion(recipes[PtBySku(cat, skuPT).value.id], n)
    ensures r.Ok? ==>
      var vs := recipes[PtBySku(cat, skuPT).value.id].versiones;
      r.value == ValueOf(cat, skuPT, n, vs[VersionIndex(vs, n).value], costMethod, currency, round6, oidStr)
  {
    match PtBySku(cat, skuPT)
    case None => Err(PtNotFound(skuPT))
    case Some(pt) =>
      if pt.id !in recipes then Err(RecipeMissing)
      else
        var vs := recipes[pt.id].versiones;
        match VersionIndex(vs, n)
        case None => Err(VersionMissing(n))
        case Some(i) => Ok(ValueOf(cat, skuPT, n, vs[i], costMethod, currency, round6, oidStr))
  }

  /** The component loop of `preview_valuation`: one line, and any warnings, per component. */
  method PriceComponents(cat: Catalog, cs: seq<Component>, costMethod: string, round6: real -> real, oidStr: ObjectId -> string)
    returns (breakdown: seq<BreakdownLine>, warnings: seq<Warning>)
    ensures (breakdown, warnings) == Breakdown(cat, cs, costMethod, round6, oidStr)
  {
    breakdown, warnings := [], [];
    var i := 0;
    while i < |cs|
      invariant 0 <= i <= |cs|
      invariant (breakdown, warnings) == Breakdown(cat, cs[..i], costMethod, round6, oidStr)
    {
      var line := ComponentLine(cat, cs[i], costMethod, round6, oidStr);
      breakdown := breakdown + [line.0];
      warnings := warnings + line.1;
      assert cs[..i + 1][..i] == cs[..i];
      i := i + 1;
    }
    assert cs[..i] == cs;
  }

  /**
   * `preview_valuation`: the components are priced one by one, appending a line
   * and any warnings for each, before the totals are formed.
   */
  method PreviewValuation(recipes: map<ObjectId, Recipe>, cat: Catalog, skuPT: string, n: int, costMethod: string,
                          currency: string, round6: real -> real, oidStr: ObjectId -> string)
    returns (r: Result<ValuationOut, RecipeError>)
    ensures r == Valuate(recipes, cat, skuPT, n, costMethod, currency, round6, oidStr)
  {
    var pt := PtBySku(cat, skuPT);
    if pt.None? {
      return Err(PtNotFound(skuPT));
    }
    if pt.value.id !in recipes {
      return Err(RecipeMissing);
    }
    var vs := recipes[pt.value.id].versiones;
    var vi := VersionIndex(vs, n);
    if vi.None? {
      return Err(VersionMissing(n));
    }
    var ver := vs[vi.value];
    var breakdown, warnings := PriceComponents(cat, ver.componentes, costMethod, round6, oidStr);
    var processCost := 0.0;
    if ver.especialCosto.Some? {
      processCost := ver.especialCosto.value;
    }
    var totalMateriales := round6(SumSubtotals(breakdown));
    r := Ok(ValuationOut(skuPT, n, currency, breakdown, processCost, round6(totalMateriales + processCost), warnings));
  }

  /** `value_version`: the same valuation whatever `persist` says; nothing is written. */
  method ValueVersion(recipes: map<ObjectId, Recipe>, cat: Catalog, skuPT: string, n: int, costMethod: string,
                      currency: string, persist: bool, round6: real -> real, oidStr: ObjectId -> string)
    returns (r: Result<ValuationOut, RecipeError>)
    ensures r == Valuate(recipes, cat, skuPT, n, costMethod, currency, round6, oidStr)
  {
    r := PreviewValuation(recipes, cat, skuPT, n, costMethod, currency, round6, oidStr);
  }

  /**
   * The persisting endpoint (`POST .../valorizar`): the body's cost method is read
   * but "pneto" is used, with `persist` set; an error is a 422.
   */
  method ValuePersistEndpoint(recipes: map<ObjectId, Recipe>, cat: Catalog, skuPT: string, n: int, bodyMethod: string,
                              currency: string, round6: real -> real, oidStr: ObjectId -> string)
    returns (r: Result<ValuationOut, RecipeError>)
    ensures r == Valuate(recipes, cat, skuPT, n, "pneto", currency, round6, oidStr)
  {
    r := ValueVersion(recipes, cat, skuPT, n, "pneto", currency, true, round6, oidStr);
  }

  /** The preview endpoint passes the body's cost method through. */
  method ValuePreviewEndpoint(recipes: map<ObjectId, Recipe>, cat: Catalog, skuPT: string, n: int, bodyMethod: string,
                              currency: string, round6: real -> real, oidStr: ObjectId -> string)
    returns (r: Result<ValuationOut, RecipeError>)
    ensures r == Valuate(recipes, cat, skuPT, n, bodyMethod, currency, round6, oidStr)
  {
    r := ValueVersion(recipes, cat, skuPT, n, bodyMethod, currency, false, round6, oidStr);
  }

  /**
   * Every line of a valuation is either a zero line for a component whose product
   * cannot be read, or the product's unit cost times the merma-adjusted quantity.
   */
  lemma ValuationLines(recipes: map<ObjectId, Recipe>, cat: Catalog, skuPT: string, n: int, costMethod: string, currency: string,
                       round6: real -> real, oidStr: ObjectId -> string)
    requires Valuate(recipes, cat, skuPT, n, costMethod, currency, round6, oidStr).Ok?
    ensures var vs := recipes[PtBySku(cat, skuPT).value.id].versiones;
            var cs := vs[VersionIndex(vs, n).value].componentes;
            var out := Valuate(recipes, cat, skuPT, n, costMethod, currency, round6, oidStr).value;
            |out.breakdown| == |cs| &&
            forall i :: 0 <= i < |cs| ==>
              var l := out.breakdown[i];
              if cs[i].productId.Oid? && cs[i].productId.id in cat.byId then
                l.unitCost == UnitCost(cat.byId[cs[i].productId.id], costMethod, round6) &&
                l.qtyEff == EffectiveQty(cs[i].cantidadPorBase, cs[i].mermaPct, round6) &&
                l.subtotal == Subtotal(l.qtyEff, l.unitCost, round6)
              else l.unitCost == 0.0 && l.qtyEff == 0.0 && l.subtotal == 0.0
  {
    var vs := recipes[PtBySku(cat, skuPT).value.id].versiones;
    var v := vs[VersionIndex(vs, n).value];
    var out := Valuate(recipes, cat, skuPT, n, costMethod, currency, round6, oidStr).value;
    var b := Breakdown(cat, v.componentes, costMethod, round6, oidStr);
    assert out.breakdown == b.0;
    BreakdownLines(cat, v.componentes, costMethod, round6, oidStr);
    forall i | 0 <= i < |v.componentes|
      ensures out.breakdown[i] == ComponentLine(cat, v.componentes[i], costMethod, round6, oidStr).0
    {
    }
  }
}
