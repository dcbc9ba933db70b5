/**
 * Promotion of a staged CSV batch into recipes (`promote_staging_batch`): rows are
 * grouped by (sku_PT, version), each group is turned into one version document,
 * and the document creates a recipe, is rejected, replaces a version or is
 * appended, under the `overwrite_version` and `dry_run` flags. Reading a float
 * is the parameter `parseFloat`; the publication-date formats are `parseDate`.
 */
module Promotion {
  import opened Wrappers
  import opened Text
  import opened Parsing
  import opened Calendar
  import opened Catalog
  import opened Aggregation
  import opened Recipes
  import opened RecipeRepo
  import opened RecipeService

  // ------------------------------------------------------------ conversions

  const TRUE_WORDS: set<string> := {"true", "1", "si", "sí", "y", "yes"}

  /**
   * `_to_bool` on a staged value (text, or None, whose `str` is "None"): true exactly
   * when the stripped, lower-cased text is one of the words for yes.
   */
  function ToBool(v: Option<string>): (b: bool)
    ensures v.None? ==> !b
    ensures b ==> Lower(Strip(v.value)) in TRUE_WORDS
  {
    v.Some? && Lower(Strip(v.value)) in TRUE_WORDS
  }

  /** `float(v)` when it gives a finite number; None for null, unparseable text, NaN and the infinities. */
  function FiniteNum(v: Option<string>, parseFloat: string -> Num): (r: Option<real>)
    ensures r.Some? <==> v.Some? && parseFloat(v.value).Finite?
    ensures r.Some? ==> r.value == parseFloat(v.value).value
  {
    if v.Some? && parseFloat(v.value).Finite? then Some(parseFloat(v.value).value) else None
  }

  /** `_to_num(v, default)`. */
  function ToNum(v: Option<string>, default: real, parseFloat: string -> Num): (r: real)
    ensures v.None? ==> r == default
    ensures v.Some? && !parseFloat(v.value).Finite? ==> r == default
    ensures v.Some? && parseFloat(v.value).Finite? ==> r == parseFloat(v.value).value
  {
    FiniteNum(v, parseFloat).GetOr(default)
  }

  // --------------------------------------------------------------- grouping

  /** A value of a staged row; a missing key reads as None. */
  function Field(r: StagedRow, name: string): Option<string> {
    if name in r.fields then r.fields[name] else None
  }

  datatype GroupKey = GroupKey(skuPT: string, version: int)

  /** `(str(sku_PT or "").strip(), int(_to_num(version, 0)))`. */
  function KeyOf(r: StagedRow, parseFloat: string -> Num): GroupKey {
    GroupKey(Strip(Field(r, "sku_PT").GetOr("")), Trunc(ToNum(Field(r, "version"), 0.0, parseFloat)))
  }

  /** A row joins a group only with a non-empty sku and a positive version. */
  predicate ValidKey(k: GroupKey) { k.skuPT != [] && k.version > 0 }

  /** The key of every staged row, in order. */
  function RowKeys(rows: seq<StagedRow>, parseFloat: string -> Num): (ks: seq<GroupKey>)
    ensures |ks| == |rows| && forall i :: 0 <= i < |rows| ==> ks[i] == KeyOf(rows[i], parseFloat)
  {
    seq(|rows|, i requires 0 <= i < |rows| => KeyOf(rows[i], parseFloat))
  }

  /** The keys of `grupos`, in the order they were first seen: exactly the valid keys, each once. */
  function GroupKeys(ks: seq<GroupKey>): seq<GroupKey>
  {
    if ks == [] then []
    else
      var p := GroupKeys(ks[..|ks| - 1]);
      if ValidKey(ks[|ks| - 1]) && ks[|ks| - 1] !in p then p + [ks[|ks| - 1]] else p
  }

  /** The group keys are distinct, and are exactly the valid keys of the rows. */
  lemma {:induction false} GroupKeysExact(ks: seq<GroupKey>)
    ensures var g := GroupKeys(ks);
      (forall i, j :: 0 <= i < j < |g| ==> g[i] != g[j])
      && (forall k :: k in g <==> ValidKey(k) && k in ks)
  {
    if ks != [] {
      var n := |ks| - 1;
      GroupKeysExact(ks[..n]);
      assert ks == ks[..n] + [ks[n]];
    }
  }

  /** The rows of one group, in batch order. */
  function RowsOf(rows: seq<StagedRow>, ks: seq<GroupKey>, k: GroupKey): (g: seq<StagedRow>)
    requires |rows| == |ks|
    ensures |g| <= |rows|
    ensures k !in ks ==> g == []
  {
    if rows == [] then []
    else
      var n := |rows| - 1;
      assert ks == ks[..n] + [ks[n]];
      var p := RowsOf(rows[..n], ks[..n], k);
      if ks[n] == k then p + [rows[n]] else p
  }

  /** The rows that get a warning instead of a group. */
  function InvalidRows(rows: seq<StagedRow>, ks: seq<GroupKey>): (bad: seq<StagedRow>)
    requires |rows| == |ks|
    ensures |bad| <= |rows|
  {
    if rows == [] then []
    else
      var n := |rows| - 1;
      var p := InvalidRows(rows[..n], ks[..n]);
      if ValidKey(ks[n]) then p else p + [rows[n]]
  }

  /** `grupos` as a map from each key to its rows. */
  function Groups(rows: seq<StagedRow>, ks: seq<GroupKey>): (m: map<GroupKey, seq<StagedRow>>)
    requires |rows| == |ks|
    ensures forall k :: k in m <==> k in GroupKeys(ks)
  {
    map k | k in GroupKeys(ks) :: RowsOf(rows, ks, k)
  }

  /** One more row lands at the end of its own key's rows and nowhere else. */
  lemma RowsOfSnoc(rows: seq<StagedRow>, ks: seq<GroupKey>, r: StagedRow, k: GroupKey, x: GroupKey)
    requires |rows| == |ks|
    ensures RowsOf(rows + [r], ks + [k], x) == RowsOf(rows, ks, x) + (if x == k then [r] else [])
  {
    assert (rows + [r])[..|rows|] == rows && (ks + [k])[..|ks|] == ks;
  }

  /** A row with a bad key leaves the groups as they were. */
  lemma GroupsSnocInvalid(rows: seq<StagedRow>, ks: seq<GroupKey>, r: StagedRow, k: GroupKey)
    requires |rows| == |ks| && !ValidKey(k)
    ensures Groups(rows + [r], ks + [k]) == Groups(rows, ks)
  {
    var rows', ks' := rows + [r], ks + [k];
    assert ks'[..|ks|] == ks;
    var g, g' := Groups(rows, ks), Groups(rows', ks');
    assert GroupKeys(ks') == GroupKeys(ks);
    forall x | x in g'
      ensures g'[x] == g[x]
    {
      RowsOfSnoc(rows, ks, r, k, x);
      GroupKeysExact(ks');
      assert x != k;
    }
  }

  /** A row with a valid key goes to the end of its group, which is created when new. */
  lemma GroupsSnocValid(rows: seq<StagedRow>, ks: seq<GroupKey>, r: StagedRow, k: GroupKey)
    requires |rows| == |ks| && ValidKey(k)
    ensures Groups(rows + [r], ks + [k]) == Groups(rows, ks)[k := RowsOf(rows, ks, k) + [r]]
  {
    var rows', ks' := rows + [r], ks + [k];
    assert ks'[..|ks|] == ks;
    var g, g' := Groups(rows, ks), Groups(rows', ks');
    var want := g[k := RowsOf(rows, ks, k) + [r]];
    var p := GroupKeys(ks);
    assert GroupKeys(ks') == if k !in p then p + [k] else p;
    assert forall x :: x in g' <==> x in want;
    forall x | x in g'
      ensures g'[x] == want[x]
    {
      RowsOfSnoc(rows, ks, r, k, x);
    }
  }

  /** Appending a row with a valid key appends it to that key's group, creating the group when new. */
  lemma GroupsSnoc(rows: seq<StagedRow>, ks: seq<GroupKey>, r: StagedRow, k: GroupKey)
    requires |rows| == |ks|
    ensures Groups(rows + [r], ks + [k]) ==
      if !ValidKey(k) then Groups(rows, ks) else Groups(rows, ks)[k := RowsOf(rows, ks, k) + [r]]
  {
    if ValidKey(k) {
      GroupsSnocValid(rows, ks, r, k);
    } else {
      GroupsSnocInvalid(rows, ks, r, k);
    }
  }

  /** What one more row does to the keys, the groups and the rows set aside. */
  lemma GroupingSnoc(rows: seq<StagedRow>, ks: seq<GroupKey>, i: nat)
    requires |rows| == |ks| && i < |rows|
    ensures var k, g := ks[i], Groups(rows[..i], ks[..i]);
            GroupKeys(ks[..i + 1]) == (if ValidKey(k) && k !in GroupKeys(ks[..i]) then GroupKeys(ks[..i]) + [k] else GroupKeys(ks[..i])) &&
            InvalidRows(rows[..i + 1], ks[..i + 1]) == (if ValidKey(k) then InvalidRows(rows[..i], ks[..i]) else InvalidRows(rows[..i], ks[..i]) + [rows[i]]) &&
            Groups(rows[..i + 1], ks[..i + 1]) == (if !ValidKey(k) then g else g[k := (if k in g then g[k] else []) + [rows[i]]])
  {
    var k := ks[i];
    assert rows[..i + 1] == rows[..i] + [rows[i]] && ks[..i + 1] == ks[..i] + [k];
    assert ks[..i + 1][..i] == ks[..i] && rows[..i + 1][..i] == rows[..i];
    GroupsSnoc(rows[..i], ks[..i], rows[i], k);
    GroupKeysExact(ks[..i]);
    if ValidKey(k) && k !in Groups(rows[..i], ks[..i]) {
      assert RowsOf(rows[..i], ks[..i], k) == [];
    }
  }

  /**
   * The grouping loop over the rows and their keys: a row with a bad key is set
   * aside, any other joins its group, creating it on first sight.
   */
  method GroupRows(rows: seq<StagedRow>, ks: seq<GroupKey>)
    returns (keys: seq<GroupKey>, groups: map<GroupKey, seq<StagedRow>>, invalid: seq<StagedRow>)
    requires |rows| == |ks|
    ensures keys == GroupKeys(ks)
    ensures groups == Groups(rows, ks)
    ensures invalid == InvalidRows(rows, ks)
  {
    keys, groups, invalid := [], map[], [];
    var i := 0;
    while i < |rows|
      invariant 0 <= i <= |rows|
      invariant keys == GroupKeys(ks[..i])
      invariant groups == Groups(rows[..i], ks[..i])
      invariant invalid == InvalidRows(rows[..i], ks[..i])
    {
      GroupingSnoc(rows, ks, i);
      keys, groups, invalid := GroupRow(keys, groups, invalid, rows[i], ks[i]);
      i := i + 1;
    }
    assert rows[..i] == rows && ks[..i] == ks;
  }

  /** One row of the grouping loop: set aside, appended to its group, or opening a new group. */
  method GroupRow(keys: seq<GroupKey>, groups: map<GroupKey, seq<StagedRow>>, invalid: seq<StagedRow>, row: StagedRow, k: GroupKey)
    returns (keys': seq<GroupKey>, groups': map<GroupKey, seq<StagedRow>>, invalid': seq<StagedRow>)
    requires k in groups <==> k in keys
    ensures keys' == (if ValidKey(k) && k !in keys then keys + [k] else keys)
    ensures invalid' == (if ValidKey(k) then invalid else invalid + [row])
    ensures groups' == (if !ValidKey(k) then groups else groups[k := (if k in groups then groups[k] else []) + [row]])
  {
    keys', groups', invalid' := keys, groups, invalid;
    if !ValidKey(k) {
      invalid' := invalid + [row];
    } else if k in groups {
      groups' := groups[k := groups[k] + [row]];
    } else {
      assert [] + [row] == [row];
      keys' := keys + [k];
      groups' := groups[k := [row]];
    }
  }

  /** Every row of a group carries the group's key, and every valid row is in the group of its key. */
  lemma {:induction false} RowsOfExact(rows: seq<StagedRow>, ks: seq<GroupKey>, k: GroupKey)
    requires |rows| == |ks|
    ensures forall x :: x in RowsOf(rows, ks, k) ==> exists j :: 0 <= j < |rows| && ks[j] == k && rows[j] == x
    ensures forall j :: 0 <= j < |rows| && ks[j] == k ==> rows[j] in RowsOf(rows, ks, k)
  {
    if rows != [] {
      var n := |rows| - 1;
      RowsOfExact(rows[..n], ks[..n], k);
    }
  }

  /** Every valid row lands in exactly the group of its key; the invalid rows are exactly the ones with a bad key. */
  lemma GroupsPartition(rows: seq<StagedRow>, ks: seq<GroupKey>, i: nat)
    requires |rows| == |ks| && i < |rows|
    ensures ValidKey(ks[i]) ==> ks[i] in Groups(rows, ks) && rows[i] in Groups(rows, ks)[ks[i]]
    ensures forall k :: k in Groups(rows, ks) ==>
      forall x :: x in Groups(rows, ks)[k] ==> exists j :: 0 <= j < |rows| && ks[j] == k && rows[j] == x
  {
    forall k | k in Groups(rows, ks)
      ensures forall x :: x in Groups(rows, ks)[k] ==> exists j :: 0 <= j < |rows| && ks[j] == k && rows[j] == x
    {
      RowsOfExact(rows, ks, k);
    }
    RowsOfExact(rows, ks, ks[i]);
    GroupKeysExact(ks);
  }

  /** The rows set aside are exactly those with an empty sku or a version that is not positive. */
  lemma {:induction false} InvalidRowsExact(rows: seq<StagedRow>, ks: seq<GroupKey>)
    requires |rows| == |ks|
    ensures forall j :: 0 <= j < |rows| && !ValidKey(ks[j]) ==> rows[j] in InvalidRows(rows, ks)
    ensures forall x :: x in InvalidRows(rows, ks) ==> exists j :: 0 <= j < |rows| && !ValidKey(ks[j]) && rows[j] == x
  {
    if rows != [] {
      var n := |rows| - 1;
      InvalidRowsExact(rows[..n], ks[..n]);
    }
  }

  // ----------------------------------------------------------------- header

  predicate NonBlank(v: Option<string>) { v.Some? && Strip(v.value) != [] }

  /** Row `i` holds the first non-blank value of `name`. */
  predicate FirstAt(rows: seq<StagedRow>, name: string, i: int) {
    0 <= i < |rows| && NonBlank(Field(rows[i], name)) &&
    forall j :: 0 <= j < i ==> !NonBlank(Field(rows[j], name))
  }

  /** `first(key)`: the value of the first row where it is present and not blank. */
  function First(rows: seq<StagedRow>, name: string): Option<string>
  {
    if rows == [] then None
    else if NonBlank(Field(rows[0], name)) then Field(rows[0], name)
    else First(rows[1..], name)
  }

  /** `first` answers None exactly when no row has the field non-blank, and otherwise the earliest such value. */
  lemma {:induction false} FirstSpec(rows: seq<StagedRow>, name: string)
    ensures var r := First(rows, name);
      r.None? <==> forall i :: 0 <= i < |rows| ==> !NonBlank(Field(rows[i], name))
    ensures var r := First(rows, name);
      r.Some? ==> exists i :: FirstAt(rows, name, i) && Field(rows[i], name) == r
  {
    if rows == [] {
    } else if NonBlank(Field(rows[0], name)) {
      assert FirstAt(rows, name, 0);
    } else {
      var t := First(rows[1..], name);
      FirstSpec(rows[1..], name);
      assert forall i :: 1 <= i < |rows| ==> rows[i] == rows[1..][i - 1];
      if t.Some? {
        var i :| FirstAt(rows[1..], name, i) && Field(rows[1..][i], name) == t;
        assert FirstAt(rows, name, i + 1);
      }
    }
  }

  /** The header fields of a group. */
  datatype Header = Header(
    estado: string, marcar: bool, baseQty: real, unidadPT: Option<string>, publicadoPor: Option<string>,
    fechaRaw: Option<string>, processCodigo: Option<string>, especialNombre: Option<string>, especialCosto: Option<real>)

  /**
   * Each header field is the first non-blank value of the group: estado is stripped
   * and lower-cased (default "borrador"), base_qty defaults to 1, a special cost that
   * does not read as a finite number is None.
   */
  function HeaderOf(rows: seq<StagedRow>, parseFloat: string -> Num): (h: Header)
    ensures First(rows, "estado").None? ==> h.estado == BORRADOR
    ensures First(rows, "estado").Some? ==> h.estado == Lower(Strip(First(rows, "estado").value))
    ensures h.marcar == ToBool(First(rows, "marcar_vigente"))
    ensures h.baseQty == ToNum(First(rows, "base_qty"), 1.0, parseFloat)
    ensures h.unidadPT == First(rows, "unidad_PT") && h.publicadoPor == First(rows, "publicado_por")
    ensures h.fechaRaw == First(rows, "fecha_publicacion") && h.processCodigo == First(rows, "process_codigo")
    ensures h.especialNombre == First(rows, "process_especial_nombre")
    ensures h.especialCosto == FiniteNum(First(rows, "process_especial_costo"), parseFloat)
  {
    var estado := First(rows, "estado");
    Header(
      if estado.None? then BORRADOR else Lower(Strip(estado.value)),
      ToBool(First(rows, "marcar_vigente")),
      ToNum(First(rows, "base_qty"), 1.0, parseFloat),
      First(rows, "unidad_PT"),
      First(rows, "publicado_por"),
      First(rows, "fecha_publicacion"),
      First(rows, "process_codigo"),
      First(rows, "process_especial_nombre"),
      if First(rows, "process_especial_costo").None? then None else FiniteNum(First(rows, "process_especial_costo"), parseFloat))
  }

  // ------------------------------------------------------------- components

  function SkuMP(r: StagedRow): string { Strip(Field(r, "sku_MP").GetOr("")) }

  /** `rr.get("unidad_MP") or None`: an empty unit is None. */
  function UnidadMP(r: StagedRow): Option<string> {
    var u := Field(r, "unidad_MP");
    if u.Some? && u.value != "" then u else None
  }

  /** What each row with a material contributes to `comp_map`; rows without one are skipped. */
  function MpItems(rows: seq<StagedRow>, parseFloat: string -> Num): (items: seq<(string, Line)>)
    ensures |items| <= |rows|
    ensures forall i :: 0 <= i < |items| ==> items[i].0 != []
  {
    if rows == [] then []
    else
      var n := |rows| - 1;
      var p := MpItems(rows[..n], parseFloat);
      var r := rows[n];
      if SkuMP(r) == [] then p
      else p + [(SkuMP(r), Line(ToNum(Field(r, "cantidad_por_base"), 0.0, parseFloat), UnidadMP(r), ToNum(Field(r, "merma_pct"), 0.0, parseFloat)))]
  }

  /** The number of rows without a material, one warning each. */
  function RowsWithoutMp(rows: seq<StagedRow>): (n: nat)
    ensures n <= |rows|
  {
    if rows == [] then 0
    else RowsWithoutMp(rows[..|rows| - 1]) + (if SkuMP(rows[|rows| - 1]) == [] then 1 else 0)
  }

  lemma {:induction false} MpItemsCount(rows: seq<StagedRow>, parseFloat: string -> Num)
    ensures |MpItems(rows, parseFloat)| + RowsWithoutMp(rows) == |rows|
  {
    if rows != [] {
      MpItemsCount(rows[..|rows| - 1], parseFloat);
    }
  }

  /** The materials among `keys` that the catalog knows, in order. */
  function Known(cat: Catalog, keys: seq<string>): (f: seq<string>)
    ensures forall k :: k in f <==> k in keys && k in cat.bySku
  {
    if keys == [] then []
    else
      var n := |keys| - 1;
      assert keys == keys[..n] + [keys[n]];
      var p := Known(cat, keys[..n]);
      if keys[n] in cat.bySku then p + [keys[n]] else p
  }

  /** The materials among `keys` that the catalog does not know, in order. */
  function Unknown(cat: Catalog, keys: seq<string>): (f: seq<string>)
    ensures forall k :: k in f <==> k in keys && k !in cat.bySku
  {
    if keys == [] then []
    else
      var n := |keys| - 1;
      assert keys == keys[..n] + [keys[n]];
      var p := Unknown(cat, keys[..n]);
      if keys[n] in cat.bySku then p else p + [keys[n]]
  }

  /** The component a known material contributes: the product id with the merged quantity, unit and waste. */
  function ComponentFor(cat: Catalog, lines: map<string, Line>, k: string): Component
    requires k in cat.bySku && k in lines
  {
    Component(Oid(cat.bySku[k].id), lines[k].qty, lines[k].unidad, lines[k].merma)
  }

  /**
   * The loop over `comp_map`: each material is looked up by sku (any tipo); the
   * known ones become components in map order, the unknown ones are reported.
   */
  function Resolve(cat: Catalog, keys: seq<string>, lines: map<string, Line>): (r: (seq<Component>, seq<string>))
    requires forall i :: 0 <= i < |keys| ==> keys[i] in lines
    ensures |r.0| + |r.1| == |keys|
    ensures |r.0| == |Known(cat, keys)| &&
            forall i :: 0 <= i < |r.0| ==> r.0[i] == ComponentFor(cat, lines, Known(cat, keys)[i])
    ensures r.1 == Unknown(cat, keys)
  {
    if keys == [] then ([], [])
    else
      var n := |keys| - 1;
      var p := Resolve(cat, keys[..n], lines);
      var k := keys[n];
      match ProductBySku(cat, k)
      case None => (p.0, p.1 + [k])
      case Some(mp) => (p.0 + [Component(Oid(mp.id), lines[k].qty, lines[k].unidad, lines[k].merma)], p.1)
  }

  // ------------------------------------------------------------ per group

  datatype Issue =
    | InvalidRow(row: StagedRow)
    | PtMissing(skuPT: string)
    | BadFecha(raw: Option<string>, key: GroupKey)
    | ProcessNotFound(codigo: string, key: GroupKey)
    | RowWithoutMp(key: GroupKey)
    | MpMissing(skuMP: string, key: GroupKey)
    | NoComponents(key: GroupKey)
    | VersionKept(key: GroupKey)

  /** A group turned into a version document for a PT. */
  datatype Built = Built(pt: ObjectId, doc: Version, marcar: bool)

  /** What a group yields before the store is consulted: a document or nothing, plus warnings and errors. */
  datatype Prepared = Prepared(built: Option<Built>, warnings: seq<Issue>, errores: seq<Issue>)

  /** The parameters of a promotion run. */
  datatype Env = Env(
    cat: Catalog, overwrite: bool, dryRun: bool, now: Instant,
    parseFloat: string -> Num, parseDate: (PubFormat, string) -> Option<Instant>)

  function Repeat(x: Issue, n: nat): (s: seq<Issue>)
    ensures |s| == n && forall i :: 0 <= i < n ==> s[i] == x
  {
    if n == 0 then [] else Repeat(x, n - 1) + [x]
  }

  function MissingIssues(skus: seq<string>, key: GroupKey): (s: seq<Issue>)
    ensures |s| == |skus| && forall i :: 0 <= i < |skus| ==> s[i] == MpMissing(skus[i], key)
  {
    seq(|skus|, i requires 0 <= i < |skus| => MpMissing(skus[i], key))
  }

  /** A group's material rows merged by sku (`comp_map`), then resolved against the catalog. */
  function ComponentsOf(cat: Catalog, items: seq<(string, Line)>): (r: (seq<Component>, seq<string>))
    ensures |r.0| + |r.1| == |Fold(items).keys|
    ensures r.1 == Unknown(cat, Fold(items).keys)
  {
    FoldKeys(items);
    Resolve(cat, Fold(items).keys, Fold(items).lines)
  }

  /**
   * A group whose PT exists, from its header and its resolved components: an
   * unreadable publication date or no component skips it; an unknown process
   * code only warns. The document carries the process id, or else the special
   * name and cost.
   */
  function PrepareFrom(key: GroupKey, pt: ObjectId, h: Header, comps: (seq<Component>, seq<string>), blankRows: nat, env: Env): (p: Prepared)
    ensures p.built.Some? ==>
      p.built.value.pt == pt && p.built.value.marcar == h.marcar &&
      p.built.value.doc.number == key.version && p.built.value.doc.estado == h.estado &&
      p.built.value.doc.componentes == comps.0 != [] &&
      (p.built.value.doc.processId.Some? ==> p.built.value.doc.especialNombre.None? && p.built.value.doc.especialCosto.None?)
    ensures p.built.None? ==> |p.warnings| + |p.errores| > 0
    ensures p.built.Some? ==> |p.errores| == |comps.1|
  {
    var fecha := NormalizePublication(if h.fechaRaw.Some? then DateText(h.fechaRaw.value) else NoDate, env.now, env.parseDate);
    if fecha.None? then Prepared(None, [], [BadFecha(h.fechaRaw, key)])
    else
      var processId := if h.processCodigo.Some? then ProcessByCode(env.cat, Strip(h.processCodigo.value)) else None;
      var wProc := if h.processCodigo.Some? && processId.None? then [ProcessNotFound(h.processCodigo.value, key)] else [];
      var warnings := wProc + Repeat(RowWithoutMp(key), blankRows);
      var errores := MissingIssues(comps.1, key);
      if comps.0 == [] then Prepared(None, warnings + [NoComponents(key)], errores)
      else
        var doc := Version(key.version, h.estado, fecha.value, h.publicadoPor, h.baseQty, h.unidadPT, processId,
                           if processId.None? then h.especialNombre else None,
                           if processId.None? then h.especialCosto else None, comps.0);
        Prepared(Some(Built(pt, doc, h.marcar)), warnings, errores)
  }

  /** One group up to the store decision; an unknown PT skips it with an error. */
  function Prepare(key: GroupKey, rows: seq<StagedRow>, env: Env): (p: Prepared)
    ensures PtBySku(env.cat, key.skuPT).None? ==> p == Prepared(None, [], [PtMissing(key.skuPT)])
    ensures p.built.Some? ==>
      PtBySku(env.cat, key.skuPT).Some? && p.built.value.pt == PtBySku(env.cat, key.skuPT).value.id &&
      p.built.value.doc.number == key.version && p.built.value.doc.componentes != [] &&
      p.built.value.marcar == HeaderOf(rows, env.parseFloat).marcar &&
      p.built.value.doc.estado == HeaderOf(rows, env.parseFloat).estado
    ensures p.built.None? ==> |p.warnings| + |p.errores| > 0
  {
    match PtBySku(env.cat, key.skuPT)
    case None => Prepared(None, [], [PtMissing(key.skuPT)])
    case Some(pt) =>
      PrepareFrom(key, pt.id, HeaderOf(rows, env.parseFloat), ComponentsOf(env.cat, MpItems(rows, env.parseFloat)), RowsWithoutMp(rows), env)
  }

  // ------------------------------------------------------------ store step

  datatype Counters = Counters(
    gruposProcesados: nat, recetasCreadas: nat, recetasActualizadas: nat,
    versionesAgregadas: nat, versionesRechazadas: nat, vigentesSeteadas: nat)

  /** The state a promotion threads through its groups. */
  datatype Run = Run(recipes: map<ObjectId, Recipe>, counters: Counters, warnings: seq<Issue>, errores: seq<Issue>)

  /** The recipe a group creates for a PT without one. */
  function NewRecipe(b: Built, now: Instant): Recipe {
    Recipe(b.pt, if b.marcar then Some(b.doc.number) else None, [b.doc], now, now)
  }

  /**
   * The store decision for a prepared document: no recipe → create; the version
   * exists and may not be overwritten → reject; a dry run only counts; overwrite →
   * replace in place (`vigenteVersion` untouched); otherwise append.
   */
  function Apply(run: Run, key: GroupKey, b: Built, env: Env): Run {
    var c := run.counters;
    var vig := if b.marcar then 1 else 0;
    if b.pt !in run.recipes then
      var c' := c.(recetasCreadas := c.recetasCreadas + 1, vigentesSeteadas := c.vigentesSeteadas + vig);
      if env.dryRun then run.(counters := c')
      else run.(recipes := run.recipes[b.pt := NewRecipe(b, env.now)], counters := c')
    else
      var r := run.recipes[b.pt];
      var idx := VersionIndex(r.versiones, key.version);
      if idx.Some? && !env.overwrite then
        run.(counters := c.(versionesRechazadas := c.versionesRechazadas + 1), warnings := run.warnings + [VersionKept(key)])
      else if env.dryRun then
        if idx.Some? then run.(counters := c.(recetasActualizadas := c.recetasActualizadas + 1, vigentesSeteadas := c.vigentesSeteadas + vig))
        else run.(counters := c.(versionesAgregadas := c.versionesAgregadas + 1, vigentesSeteadas := c.vigentesSeteadas + vig))
      else if idx.Some? then
        run.(recipes := run.recipes[b.pt := ReplaceVersionAt(r, idx.value, b.doc, env.now)],
             counters := c.(recetasActualizadas := c.recetasActualizadas + 1))
      else
        run.(recipes := run.recipes[b.pt := PushVersion(r, b.doc, b.marcar, env.now)],
             counters := c.(versionesAgregadas := c.versionesAgregadas + 1, vigentesSeteadas := c.vigentesSeteadas + vig))
  }

  /** One group of the main loop, given what `Prepare` made of its rows. */
  function GroupStep(run: Run, key: GroupKey, p: Prepared, env: Env): Run {
    var run1 := run.(warnings := run.warnings + p.warnings, errores := run.errores + p.errores);
    if p.built.None? then run1 else Apply(run1, key, p.built.value, env)
  }

  /** The groups processed in order, each seeing the store the previous ones left. */
  function RunAll(run: Run, keys: seq<GroupKey>, preps: seq<Prepared>, env: Env): Run
    requires |keys| == |preps|
  {
    if keys == [] then run
    else
      var n := |keys| - 1;
      GroupStep(RunAll(run, keys[..n], preps[..n], env), keys[n], preps[n], env)
  }

  /** Every group prepared from its own rows. */
  function Preps(keys: seq<GroupKey>, groups: map<GroupKey, seq<StagedRow>>, env: Env): (ps: seq<Prepared>)
    requires forall i :: 0 <= i < |keys| ==> keys[i] in groups
    ensures |ps| == |keys|
  {
    seq(|keys|, i requires 0 <= i < |keys| => Prepare(keys[i], groups[keys[i]], env))
  }

  function InvalidIssues(rows: seq<StagedRow>): (s: seq<Issue>)
    ensures |s| == |rows| && forall i :: 0 <= i < |rows| ==> s[i] == InvalidRow(rows[i])
  {
    seq(|rows|, i requires 0 <= i < |rows| => InvalidRow(rows[i]))
  }

  /** The state before the first group: the counters start at zero, except the number of groups. */
  function Start(recipes: map<ObjectId, Recipe>, rows: seq<StagedRow>, parseFloat: string -> Num): Run {
    var ks := RowKeys(rows, parseFloat);
    Run(recipes, Counters(|GroupKeys(ks)|, 0, 0, 0, 0, 0), InvalidIssues(InvalidRows(rows, ks)), [])
  }

  /** `promote_staging_batch` as a function of the store and the staged rows. */
  function Promote(recipes: map<ObjectId, Recipe>, staged: seq<StagedRow>, batchId: string, env: Env): Run {
    var rows := InBatch(staged, batchId);
    var ks := RowKeys(rows, env.parseFloat);
    RunAll(Start(recipes, rows, env.parseFloat), GroupKeys(ks), Preps(GroupKeys(ks), Groups(rows, ks), env), env)
  }

  /** The store part of one group: read the recipe, then insert, replace, push or do nothing. */
  method ApplyBuilt(store: RecipeStore, counters: Counters, warnings: seq<Issue>, ghost errores: seq<Issue>,
                    key: GroupKey, b: Built, env: Env)
    returns (counters': Counters, warnings': seq<Issue>)
    requires store.Valid()
    modifies store
    ensures store.Valid()
    ensures Run(store.recipes, counters', warnings', errores) ==
            Apply(Run(old(store.recipes), counters, warnings, errores), key, b, env)
  {
    counters', warnings' := counters, warnings;
    var vig := if b.marcar then 1 else 0;
    var existing := store.FindByPtId(b.pt);
    if existing.None? {
      if !env.dryRun {
        var _ := store.InsertRecipe(NewRecipe(b, env.now));
      }
      counters' := counters'.(recetasCreadas := counters'.recetasCreadas + 1, vigentesSeteadas := counters'.vigentesSeteadas + vig);
      return;
    }
    var idx := VersionIndex(existing.value.versiones, key.version);
    if idx.Some? && !env.overwrite {
      counters' := counters'.(versionesRechazadas := counters'.versionesRechazadas + 1);
      warnings' := warnings' + [VersionKept(key)];
      return;
    }
    if env.dryRun {
      if idx.Some? {
        counters' := counters'.(recetasActualizadas := counters'.recetasActualizadas + 1);
      } else {
        counters' := counters'.(versionesAgregadas := counters'.versionesAgregadas + 1);
      }
      counters' := counters'.(vigentesSeteadas := counters'.vigentesSeteadas + vig);
    } else if idx.Some? {
      store.ReplaceVersion(b.pt, idx.value, b.doc, env.now);
      counters' := counters'.(recetasActualizadas := counters'.recetasActualizadas + 1);
    } else {
      var _ := store.PushRecipeVersion(b.pt, b.doc, b.marcar, env.now);
      counters' := counters'.(versionesAgregadas := counters'.versionesAgregadas + 1, vigentesSeteadas := counters'.vigentesSeteadas + vig);
    }
  }

  /** One iteration of the main loop: prepare the group, record its issues, then act on the store. */
  method PromoteGroup(store: RecipeStore, counters: Counters, warnings: seq<Issue>, errores: seq<Issue>,
                      key: GroupKey, rows: seq<StagedRow>, env: Env)
    returns (counters': Counters, warnings': seq<Issue>, errores': seq<Issue>)
    requires store.Valid()
    modifies store
    ensures store.Valid()
    ensures Run(store.recipes, counters', warnings', errores') ==
            GroupStep(Run(old(store.recipes), counters, warnings, errores), key, Prepare(key, rows, env), env)
  {
    var p := Prepare(key, rows, env);
    counters', warnings', errores' := counters, warnings + p.warnings, errores + p.errores;
    if p.built.Some? {
      counters', warnings' := ApplyBuilt(store, counters', warnings', errores', key, p.built.value, env);
    }
  }

  /** The main loop: the groups in first-seen order, each against the store the previous ones left. */
  method PromoteGroups(store: RecipeStore, counters0: Counters, warnings0: seq<Issue>,
                       keys: seq<GroupKey>, groups: map<GroupKey, seq<StagedRow>>, env: Env) returns (res: Run)
    requires store.Valid()
    requires forall i :: 0 <= i < |keys| ==> keys[i] in groups
    modifies store
    ensures store.Valid()
    ensures res == RunAll(Run(old(store.recipes), counters0, warnings0, []), keys, Preps(keys, groups, env), env)
    ensures store.recipes == res.recipes
  {
    ghost var start := Run(store.recipes, counters0, warnings0, []);
    ghost var preps := Preps(keys, groups, env);
    var counters, warnings, errores := counters0, warnings0, [];
    var i := 0;
    while i < |keys|
      invariant 0 <= i <= |keys|
      invariant store.Valid()
      invariant Run(store.recipes, counters, warnings, errores) == RunAll(start, keys[..i], preps[..i], env)
    {
      assert keys[..i + 1][..i] == keys[..i] && preps[..i + 1][..i] == preps[..i];
      assert preps[i] == Prepare(keys[i], groups[keys[i]], env);
      counters, warnings, errores := PromoteGroup(store, counters, warnings, errores, keys[i], groups[keys[i]], env);
      i := i + 1;
    }
    assert keys[..i] == keys && preps[..i] == preps;
    res := Run(store.recipes, counters, warnings, errores);
  }

  /** `promote_staging_batch`: group the batch's rows, then process each group against the store. */
  method PromoteStagingBatch(store: RecipeStore, staging: StagingStore, batchId: string, env: Env) returns (res: Run)
    requires store.Valid()
    modifies store
    ensures store.Valid()
    ensures res == Promote(old(store.recipes), staging.rows, batchId, env)
    ensures store.recipes == res.recipes
  {
    var rows := InBatch(staging.rows, batchId);
    var ks := RowKeys(rows, env.parseFloat);
    var keys, groups, invalid := GroupRows(rows, ks);
    res := PromoteGroups(store, Counters(|keys|, 0, 0, 0, 0, 0), InvalidIssues(invalid), keys, groups, env);
  }

  // ------------------------------------------------------------- properties

  /** A dry run writes nothing. */
  lemma {:induction false} DryRunNoWrites(run: Run, keys: seq<GroupKey>, preps: seq<Prepared>, env: Env)
    requires |keys| == |preps| && env.dryRun
    ensures RunAll(run, keys, preps, env).recipes == run.recipes
  {
    if keys != [] {
      var n := |keys| - 1;
      DryRunNoWrites(run, keys[..n], preps[..n], env);
    }
  }

  /** A dry promotion leaves the recipes as they were. */
  lemma DryPromotionNoWrites(recipes: map<ObjectId, Recipe>, staged: seq<StagedRow>, batchId: string, env: Env)
    requires env.dryRun
    ensures Promote(recipes, staged, batchId, env).recipes == recipes
  {
    var rows := InBatch(staged, batchId);
    var ks := RowKeys(rows, env.parseFloat);
    DryRunNoWrites(Start(recipes, rows, env.parseFloat), GroupKeys(ks), Preps(GroupKeys(ks), Groups(rows, ks), env), env);
  }

  /** The four outcome counters together. */
  function Outcomes(c: Counters): nat {
    c.recetasCreadas + c.recetasActualizadas + c.versionesAgregadas + c.versionesRechazadas
  }

  /**
   * A group bumps at most one outcome counter, and counts a vigente only together
   * with a creation, a replacement or an append; in a real run, never with a
   * replacement. The number of groups is never touched.
   */
  lemma StepCounts(run: Run, key: GroupKey, p: Prepared, env: Env)
    ensures var c, c' := run.counters, GroupStep(run, key, p, env).counters;
            c'.gruposProcesados == c.gruposProcesados &&
            Outcomes(c) <= Outcomes(c') <= Outcomes(c) + 1 &&
            c.vigentesSeteadas <= c'.vigentesSeteadas &&
            c'.vigentesSeteadas - c.vigentesSeteadas <=
              (c'.recetasCreadas - c.recetasCreadas) + (c'.versionesAgregadas - c.versionesAgregadas) +
              (if env.dryRun then c'.recetasActualizadas - c.recetasActualizadas else 0) &&
            c.recetasCreadas <= c'.recetasCreadas && c.versionesAgregadas <= c'.versionesAgregadas &&
            c.recetasActualizadas <= c'.recetasActualizadas
  {
  }

  /**
   * Over a whole run: the outcome counters add up to at most the number of groups,
   * and vigentes are counted only for creations and appends (and, in a dry run,
   * for overwrites too).
   */
  lemma {:induction false} RunAllCounts(run: Run, keys: seq<GroupKey>, preps: seq<Prepared>, env: Env)
    requires |keys| == |preps|
    ensures var c, c' := run.counters, RunAll(run, keys, preps, env).counters;
            c'.gruposProcesados == c.gruposProcesados &&
            Outcomes(c) <= Outcomes(c') <= Outcomes(c) + |keys| &&
            c.vigentesSeteadas <= c'.vigentesSeteadas &&
            c.recetasCreadas <= c'.recetasCreadas && c.versionesAgregadas <= c'.versionesAgregadas &&
            c.recetasActualizadas <= c'.recetasActualizadas &&
            c'.vigentesSeteadas - c.vigentesSeteadas <=
              (c'.recetasCreadas - c.recetasCreadas) + (c'.versionesAgregadas - c.versionesAgregadas) +
              (if env.dryRun then c'.recetasActualizadas - c.recetasActualizadas else 0)
  {
    if keys != [] {
      var n := |keys| - 1;
      RunAllCounts(run, keys[..n], preps[..n], env);
      StepCounts(RunAll(run, keys[..n], preps[..n], env), keys[n], preps[n], env);
    }
  }

  /** For a whole promotion: every outcome belongs to a distinct group, and `gruposProcesados` is the number of keys. */
  lemma PromoteCounts(recipes: map<ObjectId, Recipe>, staged: seq<StagedRow>, batchId: string, env: Env)
    ensures var rows := InBatch(staged, batchId);
            var c := Promote(recipes, staged, batchId, env).counters;
            c.gruposProcesados == |GroupKeys(RowKeys(rows, env.parseFloat))| &&
            Outcomes(c) <= c.gruposProcesados &&
            c.vigentesSeteadas <= c.recetasCreadas + c.versionesAgregadas + (if env.dryRun then c.recetasActualizadas else 0)
  {
    var rows := InBatch(staged, batchId);
    var ks := RowKeys(rows, env.parseFloat);
    RunAllCounts(Start(recipes, rows, env.parseFloat), GroupKeys(ks), Preps(GroupKeys(ks), Groups(rows, ks), env), env);
  }

  /** A group that yields no document changes neither the store nor the counters, and leaves a warning or an error. */
  lemma GroupIsolation(run: Run, key: GroupKey, rows: seq<StagedRow>, env: Env)
    requires Prepare(key, rows, env).built.None?
    ensures var after := GroupStep(run, key, Prepare(key, rows, env), env);
            after.recipes == run.recipes && after.counters == run.counters &&
            |after.warnings| + |after.errores| > |run.warnings| + |run.errores|
  {
  }

  /**
   * Overwriting an existing version in a real run replaces it in place and leaves
   * `vigenteVersion` alone, and counts no vigente; the same group in a dry run counts
   * a vigente whenever it is marked.
   */
  lemma OverwriteKeepsPointer(run: Run, key: GroupKey, b: Built, env: Env)
    requires b.pt in run.recipes && VersionIndex(run.recipes[b.pt].versiones, key.version).Some? && env.overwrite
    ensures var i := VersionIndex(run.recipes[b.pt].versiones, key.version).value;
            var after := Apply(run, key, b, env);
            if env.dryRun then
              after.recipes == run.recipes &&
              after.counters.vigentesSeteadas == run.counters.vigentesSeteadas + (if b.marcar then 1 else 0)
            else
              after.recipes[b.pt].vigenteVersion == run.recipes[b.pt].vigenteVersion &&
              after.recipes[b.pt].versiones == run.recipes[b.pt].versiones[i := b.doc] &&
              after.counters.vigentesSeteadas == run.counters.vigentesSeteadas &&
              after.counters.recetasActualizadas == run.counters.recetasActualizadas + 1
  {
  }

  /**
   * A dry run reads the store it started with, so two groups for the same PT
   * without a recipe both count as created; a real run creates once and then
   * appends.
   */
  lemma DryRunCountsTwoCreations(run: Run, k1: GroupKey, b1: Built, k2: GroupKey, b2: Built, env: Env)
    requires b1.pt == b2.pt && b1.pt !in run.recipes
    requires b1.doc.number == k1.version && b2.doc.number == k2.version && k1.version != k2.version
    ensures var after := Apply(Apply(run, k1, b1, env), k2, b2, env);
            if env.dryRun then
              after.counters.recetasCreadas == run.counters.recetasCreadas + 2 && after.recipes == run.recipes
            else
              after.counters.recetasCreadas == run.counters.recetasCreadas + 1 &&
              after.counters.versionesAgregadas == run.counters.versionesAgregadas + 1 &&
              after.recipes[b1.pt].versiones == [b1.doc, b2.doc]
  {
    if !env.dryRun {
      var mid := Apply(run, k1, b1, env);
      assert mid.recipes[b1.pt] == NewRecipe(b1, env.now);
      assert VersionIndex(mid.recipes[b1.pt].versiones, k2.version).None?;
    }
  }

  /** A created recipe holds exactly the group's version, and points at it exactly when marked. */
  lemma CreatedRecipe(run: Run, key: GroupKey, b: Built, env: Env)
    requires b.pt !in run.recipes && !env.dryRun
    ensures var r := Apply(run, key, b, env).recipes[b.pt];
            r.productPTId == b.pt && r.versiones == [b.doc] &&
            (r.vigenteVersion.Some? <==> b.marcar) && (b.marcar ==> r.vigenteVersion == Some(b.doc.number))
  {
  }

  /** A version that already exists is refused without `overwrite_version`: one more rejection, a warning, no write. */
  lemma ExistingVersionRejected(run: Run, key: GroupKey, b: Built, env: Env)
    requires b.pt in run.recipes && HasVersion(run.recipes[b.pt], key.version) && !env.overwrite
    ensures var after := Apply(run, key, b, env);
            after.recipes == run.recipes &&
            after.counters == run.counters.(versionesRechazadas := run.counters.versionesRechazadas + 1) &&
            after.warnings == run.warnings + [VersionKept(key)] && after.errores == run.errores
  {
  }

  /** A new version of a stored recipe is counted in both modes and pushed only outside dry run, and counts a `vigenteVersion` change when marked. */
  lemma NewVersionPushed(run: Run, key: GroupKey, b: Built, env: Env)
    requires b.pt in run.recipes && !HasVersion(run.recipes[b.pt], key.version)
    ensures var after := Apply(run, key, b, env);
            var c := run.counters;
            after.counters == c.(versionesAgregadas := c.versionesAgregadas + 1,
                                 vigentesSeteadas := c.vigentesSeteadas + (if b.marcar then 1 else 0)) &&
            after.recipes == if env.dryRun then run.recipes
                             else run.recipes[b.pt := PushVersion(run.recipes[b.pt], b.doc, b.marcar, env.now)]
  {
  }

  /** A word with no surrounding space and no capitals is its own stripped, lower-cased form. */
  lemma PlainWord(w: string)
    requires |w| > 0 && forall i :: 0 <= i < |w| ==> !IsSpace(w[i]) && LowerChar(w[i]) == w[i]
    ensures Lower(Strip(w)) == w
  {
    assert Strip(w) == w;
    LowerFixed(w);
  }

  lemma LowerFixed(w: string)
    requires forall i :: 0 <= i < |w| ==> LowerChar(w[i]) == w[i]
    ensures Lower(w) == w
  {
    var l := Lower(w);
    assert |l| == |w|;
    forall i | 0 <= i < |w| ensures l[i] == w[i] {
      assert l[i] == LowerChar(w[i]);
    }
  }

  /** Each of the words for yes reads as true; null reads as false. */
  lemma ToBoolWords(w: string)
    requires w in TRUE_WORDS
    ensures ToBool(Some(w))
    ensures !ToBool(None)
  {
    PlainWord(w);
  }
}
