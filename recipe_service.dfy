/**
 * The recipe service: creating a recipe, adding a version, making a version the
 * current one (`set_vigente`), editing a version and replacing its components.
 * Each operation is a method over the store, proved equal to a function of the
 * store before the call; the properties are stated on those functions.
 */
module RecipeService {
  import opened Wrappers
  import opened Text
  import opened Parsing
  import opened Calendar
  import opened Catalog
  import opened Aggregation
  import opened Recipes
  import opened RecipeRepo

  /** The `ValueError`s the service raises. */
  datatype RecipeError =
    | PtNotFound(sku: string)
    | RecipeExists
    | RecipeMissing
    | VersionExists(number: int)
    | VersionMissing(number: int)
    | ComponentMissing(skuMP: string)
    | ProcessMissing(codigo: string)
    | BadPublicationDate

  // ------------------------------------------------------- publication dates

  /**
   * Text formats `_normalize_publication_datetime` tries, in order: an ISO date, an
   * ISO datetime (a trailing `Z` read as UTC), then `%d-%m-%Y`, `%d/%m/%Y`, `%Y/%m/%d`.
   */
  datatype PubFormat = PubIsoDate | PubIsoDateTime | PubDayMonthYearDash | PubDayMonthYearSlash | PubYearMonthDaySlash

  const PubFormats: seq<PubFormat> :=
    [PubIsoDate, PubIsoDateTime, PubDayMonthYearDash, PubDayMonthYearSlash, PubYearMonthDaySlash]

  /**
   * `_normalize_publication_datetime`. No value and blank text mean the start of
   * today (UTC); a date means its start; a datetime is kept (its UTC instant);
   * other text is read by the first format that accepts it (`parse` yields the
   * UTC instant, the start of the day for a date); anything else is an error.
   */
  function NormalizePublication(v: DateIn, now: Instant, parse: (PubFormat, string) -> Option<Instant>): (r: Option<Instant>)
    ensures v.NoDate? || (v.DateText? && Strip(v.text) == []) ==> r == Some(DayStart(DayOf(now)))
    ensures v.DateValue? ==> r == Some(DayStart(v.day))
    ensures v.DateTimeValue? ==> r == Some(v.at)
    ensures r.None? <==>
      (v.OtherDate? ||
       (v.DateText? && Strip(v.text) != [] && forall i :: 0 <= i < |PubFormats| ==> parse(PubFormats[i], Strip(v.text)).None?))
    ensures v.DateText? && Strip(v.text) != [] && r.Some? ==>
      exists i :: 0 <= i < |PubFormats| && parse(PubFormats[i], Strip(v.text)) == r
  {
    match v
    case NoDate => Some(DayStart(DayOf(now)))
    case DateValue(d) => Some(DayStart(d))
    case DateTimeValue(t) => Some(t)
    case DateText(s) =>
      var text := Strip(s);
      if text == [] then Some(DayStart(DayOf(now))) else FirstParse(parse, PubFormats, text)
    case OtherDate => None
  }

  /** A request's `fechaPublicacion` (a date or nothing) as handed to the normaliser. */
  function PubDateIn(d: Option<Day>): DateIn {
    if d.Some? then DateValue(d.value) else NoDate
  }

  /** Request dates never fail to normalise: a date gives its start, none gives today's. */
  function PublicationOf(d: Option<Day>, now: Instant): (t: Instant)
    ensures t == DayStart(d.GetOr(DayOf(now)))
  {
    NormalizePublication(PubDateIn(d), now, (f, s) => None).value
  }

  // ------------------------------------------------------------- components

  predicate AllKnown(cat: Catalog, cs: seq<ComponenteIn>) {
    forall i :: 0 <= i < |cs| ==> cs[i].skuMP in cat.bySku
  }

  /** The position of the first component whose `skuMP` is not a product. */
  function FirstUnknown(cat: Catalog, cs: seq<ComponenteIn>): (r: Option<nat>)
    ensures r.Some? ==> r.value < |cs| && cs[r.value].skuMP !in cat.bySku
    ensures r.Some? ==> forall j :: 0 <= j < r.value ==> cs[j].skuMP in cat.bySku
    ensures r.None? <==> AllKnown(cat, cs)
  {
    if cs == [] then None
    else if cs[0].skuMP !in cat.bySku then Some(0)
    else
      var t := FirstUnknown(cat, cs[1..]);
      assert forall j :: 1 <= j < |cs| ==> cs[j] == cs[1..][j - 1];
      if t.Some? then Some(t.value + 1) else None
  }

  /** What a resolved component contributes to the merge: its product, quantity, unit and merma. */
  function ItemOf(cat: Catalog, c: ComponenteIn): (ObjectId, Line)
    requires c.skuMP in cat.bySku && ComponenteInValid(c)
  {
    (cat.bySku[c.skuMP].id, Line(c.cantidadPorBase, Some(c.unidad), MermaOf(c)))
  }

  function Items(cat: Catalog, cs: seq<ComponenteIn>): (items: seq<(ObjectId, Line)>)
    requires AllKnown(cat, cs) && ComponentesValid(cs)
    ensures |items| == |cs| && forall i :: 0 <= i < |cs| ==> items[i] == ItemOf(cat, cs[i])
  {
    seq(|cs|, i requires 0 <= i < |cs| && AllKnown(cat, cs) && ComponentesValid(cs) => ItemOf(cat, cs[i]))
  }

  /** `list(agg.values())` as stored components. */
  function ToComponents(m: Merge<ObjectId>): (cs: seq<Component>)
    requires WellFormed(m)
    ensures |cs| == |m.keys|
    ensures forall i :: 0 <= i < |cs| ==>
      cs[i] == Component(Oid(m.keys[i]), m.lines[m.keys[i]].qty, m.lines[m.keys[i]].unidad, m.lines[m.keys[i]].merma)
  {
    seq(|m.keys|, i requires 0 <= i < |m.keys| && WellFormed(m) =>
      Component(Oid(m.keys[i]), m.lines[m.keys[i]].qty, m.lines[m.keys[i]].unidad, m.lines[m.keys[i]].merma))
  }

  /** The outcome of the component loop: the first unknown sku fails, else the merge of all. */
  function Aggregated(cat: Catalog, cs: seq<ComponenteIn>): Result<seq<Component>, RecipeError>
    requires ComponentesValid(cs)
  {
    match FirstUnknown(cat, cs)
    case Some(i) => Err(ComponentMissing(cs[i].skuMP))
    case None =>
      FoldKeys(Items(cat, cs));
      Ok(ToComponents(Fold(Items(cat, cs))))
  }

  /** `agg.get(key, ...)` then `+= qty`: one line merged into the dictionary. */
  method MergeLine(keys: seq<ObjectId>, lines: map<ObjectId, Line>, key: ObjectId, qty: real, unidad: Option<string>, merma: real)
    returns (keys': seq<ObjectId>, lines': map<ObjectId, Line>)
    ensures Merge(keys', lines') == Step(Merge(keys, lines), key, Line(qty, unidad, merma))
  {
    if key in lines {
      keys', lines' := keys, lines[key := lines[key].(qty := lines[key].qty + qty)];
    } else {
      keys', lines' := keys + [key], lines[key := Line(0.0 + qty, unidad, merma)];
    }
  }

  /**
   * The component loop of the service: each `skuMP` is looked up in turn, the first
   * unknown one raises, and lines for the same product are merged under its id.
   */
  method AggregateComponents(cat: Catalog, cs: seq<ComponenteIn>) returns (r: Result<seq<Component>, RecipeError>)
    requires ComponentesValid(cs)
    ensures r == Aggregated(cat, cs)
  {
    var keys: seq<ObjectId> := [];
    var lines: map<ObjectId, Line> := map[];
    var i := 0;
    while i < |cs|
      invariant 0 <= i <= |cs|
      invariant AllKnown(cat, cs[..i])
      invariant Merge(keys, lines) == Fold(Items(cat, cs[..i]))
    {
      var c := cs[i];
      if c.skuMP !in cat.bySku {
        assert forall j :: 0 <= j < i ==> cs[..i][j] == cs[j];
        assert FirstUnknown(cat, cs) == Some(i);
        return Err(ComponentMissing(c.skuMP));
      }
      keys, lines := MergeLine(keys, lines, cat.bySku[c.skuMP].id, c.cantidadPorBase, Some(c.unidad), MermaOf(c));
      ItemsSnoc(cat, cs, i);
      i := i + 1;
    }
    assert cs[..i] == cs;
    FoldKeys(Items(cat, cs));
    r := Ok(ToComponents(Merge(keys, lines)));
  }

  /** One more known component adds its item to the list and its line to the merge. */
  lemma ItemsSnoc(cat: Catalog, cs: seq<ComponenteIn>, i: nat)
    requires ComponentesValid(cs) && i < |cs| && AllKnown(cat, cs[..i]) && cs[i].skuMP in cat.bySku
    ensures AllKnown(cat, cs[..i + 1])
    ensures Fold(Items(cat, cs[..i + 1])) == Step(Fold(Items(cat, cs[..i])), ItemOf(cat, cs[i]).0, ItemOf(cat, cs[i]).1)
  {
    assert cs[..i + 1] == cs[..i] + [cs[i]];
    var items := Items(cat, cs[..i + 1]);
    assert items[..i] == Items(cat, cs[..i]);
  }

  /**
   * The merged components name each resolved product once, in order of first
   * appearance; each quantity is the sum over the lines for that product, and the
   * unit and merma are those of its first line.
   */
  lemma AggregatedSpec(cat: Catalog, cs: seq<ComponenteIn>)
    requires ComponentesValid(cs) && AllKnown(cat, cs)
    ensures var items := Items(cat, cs);
            var out := Aggregated(cat, cs);
            out.Ok? && |out.value| == |Fold(items).keys| &&
            (forall i, j :: 0 <= i < j < |out.value| ==> out.value[i].productId != out.value[j].productId) &&
            (forall i :: 0 <= i < |out.value| ==>
               out.value[i].productId.Oid? && Occurs(items, out.value[i].productId.id) &&
               out.value[i].cantidadPorBase == SumFor(items, out.value[i].productId.id) &&
               out.value[i].unidad == items[FirstIndex(items, out.value[i].productId.id)].1.unidad &&
               out.value[i].mermaPct == items[FirstIndex(items, out.value[i].productId.id)].1.merma) &&
            (forall k :: Occurs(items, k) ==> exists i :: 0 <= i < |out.value| && out.value[i].productId == Oid(k))
  {
    var items := Items(cat, cs);
    FoldSpec(items);
    var m := Fold(items);
    var out := Aggregated(cat, cs).value;
    forall k | Occurs(items, k) ensures exists i :: 0 <= i < |out| && out[i].productId == Oid(k) {
      assert k in m.lines;
      var i :| 0 <= i < |m.keys| && m.keys[i] == k;
      assert out[i].productId == Oid(k);
    }
    forall i | 0 <= i < |out|
      ensures Occurs(items, m.keys[i]) && out[i].cantidadPorBase == SumFor(items, m.keys[i])
    {
      assert m.keys[i] in m.lines;
    }
  }

  // ---------------------------------------------------------------- process

  /**
   * The process fields of a new version (`create_recipe`, `add_version`): a code is
   * looked up and the version gets its id, or nothing when the code is unknown; with
   * no code, a non-empty special name and a given cost are kept.
   */
  function NewProcessFields(cat: Catalog, p: Option<ProcesoIn>): (f: ProcessFields)
    ensures p.None? ==> f == ProcessFields(None, None, None)
    ensures p.Some? && Truthy(p.value.processCodigo) ==>
      f.nombre.None? && f.costo.None? && f.processId == ProcessByCode(cat, p.value.processCodigo.value)
    ensures p.Some? && !Truthy(p.value.processCodigo) ==>
      f.processId.None? && f.costo == p.value.procesoEspecialCosto &&
      f.nombre == (if Truthy(p.value.procesoEspecialNombre) then p.value.procesoEspecialNombre else None)
  {
    match p
    case None => ProcessFields(None, None, None)
    case Some(pr) =>
      if Truthy(pr.processCodigo) then ProcessFields(ProcessByCode(cat, pr.processCodigo.value), None, None)
      else ProcessFields(None, if Truthy(pr.procesoEspecialNombre) then pr.procesoEspecialNombre else None, pr.procesoEspecialCosto)
  }

  /**
   * The process fields `update_version_full` writes: a code must resolve (else an
   * error) and clears both special fields; without a code the id is cleared and the
   * special name and cost are written as given.
   */
  function UpdatedProcessFields(cat: Catalog, p: ProcesoIn): (r: Result<ProcessFields, RecipeError>)
    ensures Truthy(p.processCodigo) && ProcessByCode(cat, p.processCodigo.value).None? ==> r == Err(ProcessMissing(p.processCodigo.value))
    ensures Truthy(p.processCodigo) && ProcessByCode(cat, p.processCodigo.value).Some? ==>
      r == Ok(ProcessFields(ProcessByCode(cat, p.processCodigo.value), None, None))
    ensures !Truthy(p.processCodigo) ==> r == Ok(ProcessFields(None, p.procesoEspecialNombre, p.procesoEspecialCosto))
  {
    if Truthy(p.processCodigo) then
      match ProcessByCode(cat, p.processCodigo.value)
      case None => Err(ProcessMissing(p.processCodigo.value))
      case Some(id) => Ok(ProcessFields(Some(id), None, None))
    else Ok(ProcessFields(None, p.procesoEspecialNombre, p.procesoEspecialCosto))
  }

  /** Whichever path wrote them, a version never holds both a process id and special fields. */
  lemma ProcessFieldsExclusive(cat: Catalog, p: Option<ProcesoIn>, q: ProcesoIn)
    ensures NewProcessFields(cat, p).processId.Some? ==>
      NewProcessFields(cat, p).nombre.None? && NewProcessFields(cat, p).costo.None?
    ensures UpdatedProcessFields(cat, q).Ok? && UpdatedProcessFields(cat, q).value.processId.Some? ==>
      UpdatedProcessFields(cat, q).value.nombre.None? && UpdatedProcessFields(cat, q).value.costo.None?
  {
  }

  /** The version document built from a request. */
  function NewVersion(v: VersionIn, fecha: Instant, pf: ProcessFields, cs: seq<Component>): (d: Version)
    ensures d.number == v.numero && d.estado == EstadoText(v.estado) && d.componentes == cs
  {
    Version(v.numero, EstadoText(v.estado), fecha, v.publicadoPor, v.baseQty, Some(v.unidadPT),
            pf.processId, pf.nombre, pf.costo, cs)
  }

  /**
   * The version `create_recipe` and `add_version` build from a request: the first
   * unknown `skuMP` fails; otherwise every request field is carried over, the date
   * is stored as its midnight (today's when absent), the process fields come from
   * the code or the special ones, and the components are the merge of the lines.
   */
  function BuiltVersion(cat: Catalog, v: VersionIn, now: Instant): (r: Result<Version, RecipeError>)
    requires VersionInValid(v)
    ensures r.Err? <==> FirstUnknown(cat, v.componentes).Some?
    ensures r.Err? ==> r.error == ComponentMissing(v.componentes[FirstUnknown(cat, v.componentes).value].skuMP)
    ensures r.Ok? ==>
      var pf := NewProcessFields(cat, v.proceso);
      r.value.number == v.numero && r.value.estado == EstadoText(v.estado) &&
      r.value.fechaPublicacion == DayStart(v.fechaPublicacion.GetOr(DayOf(now))) &&
      r.value.publicadoPor == v.publicadoPor && r.value.baseQty == v.baseQty && r.value.unidadPT == Some(v.unidadPT) &&
      r.value.processId == pf.processId && r.value.especialNombre == pf.nombre && r.value.especialCosto == pf.costo &&
      r.value.componentes == Aggregated(cat, v.componentes).value
  {
    match Aggregated(cat, v.componentes)
    case Err(e) => Err(e)
    case Ok(cs) => Ok(NewVersion(v, PublicationOf(v.fechaPublicacion, now), NewProcessFields(cat, v.proceso), cs))
  }

  /**
   * The components of a built version name each product once, and each carries the
   * total quantity the request gave for that product.
   */
  lemma BuiltComponentsMerged(cat: Catalog, v: VersionIn, now: Instant)
    requires VersionInValid(v) && BuiltVersion(cat, v, now).Ok?
    ensures var cs := BuiltVersion(cat, v, now).value.componentes;
            var items := Items(cat, v.componentes);
            (forall i, j :: 0 <= i < j < |cs| ==> cs[i].productId != cs[j].productId) &&
            (forall i :: 0 <= i < |cs| ==> cs[i].productId.Oid? && cs[i].cantidadPorBase == SumFor(items, cs[i].productId.id)) &&
            (forall k :: Occurs(items, k) ==> exists i :: 0 <= i < |cs| && cs[i].productId == Oid(k))
  {
    AggregatedSpec(cat, v.componentes);
  }

  // ------------------------------------------------------------------ create

  /** `vigenteVersion` a new recipe gets: the explicit value, else the version when marked vigente and `marcarVigente`. */
  function InitialPointer(body: CreateIn): Option<int> {
    if body.vigenteVersion.Some? then body.vigenteVersion
    else if body.version.estado == Vigente && body.version.marcarVigente then Some(body.version.numero)
    else None
  }

  /** `create_recipe` as a function of the store before the call. */
  function CreateOutcome(recipes: map<ObjectId, Recipe>, cat: Catalog, body: CreateIn, now: Instant): (r: Result<Recipe, RecipeError>)
    requires VersionInValid(body.version)
    ensures PtBySku(cat, body.skuPT).None? <==> r == Err(PtNotFound(body.skuPT))
    ensures r == Err(RecipeExists) <==> PtBySku(cat, body.skuPT).Some? && PtBySku(cat, body.skuPT).value.id in recipes
    ensures r.Ok? ==>
      PtBySku(cat, body.skuPT).Some? && r.value.productPTId == PtBySku(cat, body.skuPT).value.id &&
      r.value.productPTId !in recipes &&
      |r.value.versiones| == 1 && r.value.versiones[0].number == body.version.numero &&
      r.value.versiones[0].estado == EstadoText(body.version.estado) &&
      r.value.vigenteVersion == InitialPointer(body) &&
      r.value.createdAt == now && r.value.updatedAt == now && UniqueNumbers(r.value)
    ensures r.Err? && r.error.ComponentMissing? <==>
      PtBySku(cat, body.skuPT).Some? && PtBySku(cat, body.skuPT).value.id !in recipes && BuiltVersion(cat, body.version, now).Err?
    ensures r.Ok? ==> BuiltVersion(cat, body.version, now).Ok? && r.value.versiones == [BuiltVersion(cat, body.version, now).value]
  {
    match PtBySku(cat, body.skuPT)
    case None => Err(PtNotFound(body.skuPT))
    case Some(pt) =>
      if pt.id in recipes then Err(RecipeExists)
      else
        match BuiltVersion(cat, body.version, now)
        case Err(e) => Err(e)
        case Ok(d) => Ok(Recipe(pt.id, InitialPointer(body), [d], now, now))
  }

  /** `create_recipe`. */
  method CreateRecipe(store: RecipeStore, cat: Catalog, body: CreateIn, now: Instant) returns (r: Result<Recipe, RecipeError>)
    requires store.Valid() && VersionInValid(body.version)
    modifies store
    ensures store.Valid()
    ensures r == CreateOutcome(old(store.recipes), cat, body, now)
    ensures store.recipes == if r.Ok? then old(store.recipes)[r.value.productPTId := r.value] else old(store.recipes)
  {
    var pt := PtBySku(cat, body.skuPT);
    if pt.None? {
      return Err(PtNotFound(body.skuPT));
    }
    var existing := store.FindByPtId(pt.value.id);
    if existing.Some? {
      return Err(RecipeExists);
    }
    var v := body.version;
    var fecha := PublicationOf(v.fechaPublicacion, now);
    var pf := NewProcessFields(cat, v.proceso);
    var cs := AggregateComponents(cat, v.componentes);
    if cs.Err? {
      return Err(cs.error);
    }
    var doc := store.InsertRecipe(Recipe(pt.value.id, InitialPointer(body), [NewVersion(v, fecha, pf, cs.value)], now, now));
    r := Ok(doc);
  }

  /** An explicit `vigenteVersion` is stored as given, even when no version has that number. */
  lemma CreateCanPointAtMissingVersion()
    ensures var pt := Product(1, "PT1", "PT", None, None, None, None, None);
            var cat := Catalog(map["PT1" := pt], map[1 := pt], map[]);
            var v := VersionIn(1, Borrador, false, None, None, 1.0, "un", None, []);
            var r := CreateOutcome(map[], cat, CreateIn("PT1", Some(5), v), 0);
            r.Ok? && !PointerValid(r.value)
  {
    var pt := Product(1, "PT1", "PT", None, None, None, None, None);
    var cat := Catalog(map["PT1" := pt], map[1 := pt], map[]);
    var v := VersionIn(1, Borrador, false, None, None, 1.0, "un", None, []);
    var r := CreateOutcome(map[], cat, CreateIn("PT1", Some(5), v), 0);
    assert r.Ok?;
    assert r.value.versiones[0].number == 1;
  }

  /**
   * A process block with a cost and neither code nor name passes the schema as
   * written, and the recipe is created with that cost and no special name.
   */
  lemma CostOnlyProcessCreated()
    ensures var pt := Product(1, "PT1", "PT", None, None, None, None, None);
            var cat := Catalog(map["PT1" := pt], map[1 := pt], map[]);
            var p := ProcesoIn(None, None, false, Some(5.0));
            var v := VersionIn(1, Borrador, false, None, None, 1.0, "un", Some(p), []);
            VersionInValid(v) &&
            var r := CreateOutcome(map[], cat, CreateIn("PT1", None, v), 0);
            r.Ok? && r.value.versiones[0].especialCosto == Some(5.0) &&
            r.value.versiones[0].especialNombre.None? && r.value.versiones[0].processId.None?
  {
    var pt := Product(1, "PT1", "PT", None, None, None, None, None);
    var cat := Catalog(map["PT1" := pt], map[1 := pt], map[]);
    var v := VersionIn(1, Borrador, false, None, None, 1.0, "un", Some(ProcesoIn(None, None, false, Some(5.0))), []);
    assert PtBySku(cat, "PT1") == Some(pt);
    assert FirstUnknown(cat, v.componentes).None?;
  }

  // ------------------------------------------------------------- add version

  /** `add_version` as a function of the store before the call. */
  function AddOutcome(recipes: map<ObjectId, Recipe>, cat: Catalog, skuPT: string, v: VersionIn, now: Instant): (r: Result<Recipe, RecipeError>)
    requires VersionInValid(v)
    ensures PtBySku(cat, skuPT).None? <==> r == Err(PtNotFound(skuPT))
    ensures r == Err(RecipeMissing) <==> PtBySku(cat, skuPT).Some? && PtBySku(cat, skuPT).value.id !in recipes
    ensures r == Err(VersionExists(v.numero)) <==>
      PtBySku(cat, skuPT).Some? && PtBySku(cat, skuPT).value.id in recipes && HasVersion(recipes[PtBySku(cat, skuPT).value.id], v.numero)
    ensures r.Ok? ==>
      PtBySku(cat, skuPT).Some? && PtBySku(cat, skuPT).value.id in recipes &&
      var old_ := recipes[PtBySku(cat, skuPT).value.id];
      !HasVersion(old_, v.numero) && BuiltVersion(cat, v, now).Ok? &&
      r.value == PushVersion(old_, BuiltVersion(cat, v, now).value, v.marcarVigente, now)
    ensures r.Err? && r.error.ComponentMissing? <==>
      PtBySku(cat, skuPT).Some? && PtBySku(cat, skuPT).value.id in recipes &&
      !HasVersion(recipes[PtBySku(cat, skuPT).value.id], v.numero) && BuiltVersion(cat, v, now).Err?
  {
    match PtBySku(cat, skuPT)
    case None => Err(PtNotFound(skuPT))
    case Some(pt) =>
      if pt.id !in recipes then Err(RecipeMissing)
      else
        var rec := recipes[pt.id];
        if HasVersion(rec, v.numero) then Err(VersionExists(v.numero))
        else
          match BuiltVersion(cat, v, now)
          case Err(e) => Err(e)
          case Ok(d) => Ok(PushVersion(rec, d, v.marcarVigente, now))
  }

  /** `add_version`. */
  method AddVersion(store: RecipeStore, cat: Catalog, skuPT: string, v: VersionIn, now: Instant) returns (r: Result<Recipe, RecipeError>)
    requires store.Valid() && VersionInValid(v)
    modifies store
    ensures store.Valid()
    ensures r == AddOutcome(old(store.recipes), cat, skuPT, v, now)
    ensures store.recipes == if r.Ok? then old(store.recipes)[r.value.productPTId := r.value] else old(store.recipes)
  {
    var pt := PtBySku(cat, skuPT);
    if pt.None? {
      return Err(PtNotFound(skuPT));
    }
    var rec := store.FindByPtId(pt.value.id);
    if rec.None? {
      return Err(RecipeMissing);
    }
    if exists j :: 0 <= j < |rec.value.versiones| && rec.value.versiones[j].number == v.numero {
      return Err(VersionExists(v.numero));
    }
    var fecha := PublicationOf(v.fechaPublicacion, now);
    var pf := NewProcessFields(cat, v.proceso);
    var cs := AggregateComponents(cat, v.componentes);
    if cs.Err? {
      return Err(cs.error);
    }
    var doc := store.PushRecipeVersion(pt.value.id, NewVersion(v, fecha, pf, cs.value), v.marcarVigente, now);
    r := Ok(doc.value);
  }

  /** A successful `add_version` keeps the numbers distinct and `vigenteVersion` valid, and changes no earlier version. */
  lemma AddOutcomeKeeps(recipes: map<ObjectId, Recipe>, cat: Catalog, skuPT: string, v: VersionIn, now: Instant)
    requires VersionInValid(v)
    requires AddOutcome(recipes, cat, skuPT, v, now).Ok?
    requires var pt := PtBySku(cat, skuPT).value.id; UniqueNumbers(recipes[pt]) && PointerValid(recipes[pt])
    ensures var pt := PtBySku(cat, skuPT).value.id;
            var r := AddOutcome(recipes, cat, skuPT, v, now).value;
            UniqueNumbers(r) && PointerValid(r) && r.versiones[..|recipes[pt].versiones|] == recipes[pt].versiones
  {
    var pt := PtBySku(cat, skuPT).value.id;
    PushVersionKeeps(recipes[pt], BuiltVersion(cat, v, now).value, v.marcarVigente, now);
  }

  // ------------------------------------------------------------- set vigente

  /**
   * The document after `set_vigente(n)`: the first version numbered `n` becomes
   * "vigente", the one the old `vigenteVersion` names (when different) becomes "obsoleta",
   * and `vigenteVersion` moves to `n`.
   */
  function SetVigenteDoc(r: Recipe, n: int, now: Instant): Recipe {
    SetMeta(SwapEstados(r, n, now), Some(n), now)
  }

  /** The two estado writes of `set_vigente`: promote `n`, then demote the old `vigenteVersion`. */
  function SwapEstados(r: Recipe, n: int, now: Instant): Recipe {
    var prev := r.vigenteVersion;
    var r1 := SetEstado(r, n, VIGENTE, now);
    if prev.Some? && prev.value != n then SetEstado(r1, prev.value, OBSOLETA, now) else r1
  }

  /** `set_vigente` (the definition that takes effect) as a function of the store before the call. */
  function SetVigenteOutcome(recipes: map<ObjectId, Recipe>, cat: Catalog, skuPT: string, n: int, now: Instant): (r: Result<Recipe, RecipeError>)
    ensures PtBySku(cat, skuPT).None? <==> r == Err(PtNotFound(skuPT))
    ensures r == Err(RecipeMissing) <==> PtBySku(cat, skuPT).Some? && PtBySku(cat, skuPT).value.id !in recipes
    ensures r == Err(VersionMissing(n)) <==>
      PtBySku(cat, skuPT).Some? && PtBySku(cat, skuPT).value.id in recipes && !HasVersion(recipes[PtBySku(cat, skuPT).value.id], n)
    ensures r.Ok? ==> r.value == SetVigenteDoc(recipes[PtBySku(cat, skuPT).value.id], n, now)
  {
    match PtBySku(cat, skuPT)
    case None => Err(PtNotFound(skuPT))
    case Some(pt) =>
      if pt.id !in recipes then Err(RecipeMissing)
      else if !HasVersion(recipes[pt.id], n) then Err(VersionMissing(n))
      else Ok(SetVigenteDoc(recipes[pt.id], n, now))
  }

  /** `set_vigente`: two estado updates and a meta update, in that order. */
  method SetVigente(store: RecipeStore, cat: Catalog, skuPT: string, n: int, now: Instant) returns (r: Result<Recipe, RecipeError>)
    requires store.Valid()
    modifies store
    ensures store.Valid()
    ensures r == SetVigenteOutcome(old(store.recipes), cat, skuPT, n, now)
    ensures store.recipes == if r.Ok? then old(store.recipes)[r.value.productPTId := r.value] else old(store.recipes)
  {
    var pt := PtBySku(cat, skuPT);
    if pt.None? {
      return Err(PtNotFound(skuPT));
    }
    var rec := store.FindByPtId(pt.value.id);
    if rec.None? {
      return Err(RecipeMissing);
    }
    if VersionIndex(rec.value.versiones, n).None? {
      return Err(VersionMissing(n));
    }
    assert SetVigenteOutcome(store.recipes, cat, skuPT, n, now) == Ok(SetVigenteDoc(rec.value, n, now));
    var doc := WriteSetVigente(store, pt.value.id, n, now);
    r := Ok(doc);
  }

  /** The writes of `set_vigente`: two estado updates and a meta update, in that order. */
  method WriteSetVigente(store: RecipeStore, id: ObjectId, n: int, now: Instant) returns (doc: Recipe)
    requires store.Valid() && id in store.recipes
    modifies store
    ensures store.Valid()
    ensures doc == SetVigenteDoc(old(store.recipes)[id], n, now)
    ensures store.recipes == old(store.recipes)[id := doc]
  {
    WriteEstados(store, id, n, now);
    var r2 := store.SetRecipeMeta(id, Some(n), now);
    doc := r2.value;
  }

  /** The estado updates of `set_vigente`, in order. */
  method WriteEstados(store: RecipeStore, id: ObjectId, n: int, now: Instant)
    requires store.Valid() && id in store.recipes
    modifies store
    ensures store.Valid()
    ensures store.recipes == old(store.recipes)[id := SwapEstados(old(store.recipes)[id], n, now)]
  {
    var prev := store.recipes[id].vigenteVersion;
    var r1 := store.UpdateVersionEstado(id, n, VIGENTE, now);
    if prev.Some? && prev.value != n {
      r1 := store.UpdateVersionEstado(id, prev.value, OBSOLETA, now);
    }
  }

  /**
   * After `set_vigente(n)` on a recipe with distinct numbers: `vigenteVersion` is `n`,
   * version `n` is "vigente", the version the old `vigenteVersion` named (when different)
   * is "obsoleta", every other version is as it was, and the numbers are untouched.
   */
  lemma SetVigenteEffect(r: Recipe, n: int, now: Instant)
    requires HasVersion(r, n) && UniqueNumbers(r)
    ensures var r' := SetVigenteDoc(r, n, now);
            var prev := r.vigenteVersion;
            r'.vigenteVersion == Some(n) && Numbers(r') == Numbers(r) && r'.updatedAt == now &&
            forall j :: 0 <= j < |r.versiones| ==>
              r'.versiones[j] == r.versiones[j].(estado := r'.versiones[j].estado) &&
              r'.versiones[j].estado ==
                (if r.versiones[j].number == n then VIGENTE
                 else if prev.Some? && r.versiones[j].number == prev.value then OBSOLETA
                 else r.versiones[j].estado)
  {
    var r1 := SetEstado(r, n, VIGENTE, now);
    SameNumbersKeep(r, r1);
    forall j | 0 <= j < |r.versiones| ensures (VersionIndex(r.versiones, n) == Some(j)) == (r.versiones[j].number == n) {
      UniqueIndex(r, n, j);
    }
    var prev := r.vigenteVersion;
    if prev.Some? && prev.value != n {
      forall j | 0 <= j < |r.versiones| ensures (VersionIndex(r1.versiones, prev.value) == Some(j)) == (r.versiones[j].number == prev.value) {
        assert r1.versiones[j].number == r.versiones[j].number;
        UniqueIndex(r1, prev.value, j);
      }
    }
  }

  /** With distinct numbers, the first version numbered `n` is the version numbered `n`. */
  lemma UniqueIndex(r: Recipe, n: int, j: nat)
    requires UniqueNumbers(r) && j < |r.versiones|
    ensures (VersionIndex(r.versiones, n) == Some(j)) == (r.versiones[j].number == n)
  {
    if r.versiones[j].number == n {
      assert VersionIndex(r.versiones, n).Some?;
    }
  }

  /**
   * `set_vigente` keeps the rule that only the referenced version is "vigente", and
   * leaves `vigenteVersion` valid and the numbers distinct.
   */
  lemma SetVigenteKeepsInvariants(r: Recipe, n: int, now: Instant)
    requires HasVersion(r, n) && UniqueNumbers(r) && VigenteOnlyAtPointer(r)
    ensures var r' := SetVigenteDoc(r, n, now);
            VigenteOnlyAtPointer(r') && PointerValid(r') && UniqueNumbers(r')
  {
    SetVigenteEffect(r, n, now);
    VigenteMoveKeeps(r, SetVigenteDoc(r, n, now), n);
  }

  /** Any document with the same numbers, `vigenteVersion` on `n` and the marks `set_vigente` leaves keeps the invariants. */
  lemma VigenteMoveKeeps(r: Recipe, r': Recipe, n: int)
    requires HasVersion(r, n) && UniqueNumbers(r) && VigenteOnlyAtPointer(r)
    requires r'.vigenteVersion == Some(n) && Numbers(r') == Numbers(r)
    requires forall j :: 0 <= j < |r.versiones| ==>
              r'.versiones[j].estado ==
                (if r.versiones[j].number == n then VIGENTE
                 else if r.vigenteVersion.Some? && r.versiones[j].number == r.vigenteVersion.value then OBSOLETA
                 else r.versiones[j].estado)
    ensures VigenteOnlyAtPointer(r') && PointerValid(r') && UniqueNumbers(r')
  {
    SameNumbersKeep(r, r'.(vigenteVersion := r.vigenteVersion));
    var j :| 0 <= j < |r.versiones| && r.versiones[j].number == n;
    assert r'.versiones[j].number == Numbers(r')[j] == n;
    forall k | 0 <= k < |r'.versiones| && r'.versiones[k].estado == VIGENTE
      ensures r'.vigenteVersion == Some(r'.versiones[k].number)
    {
      assert r'.versiones[k].number == Numbers(r')[k] == r.versiones[k].number;
    }
  }

  /**
   * The rule fails when a version other than the pointed one already carries
   * "vigente" (as `add_version` can leave it): `set_vigente` demotes only the
   * version the old `vigenteVersion` names.
   */
  lemma SetVigenteLeavesStrayVigente()
    ensures var v1 := Version(1, OBSOLETA, 0, None, 1.0, None, None, None, None, []);
            var v2 := Version(2, VIGENTE, 0, None, 1.0, None, None, None, None, []);
            var v3 := Version(3, BORRADOR, 0, None, 1.0, None, None, None, None, []);
            var r' := SetVigenteDoc(Recipe(7, Some(1), [v1, v2, v3], 0, 0), 3, 1);
            r'.versiones[1].estado == VIGENTE && r'.versiones[2].estado == VIGENTE && r'.vigenteVersion == Some(3)
  {
    var v1 := Version(1, OBSOLETA, 0, None, 1.0, None, None, None, None, []);
    var v2 := Version(2, VIGENTE, 0, None, 1.0, None, None, None, None, []);
    var v3 := Version(3, BORRADOR, 0, None, 1.0, None, None, None, None, []);
    var r := Recipe(7, Some(1), [v1, v2, v3], 0, 0);
    var i3 := VersionIndex(r.versiones, 3);
    assert r.versiones[2].number == 3;
    assert r.versiones[0].number != 3 && r.versiones[1].number != 3;
    assert i3 == Some(2);
    assert VersionIndex(r.versiones, 1) == Some(0);
  }

  // ----------------------------------------------------- update and replace

  /** The patch `update_version_full` builds, or the error of its process or component lookups. */
  function BuildPatch(cat: Catalog, u: UpdateVersionIn, now: Instant): (r: Result<VersionPatch, RecipeError>)
    requires UpdateVersionInValid(u)
    ensures r.Ok? ==>
      r.value.estado == (if u.estado.Some? then Some(EstadoText(u.estado.value)) else None) &&
      r.value.fechaPublicacion == (if u.fechaPublicacion.Some? then Some(DayStart(u.fechaPublicacion.value)) else None) &&
      r.value.publicadoPor == u.publicadoPor && r.value.baseQty == u.baseQty && r.value.unidadPT == u.unidadPT &&
      (r.value.proceso.Some? <==> u.proceso.Some?) && (r.value.componentes.Some? <==> u.componentes.Some?)
    ensures r.Err? ==>
      (u.proceso.Some? && UpdatedProcessFields(cat, u.proceso.value).Err?) ||
      (u.componentes.Some? && Aggregated(cat, u.componentes.value).Err?)
  {
    var estado := if u.estado.Some? then Some(EstadoText(u.estado.value)) else None;
    var fecha := if u.fechaPublicacion.Some? then Some(PublicationOf(u.fechaPublicacion, now)) else None;
    var proceso: Result<Option<ProcessFields>, RecipeError> :=
      if u.proceso.None? then Ok(None)
      else match UpdatedProcessFields(cat, u.proceso.value)
           case Err(e) => Err(e)
           case Ok(pf) => Ok(Some(pf));
    if proceso.Err? then Err(proceso.error)
    else
      var comps: Result<Option<seq<Component>>, RecipeError> :=
        if u.componentes.None? then Ok(None)
        else match Aggregated(cat, u.componentes.value)
             case Err(e) => Err(e)
             case Ok(cs) => Ok(Some(cs));
      if comps.Err? then Err(comps.error)
      else Ok(VersionPatch(estado, fecha, u.publicadoPor, u.baseQty, u.unidadPT, proceso.value, comps.value))
  }

  /** `update_version_full` as a function of the store before the call. */
  function UpdateOutcome(recipes: map<ObjectId, Recipe>, cat: Catalog, skuPT: string, n: int, u: UpdateVersionIn, now: Instant): (r: Result<Recipe, RecipeError>)
    requires UpdateVersionInValid(u)
    ensures PtBySku(cat, skuPT).None? <==> r == Err(PtNotFound(skuPT))
    ensures r == Err(RecipeMissing) <==> PtBySku(cat, skuPT).Some? && PtBySku(cat, skuPT).value.id !in recipes
    ensures r == Err(VersionMissing(n)) <==>
      PtBySku(cat, skuPT).Some? && PtBySku(cat, skuPT).value.id in recipes && !HasVersion(recipes[PtBySku(cat, skuPT).value.id], n)
    ensures r.Ok? ==>
      (BuildPatch(cat, u, now).Ok? &&
       r.value == PatchVersion(recipes[PtBySku(cat, skuPT).value.id], n, BuildPatch(cat, u, now).value, now))
  {
    match PtBySku(cat, skuPT)
    case None => Err(PtNotFound(skuPT))
    case Some(pt) =>
      if pt.id !in recipes then Err(RecipeMissing)
      else if !HasVersion(recipes[pt.id], n) then Err(VersionMissing(n))
      else
        match BuildPatch(cat, u, now)
        case Err(e) =>
          assert e != VersionMissing(n) && e != RecipeMissing && e != PtNotFound(skuPT);
          Err(e)
        case Ok(p) => Ok(PatchVersion(recipes[pt.id], n, p, now))
  }

  /** The `$set` of `update_version_full`, built field by field; a failed process or component lookup stops it. */
  method BuildVersionPatch(cat: Catalog, u: UpdateVersionIn, now: Instant) returns (r: Result<VersionPatch, RecipeError>)
    requires UpdateVersionInValid(u)
    ensures r == BuildPatch(cat, u, now)
  {
    var estado := if u.estado.Some? then Some(EstadoText(u.estado.value)) else None;
    var fecha := if u.fechaPublicacion.Some? then Some(PublicationOf(u.fechaPublicacion, now)) else None;
    var proceso: Option<ProcessFields> := None;
    if u.proceso.Some? {
      var pf := UpdatedProcessFields(cat, u.proceso.value);
      if pf.Err? {
        return Err(pf.error);
      }
      proceso := Some(pf.value);
    }
    var comps: Option<seq<Component>> := None;
    if u.componentes.Some? {
      var cs := AggregateComponents(cat, u.componentes.value);
      if cs.Err? {
        return Err(cs.error);
      }
      comps := Some(cs.value);
    }
    r := Ok(VersionPatch(estado, fecha, u.publicadoPor, u.baseQty, u.unidadPT, proceso, comps));
  }

  /** `update_version_full`. */
  method UpdateVersionFull(store: RecipeStore, cat: Catalog, skuPT: string, n: int, u: UpdateVersionIn, now: Instant)
    returns (r: Result<Recipe, RecipeError>)
    requires store.Valid() && UpdateVersionInValid(u)
    modifies store
    ensures store.Valid()
    ensures r == UpdateOutcome(old(store.recipes), cat, skuPT, n, u, now)
    ensures store.recipes == if r.Ok? then old(store.recipes)[r.value.productPTId := r.value] else old(store.recipes)
  {
    var pt := PtBySku(cat, skuPT);
    if pt.None? {
      return Err(PtNotFound(skuPT));
    }
    var rec := store.FindByPtId(pt.value.id);
    if rec.None? {
      return Err(RecipeMissing);
    }
    if VersionIndex(rec.value.versiones, n).None? {
      return Err(VersionMissing(n));
    }
    var built := BuildVersionPatch(cat, u, now);
    if built.Err? {
      return Err(built.error);
    }
    var patch := built.value;
    var doc := store.UpdateVersionFields(pt.value.id, n, patch, now);
    r := Ok(doc.value);
  }

  /**
   * A successful update writes only the fields supplied: omitted fields, the
   * version number, the other versions and `vigenteVersion` are as stored.
   */
  lemma UpdateWritesOnlySupplied(recipes: map<ObjectId, Recipe>, cat: Catalog, skuPT: string, n: int, u: UpdateVersionIn, now: Instant)
    requires UpdateVersionInValid(u) && UpdateOutcome(recipes, cat, skuPT, n, u, now).Ok?
    ensures var old_ := recipes[PtBySku(cat, skuPT).value.id];
            var r := UpdateOutcome(recipes, cat, skuPT, n, u, now).value;
            var i := VersionIndex(old_.versiones, n).value;
            var v, w := old_.versiones[i], r.versiones[i];
            r.vigenteVersion == old_.vigenteVersion && Numbers(r) == Numbers(old_) &&
            (forall j :: 0 <= j < |old_.versiones| && j != i ==> r.versiones[j] == old_.versiones[j]) &&
            (u.estado.None? ==> w.estado == v.estado) &&
            (u.baseQty.None? ==> w.baseQty == v.baseQty) &&
            (u.unidadPT.None? ==> w.unidadPT == v.unidadPT) &&
            (u.publicadoPor.None? ==> w.publicadoPor == v.publicadoPor) &&
            (u.fechaPublicacion.None? ==> w.fechaPublicacion == v.fechaPublicacion) &&
            (u.proceso.None? ==> w.processId == v.processId && w.especialNombre == v.especialNombre && w.especialCosto == v.especialCosto) &&
            (u.componentes.None? ==> w.componentes == v.componentes) &&
            (u.componentes.Some? ==> Aggregated(cat, u.componentes.value) == Ok(w.componentes))
  {
    var p := BuildPatch(cat, u, now).value;
    if u.componentes.Some? {
      assert Aggregated(cat, u.componentes.value).Ok?;
    }
  }

  /** `replace_componentes` as a function of the store before the call. */
  function ReplaceOutcome(recipes: map<ObjectId, Recipe>, cat: Catalog, skuPT: string, n: int, cs: seq<ComponenteIn>, now: Instant): (r: Result<Recipe, RecipeError>)
    requires ComponentesValid(cs)
    ensures PtBySku(cat, skuPT).None? <==> r == Err(PtNotFound(skuPT))
    ensures r == Err(RecipeMissing) <==> PtBySku(cat, skuPT).Some? && PtBySku(cat, skuPT).value.id !in recipes
    ensures r == Err(VersionMissing(n)) <==>
      PtBySku(cat, skuPT).Some? && PtBySku(cat, skuPT).value.id in recipes && !HasVersion(recipes[PtBySku(cat, skuPT).value.id], n)
    ensures r.Ok? ==>
      (Aggregated(cat, cs).Ok? &&
       r.value == ReplaceComponents(recipes[PtBySku(cat, skuPT).value.id], n, Aggregated(cat, cs).value, now))
  {
    match PtBySku(cat, skuPT)
    case None => Err(PtNotFound(skuPT))
    case Some(pt) =>
      if pt.id !in recipes then Err(RecipeMissing)
      else if !HasVersion(recipes[pt.id], n) then Err(VersionMissing(n))
      else
        match Aggregated(cat, cs)
        case Err(e) =>
          assert e.ComponentMissing?;
          Err(e)
        case Ok(comps) => Ok(ReplaceComponents(recipes[pt.id], n, comps, now))
  }

  /** `replace_componentes`. */
  method ReplaceComponentes(store: RecipeStore, cat: Catalog, skuPT: string, n: int, cs: seq<ComponenteIn>, now: Instant)
    returns (r: Result<Recipe, RecipeError>)
    requires store.Valid() && ComponentesValid(cs)
    modifies store
    ensures store.Valid()
    ensures r == ReplaceOutcome(old(store.recipes), cat, skuPT, n, cs, now)
    ensures store.recipes == if r.Ok? then old(store.recipes)[r.value.productPTId := r.value] else old(store.recipes)
  {
    var pt := PtBySku(cat, skuPT);
    if pt.None? {
      return Err(PtNotFound(skuPT));
    }
    var rec := store.FindByPtId(pt.value.id);
    if rec.None? {
      return Err(RecipeMissing);
    }
    if VersionIndex(rec.value.versiones, n).None? {
      return Err(VersionMissing(n));
    }
    var comps := AggregateComponents(cat, cs);
    if comps.Err? {
      return Err(comps.error);
    }
    var doc := store.ReplaceVersionComponents(pt.value.id, n, comps.value, now);
    r := Ok(doc.value);
  }
}
