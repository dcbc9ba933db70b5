/**
 * Recipe documents as the `recipes` collection stores them, the updates the
 * repository applies to one document, and the request bodies that create and
 * edit recipes together with the bounds their schemas enforce.
 */
module Recipes {
  import opened Wrappers
  import opened Text
  import opened Calendar
  import opened Catalog

  // ---------------------------------------------------------------- documents

  const BORRADOR: string := "borrador"
  const VIGENTE: string := "vigente"
  const OBSOLETA: string := "obsoleta"

  /** A component's `productId`: an ObjectId, or anything else a document may hold. */
  datatype ProductRef = Oid(id: ObjectId) | NotAnId(raw: string)

  datatype Component = Component(productId: ProductRef, cantidadPorBase: real, unidad: Option<string>, mermaPct: real)

  /**
   * One entry of `versiones`. `estado` is kept as text: the API only writes the three
   * known values, but CSV promotion stores whatever lower-cased text the file holds.
   * The three process fields read as None whether absent or null.
   */
  datatype Version = Version(
    number: int,
    estado: string,
    fechaPublicacion: Instant,
    publicadoPor: Option<string>,
    baseQty: real,
    unidadPT: Option<string>,
    processId: Option<ObjectId>,
    especialNombre: Option<string>,
    especialCosto: Option<real>,
    componentes: seq<Component>)

  /** A recipe document; `vigenteVersion` None stands for the field being absent. */
  datatype Recipe = Recipe(
    productPTId: ObjectId,
    vigenteVersion: Option<int>,
    versiones: seq<Version>,
    createdAt: Instant,
    updatedAt: Instant)

  predicate HasVersion(r: Recipe, n: int) {
    exists j :: 0 <= j < |r.versiones| && r.versiones[j].number == n
  }

  /**
   * The position of the first version numbered `n`: the element a query on
   * `versiones.version` selects with the positional `$`, and the index
   * `next(i for i, v in enumerate(...) if ...)` finds.
   */
  function VersionIndex(vs: seq<Version>, n: int): (r: Option<nat>)
    ensures r.Some? ==> r.value < |vs| && vs[r.value].number == n
    ensures r.Some? ==> forall j :: 0 <= j < r.value ==> vs[j].number != n
    ensures r.None? <==> forall j :: 0 <= j < |vs| ==> vs[j].number != n
  {
    if vs == [] then None
    else if vs[0].number == n then Some(0)
    else
      var t := VersionIndex(vs[1..], n);
      assert forall j :: 1 <= j < |vs| ==> vs[j] == vs[1..][j - 1];
      if t.Some? then Some(t.value + 1) else None
  }

  // --------------------------------------------------------------- invariants

  /** No two versions share a number. */
  predicate UniqueNumbers(r: Recipe) {
    forall i, j :: 0 <= i < j < |r.versiones| ==> r.versiones[i].number != r.versiones[j].number
  }

  /** `vigenteVersion`, when present, names a stored version. */
  predicate PointerValid(r: Recipe) {
    r.vigenteVersion.Some? ==> HasVersion(r, r.vigenteVersion.value)
  }

  /** Only the version `vigenteVersion` names is marked "vigente". */
  predicate VigenteOnlyAtPointer(r: Recipe) {
    forall j :: 0 <= j < |r.versiones| && r.versiones[j].estado == VIGENTE ==>
      r.vigenteVersion == Some(r.versiones[j].number)
  }

  /** The version numbers, in order. */
  function Numbers(r: Recipe): (ns: seq<int>)
    ensures |ns| == |r.versiones| && forall j :: 0 <= j < |ns| ==> ns[j] == r.versiones[j].number
  {
    seq(|r.versiones|, j requires 0 <= j < |r.versiones| => r.versiones[j].number)
  }

  /** A change that keeps the numbers and `vigenteVersion` keeps both invariants about them. */
  lemma SameNumbersKeep(r: Recipe, r': Recipe)
    requires Numbers(r') == Numbers(r) && r'.vigenteVersion == r.vigenteVersion
    ensures UniqueNumbers(r) ==> UniqueNumbers(r')
    ensures PointerValid(r) ==> PointerValid(r')
  {
    assert forall j :: 0 <= j < |r.versiones| ==> r'.versiones[j].number == Numbers(r')[j] == r.versiones[j].number;
    if PointerValid(r) && r.vigenteVersion.Some? {
      var j :| 0 <= j < |r.versiones| && r.versiones[j].number == r.vigenteVersion.value;
      assert r'.versiones[j].number == r'.vigenteVersion.value;
    }
  }

  // ------------------------------------------- updates of one stored document

  /**
   * `update_version_estado`: the first version numbered `n` takes estado `e` and the
   * document's `updatedAt` becomes `at`. When no version has that number the update's
   * filter matches nothing and the document, `updatedAt` included, is untouched.
   */
  function SetEstado(r: Recipe, n: int, e: string, at: Instant): (r': Recipe)
    ensures !HasVersion(r, n) ==> r' == r
    ensures HasVersion(r, n) ==> r'.updatedAt == at
    ensures r'.vigenteVersion == r.vigenteVersion && r'.productPTId == r.productPTId && r'.createdAt == r.createdAt
    ensures Numbers(r') == Numbers(r)
    ensures forall j :: 0 <= j < |r.versiones| ==>
      r'.versiones[j] == r.versiones[j].(estado := r'.versiones[j].estado) &&
      r'.versiones[j].estado == (if VersionIndex(r.versiones, n) == Some(j) then e else r.versiones[j].estado)
  {
    match VersionIndex(r.versiones, n)
    case None => r
    case Some(i) => r.(versiones := r.versiones[i := r.versiones[i].(estado := e)], updatedAt := at)
  }

  /** `clear_vigente_version`: `vigenteVersion` is removed (unset, not zeroed); versions are untouched. */
  function ClearVigente(r: Recipe, at: Instant): (r': Recipe)
    ensures r'.vigenteVersion.None? && r'.versiones == r.versiones && r'.updatedAt == at
    ensures r'.productPTId == r.productPTId && r'.createdAt == r.createdAt
  {
    r.(vigenteVersion := None, updatedAt := at)
  }

  /** `set_recipe_meta`: `vigenteVersion` changes only when a value is given; `updatedAt` always changes. */
  function SetMeta(r: Recipe, vigente: Option<int>, at: Instant): (r': Recipe)
    ensures r'.vigenteVersion == if vigente.Some? then vigente else r.vigenteVersion
    ensures r'.versiones == r.versiones && r'.updatedAt == at
    ensures r'.productPTId == r.productPTId && r'.createdAt == r.createdAt
  {
    if vigente.Some? then r.(vigenteVersion := vigente, updatedAt := at) else r.(updatedAt := at)
  }

  /**
   * `push_recipe_version`: the version goes at the end, earlier versions are kept as they
   * were, and `vigenteVersion` moves to it only when `marcar` is set.
   */
  function PushVersion(r: Recipe, v: Version, marcar: bool, at: Instant): (r': Recipe)
    ensures |r'.versiones| == |r.versiones| + 1 && r'.versiones[|r.versiones|] == v
    ensures r'.versiones[..|r.versiones|] == r.versiones
    ensures r'.vigenteVersion == if marcar then Some(v.number) else r.vigenteVersion
    ensures r'.updatedAt == at && r'.productPTId == r.productPTId && r'.createdAt == r.createdAt
  {
    var vigente := if marcar then Some(v.number) else r.vigenteVersion;
    r.(versiones := r.versiones + [v], vigenteVersion := vigente, updatedAt := at)
  }

  /** `replace_version_components`: the first version numbered `n` gets exactly `cs`; nothing changes without a match. */
  function ReplaceComponents(r: Recipe, n: int, cs: seq<Component>, at: Instant): (r': Recipe)
    ensures !HasVersion(r, n) ==> r' == r
    ensures HasVersion(r, n) ==> r'.updatedAt == at
    ensures r'.vigenteVersion == r.vigenteVersion && r'.productPTId == r.productPTId && r'.createdAt == r.createdAt
    ensures Numbers(r') == Numbers(r)
    ensures forall j :: 0 <= j < |r.versiones| ==>
      if VersionIndex(r.versiones, n) == Some(j) then r'.versiones[j] == r.versiones[j].(componentes := cs)
      else r'.versiones[j] == r.versiones[j]
  {
    match VersionIndex(r.versiones, n)
    case None => r
    case Some(i) => r.(versiones := r.versiones[i := r.versiones[i].(componentes := cs)], updatedAt := at)
  }

  /** The three process fields, always written together. */
  datatype ProcessFields = ProcessFields(processId: Option<ObjectId>, nombre: Option<string>, costo: Option<real>)

  /** The `$set` fields `update_version_full` assembles; None leaves a field as stored. */
  datatype VersionPatch = VersionPatch(
    estado: Option<string>,
    fechaPublicacion: Option<Instant>,
    publicadoPor: Option<string>,
    baseQty: Option<real>,
    unidadPT: Option<string>,
    proceso: Option<ProcessFields>,
    componentes: Option<seq<Component>>)

  function PatchedVersion(v: Version, p: VersionPatch): (w: Version)
    ensures w.number == v.number
    ensures w.estado == p.estado.GetOr(v.estado) && w.fechaPublicacion == p.fechaPublicacion.GetOr(v.fechaPublicacion)
    ensures w.baseQty == p.baseQty.GetOr(v.baseQty) && w.componentes == p.componentes.GetOr(v.componentes)
    ensures p.publicadoPor.Some? ==> w.publicadoPor == p.publicadoPor
    ensures p.publicadoPor.None? ==> w.publicadoPor == v.publicadoPor
    ensures p.unidadPT.Some? ==> w.unidadPT == p.unidadPT
    ensures p.unidadPT.None? ==> w.unidadPT == v.unidadPT
    ensures p.proceso.None? ==> (w.processId, w.especialNombre, w.especialCosto) == (v.processId, v.especialNombre, v.especialCosto)
    ensures p.proceso.Some? ==> (w.processId, w.especialNombre, w.especialCosto) == (p.proceso.value.processId, p.proceso.value.nombre, p.proceso.value.costo)
  {
    var pf := p.proceso.GetOr(ProcessFields(v.processId, v.especialNombre, v.especialCosto));
    Version(
      v.number,
      p.estado.GetOr(v.estado),
      p.fechaPublicacion.GetOr(v.fechaPublicacion),
      if p.publicadoPor.Some? then p.publicadoPor else v.publicadoPor,
      p.baseQty.GetOr(v.baseQty),
      if p.unidadPT.Some? then p.unidadPT else v.unidadPT,
      pf.processId, pf.nombre, pf.costo,
      p.componentes.GetOr(v.componentes))
  }

  /**
   * `update_version_fields` with the fields of `update_version_full`: the first version
   * numbered `n` is patched and `updatedAt` becomes `at`; without a match nothing changes.
   */
  function PatchVersion(r: Recipe, n: int, p: VersionPatch, at: Instant): (r': Recipe)
    ensures !HasVersion(r, n) ==> r' == r
    ensures HasVersion(r, n) ==> r'.updatedAt == at
    ensures r'.vigenteVersion == r.vigenteVersion && r'.productPTId == r.productPTId && r'.createdAt == r.createdAt
    ensures Numbers(r') == Numbers(r)
    ensures forall j :: 0 <= j < |r.versiones| ==>
      r'.versiones[j] == if VersionIndex(r.versiones, n) == Some(j) then PatchedVersion(r.versiones[j], p) else r.versiones[j]
  {
    match VersionIndex(r.versiones, n)
    case None => r
    case Some(i) => r.(versiones := r.versiones[i := PatchedVersion(r.versiones[i], p)], updatedAt := at)
  }

  /** The `$set` of `versiones.{idx}` in promotion: the version at `i` is replaced whole. */
  function ReplaceVersionAt(r: Recipe, i: nat, v: Version, at: Instant): (r': Recipe)
    requires i < |r.versiones|
    ensures |r'.versiones| == |r.versiones| && r'.versiones[i] == v
    ensures forall j :: 0 <= j < |r.versiones| && j != i ==> r'.versiones[j] == r.versiones[j]
    ensures r'.vigenteVersion == r.vigenteVersion && r'.updatedAt == at
    ensures r'.productPTId == r.productPTId && r'.createdAt == r.createdAt
  {
    r.(versiones := r.versiones[i := v], updatedAt := at)
  }

  // ------------------------------------------ what each update does to the invariants

  /** Appending a version with a fresh number keeps the numbers distinct and `vigenteVersion` valid. */
  lemma PushVersionKeeps(r: Recipe, v: Version, marcar: bool, at: Instant)
    requires UniqueNumbers(r) && PointerValid(r) && !HasVersion(r, v.number)
    ensures UniqueNumbers(PushVersion(r, v, marcar, at)) && PointerValid(PushVersion(r, v, marcar, at))
  {
    var r' := PushVersion(r, v, marcar, at);
    var n := |r.versiones|;
    assert forall j :: 0 <= j < n ==> r'.versiones[j] == r.versiones[j];
    assert r'.versiones[n].number == v.number;
    if r'.vigenteVersion.Some? && !marcar {
      var j :| 0 <= j < n && r.versiones[j].number == r.vigenteVersion.value;
      assert r'.versiones[j].number == r'.vigenteVersion.value;
    }
  }

  /** Replacing a version by one with the same number keeps the numbers distinct and `vigenteVersion` valid. */
  lemma ReplaceVersionAtKeeps(r: Recipe, i: nat, v: Version, at: Instant)
    requires i < |r.versiones| && v.number == r.versiones[i].number
    requires UniqueNumbers(r) && PointerValid(r)
    ensures UniqueNumbers(ReplaceVersionAt(r, i, v, at)) && PointerValid(ReplaceVersionAt(r, i, v, at))
  {
    var r' := ReplaceVersionAt(r, i, v, at);
    assert Numbers(r') == Numbers(r);
    SameNumbersKeep(r, r');
  }

  /**
   * Marking a version "vigente" outside `vigenteVersion` breaks the single-vigente rule; so
   * does moving `vigenteVersion` without demoting the old one, which `push_recipe_version`
   * does with `marcar` set.
   */
  lemma PushVersionCanBreakVigente()
    ensures var v1 := Version(1, VIGENTE, 0, None, 1.0, None, None, None, None, []);
            var v2 := Version(2, VIGENTE, 0, None, 1.0, None, None, None, None, []);
            var r := Recipe(7, Some(1), [v1], 0, 0);
            VigenteOnlyAtPointer(r) && !VigenteOnlyAtPointer(PushVersion(r, v2, true, 1))
  {
    var v1 := Version(1, VIGENTE, 0, None, 1.0, None, None, None, None, []);
    var v2 := Version(2, VIGENTE, 0, None, 1.0, None, None, None, None, []);
    var r' := PushVersion(Recipe(7, Some(1), [v1], 0, 0), v2, true, 1);
    assert r'.versiones[0].estado == VIGENTE && r'.vigenteVersion == Some(2);
  }

  // ----------------------------------------------------------- request bodies

  /** The three values a request may give `estado`. */
  datatype EstadoVersion = Borrador | Vigente | Obsoleta

  function EstadoText(e: EstadoVersion): string {
    match e
    case Borrador => BORRADOR
    case Vigente => VIGENTE
    case Obsoleta => OBSOLETA
  }

  /** The literal check on `estado`: exactly the three names are accepted. */
  function ParseEstado(s: string): (r: Option<EstadoVersion>)
    ensures r.Some? ==> EstadoText(r.value) == s
    ensures forall e :: EstadoText(e) == s ==> r == Some(e)
  {
    if s == BORRADOR then Some(Borrador)
    else if s == VIGENTE then Some(Vigente)
    else if s == OBSOLETA then Some(Obsoleta)
    else None
  }

  /** `RecetaComponenteIn`; `mermaPct` None is an explicit null, an omitted one is 0. */
  datatype ComponenteIn = ComponenteIn(skuMP: string, cantidadPorBase: real, unidad: string, mermaPct: Option<real>)

  predicate ComponenteInValid(c: ComponenteIn) {
    c.cantidadPorBase >= 0.0 && (c.mermaPct.Some? ==> c.mermaPct.value >= 0.0)
  }

  /** `float(c.mermaPct or 0.0)`: a null merma is 0, any other is kept, and none is negative. */
  function MermaOf(c: ComponenteIn): (r: real)
    requires ComponenteInValid(c)
    ensures r >= 0.0
    ensures c.mermaPct.None? ==> r == 0.0
    ensures c.mermaPct.Some? ==> r == c.mermaPct.value
  {
    match c.mermaPct
    case None => 0.0
    case Some(m) => m
  }

  /**
   * `ProcesoIn`. `nombreGiven` records whether the request carried the
   * `procesoEspecialNombre` key at all: the field validator runs only then.
   */
  datatype ProcesoIn = ProcesoIn(
    processCodigo: Option<string>,
    procesoEspecialNombre: Option<string>,
    nombreGiven: bool,
    procesoEspecialCosto: Option<real>)

  /** Python truthiness of an optional text: present and non-empty. */
  predicate Truthy(s: Option<string>) { s.Some? && s.value != [] }

  datatype Verdict = Accepted | Rejected | ValidatorFails

  /**
   * The schema's verdict as written. `validar_xor` is attached to
   * `procesoEspecialNombre`, so it runs only when that key is sent; it then calls
   * `.get` on its second argument, which under Pydantic 2 is a `ValidationInfo`
   * object without that method, so validation stops with an exception that is not
   * a validation error. When the name is not sent, only the cost bound applies.
   */
  function ProcesoVerdict(p: ProcesoIn): (r: Verdict)
    ensures p.nombreGiven ==> r == ValidatorFails
    ensures !p.nombreGiven ==> (r == Rejected <==> p.procesoEspecialCosto.Some? && p.procesoEspecialCosto.value < 0.0)
    ensures r != Rejected || p.procesoEspecialCosto.Some?
  {
    if p.nombreGiven then ValidatorFails
    else if p.procesoEspecialCosto.Some? && p.procesoEspecialCosto.value < 0.0 then Rejected
    else Accepted
  }

  /**
   * The rule the validator states: a cost with neither a process code nor a special
   * name is refused, and the cost may not be negative.
   */
  function ProcesoVerdictIntended(p: ProcesoIn): (r: Verdict)
    ensures r != ValidatorFails
    ensures r == Accepted <==>
      (p.procesoEspecialCosto.Some? ==>
         p.procesoEspecialCosto.value >= 0.0 && (Truthy(p.processCodigo) || Truthy(p.procesoEspecialNombre)))
  {
    if p.procesoEspecialCosto.Some? && p.procesoEspecialCosto.value < 0.0 then Rejected
    else if !Truthy(p.processCodigo) && !Truthy(p.procesoEspecialNombre) && p.procesoEspecialCosto.Some? then Rejected
    else Accepted
  }

  /** A cost alone, with neither code nor name, passes the schema as written. */
  lemma CostWithoutNameAccepted()
    ensures var p := ProcesoIn(None, None, false, Some(5.0));
            ProcesoVerdict(p) == Accepted && ProcesoVerdictIntended(p) == Rejected
  {
  }

  /** The schema as written never refuses a request for lacking a code or a name. */
  lemma ProcesoVerdictNeverXor(p: ProcesoIn)
    requires p.procesoEspecialCosto.None? || p.procesoEspecialCosto.value >= 0.0
    ensures ProcesoVerdict(p) != Rejected
  {
  }

  /** `RecetaVersionIn`; `fechaPublicacion` arrives as a date or not at all. */
  datatype VersionIn = VersionIn(
    numero: int,
    estado: EstadoVersion,
    marcarVigente: bool,
    fechaPublicacion: Option<Day>,
    publicadoPor: Option<string>,
    baseQty: real,
    unidadPT: string,
    proceso: Option<ProcesoIn>,
    componentes: seq<ComponenteIn>)

  /** A process block the schema lets through, as written: sending a name never gets through. */
  predicate ProcesoValid(p: Option<ProcesoIn>) { p.Some? ==> ProcesoVerdict(p.value) == Accepted }

  predicate ComponentesValid(cs: seq<ComponenteIn>) { forall i :: 0 <= i < |cs| ==> ComponenteInValid(cs[i]) }

  /** The bounds of `RecetaVersionIn`: `numero` at least 1, `baseQty` positive. */
  predicate VersionInValid(v: VersionIn) {
    v.numero >= 1 && v.baseQty > 0.0 && ProcesoValid(v.proceso) && ComponentesValid(v.componentes)
  }

  /** `CreateRecetaIn`. */
  datatype CreateIn = CreateIn(skuPT: string, vigenteVersion: Option<int>, version: VersionIn)

  /** `UpdateRecetaVersionIn`: every field optional. */
  datatype UpdateVersionIn = UpdateVersionIn(
    estado: Option<EstadoVersion>,
    fechaPublicacion: Option<Day>,
    publicadoPor: Option<string>,
    baseQty: Option<real>,
    unidadPT: Option<string>,
    proceso: Option<ProcesoIn>,
    componentes: Option<seq<ComponenteIn>>)

  /** The bounds of `UpdateRecetaVersionIn`: `baseQty`, when given, is positive. */
  predicate UpdateVersionInValid(u: UpdateVersionIn) {
    (u.baseQty.Some? ==> u.baseQty.value > 0.0) && ProcesoValid(u.proceso) &&
    (u.componentes.Some? ==> ComponentesValid(u.componentes.value))
  }
}
