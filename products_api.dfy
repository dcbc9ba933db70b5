/**
 * The products endpoints: the lenient integer reading of CSV cells, the
 * validation of an import file row by row into a stored batch, the
 * confirmation that upserts the clean rows, and the field set a PATCH or a
 * creation writes after resolving the family codes.
 */
module ProductsApi {
  import opened Wrappers
  import opened Text
  import opened Parsing
  import opened Familias
  import opened ProductsRepo
  import WorkOrders

  const REQUIRED_HEADERS: set<string> := {
    "SKU", "CODIGO_BARRA", "NOMBRE", "UNIDAD_MEDIDA",
    "NOMBRE_GRUPO", "NOMBRE_SUBGRUPO", "PRECIO_NETO", "CLASIFICACION"}
  const PREVIEW_LIMIT: nat := 50
  const MAX_ROWS: nat := 5000

  /**
   * `_to_int`: a missing or blank cell, and text `float()` refuses or reads as
   * NaN or an infinity, give the default; otherwise the float truncated toward
   * zero, a comma read as the decimal point.
   */
  function ToInt(v: Option<string>, default: int, parseFloat: string -> Num): (r: int)
    ensures v.None? || Strip(v.value) == [] ==> r == default
    ensures v.Some? && Strip(v.value) != [] ==>
      var n := parseFloat(WorkOrders.FloatText(v.value));
      (n.Finite? ==> r == Trunc(n.value)) && (!n.Finite? ==> r == default)
  {
    if v.None? || Strip(v.value) == [] then default
    else
      var n := parseFloat(WorkOrders.FloatText(v.value));
      if n.Finite? then Trunc(n.value) else default
  }

  /** A comma and a point are the same decimal separator to `_to_int`, and the result never moves away from zero. */
  lemma ToIntCommaIsPoint(s: string, default: int, parseFloat: string -> Num)
    requires Strip(s) != [] && Strip(ReplaceChar(s, ',', '.')) != []
    ensures ToInt(Some(s), default, parseFloat) == ToInt(Some(ReplaceChar(s, ',', '.')), default, parseFloat)
    ensures var n := parseFloat(WorkOrders.FloatText(s));
      n.Finite? ==> (if n.value >= 0.0 then 0.0 <= ToInt(Some(s), default, parseFloat) as real <= n.value
                     else n.value <= ToInt(Some(s), default, parseFloat) as real <= 0.0)
  {
    assert ReplaceChar(ReplaceChar(s, ',', '.'), ',', '.') == ReplaceChar(s, ',', '.');
  }

  // ------------------------------------------------------------ the file

  datatype ImportError = NotCsv | NotSemicolon | EmptyFile | MissingHeaders(missing: set<string>) | BatchNotSaved

  /** The header cells, each stripped. */
  function StripAll(row: seq<string>): (r: seq<string>)
    ensures |r| == |row| && forall i :: 0 <= i < |row| ==> r[i] == Strip(row[i])
  {
    seq(|row|, i requires 0 <= i < |row| => Strip(row[i]))
  }

  /**
   * The file-level checks of `import_validate`, in order: a `.csv` name in any
   * case, a `;` in the first line, at least one row, and every required header;
   * the stripped headers otherwise.
   */
  function CheckFile(filename: string, firstLine: string, rows: seq<seq<string>>): (r: Result<seq<string>, ImportError>)
    ensures r == Err(NotCsv) <==> !EndsWith(Lower(filename), ".csv")
    ensures r == Err(NotSemicolon) <==> EndsWith(Lower(filename), ".csv") && ';' !in firstLine
    ensures r == Err(EmptyFile) <==> EndsWith(Lower(filename), ".csv") && ';' in firstLine && rows == []
    ensures r.Err? && r.error.MissingHeaders? ==> r.error.missing != {} && r.error.missing <= REQUIRED_HEADERS
    ensures r.Ok? ==> rows != [] && r.value == StripAll(rows[0]) && forall h :: h in REQUIRED_HEADERS ==> h in r.value
    ensures r.Err? && r.error.MissingHeaders? ==> forall h :: h in REQUIRED_HEADERS ==> (h in r.error.missing <==> h !in StripAll(rows[0]))
  {
    if !EndsWith(Lower(filename), ".csv") then Err(NotCsv)
    else if ';' !in firstLine then Err(NotSemicolon)
    else if rows == [] then Err(EmptyFile)
    else
      var headers := StripAll(rows[0]);
      var missing := set h | h in REQUIRED_HEADERS && h !in headers;
      assert forall h :: h in REQUIRED_HEADERS && h !in headers ==> h in missing;
      if missing != {} then Err(MissingHeaders(missing)) else Ok(headers)
  }

  /** `{h: i for i, h in enumerate(headers)}[col]`: a repeated header names its last column. */
  function ColumnIndex(headers: seq<string>, col: string): (r: Option<nat>)
    ensures r.None? <==> col !in headers
    ensures r.Some? ==> r.value < |headers| && headers[r.value] == col
                        && forall i :: r.value < i < |headers| ==> headers[i] != col
    decreases |headers|
  {
    if headers == [] then None
    else if headers[|headers| - 1] == col then Some(|headers| - 1)
    else
      var r := ColumnIndex(headers[..|headers| - 1], col);
      assert forall i :: 0 <= i < |headers| - 1 ==> headers[..|headers| - 1][i] == headers[i];
      r
  }

  /** `val(col)`: the stripped cell, or None when the column is unknown or the row too short. */
  function Val(headers: seq<string>, row: seq<string>, col: string): (r: Option<string>)
    ensures r.None? <==> ColumnIndex(headers, col).None? || ColumnIndex(headers, col).value >= |row|
    ensures r.Some? ==> r.value == Strip(row[ColumnIndex(headers, col).value])
  {
    var i := ColumnIndex(headers, col);
    if i.None? || i.value >= |row| then None else Some(Strip(row[i.value]))
  }

  /** The row's SKU: its cell stripped and upper-cased, "" when absent. */
  function SkuOf(headers: seq<string>, row: seq<string>): string {
    Upper(Val(headers, row, "SKU").GetOr(""))
  }

  /** The errors a row can carry, in the order they are checked. */
  datatype RowIssue =
    | SkuRequired | NombreRequired | UnidadRequired | ClasificacionInvalid
    | SkuDuplicated | PrecioNotPositive | GrupoMissing | SubgrupoMissing

  function Message(e: RowIssue): string {
    match e
    case SkuRequired => "SKU es requerido."
    case NombreRequired => "NOMBRE es requerido."
    case UnidadRequired => "UNIDAD_MEDIDA es requerida."
    case ClasificacionInvalid => "CLASIFICACION debe ser MP o PT."
    case SkuDuplicated => "SKU duplicado en el archivo."
    case PrecioNotPositive => "PRECIO_NETO debe ser mayor a 0."
    case GrupoMissing => "Debe informar NOMBRE_GRUPO o CODIGO_GRUPO."
    case SubgrupoMissing => "Debe informar NOMBRE_SUBGRUPO o CODIGO_SUBGRUPO."
  }

  function Messages(es: seq<RowIssue>): (r: seq<string>)
    ensures |r| == |es| && forall i :: 0 <= i < |es| ==> r[i] == Message(es[i])
  {
    seq(|es|, i requires 0 <= i < |es| => Message(es[i]))
  }

  /** The warning for a SKU already stored. */
  function ExistsWarning(sku: string): string {
    "SKU '" + sku + "' ya existe en la base de datos; se actualizará en la confirmación."
  }

  /** The product a row describes. */
  datatype Payload = Payload(
    nombre: string, nombreCi: string, sku: string, cBarra: int, unidad: string,
    dg: string, codigoG: int, dsg: string, codigoSg: int,
    pneto: int, piva: int, tipo: string, valorRepo: string)

  /** The payload as the document the batch stores. */
  function ToDoc(p: Payload): (d: Doc)
    ensures SkuText(d) == p.sku
  {
    var fields := map[
      "nombre" := Str(p.nombre), "nombre_ci" := Str(p.nombreCi), "c_barra" := Int(p.cBarra),
      "unidad" := Str(p.unidad), "dg" := Str(p.dg), "codigo_g" := Int(p.codigoG),
      "dsg" := Str(p.dsg), "codigo_sg" := Int(p.codigoSg), "pneto" := Int(p.pneto),
      "piva" := Int(p.piva), "tipo" := Str(p.tipo), "valor_repo" := Str(p.valorRepo)];
    fields["sku" := Str(p.sku)]
  }

  /** What the loop body of `import_validate` makes of one row. */
  datatype RowResult = RowResult(sku: string, payload: Payload, issues: seq<RowIssue>, warnings: seq<string>)

  /** The cells of one row as the loop reads them: `val(...)`, upper-cased where the loop does, and `_to_int(val(...), 0)`. */
  datatype RowCells = RowCells(
    sku: string, nombre: string, uom: string, clasif: string, pneto: int,
    dg: string, dsg: string, codigoG: int, codigoSg: int, cBarra: int, valorRepo: int)

  function CellsOf(headers: seq<string>, row: seq<string>, parseFloat: string -> Num): RowCells {
    RowCells(
      SkuOf(headers, row), Val(headers, row, "NOMBRE").GetOr(""),
      Upper(Val(headers, row, "UNIDAD_MEDIDA").GetOr("")), Upper(Val(headers, row, "CLASIFICACION").GetOr("")),
      ToInt(Val(headers, row, "PRECIO_NETO"), 0, parseFloat),
      Val(headers, row, "NOMBRE_GRUPO").GetOr(""), Val(headers, row, "NOMBRE_SUBGRUPO").GetOr(""),
      ToInt(Val(headers, row, "CODIGO_GRUPO"), 0, parseFloat), ToInt(Val(headers, row, "CODIGO_SUBGRUPO"), 0, parseFloat),
      ToInt(Val(headers, row, "CODIGO_BARRA"), 0, parseFloat), ToInt(Val(headers, row, "VALOR_REPOSICION"), 0, parseFloat))
  }

  /** The check `e` fails on the row; `seen` holds the SKUs of the rows before it. */
  predicate Fails(c: RowCells, seen: set<string>, e: RowIssue) {
    match e
    case SkuRequired => c.sku == []
    case NombreRequired => c.nombre == []
    case UnidadRequired => c.uom == []
    case ClasificacionInvalid => c.clasif != "MP" && c.clasif != "PT"
    case SkuDuplicated => c.sku in seen
    case PrecioNotPositive => c.pneto <= 0
    case GrupoMissing => c.dg == [] && c.codigoG == 0
    case SubgrupoMissing => c.dsg == [] && c.codigoSg == 0
  }

  /** The order in which the loop runs its checks. */
  const ISSUE_ORDER: seq<RowIssue> := [
    SkuRequired, NombreRequired, UnidadRequired, ClasificacionInvalid,
    SkuDuplicated, PrecioNotPositive, GrupoMissing, SubgrupoMissing]

  /** Every check is in the order. */
  lemma IssueOrderComplete()
    ensures forall e: RowIssue :: e in ISSUE_ORDER
  {
    forall e: RowIssue ensures e in ISSUE_ORDER {
      match e
      case SkuRequired => assert ISSUE_ORDER[0] == e;
      case NombreRequired => assert ISSUE_ORDER[1] == e;
      case UnidadRequired => assert ISSUE_ORDER[2] == e;
      case ClasificacionInvalid => assert ISSUE_ORDER[3] == e;
      case SkuDuplicated => assert ISSUE_ORDER[4] == e;
      case PrecioNotPositive => assert ISSUE_ORDER[5] == e;
      case GrupoMissing => assert ISSUE_ORDER[6] == e;
      case SubgrupoMissing => assert ISSUE_ORDER[7] == e;
    }
  }

  /** The failing checks among `order`, in that order. */
  function FailingIn(order: seq<RowIssue>, c: RowCells, seen: set<string>): (r: seq<RowIssue>)
    ensures forall e :: e in r <==> e in order && Fails(c, seen, e)
    ensures |r| <= |order|
  {
    if order == [] then []
    else (if Fails(c, seen, order[0]) then [order[0]] else []) + FailingIn(order[1..], c, seen)
  }

  /** The errors of a row: exactly the checks that fail, in the order they are run. */
  function Issues(c: RowCells, seen: set<string>): (r: seq<RowIssue>)
    ensures forall e :: e in r <==> Fails(c, seen, e)
  {
    IssueOrderComplete();
    FailingIn(ISSUE_ORDER, c, seen)
  }

  /** A resolver of family names and codes; `import_validate` uses `resolve_codes`. */
  type Resolver = (Option<string>, Option<string>, Option<int>, Option<int>) -> Resolved

  /** The resolver on the row's group and subgroup, names as text and codes as read. */
  function ResolveRow(c: RowCells, resolve: Resolver): Resolved {
    resolve(Some(c.dg), Some(c.dsg), Some(c.codigoG), Some(c.codigoSg))
  }

  /** The row's payload: upper-cased names, `int(... or 0)` codes, and `ivaOf` as `int(round(pneto * 1.19))`. */
  function PayloadOf(c: RowCells, res: Resolved, ivaOf: int -> int): Payload {
    Payload(
      Upper(c.nombre), Lower(c.nombre), c.sku, c.cBarra, Upper(c.uom),
      Upper(res.dg.GetOr("")), res.codigoG.GetOr(0), Upper(res.dsg.GetOr("")), res.codigoSg.GetOr(0),
      c.pneto, ivaOf(c.pneto), Upper(c.clasif), IntToDecimal(c.valorRepo))
  }

  /** Upper-casing twice is upper-casing once. */
  lemma UpperIdempotent(s: string)
    ensures Upper(Upper(s)) == Upper(s)
  {
    forall i | 0 <= i < |s| ensures UpperChar(UpperChar(s[i])) == UpperChar(s[i]) {
    }
  }

  /**
   * One row of `import_validate`: its errors are exactly the failing checks,
   * `seen` holding the SKUs of the rows before it; it is warned about exactly
   * when its SKU is already stored; its payload carries its SKU, its
   * classification and its price as read.
   */
  function CheckRow(headers: seq<string>, row: seq<string>, seen: set<string>, existing: set<string>,
                    parseFloat: string -> Num, ivaOf: int -> int, resolve: Resolver): (r: RowResult)
    ensures r.sku == SkuOf(headers, row) && r.payload.sku == r.sku
    ensures forall e :: e in r.issues <==> Fails(CellsOf(headers, row, parseFloat), seen, e)
    ensures r.warnings != [] <==> r.sku != [] && r.sku in existing
    ensures r.payload.tipo == CellsOf(headers, row, parseFloat).clasif
    ensures r.payload.pneto == CellsOf(headers, row, parseFloat).pneto && r.payload.piva == ivaOf(r.payload.pneto)
  {
    var c := CellsOf(headers, row, parseFloat);
    UpperIdempotent(Val(headers, row, "CLASIFICACION").GetOr(""));
    var warnings := if c.sku != [] && c.sku in existing then [ExistsWarning(c.sku)] else [];
    RowResult(c.sku, PayloadOf(c, ResolveRow(c, resolve), ivaOf), Issues(c, seen), warnings)
  }

  /** A row without errors has a SKU not seen before, a name, a unit, MP or PT as its type and a positive price. */
  lemma CleanRowPayload(c: RowCells, seen: set<string>)
    requires Issues(c, seen) == []
    ensures c.sku != [] && c.sku !in seen && c.nombre != [] && c.uom != []
    ensures (c.clasif == "MP" || c.clasif == "PT") && c.pneto > 0
  {
    assert !Fails(c, seen, SkuRequired) && !Fails(c, seen, SkuDuplicated) && !Fails(c, seen, ClasificacionInvalid);
    assert !Fails(c, seen, PrecioNotPositive) && !Fails(c, seen, NombreRequired) && !Fails(c, seen, UnidadRequired);
  }

  /** The data rows: at most MAX_ROWS after the header. */
  function DataRows(rows: seq<seq<string>>): (r: seq<seq<string>>)
    requires rows != []
    ensures |r| <= MAX_ROWS && |r| == if |rows| - 1 < MAX_ROWS then |rows| - 1 else MAX_ROWS
  {
    rows[1..if |rows| < 1 + MAX_ROWS then |rows| else 1 + MAX_ROWS]
  }

  /** The SKUs of the rows before row `j`. */
  function SeenBefore(headers: seq<string>, data: seq<seq<string>>, j: nat): set<string>
    requires j <= |data|
  {
    set i | 0 <= i < j :: SkuOf(headers, data[i])
  }

  /** Row `j` (0-based among the data rows) as the loop checks it. */
  function RowAt(headers: seq<string>, data: seq<seq<string>>, j: nat, existing: set<string>,
                 parseFloat: string -> Num, ivaOf: int -> int, resolve: Resolver): RowResult
    requires j < |data|
  {
    CheckRow(headers, data[j], SeenBefore(headers, data, j), existing, parseFloat, ivaOf, resolve)
  }

  /** A row is flagged as a duplicate exactly when an earlier row carries the same SKU (blank SKUs included). */
  lemma DuplicateIffEarlierSame(headers: seq<string>, data: seq<seq<string>>, j: nat, parseFloat: string -> Num)
    requires j < |data|
    ensures SkuDuplicated in Issues(CellsOf(headers, data[j], parseFloat), SeenBefore(headers, data, j)) <==>
      exists i :: 0 <= i < j && SkuOf(headers, data[i]) == SkuOf(headers, data[j])
  {
    var c := CellsOf(headers, data[j], parseFloat);
    var seen := SeenBefore(headers, data, j);
    assert c.sku == SkuOf(headers, data[j]);
    assert SkuDuplicated in Issues(c, seen) <==> c.sku in seen;
    if c.sku in seen {
      var i :| 0 <= i < j && SkuOf(headers, data[i]) == c.sku;
    }
  }

  /** The first occurrence of a SKU is never flagged as a duplicate. */
  lemma FirstOccurrenceNotDuplicate(headers: seq<string>, data: seq<seq<string>>, j: nat, parseFloat: string -> Num)
    requires j < |data|
    requires forall i :: 0 <= i < j ==> SkuOf(headers, data[i]) != SkuOf(headers, data[j])
    ensures SkuDuplicated !in Issues(CellsOf(headers, data[j], parseFloat), SeenBefore(headers, data, j))
  {
    DuplicateIffEarlierSame(headers, data, j, parseFloat);
  }

  /** The batch item of row `j`; rows are numbered from 1. */
  function ItemOf(r: RowResult, j: nat): BatchItem {
    BatchItem(j + 1, ToDoc(r.payload), Messages(r.issues), r.warnings)
  }

  /** The answer of `import_validate`: the batch, the preview rows with their numbers, and the messages by row. */
  datatype ValidateOut = ValidateOut(
    batchId: string, preview: seq<(nat, Payload)>, errorsByRow: map<nat, seq<string>>, warningsByRow: map<nat, seq<string>>)

  /** The SKU of every data row, as the pre-pass collects them. */
  function FileSkus(headers: seq<string>, data: seq<seq<string>>): (r: seq<string>)
    ensures |r| == |data|
  {
    seq(|data|, j requires 0 <= j < |data| => SkuOf(headers, data[j]))
  }

  /** A row check: the row and the SKUs of the rows before it give the row's result. */
  type RowChecker = (seq<string>, set<string>) -> RowResult

  /** The row check of `import_validate` for these headers, stored SKUs and resolver. */
  function RowCheck(headers: seq<string>, existing: set<string>, parseFloat: string -> Num,
                    ivaOf: int -> int, resolve: Resolver): RowChecker
  {
    (row, seen) => CheckRow(headers, row, seen, existing, parseFloat, ivaOf, resolve)
  }

  /** The SKUs of the checked rows. */
  function SkusIn(rs: seq<RowResult>): set<string> {
    set j | 0 <= j < |rs| :: rs[j].sku
  }

  /** One more result adds its SKU to the SKUs seen. */
  lemma SkusInSnoc(rs: seq<RowResult>, r: RowResult)
    ensures SkusIn(rs + [r]) == SkusIn(rs) + {r.sku}
  {
    var t := rs + [r];
    forall x | x in SkusIn(t) ensures x in SkusIn(rs) + {r.sku} {
      var j :| 0 <= j < |t| && t[j].sku == x;
      if j < |rs| {
        assert rs[j].sku == x;
      }
    }
    forall x | x in SkusIn(rs) + {r.sku} ensures x in SkusIn(t) {
      if x == r.sku {
        assert t[|rs|].sku == x;
      } else {
        var j :| 0 <= j < |rs| && rs[j].sku == x;
        assert t[j].sku == x;
      }
    }
  }

  /** The data rows checked in file order, each against the SKUs of the results before it. */
  function RowsOf(data: seq<seq<string>>, check: RowChecker): (r: seq<RowResult>)
    ensures |r| == |data|
    decreases |data|
  {
    if data == [] then []
    else
      var prev := RowsOf(data[..|data| - 1], check);
      prev + [check(data[|data| - 1], SkusIn(prev))]
  }

  /** Checking one more row appends its result; the rows before it are checked as they were. */
  lemma RowsOfSnoc(data: seq<seq<string>>, k: nat, check: RowChecker)
    requires k < |data|
    ensures RowsOf(data[..k + 1], check) == RowsOf(data[..k], check) + [check(data[k], SkusIn(RowsOf(data[..k], check)))]
  {
    assert data[..k + 1][..k] == data[..k];
  }

  /** The SKUs seen by the loop's rows are the SKUs of the data rows before them. */
  lemma {:induction false} SkusInRowsOf(headers: seq<string>, data: seq<seq<string>>, check: RowChecker)
    requires forall row, seen :: check(row, seen).sku == SkuOf(headers, row)
    ensures SkusIn(RowsOf(data, check)) == SeenBefore(headers, data, |data|)
    decreases |data|
  {
    if data != [] {
      var k := |data| - 1;
      var prev := RowsOf(data[..k], check);
      SkusInRowsOf(headers, data[..k], check);
      var r := check(data[k], SkusIn(prev));
      assert forall j :: 0 <= j < k ==> data[..k][j] == data[j];
      SkusInSnoc(prev, r);
      SeenBeforeStep(headers, data, k);
      SeenBeforePrefix(headers, data, k, k);
    }
  }

  /** The row check of `import_validate` reports each row under its own SKU. */
  lemma RowCheckSku(headers: seq<string>, existing: set<string>, parseFloat: string -> Num, ivaOf: int -> int, resolve: Resolver)
    ensures forall row, seen :: RowCheck(headers, existing, parseFloat, ivaOf, resolve)(row, seen).sku == SkuOf(headers, row)
  {
    forall row, seen
      ensures RowCheck(headers, existing, parseFloat, ivaOf, resolve)(row, seen).sku == SkuOf(headers, row)
    {
      var r := CheckRow(headers, row, seen, existing, parseFloat, ivaOf, resolve);
    }
  }

  /** Row `j` of the loop's result is row `j` checked against the SKUs of the results before it. */
  lemma {:induction false} RowsOfIndex(data: seq<seq<string>>, check: RowChecker, j: nat)
    requires j < |data|
    ensures RowsOf(data, check)[j] == check(data[j], SkusIn(RowsOf(data[..j], check)))
    decreases |data|
  {
    var k := |data| - 1;
    if j < k {
      RowsOfIndex(data[..k], check, j);
      assert data[..k][..j] == data[..j];
    } else {
      assert data[..k] == data[..j];
    }
  }

  /** Row `j` of the loop's result is row `j` checked against the SKUs of the data rows before it. */
  lemma RowsOfAt(headers: seq<string>, data: seq<seq<string>>, existing: set<string>,
                 parseFloat: string -> Num, ivaOf: int -> int, resolve: Resolver)
    ensures forall j :: 0 <= j < |data| ==>
      RowsOf(data, RowCheck(headers, existing, parseFloat, ivaOf, resolve))[j] == RowAt(headers, data, j, existing, parseFloat, ivaOf, resolve)
  {
    var check := RowCheck(headers, existing, parseFloat, ivaOf, resolve);
    forall j | 0 <= j < |data|
      ensures RowsOf(data, check)[j] == RowAt(headers, data, j, existing, parseFloat, ivaOf, resolve)
    {
      RowsOfIndex(data, check, j);
      RowCheckSku(headers, existing, parseFloat, ivaOf, resolve);
      SkusInRowsOf(headers, data[..j], check);
      SeenBeforePrefix(headers, data, j, j);
      assert |data[..j]| == j;
    }
  }

  /** The SKUs before row `k + 1` are those before row `k` and row `k`'s own. */
  lemma SeenBeforeStep(headers: seq<string>, data: seq<seq<string>>, k: nat)
    requires k < |data|
    ensures SeenBefore(headers, data, k + 1) == SeenBefore(headers, data, k) + {SkuOf(headers, data[k])}
  {
    forall x | x in SeenBefore(headers, data, k + 1) ensures x in SeenBefore(headers, data, k) + {SkuOf(headers, data[k])} {
      var i :| 0 <= i < k + 1 && SkuOf(headers, data[i]) == x;
      if i < k {
        assert x in SeenBefore(headers, data, k);
      }
    }
  }

  /** The SKUs before row `k` depend only on the rows before it. */
  lemma SeenBeforePrefix(headers: seq<string>, data: seq<seq<string>>, m: nat, k: nat)
    requires k <= m <= |data|
    ensures SeenBefore(headers, data[..m], k) == SeenBefore(headers, data, k)
  {
    assert forall i :: 0 <= i < k ==> data[..m][i] == data[i];
  }

  /** The batch items of the checked rows, numbered from 1. */
  function ItemsOf(rs: seq<RowResult>): (r: seq<BatchItem>)
    ensures |r| == |rs|
  {
    seq(|rs|, j requires 0 <= j < |rs| => ItemOf(rs[j], j))
  }

  /** The preview: the first PREVIEW_LIMIT rows' payloads with their numbers. */
  function PreviewOf(rs: seq<RowResult>): (r: seq<(nat, Payload)>)
    ensures |r| == if |rs| < PREVIEW_LIMIT then |rs| else PREVIEW_LIMIT
  {
    var n := if |rs| < PREVIEW_LIMIT then |rs| else PREVIEW_LIMIT;
    seq(n, j requires 0 <= j < n => (j + 1, rs[j].payload))
  }

  /** `errors_by_row`: the messages of the rows with errors, keyed by row number. */
  function ErrorsByRow(rs: seq<RowResult>): map<nat, seq<string>>
    decreases |rs|
  {
    if rs == [] then map[]
    else
      var m := ErrorsByRow(rs[..|rs| - 1]);
      if rs[|rs| - 1].issues != [] then m[|rs| := Messages(rs[|rs| - 1].issues)] else m
  }

  /** `warnings_by_row`: the warnings of the warned rows, keyed by row number. */
  function WarningsByRow(rs: seq<RowResult>): map<nat, seq<string>>
    decreases |rs|
  {
    if rs == [] then map[]
    else
      var m := WarningsByRow(rs[..|rs| - 1]);
      if rs[|rs| - 1].warnings != [] then m[|rs| := rs[|rs| - 1].warnings] else m
  }

  /** `errors_by_row` holds the messages of every row with errors under its number, and no other row. */
  lemma {:induction false} ErrorsByRowKeys(rs: seq<RowResult>)
    ensures forall n :: n in ErrorsByRow(rs) <==> 1 <= n <= |rs| && rs[n - 1].issues != []
    ensures forall n :: n in ErrorsByRow(rs) ==> ErrorsByRow(rs)[n] == Messages(rs[n - 1].issues)
    decreases |rs|
  {
    if rs != [] {
      var init := rs[..|rs| - 1];
      ErrorsByRowKeys(init);
      assert forall j :: 0 <= j < |init| ==> init[j] == rs[j];
    }
  }

  /** `warnings_by_row` holds the warnings of every warned row under its number, and no other row. */
  lemma {:induction false} WarningsByRowKeys(rs: seq<RowResult>)
    ensures forall n :: n in WarningsByRow(rs) <==> 1 <= n <= |rs| && rs[n - 1].warnings != []
    ensures forall n :: n in WarningsByRow(rs) ==> WarningsByRow(rs)[n] == rs[n - 1].warnings
    decreases |rs|
  {
    if rs != [] {
      var init := rs[..|rs| - 1];
      WarningsByRowKeys(init);
      assert forall j :: 0 <= j < |init| ==> init[j] == rs[j];
    }
  }

  /** One more checked row adds its item at the end. */
  lemma ItemsOfSnoc(rs: seq<RowResult>, r: RowResult)
    ensures ItemsOf(rs + [r]) == ItemsOf(rs) + [ItemOf(r, |rs|)]
  {
    assert forall j :: 0 <= j < |rs| ==> (rs + [r])[j] == rs[j];
  }

  /** One more checked row joins the preview only while it holds fewer than PREVIEW_LIMIT rows. */
  lemma PreviewOfSnoc(rs: seq<RowResult>, r: RowResult)
    ensures PreviewOf(rs + [r]) == if |rs| < PREVIEW_LIMIT then PreviewOf(rs) + [(|rs| + 1, r.payload)] else PreviewOf(rs)
  {
    assert forall j :: 0 <= j < |rs| ==> (rs + [r])[j] == rs[j];
  }

  /** One more checked row adds its messages under its number exactly when it has errors. */
  lemma ErrorsByRowSnoc(rs: seq<RowResult>, r: RowResult)
    ensures ErrorsByRow(rs + [r]) == if r.issues != [] then ErrorsByRow(rs)[|rs| + 1 := Messages(r.issues)] else ErrorsByRow(rs)
  {
    assert (rs + [r])[..|rs|] == rs;
  }

  /** One more checked row adds its warnings under its number exactly when it has any. */
  lemma WarningsByRowSnoc(rs: seq<RowResult>, r: RowResult)
    ensures WarningsByRow(rs + [r]) == if r.warnings != [] then WarningsByRow(rs)[|rs| + 1 := r.warnings] else WarningsByRow(rs)
  {
    assert (rs + [r])[..|rs|] == rs;
  }

  /**
   * One row's share of the loop body: its payload joins the preview while
   * there is room, its item joins the batch, and its errors and warnings are
   * recorded under its number.
   */
  method AddRow(ghost checked: seq<RowResult>, row: RowResult, preview: seq<(nat, Payload)>, items: seq<BatchItem>,
                errorsByRow: map<nat, seq<string>>, warningsByRow: map<nat, seq<string>>)
    returns (preview': seq<(nat, Payload)>, items': seq<BatchItem>,
             errorsByRow': map<nat, seq<string>>, warningsByRow': map<nat, seq<string>>)
    requires items == ItemsOf(checked) && preview == PreviewOf(checked)
    requires errorsByRow == ErrorsByRow(checked) && warningsByRow == WarningsByRow(checked)
    ensures items' == ItemsOf(checked + [row]) && preview' == PreviewOf(checked + [row])
    ensures errorsByRow' == ErrorsByRow(checked + [row]) && warningsByRow' == WarningsByRow(checked + [row])
  {
    var k := |items|;
    ItemsOfSnoc(checked, row);
    PreviewOfSnoc(checked, row);
    ErrorsByRowSnoc(checked, row);
    WarningsByRowSnoc(checked, row);
    errorsByRow' := if row.issues != [] then errorsByRow[k + 1 := Messages(row.issues)] else errorsByRow;
    warningsByRow' := if row.warnings != [] then warningsByRow[k + 1 := row.warnings] else warningsByRow;
    preview' := if |preview| < PREVIEW_LIMIT then preview + [(k + 1, row.payload)] else preview;
    items' := items + [ItemOf(row, k)];
  }

  /**
   * The row loop of `import_validate`: every data row checked against the SKUs
   * of the rows before it, giving the preview, the items and the messages by row.
   */
  method CheckRows(data: seq<seq<string>>, check: RowChecker)
    returns (preview: seq<(nat, Payload)>, items: seq<BatchItem>,
             errorsByRow: map<nat, seq<string>>, warningsByRow: map<nat, seq<string>>)
    ensures var rs := RowsOf(data, check);
      items == ItemsOf(rs) && preview == PreviewOf(rs) && errorsByRow == ErrorsByRow(rs) && warningsByRow == WarningsByRow(rs)
  {
    ghost var checked: seq<RowResult> := [];
    preview := [];
    items := [];
    errorsByRow := map[];
    warningsByRow := map[];
    var seen: set<string> := {};
    var k := 0;
    while k < |data|
      invariant 0 <= k <= |data|
      invariant checked == RowsOf(data[..k], check) && seen == SkusIn(checked)
      invariant items == ItemsOf(checked) && preview == PreviewOf(checked)
      invariant errorsByRow == ErrorsByRow(checked) && warningsByRow == WarningsByRow(checked)
    {
      var row := check(data[k], seen);
      RowsOfSnoc(data, k, check);
      SkusInSnoc(checked, row);
      seen := seen + {row.sku};
      preview, items, errorsByRow, warningsByRow := AddRow(checked, row, preview, items, errorsByRow, warningsByRow);
      checked := checked + [row];
      k := k + 1;
    }
    assert data[..k] == data;
  }

  /**
   * `import_validate`: the file checks, then every data row checked against the
   * SKUs before it and those already stored; the preview keeps the first
   * PREVIEW_LIMIT rows, the batch all of them. `batchId` is the id the clock gives.
   */
  method ImportValidate(db: ProductsDb, filename: string, firstLine: string, rows: seq<seq<string>>,
                        batchId: string, parseFloat: string -> Num, ivaOf: int -> int)
    returns (r: Result<ValidateOut, ImportError>)
    requires db.Valid()
    modifies db
    ensures db.Valid() && db.products == old(db.products)
    ensures CheckFile(filename, firstLine, rows).Err? ==> r == Err(CheckFile(filename, firstLine, rows).error) && db.batches == old(db.batches)
    ensures CheckFile(filename, firstLine, rows).Ok? ==>
      var headers := CheckFile(filename, firstLine, rows).value;
      var data := DataRows(rows);
      var existing := FindExistingSkus(old(db.products), FileSkus(headers, data));
      var rs := RowsOf(data, RowCheck(headers, existing, parseFloat, ivaOf, ResolveCodes));
      (r.Err? <==> batchId in old(db.batches))
      && (r.Err? ==> r.error == BatchNotSaved && db.batches == old(db.batches))
      && (r.Ok? ==>
        r.value == ValidateOut(batchId, PreviewOf(rs), ErrorsByRow(rs), WarningsByRow(rs))
        && db.batches == old(db.batches)[batchId := ItemsOf(rs)])
  {
    var checked := CheckFile(filename, firstLine, rows);
    if checked.Err? {
      return Err(checked.error);
    }
    var headers := checked.value;
    var data := DataRows(rows);
    var fileSkus := CollectFileSkus(headers, data);
    // the distinct non-blank SKUs are looked up; blanks and repeats do not change the answer
    var existing := FindExistingSkus(db.products, fileSkus);
    var preview, items, errorsByRow, warningsByRow := CheckRows(data, RowCheck(headers, existing, parseFloat, ivaOf, ResolveCodes));
    var saved := db.SaveImportBatch(batchId, items);
    if !saved {
      return Err(BatchNotSaved);
    }
    r := Ok(ValidateOut(batchId, preview, errorsByRow, warningsByRow));
  }

  /** The SKU cell of every data row, in file order. */
  method CollectFileSkus(headers: seq<string>, data: seq<seq<string>>) returns (fileSkus: seq<string>)
    ensures fileSkus == FileSkus(headers, data)
  {
    fileSkus := [];
    var k := 0;
    while k < |data|
      invariant 0 <= k <= |data|
      invariant fileSkus == FileSkus(headers, data[..k])
    {
      assert data[..k + 1] == data[..k] + [data[k]];
      fileSkus := fileSkus + [SkuOf(headers, data[k])];
      k := k + 1;
    }
    assert data[..k] == data;
  }

  // ------------------------------------------------------------ confirmation

  datatype ConfirmError = BatchIdMissing | BatchNotFound | BulkWriteFailed

  /** The counts `import_confirm` answers with. */
  datatype ConfirmCounts = ConfirmCounts(created: nat, updated: nat, skipped: nat)

  /** `import_confirm` upserts the item: no errors, and a sku that is not blank once stripped and upper-cased. */
  predicate Kept(it: BatchItem) {
    it.errors == [] && UpsertKey(it.payload) != []
  }

  /** The documents `import_confirm` hands to the bulk upsert from the first `k` items: each kept payload made active. */
  function KeptDocs(items: seq<BatchItem>, k: nat): (docs: seq<Doc>)
    requires k <= |items|
    ensures |docs| <= k
    ensures forall d :: d in docs ==> "activo" in d && d["activo"] == Bool(true) && UpsertKey(d) != []
    decreases k
  {
    if k == 0 then []
    else
      var prev := KeptDocs(items, k - 1);
      var it := items[k - 1];
      if Kept(it) then
        var d := it.payload["activo" := Bool(true)];
        assert SkuText(d) == SkuText(it.payload);
        prev + [d]
      else prev
  }

  /** The items passed over, counted as skipped. */
  function SkippedCount(items: seq<BatchItem>, k: nat): nat
    requires k <= |items|
    decreases k
  {
    if k == 0 then 0 else SkippedCount(items, k - 1) + (if Kept(items[k - 1]) then 0 else 1)
  }

  /** Every item is either upserted or counted as skipped, never both. */
  lemma {:induction false} KeptPlusSkipped(items: seq<BatchItem>, k: nat)
    requires k <= |items|
    ensures |KeptDocs(items, k)| + SkippedCount(items, k) == k
    decreases k
  {
    if k > 0 {
      KeptPlusSkipped(items, k - 1);
    }
  }

  /** The loop of `import_confirm` over the batch: the documents to upsert, and how many items it passes over. */
  method KeepItems(items: seq<BatchItem>) returns (docs: seq<Doc>, skipped: nat)
    ensures docs == KeptDocs(items, |items|) && skipped == SkippedCount(items, |items|)
  {
    docs := [];
    skipped := 0;
    var k := 0;
    while k < |items|
      invariant 0 <= k <= |items|
      invariant docs == KeptDocs(items, k) && skipped == SkippedCount(items, k)
    {
      var it := items[k];
      if it.errors != [] {
        skipped := skipped + 1;
      } else {
        var doc := it.payload["activo" := Bool(true)];
        assert SkuText(doc) == SkuText(it.payload);
        if UpsertKey(doc) == [] {
          skipped := skipped + 1;
        } else {
          docs := docs + [doc];
        }
      }
      k := k + 1;
    }
  }

  /**
   * `import_confirm`: the batch id is required and the batch must exist; an
   * empty batch is deleted with zero counts; otherwise the kept items are
   * upserted by SKU and the batch deleted. A failed bulk write keeps the batch.
   */
  method ImportConfirm(db: ProductsDb, batchId: Option<string>) returns (r: Result<ConfirmCounts, ConfirmError>)
    requires db.Valid()
    modifies db
    ensures db.Valid()
    ensures r == Err(BatchIdMissing) <==> batchId.None? || batchId.value == []
    ensures batchId.Some? && batchId.value != [] ==>
      var id := batchId.value;
      (r == Err(BatchNotFound) <==> id !in old(db.batches))
      && (id !in old(db.batches) ==> db.products == old(db.products) && db.batches == old(db.batches))
      && (id in old(db.batches) ==>
        var items := old(db.batches)[id];
        var docs := KeptDocs(items, |items|);
        var run := BulkRun(old(db.products), docs, |docs|);
        db.products == run.0
        && (r == Err(BulkWriteFailed) <==> Rejected in run.1)
        && (r.Err? ==> db.batches == old(db.batches))
        && (r.Ok? ==> db.batches == old(db.batches) - {id}
                      && r.value == ConfirmCounts(CountOf(run.1, Created), CountOf(run.1, Updated), SkippedCount(items, |items|))))
  {
    if batchId.None? || batchId.value == [] {
      return Err(BatchIdMissing);
    }
    var id := batchId.value;
    if id !in db.batches {
      return Err(BatchNotFound);
    }
    var items := db.batches[id];
    KeptPlusSkipped(items, |items|);
    if items == [] {
      db.DeleteImportBatch(id);
      return Ok(ConfirmCounts(0, 0, 0));
    }
    var docs, skipped := KeepItems(items);
    var written := db.BulkUpsertBySku(docs);
    if written.Err? {
      return Err(BulkWriteFailed);
    }
    db.DeleteImportBatch(id);
    r := Ok(ConfirmCounts(written.value.0, written.value.1, skipped));
  }

  /** The counts of a confirmation cover the batch: created, updated and skipped never exceed its items. */
  lemma ConfirmCountsBounded(products: seq<Doc>, items: seq<BatchItem>)
    ensures var docs := KeptDocs(items, |items|);
      var outs := BulkRun(products, docs, |docs|).1;
      UniqueSkus(products) ==> CountOf(outs, Created) + CountOf(outs, Updated) + SkippedCount(items, |items|) <= |items|
  {
    var docs := KeptDocs(items, |items|);
    KeptPlusSkipped(items, |items|);
    if UniqueSkus(products) {
      BulkRunLength(UpsertDoc, products, docs, |docs|);
      CountsAtMostLength(BulkRun(products, docs, |docs|).1);
    }
  }

  lemma {:induction false} CountsAtMostLength(outs: seq<Outcome>)
    ensures CountOf(outs, Created) + CountOf(outs, Updated) <= |outs|
    decreases |outs|
  {
    if outs != [] {
      CountsAtMostLength(outs[..|outs| - 1]);
    }
  }

  // ------------------------------------------------------------ PATCH and create

  /** `ProductPatch`: every field optional. */
  datatype ProductPatch = ProductPatch(
    nombre: Option<string>, sku: Option<string>, cBarra: Option<int>, unidad: Option<string>,
    dg: Option<string>, dsg: Option<string>, codigoG: Option<int>, codigoSg: Option<int>,
    pneto: Option<int>, piva: Option<int>, tipo: Option<string>, activo: Option<bool>, valorRepo: Option<int>)

  /** `d[key] = v` when `v` was sent. */
  function SetIf(d: Doc, key: string, v: Option<Value>): (r: Doc)
    ensures v.None? ==> r == d
    ensures v.Some? ==> r == d[key := v.value]
  {
    if v.Some? then d[key := v.value] else d
  }

  function StrOpt(v: Option<string>): Option<Value> { if v.Some? then Some(Str(v.value)) else None }
  function IntOpt(v: Option<int>): Option<Value> { if v.Some? then Some(Int(v.value)) else None }

  /** `body.model_dump(exclude_unset=True, exclude_none=True)`. */
  function Sent(p: ProductPatch): Doc {
    var d := SetIf(SetIf(SetIf(SetIf(map[], "sku", StrOpt(p.sku)), "c_barra", IntOpt(p.cBarra)), "unidad", StrOpt(p.unidad)), "pneto", IntOpt(p.pneto));
    var d := SetIf(SetIf(SetIf(SetIf(d, "piva", IntOpt(p.piva)), "tipo", StrOpt(p.tipo)), "activo", if p.activo.Some? then Some(Bool(p.activo.value)) else None), "valor_repo", IntOpt(p.valorRepo));
    var d := SetIf(SetIf(SetIf(SetIf(d, "dg", StrOpt(p.dg)), "dsg", StrOpt(p.dsg)), "codigo_g", IntOpt(p.codigoG)), "codigo_sg", IntOpt(p.codigoSg));
    SetIf(d, "nombre", StrOpt(p.nombre))
  }

  /** A patch touches the family fields. */
  predicate TouchesFamily(p: ProductPatch) {
    p.dg.Some? || p.dsg.Some? || p.codigoG.Some? || p.codigoSg.Some?
  }

  /** Nothing was sent. */
  predicate EmptyPatch(p: ProductPatch) {
    p.nombre.None? && p.sku.None? && p.cBarra.None? && p.unidad.None? && !TouchesFamily(p)
    && p.pneto.None? && p.piva.None? && p.tipo.None? && p.activo.None? && p.valorRepo.None?
  }

  lemma SentEmptyIffEmptyPatch(p: ProductPatch)
    ensures Sent(p) == map[] <==> EmptyPatch(p)
    ensures p.nombre.Some? ==> "nombre" in Sent(p) && Sent(p)["nombre"] == Str(p.nombre.value)
  {
    if !EmptyPatch(p) {
      if p.nombre.Some? { assert "nombre" in Sent(p); }
      else if p.codigoSg.Some? { assert "codigo_sg" in Sent(p); }
      else if p.codigoG.Some? { assert "codigo_g" in Sent(p); }
      else if p.dsg.Some? { assert "dsg" in Sent(p); }
      else if p.dg.Some? { assert "dg" in Sent(p); }
      else if p.valorRepo.Some? { assert "valor_repo" in Sent(p); }
      else if p.activo.Some? { assert "activo" in Sent(p); }
      else if p.tipo.Some? { assert "tipo" in Sent(p); }
      else if p.piva.Some? { assert "piva" in Sent(p); }
      else if p.pneto.Some? { assert "pneto" in Sent(p); }
      else if p.unidad.Some? { assert "unidad" in Sent(p); }
      else if p.cBarra.Some? { assert "c_barra" in Sent(p); }
      else { assert "sku" in Sent(p); }
    }
  }

  datatype PatchError = NombreBlank | NoFields | AttributeError | NotFound | DuplicateSku

  /** The four family fields a patch writes once the codes are resolved. */
  /** The four family fields of a product. */
  const FAMILY_KEYS: set<string> := {"dg", "codigo_g", "dsg", "codigo_sg"}

  function FamilyFields(d: Doc, dg: string, codigoG: int, dsg: string, codigoSg: int): (r: Doc)
    ensures r.Keys == d.Keys + FAMILY_KEYS
    ensures r["dg"] == Str(dg) && r["codigo_g"] == Int(codigoG) && r["dsg"] == Str(dsg) && r["codigo_sg"] == Int(codigoSg)
    ensures forall k :: k in d && k !in FAMILY_KEYS ==> r[k] == d[k]
  {
    d["dg" := Str(dg)]["codigo_g" := Int(codigoG)]["dsg" := Str(dsg)]["codigo_sg" := Int(codigoSg)]
  }

  /** `to_set` gains `nombre_ci` when `nombre` is set. */
  function WithDerived(d: Doc): (r: Doc)
    ensures "nombre" in d && d["nombre"].Str? ==> r == WithNombreCi(d)
    ensures !("nombre" in d && d["nombre"].Str?) ==> r == d
    ensures d.Keys <= r.Keys && forall k :: k in d && k != "nombre_ci" ==> r[k] == d[k]
  {
    if "nombre" in d && d["nombre"].Str? then WithNombreCi(d) else d
  }

  /**
   * The `$set` of `update_by_id`, as written: a blank name is refused by the
   * schema and an empty patch with 400; a patch touching the family fields has
   * them resolved and upper-cased, which raises when a resolved name is None.
   */
  function PatchSet(p: ProductPatch, resolve: Resolver): (r: Result<Doc, PatchError>)
    ensures r == Err(NombreBlank) <==> p.nombre.Some? && Strip(p.nombre.value) == []
    ensures r == Err(NoFields) <==> !(p.nombre.Some? && Strip(p.nombre.value) == []) && EmptyPatch(p)
    ensures r == Err(AttributeError) <==> (!(p.nombre.Some? && Strip(p.nombre.value) == []) && TouchesFamily(p)
      && (resolve(p.dg, p.dsg, p.codigoG, p.codigoSg).dg.None? || resolve(p.dg, p.dsg, p.codigoG, p.codigoSg).dsg.None?))
    ensures r.Ok? && p.nombre.Some? ==> "nombre_ci" in r.value && r.value["nombre_ci"] == Str(Lower(p.nombre.value))
    ensures r.Ok? && TouchesFamily(p) ==> FAMILY_KEYS <= r.value.Keys
    ensures r.Ok? && TouchesFamily(p) ==>
      var res := resolve(p.dg, p.dsg, p.codigoG, p.codigoSg);
      r.value["dg"] == Str(Upper(res.dg.value)) && r.value["dsg"] == Str(Upper(res.dsg.value))
      && r.value["codigo_g"] == Int(res.codigoG.GetOr(0)) && r.value["codigo_sg"] == Int(res.codigoSg.GetOr(0))
  {
    SentEmptyIffEmptyPatch(p);
    if p.nombre.Some? && Strip(p.nombre.value) == [] then Err(NombreBlank)
    else
      var changes := Sent(p);
      if changes == map[] then Err(NoFields)
      else if TouchesFamily(p) then
        var res := resolve(p.dg, p.dsg, p.codigoG, p.codigoSg);
        if res.dg.None? || res.dsg.None? then Err(AttributeError)
        else
          var withFamily := FamilyFields(changes, Upper(res.dg.value), res.codigoG.GetOr(0), Upper(res.dsg.value), res.codigoSg.GetOr(0));
          Ok(WithDerived(withFamily))
      else
        Ok(WithDerived(changes))
  }

  /**
   * As written, a patch of the family code alone (no subfamily name or code)
   * always raises: its subfamily name resolves to None.
   */
  lemma FamilyCodeAlonePatchFails(p: ProductPatch)
    requires p.nombre.None? && p.codigoG.Some? && p.dsg.None? && p.codigoSg.None?
    ensures PatchSet(p, ResolveCodes) == Err(AttributeError)
  {
    assert Norm(p.dsg) == [];
  }

  /** The `$set` as evidently intended: a name that resolves to None is written as "". */
  function PatchSetIntended(p: ProductPatch, resolve: Resolver): (r: Result<Doc, PatchError>)
    ensures r.Err? <==> (p.nombre.Some? && Strip(p.nombre.value) == []) || EmptyPatch(p)
    ensures r.Ok? && TouchesFamily(p) ==> FAMILY_KEYS <= r.value.Keys
    ensures r.Ok? && TouchesFamily(p) ==>
      var res := resolve(p.dg, p.dsg, p.codigoG, p.codigoSg);
      r.value["dg"] == Str(Upper(res.dg.GetOr(""))) && r.value["dsg"] == Str(Upper(res.dsg.GetOr("")))
      && r.value["codigo_g"] == Int(res.codigoG.GetOr(0)) && r.value["codigo_sg"] == Int(res.codigoSg.GetOr(0))
    ensures r.Ok? && p.nombre.Some? ==> "nombre_ci" in r.value && r.value["nombre_ci"] == Str(Lower(p.nombre.value))
  {
    SentEmptyIffEmptyPatch(p);
    if p.nombre.Some? && Strip(p.nombre.value) == [] then Err(NombreBlank)
    else
      var changes := Sent(p);
      if changes == map[] then Err(NoFields)
      else
        if TouchesFamily(p) then
          var res := resolve(p.dg, p.dsg, p.codigoG, p.codigoSg);
          Ok(WithDerived(FamilyFields(changes, Upper(res.dg.GetOr("")), res.codigoG.GetOr(0), Upper(res.dsg.GetOr("")), res.codigoSg.GetOr(0))))
        else Ok(WithDerived(changes))
  }

  /** As intended, the patch that fails as written sets the family and an empty subfamily. */
  lemma FamilyCodeAlonePatchIntended(p: ProductPatch)
    requires p.nombre.None? && p.codigoG.Some? && p.dsg.None? && p.codigoSg.None?
    ensures PatchSetIntended(p, ResolveCodes).Ok?
    ensures PatchSetIntended(p, ResolveCodes).value["dsg"] == Str("") && PatchSetIntended(p, ResolveCodes).value["codigo_sg"] == Int(0)
  {
    assert Norm(p.dsg) == [];
    assert !EmptyPatch(p);
  }

  /**
   * `update_by_id`: the `$set` is written to the document with that id, then
   * the document is read back; an unknown id is 404 after an update that matched
   * nothing, and a sku the unique index refuses raises.
   */
  method UpdateProduct(db: ProductsDb, id: nat, p: ProductPatch) returns (r: Result<Doc, PatchError>)
    requires db.Valid()
    modifies db
    ensures db.Valid() && db.batches == old(db.batches)
    ensures PatchSet(p, ResolveCodes).Err? ==> r == Err(PatchSet(p, ResolveCodes).error) && db.products == old(db.products)
    ensures PatchSet(p, ResolveCodes).Ok? ==>
      var fields := PatchSet(p, ResolveCodes).value;
      (r == Err(NotFound) <==> id >= |old(db.products)|)
      && (r == Err(DuplicateSku) <==> id < |old(db.products)| && SkuClash(old(db.products), old(db.products)[id] + fields, Some(id)))
      && (r.Ok? ==> db.products == old(db.products)[id := old(db.products)[id] + fields] && r.value == db.products[id])
      && (r.Err? ==> db.products == old(db.products))
  {
    var set_ := PatchSet(p, ResolveCodes);
    if set_.Err? {
      return Err(set_.error);
    }
    var written := db.UpdateById(id, set_.value);
    if written.Err? {
      return Err(DuplicateSku);
    }
    if id >= |db.products| {
      return Err(NotFound);
    }
    r := Ok(db.products[id]);
  }

  /** `ProductCreate`. */
  datatype ProductCreate = ProductCreate(
    nombre: string, sku: string, cBarra: int, unidad: string,
    dg: Option<string>, dsg: Option<string>, codigoG: Option<int>, codigoSg: Option<int>,
    pneto: int, piva: int, tipo: string, activo: bool, valorRepo: Option<string>)

  datatype CreateError = CreateNombreBlank | SkuExists

  /**
   * The document the `Create` endpoint inserts, `res` being what `resolve_codes`
   * made of its family fields: the sent fields with the family written in, ""
   * and 0 standing in for what did not resolve.
   */
  function CreateDoc(c: ProductCreate, res: Resolved): (d: Doc)
    ensures "nombre" in d && d["nombre"] == Str(c.nombre)
    ensures "sku" in d && d["sku"] == Str(c.sku)
    ensures FAMILY_KEYS <= d.Keys
    ensures d["dg"] == Str(res.dg.GetOr("")) && d["dsg"] == Str(res.dsg.GetOr(""))
      && d["codigo_g"] == Int(res.codigoG.GetOr(0)) && d["codigo_sg"] == Int(res.codigoSg.GetOr(0))
    ensures "activo" in d && d["activo"] == Bool(c.activo)
    ensures ("valor_repo" in d <==> c.valorRepo.Some?) && (c.valorRepo.Some? ==> d["valor_repo"] == Str(c.valorRepo.value))
  {
    var fixed := map[
      "c_barra" := Int(c.cBarra), "unidad" := Str(c.unidad), "pneto" := Int(c.pneto), "piva" := Int(c.piva),
      "tipo" := Str(c.tipo), "activo" := Bool(c.activo)];
    var base := SetIf(fixed, "valor_repo", StrOpt(c.valorRepo));
    assert "activo" in base && base["activo"] == Bool(c.activo);
    assert "valor_repo" in base <==> c.valorRepo.Some?;
    var withFamily := FamilyFields(base, res.dg.GetOr(""), res.codigoG.GetOr(0), res.dsg.GetOr(""), res.codigoSg.GetOr(0));
    withFamily["sku" := Str(c.sku)]["nombre" := Str(c.nombre)]
  }

  /** The family of a `ProductCreate` as the endpoint resolves it. */
  function ResolveCreate(c: ProductCreate): Resolved {
    ResolveCodes(c.dg, c.dsg, c.codigoG, c.codigoSg)
  }

  /** `insert_one` (the endpoint): a blank name is refused, a taken SKU is 409. */
  method CreateProduct(db: ProductsDb, c: ProductCreate) returns (r: Result<Doc, CreateError>)
    requires db.Valid()
    modifies db
    ensures db.Valid() && db.batches == old(db.batches)
    ensures r == Err(CreateNombreBlank) <==> Strip(c.nombre) == []
    ensures Strip(c.nombre) != [] ==>
      (r == Err(SkuExists) <==> SkuClash(old(db.products), WithNombreCi(CreateDoc(c, ResolveCreate(c))), None))
      && (r.Ok? ==> r.value == WithNombreCi(CreateDoc(c, ResolveCreate(c))) && db.products == old(db.products) + [r.value])
    ensures r.Err? ==> db.products == old(db.products)
  {
    if Strip(c.nombre) == [] {
      return Err(CreateNombreBlank);
    }
    var inserted := db.InsertOne(CreateDoc(c, ResolveCreate(c)));
    if inserted.Err? {
      return Err(SkuExists);
    }
    r := Ok(inserted.value);
  }

  /** A created product can be found by its SKU, and its stored name key is the lower-cased name. */
  lemma CreatedFoundBySku(products: seq<Doc>, c: ProductCreate, res: Resolved)
    requires UniqueSkus(products) && !SkuClash(products, WithNombreCi(CreateDoc(c, res)), None)
    ensures FindBySku(products + [WithNombreCi(CreateDoc(c, res))], c.sku) == Some(|products|)
    ensures WithNombreCi(CreateDoc(c, res))["nombre_ci"] == Str(Lower(c.nombre))
  {
    var d0 := CreateDoc(c, res);
    var d := WithNombreCi(d0);
    assert d["sku"] == d0["sku"];
    AppendedFoundBySku(products, d, c.sku);
  }
}
