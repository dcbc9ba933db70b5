/**
 * The work-order service: turning a CSV row into a creation request, the checks
 * `create_work_order` makes before it stores an order, and the next free OT.
 */
module WorkOrders {
  import opened Wrappers
  import opened Text
  import opened Parsing
  import opened Calendar
  import opened WorkOrderRepo

  /** A CSV row as `csv.DictReader` yields it: header to cell, where a short row's missing cells are None. */
  type Row = map<string, Option<string>>

  /** `row.get(key)`. */
  function Cell(row: Row, key: string): Option<string> {
    if key in row then row[key] else None
  }

  /** Why a row or a creation request is refused. */
  datatype WoError =
    | OtRequired
    | OtNotInteger
    | FieldRequired(field: string)
    | FieldNotNumeric(field: string)
    | DateRejected(field: string, why: DateError)
    | ContentRejected
    | OtBelowOne
    | OtExists(ot: int)
    | StartAfterEnd

  /** The three values the `estado` literal admits. */
  const ESTADOS: set<string> := {"CREADA", "EN PROCESO", CERRADA}

  /** `WorkOrderContentIn`, its dates already calendar days. */
  datatype ContentIn = ContentIn(
    sku: string,
    cantidad: real,
    encargado: string,
    linea: string,
    fecha: Day,
    fechaIni: Day,
    fechaFin: Day,
    descripcion: Option<string>)

  /** `WorkOrderCreateIn`. */
  datatype CreateIn = CreateIn(ot: int, contenido: ContentIn, estado: string, merma: real, cantidadFin: real)

  /** The field bounds of `WorkOrderContentIn`. */
  predicate ContentValid(c: ContentIn) {
    |c.sku| >= 1 && c.cantidad > 0.0 && |c.encargado| >= 1 && |c.linea| >= 1
    && (c.descripcion.Some? ==> |c.descripcion.value| >= 1)
  }

  /** The field bounds of `WorkOrderCreateIn`. */
  predicate CreateInValid(p: CreateIn) {
    p.ot >= 1 && ContentValid(p.contenido) && p.estado in ESTADOS && p.merma >= 0.0 && p.cantidadFin >= 0.0
  }

  // ------------------------------------------------------------- CSV rows

  /** The text `_parse_float` hands to `float()`: commas read as decimal points, then stripped. */
  function FloatText(s: string): string {
    Strip(ReplaceChar(s, ',', '.'))
  }

  /** `_parse_float`: a missing cell is required; text `float()` refuses is invalid. */
  function ParseFloat(v: Option<string>, field: string, parseFloat: string -> Num): (r: Result<Num, WoError>)
    ensures r == Err(FieldRequired(field)) <==> v.None?
    ensures v.Some? ==> (r == Err(FieldNotNumeric(field)) <==> parseFloat(FloatText(v.value)).NotNumeric?)
    ensures r.Ok? ==> v.Some? && r.value == parseFloat(FloatText(v.value)) && !r.value.NotNumeric?
  {
    if v.None? then Err(FieldRequired(field))
    else
      var n := parseFloat(FloatText(v.value));
      if n.NotNumeric? then Err(FieldNotNumeric(field)) else Ok(n)
  }

  /** A comma and a point are the same decimal separator to `_parse_float`. */
  lemma CommaIsPoint(s: string, parseFloat: string -> Num)
    ensures ParseFloat(Some(s), "Cantidad", parseFloat) == ParseFloat(Some(ReplaceChar(s, ',', '.')), "Cantidad", parseFloat)
  {
    assert ReplaceChar(ReplaceChar(s, ',', '.'), ',', '.') == ReplaceChar(s, ',', '.');
  }

  /** `str(row.get(key) or "").strip()`. */
  function TextCell(row: Row, key: string): string {
    Strip(Cell(row, key).GetOr(""))
  }

  /** What `_normalize_date` receives for a cell. */
  function DateCell(row: Row, key: string): DateIn {
    if Cell(row, key).Some? then DateText(Cell(row, key).value) else NoDate
  }

  /** The quantity the schema sees; only a finite value can satisfy `Cantidad > 0` here. */
  function CantidadOf(n: Num): real {
    if n.Finite? then n.value else 0.0
  }

  /**
   * `_row_to_payload`: the OT must be present and integral; the quantity and the
   * three dates are parsed in field order, each failure ending the row; then the
   * schemas check the content and the OT. The request has state "CREADA", zero
   * merma and final quantity, and no description.
   */
  function RowToPayload(row: Row, parseFloat: string -> Num, parseDate: (DateFormat, string) -> Option<Day>): (r: Result<CreateIn, WoError>)
    ensures r == Err(OtRequired) <==> Cell(row, "OT").None?
    ensures Cell(row, "OT").Some? ==> (r == Err(OtNotInteger) <==> ParseInt(Cell(row, "OT").value).None?)
    ensures r.Ok? ==> CreateInValid(r.value)
    ensures r.Ok? ==> Some(r.value.ot) == ParseInt(Cell(row, "OT").GetOr(""))
    ensures r.Ok? ==> r.value.estado == "CREADA" && r.value.merma == 0.0 && r.value.cantidadFin == 0.0
    ensures r.Ok? ==>
      var c := r.value.contenido;
      c.sku == TextCell(row, "SKU") && c.encargado == TextCell(row, "Encargado") && c.linea == TextCell(row, "linea")
      && ParseFloat(Cell(row, "Cantidad"), "Cantidad", parseFloat) == Ok(Finite(c.cantidad))
      && NormalizeDate(DateCell(row, "fecha"), parseDate) == Ok(c.fecha)
      && NormalizeDate(DateCell(row, "fecha_ini"), parseDate) == Ok(c.fechaIni)
      && NormalizeDate(DateCell(row, "fecha_fin"), parseDate) == Ok(c.fechaFin)
      && c.descripcion.None?
  {
    var otRaw := Cell(row, "OT");
    if otRaw.None? then Err(OtRequired)
    else
      var ot := ParseInt(otRaw.value);
      if ot.None? then Err(OtNotInteger)
      else
        var cantidad := ParseFloat(Cell(row, "Cantidad"), "Cantidad", parseFloat);
        if cantidad.Err? then Err(cantidad.error)
        else
          var fecha := NormalizeDate(DateCell(row, "fecha"), parseDate);
          if fecha.Err? then Err(DateRejected("fecha", fecha.error))
          else
            var fechaIni := NormalizeDate(DateCell(row, "fecha_ini"), parseDate);
            if fechaIni.Err? then Err(DateRejected("fecha_ini", fechaIni.error))
            else
              var fechaFin := NormalizeDate(DateCell(row, "fecha_fin"), parseDate);
              if fechaFin.Err? then Err(DateRejected("fecha_fin", fechaFin.error))
              else
                var c := ContentIn(TextCell(row, "SKU"), CantidadOf(cantidad.value), TextCell(row, "Encargado"),
                                   TextCell(row, "linea"), fecha.value, fechaIni.value, fechaFin.value, None);
                if !ContentValid(c) || !cantidad.value.Finite? then Err(ContentRejected)
                else if ot.value < 1 then Err(OtBelowOne)
                else Ok(CreateIn(ot.value, c, "CREADA", 0.0, 0.0))
  }

  // -------------------------------------------------------------- creation

  /** The document `create_work_order` inserts. */
  function NewOrder(p: CreateIn, now: Instant): WorkOrder {
    var c := p.contenido;
    WorkOrder(
      p.ot,
      Contenido(c.sku, c.cantidad, c.encargado, c.linea, DayStart(c.fecha), DayStart(c.fechaIni),
                DayStart(c.fechaFin), StrippedOrNone(c.descripcion)),
      p.estado, p.merma, p.cantidadFin, now, now)
  }

  /** The stored order carries the request's days, its dates in order, and both audit stamps set to `now`. */
  lemma NewOrderDates(p: CreateIn, now: Instant)
    requires p.contenido.fechaIni <= p.contenido.fechaFin
    ensures DayOf(NewOrder(p, now).contenido.fecha) == p.contenido.fecha
    ensures DayOf(NewOrder(p, now).contenido.fechaIni) == p.contenido.fechaIni
    ensures DayOf(NewOrder(p, now).contenido.fechaFin) == p.contenido.fechaFin
    ensures NewOrder(p, now).contenido.fechaIni <= NewOrder(p, now).contenido.fechaFin
    ensures NewOrder(p, now).createdAt == now == NewOrder(p, now).updatedAt
  {
    DayStartRoundTrip(p.contenido.fecha);
    DayStartRoundTrip(p.contenido.fechaIni);
    DayStartRoundTrip(p.contenido.fechaFin);
    DayStartMonotone(p.contenido.fechaIni, p.contenido.fechaFin);
  }

  /** `create_work_order`'s decision: an existing OT first, then the order of the dates. */
  function CreateOutcome(orders: seq<WorkOrder>, p: CreateIn, now: Instant): (r: Result<WorkOrder, WoError>)
    ensures r == Err(OtExists(p.ot)) <==> HasOt(orders, p.ot)
    ensures r == Err(StartAfterEnd) <==> !HasOt(orders, p.ot) && p.contenido.fechaIni > p.contenido.fechaFin
    ensures r.Ok? ==> r.value == NewOrder(p, now) && r.value.ot == p.ot
  {
    if HasOt(orders, p.ot) then Err(OtExists(p.ot))
    else if p.contenido.fechaIni > p.contenido.fechaFin then Err(StartAfterEnd)
    else Ok(NewOrder(p, now))
  }

  /** `create_work_order`: on success the new order is appended; on refusal nothing is written. */
  method CreateWorkOrder(store: WorkOrderStore, p: CreateIn, now: Instant) returns (r: Result<WorkOrder, WoError>)
    requires store.Valid()
    modifies store
    ensures store.Valid()
    ensures r == CreateOutcome(old(store.orders), p, now)
    ensures store.orders == if r.Ok? then old(store.orders) + [r.value] else old(store.orders)
  {
    var existing := store.FindByOt(p.ot);
    if existing.Some? {
      return Err(OtExists(p.ot));
    }
    if p.contenido.fechaIni > p.contenido.fechaFin {
      return Err(StartAfterEnd);
    }
    var doc := store.InsertWorkOrder(NewOrder(p, now));
    r := Ok(doc.value);
  }

  /** `get_next_ot`: 1 for an empty collection, otherwise one more than the highest OT. */
  method GetNextOt(store: WorkOrderStore) returns (n: int)
    ensures store.orders == [] ==> n == 1
    ensures store.orders != [] ==> exists i :: 0 <= i < |store.orders| && n == store.orders[i].ot + 1
    ensures forall i :: 0 <= i < |store.orders| ==> store.orders[i].ot < n
    ensures !HasOt(store.orders, n)
  {
    var last := store.FindLastOt();
    if last.None? {
      return 1;
    }
    n := last.value.ot + 1;
  }
}
