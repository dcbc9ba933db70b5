/**
 * The production-tracking service over `gestion_OT_prod`: creating an entry,
 * the partial update with its date-order check, and the daily close of both
 * tracking entries and work orders dated before today.
 */
module GestionService {
  import opened Wrappers
  import opened Text
  import opened Calendar
  import opened WorkOrderRepo
  import opened GestionRepo

  /**
   * `GestionOTProdContentIn`, its dates and delivery time already parsed by the
   * schema (so `_normalize_date` and `_normalize_time` return them unchanged).
   */
  datatype GContentIn = GContentIn(
    sku: string,
    encargado: string,
    linea: string,
    fecha: Day,
    fechaIni: Day,
    fechaFin: Day,
    horaEntrega: Clock,
    descripcion: Option<string>,
    horasExtra: real,
    horasNormal: real)

  /** `GestionOTProdCreateIn`. */
  datatype GCreateIn = GCreateIn(ot: int, contenido: GContentIn, estado: string, merma: real, cantidadFin: real)

  /** `GestionOTProdUpdateIn`: every field optional. */
  datatype GUpdateIn = GUpdateIn(
    estado: Option<string>,
    fechaIni: Option<Day>,
    fechaFin: Option<Day>,
    horaEntrega: Option<Clock>,
    descripcion: Option<string>,
    horasExtra: Option<real>,
    horasNormal: Option<real>)

  datatype GError = EntryExists(ot: int) | EntryNotFound | IniAfterFin | DescripcionBlank | NoFields

  /** The schema's rule that an update names at least one field. */
  predicate AnyField(u: GUpdateIn) {
    u.estado.Some? || u.fechaIni.Some? || u.fechaFin.Some? || u.horasExtra.Some?
    || u.horasNormal.Some? || u.horaEntrega.Some? || u.descripcion.Some?
  }

  // -------------------------------------------------------------- creation

  /** The document `create_entry` inserts. */
  function NewEntry(p: GCreateIn, now: Instant): Entry {
    var c := p.contenido;
    Entry(
      p.ot,
      GContenido(c.sku, c.encargado, c.linea, Some(DayStart(c.fecha)), Some(DayStart(c.fechaIni)),
                 Some(DayStart(c.fechaFin)), FormatHourMinute(c.horaEntrega), StrippedOrNone(c.descripcion),
                 c.horasExtra, c.horasNormal),
      p.estado, p.merma, p.cantidadFin, now, now)
  }

  /** The stored entry keeps the request's days, and its "HH:MM" text reads back as the delivery hour and minute. */
  lemma NewEntryStored(p: GCreateIn, now: Instant)
    ensures DayOf(NewEntry(p, now).contenido.fecha.value) == p.contenido.fecha
    ensures DayOf(NewEntry(p, now).contenido.fechaIni.value) == p.contenido.fechaIni
    ensures DayOf(NewEntry(p, now).contenido.fechaFin.value) == p.contenido.fechaFin
    ensures DigitsValue(NewEntry(p, now).contenido.horaEntrega[..2]) == p.contenido.horaEntrega.hour
    ensures DigitsValue(NewEntry(p, now).contenido.horaEntrega[3..]) == p.contenido.horaEntrega.minute
  {
    DayStartRoundTrip(p.contenido.fecha);
    DayStartRoundTrip(p.contenido.fechaIni);
    DayStartRoundTrip(p.contenido.fechaFin);
    HourMinuteRoundTrip(p.contenido.horaEntrega);
  }

  /** `create_entry`'s decision: an existing OT first, then the order of the dates. */
  function CreateEntryOutcome(entries: seq<Entry>, p: GCreateIn, now: Instant): (r: Result<Entry, GError>)
    ensures r == Err(EntryExists(p.ot)) <==> HasEntry(entries, p.ot)
    ensures r == Err(IniAfterFin) <==> !HasEntry(entries, p.ot) && p.contenido.fechaIni > p.contenido.fechaFin
    ensures r.Ok? ==> r.value == NewEntry(p, now)
  {
    if HasEntry(entries, p.ot) then Err(EntryExists(p.ot))
    else if p.contenido.fechaIni > p.contenido.fechaFin then Err(IniAfterFin)
    else Ok(NewEntry(p, now))
  }

  /** `create_entry`: on success the entry is appended; otherwise nothing is written. */
  method CreateEntry(store: GestionStore, p: GCreateIn, now: Instant) returns (r: Result<Entry, GError>)
    requires store.Valid()
    modifies store
    ensures store.Valid()
    ensures r == CreateEntryOutcome(old(store.entries), p, now)
    ensures store.entries == if r.Ok? then old(store.entries) + [r.value] else old(store.entries)
  {
    var existing := store.FindByOt(p.ot);
    if existing.Some? {
      return Err(EntryExists(p.ot));
    }
    if p.contenido.fechaIni > p.contenido.fechaFin {
      return Err(IniAfterFin);
    }
    var doc := store.InsertEntry(NewEntry(p, now));
    r := Ok(doc.value);
  }

  // ---------------------------------------------------------------- update

  /** A stored date read back as a day; an absent one stays absent. */
  function StoredDay(t: Option<Instant>): Option<Day> {
    if t.Some? then Some(DayOf(t.value)) else None
  }

  function StoreDay(d: Option<Day>): Option<Instant> {
    if d.Some? then Some(DayStart(d.value)) else None
  }

  /** The `set_fields` `update_entry` sends for a request. */
  function UpdatePatch(u: GUpdateIn): Patch {
    Patch(u.estado, StoreDay(u.fechaIni), StoreDay(u.fechaFin), u.horasExtra, u.horasNormal,
          if u.horaEntrega.Some? then Some(FormatHourMinute(u.horaEntrega.value)) else None,
          if u.descripcion.Some? then Some(Strip(u.descripcion.value)) else None)
  }

  /** The day a date takes after the update: the new one if given, else the stored one. */
  function FinalDay(given: Option<Day>, stored: Option<Instant>): Option<Day> {
    if given.Some? then given else StoredDay(stored)
  }

  /** Whether the two final days are present and out of order. */
  predicate OutOfOrder(ini: Option<Day>, fin: Option<Day>) {
    ini.Some? && fin.Some? && ini.value > fin.value
  }

  /**
   * `update_entry`'s decision: an unknown OT; final dates out of order; a blank
   * description; nothing to set; otherwise the entry with the patch applied.
   */
  function UpdateOutcome(entries: seq<Entry>, ot: int, u: GUpdateIn, now: Instant): (r: Result<Entry, GError>)
    ensures r == Err(EntryNotFound) <==> !HasEntry(entries, ot)
    ensures HasEntry(entries, ot) ==>
      var e := entries[EntryIndex(entries, ot).value];
      (r == Err(IniAfterFin) <==>
        OutOfOrder(FinalDay(u.fechaIni, e.contenido.fechaIni), FinalDay(u.fechaFin, e.contenido.fechaFin)))
      && (r.Ok? ==> r.value == ApplyPatch(e, UpdatePatch(u), now))
    ensures r == Err(DescripcionBlank) ==> u.descripcion.Some? && Strip(u.descripcion.value) == []
  {
    var i := EntryIndex(entries, ot);
    if i.None? then Err(EntryNotFound)
    else
      var e := entries[i.value];
      if OutOfOrder(FinalDay(u.fechaIni, e.contenido.fechaIni), FinalDay(u.fechaFin, e.contenido.fechaFin)) then Err(IniAfterFin)
      else if u.descripcion.Some? && Strip(u.descripcion.value) == [] then Err(DescripcionBlank)
      else if EmptyPatch(UpdatePatch(u)) then Err(NoFields)
      else Ok(ApplyPatch(e, UpdatePatch(u), now))
  }

  /** A request the schema accepts never reaches the service's own "no fields" error. */
  lemma AnyFieldNeverEmpty(entries: seq<Entry>, ot: int, u: GUpdateIn, now: Instant)
    requires AnyField(u)
    ensures UpdateOutcome(entries, ot, u, now) != Err(NoFields)
  {
    assert !EmptyPatch(UpdatePatch(u));
  }

  /** After a successful update the stored dates, read back as days, are in order. */
  lemma UpdateKeepsDatesOrdered(entries: seq<Entry>, ot: int, u: GUpdateIn, now: Instant)
    requires UpdateOutcome(entries, ot, u, now).Ok?
    ensures var c := UpdateOutcome(entries, ot, u, now).value.contenido;
      !OutOfOrder(StoredDay(c.fechaIni), StoredDay(c.fechaFin))
  {
    var e := entries[EntryIndex(entries, ot).value];
    var c := UpdateOutcome(entries, ot, u, now).value.contenido;
    if u.fechaIni.Some? {
      DayStartRoundTrip(u.fechaIni.value);
    }
    if u.fechaFin.Some? {
      DayStartRoundTrip(u.fechaFin.value);
    }
    assert StoredDay(c.fechaIni) == FinalDay(u.fechaIni, e.contenido.fechaIni);
    assert StoredDay(c.fechaFin) == FinalDay(u.fechaFin, e.contenido.fechaFin);
  }

  /** Only what the request supplies changes: an absent field keeps its stored value. */
  lemma UpdateOnlySupplied(entries: seq<Entry>, ot: int, u: GUpdateIn, now: Instant)
    requires UpdateOutcome(entries, ot, u, now).Ok?
    ensures var e := entries[EntryIndex(entries, ot).value];
      var r := UpdateOutcome(entries, ot, u, now).value;
      (u.estado.None? ==> r.estado == e.estado)
      && (u.fechaIni.None? ==> r.contenido.fechaIni == e.contenido.fechaIni)
      && (u.fechaFin.None? ==> r.contenido.fechaFin == e.contenido.fechaFin)
      && (u.descripcion.None? ==> r.contenido.descripcion == e.contenido.descripcion)
      && (u.descripcion.Some? ==> r.contenido.descripcion == Some(Strip(u.descripcion.value)) && Strip(u.descripcion.value) != [])
      && r.ot == e.ot && r.createdAt == e.createdAt && r.updatedAt == now
  {
  }

  /**
   * The `$set` of `update_entry`, built field by field from the request;
   * the final dates out of order or a blank description stop it.
   */
  method BuildPatch(c: GContenido, u: GUpdateIn) returns (r: Result<Patch, GError>)
    ensures r.Err? <==> OutOfOrder(FinalDay(u.fechaIni, c.fechaIni), FinalDay(u.fechaFin, c.fechaFin))
                        || (u.descripcion.Some? && Strip(u.descripcion.value) == [])
    ensures r.Err? ==> (r.error == IniAfterFin <==> OutOfOrder(FinalDay(u.fechaIni, c.fechaIni), FinalDay(u.fechaFin, c.fechaFin)))
    ensures r.Err? ==> r.error in {IniAfterFin, DescripcionBlank}
    ensures r.Ok? ==> r.value == UpdatePatch(u)
  {
    var p := Patch(None, None, None, None, None, None, None);
    if u.estado.Some? {
      p := p.(estado := u.estado);
    }
    var iniFinal := StoredDay(c.fechaIni);
    if u.fechaIni.Some? {
      iniFinal := u.fechaIni;
      p := p.(fechaIni := Some(DayStart(u.fechaIni.value)));
    }
    var finFinal := StoredDay(c.fechaFin);
    if u.fechaFin.Some? {
      finFinal := u.fechaFin;
      p := p.(fechaFin := Some(DayStart(u.fechaFin.value)));
    }
    if iniFinal.Some? && finFinal.Some? && iniFinal.value > finFinal.value {
      return Err(IniAfterFin);
    }
    if u.horasExtra.Some? {
      p := p.(horasExtra := u.horasExtra);
    }
    if u.horasNormal.Some? {
      p := p.(horasNormal := u.horasNormal);
    }
    if u.horaEntrega.Some? {
      p := p.(horaEntrega := Some(FormatHourMinute(u.horaEntrega.value)));
    }
    if u.descripcion.Some? {
      var text := Strip(u.descripcion.value);
      if text == [] {
        return Err(DescripcionBlank);
      }
      p := p.(descripcion := Some(text));
    }
    r := Ok(p);
  }

  /**
   * `update_entry`: the fields are collected one by one, the checks made in the
   * source's order, and a single update sent.
   */
  method UpdateEntry(store: GestionStore, ot: int, u: GUpdateIn, now: Instant) returns (r: Result<Entry, GError>)
    requires store.Valid()
    modifies store
    ensures store.Valid()
    ensures r == UpdateOutcome(old(store.entries), ot, u, now)
    ensures r.Ok? ==> store.entries == old(store.entries)[EntryIndex(old(store.entries), ot).value := r.value]
    ensures r.Err? ==> store.entries == old(store.entries)
  {
    var existing := store.FindByOt(ot);
    if existing.None? {
      return Err(EntryNotFound);
    }
    ghost var e := store.entries[EntryIndex(store.entries, ot).value];
    assert existing.value == e by {
      var i :| 0 <= i < |store.entries| && store.entries[i] == existing.value;
      assert EntryIndex(store.entries, ot).value == i;
    }
    var built := BuildPatch(existing.value.contenido, u);
    if built.Err? {
      return Err(built.error);
    }
    var p := built.value;
    if EmptyPatch(p) {
      return Err(NoFields);
    }
    var updated := store.UpdateFieldsByOt(ot, p, now);
    r := Ok(updated.value);
  }

  // ----------------------------------------------------------- daily close

  /** `datetime.combine(now.date(), time.min, tzinfo=timezone.utc)`. */
  function StartOfToday(now: Instant): Instant {
    DayStart(DayOf(now))
  }

  /** Before the start of today means on an earlier calendar day. */
  lemma BeforeTodayIsEarlierDay(t: Instant, now: Instant)
    ensures t < StartOfToday(now) <==> DayOf(t) < DayOf(now)
  {
    var d := DayOf(now);
    DayWindow(t, DayOf(t));
    if DayOf(t) < d {
      assert DayStart(DayOf(t)) + SecondsPerDay <= DayStart(d);
    } else {
      DayStartMonotone(d, DayOf(t));
    }
  }

  /**
   * The daily close selects exactly the open entries and open orders dated on an
   * earlier day than `now`; today's are untouched.
   */
  lemma DailyCloseSelectsEarlierDays(e: Entry, w: WorkOrder, now: Instant)
    ensures EntryClosable(e, StartOfToday(now)) <==>
      e.contenido.fecha.Some? && DayOf(e.contenido.fecha.value) < DayOf(now) && e.estado != CERRADA
    ensures Closable(w, StartOfToday(now)) <==> DayOf(w.contenido.fecha) < DayOf(now) && w.estado != CERRADA
  {
    if e.contenido.fecha.Some? {
      BeforeTodayIsEarlierDay(e.contenido.fecha.value, now);
    }
    BeforeTodayIsEarlierDay(w.contenido.fecha, now);
  }

  /** `close_previous_day_entries`: both collections closed with the start of today as exclusive bound. */
  method ClosePreviousDayEntries(g: GestionStore, w: WorkOrderStore, now: Instant) returns (closedGestion: nat, closedWorkOrders: nat)
    requires g.Valid() && w.Valid()
    modifies g, w
    ensures g.Valid() && w.Valid()
    ensures g.entries == CloseEntries(old(g.entries), StartOfToday(now), now)
    ensures w.orders == CloseAll(old(w.orders), StartOfToday(now))
    ensures closedGestion == EntryChanges(old(g.entries), g.entries)
    ensures closedWorkOrders == Changes(old(w.orders), w.orders)
  {
    var startToday := StartOfToday(now);
    closedGestion := g.CloseUntilFecha(startToday, now);
    closedWorkOrders := w.CloseUntilFecha(startToday);
  }
}
