/**
 * The `gestion_OT_prod` collection: the production-tracking entry of each OT,
 * kept unique by the index on `OT`, with its partial update, the daily close and
 * the listing.
 */
module GestionRepo {
  import opened Wrappers
  import opened Calendar
  import opened WorkOrderRepo

  /**
   * `contenido` of a stored entry. The dates are the start of their UTC day, or
   * absent; `horaEntrega` is the stored "HH:MM" text.
   */
  datatype GContenido = GContenido(
    sku: string,
    encargado: string,
    linea: string,
    fecha: Option<Instant>,
    fechaIni: Option<Instant>,
    fechaFin: Option<Instant>,
    horaEntrega: string,
    descripcion: Option<string>,
    horasExtra: real,
    horasNormal: real)

  datatype Entry = Entry(
    ot: int,
    contenido: GContenido,
    estado: string,
    merma: real,
    cantidadFin: real,
    createdAt: Instant,
    updatedAt: Instant)

  /** What the unique index on `OT` guarantees. */
  predicate UniqueEntryOts(es: seq<Entry>) {
    forall i, j :: 0 <= i < j < |es| ==> es[i].ot != es[j].ot
  }

  predicate HasEntry(es: seq<Entry>, ot: int) {
    exists i :: 0 <= i < |es| && es[i].ot == ot
  }

  /** The position `{"OT": ot}` selects. */
  function EntryIndex(es: seq<Entry>, ot: int): (r: Option<nat>)
    ensures r.Some? ==> r.value < |es| && es[r.value].ot == ot
    ensures r.None? <==> !HasEntry(es, ot)
  {
    if es == [] then None
    else if es[0].ot == ot then Some(0)
    else
      var t := EntryIndex(es[1..], ot);
      assert forall j :: 1 <= j < |es| ==> es[j] == es[1..][j - 1];
      if t.Some? then Some(t.value + 1) else None
  }

  // --------------------------------------------------------- partial update

  /**
   * The `$set` fields `update_entry` can send, each present or not; `estado` is
   * also what `update_estado_by_ot` sends alone.
   */
  datatype Patch = Patch(
    estado: Option<string>,
    fechaIni: Option<Instant>,
    fechaFin: Option<Instant>,
    horasExtra: Option<real>,
    horasNormal: Option<real>,
    horaEntrega: Option<string>,
    descripcion: Option<string>)

  predicate EmptyPatch(p: Patch) {
    p.estado.None? && p.fechaIni.None? && p.fechaFin.None? && p.horasExtra.None?
    && p.horasNormal.None? && p.horaEntrega.None? && p.descripcion.None?
  }

  /** A field after `$set`: the given value, else the current one. */
  function Set<T>(current: T, given: Option<T>): T {
    if given.Some? then given.value else current
  }

  /** The entry after `$set`: every given field, plus `audit.updatedAt`. */
  function ApplyPatch(e: Entry, p: Patch, now: Instant): (r: Entry)
    ensures r.ot == e.ot && r.createdAt == e.createdAt && r.updatedAt == now
    ensures r.merma == e.merma && r.cantidadFin == e.cantidadFin
    ensures r.contenido.sku == e.contenido.sku && r.contenido.encargado == e.contenido.encargado
    ensures r.contenido.linea == e.contenido.linea && r.contenido.fecha == e.contenido.fecha
    ensures r.estado == (if p.estado.Some? then p.estado.value else e.estado)
    ensures r.contenido.fechaIni == (if p.fechaIni.Some? then p.fechaIni else e.contenido.fechaIni)
    ensures r.contenido.fechaFin == (if p.fechaFin.Some? then p.fechaFin else e.contenido.fechaFin)
    ensures r.contenido.descripcion == (if p.descripcion.Some? then p.descripcion else e.contenido.descripcion)
    ensures r.contenido.horaEntrega == (if p.horaEntrega.Some? then p.horaEntrega.value else e.contenido.horaEntrega)
    ensures r.contenido.horasExtra == (if p.horasExtra.Some? then p.horasExtra.value else e.contenido.horasExtra)
    ensures r.contenido.horasNormal == (if p.horasNormal.Some? then p.horasNormal.value else e.contenido.horasNormal)
  {
    var c := e.contenido;
    e.(estado := Set(e.estado, p.estado),
       contenido := c.(fechaIni := if p.fechaIni.Some? then p.fechaIni else c.fechaIni,
                       fechaFin := if p.fechaFin.Some? then p.fechaFin else c.fechaFin,
                       horasExtra := Set(c.horasExtra, p.horasExtra),
                       horasNormal := Set(c.horasNormal, p.horasNormal),
                       horaEntrega := Set(c.horaEntrega, p.horaEntrega),
                       descripcion := if p.descripcion.Some? then p.descripcion else c.descripcion),
       updatedAt := now)
  }

  /** A patch with nothing to set would change only the audit stamp. */
  lemma EmptyPatchKeepsFields(e: Entry, p: Patch, now: Instant)
    requires EmptyPatch(p)
    ensures ApplyPatch(e, p, now) == e.(updatedAt := now)
  {
  }

  /** Applying the same patch twice is applying it once. */
  lemma PatchIdempotent(e: Entry, p: Patch, now: Instant)
    ensures ApplyPatch(ApplyPatch(e, p, now), p, now) == ApplyPatch(e, p, now)
  {
  }

  // ------------------------------------------------------------ daily close

  /** The filter of `close_until_fecha`; an entry without `contenido.fecha` never matches `$lt`. */
  predicate EntryClosable(e: Entry, bound: Instant) {
    e.contenido.fecha.Some? && e.contenido.fecha.value < bound && e.estado != CERRADA
  }

  /** One entry under the update: "CERRADA" and a fresh `audit.updatedAt` when selected. */
  function CloseEntry(e: Entry, bound: Instant, now: Instant): Entry {
    if EntryClosable(e, bound) then e.(estado := CERRADA, updatedAt := now) else e
  }

  function CloseEntries(es: seq<Entry>, bound: Instant, now: Instant): seq<Entry> {
    seq(|es|, i requires 0 <= i < |es| => CloseEntry(es[i], bound, now))
  }

  function CountEntriesClosable(es: seq<Entry>, bound: Instant): nat {
    if es == [] then 0
    else CountEntriesClosable(es[..|es| - 1], bound) + (if EntryClosable(es[|es| - 1], bound) then 1 else 0)
  }

  /** The number of positions at which two equally long sequences of entries differ. */
  function EntryChanges(a: seq<Entry>, b: seq<Entry>): nat
    requires |a| == |b|
  {
    if a == [] then 0
    else EntryChanges(a[..|a| - 1], b[..|b| - 1]) + (if a[|a| - 1] != b[|b| - 1] then 1 else 0)
  }

  /** The returned count is the number of entries that changed. */
  lemma {:induction false} CloseEntriesCount(es: seq<Entry>, bound: Instant, now: Instant)
    ensures CountEntriesClosable(es, bound) == EntryChanges(es, CloseEntries(es, bound, now))
  {
    if es != [] {
      var n := |es| - 1;
      CloseEntriesCount(es[..n], bound, now);
      assert CloseEntries(es, bound, now)[..n] == CloseEntries(es[..n], bound, now);
    }
  }

  /**
   * After the close every entry dated before the bound is "CERRADA"; an entry dated
   * on or after it, or already closed, is exactly as it was.
   */
  lemma CloseEntriesEffect(es: seq<Entry>, bound: Instant, now: Instant, i: nat)
    requires i < |es|
    ensures es[i].contenido.fecha.Some? && es[i].contenido.fecha.value < bound ==>
      CloseEntries(es, bound, now)[i].estado == CERRADA
    ensures !EntryClosable(es[i], bound) ==> CloseEntries(es, bound, now)[i] == es[i]
    ensures CloseEntries(es, bound, now)[i].(estado := es[i].estado, updatedAt := es[i].updatedAt) == es[i]
  {
  }

  /** A second close with the same bound selects nothing. */
  lemma {:induction false} CloseEntriesLeavesNothing(es: seq<Entry>, bound: Instant, now: Instant)
    ensures CountEntriesClosable(CloseEntries(es, bound, now), bound) == 0
  {
    if es != [] {
      var n := |es| - 1;
      CloseEntriesLeavesNothing(es[..n], bound, now);
      assert CloseEntries(es, bound, now)[..n] == CloseEntries(es[..n], bound, now);
    }
  }

  // --------------------------------------------------------------- listing

  /** `GestionOTProdFilters`: an OT, a calendar day of `contenido.fecha`, an hour of creation. */
  datatype Filters = Filters(ot: Option<int>, fecha: Option<Day>, hora: Option<int>)

  /** `$hour` of a UTC instant. */
  function HourOf(t: Instant): int {
    (t % SecondsPerDay) / 3600
  }

  /**
   * The query `list_entries` builds: the OT, the half-open window
   * [start of the day, start of the next day) on `contenido.fecha`, and the hour.
   */
  predicate Selected(e: Entry, f: Filters) {
    (f.ot.None? || e.ot == f.ot.value)
    && (f.fecha.None? ||
        (e.contenido.fecha.Some? && DayStart(f.fecha.value) <= e.contenido.fecha.value < DayStart(f.fecha.value) + SecondsPerDay))
    && (f.hora.None? || HourOf(e.createdAt) == f.hora.value)
  }

  /** The day window selects exactly the entries whose stored date falls on that day. */
  lemma FechaWindowIsDay(e: Entry, d: Day)
    ensures Selected(e, Filters(None, Some(d), None)) <==> e.contenido.fecha.Some? && DayOf(e.contenido.fecha.value) == d
  {
    if e.contenido.fecha.Some? {
      DayWindow(e.contenido.fecha.value, d);
    }
  }

  function SelectEntries(es: seq<Entry>, f: Filters): (r: seq<Entry>)
    ensures forall e :: e in r <==> e in es && Selected(e, f)
  {
    if es == [] then []
    else
      var n := |es| - 1;
      assert es == es[..n] + [es[n]];
      SelectEntries(es[..n], f) + (if Selected(es[n], f) then [es[n]] else [])
  }

  predicate NewestFirst(s: seq<Entry>) {
    forall i, j :: 0 <= i < j < |s| ==> s[i].createdAt >= s[j].createdAt
  }

  function InsertByCreated(e: Entry, s: seq<Entry>): (r: seq<Entry>)
    requires NewestFirst(s)
    ensures NewestFirst(r)
    ensures forall i :: 0 <= i < |r| ==> r[i] == e || r[i] in s
    ensures multiset(r) == multiset(s) + multiset{e}
  {
    if s == [] then [e]
    else if e.createdAt >= s[0].createdAt then [e] + s
    else
      var t := InsertByCreated(e, s[1..]);
      HeadNewer(e, s, t);
      assert s == [s[0]] + s[1..];
      [s[0]] + t
  }

  lemma HeadNewer(e: Entry, s: seq<Entry>, t: seq<Entry>)
    requires NewestFirst(s) && s != [] && s[0].createdAt > e.createdAt && NewestFirst(t)
    requires forall i :: 0 <= i < |t| ==> t[i] == e || t[i] in s[1..]
    ensures NewestFirst([s[0]] + t)
  {
    forall i | 0 <= i < |t| ensures s[0].createdAt >= t[i].createdAt {
      if t[i] != e {
        var j :| 0 <= j < |s[1..]| && s[1..][j] == t[i];
        assert s[j + 1] == t[i];
      }
    }
  }

  /** `sort("audit.createdAt", -1)`: the same entries, newest first. */
  function SortNewestFirst(s: seq<Entry>): (r: seq<Entry>)
    ensures NewestFirst(r)
    ensures multiset(r) == multiset(s)
    ensures forall i :: 0 <= i < |r| ==> r[i] in s
  {
    if s == [] then []
    else
      assert s == s[..|s| - 1] + [s[|s| - 1]];
      InsertByCreated(s[|s| - 1], SortNewestFirst(s[..|s| - 1]))
  }

  /** A page of the listing is newest first and holds only stored entries the filters select. */
  lemma EntryListingSelected(es: seq<Entry>, f: Filters, skip: nat, limit: nat)
    ensures NewestFirst(Page(SortNewestFirst(SelectEntries(es, f)), skip, limit))
    ensures forall e :: e in Page(SortNewestFirst(SelectEntries(es, f)), skip, limit) ==> e in es && Selected(e, f)
  {
    var s := SortNewestFirst(SelectEntries(es, f));
    var p := Page(s, skip, limit);
    forall e | e in p ensures e in es && Selected(e, f) {
      var i :| 0 <= i < |p| && p[i] == e;
      assert s[skip + i] == e;
    }
  }

  // ------------------------------------------------------------------ store

  class GestionStore {
    var entries: seq<Entry>

    ghost predicate Valid()
      reads this
    {
      UniqueEntryOts(entries)
    }

    constructor ()
      ensures Valid() && entries == []
    {
      entries := [];
    }

    /** `find_by_ot`. */
    method FindByOt(ot: int) returns (doc: Option<Entry>)
      ensures doc.Some? <==> HasEntry(entries, ot)
      ensures doc.Some? ==> doc.value in entries && doc.value.ot == ot
    {
      var i := EntryIndex(entries, ot);
      doc := if i.Some? then Some(entries[i.value]) else None;
    }

    /** `insert_entry`; None stands for the duplicate-key error of the unique index. */
    method InsertEntry(e: Entry) returns (doc: Option<Entry>)
      requires Valid()
      modifies this
      ensures Valid()
      ensures HasEntry(old(entries), e.ot) ==> doc.None? && entries == old(entries)
      ensures !HasEntry(old(entries), e.ot) ==> doc == Some(e) && entries == old(entries) + [e]
    {
      var i := EntryIndex(entries, e.ot);
      if i.Some? {
        doc := None;
      } else {
        entries := entries + [e];
        doc := Some(e);
      }
    }

    /**
     * `update_fields_by_ot`: with nothing to set it only reads the entry; otherwise it
     * sets the fields and `audit.updatedAt` and returns the entry after the update,
     * or None when no entry has that OT.
     */
    method UpdateFieldsByOt(ot: int, p: Patch, now: Instant) returns (doc: Option<Entry>)
      requires Valid()
      modifies this
      ensures Valid()
      ensures EmptyPatch(p) ==> entries == old(entries)
      ensures !HasEntry(old(entries), ot) ==> doc.None? && entries == old(entries)
      ensures HasEntry(old(entries), ot) ==>
        var i := EntryIndex(old(entries), ot).value;
        doc.Some? && doc.value.ot == ot
        && (EmptyPatch(p) ==> doc.value == old(entries)[i])
        && (!EmptyPatch(p) ==> entries == old(entries)[i := ApplyPatch(old(entries)[i], p, now)] && doc == Some(entries[i]))
    {
      var i := EntryIndex(entries, ot);
      if i.None? {
        doc := None;
      } else if EmptyPatch(p) {
        doc := Some(entries[i.value]);
      } else {
        var k := i.value;
        entries := entries[k := ApplyPatch(entries[k], p, now)];
        doc := Some(entries[k]);
      }
    }

    /** `close_until_fecha`: one update over every selected entry; the result counts the entries modified. */
    method CloseUntilFecha(bound: Instant, now: Instant) returns (count: nat)
      requires Valid()
      modifies this
      ensures Valid()
      ensures entries == CloseEntries(old(entries), bound, now)
      ensures count == EntryChanges(old(entries), entries)
    {
      CloseEntriesCount(entries, bound, now);
      count := CountEntriesClosable(entries, bound);
      entries := CloseEntries(entries, bound, now);
    }

    /** `list_entries` as the service calls it: filter, newest first, then skip and limit. */
    method ListEntries(f: Filters, skip: nat, limit: nat) returns (page: seq<Entry>)
      ensures NewestFirst(page)
      ensures forall e :: e in page ==> e in entries && Selected(e, f)
      ensures page == Page(SortNewestFirst(SelectEntries(entries, f)), skip, limit)
    {
      EntryListingSelected(entries, f, skip, limit);
      page := Page(SortNewestFirst(SelectEntries(entries, f)), skip, limit);
    }
  }
}
