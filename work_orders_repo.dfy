/**
 * The `work_orders` collection: one document per OT (production order number),
 * kept unique by the index on `OT`, with the queries and in-place updates the
 * work-order service and the daily close perform.
 */
module WorkOrderRepo {
  import opened Wrappers
  import opened Calendar

  const CERRADA: string := "CERRADA"

  /** `contenido` of a stored work order; the three dates are stored as the start of their UTC day. */
  datatype Contenido = Contenido(
    sku: string,
    cantidad: real,
    encargado: string,
    linea: string,
    fecha: Instant,
    fechaIni: Instant,
    fechaFin: Instant,
    descripcion: Option<string>)

  datatype WorkOrder = WorkOrder(
    ot: int,
    contenido: Contenido,
    estado: string,
    merma: real,
    cantidadFin: real,
    createdAt: Instant,
    updatedAt: Instant)

  /** What the unique index on `OT` guarantees. */
  predicate UniqueOts(os: seq<WorkOrder>) {
    forall i, j :: 0 <= i < j < |os| ==> os[i].ot != os[j].ot
  }

  predicate HasOt(os: seq<WorkOrder>, ot: int) {
    exists i :: 0 <= i < |os| && os[i].ot == ot
  }

  /** The position of the order `{"OT": ot}` selects (the only one, under `UniqueOts`). */
  function OtIndex(os: seq<WorkOrder>, ot: int): (r: Option<nat>)
    ensures r.Some? ==> r.value < |os| && os[r.value].ot == ot
    ensures r.None? <==> !HasOt(os, ot)
  {
    if os == [] then None
    else if os[0].ot == ot then Some(0)
    else
      var t := OtIndex(os[1..], ot);
      assert forall j :: 1 <= j < |os| ==> os[j] == os[1..][j - 1];
      if t.Some? then Some(t.value + 1) else None
  }

  /** Under `UniqueOts`, the order with a given OT sits at exactly one position. */
  lemma OtIndexUnique(os: seq<WorkOrder>, ot: int, k: nat)
    requires UniqueOts(os) && k < |os| && os[k].ot == ot
    ensures OtIndex(os, ot) == Some(k)
  {
  }

  /** `find_one(sort=[("OT", DESCENDING)])`: an order whose OT no other order exceeds. */
  function LastOrder(os: seq<WorkOrder>): (r: Option<WorkOrder>)
    ensures r.None? <==> os == []
    ensures r.Some? ==> r.value in os && forall i :: 0 <= i < |os| ==> os[i].ot <= r.value.ot
  {
    if os == [] then None
    else
      var t := LastOrder(os[1..]);
      assert forall i :: 1 <= i < |os| ==> os[i] == os[1..][i - 1];
      if t.Some? && t.value.ot > os[0].ot then t else Some(os[0])
  }

  // ------------------------------------------------------------ daily close

  /** The filter of `close_until_fecha`: dated before the bound and not already closed. */
  predicate Closable(w: WorkOrder, bound: Instant) {
    w.contenido.fecha < bound && w.estado != CERRADA
  }

  /** The `$set` of `close_until_fecha` on one order: only `estado` changes. */
  function CloseOne(w: WorkOrder, bound: Instant): WorkOrder {
    if Closable(w, bound) then w.(estado := CERRADA) else w
  }

  function CloseAll(os: seq<WorkOrder>, bound: Instant): seq<WorkOrder> {
    seq(|os|, i requires 0 <= i < |os| => CloseOne(os[i], bound))
  }

  /** `modified_count` of the update: the number of orders the filter selects. */
  function CountClosable(os: seq<WorkOrder>, bound: Instant): nat {
    if os == [] then 0
    else CountClosable(os[..|os| - 1], bound) + (if Closable(os[|os| - 1], bound) then 1 else 0)
  }

  /** The number of positions at which two equally long sequences differ. */
  function Changes(a: seq<WorkOrder>, b: seq<WorkOrder>): nat
    requires |a| == |b|
  {
    if a == [] then 0
    else Changes(a[..|a| - 1], b[..|b| - 1]) + (if a[|a| - 1] != b[|b| - 1] then 1 else 0)
  }

  /** The close affects exactly the selected orders, and only their `estado`. */
  lemma CloseAllEffect(os: seq<WorkOrder>, bound: Instant, i: nat)
    requires i < |os|
    ensures os[i].contenido.fecha < bound ==> CloseAll(os, bound)[i].estado == CERRADA
    ensures os[i].contenido.fecha >= bound || os[i].estado == CERRADA ==> CloseAll(os, bound)[i] == os[i]
    ensures CloseAll(os, bound)[i].(estado := os[i].estado) == os[i]
  {
  }

  /** The count returned equals the number of orders that actually changed. */
  lemma {:induction false} CloseCountIsChanges(os: seq<WorkOrder>, bound: Instant)
    ensures CountClosable(os, bound) == Changes(os, CloseAll(os, bound))
  {
    if os != [] {
      var n := |os| - 1;
      CloseCountIsChanges(os[..n], bound);
      assert CloseAll(os, bound)[..n] == CloseAll(os[..n], bound);
    }
  }

  /** Closing twice with the same bound changes nothing the second time. */
  lemma {:induction false} CloseAllIdempotent(os: seq<WorkOrder>, bound: Instant)
    ensures CloseAll(CloseAll(os, bound), bound) == CloseAll(os, bound)
    ensures CountClosable(CloseAll(os, bound), bound) == 0
  {
    if os != [] {
      var n := |os| - 1;
      CloseAllIdempotent(os[..n], bound);
      assert CloseAll(os, bound)[..n] == CloseAll(os[..n], bound);
    }
  }

  lemma CloseKeepsUnique(os: seq<WorkOrder>, bound: Instant)
    requires UniqueOts(os)
    ensures UniqueOts(CloseAll(os, bound))
  {
  }

  // ---------------------------------------------------------------- listing

  predicate SortedByOt(s: seq<WorkOrder>) {
    forall i, j :: 0 <= i < j < |s| ==> s[i].ot <= s[j].ot
  }

  function InsertByOt(w: WorkOrder, s: seq<WorkOrder>): (r: seq<WorkOrder>)
    requires SortedByOt(s)
    ensures SortedByOt(r)
    ensures forall i :: 0 <= i < |r| ==> r[i] == w || r[i] in s
    ensures multiset(r) == multiset(s) + multiset{w}
  {
    if s == [] then [w]
    else if w.ot <= s[0].ot then [w] + s
    else
      var t := InsertByOt(w, s[1..]);
      HeadBelow(w, s, t);
      assert s == [s[0]] + s[1..];
      [s[0]] + t
  }

  lemma HeadBelow(w: WorkOrder, s: seq<WorkOrder>, t: seq<WorkOrder>)
    requires SortedByOt(s) && s != [] && s[0].ot < w.ot && SortedByOt(t)
    requires forall i :: 0 <= i < |t| ==> t[i] == w || t[i] in s[1..]
    ensures SortedByOt([s[0]] + t)
  {
    forall i | 0 <= i < |t| ensures s[0].ot <= t[i].ot {
      if t[i] != w {
        var j :| 0 <= j < |s[1..]| && s[1..][j] == t[i];
        assert s[j + 1] == t[i];
      }
    }
  }

  /** `sort("OT", ASCENDING)`: the same orders, in ascending OT. */
  function SortByOt(s: seq<WorkOrder>): (r: seq<WorkOrder>)
    ensures SortedByOt(r)
    ensures multiset(r) == multiset(s)
    ensures forall i :: 0 <= i < |r| ==> r[i] in s
  {
    if s == [] then []
    else
      assert s == s[..|s| - 1] + [s[|s| - 1]];
      InsertByOt(s[|s| - 1], SortByOt(s[..|s| - 1]))
  }

  /** The `estado` filter of the listing; no filter keeps every order. */
  function WithEstado(os: seq<WorkOrder>, estado: Option<string>): (r: seq<WorkOrder>)
    ensures forall w :: w in r <==> w in os && (estado.None? || w.estado == estado.value)
    ensures estado.None? ==> r == os
  {
    if os == [] then []
    else
      var n := |os| - 1;
      assert os == os[..n] + [os[n]];
      WithEstado(os[..n], estado) + (if estado.None? || os[n].estado == estado.value then [os[n]] else [])
  }

  /** `skip(skip).limit(limit)` on a cursor; a limit of 0 means no limit. */
  function Page<T>(s: seq<T>, skip: nat, limit: nat): (r: seq<T>)
    ensures skip >= |s| ==> r == []
    ensures skip < |s| ==> |r| == (if limit == 0 || skip + limit > |s| then |s| - skip else limit)
    ensures forall i :: 0 <= i < |r| ==> skip + i < |s| && r[i] == s[skip + i]
  {
    if skip >= |s| then []
    else if limit == 0 || skip + limit > |s| then s[skip..]
    else s[skip..skip + limit]
  }

  /** A page of the sorted listing is itself sorted and holds only stored orders with that estado. */
  lemma ListingSorted(os: seq<WorkOrder>, estado: Option<string>, skip: nat, limit: nat)
    ensures SortedByOt(Page(SortByOt(WithEstado(os, estado)), skip, limit))
    ensures forall w :: w in Page(SortByOt(WithEstado(os, estado)), skip, limit) ==>
      w in os && (estado.None? || w.estado == estado.value)
  {
    var f := WithEstado(os, estado);
    var s := SortByOt(f);
    PageSorted(s, skip, limit);
    PageMembers(s, f, skip, limit);
  }

  /** A page of a sorted listing is sorted. */
  lemma PageSorted(s: seq<WorkOrder>, skip: nat, limit: nat)
    requires SortedByOt(s)
    ensures SortedByOt(Page(s, skip, limit))
  {
    var p := Page(s, skip, limit);
    forall i, j | 0 <= i < j < |p| ensures p[i].ot <= p[j].ot {
      assert p[i] == s[skip + i] && p[j] == s[skip + j];
    }
  }

  /** A page holds only orders of the listing, and so of any list that holds the listing's orders. */
  lemma PageMembers(s: seq<WorkOrder>, f: seq<WorkOrder>, skip: nat, limit: nat)
    requires forall i :: 0 <= i < |s| ==> s[i] in f
    ensures forall w :: w in Page(s, skip, limit) ==> w in f
  {
    var p := Page(s, skip, limit);
    forall w | w in p ensures w in f {
      var i :| 0 <= i < |p| && p[i] == w;
      assert s[skip + i] == w;
    }
  }

  // ------------------------------------------------------------------ store

  class WorkOrderStore {
    var orders: seq<WorkOrder>

    ghost predicate Valid()
      reads this
    {
      UniqueOts(orders)
    }

    constructor ()
      ensures Valid() && orders == []
    {
      orders := [];
    }

    /** `find_by_ot`. */
    method FindByOt(ot: int) returns (doc: Option<WorkOrder>)
      ensures doc.Some? <==> HasOt(orders, ot)
      ensures doc.Some? ==> doc.value in orders && doc.value.ot == ot
    {
      var i := OtIndex(orders, ot);
      doc := if i.Some? then Some(orders[i.value]) else None;
    }

    /** `find_last_ot`: the order with the highest OT, None for an empty collection. */
    method FindLastOt() returns (doc: Option<WorkOrder>)
      ensures doc.None? <==> orders == []
      ensures doc.Some? ==> doc.value in orders && forall i :: 0 <= i < |orders| ==> orders[i].ot <= doc.value.ot
    {
      doc := LastOrder(orders);
    }

    /**
     * `insert_work_order`; None stands for the duplicate-key error the unique index
     * raises, in which case nothing is stored.
     */
    method InsertWorkOrder(w: WorkOrder) returns (doc: Option<WorkOrder>)
      requires Valid()
      modifies this
      ensures Valid()
      ensures HasOt(old(orders), w.ot) ==> doc.None? && orders == old(orders)
      ensures !HasOt(old(orders), w.ot) ==> doc == Some(w) && orders == old(orders) + [w]
    {
      var i := OtIndex(orders, w.ot);
      if i.Some? {
        doc := None;
      } else {
        orders := orders + [w];
        doc := Some(w);
      }
    }

    /** `update_estado_by_ot`: sets `estado` and `audit.updatedAt`, returning the order after the update. */
    method UpdateEstadoByOt(ot: int, estado: string, now: Instant) returns (doc: Option<WorkOrder>)
      requires Valid()
      modifies this
      ensures Valid()
      ensures !HasOt(old(orders), ot) ==> doc.None? && orders == old(orders)
      ensures HasOt(old(orders), ot) ==>
        var i := OtIndex(old(orders), ot).value;
        orders == old(orders)[i := old(orders)[i].(estado := estado, updatedAt := now)] && doc == Some(orders[i])
    {
      var i := OtIndex(orders, ot);
      if i.None? {
        doc := None;
      } else {
        var k := i.value;
        orders := orders[k := orders[k].(estado := estado, updatedAt := now)];
        doc := Some(orders[k]);
      }
    }

    /**
     * `close_until_fecha`: every order dated before `bound` and not yet closed becomes
     * "CERRADA" in one update; the result is the number of orders modified.
     */
    method CloseUntilFecha(bound: Instant) returns (count: nat)
      requires Valid()
      modifies this
      ensures Valid()
      ensures orders == CloseAll(old(orders), bound)
      ensures count == Changes(old(orders), orders)
    {
      CloseKeepsUnique(orders, bound);
      CloseCountIsChanges(orders, bound);
      count := CountClosable(orders, bound);
      orders := CloseAll(orders, bound);
    }

    /** `list_work_orders`: filter by estado, sort by ascending OT, then skip and limit. */
    method ListWorkOrders(estado: Option<string>, skip: nat, limit: nat) returns (page: seq<WorkOrder>)
      ensures SortedByOt(page)
      ensures forall w :: w in page ==> w in orders && (estado.None? || w.estado == estado.value)
      ensures page == Page(SortByOt(WithEstado(orders, estado)), skip, limit)
    {
      ListingSorted(orders, estado, skip, limit);
      page := Page(SortByOt(WithEstado(orders, estado)), skip, limit);
    }
  }
}
