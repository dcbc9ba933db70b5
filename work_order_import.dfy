/**
 * The bulk import of work orders from CSV: every row is validated and exploded
 * into WMS lines first; the lines of all accepted rows go to the WMS in one
 * send; and only when that send is accepted are the accepted rows stored.
 */
module WorkOrderImport {
  import opened Wrappers
  import opened Text
  import opened Parsing
  import opened Calendar
  import opened Catalog
  import Recipes
  import opened ExcludeSkus
  import opened WorkOrderRepo
  import opened WorkOrders
  import opened WmsItems

  /** The headers every file must carry, compared after stripping. */
  const REQUIRED_HEADERS: set<string> := {"OT", "SKU", "Cantidad", "Encargado", "linea", "fecha", "fecha_ini", "fecha_fin"}

  /** What the import reads besides the file: catalogue, recipes, exclusions, and the parsers it relies on. */
  datatype Env = Env(
    cat: Catalog,
    recipes: map<ObjectId, Recipes.Recipe>,
    stored: seq<StoredSku>,
    parseFloat: string -> Num,
    parseDate: (DateFormat, string) -> Option<Day>,
    round6: real -> real)

  /** Why one row was not imported. */
  datatype RowError =
    | PayloadRejected(rowError: WoError)
    | ExplosionFailed(explodeError: ExplodeError)
    | NoValidComponents
    | CreationFailed(createError: WoError)

  /** `WorkOrderImportError`: the file row (the header is row 1), the OT when it reads as an integer, and why. */
  datatype ImportError = ImportError(row: int, ot: Option<int>, error: RowError)

  /** A row that passed validation and explosion, waiting for the WMS send. */
  datatype Pending = Pending(row: int, payload: CreateIn)

  /** The outcome of the first pass over the rows. */
  datatype Plan = Plan(errors: seq<ImportError>, pending: seq<Pending>, items: seq<Item>)

  /** The outcome of the second pass: the orders after it, those created, and the refusals. */
  datatype Saved = Saved(orders: seq<WorkOrder>, created: seq<WorkOrder>, errors: seq<ImportError>)

  /** `WorkOrderBulkImportOut`, with the WMS response reduced to whether it was sent and accepted. */
  datatype ImportOut = ImportOut(created: seq<WorkOrder>, errors: seq<ImportError>, wmsSent: bool, wmsAccepted: bool)

  datatype HeaderError = HeadersMissing

  // -------------------------------------------------------------- headers

  /** The file has a header line, and its stripped names include every required one. */
  predicate HeadersOk(fieldnames: Option<seq<string>>) {
    fieldnames.Some? && REQUIRED_HEADERS <= (set i | 0 <= i < |fieldnames.value| :: Strip(fieldnames.value[i]))
  }

  /** Surrounding blanks in a header name do not matter, but a missing name does. */
  lemma HeadersStripped(fieldnames: seq<string>)
    requires forall h :: h in REQUIRED_HEADERS ==> exists i :: 0 <= i < |fieldnames| && Strip(fieldnames[i]) == h
    ensures HeadersOk(Some(fieldnames))
  {
    forall h | h in REQUIRED_HEADERS
      ensures h in (set i | 0 <= i < |fieldnames| :: Strip(fieldnames[i]))
    {
      var i :| 0 <= i < |fieldnames| && Strip(fieldnames[i]) == h;
    }
  }

  lemma NoHeaderLine()
    ensures !HeadersOk(None)
    ensures !HeadersOk(Some([]))
  {
    assert "OT" in REQUIRED_HEADERS;
  }

  // ------------------------------------------------------------ first pass

  /** The OT an error is reported under: `int(str(row.get("OT") or "").strip())`, or none. */
  function OtOf(row: Row): Option<int> {
    ParseInt(Cell(row, "OT").GetOr(""))
  }

  datatype RowOutcome = Accepted(payload: CreateIn, items: seq<Item>) | Refused(error: ImportError)

  /**
   * One row of the first loop: the payload must build, its explosion must succeed
   * and give at least one line.
   */
  function RowOutcomeOf(env: Env, row: int, r: Row): (o: RowOutcome)
    ensures o.Refused? ==> o.error.row == row && o.error.ot == OtOf(r)
    ensures o.Accepted? ==>
      RowToPayload(r, env.parseFloat, env.parseDate) == Ok(o.payload)
      && Explode(env.cat, env.recipes, env.stored, o.payload.ot, o.payload.contenido, env.round6) == Ok(o.items)
      && o.items != []
  {
    var p := RowToPayload(r, env.parseFloat, env.parseDate);
    if p.Err? then Refused(ImportError(row, OtOf(r), PayloadRejected(p.error)))
    else
      var items := Explode(env.cat, env.recipes, env.stored, p.value.ot, p.value.contenido, env.round6);
      if items.Err? then Refused(ImportError(row, OtOf(r), ExplosionFailed(items.error)))
      else if items.value == [] then Refused(ImportError(row, OtOf(r), NoValidComponents))
      else Accepted(p.value, items.value)
  }

  /** Every row's outcome, the header being row 1. */
  function Outcomes(env: Env, rows: seq<Row>): seq<RowOutcome> {
    seq(|rows|, i requires 0 <= i < |rows| => RowOutcomeOf(env, i + 2, rows[i]))
  }

  lemma OutcomesLength(env: Env, rows: seq<Row>)
    ensures |Outcomes(env, rows)| == |rows|
  {
  }

  /** Row `i` of the data, file row `i + 2`, has its own outcome. */
  lemma OutcomeAt(env: Env, rows: seq<Row>, i: int)
    requires 0 <= i < |rows|
    ensures |Outcomes(env, rows)| == |rows|
    ensures Outcomes(env, rows)[i] == RowOutcomeOf(env, i + 2, rows[i])
  {
  }

  /** Each row's outcome refuses under its own number or carries lines. */
  lemma OutcomesAreWellFormed(env: Env, rows: seq<Row>)
    ensures OutcomesWellFormed(Outcomes(env, rows))
  {
    var os := Outcomes(env, rows);
    OutcomesLength(env, rows);
    forall i | 0 <= i < |os|
      ensures (os[i].Refused? ==> os[i].error.row == i + 2) && (os[i].Accepted? ==> os[i].items != [])
    {
      OutcomeAt(env, rows, i);
      var o := RowOutcomeOf(env, i + 2, rows[i]);
      assert os[i] == o;
    }
  }

  /** What each row's outcome guarantees: a refusal names its own row, an acceptance carries lines. */
  predicate OutcomesWellFormed(os: seq<RowOutcome>) {
    forall i :: 0 <= i < |os| ==>
      (os[i].Refused? ==> os[i].error.row == i + 2) && (os[i].Accepted? ==> os[i].items != [])
  }

  /** Folds one row's outcome into the plan. */
  function AddOutcome(plan: Plan, row: int, o: RowOutcome): Plan {
    match o
    case Refused(e) => Plan(plan.errors + [e], plan.pending, plan.items)
    case Accepted(p, items) => Plan(plan.errors, plan.pending + [Pending(row, p)], plan.items + items)
  }

  /** The plan built from the outcomes in order. */
  function PlanOf(os: seq<RowOutcome>): Plan {
    if os == [] then Plan([], [], [])
    else
      var n := |os| - 1;
      AddOutcome(PlanOf(os[..n]), n + 2, os[n])
  }

  /** One more outcome folds into the plan built so far. */
  lemma PlanOfSnoc(os: seq<RowOutcome>, i: nat)
    requires i < |os|
    ensures PlanOf(os[..i + 1]) == AddOutcome(PlanOf(os[..i]), i + 2, os[i])
  {
    assert os[..i + 1][..i] == os[..i];
  }

  /** The first loop over the rows. */
  function PlanRows(env: Env, rows: seq<Row>): Plan {
    PlanOf(Outcomes(env, rows))
  }

  /**
   * Every row ends up exactly once, either among the errors or among the pending
   * rows, each under its own row number.
   */
  lemma {:induction false} PlanAccountsForEveryRow(os: seq<RowOutcome>)
    requires OutcomesWellFormed(os)
    ensures |PlanOf(os).errors| + |PlanOf(os).pending| == |os|
    ensures forall e :: e in PlanOf(os).errors ==> 2 <= e.row <= |os| + 1
    ensures forall q :: q in PlanOf(os).pending ==>
      2 <= q.row <= |os| + 1 && os[q.row - 2].Accepted? && os[q.row - 2].payload == q.payload
  {
    if os != [] {
      var n := |os| - 1;
      assert OutcomesWellFormed(os[..n]);
      PlanAccountsForEveryRow(os[..n]);
      forall q | q in PlanOf(os[..n]).pending
        ensures os[q.row - 2] == os[..n][q.row - 2]
      {
      }
    }
  }

  /** Lines are collected exactly when some row was accepted. */
  lemma {:induction false} ItemsIffPending(os: seq<RowOutcome>)
    requires OutcomesWellFormed(os)
    ensures PlanOf(os).items == [] <==> PlanOf(os).pending == []
  {
    if os != [] {
      var n := |os| - 1;
      assert OutcomesWellFormed(os[..n]);
      ItemsIffPending(os[..n]);
    }
  }

  /** Every pending payload comes from its own row, which validated and exploded into lines. */
  lemma PendingAreAccepted(env: Env, rows: seq<Row>)
    ensures forall q :: q in PlanRows(env, rows).pending ==>
      2 <= q.row <= |rows| + 1
      && RowToPayload(rows[q.row - 2], env.parseFloat, env.parseDate) == Ok(q.payload)
  {
    var os := Outcomes(env, rows);
    OutcomesLength(env, rows);
    OutcomesAreWellFormed(env, rows);
    OutcomesAccepted(env, rows);
    PlanAccountsForEveryRow(os);
  }

  /** An accepted outcome holds the payload its row validated into. */
  lemma OutcomesAccepted(env: Env, rows: seq<Row>)
    ensures forall i :: 0 <= i < |rows| && i < |Outcomes(env, rows)| && Outcomes(env, rows)[i].Accepted? ==>
      RowToPayload(rows[i], env.parseFloat, env.parseDate) == Ok(Outcomes(env, rows)[i].payload)
  {
    forall i | 0 <= i < |rows| && i < |Outcomes(env, rows)| && Outcomes(env, rows)[i].Accepted?
      ensures RowToPayload(rows[i], env.parseFloat, env.parseDate) == Ok(Outcomes(env, rows)[i].payload)
    {
      OutcomeAt(env, rows, i);
    }
  }

  // ----------------------------------------------------------- second pass

  /** `create_work_order` for one pending row, its refusal reported under the row and the payload's OT. */
  function SaveOne(s: Saved, q: Pending, now: Instant): Saved {
    var r := CreateOutcome(s.orders, q.payload, now);
    if r.Ok? then Saved(s.orders + [r.value], s.created + [r.value], s.errors)
    else Saved(s.orders, s.created, s.errors + [ImportError(q.row, Some(q.payload.ot), CreationFailed(r.error))])
  }

  /** The second loop, over the pending rows in order. */
  function SaveAll(orders: seq<WorkOrder>, pending: seq<Pending>, now: Instant): Saved {
    if pending == [] then Saved(orders, [], [])
    else
      var n := |pending| - 1;
      SaveOne(SaveAll(orders, pending[..n], now), pending[n], now)
  }

  /**
   * Each pending row is either created or refused; the created orders are
   * appended in order, and the OTs stay unique.
   */
  lemma {:induction false} SaveAllEffect(orders: seq<WorkOrder>, pending: seq<Pending>, now: Instant)
    requires UniqueOts(orders)
    ensures |SaveAll(orders, pending, now).created| + |SaveAll(orders, pending, now).errors| == |pending|
    ensures SaveAll(orders, pending, now).orders == orders + SaveAll(orders, pending, now).created
    ensures UniqueOts(SaveAll(orders, pending, now).orders)
  {
    if pending != [] {
      var n := |pending| - 1;
      var s := SaveAll(orders, pending[..n], now);
      SaveAllEffect(orders, pending[..n], now);
      var r := CreateOutcome(s.orders, pending[n].payload, now);
      if r.Ok? {
        assert s.orders + [r.value] == orders + (s.created + [r.value]);
        NewOtKeepsUnique(s.orders, r.value);
      }
    }
  }

  lemma NewOtKeepsUnique(orders: seq<WorkOrder>, w: WorkOrder)
    requires UniqueOts(orders) && !HasOt(orders, w.ot)
    ensures UniqueOts(orders + [w])
  {
  }

  /** A payload whose OT is already stored, or was created earlier in the file, is refused. */
  lemma {:induction false} DuplicateOtRefused(orders: seq<WorkOrder>, pending: seq<Pending>, now: Instant)
    requires pending != []
    requires HasOt(SaveAll(orders, pending[..|pending| - 1], now).orders, pending[|pending| - 1].payload.ot)
    ensures |SaveAll(orders, pending, now).errors| == |SaveAll(orders, pending[..|pending| - 1], now).errors| + 1
    ensures SaveAll(orders, pending, now).orders == SaveAll(orders, pending[..|pending| - 1], now).orders
  {
  }

  // ---------------------------------------------------------------- import

  /** What the whole import answers, and the orders stored afterwards. */
  function ImportOutcome(orders: seq<WorkOrder>, env: Env, rows: seq<Row>, wmsAccepted: bool, now: Instant): (ImportOut, seq<WorkOrder>) {
    var plan := PlanRows(env, rows);
    var sent := plan.items != [];
    if sent && wmsAccepted then
      var s := SaveAll(orders, plan.pending, now);
      (ImportOut(s.created, plan.errors + s.errors, true, true), s.orders)
    else
      (ImportOut([], plan.errors, sent, false), orders)
  }

  /**
   * Nothing is stored unless the WMS accepted the send, and with no accepted row
   * nothing is sent. After an accepted send (or none) every row is reported once,
   * created or in error; after a refused send the accepted rows are reported nowhere.
   */
  lemma NoPersistenceWithoutWms(orders: seq<WorkOrder>, env: Env, rows: seq<Row>, wmsAccepted: bool, now: Instant)
    requires UniqueOts(orders)
    ensures !ImportOutcome(orders, env, rows, wmsAccepted, now).0.wmsAccepted ==>
      ImportOutcome(orders, env, rows, wmsAccepted, now).1 == orders
      && ImportOutcome(orders, env, rows, wmsAccepted, now).0.created == []
    ensures ImportOutcome(orders, env, rows, wmsAccepted, now).0.wmsSent <==> PlanRows(env, rows).pending != []
    ensures ImportOutcome(orders, env, rows, wmsAccepted, now).1 == orders + ImportOutcome(orders, env, rows, wmsAccepted, now).0.created
    ensures UniqueOts(ImportOutcome(orders, env, rows, wmsAccepted, now).1)
    ensures ImportOutcome(orders, env, rows, wmsAccepted, now).0.wmsAccepted || !ImportOutcome(orders, env, rows, wmsAccepted, now).0.wmsSent ==>
      |ImportOutcome(orders, env, rows, wmsAccepted, now).0.created| + |ImportOutcome(orders, env, rows, wmsAccepted, now).0.errors| == |rows|
    ensures ImportOutcome(orders, env, rows, wmsAccepted, now).0.wmsSent && !ImportOutcome(orders, env, rows, wmsAccepted, now).0.wmsAccepted ==>
      |ImportOutcome(orders, env, rows, wmsAccepted, now).0.errors| + |PlanRows(env, rows).pending| == |rows|
  {
    var os := Outcomes(env, rows);
    OutcomesAreWellFormed(env, rows);
    ItemsIffPending(os);
    PlanAccountsForEveryRow(os);
    SaveAllEffect(orders, PlanOf(os).pending, now);
  }

  // --------------------------------------------------------------- methods

  /** The first loop of `import_work_orders_from_csv`. */
  method PlanImport(env: Env, rows: seq<Row>) returns (plan: Plan)
    ensures plan == PlanRows(env, rows)
  {
    ghost var os := Outcomes(env, rows);
    OutcomesLength(env, rows);
    plan := Plan([], [], []);
    var i := 0;
    while i < |rows|
      invariant 0 <= i <= |rows| == |os|
      invariant plan == PlanOf(os[..i])
    {
      PlanOfSnoc(os, i);
      OutcomeAt(env, rows, i);
      plan := PlanRow(env, plan, i + 2, rows[i]);
      i := i + 1;
    }
    assert os[..i] == os;
  }

  /** One pass of the first loop: the row's payload, its explosion, and where the row goes. */
  method PlanRow(env: Env, plan: Plan, idx: int, row: Row) returns (plan': Plan)
    ensures plan' == AddOutcome(plan, idx, RowOutcomeOf(env, idx, row))
  {
    var payload := RowToPayload(row, env.parseFloat, env.parseDate);
    if payload.Err? {
      plan' := plan.(errors := plan.errors + [ImportError(idx, OtOf(row), PayloadRejected(payload.error))]);
    } else {
      var items := BuildWmsIntegrationItems(env.cat, env.recipes, env.stored, payload.value.ot, payload.value.contenido, env.round6);
      if items.Err? {
        plan' := plan.(errors := plan.errors + [ImportError(idx, OtOf(row), ExplosionFailed(items.error))]);
      } else if items.value == [] {
        plan' := plan.(errors := plan.errors + [ImportError(idx, OtOf(row), NoValidComponents)]);
      } else {
        plan' := plan.(pending := plan.pending + [Pending(idx, payload.value)], items := plan.items + items.value);
      }
    }
  }

  /** The second loop: create every pending row, collecting the refusals. */
  method SavePending(store: WorkOrderStore, pending: seq<Pending>, now: Instant) returns (created: seq<WorkOrder>, errors: seq<ImportError>)
    requires store.Valid()
    modifies store
    ensures store.Valid()
    ensures var s := SaveAll(old(store.orders), pending, now);
      store.orders == s.orders && created == s.created && errors == s.errors
  {
    created, errors := [], [];
    var j := 0;
    while j < |pending|
      invariant 0 <= j <= |pending|
      invariant store.Valid()
      invariant var s := SaveAll(old(store.orders), pending[..j], now);
        store.orders == s.orders && created == s.created && errors == s.errors
    {
      assert pending[..j + 1][..j] == pending[..j];
      var q := pending[j];
      var r := CreateWorkOrder(store, q.payload, now);
      if r.Ok? {
        created := created + [r.value];
      } else {
        errors := errors + [ImportError(q.row, Some(q.payload.ot), CreationFailed(r.error))];
      }
      j := j + 1;
    }
    assert pending[..j] == pending;
  }

  /**
   * `import_work_orders_from_csv`: the headers are checked first; the WMS send
   * happens only when some row produced lines, and its acceptance is what
   * `wmsAccepted` says; orders are stored only after an accepted send.
   */
  method ImportWorkOrdersFromCsv(store: WorkOrderStore, env: Env, fieldnames: Option<seq<string>>, rows: seq<Row>,
                                 wmsAccepted: bool, now: Instant) returns (r: Result<ImportOut, HeaderError>)
    requires store.Valid()
    modifies store
    ensures store.Valid()
    ensures !HeadersOk(fieldnames) ==> r == Err(HeadersMissing) && store.orders == old(store.orders)
    ensures HeadersOk(fieldnames) ==>
      var (out, after) := ImportOutcome(old(store.orders), env, rows, wmsAccepted, now);
      r == Ok(out) && store.orders == after
  {
    if !HeadersOk(fieldnames) {
      return Err(HeadersMissing);
    }
    var plan := PlanImport(env, rows);
    var sent := plan.items != [];
    if sent && wmsAccepted {
      var created, errors := SavePending(store, plan.pending, now);
      r := Ok(ImportOut(created, plan.errors + errors, true, true));
    } else {
      r := Ok(ImportOut([], plan.errors, sent, false));
    }
  }
}
