/**
 * The products repository: product documents under a unique `sku` index, the
 * lookup of SKUs already stored, single inserts and `$set` updates, the bulk
 * upsert by SKU, and the confirmation of an import batch that inserts, updates
 * or skips each validated row.
 */
module ProductsRepo {
  import opened Wrappers
  import opened Text
  import opened Calendar

  /** A field value of a product document. */
  datatype Value = Str(s: string) | Int(i: int) | Bool(b: bool) | Time(t: Instant)

  /** A document as a field map; its `_id` is its position in the collection. */
  type Doc = map<string, Value>

  /** `d.get("sku")` as text; "" when the field is absent or not text. */
  function SkuText(d: Doc): string {
    if "sku" in d && d["sku"].Str? then d["sku"].s else ""
  }

  /** The unique index on `sku`: no two documents hold the same sku value. */
  predicate UniqueSkus(products: seq<Doc>) {
    forall i, j :: 0 <= i < j < |products| && "sku" in products[i] && "sku" in products[j] ==>
      products[i]["sku"] != products[j]["sku"]
  }

  /** Writing `d` at position `at` (None: as a new document) would violate the unique index. */
  predicate SkuClash(products: seq<Doc>, d: Doc, at: Option<nat>) {
    "sku" in d && exists j :: 0 <= j < |products| && Some(j) != at && "sku" in products[j] && products[j]["sku"] == d["sku"]
  }

  lemma AppendKeepsUnique(products: seq<Doc>, d: Doc)
    requires UniqueSkus(products) && !SkuClash(products, d, None)
    ensures UniqueSkus(products + [d])
  {
    var all := products + [d];
    forall i, j | 0 <= i < j < |all| && "sku" in all[i] && "sku" in all[j]
      ensures all[i]["sku"] != all[j]["sku"]
    {
      if j == |products| {
        assert all[i] == products[i];
      }
    }
  }

  lemma ReplaceKeepsUnique(products: seq<Doc>, at: nat, d: Doc)
    requires UniqueSkus(products) && at < |products| && !SkuClash(products, d, Some(at))
    ensures UniqueSkus(products[at := d])
  {
    var all := products[at := d];
    forall i, j | 0 <= i < j < |all| && "sku" in all[i] && "sku" in all[j]
      ensures all[i]["sku"] != all[j]["sku"]
    {
      if i == at {
        assert Some(j) != Some(at);
      } else if j == at {
        assert Some(i) != Some(at);
      }
    }
  }

  /** The document holds `sku` as its text sku. */
  predicate HasSku(d: Doc, sku: string) {
    "sku" in d && d["sku"] == Str(sku)
  }

  /** `find_one({"sku": sku})`: the first document, from `from` on, whose sku is that text. */
  function FindBySku(products: seq<Doc>, sku: string, from: nat := 0): (r: Option<nat>)
    ensures r.None? <==> forall i :: from <= i < |products| ==> !HasSku(products[i], sku)
    ensures r.Some? ==> from <= r.value < |products| && HasSku(products[r.value], sku)
    ensures r.Some? ==> forall i :: from <= i < r.value ==> !HasSku(products[i], sku)
    decreases |products| - from
  {
    if from >= |products| then None
    else if HasSku(products[from], sku) then Some(from)
    else FindBySku(products, sku, from + 1)
  }

  /** Under the unique index, the document found is the only one with that sku. */
  lemma FoundIsOnly(products: seq<Doc>, sku: string, i: nat)
    requires UniqueSkus(products) && i < |products| && HasSku(products[i], sku)
    ensures FindBySku(products, sku) == Some(i)
  {
    assert forall j :: 0 <= j < |products| && j != i ==> !HasSku(products[j], sku);
  }

  /**
   * `find_existing_skus`: nothing is looked up for an empty list; otherwise the
   * non-empty SKUs of the list that some stored document holds.
   */
  function FindExistingSkus(products: seq<Doc>, skus: seq<string>): (r: set<string>)
    ensures skus == [] ==> r == {}
    ensures forall s :: s in r ==> s in skus
    ensures forall s :: s in r <==> s in skus && s != [] && exists i :: 0 <= i < |products| && HasSku(products[i], s)
  {
    if skus == [] then {}
    else set s | s in skus && s != [] && FindBySku(products, s).Some?
  }

  /** A document appended under a sku no stored document holds is the one `find_one` returns for that sku. */
  lemma AppendedFoundBySku(products: seq<Doc>, d: Doc, sku: string)
    requires UniqueSkus(products) && !SkuClash(products, d, None) && HasSku(d, sku)
    ensures FindBySku(products + [d], sku) == Some(|products|)
  {
    AppendKeepsUnique(products, d);
    FoundIsOnly(products + [d], sku, |products|);
  }

  /** `insert_one`: the stored document also carries `nombre_ci`, the lower-cased name. */
  function WithNombreCi(doc: Doc): (r: Doc)
    requires "nombre" in doc && doc["nombre"].Str?
    ensures r.Keys == doc.Keys + {"nombre_ci"}
    ensures r["nombre_ci"] == Str(Lower(doc["nombre"].s))
    ensures forall k :: k in doc && k != "nombre_ci" ==> r[k] == doc[k]
  {
    doc["nombre_ci" := Str(Lower(doc["nombre"].s))]
  }

  /** What one `UpdateOne({"sku": sku}, {"$set": d}, upsert=True)` did. */
  datatype Outcome = Ignored | Created | Updated | Unchanged | Rejected

  /** How many of the outcomes are `o`. */
  function CountOf(outs: seq<Outcome>, o: Outcome): (n: nat)
    ensures n <= |outs|
    decreases |outs|
  {
    if outs == [] then 0 else CountOf(outs[..|outs| - 1], o) + (if outs[|outs| - 1] == o then 1 else 0)
  }

  lemma CountOfSnoc(outs: seq<Outcome>, x: Outcome, o: Outcome)
    ensures CountOf(outs + [x], o) == CountOf(outs, o) + (if x == o then 1 else 0)
  {
    assert (outs + [x])[..|outs|] == outs;
  }

  // ------------------------------------------------------------ bulk upsert

  /** The key `bulk_upsert_products_by_sku` upserts under: the sku stripped and upper-cased. */
  function UpsertKey(d: Doc): string {
    Upper(Strip(SkuText(d)))
  }

  /** The unique index refuses the document an upsert of `d` would write. */
  predicate UpsertRefused(products: seq<Doc>, d: Doc) {
    match FindBySku(products, UpsertKey(d))
    case None => SkuClash(products, map["sku" := Str(UpsertKey(d))] + d, None)
    case Some(i) => SkuClash(products, products[i] + d, Some(i))
  }

  /**
   * One upsert by SKU: a blank key is no operation; an unknown key inserts the
   * filter's sku overlaid with `d`; a known key gets `d` set over it, which
   * modifies the document only if some field differs. A write the unique index
   * refuses changes nothing.
   */
  function UpsertDoc(products: seq<Doc>, d: Doc): (r: (seq<Doc>, Outcome))
    ensures r.1 in {Ignored, Rejected, Unchanged} ==> r.0 == products
    ensures r.1 == Ignored <==> UpsertKey(d) == []
    ensures r.1 == Created ==> r.0 == products + [map["sku" := Str(UpsertKey(d))] + d]
    ensures r.1 == Updated ==> exists i :: 0 <= i < |products| && HasSku(products[i], UpsertKey(d))
                                         && products[i] + d != products[i] && r.0 == products[i := products[i] + d]
    ensures r.1 == Unchanged ==> exists i :: 0 <= i < |products| && HasSku(products[i], UpsertKey(d)) && products[i] + d == products[i]
    ensures r.1 == Rejected <==> UpsertKey(d) != [] && UpsertRefused(products, d)
  {
    var sku := UpsertKey(d);
    if sku == [] then (products, Ignored)
    else
      match FindBySku(products, sku)
      case None =>
        var nd := map["sku" := Str(sku)] + d;
        if SkuClash(products, nd, None) then (products, Rejected) else (products + [nd], Created)
      case Some(i) =>
        var nd := products[i] + d;
        if SkuClash(products, nd, Some(i)) then (products, Rejected)
        else if nd == products[i] then (products, Unchanged)
        else (products[i := nd], Updated)
  }

  /** An upsert that was applied leaves a document holding every field of `d`. */
  lemma UpsertStoresFields(products: seq<Doc>, d: Doc)
    requires UpsertDoc(products, d).1 in {Created, Updated, Unchanged}
    ensures exists i :: 0 <= i < |UpsertDoc(products, d).0| && forall k :: k in d ==> k in UpsertDoc(products, d).0[i] && UpsertDoc(products, d).0[i][k] == d[k]
  {
    var r := UpsertDoc(products, d);
    var i: nat := match FindBySku(products, UpsertKey(d)) case None => |products| case Some(j) => j;
    assert i < |r.0|;
    assert forall k :: k in d ==> k in r.0[i] && r.0[i][k] == d[k];
  }

  /** The unique index survives every upsert. */
  lemma UpsertKeepsUnique(products: seq<Doc>, d: Doc)
    requires UniqueSkus(products)
    ensures UniqueSkus(UpsertDoc(products, d).0)
  {
    var sku := UpsertKey(d);
    if sku != [] {
      match FindBySku(products, sku)
      case None =>
        var nd := map["sku" := Str(sku)] + d;
        if !SkuClash(products, nd, None) { AppendKeepsUnique(products, nd); }
      case Some(i) =>
        var nd := products[i] + d;
        if !SkuClash(products, nd, Some(i)) { ReplaceKeepsUnique(products, i, nd); }
    }
  }

  /**
   * Upserting a document whose sku is already its own key a second time finds
   * the document the first upsert wrote, and modifies nothing.
   */
  lemma UpsertTwiceUnchanged(products: seq<Doc>, d: Doc)
    requires UniqueSkus(products)
    requires SkuText(d) == UpsertKey(d)
    requires UpsertDoc(products, d).1 in {Created, Updated, Unchanged}
    ensures UpsertDoc(UpsertDoc(products, d).0, d).1 == Unchanged
  {
    var sku := UpsertKey(d);
    var after := UpsertDoc(products, d).0;
    UpsertKeepsUnique(products, d);
    var i: nat := match FindBySku(products, sku) case None => |products| case Some(j) => j;
    assert HasSku(after[i], sku);
    FoundIsOnly(after, sku, i);
    assert after[i] + d == after[i];
  }

  /** One upsert of the bulk write: the collection after it and its outcome. */
  type Upsert = (seq<Doc>, Doc) -> (seq<Doc>, Outcome)

  /** The documents and outcomes after the first `k` upserts by `upsert`, in list order. */
  function BulkRunBy(upsert: Upsert, products: seq<Doc>, docs: seq<Doc>, k: nat): (seq<Doc>, seq<Outcome>)
    requires k <= |docs|
    decreases k
  {
    if k == 0 then (products, [])
    else
      var prev := BulkRunBy(upsert, products, docs, k - 1);
      var step := upsert(prev.0, docs[k - 1]);
      (step.0, prev.1 + [step.1])
  }

  /** The documents and outcomes after the first `k` upserts of `bulk_upsert_products_by_sku`. */
  function BulkRun(products: seq<Doc>, docs: seq<Doc>, k: nat): (seq<Doc>, seq<Outcome>)
    requires k <= |docs|
  {
    BulkRunBy(UpsertDoc, products, docs, k)
  }

  /** One document further: the run upserts it and records its outcome. */
  lemma BulkRunNext(upsert: Upsert, products: seq<Doc>, docs: seq<Doc>, k: nat, before: seq<Doc>, outs: seq<Outcome>, after: seq<Doc>, o: Outcome)
    requires k < |docs| && (before, outs) == BulkRunBy(upsert, products, docs, k)
    requires (after, o) == upsert(before, docs[k])
    ensures BulkRunBy(upsert, products, docs, k + 1) == (after, outs + [o])
  {
  }

  /** An upsert that keeps the unique index keeps it over every prefix of the run. */
  lemma {:induction false} BulkRunKeepsUnique(upsert: Upsert, products: seq<Doc>, docs: seq<Doc>, k: nat)
    requires k <= |docs| && UniqueSkus(products)
    requires forall p, d :: UniqueSkus(p) ==> UniqueSkus(upsert(p, d).0)
    ensures UniqueSkus(BulkRunBy(upsert, products, docs, k).0)
    decreases k
  {
    if k > 0 {
      BulkRunKeepsUnique(upsert, products, docs, k - 1);
    }
  }

  /** The bulk write keeps the unique index over every prefix of its documents. */
  lemma BulkUpsertKeepsUnique(products: seq<Doc>, docs: seq<Doc>, k: nat)
    requires k <= |docs| && UniqueSkus(products)
    ensures UniqueSkus(BulkRun(products, docs, k).0)
  {
    forall p, d | UniqueSkus(p)
      ensures UniqueSkus(UpsertDoc(p, d).0)
    {
      UpsertKeepsUnique(p, d);
    }
    BulkRunKeepsUnique(UpsertDoc, products, docs, k);
  }

  /** The run records one outcome per document. */
  lemma {:induction false} BulkRunLength(upsert: Upsert, products: seq<Doc>, docs: seq<Doc>, k: nat)
    requires k <= |docs|
    ensures |BulkRunBy(upsert, products, docs, k).1| == k
    decreases k
  {
    if k > 0 {
      BulkRunLength(upsert, products, docs, k - 1);
    }
  }

  // ------------------------------------------------------- batch confirmation

  /** An item of an import batch: its CSV row, the payload to write, and its messages. */
  datatype BatchItem = BatchItem(row: nat, payload: Doc, errors: seq<string>, warnings: seq<string>)

  /** The reply of `confirm_import_batch`. */
  datatype ConfirmReply = ConfirmReply(ok: bool, created: nat, updated: nat, skipped: nat)

  /** The write the unique index refused; it ends the confirmation with an exception. */
  datatype RepoError = DuplicateKey

  /** The item is written: it has no errors and its sku is not blank. */
  predicate Processable(it: BatchItem) {
    it.errors == [] && Strip(SkuText(it.payload)) != []
  }

  /**
   * The document `confirm_import_batch` writes for a payload: active, with the
   * lower-cased name when the name is text, `createdAt` defaulted to now and
   * `updatedAt` now.
   */
  function BuildDoc(payload: Doc, now: Instant): (d: Doc)
    ensures d.Keys == payload.Keys + {"activo", "createdAt", "updatedAt"}
                      + (if "nombre" in payload && payload["nombre"].Str? then {"nombre_ci"} else {})
    ensures d["activo"] == Bool(true) && d["updatedAt"] == Time(now)
    ensures d["createdAt"] == if "createdAt" in payload then payload["createdAt"] else Time(now)
    ensures "nombre" in payload && payload["nombre"].Str? ==> d["nombre_ci"] == Str(Lower(payload["nombre"].s))
    ensures forall k :: k in payload && k !in {"activo", "nombre_ci", "createdAt", "updatedAt"} ==> d[k] == payload[k]
  {
    var withActivo := payload["activo" := Bool(true)];
    var withCi := if "nombre" in payload && payload["nombre"].Str? then withActivo["nombre_ci" := Str(Lower(payload["nombre"].s))] else withActivo;
    var withCreated := if "createdAt" in payload then withCi else withCi["createdAt" := Time(now)];
    withCreated["updatedAt" := Time(now)]
  }

  /** The `$set` of an update: every field of `doc` but `_id` whose stored value differs or is missing. */
  function Changes(current: Doc, doc: Doc): (ch: Doc)
    ensures forall k :: k in ch <==> k in doc && k != "_id" && (k !in current || current[k] != doc[k])
    ensures forall k :: k in ch ==> ch[k] == doc[k]
  {
    map k | k in doc && k != "_id" && (k !in current || current[k] != doc[k]) :: doc[k]
  }

  /** After the `$set` of the changes, the stored document agrees with `doc` on every field but `_id`. */
  lemma ChangesApplied(current: Doc, doc: Doc)
    ensures forall k :: k in doc && k != "_id" ==> k in current + Changes(current, doc) && (current + Changes(current, doc))[k] == doc[k]
    ensures forall k :: k in current && k !in doc ==> (current + Changes(current, doc))[k] == current[k]
    ensures Changes(current, doc) == map[] <==> forall k :: k in doc && k != "_id" ==> k in current && current[k] == doc[k]
  {
    if Changes(current, doc) != map[] {
      var k :| k in Changes(current, doc);
    }
  }

  /**
   * One item of `confirm_import_batch`, as written: an item with errors or a
   * blank sku is passed over; an unknown sku inserts the built document; a known
   * one gets the fields that differ from the built document set, or is skipped
   * when none differ. A write the unique index refuses is `Rejected`.
   */
  function ConfirmStep(products: seq<Doc>, it: BatchItem, now: Instant): (seq<Doc>, Outcome)
  {
    if !Processable(it) then (products, Ignored)
    else
      var sku := Strip(SkuText(it.payload));
      var doc := BuildDoc(it.payload, now);
      match FindBySku(products, sku)
      case None =>
        if SkuClash(products, doc, None) then (products, Rejected) else (products + [doc], Created)
      case Some(i) =>
        var ch := Changes(products[i], doc);
        if ch == map[] then (products, Unchanged)
        else if SkuClash(products, products[i] + ch, Some(i)) then (products, Rejected)
        else (products[i := products[i] + ch], Updated)
  }

  /**
   * What each outcome of one item means: passed over exactly when it has
   * errors or no sku; created only for an unknown sku, by appending the built
   * document; updated or skipped only for a known sku, by setting the fields
   * that differ or because none do; nothing changes unless created or updated.
   */
  lemma ConfirmStepOutcomes(products: seq<Doc>, it: BatchItem, now: Instant)
    ensures var r := ConfirmStep(products, it, now);
      var found := FindBySku(products, Strip(SkuText(it.payload)));
      var doc := BuildDoc(it.payload, now);
      (r.1 == Ignored <==> !Processable(it))
      && (r.1 in {Ignored, Unchanged, Rejected} ==> r.0 == products)
      && (r.1 == Created ==> found.None? && r.0 == products + [doc])
      && (r.1 in {Updated, Unchanged} ==> found.Some?)
      && (r.1 == Updated ==> found.Some? && Changes(products[found.value], doc) != map[]
                             && r.0 == products[found.value := products[found.value] + Changes(products[found.value], doc)])
      && (r.1 == Unchanged ==> found.Some? && Changes(products[found.value], doc) == map[])
  {
  }

  lemma ConfirmStepKeepsUnique(products: seq<Doc>, it: BatchItem, now: Instant)
    requires UniqueSkus(products)
    ensures UniqueSkus(ConfirmStep(products, it, now).0)
  {
    if Processable(it) {
      var sku := Strip(SkuText(it.payload));
      var doc := BuildDoc(it.payload, now);
      match FindBySku(products, sku)
      case None =>
        if !SkuClash(products, doc, None) { AppendKeepsUnique(products, doc); }
      case Some(i) =>
        var ch := Changes(products[i], doc);
        if ch != map[] && !SkuClash(products, products[i] + ch, Some(i)) {
          ReplaceKeepsUnique(products, i, products[i] + ch);
        }
    }
  }

  /** How one item is written, given the documents and the instant it is stamped with. */
  type ItemStep = (seq<Doc>, BatchItem, Instant) -> (seq<Doc>, Outcome)

  /**
   * The documents and outcomes after the first `k` items, each item `j`
   * written by `step` and stamped with `clock(j)`; a rejected write raises, so
   * nothing after it runs.
   */
  function RunWith(step: ItemStep, products: seq<Doc>, items: seq<BatchItem>, clock: nat -> Instant, k: nat): (seq<Doc>, seq<Outcome>)
    requires k <= |items|
    decreases k
  {
    if k == 0 then (products, [])
    else
      var prev := RunWith(step, products, items, clock, k - 1);
      if Rejected in prev.1 then prev
      else
        var r := step(prev.0, items[k - 1], clock(k - 1));
        (r.0, prev.1 + [r.1])
  }

  /** One step further: before any refusal, the run writes the next item and records its outcome. */
  lemma RunWithNext(step: ItemStep, products: seq<Doc>, items: seq<BatchItem>, clock: nat -> Instant, k: nat)
    requires k < |items| && Rejected !in RunWith(step, products, items, clock, k).1
    ensures var prev := RunWith(step, products, items, clock, k);
      var r := step(prev.0, items[k], clock(k));
      RunWith(step, products, items, clock, k + 1) == (r.0, prev.1 + [r.1])
  {
  }

  /** `confirm_import_batch`'s run: every item written by `ConfirmStep`. */
  function ConfirmRun(products: seq<Doc>, items: seq<BatchItem>, clock: nat -> Instant, k: nat): (seq<Doc>, seq<Outcome>)
    requires k <= |items|
  {
    RunWith(ConfirmStep, products, items, clock, k)
  }

  /** Once a write was rejected, later items change nothing. */
  lemma {:induction false} RunStops(step: ItemStep, products: seq<Doc>, items: seq<BatchItem>, clock: nat -> Instant, k: nat, n: nat)
    requires k <= n <= |items|
    requires Rejected in RunWith(step, products, items, clock, k).1
    ensures RunWith(step, products, items, clock, n) == RunWith(step, products, items, clock, k)
    decreases n - k
  {
    if n > k {
      RunStops(step, products, items, clock, k, n - 1);
    }
  }

  lemma {:induction false} ConfirmRunKeepsUnique(products: seq<Doc>, items: seq<BatchItem>, clock: nat -> Instant, k: nat)
    requires k <= |items| && UniqueSkus(products)
    ensures UniqueSkus(ConfirmRun(products, items, clock, k).0)
    decreases k
  {
    if k > 0 {
      ConfirmRunKeepsUnique(products, items, clock, k - 1);
      var prev := ConfirmRun(products, items, clock, k - 1);
      ConfirmStepKeepsUnique(prev.0, items[k - 1], clock(k - 1));
    }
  }

  /** How many of the first `k` items are written. */
  function ProcessableCount(items: seq<BatchItem>, k: nat): nat
    requires k <= |items|
    decreases k
  {
    if k == 0 then 0 else ProcessableCount(items, k - 1) + (if Processable(items[k - 1]) then 1 else 0)
  }

  /**
   * When no write is rejected, every written item is counted exactly once as
   * created, updated or skipped, and every other item not at all.
   */
  lemma ConfirmCountsProcessable(products: seq<Doc>, items: seq<BatchItem>, clock: nat -> Instant, k: nat)
    requires k <= |items|
    requires Rejected !in ConfirmRun(products, items, clock, k).1
    ensures var outs := ConfirmRun(products, items, clock, k).1;
      CountOf(outs, Created) + CountOf(outs, Updated) + CountOf(outs, Unchanged) == ProcessableCount(items, k)
  {
    forall p, it, t
      ensures ConfirmStep(p, it, t).1 == Ignored <==> !Processable(it)
    {
      ConfirmStepOutcomes(p, it, t);
    }
    RunCountsProcessable(ConfirmStep, products, items, clock, k);
  }

  /** The counting behind `ConfirmCountsProcessable`, for any step that ignores exactly the unprocessable items. */
  lemma {:induction false} RunCountsProcessable(step: ItemStep, products: seq<Doc>, items: seq<BatchItem>, clock: nat -> Instant, k: nat)
    requires k <= |items|
    requires forall p, it, t :: step(p, it, t).1 == Ignored <==> !Processable(it)
    requires Rejected !in RunWith(step, products, items, clock, k).1
    ensures var outs := RunWith(step, products, items, clock, k).1;
      CountOf(outs, Created) + CountOf(outs, Updated) + CountOf(outs, Unchanged) == ProcessableCount(items, k)
    decreases k
  {
    if k > 0 {
      var prev := RunWith(step, products, items, clock, k - 1);
      assert Rejected !in prev.1;
      RunCountsProcessable(step, products, items, clock, k - 1);
      RunWithNext(step, products, items, clock, k - 1);
      var r := step(prev.0, items[k - 1], clock(k - 1));
      var outs := prev.1 + [r.1];
      assert RunWith(step, products, items, clock, k).1 == outs;
      assert outs[|prev.1|] == r.1;
      assert r.1 != Rejected;
      assert r.1 == Ignored <==> !Processable(items[k - 1]);
      CountOfSnoc(prev.1, r.1, Created);
      CountOfSnoc(prev.1, r.1, Updated);
      CountOfSnoc(prev.1, r.1, Unchanged);
    }
  }

  // ----------------------------------------------------------- the createdAt finding

  /**
   * As written, confirming a row for a SKU already stored rewrites its
   * `createdAt` with the import time: the built document defaults `createdAt`
   * to now before it is compared field by field with the stored one.
   */
  lemma CreatedAtOverwritten(products: seq<Doc>, it: BatchItem, now: Instant, i: nat)
    requires Processable(it) && "createdAt" !in it.payload
    requires FindBySku(products, Strip(SkuText(it.payload))) == Some(i)
    requires "createdAt" in products[i] && products[i]["createdAt"] != Time(now)
    requires ConfirmStep(products, it, now).1 != Rejected
    ensures ConfirmStep(products, it, now).1 == Updated
    ensures ConfirmStep(products, it, now).0[i]["createdAt"] == Time(now)
  {
    var doc := BuildDoc(it.payload, now);
    assert "createdAt" in Changes(products[i], doc);
    ChangesApplied(products[i], doc);
  }

  /**
   * As written, confirming the same row again at a later time never counts it
   * as skipped: the fresh `updatedAt` always differs from the stored one.
   */
  lemma ReimportCountedAsUpdate(products: seq<Doc>, it: BatchItem, t1: Instant, t2: Instant)
    requires UniqueSkus(products)
    requires Processable(it) && SkuText(it.payload) == Strip(SkuText(it.payload))
    requires ConfirmStep(products, it, t1).1 in {Created, Updated, Unchanged}
    requires t1 != t2
    ensures ConfirmStep(ConfirmStep(products, it, t1).0, it, t2).1 in {Updated, Rejected}
  {
    var sku := Strip(SkuText(it.payload));
    var after := ConfirmStep(products, it, t1).0;
    ConfirmStepKeepsUnique(products, it, t1);
    var doc1 := BuildDoc(it.payload, t1);
    var i: nat := match FindBySku(products, sku) case None => |products| case Some(j) => j;
    if i < |products| {
      ChangesApplied(products[i], doc1);
    }
    assert after[i]["updatedAt"] == Time(t1);
    assert HasSku(after[i], sku);
    FoundIsOnly(after, sku, i);
    var doc2 := BuildDoc(it.payload, t2);
    assert "updatedAt" in Changes(after[i], doc2);
  }

  /** The payload fields the confirmation compares: everything the row brings, active and with `nombre_ci`. */
  function ContentOf(payload: Doc): (d: Doc)
    ensures d.Keys == payload.Keys + {"activo"} + (if "nombre" in payload && payload["nombre"].Str? then {"nombre_ci"} else {})
    ensures d["activo"] == Bool(true)
  {
    var withActivo := payload["activo" := Bool(true)];
    if "nombre" in payload && payload["nombre"].Str? then withActivo["nombre_ci" := Str(Lower(payload["nombre"].s))] else withActivo
  }

  /**
   * One item as evidently intended: `createdAt` is written on insert only, the
   * timestamps take no part in deciding whether anything changed, and an
   * update that changes something also stamps `updatedAt`.
   */
  function ConfirmStepIntended(products: seq<Doc>, it: BatchItem, now: Instant): (r: (seq<Doc>, Outcome))
    ensures r.1 == Ignored <==> !Processable(it)
    ensures r.1 in {Ignored, Unchanged, Rejected} ==> r.0 == products
  {
    if !Processable(it) then (products, Ignored)
    else
      var sku := Strip(SkuText(it.payload));
      var content := ContentOf(it.payload);
      match FindBySku(products, sku)
      case None =>
        var doc := content["createdAt" := Time(now)]["updatedAt" := Time(now)];
        if SkuClash(products, doc, None) then (products, Rejected) else (products + [doc], Created)
      case Some(i) =>
        var ch := Changes(products[i], content);
        if ch == map[] then (products, Unchanged)
        else
          var nd := products[i] + ch["updatedAt" := Time(now)];
          if SkuClash(products, nd, Some(i)) then (products, Rejected)
          else (products[i := nd], Updated)
  }

  /** As intended, an update of a stored SKU keeps its `createdAt`. */
  lemma IntendedKeepsCreatedAt(products: seq<Doc>, it: BatchItem, now: Instant, i: nat)
    requires Processable(it) && "createdAt" !in it.payload
    requires FindBySku(products, Strip(SkuText(it.payload))) == Some(i)
    ensures var after := ConfirmStepIntended(products, it, now).0;
      i < |after| && ("createdAt" in products[i] <==> "createdAt" in after[i])
      && ("createdAt" in products[i] ==> after[i]["createdAt"] == products[i]["createdAt"])
  {
    var content := ContentOf(it.payload);
    assert "createdAt" !in content;
    assert "createdAt" !in Changes(products[i], content);
  }

  /** A row confirmed as intended leaves a document holding every field of its content, SKUs still unique. */
  lemma IntendedStoresContent(products: seq<Doc>, it: BatchItem, t1: Instant) returns (i: nat)
    requires UniqueSkus(products)
    requires Processable(it) && "createdAt" !in it.payload && "updatedAt" !in it.payload && "_id" !in it.payload
    requires ConfirmStepIntended(products, it, t1).1 in {Created, Updated, Unchanged}
    ensures var after := ConfirmStepIntended(products, it, t1).0;
      i < |after| && UniqueSkus(after) &&
      forall k :: k in ContentOf(it.payload) ==> k in after[i] && after[i][k] == ContentOf(it.payload)[k]
  {
    match FindBySku(products, Strip(SkuText(it.payload)))
    case None =>
      i := |products|;
      IntendedNewStoresContent(products, it, t1);
    case Some(j) =>
      i := j;
      IntendedFoundStoresContent(products, it, t1, j);
  }

  /** The first confirmation of a SKU appends its content, stamped with both times. */
  lemma IntendedNewStoresContent(products: seq<Doc>, it: BatchItem, t1: Instant)
    requires UniqueSkus(products)
    requires Processable(it) && "createdAt" !in it.payload && "updatedAt" !in it.payload && "_id" !in it.payload
    requires FindBySku(products, Strip(SkuText(it.payload))).None?
    requires ConfirmStepIntended(products, it, t1).1 == Created
    ensures var after := ConfirmStepIntended(products, it, t1).0;
      |products| < |after| && UniqueSkus(after) &&
      forall k :: k in ContentOf(it.payload) ==> k in after[|products|] && after[|products|][k] == ContentOf(it.payload)[k]
  {
    var content := ContentOf(it.payload);
    var doc := content["createdAt" := Time(t1)]["updatedAt" := Time(t1)];
    assert ConfirmStepIntended(products, it, t1).0 == products + [doc];
    AppendKeepsUnique(products, doc);
    forall k | k in content ensures k in doc && doc[k] == content[k] {
      assert k != "createdAt" && k != "updatedAt";
    }
  }

  /** Confirming a stored SKU as intended leaves its document agreeing with the content. */
  lemma IntendedFoundStoresContent(products: seq<Doc>, it: BatchItem, t1: Instant, j: nat)
    requires UniqueSkus(products)
    requires Processable(it) && "updatedAt" !in it.payload && "_id" !in it.payload
    requires FindBySku(products, Strip(SkuText(it.payload))) == Some(j)
    requires ConfirmStepIntended(products, it, t1).1 in {Updated, Unchanged}
    ensures var after := ConfirmStepIntended(products, it, t1).0;
      j < |after| && UniqueSkus(after) &&
      forall k :: k in ContentOf(it.payload) ==> k in after[j] && after[j][k] == ContentOf(it.payload)[k]
  {
    var content := ContentOf(it.payload);
    var current := products[j];
    var ch := Changes(current, content);
    IntendedFoundShape(products, it, t1, j);
    if ch == map[] {
      ChangesApplied(current, content);
    } else {
      var nd := current + ch["updatedAt" := Time(t1)];
      ReplaceKeepsUnique(products, j, nd);
      MergedAgrees(current, content, Time(t1));
    }
  }

  /** What an accepted intended confirmation of a stored SKU leaves behind. */
  lemma IntendedFoundShape(products: seq<Doc>, it: BatchItem, t1: Instant, j: nat)
    requires Processable(it)
    requires FindBySku(products, Strip(SkuText(it.payload))) == Some(j)
    requires ConfirmStepIntended(products, it, t1).1 in {Updated, Unchanged}
    ensures var ch := Changes(products[j], ContentOf(it.payload));
      var nd := products[j] + ch["updatedAt" := Time(t1)];
      ConfirmStepIntended(products, it, t1).0 == (if ch == map[] then products else products[j := nd]) &&
      (ch != map[] ==> !SkuClash(products, nd, Some(j)))
  {
  }

  /** Merging the changes and stamping `updatedAt` leaves the document agreeing with every other field. */
  lemma MergedAgrees(current: Doc, content: Doc, stamp: Value)
    requires "updatedAt" !in content && "_id" !in content
    ensures var nd := current + Changes(current, content)["updatedAt" := stamp];
      forall k :: k in content ==> k in nd && nd[k] == content[k]
  {
    ChangesApplied(current, content);
  }

  /** As intended, confirming the same row a second time, at any time, counts it as skipped. */
  lemma IntendedReimportSkipped(products: seq<Doc>, it: BatchItem, t1: Instant, t2: Instant)
    requires UniqueSkus(products)
    requires Processable(it) && SkuText(it.payload) == Strip(SkuText(it.payload))
    requires "createdAt" !in it.payload && "updatedAt" !in it.payload && "_id" !in it.payload
    requires ConfirmStepIntended(products, it, t1).1 in {Created, Updated, Unchanged}
    ensures ConfirmStepIntended(ConfirmStepIntended(products, it, t1).0, it, t2).1 == Unchanged
  {
    var sku := Strip(SkuText(it.payload));
    var content := ContentOf(it.payload);
    var after := ConfirmStepIntended(products, it, t1).0;
    var i := IntendedStoresContent(products, it, t1);
    assert "sku" in content && content["sku"] == it.payload["sku"];
    assert HasSku(after[i], sku);
    FoundIsOnly(after, sku, i);
    ChangesApplied(after[i], content);
  }

  // ------------------------------------------------------------------ the store

  /**
   * The loop of `confirm_import_batch`: each item in turn is written by `step`
   * and counted, until a write is refused.
   */
  method RunItems(step: ItemStep, start: seq<Doc>, items: seq<BatchItem>, clock: nat -> Instant)
    returns (products: seq<Doc>, rejected: bool, created: nat, updated: nat, skipped: nat)
    ensures var run := RunWith(step, start, items, clock, |items|);
      products == run.0
      && (rejected <==> Rejected in run.1)
      && created == CountOf(run.1, Created) && updated == CountOf(run.1, Updated) && skipped == CountOf(run.1, Unchanged)
  {
    products := start;
    ghost var outs: seq<Outcome> := [];
    created, updated, skipped := 0, 0, 0;
    var k := 0;
    while k < |items|
      invariant 0 <= k <= |items|
      invariant (products, outs) == RunWith(step, start, items, clock, k)
      invariant Rejected !in outs
      invariant created == CountOf(outs, Created) && updated == CountOf(outs, Updated)
      invariant skipped == CountOf(outs, Unchanged)
    {
      var r := step(products, items[k], clock(k));
      RunWithNext(step, start, items, clock, k);
      CountOfSnoc(outs, r.1, Created);
      CountOfSnoc(outs, r.1, Updated);
      CountOfSnoc(outs, r.1, Unchanged);
      if r.1 == Rejected {
        RunStops(step, start, items, clock, k + 1, |items|);
        return r.0, true, created, updated, skipped;
      }
      products := r.0;
      outs := outs + [r.1];
      created, updated, skipped := Tally(r.1, created, updated, skipped);
      k := k + 1;
    }
    rejected := false;
  }

  /** One more item's outcome added to the created, updated and unchanged counters. */
  method Tally(o: Outcome, created: nat, updated: nat, skipped: nat) returns (created': nat, updated': nat, skipped': nat)
    ensures created' == created + (if o == Created then 1 else 0)
    ensures updated' == updated + (if o == Updated then 1 else 0)
    ensures skipped' == skipped + (if o == Unchanged then 1 else 0)
  {
    created', updated', skipped' := created, updated, skipped;
    if o == Created {
      created' := created + 1;
    } else if o == Updated {
      updated' := updated + 1;
    } else if o == Unchanged {
      skipped' := skipped + 1;
    }
  }

  /** The `products` and `import_batches` collections. */
  class ProductsDb {
    var products: seq<Doc>
    var batches: map<string, seq<BatchItem>>

    ghost predicate Valid()
      reads this
    {
      UniqueSkus(products)
    }

    constructor ()
      ensures Valid() && products == [] && batches == map[]
    {
      products := [];
      batches := map[];
    }

    /**
     * `insert_one`: stores the document with `nombre_ci` added, unless the
     * unique index refuses its sku.
     */
    method InsertOne(doc: Doc) returns (r: Result<Doc, RepoError>)
      requires Valid()
      requires "nombre" in doc && doc["nombre"].Str?
      modifies this
      ensures Valid() && batches == old(batches)
      ensures r.Err? <==> SkuClash(old(products), WithNombreCi(doc), None)
      ensures r.Ok? ==> r.value == WithNombreCi(doc) && products == old(products) + [r.value]
      ensures r.Err? ==> products == old(products)
    {
      var stored := WithNombreCi(doc);
      if SkuClash(products, stored, None) {
        return Err(DuplicateKey);
      }
      AppendKeepsUnique(products, stored);
      products := products + [stored];
      r := Ok(stored);
    }

    /**
     * `update_by_id` with a `$set`: an unknown id matches nothing; a write the
     * unique index refuses raises; otherwise the fields are set, and the count
     * is 1 exactly when the document changed.
     */
    method UpdateById(id: nat, fields: Doc) returns (r: Result<nat, RepoError>)
      requires Valid()
      modifies this
      ensures Valid() && batches == old(batches)
      ensures id >= |old(products)| ==> r == Ok(0) && products == old(products)
      ensures id < |old(products)| ==>
        (r.Err? <==> SkuClash(old(products), old(products)[id] + fields, Some(id)))
      ensures id < |old(products)| && r.Ok? ==> products == old(products)[id := old(products)[id] + fields]
                                                && (r.value == 1 <==> old(products)[id] + fields != old(products)[id])
                                                && r.value <= 1
      ensures r.Err? ==> products == old(products)
    {
      if id >= |products| {
        return Ok(0);
      }
      var nd := products[id] + fields;
      if SkuClash(products, nd, Some(id)) {
        return Err(DuplicateKey);
      }
      var modified := if nd != products[id] then 1 else 0;
      ReplaceKeepsUnique(products, id, nd);
      products := products[id := nd];
      r := Ok(modified);
    }

    /** `save_import_batch`: stores the items under a fresh batch id; an id in use is refused. */
    method SaveImportBatch(batchId: string, items: seq<BatchItem>) returns (ok: bool)
      requires Valid()
      modifies this
      ensures Valid() && products == old(products)
      ensures ok <==> batchId !in old(batches)
      ensures batches == if ok then old(batches)[batchId := items] else old(batches)
    {
      if batchId in batches {
        return false;
      }
      batches := batches[batchId := items];
      ok := true;
    }

    /** `delete_import_batch`. */
    method DeleteImportBatch(batchId: string)
      requires Valid()
      modifies this
      ensures Valid() && products == old(products)
      ensures batches == old(batches) - {batchId}
    {
      batches := batches - {batchId};
    }

    /** One `UpdateOne` of the bulk write, applied to the collection. */
    method UpsertOne(d: Doc) returns (o: Outcome)
      requires Valid()
      modifies this
      ensures Valid() && batches == old(batches)
      ensures (products, o) == UpsertDoc(old(products), d)
    {
      var step := UpsertDoc(products, d);
      UpsertKeepsUnique(products, d);
      products := step.0;
      o := step.1;
    }

    /** One pass of the bulk loop: upsert document `k` of the run and count its outcome. */
    method BulkStep(ghost start: seq<Doc>, docs: seq<Doc>, k: nat, ghost outs: seq<Outcome>, created: nat, updated: nat, rejected: bool)
      returns (o: Outcome, created': nat, updated': nat, rejected': bool)
      requires Valid() && k < |docs| && (products, outs) == BulkRun(start, docs, k)
      requires created == CountOf(outs, Created) && updated == CountOf(outs, Updated) && (rejected <==> Rejected in outs)
      modifies this
      ensures Valid() && batches == old(batches)
      ensures (products, outs + [o]) == BulkRun(start, docs, k + 1)
      ensures created' == CountOf(outs + [o], Created) && updated' == CountOf(outs + [o], Updated)
      ensures rejected' <==> Rejected in outs + [o]
    {
      ghost var before := products;
      o := UpsertOne(docs[k]);
      BulkRunNext(UpsertDoc, start, docs, k, before, outs, products, o);
      CountOfSnoc(outs, o, Created);
      CountOfSnoc(outs, o, Updated);
      var skipped;
      created', updated', skipped := Tally(o, created, updated, 0);
      rejected' := rejected || o == Rejected;
    }

    /**
     * `bulk_upsert_products_by_sku`: one upsert per document in list order;
     * it reports the inserted and the modified documents, or raises when the
     * unique index refused any write (the others stay applied).
     */
    method BulkUpsertBySku(docs: seq<Doc>) returns (r: Result<(nat, nat), RepoError>)
      requires Valid()
      modifies this
      ensures Valid() && batches == old(batches)
      ensures products == BulkRun(old(products), docs, |docs|).0
      ensures var outs := BulkRun(old(products), docs, |docs|).1;
        (r.Err? <==> Rejected in outs)
        && (r.Ok? ==> r.value == (CountOf(outs, Created), CountOf(outs, Updated)))
    {
      ghost var start := products;
      ghost var outs: seq<Outcome> := [];
      var created := 0;
      var updated := 0;
      var rejected := false;
      var k := 0;
      while k < |docs|
        invariant 0 <= k <= |docs|
        invariant Valid() && batches == old(batches)
        invariant (products, outs) == BulkRun(start, docs, k)
        invariant created == CountOf(outs, Created) && updated == CountOf(outs, Updated)
        invariant rejected <==> Rejected in outs
      {
        var o;
        o, created, updated, rejected := BulkStep(start, docs, k, outs, created, updated, rejected);
        outs := outs + [o];
        k := k + 1;
      }
      if rejected {
        return Err(DuplicateKey);
      }
      r := Ok((created, updated));
    }

    /**
     * `confirm_import_batch`: a missing batch gives `ok = False` and zero
     * counts; otherwise each item in order, item `j` stamped `clock(j)`, and
     * the batch is deleted. A write the unique index refuses raises, leaving
     * the earlier writes and the batch in place.
     */
    method ConfirmImportBatch(batchId: string, clock: nat -> Instant) returns (r: Result<ConfirmReply, RepoError>)
      requires Valid()
      modifies this
      ensures Valid()
      ensures batchId !in old(batches) ==> r == Ok(ConfirmReply(false, 0, 0, 0)) && products == old(products) && batches == old(batches)
      ensures batchId in old(batches) ==>
        var run := ConfirmRun(old(products), old(batches)[batchId], clock, |old(batches)[batchId]|);
        products == run.0
        && (r.Err? <==> Rejected in run.1)
        && (r.Err? ==> batches == old(batches))
        && (r.Ok? ==> batches == old(batches) - {batchId}
                      && r.value == ConfirmReply(true, CountOf(run.1, Created), CountOf(run.1, Updated), CountOf(run.1, Unchanged)))
    {
      if batchId !in batches {
        return Ok(ConfirmReply(false, 0, 0, 0));
      }
      ConfirmRunKeepsUnique(products, batches[batchId], clock, |batches[batchId]|);
      var after, rejected, created, updated, skipped := RunItems(ConfirmStep, products, batches[batchId], clock);
      products := after;
      if rejected {
        return Err(DuplicateKey);
      }
      batches := batches - {batchId};
      r := Ok(ConfirmReply(true, created, updated, skipped));
    }

  }
}
