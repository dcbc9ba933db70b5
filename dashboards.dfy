/**
 * The production dashboard: per-SKU totals of the successful declaration and
 * consumption events of one work order, and the net quantity per declared SKU.
 */
module Dashboards {
  import opened Wrappers
  import opened Text

  /** A declaration or consumption event: its work order key, its status and its quantity per SKU. */
  datatype SkuEvent = SkuEvent(workOrder: string, status: string, skus: map<string, real>)

  /** `m.get(k, 0)`. */
  function Get(m: map<string, real>, k: string): real {
    if k in m then m[k] else 0.0
  }

  /** The `$match` stage: the event belongs to the work order and succeeded. */
  predicate Counts(e: SkuEvent, workOrder: string) {
    e.workOrder == workOrder && e.status == "SUCCESS"
  }

  /** One more event's quantities added into the running per-SKU totals. */
  function AddTotals(acc: map<string, real>, skus: map<string, real>): (r: map<string, real>)
    ensures r.Keys == acc.Keys + skus.Keys
    ensures forall k :: k in r ==> r[k] == Get(acc, k) + Get(skus, k)
  {
    map k | k in acc.Keys + skus.Keys :: Get(acc, k) + Get(skus, k)
  }

  /**
   * `_sum_skus_by_work_order`: the `$unwind`/`$group` pipeline as a fold over
   * the events in collection order; a SKU appears once some counted event lists it.
   */
  function SumSkus(events: seq<SkuEvent>, workOrder: string): (r: map<string, real>)
    ensures forall k :: k in r <==> exists i :: 0 <= i < |events| && Counts(events[i], workOrder) && k in events[i].skus
    decreases |events|
  {
    if events == [] then map[]
    else
      var init := events[..|events| - 1];
      var e := events[|events| - 1];
      var acc := SumSkus(init, workOrder);
      assert forall i :: 0 <= i < |init| ==> init[i] == events[i];
      if Counts(e, workOrder) then AddTotals(acc, e.skus) else acc
  }

  /** The total of one SKU over the counted events, summed from the first event on. */
  function Total(events: seq<SkuEvent>, workOrder: string, k: string): real
    decreases |events|
  {
    if events == [] then 0.0
    else (if Counts(events[0], workOrder) then Get(events[0].skus, k) else 0.0) + Total(events[1..], workOrder, k)
  }

  lemma {:induction false} TotalSnoc(events: seq<SkuEvent>, e: SkuEvent, workOrder: string, k: string)
    ensures Total(events + [e], workOrder, k) == Total(events, workOrder, k) + (if Counts(e, workOrder) then Get(e.skus, k) else 0.0)
    decreases |events|
  {
    if events == [] {
      assert (events + [e])[1..] == [];
    } else {
      assert (events + [e])[1..] == events[1..] + [e];
      TotalSnoc(events[1..], e, workOrder, k);
    }
  }

  /** Every SKU's total is the sum of its quantities over the successful events of that work order. */
  lemma {:induction false} SumSkusIsTotal(events: seq<SkuEvent>, workOrder: string, k: string)
    ensures Get(SumSkus(events, workOrder), k) == Total(events, workOrder, k)
    decreases |events|
  {
    if events != [] {
      var init := events[..|events| - 1];
      var e := events[|events| - 1];
      SumSkusIsTotal(init, workOrder, k);
      assert init + [e] == events;
      TotalSnoc(init, e, workOrder, k);
    }
  }

  /** An event of another work order, or one that did not succeed, changes no total. */
  lemma UncountedEventIgnored(events: seq<SkuEvent>, e: SkuEvent, workOrder: string)
    requires !Counts(e, workOrder)
    ensures SumSkus(events + [e], workOrder) == SumSkus(events, workOrder)
  {
    assert (events + [e])[..|events|] == events;
  }

  /** The net quantity of a declared SKU: minus what was consumed, if anything was. */
  function NetValue(declare: map<string, real>, consume: map<string, real>, k: string): real
    requires k in declare
  {
    if k in consume then declare[k] - consume[k] else declare[k]
  }

  /**
   * The net map: only declared SKUs, each declared minus consumed, and no entry
   * whose net is exactly zero.
   */
  function NetOf(declare: map<string, real>, consume: map<string, real>): (r: map<string, real>)
    ensures r.Keys <= declare.Keys
    ensures forall k :: k in r ==> r[k] != 0.0
    ensures forall k :: k in declare ==> (k in r <==> NetValue(declare, consume, k) != 0.0)
    ensures forall k :: k in r ==> r[k] == NetValue(declare, consume, k)
  {
    map k | k in declare && NetValue(declare, consume, k) != 0.0 :: NetValue(declare, consume, k)
  }

  /** A SKU that was only consumed never shows up in the net map. */
  lemma ConsumedOnlyIgnored(declare: map<string, real>, consume: map<string, real>, k: string)
    requires k in consume && k !in declare
    ensures k !in NetOf(declare, consume)
  {
  }

  /** Copies the declared totals and subtracts each consumed total in place, then drops exact zeros. */
  method NetSkus(declare: map<string, real>, consume: map<string, real>) returns (net: map<string, real>)
    ensures net == NetOf(declare, consume)
  {
    net := declare;
    var pending := consume.Keys;
    while pending != {}
      invariant pending <= consume.Keys
      invariant net.Keys == declare.Keys
      invariant forall k :: k in net ==>
        net[k] == (if k in consume && k !in pending then declare[k] - consume[k] else declare[k])
      decreases pending
    {
      var k :| k in pending;
      if k in net {
        net := net[k := net[k] - consume[k]];
      }
      pending := pending - {k};
    }
    net := map k | k in net && net[k] != 0.0 :: net[k];
  }

  /** The OT argument as the endpoint receives it. */
  datatype OtArg = OtMissing | OtNumber(n: int) | OtText(text: string)

  datatype DashboardError = OtRequired | OtNotInteger

  /** The work order key the events carry: "OT-" and the decimal number. */
  function WorkOrderKey(ot: int): string {
    "OT-" + IntToDecimal(ot)
  }

  /** Distinct OTs have distinct work order keys. */
  lemma WorkOrderKeyInjective(a: int, b: int)
    requires WorkOrderKey(a) == WorkOrderKey(b)
    ensures a == b
  {
    assert WorkOrderKey(a)[3..] == IntToDecimal(a);
    assert WorkOrderKey(b)[3..] == IntToDecimal(b);
    ParseIntRoundTrip(a);
    ParseIntRoundTrip(b);
  }

  /** `int(ot)`. */
  function OtValue(ot: OtArg): (r: Result<int, DashboardError>)
    ensures r == Err(OtRequired) <==> ot.OtMissing?
    ensures ot.OtNumber? ==> r == Ok(ot.n)
    ensures ot.OtText? ==> (r.Ok? <==> ParseInt(ot.text).Some?) && (r.Ok? ==> Some(r.value) == ParseInt(ot.text))
  {
    match ot
    case OtMissing => Err(OtRequired)
    case OtNumber(n) => Ok(n)
    case OtText(t) => if ParseInt(t).Some? then Ok(ParseInt(t).value) else Err(OtNotInteger)
  }

  /**
   * `get_net_skus_by_ot`: the OT is required and integral; the net map of its
   * work order's declared and consumed totals.
   */
  method GetNetSkusByOt(declareEvents: seq<SkuEvent>, consumeEvents: seq<SkuEvent>, ot: OtArg)
    returns (r: Result<map<string, real>, DashboardError>)
    ensures r.Err? <==> OtValue(ot).Err?
    ensures r.Err? ==> r.error == OtValue(ot).error
    ensures r.Ok? ==> r.value == NetOf(SumSkus(declareEvents, WorkOrderKey(OtValue(ot).value)),
                                       SumSkus(consumeEvents, WorkOrderKey(OtValue(ot).value)))
  {
    var otInt := OtValue(ot);
    if otInt.Err? {
      return Err(otInt.error);
    }
    var workOrder := WorkOrderKey(otInt.value);
    var declareTotals := SumSkus(declareEvents, workOrder);
    var consumeTotals := SumSkus(consumeEvents, workOrder);
    var net := NetSkus(declareTotals, consumeTotals);
    r := Ok(net);
  }
}
