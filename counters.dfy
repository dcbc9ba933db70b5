/**
 * The counters collection: named integer sequences that are read, overwritten,
 * bumped, and lowered only while they stay at or above a floor. Each update is
 * a single `find_one_and_update` without upsert, so an unknown counter is never
 * created and the call answers None.
 */
module Counters {
  import opened Wrappers

  /** The `seq` field of every counter document, by `_id`. */
  type Seqs = map<string, int>

  /** `$set: {seq}` on an existing counter. */
  function SetSeq(seqs: Seqs, id: string, value: int): (r: Option<Seqs>)
    ensures r.Some? <==> id in seqs
    ensures r.Some? ==> r.value.Keys == seqs.Keys && r.value[id] == value
    ensures r.Some? ==> forall k :: k in seqs && k != id ==> r.value[k] == seqs[k]
  {
    if id in seqs then Some(seqs[id := value]) else None
  }

  /** `$inc: {seq: step}` on an existing counter. */
  function Incremented(seqs: Seqs, id: string, step: int): (r: Option<Seqs>)
    ensures r.Some? <==> id in seqs
    ensures r.Some? ==> r.value.Keys == seqs.Keys && r.value[id] - seqs[id] == step
    ensures r.Some? ==> forall k :: k in seqs && k != id ==> r.value[k] == seqs[k]
  {
    if id in seqs then Some(seqs[id := seqs[id] + step]) else None
  }

  /**
   * `decrement_seq`: the filter `seq >= floor + step` admits the update, which
   * then lowers the counter by `step`; a counter that would drop below the
   * floor, or that does not exist, is left alone.
   */
  function Decremented(seqs: Seqs, id: string, step: int, floor: int): (r: Option<Seqs>)
    ensures r.Some? <==> id in seqs && seqs[id] - step >= floor
    ensures r.Some? ==> r.value.Keys == seqs.Keys && seqs[id] - r.value[id] == step && r.value[id] >= floor
    ensures r.Some? ==> forall k :: k in seqs && k != id ==> r.value[k] == seqs[k]
  {
    if id in seqs && seqs[id] >= floor + step then Some(seqs[id := seqs[id] - step]) else None
  }

  /** Lowering a counter that started at or above the floor, after raising it by the same step, restores it. */
  lemma IncrementThenDecrementRestores(seqs: Seqs, id: string, step: int, floor: int)
    requires id in seqs && seqs[id] >= floor
    ensures Incremented(seqs, id, step).Some?
    ensures Decremented(Incremented(seqs, id, step).value, id, step, floor) == Some(seqs)
  {
    var up := Incremented(seqs, id, step).value;
    assert up[id] == seqs[id] + step;
    assert up[id := up[id] - step] == seqs;
  }

  /** A decrement that is refused on one counter is refused for every larger step with the same floor. */
  lemma RefusalIsMonotone(seqs: Seqs, id: string, step: int, larger: int, floor: int)
    requires step <= larger
    requires Decremented(seqs, id, step, floor).None?
    ensures Decremented(seqs, id, larger, floor).None?
  {
  }

  /** The counters collection, holding the current value of each counter. */
  class CounterStore {
    var seqs: Seqs

    constructor (initial: Seqs)
      ensures seqs == initial
    {
      seqs := initial;
    }

    /** `find_by_id`: the counter's value, or None. */
    method FindById(id: string) returns (r: Option<int>)
      ensures r.Some? <==> id in seqs
      ensures r.Some? ==> r.value == seqs[id]
    {
      if id in seqs {
        r := Some(seqs[id]);
      } else {
        r := None;
      }
    }

    /** `update_seq`: overwrites an existing counter and returns its new value. */
    method UpdateSeq(id: string, value: int) returns (r: Option<int>)
      modifies this
      ensures r.Some? <==> old(id in seqs)
      ensures r.Some? ==> r.value == value
      ensures seqs == SetSeq(old(seqs), id, value).GetOr(old(seqs))
    {
      var next := SetSeq(seqs, id, value);
      if next.Some? {
        seqs := next.value;
        r := Some(value);
      } else {
        r := None;
      }
    }

    /** `increment_seq`: adds `step` to an existing counter and returns its new value. */
    method IncrementSeq(id: string, step: int) returns (r: Option<int>)
      modifies this
      ensures r.Some? <==> old(id in seqs)
      ensures r.Some? ==> r.value == old(seqs[id]) + step
      ensures seqs == Incremented(old(seqs), id, step).GetOr(old(seqs))
    {
      var next := Incremented(seqs, id, step);
      if next.Some? {
        seqs := next.value;
        r := Some(seqs[id]);
      } else {
        r := None;
      }
    }

    /** `decrement_seq`: lowers the counter by `step` only while it stays at or above `floor`. */
    method DecrementSeq(id: string, step: int, floor: int) returns (r: Option<int>)
      modifies this
      ensures r.Some? <==> old(id in seqs && seqs[id] >= floor + step)
      ensures r.Some? ==> r.value == old(seqs[id]) - step && r.value >= floor
      ensures seqs == Decremented(old(seqs), id, step, floor).GetOr(old(seqs))
    {
      var next := Decremented(seqs, id, step, floor);
      if next.Some? {
        seqs := next.value;
        r := Some(seqs[id]);
      } else {
        r := None;
      }
    }
  }
}
