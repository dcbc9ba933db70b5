/**
 * The component merge shared by recipe creation, version updates and CSV
 * promotion: lines are merged by key in an insertion-ordered dict, quantities are
 * summed, and the unit and merma of the first line for a key are kept.
 */
module Aggregation {
  import opened Wrappers

  /** One input line: quantity, unit and merma percentage. */
  datatype Line = Line(qty: real, unidad: Option<string>, merma: real)

  /** A merge in progress: keys in first-seen order and the merged line of each key. */
  datatype Merge<K> = Merge(keys: seq<K>, lines: map<K, Line>)

  /** The key list has no repeats and names exactly the merged keys. */
  predicate WellFormed<K(==)>(m: Merge<K>) {
    (forall i, j :: 0 <= i < j < |m.keys| ==> m.keys[i] != m.keys[j]) &&
    (forall i :: 0 <= i < |m.keys| ==> m.keys[i] in m.lines) &&
    (forall k :: k in m.lines ==> k in m.keys)
  }

  /**
   * Add one line (`agg.get(key, {..., 0.0, unidad, merma})` then `+= qty`): an unseen key
   * starts at 0.0 with this line's unit and merma; a seen key only adds the quantity.
   */
  function Step<K(==)>(m: Merge<K>, k: K, l: Line): Merge<K> {
    if k in m.lines then Merge(m.keys, m.lines[k := m.lines[k].(qty := m.lines[k].qty + l.qty)])
    else Merge(m.keys + [k], m.lines[k := Line(0.0 + l.qty, l.unidad, l.merma)])
  }

  /** The merge of a list of keyed lines, taken in order. */
  function Fold<K(==)>(items: seq<(K, Line)>): Merge<K> {
    if items == [] then Merge([], map[])
    else
      var n := |items| - 1;
      Step(Fold(items[..n]), items[n].0, items[n].1)
  }

  /** `list(agg.values())`: the merged lines in first-seen key order. */
  function Values<K(==)>(m: Merge<K>): seq<(K, Line)>
    requires WellFormed(m)
  {
    seq(|m.keys|, i requires 0 <= i < |m.keys| => (m.keys[i], m.lines[m.keys[i]]))
  }

  // Reference definitions the merge is proved against.

  predicate Occurs<K(==)>(items: seq<(K, Line)>, k: K) {
    exists i :: 0 <= i < |items| && items[i].0 == k
  }

  /** The total quantity given for `k`. */
  function SumFor<K(==)>(items: seq<(K, Line)>, k: K): real {
    if items == [] then 0.0
    else
      var n := |items| - 1;
      SumFor(items[..n], k) + (if items[n].0 == k then items[n].1.qty else 0.0)
  }

  /** The position of the first line for `k`. */
  function FirstIndex<K(==)>(items: seq<(K, Line)>, k: K): (r: nat)
    requires Occurs(items, k)
    ensures r < |items| && items[r].0 == k
    ensures forall j :: 0 <= j < r ==> items[j].0 != k
  {
    if items[0].0 == k then 0
    else
      assert Occurs(items[1..], k) by {
        var i :| 0 <= i < |items| && items[i].0 == k;
        assert items[1..][i - 1].0 == k;
      }
      1 + FirstIndex(items[1..], k)
  }

  lemma FirstIndexIs<K>(items: seq<(K, Line)>, k: K, r: nat)
    requires r < |items| && items[r].0 == k
    requires forall j :: 0 <= j < r ==> items[j].0 != k
    ensures Occurs(items, k) && FirstIndex(items, k) == r
  {
  }

  lemma {:induction false} SumForAbsent<K>(items: seq<(K, Line)>, k: K)
    requires !Occurs(items, k)
    ensures SumFor(items, k) == 0.0
  {
    if items != [] {
      var n := |items| - 1;
      assert !Occurs(items[..n], k);
      SumForAbsent(items[..n], k);
    }
  }

  /** A key occurs in a list extended by one line iff it occurs before or is that line's key. */
  lemma OccursSnoc<K>(items: seq<(K, Line)>, k: K)
    requires items != []
    ensures Occurs(items, k) <==> Occurs(items[..|items| - 1], k) || items[|items| - 1].0 == k
  {
    var n := |items| - 1;
    if Occurs(items, k) && items[n].0 != k {
      var i :| 0 <= i < |items| && items[i].0 == k;
      assert items[..n][i].0 == k;
    }
    if Occurs(items[..n], k) {
      var i :| 0 <= i < n && items[..n][i].0 == k;
      assert items[i].0 == k;
    }
  }

  /** Extending a list leaves the first position of an earlier key where it was. */
  lemma FirstIndexSnocOld<K>(items: seq<(K, Line)>, k: K)
    requires items != [] && Occurs(items[..|items| - 1], k)
    ensures Occurs(items, k) && FirstIndex(items, k) == FirstIndex(items[..|items| - 1], k)
  {
    var p := items[..|items| - 1];
    var f := FirstIndex(p, k);
    assert items[f] == p[f];
    forall j | 0 <= j < f ensures items[j].0 != k {
      assert items[j] == p[j];
    }
    FirstIndexIs(items, k, f);
  }

  /** A key first seen in the last line is first at the end. */
  lemma FirstIndexSnocNew<K>(items: seq<(K, Line)>, k: K)
    requires items != [] && !Occurs(items[..|items| - 1], k) && items[|items| - 1].0 == k
    ensures Occurs(items, k) && FirstIndex(items, k) == |items| - 1
  {
    var n := |items| - 1;
    var p := items[..n];
    forall j | 0 <= j < n ensures items[j].0 != k {
      assert items[j] == p[j];
    }
    FirstIndexIs(items, k, n);
  }

  lemma FirstIndexSnoc<K>(items: seq<(K, Line)>, k: K)
    requires items != [] && (Occurs(items[..|items| - 1], k) || items[|items| - 1].0 == k)
    ensures Occurs(items, k)
    ensures FirstIndex(items, k) == if Occurs(items[..|items| - 1], k) then FirstIndex(items[..|items| - 1], k) else |items| - 1
  {
    if Occurs(items[..|items| - 1], k) {
      FirstIndexSnocOld(items, k);
    } else {
      FirstIndexSnocNew(items, k);
    }
  }

  /** The merge's keys are distinct and are exactly the keys that occur in the input. */
  lemma {:induction false} FoldKeys<K>(items: seq<(K, Line)>)
    ensures WellFormed(Fold(items))
    ensures forall k :: k in Fold(items).lines <==> Occurs(items, k)
  {
    if items != [] {
      var n := |items| - 1;
      FoldKeys(items[..n]);
      forall k ensures k in Fold(items).lines <==> Occurs(items, k) {
        OccursSnoc(items, k);
      }
    }
  }

  /** Each merged quantity is the total given for its key. */
  lemma {:induction false} FoldQuantity<K>(items: seq<(K, Line)>)
    ensures forall k :: k in Fold(items).lines ==> Fold(items).lines[k].qty == SumFor(items, k)
  {
    if items != [] {
      var n := |items| - 1;
      var p, x := items[..n], items[n];
      FoldQuantity(p);
      FoldKeys(p);
      if x.0 !in Fold(p).lines {
        SumForAbsent(p, x.0);
      }
    }
  }

  /** Each merged unit and merma are those of the key's first line. */
  lemma {:induction false} FoldFirstLine<K>(items: seq<(K, Line)>)
    ensures forall k :: k in Fold(items).lines ==>
      Occurs(items, k) &&
      Fold(items).lines[k].unidad == items[FirstIndex(items, k)].1.unidad &&
      Fold(items).lines[k].merma == items[FirstIndex(items, k)].1.merma
  {
    FoldKeys(items);
    if items != [] {
      var n := |items| - 1;
      var p := items[..n];
      FoldFirstLine(p);
      FoldKeys(p);
      forall k | k in Fold(items).lines
        ensures Fold(items).lines[k].unidad == items[FirstIndex(items, k)].1.unidad
        ensures Fold(items).lines[k].merma == items[FirstIndex(items, k)].1.merma
      {
        FirstIndexSnoc(items, k);
      }
    }
  }

  /** The merge lists keys in the order of their first appearance. */
  lemma {:induction false} FoldOrder<K>(items: seq<(K, Line)>)
    ensures WellFormed(Fold(items))
    ensures forall k :: k in Fold(items).lines <==> Occurs(items, k)
    ensures forall i, j :: 0 <= i < j < |Fold(items).keys| ==>
      FirstIndex(items, Fold(items).keys[i]) < FirstIndex(items, Fold(items).keys[j])
  {
    FoldKeys(items);
    if items != [] {
      var n := |items| - 1;
      var p := items[..n];
      FoldOrder(p);
      FoldKeys(p);
      var ks := Fold(items).keys;
      forall i | 0 <= i < |ks|
        ensures Occurs(items, ks[i])
        ensures FirstIndex(items, ks[i]) == (if i < |Fold(p).keys| then FirstIndex(p, Fold(p).keys[i]) else n)
      {
        assert ks[i] in Fold(items).lines;
        OccursSnoc(items, ks[i]);
        assert Occurs(p, ks[i]) || items[n].0 == ks[i];
        FirstIndexSnoc(items, ks[i]);
      }
    }
  }

  /**
   * The merge holds one entry per distinct key, in order of first appearance; each
   * entry's quantity is the sum of that key's quantities, and its unit and merma
   * are those of the key's first line.
   */
  lemma FoldSpec<K>(items: seq<(K, Line)>)
    ensures WellFormed(Fold(items))
    ensures forall k :: k in Fold(items).lines <==> Occurs(items, k)
    ensures forall k :: k in Fold(items).lines ==> Fold(items).lines[k].qty == SumFor(items, k)
    ensures forall k :: k in Fold(items).lines ==>
      Fold(items).lines[k].unidad == items[FirstIndex(items, k)].1.unidad &&
      Fold(items).lines[k].merma == items[FirstIndex(items, k)].1.merma
    ensures forall i, j :: 0 <= i < j < |Fold(items).keys| ==>
      FirstIndex(items, Fold(items).keys[i]) < FirstIndex(items, Fold(items).keys[j])
  {
    FoldKeys(items);
    FoldQuantity(items);
    FoldFirstLine(items);
    FoldOrder(items);
  }

  /** The merged values list has no two entries for the same key. */
  lemma ValuesDistinct<K>(items: seq<(K, Line)>)
    ensures WellFormed(Fold(items))
    ensures forall i, j :: 0 <= i < j < |Values(Fold(items))| ==> Values(Fold(items))[i].0 != Values(Fold(items))[j].0
  {
    FoldSpec(items);
  }
}
