/**
 * The encargados (line supervisors) service: an encargado is identified by its
 * name together with its line, and both creation and update refuse a pair that
 * another encargado already holds.
 */
module Encargados {
  import opened Wrappers

  /** An encargado document; its id is its position in the collection. */
  datatype Encargado = Encargado(nombre: string, linea: string, predeterminado: bool)

  /** `EncargadoCreate`, its name and line already stripped and non-blank. */
  datatype CreateIn = CreateIn(nombre: string, linea: string, predeterminado: bool)

  /** `EncargadoUpdate`: the fields to change, each optional. */
  datatype UpdateIn = UpdateIn(nombre: Option<string>, linea: Option<string>, predeterminado: Option<bool>)

  datatype EncargadoError = AlreadyExists | NotFound | Conflict

  /** No two encargados share a (nombre, linea) pair. */
  predicate UniquePairs(xs: seq<Encargado>) {
    forall i, j :: 0 <= i < j < |xs| ==> (xs[i].nombre, xs[i].linea) != (xs[j].nombre, xs[j].linea)
  }

  /** `find_by_nombre_linea`, optionally excluding one id: some encargado holds the pair. */
  predicate PairTaken(xs: seq<Encargado>, nombre: string, linea: string, exclude: Option<nat>) {
    exists i :: 0 <= i < |xs| && Some(i) != exclude && xs[i].nombre == nombre && xs[i].linea == linea
  }

  /** `create_encargado`'s outcome: a taken pair is refused, otherwise the document to insert. */
  function CreateOutcome(xs: seq<Encargado>, p: CreateIn): (r: Result<Encargado, EncargadoError>)
    ensures r.Err? <==> PairTaken(xs, p.nombre, p.linea, None)
    ensures r.Err? ==> r.error == AlreadyExists
    ensures r.Ok? ==> r.value.nombre == p.nombre && r.value.linea == p.linea && r.value.predeterminado == p.predeterminado
  {
    if PairTaken(xs, p.nombre, p.linea, None) then Err(AlreadyExists)
    else Ok(Encargado(p.nombre, p.linea, p.predeterminado))
  }

  /** Creating an encargado never duplicates a pair. */
  lemma CreateKeepsUnique(xs: seq<Encargado>, p: CreateIn)
    requires UniquePairs(xs)
    requires CreateOutcome(xs, p).Ok?
    ensures UniquePairs(xs + [CreateOutcome(xs, p).value])
  {
    var all := xs + [CreateOutcome(xs, p).value];
    forall i, j | 0 <= i < j < |all|
      ensures (all[i].nombre, all[i].linea) != (all[j].nombre, all[j].linea)
    {
      if j == |xs| {
        assert all[i] == xs[i];
      }
    }
  }

  /** `update_data`: no field was supplied. */
  predicate NoChange(u: UpdateIn) {
    u.nombre.None? && u.linea.None? && u.predeterminado.None?
  }

  /** The encargado after `$set: update_data`: each supplied field replaces the stored one. */
  function Merged(e: Encargado, u: UpdateIn): (r: Encargado)
    ensures r.nombre == u.nombre.GetOr(e.nombre) && r.linea == u.linea.GetOr(e.linea)
    ensures r.predeterminado == u.predeterminado.GetOr(e.predeterminado)
    ensures NoChange(u) ==> r == e
  {
    Encargado(u.nombre.GetOr(e.nombre), u.linea.GetOr(e.linea), u.predeterminado.GetOr(e.predeterminado))
  }

  /**
   * `update_encargado`'s outcome: an unknown id is refused; a non-empty update
   * whose merged pair another encargado holds is refused; otherwise the merged
   * document.
   */
  function UpdateOutcome(xs: seq<Encargado>, id: nat, u: UpdateIn): (r: Result<Encargado, EncargadoError>)
    ensures r == Err(NotFound) <==> id >= |xs|
    ensures r == Err(Conflict) <==>
      id < |xs| && !NoChange(u) && PairTaken(xs, Merged(xs[id], u).nombre, Merged(xs[id], u).linea, Some(id))
    ensures r.Ok? ==> id < |xs| && r.value == Merged(xs[id], u)
  {
    if id >= |xs| then Err(NotFound)
    else
      var m := Merged(xs[id], u);
      if !NoChange(u) && PairTaken(xs, m.nombre, m.linea, Some(id)) then Err(Conflict)
      else Ok(m)
  }

  /** An accepted update never duplicates a pair. */
  lemma UpdateKeepsUnique(xs: seq<Encargado>, id: nat, u: UpdateIn)
    requires UniquePairs(xs)
    requires UpdateOutcome(xs, id, u).Ok?
    ensures UniquePairs(xs[id := UpdateOutcome(xs, id, u).value])
  {
    var m := UpdateOutcome(xs, id, u).value;
    var all := xs[id := m];
    forall i, j | 0 <= i < j < |all|
      ensures (all[i].nombre, all[i].linea) != (all[j].nombre, all[j].linea)
    {
      if i == id || j == id {
        var other := if i == id then j else i;
        if NoChange(u) {
          assert m == xs[id];
        } else {
          assert !(xs[other].nombre == m.nombre && xs[other].linea == m.linea);
        }
      }
    }
  }

  /** Re-sending an encargado's own name and line is no conflict: the encargado itself is excluded from the check. */
  lemma OwnPairAccepted(xs: seq<Encargado>, id: nat, p: Option<bool>)
    requires UniquePairs(xs)
    requires id < |xs|
    ensures UpdateOutcome(xs, id, UpdateIn(Some(xs[id].nombre), Some(xs[id].linea), p)).Ok?
  {
    var u := UpdateIn(Some(xs[id].nombre), Some(xs[id].linea), p);
    var m := Merged(xs[id], u);
    forall i | 0 <= i < |xs| && Some(i) != Some(id)
      ensures !(xs[i].nombre == m.nombre && xs[i].linea == m.linea)
    {
      if i < id {
        assert (xs[i].nombre, xs[i].linea) != (xs[id].nombre, xs[id].linea);
      } else {
        assert (xs[id].nombre, xs[id].linea) != (xs[i].nombre, xs[i].linea);
      }
    }
  }

  /** The encargados collection. */
  class EncargadoStore {
    var encargados: seq<Encargado>

    ghost predicate Valid()
      reads this
    {
      UniquePairs(encargados)
    }

    constructor ()
      ensures Valid() && encargados == []
    {
      encargados := [];
    }

    /** `create_encargado`: inserts the encargado unless its pair is taken. */
    method CreateEncargado(p: CreateIn) returns (r: Result<Encargado, EncargadoError>)
      requires Valid()
      modifies this
      ensures Valid()
      ensures r == CreateOutcome(old(encargados), p)
      ensures encargados == if r.Ok? then old(encargados) + [r.value] else old(encargados)
    {
      if PairTaken(encargados, p.nombre, p.linea, None) {
        return Err(AlreadyExists);
      }
      var doc := Encargado(p.nombre, p.linea, p.predeterminado);
      CreateKeepsUnique(encargados, p);
      encargados := encargados + [doc];
      r := Ok(doc);
    }

    /** `update_encargado`: applies the supplied fields after the conflict check. */
    method UpdateEncargado(id: nat, u: UpdateIn) returns (r: Result<Encargado, EncargadoError>)
      requires Valid()
      modifies this
      ensures Valid()
      ensures r == UpdateOutcome(old(encargados), id, u)
      ensures encargados == if r.Ok? then old(encargados)[id := r.value] else old(encargados)
    {
      if id >= |encargados| {
        return Err(NotFound);
      }
      var current := encargados[id];
      var nombre := current.nombre;
      var linea := current.linea;
      var predeterminado := current.predeterminado;
      var any := false;
      if u.nombre.Some? {
        nombre := u.nombre.value;
        any := true;
      }
      if u.linea.Some? {
        linea := u.linea.value;
        any := true;
      }
      if u.predeterminado.Some? {
        predeterminado := u.predeterminado.value;
        any := true;
      }
      if any && PairTaken(encargados, nombre, linea, Some(id)) {
        return Err(Conflict);
      }
      var updated := Encargado(nombre, linea, predeterminado);
      assert updated == Merged(current, u);
      UpdateKeepsUnique(encargados, id, u);
      encargados := encargados[id := updated];
      r := Ok(updated);
    }
  }
}
