/**
 * The recipe repository: the `recipes` collection with its per-document updates,
 * and the `staging_recipes` collection that CSV imports fill and promotion reads.
 */
module RecipeRepo {
  import opened Wrappers
  import opened Text
  import opened Calendar
  import opened Catalog
  import opened Recipes

  /**
   * The `recipes` collection, addressed by the PT each recipe belongs to. The
   * repository addresses documents by `_id`; the only writers that insert
   * (`create_recipe` and promotion) first look the PT up and insert only when no
   * recipe exists, so without concurrent requests there is one recipe per PT and
   * the PT identifies the document.
   */
  class RecipeStore {
    var recipes: map<ObjectId, Recipe>

    ghost predicate Valid()
      reads this
    {
      forall pt :: pt in recipes ==> recipes[pt].productPTId == pt
    }

    constructor ()
      ensures Valid() && recipes == map[]
    {
      recipes := map[];
    }

    /** `find_by_pt_id`. */
    method FindByPtId(pt: ObjectId) returns (doc: Option<Recipe>)
      ensures doc.Some? <==> pt in recipes
      ensures doc.Some? ==> doc.value == recipes[pt]
    {
      doc := if pt in recipes then Some(recipes[pt]) else None;
    }

    /** `insert_recipe`: stores the document and returns it as read back. */
    method InsertRecipe(r: Recipe) returns (doc: Recipe)
      requires Valid() && r.productPTId !in recipes
      modifies this
      ensures Valid() && recipes == old(recipes)[r.productPTId := r] && doc == r
    {
      recipes := recipes[r.productPTId := r];
      doc := r;
    }

    /** `update_version_estado`, then the document as read back. */
    method UpdateVersionEstado(pt: ObjectId, n: int, e: string, at: Instant) returns (doc: Option<Recipe>)
      requires Valid()
      modifies this
      ensures Valid()
      ensures recipes == if pt in old(recipes) then old(recipes)[pt := SetEstado(old(recipes)[pt], n, e, at)] else old(recipes)
      ensures doc == if pt in recipes then Some(recipes[pt]) else None
    {
      if pt in recipes {
        recipes := recipes[pt := SetEstado(recipes[pt], n, e, at)];
      }
      doc := if pt in recipes then Some(recipes[pt]) else None;
    }

    /** `clear_vigente_version`. */
    method ClearVigenteVersion(pt: ObjectId, at: Instant) returns (doc: Option<Recipe>)
      requires Valid()
      modifies this
      ensures Valid()
      ensures recipes == if pt in old(recipes) then old(recipes)[pt := ClearVigente(old(recipes)[pt], at)] else old(recipes)
      ensures doc == if pt in recipes then Some(recipes[pt]) else None
    {
      if pt in recipes {
        recipes := recipes[pt := ClearVigente(recipes[pt], at)];
      }
      doc := if pt in recipes then Some(recipes[pt]) else None;
    }

    /** `push_recipe_version`. */
    method PushRecipeVersion(pt: ObjectId, v: Version, marcar: bool, at: Instant) returns (doc: Option<Recipe>)
      requires Valid()
      modifies this
      ensures Valid()
      ensures recipes == if pt in old(recipes) then old(recipes)[pt := PushVersion(old(recipes)[pt], v, marcar, at)] else old(recipes)
      ensures doc == if pt in recipes then Some(recipes[pt]) else None
    {
      if pt in recipes {
        recipes := recipes[pt := PushVersion(recipes[pt], v, marcar, at)];
      }
      doc := if pt in recipes then Some(recipes[pt]) else None;
    }

    /** `set_recipe_meta`. */
    method SetRecipeMeta(pt: ObjectId, vigente: Option<int>, at: Instant) returns (doc: Option<Recipe>)
      requires Valid()
      modifies this
      ensures Valid()
      ensures recipes == if pt in old(recipes) then old(recipes)[pt := SetMeta(old(recipes)[pt], vigente, at)] else old(recipes)
      ensures doc == if pt in recipes then Some(recipes[pt]) else None
    {
      if pt in recipes {
        recipes := recipes[pt := SetMeta(recipes[pt], vigente, at)];
      }
      doc := if pt in recipes then Some(recipes[pt]) else None;
    }

    /** `update_version_fields` with the fields `update_version_full` builds. */
    method UpdateVersionFields(pt: ObjectId, n: int, p: VersionPatch, at: Instant) returns (doc: Option<Recipe>)
      requires Valid()
      modifies this
      ensures Valid()
      ensures recipes == if pt in old(recipes) then old(recipes)[pt := PatchVersion(old(recipes)[pt], n, p, at)] else old(recipes)
      ensures doc == if pt in recipes then Some(recipes[pt]) else None
    {
      if pt in recipes {
        recipes := recipes[pt := PatchVersion(recipes[pt], n, p, at)];
      }
      doc := if pt in recipes then Some(recipes[pt]) else None;
    }

    /** `replace_version_components`. */
    method ReplaceVersionComponents(pt: ObjectId, n: int, cs: seq<Component>, at: Instant) returns (doc: Option<Recipe>)
      requires Valid()
      modifies this
      ensures Valid()
      ensures recipes == if pt in old(recipes) then old(recipes)[pt := ReplaceComponents(old(recipes)[pt], n, cs, at)] else old(recipes)
      ensures doc == if pt in recipes then Some(recipes[pt]) else None
    {
      if pt in recipes {
        recipes := recipes[pt := ReplaceComponents(recipes[pt], n, cs, at)];
      }
      doc := if pt in recipes then Some(recipes[pt]) else None;
    }

    /** Promotion's overwrite: `$set` of `versiones.{i}` and `audit.updatedAt`. */
    method ReplaceVersion(pt: ObjectId, i: nat, v: Version, at: Instant)
      requires Valid() && pt in recipes && i < |recipes[pt].versiones|
      modifies this
      ensures Valid()
      ensures recipes == old(recipes)[pt := ReplaceVersionAt(old(recipes)[pt], i, v, at)]
    {
      recipes := recipes[pt := ReplaceVersionAt(recipes[pt], i, v, at)];
    }
  }

  // ------------------------------------------------------------------ staging

  /** The columns a staged row may keep. */
  const StagingAllowed: set<string> := {
    "sku_PT", "version", "estado", "marcar_vigente", "base_qty", "unidad_PT",
    "sku_MP", "cantidad_por_base", "unidad_MP", "merma_pct",
    "process_codigo", "process_especial_nombre", "process_especial_costo",
    "fecha_publicacion", "publicado_por", "notas"}

  /** A CSV row as read: column name and cell text, None for a cell missing from a short line. */
  type RawRow = seq<(string, Option<string>)>

  /** A staged document: its batch and its cleaned cells. */
  datatype StagedRow = StagedRow(batchId: string, fields: map<string, Option<string>>)

  function StripValue(v: Option<string>): Option<string> {
    if v.Some? then Some(Strip(v.value)) else None
  }

  /** Each cell with its column name and its text stripped. */
  function StripCells(raw: RawRow): (cells: RawRow)
    ensures |cells| == |raw|
    ensures forall i :: 0 <= i < |raw| ==> cells[i] == (Strip(raw[i].0), StripValue(raw[i].1))
  {
    seq(|raw|, i requires 0 <= i < |raw| => (Strip(raw[i].0), StripValue(raw[i].1)))
  }

  /**
   * The loop of `_clean_row` over stripped cells: a cell is kept when its name is
   * allowed, and a later cell with the same name replaces an earlier one.
   */
  function KeepAllowed(cells: RawRow, allowed: set<string>): (d: map<string, Option<string>>)
    ensures forall k :: k in d ==> k in allowed
  {
    if cells == [] then map[]
    else
      var n := |cells| - 1;
      var d := KeepAllowed(cells[..n], allowed);
      if cells[n].0 in allowed then d[cells[n].0 := cells[n].1] else d
  }

  /** `_clean_row`. */
  function CleanRow(raw: RawRow): map<string, Option<string>> {
    KeepAllowed(StripCells(raw), StagingAllowed)
  }

  /** The kept names are exactly the allowed names some cell carries. */
  lemma {:induction false} KeepAllowedKeys(cells: RawRow, allowed: set<string>, k: string)
    ensures k in KeepAllowed(cells, allowed) <==> k in allowed && exists i :: 0 <= i < |cells| && cells[i].0 == k
  {
    if cells != [] {
      var n := |cells| - 1;
      var p := cells[..n];
      KeepAllowedKeys(p, allowed, k);
      if exists i :: 0 <= i < n && p[i].0 == k {
        var i :| 0 <= i < n && p[i].0 == k;
        assert cells[i].0 == k;
      } else if cells[n].0 != k {
        forall i | 0 <= i < |cells| ensures cells[i].0 != k {
          if i < n { assert cells[i] == p[i]; }
        }
      }
    }
  }

  /** The value kept for a name is that of the last cell with that name. */
  lemma {:induction false} KeepAllowedLastWins(cells: RawRow, allowed: set<string>, i: nat)
    requires i < |cells| && cells[i].0 in allowed
    requires forall j :: i < j < |cells| ==> cells[j].0 != cells[i].0
    ensures cells[i].0 in KeepAllowed(cells, allowed) && KeepAllowed(cells, allowed)[cells[i].0] == cells[i].1
  {
    var n := |cells| - 1;
    if i < n {
      var p := cells[..n];
      assert p[i] == cells[i];
      forall j | i < j < n ensures p[j].0 != p[i].0 {
        assert p[j] == cells[j];
      }
      KeepAllowedLastWins(p, allowed, i);
    }
  }

  /**
   * `_clean_row` keeps a stripped column name exactly when it is allowed, and under
   * it the stripped text of the last column with that name.
   */
  lemma CleanRowSpec(raw: RawRow)
    ensures forall k :: k in CleanRow(raw) <==> k in StagingAllowed && exists i :: 0 <= i < |raw| && Strip(raw[i].0) == k
  {
    var cells := StripCells(raw);
    forall k ensures k in CleanRow(raw) <==> k in StagingAllowed && exists i :: 0 <= i < |raw| && Strip(raw[i].0) == k {
      KeepAllowedKeys(cells, StagingAllowed, k);
      if exists i :: 0 <= i < |cells| && cells[i].0 == k {
        var i :| 0 <= i < |cells| && cells[i].0 == k;
        assert Strip(raw[i].0) == k;
      }
    }
  }

  /** Under an allowed name, `_clean_row` keeps the stripped text of the last column with that name. */
  lemma CleanRowLastWins(raw: RawRow)
    ensures forall i :: (0 <= i < |raw| && Strip(raw[i].0) in StagingAllowed &&
                         (forall j :: i < j < |raw| ==> Strip(raw[j].0) != Strip(raw[i].0))) ==>
        Strip(raw[i].0) in CleanRow(raw) && CleanRow(raw)[Strip(raw[i].0)] == StripValue(raw[i].1)
  {
    var cells := StripCells(raw);
    forall i | 0 <= i < |raw| && Strip(raw[i].0) in StagingAllowed &&
      (forall j :: i < j < |raw| ==> Strip(raw[j].0) != Strip(raw[i].0))
      ensures Strip(raw[i].0) in CleanRow(raw) && CleanRow(raw)[Strip(raw[i].0)] == StripValue(raw[i].1)
    {
      KeepAllowedLastWins(cells, StagingAllowed, i);
    }
  }

  /** `d.get(key)` is truthy: present, not null and not empty. */
  predicate Present(d: map<string, Option<string>>, key: string) {
    key in d && d[key].Some? && d[key].value != []
  }

  predicate Keeps(raw: RawRow) {
    Present(CleanRow(raw), "sku_PT") && Present(CleanRow(raw), "version")
  }

  /**
   * The documents `stage_insert_rows` writes: the cleaned rows that have both an
   * `sku_PT` and a `version`, in order, each tagged with the batch.
   */
  function Staged(raws: seq<RawRow>, batch: string): (r: seq<StagedRow>)
    ensures |r| <= |raws|
    ensures forall i :: 0 <= i < |r| ==>
      r[i].batchId == batch && Present(r[i].fields, "sku_PT") && Present(r[i].fields, "version")
  {
    if raws == [] then []
    else
      var n := |raws| - 1;
      var p := Staged(raws[..n], batch);
      if Keeps(raws[n]) then p + [StagedRow(batch, CleanRow(raws[n]))] else p
  }

  /** The rows dropped with a warning, in order. */
  function Dropped(raws: seq<RawRow>): (r: seq<RawRow>)
    ensures forall i :: 0 <= i < |r| ==> !Keeps(r[i])
  {
    if raws == [] then []
    else
      var n := |raws| - 1;
      var p := Dropped(raws[..n]);
      if Keeps(raws[n]) then p else p + [raws[n]]
  }

  /** Every input row is either staged or warned about, never both. */
  lemma {:induction false} StagedPartition(raws: seq<RawRow>, batch: string)
    ensures |Staged(raws, batch)| + |Dropped(raws)| == |raws|
  {
    if raws != [] {
      StagedPartition(raws[..|raws| - 1], batch);
    }
  }

  /** The staged documents of one batch, in insertion order. */
  function InBatch(rows: seq<StagedRow>, batch: string): (r: seq<StagedRow>)
    ensures |r| <= |rows| && forall i :: 0 <= i < |r| ==> r[i].batchId == batch
  {
    if rows == [] then []
    else
      var n := |rows| - 1;
      var p := InBatch(rows[..n], batch);
      if rows[n].batchId == batch then p + [rows[n]] else p
  }

  /** The staged documents of every other batch. */
  function OutsideBatch(rows: seq<StagedRow>, batch: string): (r: seq<StagedRow>)
    ensures |r| <= |rows| && forall i :: 0 <= i < |r| ==> r[i].batchId != batch
  {
    if rows == [] then []
    else
      var n := |rows| - 1;
      var p := OutsideBatch(rows[..n], batch);
      if rows[n].batchId == batch then p else p + [rows[n]]
  }

  function Min(a: int, b: int): int { if a < b then a else b }

  /** The `staging_recipes` collection, in insertion order. */
  class StagingStore {
    var rows: seq<StagedRow>

    constructor ()
      ensures rows == []
    {
      rows := [];
    }

    /**
     * `stage_insert_rows`: appends the rows that have `sku_PT` and `version`,
     * returns how many, and one warning (the raw row) per dropped row.
     */
    method StageInsertRows(raws: seq<RawRow>, batch: string) returns (inserted: nat, warnings: seq<RawRow>)
      modifies this
      ensures rows == old(rows) + Staged(raws, batch)
      ensures inserted == |Staged(raws, batch)|
      ensures warnings == Dropped(raws) && inserted + |warnings| == |raws|
    {
      var docs: seq<StagedRow> := [];
      warnings := [];
      var i := 0;
      while i < |raws|
        invariant 0 <= i <= |raws|
        invariant docs == Staged(raws[..i], batch)
        invariant warnings == Dropped(raws[..i])
      {
        assert raws[..i + 1][..i] == raws[..i];
        var d := CleanRow(raws[i]);
        if !(Present(d, "sku_PT") && Present(d, "version")) {
          warnings := warnings + [raws[i]];
        } else {
          docs := docs + [StagedRow(batch, d)];
        }
        i := i + 1;
      }
      assert raws[..i] == raws;
      StagedPartition(raws, batch);
      rows := rows + docs;
      inserted := |docs|;
    }

    /** `stage_status`: how many rows the batch holds, and its first five. */
    method StageStatus(batch: string) returns (total: nat, sample: seq<StagedRow>)
      ensures total == |InBatch(rows, batch)|
      ensures sample == InBatch(rows, batch)[..Min(5, total)]
    {
      total, sample := 0, [];
      var i := 0;
      while i < |rows|
        invariant 0 <= i <= |rows|
        invariant total == |InBatch(rows[..i], batch)|
        invariant sample == InBatch(rows[..i], batch)[..Min(5, total)]
      {
        assert rows[..i + 1][..i] == rows[..i];
        if rows[i].batchId == batch {
          if total < 5 {
            sample := sample + [rows[i]];
          }
          total := total + 1;
        }
        i := i + 1;
      }
      assert rows[..i] == rows;
    }

    /** `stage_clear`: removes the batch's rows and returns how many there were. */
    method StageClear(batch: string) returns (deleted: nat)
      modifies this
      ensures rows == OutsideBatch(old(rows), batch)
      ensures deleted == |InBatch(old(rows), batch)|
    {
      var kept: seq<StagedRow> := [];
      deleted := 0;
      var i := 0;
      while i < |rows|
        invariant 0 <= i <= |rows|
        invariant kept == OutsideBatch(rows[..i], batch)
        invariant deleted == |InBatch(rows[..i], batch)|
      {
        assert rows[..i + 1][..i] == rows[..i];
        if rows[i].batchId == batch {
          deleted := deleted + 1;
        } else {
          kept := kept + [rows[i]];
        }
        i := i + 1;
      }
      assert rows[..i] == rows;
      rows := kept;
    }
  }
}
