# Manufacturing operations back office — Dafny model

This project models the core of a manufacturing back office that keeps the
following in a document store:

- a product catalogue;
- bills of materials ("recetas") with several versions per finished product;
- work orders ("OT") and production-tracking entries ("gestión OT producción");
- users, owners ("encargados") and audit logs.

It also talks to an external warehouse system (WMS) and ingests production
events from an object store.

Three engines sit at the centre of the model:

- **Recipe version engine.** It merges components by SKU, summing quantities;
  the first unit seen wins. It also:
  - creates recipes;
  - adds, updates and replaces versions;
  - moves versions through the `borrador` / `vigente` / `obsoleta` lifecycle,
    keeping at most one `vigente` version, to which `vigenteVersion` points.
- **Batch promotion engine.** CSV rows are staged under a batch id. The engine
  groups them by (PT, version), resolves the SKUs against the catalogue and
  builds version documents. It then inserts them, or merges them into the
  stored recipes, under the dry-run and overwrite policies, counting every
  outcome.
- **Valuation engine.** It costs a version under a chosen price column,
  scaling quantities by the production factor and applying merma (waste).

Around these engines sit the rest of the model:

- the recipe store and the staging store;
- the recipe endpoints, including disabling and enabling versions and
  converting documents to their output form;
- work-order creation and the CSV import that feeds the WMS;
- the exclude-SKU filter;
- production entries and the daily close;
- the product import, confirm and patch flow, together with the family table
  it resolves against;
- the dashboard SKU fold and the counters;
- users, roles and login;
- owners and logs;
- the key and event logic of the object-store sync.

**How the source becomes Dafny:**

- Every stored collection is a `class` whose fields hold `seq`s or `map`s of
  documents. Each repository call is one method that changes those fields
  atomically. Its `ensures` ties the new state to a pure function of the old
  one. The properties are then proved as lemmas about those functions.
- The pure parts of the source are datatypes, functions and lemmas: parsing,
  normalisation, key building and the role chain.
- Loops that accumulate results are `method`s with loop invariants, proved
  against recursive specification functions.

**External behaviour enters as parameters:**

- the clock (`now`);
- float parsing;
- `round(x, 6)`;
- date parsing for a given format;
- password hashing and verification;
- the WMS send outcome;
- the JSON loaded for an object key.

## Model

| member | source | states |
|---|---|---|
| Parsing.Trunc | app/api/v1/products.py:108-114 | `int(float)` truncates toward zero: for a non-negative input the result is the floor, for a negative one the ceiling |
| Parsing.FirstParse | app/services/WO.py:36-62 | the first format in the given order whose parser accepts the text wins; later formats are never consulted |
| Catalog.ProductBySku | app/db/repositories/recipes_repo.py:54-56 | a hit is a stored product with that sku; a miss means no product has it |
| Catalog.PtBySku | app/db/repositories/recipes_repo.py:58-60 | a hit is a product with that sku and tipo "PT"; a miss means no such PT exists |
| Repository.WrapUpdate | app/db/repositories/products_repo.py:34-40 | the result always uses an operator; an update with a `$` key passes unchanged; any other becomes a single `$set` of the whole update |
| Repository.WrapUpdateIdempotent | app/db/repositories/products_repo.py:34-40 | wrapping an already wrapped update changes nothing |
| Repository.FirstBadDirection | app/db/repositories/products_repo.py:43-58 | names the first field whose direction is neither 1 nor -1, and none when every direction is valid |
| Repository.NormalizeSort | app/db/repositories/products_repo.py:43-58 | no sort gives none; an invalid direction is an error naming the first offending field; otherwise the pairs are kept in order |
| Text.Strip | app/domain/familias_map.py:58-59 | `str.strip()` over Python's whitespace (ASCII controls, NEL, NBSP and the Unicode separators): neither end of the result is whitespace, it is empty exactly when the input is all whitespace, and trimmed text comes back as is |
| Text.StrippedOrNone | app/services/users_service.py:49 | `(x or "").strip() or None`: none for absent or blank text, else the stripped text |
| Text.RStrip | app/utils/declarept_s3_sync.py:166-168 | `rstrip(c)`: the result is a prefix of the input that does not end with `c`, and everything removed was `c` |
| Text.NatToDecimal | app/services/dashboards.py:33-40 | `str(n)` gives a non-empty run of ASCII digits without a leading zero (except for 0) |
| Text.ParseIntRoundTrip | app/services/dashboards.py:33-40 | `int(str(n)) == n` for every integer |
| Calendar.DayWindow | app/services/gestion_ot_prod.py:172-175 | an instant lies in [start of day, start of next day) exactly when its date is that day |
| Calendar.DayStartRoundTrip | app/services/WO.py:101-102 | the date of the stored midnight instant is the stored day |
| Calendar.DayStartMonotone | app/services/WO.py:101-102 | storing dates as midnight instants keeps their order both ways |
| Calendar.NormalizeDate | app/services/WO.py:36-62 | none and blank text are "required" errors; a date is kept, a datetime gives its date; text is parsed by the first accepting format in the source's order, else an "invalid" error |
| Calendar.NormalizeTime | app/services/gestion_ot_prod.py:51-66 | none and blank text are errors; a time is kept; text is parsed by "%H:%M:%S" then "%H:%M", else an error |
| Calendar.FormatHourMinute | app/services/gestion_ot_prod.py:144 | the stored delivery time is five characters "HH:MM" |
| Calendar.HourMinuteRoundTrip | app/services/gestion_ot_prod.py:144 | the two digit fields of the stored "HH:MM" text read back as the same hour and minute |
| Aggregation.FirstIndex | app/services/recipes_service.py:127-144 | the position of a key's first line: that line has the key and no earlier one does |
| Aggregation.OccursSnoc | app/services/recipes_service.py:127-144 | a key occurs in a list extended by a line iff it occurred before or is that line's key |
| Aggregation.FirstIndexSnoc | app/services/recipes_service.py:127-144 | extending the input keeps the first position of every earlier key and puts a new key at the end |
| Aggregation.FoldKeys | app/services/recipes_service.py:127-144 | the merged keys are distinct and are exactly the keys that occur in the input |
| Aggregation.FoldQuantity | app/services/recipes_service.py:127-144 | each merged quantity is the sum of that key's input quantities |
| Aggregation.FoldFirstLine | app/services/recipes_service.py:127-144 | each merged unit and merma are those of the key's first line |
| Aggregation.FoldOrder | app/services/recipes_service.py:127-144 | merged keys are listed in the order of their first appearance |
| Aggregation.FoldSpec | app/services/recipes_service.py:127-144 | one merged entry per distinct key, in first-appearance order, with summed quantity and first unit and merma |
| Aggregation.ValuesDistinct | app/services/recipes_service.py:127-144 | `agg.values()` never holds two entries for the same key |
| Recipes.VersionIndex | app/db/repositories/recipes_repo.py:87-99 | the positional `$` of a query on `versiones.version` selects the first version with that number; none exactly when no version has it |
| Recipes.Numbers | app/db/repositories/recipes_repo.py:87-99 | the version numbers in stored order, one per version |
| Recipes.SameNumbersKeep | app/db/repositories/recipes_repo.py:247-275 | an update that keeps the version numbers and `vigenteVersion` keeps the numbers distinct and `vigenteVersion` naming a stored version |
| Recipes.SetEstado | app/db/repositories/recipes_repo.py:87-99 | only the estado of the first version with the number changes, plus `updatedAt`; with no such version the document is untouched |
| Recipes.ClearVigente | app/db/repositories/recipes_repo.py:101-111 | `vigenteVersion` is removed (not zeroed), versions stay as they were and `updatedAt` is refreshed |
| Recipes.SetMeta | app/db/repositories/recipes_repo.py:233-245 | `vigenteVersion` changes only when a value is given; `updatedAt` always changes; versions stay |
| Recipes.PushVersion | app/db/repositories/recipes_repo.py:215-231 | the version is appended, earlier versions are unchanged, and `vigenteVersion` moves to it only when `marcar_vigente` is set |
| Recipes.ReplaceComponents | app/db/repositories/recipes_repo.py:261-275 | the matching version's components are replaced whole and every other version is unchanged; with no match nothing changes |
| Recipes.PatchedVersion | app/services/recipes_service.py:255-307 | a field is overwritten exactly when the update supplies it; a supplied proceso sets the three process fields together |
| Recipes.PatchVersion | app/db/repositories/recipes_repo.py:247-259 | only the first version with the number is patched, plus `updatedAt`; with no match nothing changes |
| Recipes.ReplaceVersionAt | app/services/recipes_service.py:586-590 | promotion's overwrite replaces the version at one position whole and leaves the others and `vigenteVersion` alone |
| Recipes.PushVersionKeeps | app/db/repositories/recipes_repo.py:215-231 | appending a version with a fresh number keeps version numbers distinct and `vigenteVersion` valid |
| Recipes.ReplaceVersionAtKeeps | app/services/recipes_service.py:586-590 | replacing a version by one with the same number keeps version numbers distinct and `vigenteVersion` valid |
| Recipes.PushVersionCanBreakVigente | app/db/repositories/recipes_repo.py:228-229 | an example where marking a pushed version current leaves two versions "vigente", since the old one is not demoted |
| Recipes.ParseEstado | app/models/recipes.py:6 | exactly "borrador", "vigente" and "obsoleta" are accepted, each as its own estado |
| Recipes.MermaOf | app/models/recipes.py:9-13 | a null merma is 0, a given one is kept, and none is negative |
| Recipes.ProcesoVerdict | app/models/recipes.py:15-24 | as written: sending a special name makes the validator fail; otherwise only a negative cost is refused |
| Recipes.ProcesoVerdictIntended | app/models/recipes.py:15-24 | as intended: accepted iff any cost is non-negative and comes with a process code or a special name |
| Recipes.CostWithoutNameAccepted | app/models/recipes.py:20-23 | a cost with neither code nor name passes as written but is refused as intended |
| Recipes.ProcesoVerdictNeverXor | app/models/recipes.py:20-23 | as written, no request with a non-negative cost is ever refused for lacking a code or name |
| RecipeRepo.RecipeStore.FindByPtId | app/db/repositories/recipes_repo.py:198-204 | returns the stored recipe for that PT, and none exactly when there is none |
| RecipeRepo.RecipeStore.InsertRecipe | app/db/repositories/recipes_repo.py:206-213 | the recipe is stored under its PT and returned as read back; nothing else changes |
| RecipeRepo.RecipeStore.UpdateVersionEstado | app/db/repositories/recipes_repo.py:87-99 | the stored recipe becomes `SetEstado` of itself; an unknown PT changes nothing and reads back none |
| RecipeRepo.RecipeStore.ClearVigenteVersion | app/db/repositories/recipes_repo.py:101-111 | the stored recipe becomes `ClearVigente` of itself; nothing else changes |
| RecipeRepo.RecipeStore.PushRecipeVersion | app/db/repositories/recipes_repo.py:215-231 | the stored recipe becomes `PushVersion` of itself; nothing else changes |
| RecipeRepo.RecipeStore.SetRecipeMeta | app/db/repositories/recipes_repo.py:233-245 | the stored recipe becomes `SetMeta` of itself; nothing else changes |
| RecipeRepo.RecipeStore.UpdateVersionFields | app/db/repositories/recipes_repo.py:247-259 | the stored recipe becomes `PatchVersion` of itself; nothing else changes |
| RecipeRepo.RecipeStore.ReplaceVersionComponents | app/db/repositories/recipes_repo.py:261-275 | the stored recipe becomes `ReplaceComponents` of itself; nothing else changes |
| RecipeRepo.RecipeStore.ReplaceVersion | app/services/recipes_service.py:586-590 | the stored recipe becomes `ReplaceVersionAt` of itself; nothing else changes |
| RecipeRepo.StripCells | app/db/repositories/recipes_repo.py:288-297 | each cell keeps its place with its name stripped and its text value stripped |
| RecipeRepo.KeepAllowed | app/db/repositories/recipes_repo.py:288-297 | only allowed names are kept |
| RecipeRepo.KeepAllowedKeys | app/db/repositories/recipes_repo.py:288-297 | a name is kept iff it is allowed and some cell carries it |
| RecipeRepo.KeepAllowedLastWins | app/db/repositories/recipes_repo.py:288-297 | under a kept name is the value of the last cell with that name |
| RecipeRepo.CleanRowSpec | app/db/repositories/recipes_repo.py:281-297 | `_clean_row` keeps a name iff it is in `_STAGING_ALLOWED` and is the stripped name of some column |
| RecipeRepo.CleanRowLastWins | app/db/repositories/recipes_repo.py:288-297 | under an allowed name `_clean_row` keeps the stripped text of the last column with that name |
| RecipeRepo.Staged | app/db/repositories/recipes_repo.py:299-313 | every staged row carries the batch id and a present `sku_PT` and `version`, and there are no more staged rows than input rows |
| RecipeRepo.Dropped | app/db/repositories/recipes_repo.py:306-308 | every dropped row lacks `sku_PT` or `version` |
| RecipeRepo.StagedPartition | app/db/repositories/recipes_repo.py:299-313 | every input row is either staged or warned about: the two counts add up to the input |
| RecipeRepo.InBatch | app/db/repositories/recipes_repo.py:315-322 | only rows of the batch are selected |
| RecipeRepo.OutsideBatch | app/db/repositories/recipes_repo.py:324-327 | only rows of other batches are kept |
| RecipeRepo.StagingStore.StageInsertRows | app/db/repositories/recipes_repo.py:299-313 | appends exactly the staged rows, returns their count, and one warning per dropped row |
| RecipeRepo.StagingStore.StageStatus | app/db/repositories/recipes_repo.py:315-322 | the batch's row count and its first five rows, with the store unchanged |
| RecipeRepo.StagingStore.StageClear | app/db/repositories/recipes_repo.py:324-327 | removes exactly the batch's rows and returns how many were removed |
| RecipeRepo.RecipeStore.constructor | app/db/repositories/recipes_repo.py:38-43 | an empty recipe collection, which satisfies the store invariant |
| RecipeRepo.StagingStore.constructor | app/db/repositories/recipes_repo.py:278-279 | an empty staging collection |
| RecipeService.NormalizePublication | app/services/recipes_service.py:18-57 | none or blank text is the start of today; a date is its midnight, a datetime is kept; text goes to the first format that accepts it; anything else is an error |
| RecipeService.PublicationOf | app/services/recipes_service.py:22-28 | a given date is stored as its UTC midnight, and a missing one as today's |
| RecipeService.FirstUnknown | app/services/recipes_service.py:128-131 | the first component whose skuMP is not in the catalog, before which every sku is known; none exactly when all are known |
| RecipeService.Items | app/services/recipes_service.py:128-141 | one keyed line per component, in order, keyed by the resolved product id |
| RecipeService.ToComponents | app/services/recipes_service.py:144 | `list(agg.values())`: one component per merged key, in key order, with that key's line |
| RecipeService.MergeLine | app/services/recipes_service.py:133-143 | the dict update of one component is one step of the merge fold |
| RecipeService.AggregateComponents | app/services/recipes_service.py:127-144 | the loop computes the merge of the resolved lines, or the error naming the first unknown skuMP |
| RecipeService.ItemsSnoc | app/services/recipes_service.py:128-143 | resolving one more component extends the merge by one fold step |
| RecipeService.AggregatedSpec | app/services/recipes_service.py:127-144 | one entry per resolved product id, ids distinct, each quantity the sum of that id's inputs, and unit and merma from its first occurrence |
| RecipeService.NewProcessFields | app/services/recipes_service.py:114-124 | on create/add a code sets only processId and only when it resolves (an unresolved code is dropped); without a code the special name (when truthy) and cost are kept |
| RecipeService.UpdatedProcessFields | app/services/recipes_service.py:277-289 | on update a code must resolve (else an error) and clears both special fields; without a code processId becomes none and the special fields are taken as given |
| RecipeService.ProcessFieldsExclusive | app/services/recipes_service.py:114-124 | a stored processId never comes with a special name or cost, on create and on update |
| RecipeService.NewVersion | app/services/recipes_service.py:104-112 | the version document carries the requested number, estado and the aggregated components |
| RecipeService.CreateOutcome | app/services/recipes_service.py:88-157 | fails iff the SKU is not a PT or a recipe exists, and otherwise with the first unknown `skuMP` iff the version cannot be built; on success the recipe holds exactly the built version (`BuiltVersion`), `vigenteVersion` comes from the explicit value or from estado "vigente" with marcarVigente, and both audit times are now |
| RecipeService.BuiltVersion | app/services/recipes_service.py:100-144 | the version document fails iff some `skuMP` is unknown, naming the first; otherwise every field is set: number, estado, publication day (today when absent), publisher, base quantity, PT unit, process fields, and the merged components |
| RecipeService.BuiltComponentsMerged | app/services/recipes_service.py:126-144 | the built components have distinct product ids, each with the summed quantity of its lines, and every requested product appears |
| RecipeService.CostOnlyProcessCreated | app/models/recipes.py:15-24 | a cost-only process block passes the schema and is stored with its cost and no name or code |
| RecipeService.CreateRecipe | app/services/recipes_service.py:88-157 | returns `CreateOutcome` and stores the new recipe only on success |
| RecipeService.CreateCanPointAtMissingVersion | app/services/recipes_service.py:149-151 | an explicit vigenteVersion is stored even when no version has that number |
| RecipeService.AddOutcome | app/services/recipes_service.py:159-227 | fails iff the PT is unknown, the recipe is missing, or the number exists, and otherwise with the first unknown `skuMP` iff the version cannot be built; on success the result is the stored recipe with the built version pushed (`PushVersion`) |
| RecipeService.AddVersion | app/services/recipes_service.py:159-227 | returns `AddOutcome` and stores the result only on success |
| RecipeService.AddOutcomeKeeps | app/services/recipes_service.py:169-171 | a successful add keeps version numbers distinct and `vigenteVersion` valid, and leaves earlier versions as they were |
| RecipeService.SetVigenteOutcome | app/services/recipes_service.py:377-423 | fails iff the PT, recipe or version is missing; otherwise the three writes of `set_vigente` |
| RecipeService.SetVigente | app/services/recipes_service.py:377-423 | returns `SetVigenteOutcome` and stores the result only on success |
| RecipeService.WriteSetVigente | app/services/recipes_service.py:395-421 | the three store writes leave the recipe as `SetVigenteDoc` describes and touch no other recipe |
| RecipeService.SetVigenteEffect | app/services/recipes_service.py:391-421 | the target becomes "vigente", the version named by the old `vigenteVersion` (if different) "obsoleta", `vigenteVersion` the target, and every other version is unchanged |
| RecipeService.UniqueIndex | app/db/repositories/recipes_repo.py:87-99 | with distinct numbers, the positional `$` picks a version exactly when it has the number |
| RecipeService.SetVigenteKeepsInvariants | app/services/recipes_service.py:379-380 | from a recipe whose only "vigente" version is the pointed one, set_vigente keeps that, a valid `vigenteVersion` and distinct numbers |
| RecipeService.VigenteMoveKeeps | app/services/recipes_service.py:398-421 | any update that moves `vigenteVersion`, promotes the target and demotes the old `vigenteVersion` keeps the single-vigente invariant |
| RecipeService.SetVigenteLeavesStrayVigente | app/services/recipes_service.py:406-413 | a "vigente" version the old `vigenteVersion` does not name stays "vigente" beside the new one |
| RecipeService.BuildPatch | app/services/recipes_service.py:259-307 | each patch field is set exactly when supplied; an error comes only from an unresolved process code or an unknown component |
| RecipeService.UpdateOutcome | app/services/recipes_service.py:247-311 | fails iff the PT, recipe or version is missing, or the patch cannot be built; otherwise the patch is applied to that version |
| RecipeService.BuildVersionPatch | app/services/recipes_service.py:259-307 | the loop builds exactly `BuildPatch` |
| RecipeService.UpdateVersionFull | app/services/recipes_service.py:247-311 | returns `UpdateOutcome` and stores the result only on success |
| RecipeService.UpdateWritesOnlySupplied | app/services/recipes_service.py:255-307 | only the target version changes, each field not supplied keeps its value, a supplied component list becomes the aggregated list, and `vigenteVersion` and numbers stay |
| RecipeService.ReplaceOutcome | app/services/recipes_service.py:313-347 | fails iff the PT, recipe or version is missing or a component is unknown; otherwise the version's components become the aggregated list |
| RecipeService.ReplaceComponentes | app/services/recipes_service.py:313-347 | returns `ReplaceOutcome` and stores the result only on success |
| RecipeApi.RecipeBySku | app/services/recipes_service.py:349-357 | succeeds iff the SKU is a PT with a stored recipe, returning it; otherwise "PT not found" or "recipe missing" |
| RecipeApi.DisableCurrentOutcome | app/api/v1/recipes.py:331-361 | a lookup failure is a 404; otherwise the recipe after disable-current |
| RecipeApi.DisableCurrentVigente | app/api/v1/recipes.py:331-361 | returns `DisableCurrentOutcome` and stores the result only on success |
| RecipeApi.DisableCurrentEffect | app/api/v1/recipes.py:344-361 | without a `vigenteVersion` the recipe is returned unchanged; otherwise the pointed version becomes "obsoleta", `vigenteVersion` is unset, and every other version stays |
| RecipeApi.DisableSpecificOutcome | app/api/v1/recipes.py:374-407 | a lookup failure is a 404; an unknown version number is a 422 with no write; otherwise the recipe after disable-specific |
| RecipeApi.DisableSpecificVersion | app/api/v1/recipes.py:374-407 | returns `DisableSpecificOutcome` and stores the result only on success |
| RecipeApi.DisableSpecificEffect | app/api/v1/recipes.py:389-407 | the version becomes "obsoleta"; `vigenteVersion` is cleared only when it named that version, else kept; every other version stays |
| RecipeApi.DisableKeepsInvariants | app/api/v1/recipes.py:331-407 | both disable handlers keep "only the pointed version is vigente" and a valid `vigenteVersion` |
| RecipeApi.EnableOutcome | app/api/v1/recipes.py:314-329 | a version below the body's lower bound is a 422; otherwise the result of `set_vigente`, its errors mapped to 422 |
| RecipeApi.EnableRecipe | app/api/v1/recipes.py:314-329 | delegates to `set_vigente` with the body's version (at least 1) and stores the result only on success |
| RecipeApi.EnableSpecificVersion | app/api/v1/recipes.py:363-372 | delegates to `set_vigente` with the path's version and stores the result only on success |
| RecipeApi.BsonToPy | app/api/v1/recipes.py:40-48 | the result holds no ObjectId and has the input's list and dict shape, keys included |
| RecipeApi.BsonToPyIdentity | app/api/v1/recipes.py:40-48 | a value without ids is returned unchanged |
| RecipeApi.BsonToPyIdempotent | app/api/v1/recipes.py:40-48 | converting twice is converting once |
| RecipeApi.KeyIndex | app/api/v1/recipes.py:53 | the position of a key in a dict; none exactly when the key is absent |
| RecipeApi.Without | app/api/v1/recipes.py:54 | `pop`: the key is gone and every other entry is kept |
| RecipeApi.WithoutDistinct | app/api/v1/recipes.py:54 | removing a key keeps the keys distinct |
| RecipeApi.PutKey | app/api/v1/recipes.py:54 | `d[k] = v`: keys stay distinct, `k` maps to `v`, and every other entry is kept, nothing added |
| RecipeApi.ConvertedFields | app/api/v1/recipes.py:47 | a converted dict has the same keys in the same order, each value converted and free of ids |
| RecipeApi.PopIdPut | app/api/v1/recipes.py:53-54 | after moving `_id` to `id`: no `_id`, `id` holds the old `_id` value, and every other entry is kept |
| RecipeApi.ToOutDictClean | app/api/v1/recipes.py:50-55 | the output dict has distinct keys and no ObjectId anywhere |
| RecipeApi.ToOutDictWithoutId | app/api/v1/recipes.py:50-55 | a document without `_id` is only converted |
| RecipeApi.ToOutDictMovesId | app/api/v1/recipes.py:53-54 | with `_id` present, the output has no `_id` and its `id` holds the converted `_id` |
| RecipeApi.ToOutDictKeepsFields | app/api/v1/recipes.py:50-55 | every other field (except an `id` that the move overwrites) appears converted in the output |
| Valuation.NumOrZero | app/services/recipes_valuation.py:11-16 | a finite number is kept; an absent, unparseable, NaN or infinite value gives 0 |
| Valuation.UnitCost | app/services/recipes_valuation.py:18-38 | "pneto" uses pneto falling back to last; "piva" uses piva, else round6(pneto×1.19) when pneto > 0, else last; any other method uses last falling back to pneto |
| Valuation.UnitCostSource | app/services/recipes_valuation.py:18-38 | a unit cost is 0, one of the product's own cost fields, or the rounded pneto×1.19 of the piva fallback |
| Valuation.ComponentLine | app/services/recipes_valuation.py:70-167 | an invalid or unknown productId gives an all-zero line and one warning; otherwise the line carries the unit cost, qty_eff = round6(qty×(1+merma/100)), subtotal = round6(qty_eff×unit cost), a blank-sku warning iff the sku is blank, and a cost warning iff the unit cost is 0 |
| Valuation.Breakdown | app/services/recipes_valuation.py:70-188 | exactly one breakdown line per component |
| Valuation.BreakdownLines | app/services/recipes_valuation.py:70-188 | the i-th breakdown line is the line of the i-th component, in order |
| Valuation.ValueOf | app/services/recipes_valuation.py:190-196 | one line per component, the process cost is only the special cost (0 when absent), and total = round6(round6(Σ subtotals) + process cost) |
| Valuation.ProcessIdIgnored | app/services/recipes_valuation.py:190-193 | changing the version's processId never changes the valuation |
| Valuation.Valuate | app/services/recipes_valuation.py:49-59 | a missing PT, recipe or version is an error, and only those; otherwise the valuation of the first version with that number |
| Valuation.PriceComponents | app/services/recipes_valuation.py:63-188 | the loop builds exactly `Breakdown`'s lines and warnings |
| Valuation.PreviewValuation | app/services/recipes_valuation.py:40-210 | returns `Valuate` |
| Valuation.ValueVersion | app/services/recipes_valuation.py:212-226 | returns `Valuate` whatever the persist flag |
| Valuation.ValuePersistEndpoint | app/api/v1/recipes.py:268-283 | always values with "pneto", whatever method the body names |
| Valuation.ValuePreviewEndpoint | app/api/v1/recipes.py:248-266 | values with the method the body names |
| Valuation.ValuationLines | app/services/recipes_valuation.py:70-167 | a successful valuation has one line per component of the chosen version, priced from the catalog when the product exists and all zero otherwise |
| Promotion.ToBool | app/services/recipes_service.py:427-430 | none is false; a true result means the stripped, lower-cased text is one of the true words |
| Promotion.ToBoolWords | app/services/recipes_service.py:427-430 | each listed true word reads as true, and a missing value as false |
| Promotion.FiniteNum | app/services/recipes_service.py:505-506 | a special cost is kept only when present and finite, as its parsed value |
| Promotion.ToNum | app/services/recipes_service.py:432-437 | a finite parse is the value; a missing, unparseable or non-finite value gives the default |
| Promotion.RowKeys | app/services/recipes_service.py:451-452 | each row's key is (stripped sku_PT, truncated version), row by row |
| Promotion.GroupKeysExact | app/services/recipes_service.py:450-459 | the group keys are distinct and are exactly the valid keys (non-empty sku, version > 0) that occur; their number is `gruposProcesados` |
| Promotion.RowsOf | app/services/recipes_service.py:456 | a key that never occurs has no rows |
| Promotion.RowsOfExact | app/services/recipes_service.py:451-456 | a group holds exactly the rows with that key |
| Promotion.RowsOfSnoc | app/services/recipes_service.py:456 | one more row extends only its own key's group |
| Promotion.InvalidRows | app/services/recipes_service.py:453-455 | there are no more invalid rows than rows |
| Promotion.InvalidRowsExact | app/services/recipes_service.py:453-455 | exactly the rows with an empty sku or a version ≤ 0 get an "invalid row" warning |
| Promotion.Groups | app/services/recipes_service.py:450-456 | the grouping has exactly the group keys |
| Promotion.GroupsSnocInvalid | app/services/recipes_service.py:453-455 | an invalid row leaves the grouping unchanged |
| Promotion.GroupsSnocValid | app/services/recipes_service.py:456 | a valid row is appended to its key's group |
| Promotion.GroupsSnoc | app/services/recipes_service.py:451-456 | one loop iteration of the grouping, both cases |
| Promotion.GroupingSnoc | app/services/recipes_service.py:451-456 | extending the rows by one extends keys, invalid rows and groups as one loop iteration does |
| Promotion.GroupRow | app/services/recipes_service.py:452-456 | one iteration: an invalid key is warned about; a valid one is appended to its group, a new key added at the end |
| Promotion.GroupRows | app/services/recipes_service.py:449-456 | the loop yields exactly the group keys, the grouping and the invalid rows |
| Promotion.GroupsPartition | app/services/recipes_service.py:451-456 | every row with a valid key is in its group, and every grouped row has that group's key |
| Promotion.FirstSpec | app/services/recipes_service.py:477-481 | `first(key)` is none iff no row has a non-blank value, else the value of the first row that has one |
| Promotion.HeaderOf | app/services/recipes_service.py:483-506 | header fields come from `first`: estado stripped and lower-cased or "borrador", marcar via `_to_bool`, base_qty via `_to_num` with default 1, special cost kept only when finite |
| Promotion.MpItems | app/services/recipes_service.py:510-520 | one keyed line per row with a non-empty sku_MP |
| Promotion.RowsWithoutMp | app/services/recipes_service.py:511-514 | at most one warning per row |
| Promotion.MpItemsCount | app/services/recipes_service.py:510-520 | every row either contributes a line or gets a "no sku_MP" warning |
| Promotion.Known | app/services/recipes_service.py:523-533 | the merged skus found in the catalog, no more and no less |
| Promotion.Unknown | app/services/recipes_service.py:523-527 | the merged skus missing from the catalog, no more and no less |
| Promotion.Resolve | app/services/recipes_service.py:522-533 | one component per known sku in merge order, one error per unknown sku, adding up to the merged keys |
| Promotion.Repeat | app/services/recipes_service.py:513 | n copies of the same warning |
| Promotion.MissingIssues | app/services/recipes_service.py:526 | one "MP not found" error per unknown sku, in order |
| Promotion.ComponentsOf | app/services/recipes_service.py:508-533 | merging by sku_MP and resolving gives as many components and errors as distinct skus, the errors being the unknown ones |
| Promotion.PrepareFrom | app/services/recipes_service.py:497-552 | a built version carries the key's number, the header's estado and marcar, the non-empty components, and a processId never alongside special fields; a group that builds nothing has logged something |
| Promotion.Prepare | app/services/recipes_service.py:469-552 | a missing PT gives exactly one error and nothing built; a built version belongs to that PT with the key's number and non-empty components |
| Promotion.Preps | app/services/recipes_service.py:469 | one preparation per group key |
| Promotion.InvalidIssues | app/services/recipes_service.py:453-455 | one warning per invalid row, in order |
| Promotion.ApplyBuilt | app/services/recipes_service.py:554-597 | the store writes and counter bumps of one built group are `Apply` on the run |
| Promotion.PromoteGroup | app/services/recipes_service.py:469-597 | one group of the main loop is `GroupStep` of its preparation |
| Promotion.PromoteGroups | app/services/recipes_service.py:469-597 | the main loop is `RunAll` over the groups in key order, and the store ends as the run's recipes |
| Promotion.PromoteStagingBatch | app/services/recipes_service.py:439-599 | the whole promotion is `Promote` of the store and the batch's staged rows |
| Promotion.DryRunNoWrites | app/services/recipes_service.py:557-584 | under dry run the groups never change the store |
| Promotion.DryPromotionNoWrites | app/services/recipes_service.py:557-584 | a dry-run promotion leaves the recipes as they were |
| Promotion.StepCounts | app/services/recipes_service.py:557-597 | a group bumps at most one outcome counter, never lowers one, and counts a `vigenteVersion` change only with a creation, an append, or (dry run only) an overwrite |
| Promotion.RunAllCounts | app/services/recipes_service.py:469-597 | over all groups the outcome counters grow by at most the number of groups, and `vigenteVersion` changes stay bounded as for one group |
| Promotion.PromoteCounts | app/services/recipes_service.py:458-597 | `gruposProcesados` is the number of distinct valid keys, the outcomes never exceed it, and `vigentesSeteadas` ≤ created + appended (+ overwritten under dry run) |
| Promotion.GroupIsolation | app/services/recipes_service.py:471-537 | a group that builds nothing (missing PT, bad date, no components) leaves the store and counters alone and logs at least one message |
| Promotion.CreatedRecipe | app/services/recipes_service.py:557-571 | a created recipe holds exactly the group's version and points at it exactly when marked |
| Promotion.ExistingVersionRejected | app/services/recipes_service.py:574-579 | an existing version without overwrite adds one rejection and a warning, and writes nothing |
| Promotion.NewVersionPushed | app/services/recipes_service.py:581-597 | a new version is counted as appended in both modes and written only outside dry run, adding one append and one `vigenteVersion` change when marked |
| Promotion.OverwriteKeepsPointer | app/services/recipes_service.py:581-590 | overwrite replaces the version in place and never moves `vigenteVersion`, yet under dry run counts a `vigenteVersion` change when marked |
| Promotion.DryRunCountsTwoCreations | app/services/recipes_service.py:555-571 | two groups for a new PT count two creations under dry run, but one creation and one append for real |
| Promotion.PlainWord | app/services/recipes_service.py:429-430 | a lower-case word without spaces is its own stripped, lower-cased form |
| WmsItems.HighestAt | app/services/WO.py:738-744 | the first version with the highest number, as a stable descending sort puts first |
| WmsItems.ChosenIndex | app/services/WO.py:730-746 | the current version when `vigenteVersion` names an existing one, otherwise the first highest-numbered version |
| WmsItems.BaseQty | app/services/WO.py:784-786 | the recipe base quantity is positive: the stored one when positive, else 1 |
| WmsItems.MaterialQtyUniform | app/services/WO.py:806-811 | skipping the waste factor when `merma_pct` is zero gives the same quantity as always applying it |
| WmsItems.MaterialQtyScales | app/services/WO.py:787-811 | material quantity is per-base quantity × ordered quantity × (1 + waste/100), divided by the base quantity |
| WmsItems.ComponentIds | app/services/WO.py:752-763 | succeeds iff no component has a present but malformed productId; then the ids are exactly the well-formed ones, else the error names the first malformed one |
| WmsItems.MissingIds | app/services/WO.py:774-776 | exactly the collected ids with no catalog product |
| WmsItems.LineFor | app/services/WO.py:800-833 | a component yields a line iff its product exists and its quantity is positive; the line carries the product's sku and the rounded quantity, and a line with no sku or a quantity that rounds to zero is an error |
| WmsItems.Lines | app/services/WO.py:799-833 | the line list succeeds iff every component's line does, and never has more lines than components |
| WmsItems.Positive | app/services/WO.py:812-814 | exactly the components with a positive material quantity |
| WmsItems.LinesArePositive | app/services/WO.py:799-833 | one line per positive component, in order, each built from that component's product and quantity |
| WmsItems.LinesShareHeader | app/services/WO.py:821-832 | every line carries the order number, product sku, glosa, ordered quantity and start date of the order, a non-empty material code and a positive quantity |
| WmsItems.KeepNotExcluded | app/services/WO.py:159-161 | filtering never adds items |
| WmsItems.KeepNotExcludedMembers | app/services/WO.py:159-161 | an item is kept iff its stripped material code is not excluded |
| WmsItems.KeepAllWhenNoneExcluded | app/services/WO.py:159-161 | with no item excluded the list is returned unchanged |
| WmsItems.FilterExcluded | app/services/WO.py:143-164 | an empty list or an empty excluded set returns the items; otherwise the kept items are exactly those whose stripped code is not excluded, and it fails iff nothing is left |
| WmsItems.FilterExcludedItems | app/services/WO.py:143-164 | the loop computes `FilterExcluded` |
| WmsItems.FilterExcludedIntended | app/services/WO.py:143-164 | with the numeric comparison the repository intends, an item is kept iff its code is not covered by a stored exclusion |
| WmsItems.InputsExactlyCovered | app/db/repositories/exclude_skus_repo.py:12-58 | an item's code is among the inputs the repository reports iff a stored exclusion covers it |
| WmsItems.LeadingZeroKept | app/services/WO.py:150-161 | as written, the item "007" survives an exclusion stored as the number 7 |
| WmsItems.LeadingZeroRemoved | app/services/WO.py:150-161 | under the intended comparison, "007" is excluded by the number 7 |
| WmsItems.Explode | app/services/WO.py:715-835 | a missing PT is the first error; no recipe or no versions, an empty component list, and a bad product id fail iff they occur; on success the result is exactly the chosen version's lines with the excluded SKUs filtered out, and every returned line belongs to the order: number as decimal text, PT sku, glosa, quantity and start date, with a material code and positive quantity |
| WmsItems.CollectComponentIds | app/services/WO.py:752-763 | the loop computes `ComponentIds` |
| WmsItems.BuildLines | app/services/WO.py:799-833 | the loop computes `Lines` |
| WmsItems.ChosenVersion | app/services/WO.py:727-746 | a version is chosen iff the PT has a recipe with versions, and it is the `vigenteVersion` one when present, else the highest number |
| WmsItems.BuildWmsIntegrationItems | app/services/WO.py:715-835 | the whole explosion computes `Explode` |
| WorkOrders.ParseFloat | app/services/WO.py:105-112 | a missing value is "required", text the parser rejects after comma-to-point and strip is "invalid", otherwise the parsed number |
| WorkOrders.CommaIsPoint | app/services/WO.py:109 | a decimal comma and a decimal point parse alike |
| WorkOrders.RowToPayload | app/services/WO.py:115-140 | a missing OT and a non-integer OT are the first errors; a payload has the parsed OT, stripped text fields, finite quantity, the three normalised dates, estado CREADA and zero waste and final quantity |
| WorkOrders.NewOrderDates | app/services/WO.py:214-245 | the stored instants keep the payload's dates and their order, and both audit stamps are the creation time |
| WorkOrders.CreateOutcome | app/services/WO.py:209-249 | an existing OT is refused first, then a start date after the end date; otherwise the new order has the payload's OT |
| WorkOrders.CreateWorkOrder | app/services/WO.py:209-249 | the store gains exactly the new order on success and is unchanged on error, and OTs stay unique |
| WorkOrders.GetNextOt | app/services/WO.py:272-280 | 1 for an empty store, else one more than a stored OT; it exceeds every stored OT, so is free |
| WorkOrderImport.HeadersStripped | app/services/WO.py:307-310 | headers are accepted when each required one appears after stripping |
| WorkOrderImport.NoHeaderLine | app/services/WO.py:309-310 | a CSV with no header line, or an empty one, is refused |
| WorkOrderImport.RowOutcomeOf | app/services/WO.py:316-335 | a refused row reports its number and parsed OT; an accepted one has its payload and a non-empty explosion |
| WorkOrderImport.OutcomesLength | app/services/WO.py:316 | one outcome per data row |
| WorkOrderImport.OutcomeAt | app/services/WO.py:316-335 | row i is judged alone, numbered i + 2 |
| WorkOrderImport.OutcomesAreWellFormed | app/services/WO.py:316-335 | every outcome is well formed: accepted rows have lines, refused ones an error |
| WorkOrderImport.PlanOfSnoc | app/services/WO.py:316-335 | one loop iteration adds one row's outcome to the plan |
| WorkOrderImport.PlanAccountsForEveryRow | app/services/WO.py:316-335 | every row ends up either as an error or as pending, with row numbers between 2 and the last row |
| WorkOrderImport.ItemsIffPending | app/services/WO.py:325-328 | WMS lines exist iff some row is pending |
| WorkOrderImport.PendingAreAccepted | app/services/WO.py:316-328 | every pending payload is the parse of its own row |
| WorkOrderImport.OutcomesAccepted | app/services/WO.py:316-328 | an accepted outcome's payload is its row's parse |
| WorkOrderImport.SaveAllEffect | app/services/WO.py:356-362 | every pending row is either created or an error, the store gains exactly the created orders and OTs stay unique |
| WorkOrderImport.NewOtKeepsUnique | app/services/WO.py:210-212 | appending an order with a fresh OT keeps OTs unique |
| WorkOrderImport.DuplicateOtRefused | app/services/WO.py:356-362 | a pending row whose OT is already stored (possibly by an earlier row) adds one error and no order |
| WorkOrderImport.NoPersistenceWithoutWms | app/services/WO.py:337-373 | nothing is stored unless WMS accepted; WMS is called iff something is pending; every row is accounted for |
| WorkOrderImport.PlanImport | app/services/WO.py:312-335 | the row loop computes `PlanRows` |
| WorkOrderImport.PlanRow | app/services/WO.py:316-335 | one iteration adds the row's outcome |
| WorkOrderImport.SavePending | app/services/WO.py:356-362 | the save loop computes `SaveAll` on the store |
| WorkOrderImport.ImportWorkOrdersFromCsv | app/services/WO.py:306-373 | missing headers are refused with the store untouched; otherwise the result and the store are `ImportOutcome` |
| ExcludeSkus.NormalizeSkuForms | app/db/repositories/exclude_skus_repo.py:12-28 | none and blank text give no forms; otherwise the stripped text, plus its integer when it parses, and nothing else |
| ExcludeSkus.CandidatesOfMembers | app/db/repositories/exclude_skus_repo.py:44-46 | the candidates are exactly the forms of some input sku |
| ExcludeSkus.ExcludedMembers | app/db/repositories/exclude_skus_repo.py:52-58 | the answer is exactly the text of each stored sku that equals a candidate, stored numbers rendered as decimals |
| ExcludeSkus.FindMatchingSkus | app/db/repositories/exclude_skus_repo.py:36-58 | the query computes `Excluded` of the candidates |
| ExcludeSkus.CollectCandidates | app/db/repositories/exclude_skus_repo.py:44-46 | the loop computes `CandidatesOf` |
| ExcludeSkus.EmptyCandidates | app/db/repositories/exclude_skus_repo.py:48-49 | no candidates, no exclusions |
| ExcludeSkus.BlankSkusExcludeNothing | app/db/repositories/exclude_skus_repo.py:16-21 | blank inputs produce no candidates and so exclude nothing |
| ExcludeSkus.TextMatchFound | app/db/repositories/exclude_skus_repo.py:23-57 | an input stored verbatim as text is reported under its stripped text |
| ExcludeSkus.LeadingZeroAnswer | app/db/repositories/exclude_skus_repo.py:24-57 | for input "007" against the stored number 7 the answer is {"7"}, which does not contain the caller's "007" |
| ExcludeSkus.ExcludedInputsMembers | app/db/repositories/exclude_skus_repo.py:41-42 | the intended answer holds exactly the stripped inputs that a stored exclusion covers |
| ExcludeSkus.LeadingZeroCovered | app/db/repositories/exclude_skus_repo.py:41-42 | under the intended answer "007" is excluded by the stored number 7 |
| GestionService.NewEntryStored | app/services/gestion_ot_prod.py:119-153 | the stored entry keeps the three dates as midnight instants of the given days and the delivery time as "HH:MM" of the given hour and minute |
| GestionService.CreateEntryOutcome | app/services/gestion_ot_prod.py:114-156 | an existing OT is refused first, then a start date after the end date; otherwise the new entry |
| GestionService.CreateEntry | app/services/gestion_ot_prod.py:114-156 | the store gains exactly the new entry on success and is unchanged on error |
| GestionService.UpdateOutcome | app/services/gestion_ot_prod.py:198-271 | an unknown OT is "not found"; the date error fires iff the final start and end days are both known and out of order; a blank description is refused; success is the patch applied to the stored entry |
| GestionService.AnyFieldNeverEmpty | app/services/gestion_ot_prod.py:261-262 | an update that supplies any field is never refused for having none |
| GestionService.UpdateKeepsDatesOrdered | app/services/gestion_ot_prod.py:216-243 | after a successful update the stored start day is never after the stored end day |
| GestionService.UpdateOnlySupplied | app/services/gestion_ot_prod.py:208-271 | fields not supplied keep their stored values, the description is stored stripped and non-blank, the OT and creation stamp never change and the update stamp is the time of the update |
| GestionService.BuildPatch | app/services/gestion_ot_prod.py:208-262 | the patch fails iff the final dates are out of order or the description is blank, with the date error taking precedence; otherwise it is the supplied fields |
| GestionService.UpdateEntry | app/services/gestion_ot_prod.py:198-271 | the outcome is `UpdateOutcome`; on success only the entry with that OT is replaced, on error the store is unchanged |
| GestionService.BeforeTodayIsEarlierDay | app/services/gestion_ot_prod.py:280-281 | an instant precedes the start of today iff its day is earlier than today |
| GestionService.DailyCloseSelectsEarlierDays | app/services/gestion_ot_prod.py:274-284 | the daily close selects exactly the open records whose date is an earlier day, in both collections |
| GestionService.ClosePreviousDayEntries | app/services/gestion_ot_prod.py:274-284 | both collections are closed up to the start of today, and each count is the number of records that changed |
| GestionRepo.EntryIndex | app/db/repositories/gestion_ot_prod_repo.py:34-40 | the index of an entry with that OT, none iff there is none |
| GestionRepo.ApplyPatch | app/db/repositories/gestion_ot_prod_repo.py:83-99 | supplied fields replace stored ones, every other field is kept, and the update stamp is set |
| GestionRepo.EmptyPatchKeepsFields | app/db/repositories/gestion_ot_prod_repo.py:83-99 | a patch with no fields changes nothing but the stamp |
| GestionRepo.PatchIdempotent | app/db/repositories/gestion_ot_prod_repo.py:83-99 | applying the same patch twice at the same time equals applying it once |
| GestionRepo.CloseEntriesCount | app/db/repositories/gestion_ot_prod_repo.py:102-126 | the reported count is the number of entries the close changed |
| GestionRepo.CloseEntriesEffect | app/db/repositories/gestion_ot_prod_repo.py:102-126 | an entry dated before the bound ends CERRADA; one not selected is untouched; only estado and the stamp ever change |
| GestionRepo.CloseEntriesLeavesNothing | app/db/repositories/gestion_ot_prod_repo.py:102-126 | after a close nothing is left to close |
| GestionRepo.FechaWindowIsDay | app/services/gestion_ot_prod.py:172-175 | the [midnight, next midnight) window selects exactly the entries dated that day |
| GestionRepo.SelectEntries | app/services/gestion_ot_prod.py:166-190 | exactly the entries that meet every given filter |
| GestionRepo.InsertByCreated | app/services/gestion_ot_prod.py:188-194 | inserting into a newest-first list keeps it newest first and adds exactly that entry |
| GestionRepo.HeadNewer | app/services/gestion_ot_prod.py:188-194 | a newer head in front of a newest-first list drawn from the tail stays newest first |
| GestionRepo.SortNewestFirst | app/services/gestion_ot_prod.py:188-194 | the sort is newest first and a permutation of its input |
| GestionRepo.EntryListingSelected | app/services/gestion_ot_prod.py:159-195 | a listing page is newest first and holds only stored entries that meet the filters |
| GestionRepo.GestionStore.constructor | app/db/repositories/gestion_ot_prod_repo.py:15-22 | an empty collection with unique OTs |
| GestionRepo.GestionStore.FindByOt | app/db/repositories/gestion_ot_prod_repo.py:34-40 | a document iff one has that OT, and it is that one |
| GestionRepo.GestionStore.InsertEntry | app/db/repositories/gestion_ot_prod_repo.py:20-50 | a new OT is appended and returned; a duplicate OT is refused by the unique index, leaving the store unchanged |
| GestionRepo.GestionStore.UpdateFieldsByOt | app/db/repositories/gestion_ot_prod_repo.py:83-99 | no fields returns the stored entry unchanged; an unknown OT returns none; otherwise that one entry gets the patch and is returned after the update |
| GestionRepo.GestionStore.CloseUntilFecha | app/db/repositories/gestion_ot_prod_repo.py:102-126 | the store becomes `CloseEntries`, and the count is the number of changed entries |
| GestionRepo.GestionStore.ListEntries | app/db/repositories/gestion_ot_prod_repo.py:53-67 | the page is the skip/limit slice of the selected entries sorted newest first |
| WorkOrderRepo.OtIndex | app/db/repositories/work_orders_repo.py:34-40 | the index of an order with that OT, none iff there is none |
| WorkOrderRepo.OtIndexUnique | app/db/repositories/work_orders_repo.py:20-22 | with unique OTs, an order's position is the one the lookup finds |
| WorkOrderRepo.LastOrder | app/db/repositories/work_orders_repo.py:43-48 | none iff the store is empty, otherwise a stored order whose OT is the highest |
| WorkOrderRepo.CloseAllEffect | app/db/repositories/work_orders_repo.py:120-137 | an order dated before the bound ends CERRADA, others are untouched, and only estado ever changes |
| WorkOrderRepo.CloseCountIsChanges | app/db/repositories/work_orders_repo.py:120-137 | the reported count is the number of orders the close changed |
| WorkOrderRepo.CloseAllIdempotent | app/db/repositories/work_orders_repo.py:120-137 | closing twice equals closing once, and nothing is left to close |
| WorkOrderRepo.CloseKeepsUnique | app/db/repositories/work_orders_repo.py:120-137 | closing keeps OTs unique |
| WorkOrderRepo.InsertByOt | app/db/repositories/work_orders_repo.py:84-87 | inserting into an ascending list keeps it ascending and adds exactly that order |
| WorkOrderRepo.HeadBelow | app/db/repositories/work_orders_repo.py:84-87 | a smaller head in front of an ascending list drawn from the tail stays ascending |
| WorkOrderRepo.SortByOt | app/db/repositories/work_orders_repo.py:84-87 | the sort is ascending by OT and a permutation of its input |
| WorkOrderRepo.WithEstado | app/services/WO.py:258-260 | exactly the orders with the given estado, or all when none is given |
| WorkOrderRepo.Page | app/db/repositories/work_orders_repo.py:88 | skip then limit (0 meaning no limit): the slice starting at `skip`, of the expected length |
| WorkOrderRepo.ListingSorted | app/services/WO.py:251-269 | a listing page is ascending by OT and holds only stored orders with the requested estado |
| WorkOrderRepo.PageSorted | app/db/repositories/work_orders_repo.py:88 | a page of a sorted list is sorted |
| WorkOrderRepo.PageMembers | app/db/repositories/work_orders_repo.py:88 | a page holds only elements of its list |
| WorkOrderRepo.WorkOrderStore.constructor | app/db/repositories/work_orders_repo.py:15-22 | an empty collection with unique OTs |
| WorkOrderRepo.WorkOrderStore.FindByOt | app/db/repositories/work_orders_repo.py:34-40 | a document iff one has that OT, and it is that one |
| WorkOrderRepo.WorkOrderStore.FindLastOt | app/db/repositories/work_orders_repo.py:43-48 | none iff empty, otherwise the order with the highest OT |
| WorkOrderRepo.WorkOrderStore.InsertWorkOrder | app/db/repositories/work_orders_repo.py:20-70 | a new OT is appended and returned; a duplicate is refused by the unique index, leaving the store unchanged |
| WorkOrderRepo.WorkOrderStore.UpdateEstadoByOt | app/db/repositories/work_orders_repo.py:101-117 | an unknown OT returns none; otherwise that order alone gets the new estado and stamp and is returned after the update |
| WorkOrderRepo.WorkOrderStore.CloseUntilFecha | app/db/repositories/work_orders_repo.py:120-137 | the store becomes `CloseAll`, and the count is the number of changed orders |
| WorkOrderRepo.WorkOrderStore.ListWorkOrders | app/db/repositories/work_orders_repo.py:73-89 | the page is the skip/limit slice of the matching orders sorted by OT |
| ProductsApi.ToInt | app/api/v1/products.py:108-114 | none or blank gives the default; otherwise the float parse after comma-to-point, truncated toward zero, or the default when it does not parse |
| ProductsApi.ToIntCommaIsPoint | app/api/v1/products.py:108-114 | a decimal comma reads as a point, and truncation never moves away from zero past the parsed value |
| ProductsApi.StripAll | app/api/v1/products.py:437 | each header stripped, in place |
| ProductsApi.CheckFile | app/api/v1/products.py:419-443 | a non-.csv name, a first line without ';' and an empty file are refused in that order; missing headers are reported exactly; success returns the stripped headers, which include every required one |
| ProductsApi.ColumnIndex | app/api/v1/products.py:445 | the last position of a header, as a dict built by enumerate keeps it; none iff absent |
| ProductsApi.Val | app/api/v1/products.py:470-474 | none when the column is absent or the row is short, else the stripped cell |
| ProductsApi.Messages | app/api/v1/products.py:484-515 | one message per issue, in order |
| ProductsApi.ToDoc | app/api/v1/products.py:520-534 | the stored document carries the payload's sku |
| ProductsApi.IssueOrderComplete | app/api/v1/products.py:484-515 | every row check is in the order the row loop applies them |
| ProductsApi.FailingIn | app/api/v1/products.py:484-515 | exactly the checks of the given order that fail |
| ProductsApi.Issues | app/api/v1/products.py:484-515 | a row's errors are exactly the checks it fails |
| ProductsApi.UpperIdempotent | app/api/v1/products.py:479-532 | upper-casing twice equals upper-casing once |
| ProductsApi.CheckRow | app/api/v1/products.py:469-549 | errors are exactly the failing checks; a warning appears iff the non-empty sku already exists; the payload has the row's sku, tipo, net price and its VAT price |
| ProductsApi.CleanRowPayload | app/api/v1/products.py:484-503 | a row without errors has a fresh non-empty sku, a name, a unit, class MP or PT and a positive net price |
| ProductsApi.DataRows | app/api/v1/products.py:106-446 | the data rows are the rows after the header, at most 5000 |
| ProductsApi.DuplicateIffEarlierSame | app/api/v1/products.py:490-492 | a row is flagged duplicate iff an earlier row has the same sku |
| ProductsApi.FirstOccurrenceNotDuplicate | app/api/v1/products.py:490-492 | the first row with a sku is not flagged duplicate |
| ProductsApi.FileSkus | app/api/v1/products.py:451-455 | one sku per data row |
| ProductsApi.SkusInSnoc | app/api/v1/products.py:492 | one more row adds its sku to the seen set |
| ProductsApi.RowsOf | app/api/v1/products.py:469-549 | one result per data row |
| ProductsApi.RowsOfSnoc | app/api/v1/products.py:469-549 | one loop iteration checks the next row against the skus seen so far |
| ProductsApi.SkusInRowsOf | app/api/v1/products.py:490-492 | the seen set after the loop is the set of the rows' skus |
| ProductsApi.RowCheckSku | app/api/v1/products.py:479 | each row check reports the row's own sku |
| ProductsApi.RowsOfIndex | app/api/v1/products.py:469-549 | row j is checked against the skus of the rows before it |
| ProductsApi.RowsOfAt | app/api/v1/products.py:469-549 | the j-th result of the loop is the j-th row checked alone against its predecessors |
| ProductsApi.SeenBeforeStep | app/api/v1/products.py:490-492 | the seen set grows by one sku per row |
| ProductsApi.SeenBeforePrefix | app/api/v1/products.py:490-492 | the seen set of a prefix depends only on that prefix |
| ProductsApi.ItemsOf | app/api/v1/products.py:544-549 | one batch item per row |
| ProductsApi.PreviewOf | app/api/v1/products.py:541-542 | the preview holds the first 50 rows, or all when fewer |
| ProductsApi.ErrorsByRowKeys | app/api/v1/products.py:536-537 | `errorsByRow` has exactly the 1-based numbers of rows with errors, each with its messages |
| ProductsApi.WarningsByRowKeys | app/api/v1/products.py:538-539 | `warningsByRow` has exactly the numbers of rows with warnings, each with its warnings |
| ProductsApi.ItemsOfSnoc | app/api/v1/products.py:544-549 | one iteration appends the row's item |
| ProductsApi.PreviewOfSnoc | app/api/v1/products.py:541-542 | one iteration adds the row to the preview only while it holds fewer than 50 |
| ProductsApi.ErrorsByRowSnoc | app/api/v1/products.py:536-537 | one iteration records the row's errors when it has some |
| ProductsApi.WarningsByRowSnoc | app/api/v1/products.py:538-539 | one iteration records the row's warnings when it has some |
| ProductsApi.AddRow | app/api/v1/products.py:536-549 | the loop body extends the four accumulators by one checked row |
| ProductsApi.CheckRows | app/api/v1/products.py:463-549 | the loop computes preview, items and both maps of the checked rows |
| ProductsApi.ImportValidate | app/api/v1/products.py:410-580 | file errors are returned with nothing saved; products are never changed; otherwise the batch of all checked rows is saved under a new id and the preview and both maps are returned |
| ProductsApi.CollectFileSkus | app/api/v1/products.py:451-455 | the pre-pass loop computes `FileSkus` |
| ProductsApi.KeptDocs | app/api/v1/products.py:607-619 | only items without errors and with a non-blank sku are kept, each forced active |
| ProductsApi.KeptPlusSkipped | app/api/v1/products.py:607-619 | every item is either kept or counted as skipped |
| ProductsApi.KeepItems | app/api/v1/products.py:607-619 | the loop computes the kept documents and the skipped count |
| ProductsApi.ImportConfirm | app/api/v1/products.py:582-630 | a missing id and an unknown batch are refused without writes; otherwise the kept documents are bulk-upserted; a bulk error keeps the batch, success deletes it and reports created, updated and skipped |
| ProductsApi.ConfirmCountsBounded | app/api/v1/products.py:582-630 | created + updated + skipped never exceeds the number of batch items |
| ProductsApi.CountsAtMostLength | app/db/repositories/products_repo.py:401-431 | created + updated never exceeds the number of operations |
| ProductsApi.SetIf | app/api/v1/products.py:305 | an unsent field leaves the document unchanged, a sent one sets its key |
| ProductsApi.SentEmptyIffEmptyPatch | app/api/v1/products.py:305-307 | the sent fields are empty iff the patch supplies nothing, and a sent name is kept |
| ProductsApi.FamilyFields | app/api/v1/products.py:315-318 | the four family keys are set to the resolved values and every other key is kept |
| ProductsApi.WithDerived | app/api/v1/products.py:324-325 | a string name adds its lower case as `nombre_ci`, keeping everything else |
| ProductsApi.PatchSet | app/api/v1/products.py:299-341 | as written: a blank name, an empty patch, and a family patch whose resolution leaves a description missing are refused in that order; otherwise the set carries `nombre_ci` and the upper-cased family fields |
| ProductsApi.FamilyCodeAlonePatchFails | app/api/v1/products.py:310-318 | a patch with only `codigo_g` fails on the missing sub-family description |
| ProductsApi.PatchSetIntended | app/api/v1/products.py:299-341 | with the missing descriptions taken as empty, only a blank name or an empty patch is refused |
| ProductsApi.FamilyCodeAlonePatchIntended | app/api/v1/products.py:310-318 | under the intended rule a `codigo_g`-only patch succeeds, with an empty sub-family |
| ProductsApi.UpdateProduct | app/api/v1/products.py:299-350 | patch errors write nothing; an unknown id is "not found"; a sku clash is refused; otherwise that one product gets the fields and is returned after the update |
| ProductsApi.CreateDoc | app/api/v1/products.py:357-370 | the new document keeps name, sku, active flag and optional `valor_repo`, with the resolved family fields defaulting to "" and 0 |
| ProductsApi.CreateProduct | app/api/v1/products.py:352-380 | a blank name is refused; a sku clash is a conflict; otherwise the document with `nombre_ci` is appended and returned |
| ProductsApi.CreatedFoundBySku | app/db/repositories/products_repo.py:312-326 | a created product is then the one found by its sku, with the lower-cased name as `nombre_ci` |
| ProductsRepo.AppendKeepsUnique | app/db/repositories/products_repo.py:84-140 | appending a document whose sku clashes with none keeps skus unique, as the unique index does |
| ProductsRepo.ReplaceKeepsUnique | app/db/repositories/products_repo.py:84-140 | replacing a document by one whose sku clashes with no other keeps skus unique |
| ProductsRepo.FindBySku | app/db/repositories/products_repo.py:156-167 | the first document with that sku; none iff there is none |
| ProductsRepo.FoundIsOnly | app/db/repositories/products_repo.py:156-167 | with unique skus the lookup finds the one document that has it |
| ProductsRepo.FindExistingSkus | app/db/repositories/products_repo.py:70-82 | no skus, no answer; otherwise exactly the given non-empty skus some product has |
| ProductsRepo.AppendedFoundBySku | app/db/repositories/products_repo.py:312-326 | an appended product is then the one found by its sku |
| ProductsRepo.WithNombreCi | app/db/repositories/products_repo.py:322 | adds `nombre_ci` as the lower-cased name and keeps every other field |
| ProductsRepo.CountOf | app/db/repositories/products_repo.py:429-430 | a count never exceeds the number of operations |
| ProductsRepo.CountOfSnoc | app/db/repositories/products_repo.py:429-430 | one more operation adds one to its own kind's count only |
| ProductsRepo.UpsertDoc | app/db/repositories/products_repo.py:416-422 | no sku is ignored; a missing sku is created with that key; a found one is updated or left unchanged; a refused write changes nothing |
| ProductsRepo.UpsertStoresFields | app/db/repositories/products_repo.py:422 | after a successful upsert some document holds every field that was set |
| ProductsRepo.UpsertKeepsUnique | app/db/repositories/products_repo.py:422 | an upsert keeps skus unique |
| ProductsRepo.UpsertTwiceUnchanged | app/db/repositories/products_repo.py:422 | upserting the same document again changes nothing |
| ProductsRepo.BulkRunNext | app/db/repositories/products_repo.py:416-428 | the bulk run extends by one operation at a time |
| ProductsRepo.BulkRunKeepsUnique | app/db/repositories/products_repo.py:416-428 | any run of sku-preserving steps keeps skus unique |
| ProductsRepo.BulkUpsertKeepsUnique | app/db/repositories/products_repo.py:401-431 | the bulk upsert keeps skus unique |
| ProductsRepo.BulkRunLength | app/db/repositories/products_repo.py:416-428 | one outcome per document |
| ProductsRepo.BuildDoc | app/db/repositories/products_repo.py:471-480 | the payload forced active, with `nombre_ci` for a string name, `createdAt` only when the payload has none, and `updatedAt` now |
| ProductsRepo.Changes | app/db/repositories/products_repo.py:491-498 | exactly the fields other than `_id` whose value differs from, or is missing in, the stored document |
| ProductsRepo.ChangesApplied | app/db/repositories/products_repo.py:491-501 | applying the changes makes every field agree with the new document and keeps the rest; no changes iff they already agree |
| ProductsRepo.ConfirmStepOutcomes | app/db/repositories/products_repo.py:459-504 | an item is ignored iff it has errors or no sku; a new sku is inserted; a found one is updated with its changes, or skipped when there are none |
| ProductsRepo.ConfirmStepKeepsUnique | app/db/repositories/products_repo.py:459-504 | one confirmation step keeps skus unique |
| ProductsRepo.RunWithNext | app/db/repositories/products_repo.py:459-504 | the item loop extends one item at a time until a write is refused |
| ProductsRepo.RunStops | app/db/repositories/products_repo.py:459-504 | after a refused write the loop performs no further writes |
| ProductsRepo.ConfirmRunKeepsUnique | app/db/repositories/products_repo.py:459-504 | the whole confirmation keeps skus unique |
| ProductsRepo.ConfirmCountsProcessable | app/db/repositories/products_repo.py:456-504 | created + updated + skipped is the number of items without errors and with a sku |
| ProductsRepo.RunCountsProcessable | app/db/repositories/products_repo.py:456-504 | for any step that ignores exactly the unprocessable items, the three counts add up to the processable items |
| ProductsRepo.CreatedAtOverwritten | app/db/repositories/products_repo.py:477-501 | as written, re-confirming a stored product replaces its `createdAt` with the time of the new import and counts it updated |
| ProductsRepo.ReimportCountedAsUpdate | app/db/repositories/products_repo.py:477-504 | as written, confirming the same item twice at different times is never counted as skipped the second time |
| ProductsRepo.ContentOf | app/db/repositories/products_repo.py:472-475 | the payload forced active, with `nombre_ci` for a string name |
| ProductsRepo.ConfirmStepIntended | app/db/repositories/products_repo.py:440-504 | with timestamps kept out of the comparison: unprocessable items are ignored, and ignoring, skipping or refusing writes nothing |
| ProductsRepo.IntendedKeepsCreatedAt | app/db/repositories/products_repo.py:478-479 | the intended step never changes a stored `createdAt` |
| ProductsRepo.IntendedStoresContent | app/db/repositories/products_repo.py:472-504 | after the intended step some document holds the item's content, and skus stay unique |
| ProductsRepo.IntendedNewStoresContent | app/db/repositories/products_repo.py:485-488 | an insert appends a document holding the item's content |
| ProductsRepo.IntendedFoundStoresContent | app/db/repositories/products_repo.py:489-504 | an update or skip leaves the found document holding the item's content |
| ProductsRepo.MergedAgrees | app/db/repositories/products_repo.py:491-501 | merging the changes and a new stamp into a document makes it agree with the content |
| ProductsRepo.IntendedReimportSkipped | app/db/repositories/products_repo.py:440-504 | under the intended step, confirming the same item again is counted as skipped |
| ProductsRepo.RunItems | app/db/repositories/products_repo.py:456-504 | the loop computes the run's products, whether a write was refused, and the three counts |
| ProductsRepo.Tally | app/db/repositories/products_repo.py:488-504 | each outcome adds one to its own counter |
| ProductsRepo.ProductsDb.constructor | app/db/repositories/products_repo.py:84-140 | an empty collection with unique skus and no batches |
| ProductsRepo.ProductsDb.InsertOne | app/db/repositories/products_repo.py:312-326 | adds `nombre_ci`; a duplicate sku is refused with nothing written; otherwise the document is appended and returned |
| ProductsRepo.ProductsDb.UpdateById | app/db/repositories/products_repo.py:328-343 | an unknown id modifies 0; a sku clash is refused; otherwise the fields are merged and the count is 1 iff the document changed |
| ProductsRepo.ProductsDb.SaveImportBatch | app/db/repositories/products_repo.py:355-380 | a fresh id stores the items under it, an id in use writes nothing |
| ProductsRepo.ProductsDb.DeleteImportBatch | app/db/repositories/products_repo.py:392-398 | removes the batch, touching nothing else |
| ProductsRepo.ProductsDb.UpsertOne | app/db/repositories/products_repo.py:422 | one upsert performs `UpsertDoc` on the collection |
| ProductsRepo.ProductsDb.BulkStep | app/db/repositories/products_repo.py:416-431 | one operation extends the run and its counters |
| ProductsRepo.ProductsDb.BulkUpsertBySku | app/db/repositories/products_repo.py:401-434 | the collection becomes the bulk run; a refused write is an error, otherwise the created and updated counts |
| ProductsRepo.ProductsDb.ConfirmImportBatch | app/db/repositories/products_repo.py:436-509 | an unknown batch is "not found" with no writes; otherwise the items are confirmed in order; success deletes the batch and reports the three counts |
| Familias.Norm | app/domain/familias_map.py:58-59 | none gives ""; otherwise the stripped, upper-cased text; empty iff none or blank |
| Familias.FamilyByName | app/domain/familias_map.py:80-81 | the family stored under that name; none iff the table has no such name |
| Familias.FirstFamily | app/domain/familias_map.py:87-90 | the first family from a position with that name, none iff there is none |
| Familias.FamilyByCode | app/domain/familias_map.py:87-90 | the family with that code, in table order; none iff no family has it |
| Familias.SubByName | app/domain/familias_map.py:97 | the code listed under that sub-family name, none iff unlisted |
| Familias.SubByCode | app/domain/familias_map.py:101-105 | the name of a sub-family with that code, none iff no sub-family has it |
| Familias.FamilyNamesAreUpperWords | app/domain/familias_map.py:8-56 | every family name in the table is an upper-case word |
| Familias.CodesAreDistinct | app/domain/familias_map.py:8-56 | family codes and names are distinct, and so are all sub-family codes across the table |
| Familias.FamiliesNumbered | app/domain/familias_map.py:8-56 | family codes run 1, 2, … in table order |
| Familias.SubsNumbered | app/domain/familias_map.py:8-56 | sub-family codes run consecutively across the table |
| Familias.OffsetGrows | app/domain/familias_map.py:8-56 | a family's sub codes stay below those of every later family |
| Familias.UpperTitle | app/domain/familias_map.py:82 | upper-casing a title-cased upper-case word gives the word back |
| Familias.TitledNameNormalises | app/domain/familias_map.py:82-95 | normalising the title-cased name of a table key gives that key |
| Familias.ResolvedKey | app/domain/familias_map.py:76-95 | the key looked up for the sub-family is the family resolved in steps 1 and 2 |
| Familias.FamilyByCodeNamed | app/domain/familias_map.py:86-95 | the name inferred from a code leads back to that family |
| Familias.FamilyNamesNotEmpty | app/domain/familias_map.py:8-56 | no family is named "" |
| Familias.ResolveFamilySpec | app/domain/familias_map.py:73-90 | a listed family name sets its code and title-cased name; an unlisted one keeps the given code and name; with no name a listed code gets its name |
| Familias.ResolveSubByNameSpec | app/domain/familias_map.py:92-98 | under a resolved family a sub-family name gives its listed code, or none when unlisted, overriding the given code, with the title-cased name |
| Familias.ResolveSubByCodeSpec | app/domain/familias_map.py:100-105 | with no sub-family name, a code listed under the family keeps the code and gets its title-cased name |
| Familias.NoFamilyKeepsSub | app/domain/familias_map.py:92-105 | with no resolved family the sub-family code and name are returned as given |
| Dashboards.AddTotals | app/services/dashboards.py:20-22 | adding one event's quantities sums per sku over the union of keys |
| Dashboards.SumSkus | app/services/dashboards.py:12-25 | exactly the skus that occur in some SUCCESS event of that work order |
| Dashboards.TotalSnoc | app/services/dashboards.py:18-22 | one more event adds its quantity for the sku only when it counts |
| Dashboards.SumSkusIsTotal | app/services/dashboards.py:12-25 | the fold gives, per sku, the sum over the counted events |
| Dashboards.UncountedEventIgnored | app/services/dashboards.py:19 | an event of another work order or a status other than SUCCESS changes nothing |
| Dashboards.NetOf | app/services/dashboards.py:47-53 | keys are declared skus only; each is declared minus consumed (or declared when not consumed), and exact zeros are dropped |
| Dashboards.ConsumedOnlyIgnored | app/services/dashboards.py:48-50 | a sku only consumed never appears in the net map |
| Dashboards.NetSkus | app/services/dashboards.py:46-53 | the loops compute `NetOf` |
| Dashboards.WorkOrderKeyInjective | app/services/dashboards.py:40 | distinct OTs get distinct "OT-n" keys |
| Dashboards.OtValue | app/services/dashboards.py:33-38 | a missing OT is "required"; a number is itself; text is accepted iff it parses as an integer |
| Dashboards.GetNetSkusByOt | app/services/dashboards.py:28-55 | OT errors are returned as they are; otherwise the net of the declared and consumed totals for "OT-n" |
| Counters.SetSeq | app/db/repositories/counters_repo.py:27-38 | an unknown id changes nothing; otherwise only that counter takes the value |
| Counters.Incremented | app/db/repositories/counters_repo.py:41-52 | an unknown id changes nothing; otherwise only that counter grows by the step |
| Counters.Decremented | app/db/repositories/counters_repo.py:55-71 | the decrement happens iff the counter exists and stays at or above the floor; only that counter changes |
| Counters.IncrementThenDecrementRestores | app/db/repositories/counters_repo.py:41-71 | incrementing then decrementing by the same step restores the counters |
| Counters.RefusalIsMonotone | app/db/repositories/counters_repo.py:55-71 | a refused decrement is also refused for any larger step |
| Counters.CounterStore.constructor | app/db/repositories/counters_repo.py:10-15 | the collection holds the given counters |
| Counters.CounterStore.FindById | app/db/repositories/counters_repo.py:18-24 | the counter's value iff it exists |
| Counters.CounterStore.UpdateSeq | app/db/repositories/counters_repo.py:27-38 | returns the new value iff the counter exists, and the store becomes `SetSeq` |
| Counters.CounterStore.IncrementSeq | app/db/repositories/counters_repo.py:41-52 | returns the incremented value iff the counter exists, and the store becomes `Incremented` |
| Counters.CounterStore.DecrementSeq | app/db/repositories/counters_repo.py:55-71 | returns the lowered value, never below the floor, iff the counter holds at least floor + step; the store becomes `Decremented` |
| Users.NormalizeRoleValue | app/models/users.py:28-36 | none stays none; text is stripped, lower-cased, spaces become "_", "administrador" becomes "admin"; the result is accepted iff it is one of the nine roles |
| Users.CreateRole | app/models/users.py:46-51 | a missing role becomes "trabajador"; a given role is its normal form when allowed, and the creation is refused otherwise |
| Users.CanonicalRoleText | app/models/users.py:31 | text already stripped, lower-case and without spaces is its own normal form |
| Users.RolesAreCanonical | app/models/users.py:10-20 | every allowed role is already in normal form |
| Users.AllowedRoleUnchanged | app/models/users.py:28-36 | normalising an allowed role returns it unchanged |
| Users.NormalizeIdempotent | app/models/users.py:28-36 | normalising a normalised role changes nothing |
| Users.AcceptedIffNormalFormIsRole | app/models/users.py:31-35 | a value is accepted iff its normal form, after the alias, is allowed, and it normalises like that form |
| Users.LeadingSpaceIgnored | app/models/users.py:31 | a leading space does not change the outcome |
| UsersService.FindByAlias | app/db/repositories/users_repo.py:60-65 | the first user whose `alias_ci` is the stripped, lower-cased alias; none iff there is none |
| UsersService.NewUserStored | app/services/users_service.py:39-53 | the new user has `alias_ci`/`email_ci` as lower-cased stripped forms, status "active", no apellido when blank, and both stamps now; the stored role is the requested one, so it is one of the `UserRole` values iff the request's is |
| UsersService.CreateUserOutcome | app/services/users_service.py:28-55 | a taken alias is refused first, then a taken email; otherwise the new user |
| UsersService.CreateKeepsUnique | app/db/repositories/users_repo.py:37-38 | a created user keeps aliases and emails unique, case-insensitively |
| UsersService.UpdatedUser | app/services/users_service.py:62-74 | supplied fields are set (stripped, alias with its `alias_ci`), the rest kept; email, password and creation stamp never change, the update stamp always does; a valid role and status keep the user's role among `UserRole` and status among `UserStatus` |
| UsersService.UpdateUserOutcome | app/services/users_service.py:57-77 | an unknown id is "not found"; an alias already taken by another user is refused by the unique index; otherwise the updated user |
| UsersService.UpdateKeepsUnique | app/db/repositories/users_repo.py:37-38 | a successful update keeps aliases and emails unique |
| UsersService.EmptyUpdateTouchesOnlyTime | app/services/users_service.py:62-74 | an update with no fields changes only `updatedAt` |
| UsersService.ChangePasswordOutcome | app/services/users_service.py:122-133 | an unknown id is "not found"; a current password that does not verify is refused; otherwise only the hash and stamp change |
| UsersService.ChangePasswordKeepsUnique | app/services/users_service.py:122-133 | a password change keeps aliases and emails unique |
| UsersService.UserStore.constructor | app/db/repositories/users_repo.py:37-38 | an empty collection with unique keys and only valid roles and statuses |
| UsersService.UserStore.CreateUser | app/services/users_service.py:28-55 | the outcome is `CreateUserOutcome`; the store gains the user only on success |
| UsersService.UserStore.UpdateUser | app/services/users_service.py:57-77 | the outcome is `UpdateUserOutcome`; only that user is replaced, and only on success |
| UsersService.UserStore.ChangePassword | app/services/users_service.py:122-133 | the outcome is `ChangePasswordOutcome`; only that user is replaced, and only on success |
| Auth.Authenticate | app/services/auth_service.py:30-50 | a blank alias, an unknown alias, a user not active and a wrong or empty hash are refused in that order, each with its message; success returns the user found by the alias |
| Auth.AliasCaseIgnored | app/services/auth_service.py:35-39 | aliases that agree after strip and lower-case authenticate alike |
| Auth.CreatedUserLogsIn | app/services/auth_service.py:30-50 | a freshly created user logs in with its alias iff the password verifies against its hash |
| Auth.FindAppended | app/db/repositories/users_repo.py:60-65 | an appended user with a fresh alias is the one found |
| Auth.LoginAfterPasswordChange | app/services/auth_service.py:46-50 | after a password change the user logs in iff the password verifies against the new hash |
| Auth.DisabledNeverLogsIn | app/services/auth_service.py:43-44 | a disabled user is always refused as disabled |
| Encargados.CreateOutcome | app/services/encargados_service.py:37-47 | refused iff the (nombre, linea) pair is taken; otherwise the stored fields are the given ones |
| Encargados.CreateKeepsUnique | app/services/encargados_service.py:37-47 | a creation keeps (nombre, linea) pairs unique |
| Encargados.Merged | app/services/encargados_service.py:55-65 | supplied fields replace stored ones, others are kept; nothing supplied changes nothing |
| Encargados.UpdateOutcome | app/services/encargados_service.py:50-78 | an unknown id is "not found"; a merged pair taken by another record is a conflict; otherwise the merged record |
| Encargados.UpdateKeepsUnique | app/services/encargados_service.py:50-78 | an update keeps pairs unique |
| Encargados.OwnPairAccepted | app/services/encargados_service.py:63-73 | re-submitting a record's own pair is never a conflict |
| Encargados.EncargadoStore.constructor | app/services/encargados_service.py:37-78 | an empty collection with unique pairs |
| Encargados.EncargadoStore.CreateEncargado | app/services/encargados_service.py:37-47 | the outcome is `CreateOutcome`; the store gains the record only on success |
| Encargados.EncargadoStore.UpdateEncargado | app/services/encargados_service.py:50-78 | the outcome is `UpdateOutcome`; only that record changes, and only on success |
| Logs.EnsureTimezone | app/services/logs_service.py:17-22 | none is now, a naive time is read as UTC, an aware time is shifted by its offset |
| Logs.SameInstantAnyOffset | app/services/logs_service.py:17-22 | one instant written with any offset is the same UTC instant, and naive equals UTC |
| Logs.DetermineSeverity | app/services/logs_service.py:25-30 | always INFO or WARN; an explicit valid one is kept; otherwise WARN iff the event is disable or delete |
| Logs.SplitAtFirstDot | app/services/logs_service.py:51 | two dotted names with dot-free heads split the same way |
| Logs.NamesHaveNoDot | app/models/logs.py:18-30 | no actor or entity name contains a dot |
| Logs.AccionInjective | app/services/logs_service.py:51 | `accion` determines actor, entity and event |
| Logs.NewLogFields | app/services/logs_service.py:47-63 | the stored log has the stripped alias, its lower case, a valid severity, the dotted `accion`, and now when no time is given |
| Logs.DateFilterIsDay | app/services/logs_service.py:75-80 | the date filter selects exactly the logs of that UTC day |
| Logs.EmptyFiltersKeepAll | app/services/logs_service.py:69-81 | missing or empty filters select everything |
| Logs.ActorMatchesItself | app/services/logs_service.py:71-72 | a log matches the actor filter built from its own actor |
| Logs.LogStore.constructor | app/services/logs_service.py:47-66 | an empty log collection |
| Logs.LogStore.CreateLog | app/services/logs_service.py:47-66 | appends exactly `NewLog` and returns it |
| PlatformSync.DefaultPrefixes | app/utils/declarept_s3_sync.py:39-46 | the processed prefix is the platform prefix without trailing '/' plus "/PROCECCED/", and errors sit under it in "ERRORS/" |
| PlatformSync.KeepListed | app/utils/declarept_s3_sync.py:118-132 | listing never adds keys |
| PlatformSync.KeepListedMembers | app/utils/declarept_s3_sync.py:118-132 | a key is kept iff it is not a folder, not under /PROCECCED/ in any case, and ends in .json in any case |
| PlatformSync.KeepListedSnoc | app/utils/declarept_s3_sync.py:118-132 | one more key is appended iff it qualifies |
| PlatformSync.KeepPage | app/utils/declarept_s3_sync.py:118-132 | one page of the listing loop extends the kept keys |
| PlatformSync.ListPlatformObjects | app/utils/declarept_s3_sync.py:97-140 | the paged loop keeps exactly the qualifying keys of all pages, in order |
| PlatformSync.LastSegment | app/utils/declarept_s3_sync.py:167 | the part after the last '/', a suffix of the key without '/' |
| PlatformSync.DestKey | app/utils/declarept_s3_sync.py:166-168 | the target without trailing '/' plus "/" plus the key relative to the platform prefix |
| PlatformSync.DestKeyKeepsSubPath | app/utils/declarept_s3_sync.py:166-168 | a key under the platform prefix keeps its sub-path; any other key keeps only its base name |
| PlatformSync.RStripOneSlash | app/utils/declarept_s3_sync.py:41 | stripping trailing '/' from a prefix ending in one '/' removes just that slash |
| PlatformSync.UpperKeepsMarker | app/utils/declarept_s3_sync.py:125 | upper-casing keeps the "/PROCECCED/" marker |
| PlatformSync.MarkedDestNotListed | app/utils/declarept_s3_sync.py:125-168 | a key placed under a /PROCECCED/ prefix is never listed again |
| PlatformSync.MovedNeverListed | app/utils/declarept_s3_sync.py:125-168 | keys moved to the processed or error prefixes are never listed again |
| PlatformSync.KeyBody | app/utils/declarept_s3_sync.py:184 | the key with at most one final newline removed, as `$` allows |
| PlatformSync.LastUnderscore | app/utils/declarept_s3_sync.py:184 | the position of the last '_', none iff there is none |
| PlatformSync.ExtractIdlpn | app/utils/declarept_s3_sync.py:184-195 | an idlpn is the non-empty text between a '_' and a final ".json" (any case), without '_' or '/' |
| PlatformSync.ExtractIdlpnOfFileName | app/utils/declarept_s3_sync.py:184-195 | a name of the form ..._IDLPN.json yields IDLPN |
| PlatformSync.ExtractIdlpnIgnoresFinalNewline | app/utils/declarept_s3_sync.py:184 | one final newline does not change the match |
| PlatformSync.CandidatesMembers | app/utils/declarept_s3_sync.py:271-272 | the candidates are exactly the idlpns extracted from some key |
| PlatformSync.ExistingIdlpns | app/utils/declarept_s3_sync.py:198-207 | exactly the candidates present in either event collection |
| PlatformSync.AlreadyIffStored | app/utils/declarept_s3_sync.py:271-282 | a key's idlpn counts as already ingested iff it is stored in either collection |
| PlatformSync.SetDefault | app/utils/declarept_s3_sync.py:236-241 | an existing value is kept, a missing one gets the default |
| PlatformSync.NormalizeEvent | app/utils/declarept_s3_sync.py:228-243 | the key is always recorded; `ingested_at`, `tipoEvento` and `stage` default to now, DECLARE_PT and the environment; every other field is kept |
| PlatformSync.NormalizeIdempotent | app/utils/declarept_s3_sync.py:228-243 | normalising again with the same key changes nothing, whatever the new time and environment |
| PlatformSync.BuildUpsertFilter | app/utils/declarept_s3_sync.py:215-225 | exactly stage, work_order, document_number and idlpn, missing ones as null |
| PlatformSync.FilterOnlyIdentity | app/utils/declarept_s3_sync.py:215-225 | events agreeing on the four identity fields get the same filter |
| PlatformSync.FilterStageDefaults | app/utils/declarept_s3_sync.py:241 | an event without stage is filtered under the environment's stage |
| PlatformSync.EventType | app/utils/declarept_s3_sync.py:292 | a present type is upper-cased, an absent or falsy one is ""; a truthy non-string fails |
| PlatformSync.ProcessKey | app/utils/declarept_s3_sync.py:280-314 | a stored idlpn skips the key; a read or type failure sends it to errors; otherwise the normalised event is queued with its filter, to declare or consume by type |
| PlatformSync.UntypedIsDeclare | app/utils/declarept_s3_sync.py:238-295 | an event without a type is queued as DECLARE_PT |
| PlatformSync.LowerCaseTypeRouted | app/utils/declarept_s3_sync.py:292-301 | a lower-case "consumir_vasot" is routed to the consume list |
| PlatformSync.QueuedOps | app/utils/declarept_s3_sync.py:294-301 | never more operations than keys |
| PlatformSync.QueuedAtMostOnce | app/utils/declarept_s3_sync.py:294-306 | each key queues at most one operation in total |
| PlatformSync.QueuedOpsFromSteps | app/utils/declarept_s3_sync.py:294-301 | every queued operation comes from a key of the matching type |
| PlatformSync.Steps | app/utils/declarept_s3_sync.py:277 | one step per key |
| PlatformSync.QueuedOpsSnoc | app/utils/declarept_s3_sync.py:294-301 | one more key appends its operation to the matching list only |
| PlatformSync.QueueStep | app/utils/declarept_s3_sync.py:294-301 | the loop body extends the two lists by one key's step |
| PlatformSync.HandleKeys | app/utils/declarept_s3_sync.py:277-326 | the loop queues every key's operation in order and moves every key exactly once |
| PlatformSync.CollectCandidates | app/utils/declarept_s3_sync.py:271-272 | the comprehension computes `Candidates` |
| PlatformSync.SyncPlatformEvents | app/utils/declarept_s3_sync.py:246-326 | the two operation lists are the keys' queued operations, and each key is moved once to processed or errors by its disposition |
| PlatformSync.StoredKeySkipped | app/utils/declarept_s3_sync.py:281-286 | a key whose idlpn is stored queues nothing and is moved to processed |

## Left out

- WMS HTTP client (`app/services/wms_service.py`): network I/O and its token cache are not modelled. In the CSV import, sending to the WMS is a boolean parameter.
- Excel and PDF report generation in `app/services/WO.py`: file and subprocess output.
- Background loops and startup (`app/tasks/`, `app/main.py`), `app/db/mongo.py` and `app/core/config.py`: scheduling, connections and settings only. The daily close is modelled as the store operation it triggers.
- Password hashing: `hash_password` and `verify_password` are function parameters with no properties assumed.
- Mongo query mechanics are not modelled: regex matching, cursors, TTL and `ensure_indexes`. Each repository call is one atomic step on in-memory state. A list call is modelled as filter, then sort, then skip/limit.
- Bulk writes are applied in order. The unordered `bulk_write` makes no ordering promise, and the model does not capture its partial failures.
- Floating point: prices, quantities and factors are `real`. `round(x, 6)` and `float()` parsing are parameters, so IEEE rounding is not verified.
- Clock and calendar: `datetime.now()` is a parameter `now`, and `strptime`/`fromisoformat` are a parsing parameter per format. Only the accepted formats and their order are modelled. Time zones are whole-second offsets.
- The first `set_vigente` (`app/services/recipes_service.py:229-245`) is shadowed by the later definition and is not modelled.
- `update_by_id` in `app/api/v1/products.py` is only partly modelled. The `to_unset` map can never fill, because `exclude_none` drops every None. The protected-keys check can never fire, because the schema has no `_id`/`id` field. Neither is modelled.
- Object-store and database calls of the platform sync are not modelled: S3 listing, `copy_object`/`delete_object` and `bulk_write`. A failed move is not modelled either. A page of the listing is a parameter, and a move is recorded as (key, destination).
- A JSON document whose top level is not an object is modelled as a load failure.
- Unicode case mapping is modelled only for ASCII and the one-to-one Latin-1 letters. The rest of Unicode is left out, for example `ß` becoming `SS`, `ÿ` and other scripts.
- Non-string SKUs in the WMS payload are not modelled: components carry text SKUs.
- `_parse_object_id` failures are not modelled: ids are abstract values.
- Decoding the CSV bytes (encoding, dialect sniffing) is not modelled: a CSV file is a sequence of rows of cells.
- WorkOrders.RowToPayload also rejects a non-finite `Cantidad`, which the schema would accept.
- Promotion.PromoteStagingBatch reads the clock once for the whole batch. The source reads it once per group.
- Recipes are keyed by product PT. The source relies on this key but declares no unique index for it.
- Valuation reads stored costs and quantities as reals. `_num_or_zero` is applied only where a value may be missing.
- Valuation ignores `processId`, as the source does. The persist flag writes nothing.
- Thin routers and repositories that only forward calls are not modelled: users, logs, auth, encargados, counters, dashboards and work orders. The same goes for the list and search endpoints of users, owners and logs, beyond the log filter, and for `get_last_created_ot`.
- Two promotion oddities are modelled as written rather than claimed as findings:
  - overwriting a version never moves `vigenteVersion` (`OverwriteKeepsPointer`);
  - a dry run counts a new recipe's versions as creations (`DryRunCountsTwoCreations`).
- Two further behaviours are modelled exactly as the code has them:
  - staging drops a row missing either the PT SKU or the version;
  - creating a recipe with an explicit `vigenteVersion` may point at a version that does not exist.
- Text.ParseInt: `int()` is modelled on ASCII digits, with an optional sign and single `_` separators. `int()` also reads non-ASCII decimal digits (Arabic-Indic, full-width and the other Unicode `Nd` digits); the model rejects them.
- ExcludeSkus.NormalizeSkuForms: inherits the `ParseInt` limit above; a SKU written with non-ASCII digits gets no integer form.
- Dashboards.OtValue: inherits the `ParseInt` limit above; an OT written with non-ASCII digits is reported as not an integer.
- WorkOrders.RowToPayload: inherits the `ParseInt` limit above; an OT cell written with non-ASCII digits is reported as not an integer.

## Findings

| source | as written | input that shows it | evidently intended | confidence | as-written member | corrected member |
|---|---|---|---|---|---|---|
| app/models/recipes.py:15-24 | the XOR validator is attached to `procesoEspecialNombre`; under Pydantic v2 its second argument has no `get`, so any body that sends a name fails, and a body without a name never runs it, so a cost without code or name is accepted | `procesoEspecialCosto = 10` with no `procesoId` and no `procesoEspecialNombre` | a cost must come with a process code or a special name | not executed | Recipes.CostWithoutNameAccepted | Recipes.ProcesoVerdictIntended |
| app/services/WO.py:150-161 | the excluded set holds the stored SKU as text (`"7"`), while the item keeps its own text (`"007"`), so the filter keeps it | item SKU `"007"` with exclusion stored as the number 7 | the item is excluded | not executed | WmsItems.LeadingZeroKept | WmsItems.LeadingZeroRemoved |
| app/db/repositories/products_repo.py:477-501 | `createdAt` is set on every incoming document and then compared and `$set`, so a re-import overwrites it and counts an update | confirming the same product at two different times | `createdAt` kept and the re-import counted as skipped | not executed | ProductsRepo.CreatedAtOverwritten | ProductsRepo.IntendedKeepsCreatedAt |
| app/api/v1/products.py:310-318 | a family patch whose resolution leaves a name at None calls `.upper()` on None and fails | a patch with only `codigo_g` | the missing names become "" | not executed | ProductsApi.FamilyCodeAlonePatchFails | ProductsApi.FamilyCodeAlonePatchIntended |
