/** The product and process catalogues that recipes, valuation and work orders read. */
module Catalog {
  import opened Wrappers
  import opened Parsing

  /** A MongoDB ObjectId. */
  type ObjectId = nat

  /**
   * A product document. Cost fields hold what `float()` makes of the stored value,
   * and are None when absent or null.
   */
  datatype Product = Product(
    id: ObjectId,
    sku: string,
    tipo: string,
    nombre: Option<string>,
    unidad: Option<string>,
    pneto: Option<Num>,
    piva: Option<Num>,
    last: Option<Num>)

  /**
   * Read-only views of the `products` collection (by `sku`, which is unique, and by
   * `_id`) and of the `processes` collection (by `codigo`).
   */
  datatype Catalog = Catalog(bySku: map<string, Product>, byId: map<ObjectId, Product>, processes: map<string, ObjectId>)

  /** `get_product_by_sku`: any product with that sku, whatever its tipo. */
  function ProductBySku(c: Catalog, sku: string): (r: Option<Product>)
    ensures r.Some? <==> sku in c.bySku
    ensures r.Some? ==> r.value == c.bySku[sku]
  {
    if sku in c.bySku then Some(c.bySku[sku]) else None
  }

  /** `get_pt_by_sku`: the product with that sku, only when its tipo is "PT". */
  function PtBySku(c: Catalog, sku: string): (r: Option<Product>)
    ensures r.Some? <==> sku in c.bySku && c.bySku[sku].tipo == "PT"
    ensures r.Some? ==> r.value == c.bySku[sku]
  {
    if sku in c.bySku && c.bySku[sku].tipo == "PT" then Some(c.bySku[sku]) else None
  }

  /** `get_process_by_code`. */
  function ProcessByCode(c: Catalog, code: string): Option<ObjectId> {
    if code in c.processes then Some(c.processes[code]) else None
  }
}
