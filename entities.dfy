/**
 * The backend's persistent entities and the records it sends over the wire.
 * Identifiers are Java `Long`s, modelled as unbounded `int`; `BigDecimal`
 * amounts (stock, per-unit need, product value) are exact `real`s.
 */
module Entities {
  import opened Seqs

  /** A raw material and its current stock. */
  datatype RawMaterial = RawMaterial(id: int, code: string, name: string, stockQuantity: real)

  /** One line of a product's recipe: `quantity` units of `rawMaterial` per unit of product. */
  datatype ProductRawMaterial = ProductRawMaterial(id: int, rawMaterial: RawMaterial, quantity: real)

  /** A product and its composition (bill of materials), in list order. */
  datatype Product = Product(id: int, code: string, name: string, value: real,
                             rawMaterials: seq<ProductRawMaterial>)

  /** The id of the raw material an association refers to. */
  function MaterialId(prm: ProductRawMaterial): int { prm.rawMaterial.id }

  /**
   * The unique constraint on (product, raw material) of the association
   * table: a composition lists each raw material at most once.
   */
  predicate DistinctMaterials(comp: seq<ProductRawMaterial>)
  {
    forall i, j :: 0 <= i < j < |comp| ==> comp[i].rawMaterial.id != comp[j].rawMaterial.id
  }

  /** Whether some association of `comp` refers to raw material `id`. */
  predicate HasMaterial(comp: seq<ProductRawMaterial>, id: int)
  {
    exists k :: 0 <= k < |comp| && comp[k].rawMaterial.id == id
  }

  // --- Wire records ---

  datatype ProductRawMaterialDTO = ProductRawMaterialDTO(id: int, rawMaterialId: int,
                                                         rawMaterialName: string, quantity: real)

  /** `id` is a boxed `Long` and may be absent (null) in a request. */
  datatype ProductDTO = ProductDTO(id: Option<int>, code: string, name: string, value: real,
                                   rawMaterials: seq<ProductRawMaterialDTO>)

  datatype SuggestionItemDTO = SuggestionItemDTO(productCode: string, productName: string,
                                                 quantity: int, subtotal: real)

  datatype ProductionSuggestionDTO = ProductionSuggestionDTO(items: seq<SuggestionItemDTO>,
                                                             totalValue: real)
}
