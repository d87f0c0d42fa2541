/**
 * The records the web client exchanges with the backend. JavaScript numbers
 * are modelled as `int` for ids and `real` for quantities and prices.
 */
module ClientTypes {
  import opened Seqs

  /** One line of a product's composition as the client sees it; `id` and the name are optional. */
  datatype ProductRawMaterial = ProductRawMaterial(id: Option<int>, rawMaterialId: int,
                                                   rawMaterialName: Option<string>, quantity: real)

  datatype Product = Product(id: int, code: string, name: string, value: real,
                             rawMaterials: seq<ProductRawMaterial>)

  /** The body of a product creation request. */
  datatype ProductInput = ProductInput(code: string, name: string, value: real)

  datatype RawMaterial = RawMaterial(id: int, code: string, name: string, stockQuantity: real)
}
