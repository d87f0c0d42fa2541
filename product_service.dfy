/**
 * The product catalogue service: products and their compositions kept in a
 * repository (an id-keyed map), created or renamed by `save`, and edited one
 * association at a time by `addRawMaterial` (an upsert) and
 * `removeRawMaterial` (a filter). Entities are returned to clients as DTOs.
 */
module ProductCatalog {
  import opened Seqs
  import opened Entities

  /**
   * Why a call is refused: the two `ResourceNotFoundException`s, and the
   * unique constraint on the product code rejecting the write.
   */
  datatype Failure = ProductNotFound | RawMaterialNotFound | DuplicateCode

  datatype Outcome<T> = Ok(value: T) | Fail(failure: Failure)

  // --- Entity to DTO ---

  function AssociationDTO(prm: ProductRawMaterial): ProductRawMaterialDTO
  {
    ProductRawMaterialDTO(prm.id, prm.rawMaterial.id, prm.rawMaterial.name, prm.quantity)
  }

  /**
   * `convertToDTO`: the product's own fields and one DTO per association, in
   * the same order, carrying the association id, the material's id and
   * name, and the quantity.
   */
  function ConvertToDTO(p: Product): (r: ProductDTO)
    ensures r.id == Some(p.id) && r.code == p.code && r.name == p.name && r.value == p.value
    ensures |r.rawMaterials| == |p.rawMaterials|
    ensures forall k :: 0 <= k < |p.rawMaterials| ==>
              && r.rawMaterials[k].id == p.rawMaterials[k].id
              && r.rawMaterials[k].rawMaterialId == p.rawMaterials[k].rawMaterial.id
              && r.rawMaterials[k].rawMaterialName == p.rawMaterials[k].rawMaterial.name
              && r.rawMaterials[k].quantity == p.rawMaterials[k].quantity
  {
    ProductDTO(Some(p.id), p.code, p.name, p.value,
               seq(|p.rawMaterials|, k requires 0 <= k < |p.rawMaterials| => AssociationDTO(p.rawMaterials[k])))
  }

  // --- The composition upsert ---

  /**
   * The position of the first association of `comp` for raw material
   * `rawMaterialId` (`stream().filter(...).findFirst()`), if there is one.
   */
  function FindAssociation(comp: seq<ProductRawMaterial>, rawMaterialId: int): (r: Option<nat>)
    ensures r.None? <==> !HasMaterial(comp, rawMaterialId)
    ensures r.Some? ==> r.value < |comp| && comp[r.value].rawMaterial.id == rawMaterialId
    ensures r.Some? ==> forall j :: 0 <= j < r.value ==> comp[j].rawMaterial.id != rawMaterialId
  {
    if comp == [] then None
    else if comp[0].rawMaterial.id == rawMaterialId then Some(0)
    else
      var rest := FindAssociation(comp[1..], rawMaterialId);
      assert forall k :: 0 < k < |comp| ==> comp[k] == comp[1..][k - 1];
      if rest.None? then None else Some(rest.value + 1)
  }

  /**
   * The composition `addRawMaterial` leaves behind, or why it is refused:
   * an existing association for the material gets the new quantity and the
   * material is not looked up; otherwise the material is looked up in
   * `catalog` and a new association `associationId` is appended.
   */
  function Upsert(comp: seq<ProductRawMaterial>, rawMaterialId: int, quantity: real,
                  catalog: map<int, RawMaterial>, associationId: int): (r: Outcome<seq<ProductRawMaterial>>)
    ensures r.Fail? <==> !HasMaterial(comp, rawMaterialId) && rawMaterialId !in catalog
    ensures r.Fail? ==> r.failure == RawMaterialNotFound
    ensures !HasMaterial(comp, rawMaterialId) && rawMaterialId in catalog ==>
              r == Ok(comp + [ProductRawMaterial(associationId, catalog[rawMaterialId], quantity)])
    ensures CatalogKeyed(catalog) && r.Ok? ==> HasMaterial(r.value, rawMaterialId)
  {
    var existing := FindAssociation(comp, rawMaterialId);
    if existing.Some? then
      var k := existing.value;
      var updated := comp[k := comp[k].(quantity := quantity)];
      assert updated[k].rawMaterial.id == rawMaterialId;
      Ok(updated)
    else if rawMaterialId in catalog then
      var appended := comp + [ProductRawMaterial(associationId, catalog[rawMaterialId], quantity)];
      assert CatalogKeyed(catalog) ==> appended[|comp|].rawMaterial.id == rawMaterialId;
      Ok(appended)
    else Fail(RawMaterialNotFound)
  }

  /** Every raw material of the repository is stored under its own id. */
  ghost predicate CatalogKeyed(catalog: map<int, RawMaterial>)
  {
    forall id :: id in catalog ==> catalog[id].id == id
  }

  /**
   * When the material is already linked (and, by the unique constraint, only
   * once), the upsert keeps the length and overwrites the quantity of that
   * association alone; every other association is unchanged.
   */
  lemma UpsertExisting(comp: seq<ProductRawMaterial>, rawMaterialId: int, quantity: real,
                       catalog: map<int, RawMaterial>, associationId: int)
    requires DistinctMaterials(comp) && HasMaterial(comp, rawMaterialId)
    ensures var r := Upsert(comp, rawMaterialId, quantity, catalog, associationId);
            && r.Ok? && |r.value| == |comp|
            && forall j :: 0 <= j < |comp| ==>
                 r.value[j] == if comp[j].rawMaterial.id == rawMaterialId
                               then comp[j].(quantity := quantity) else comp[j]
  {
    var k := FindAssociation(comp, rawMaterialId).value;
    var r := Upsert(comp, rawMaterialId, quantity, catalog, associationId);
    assert r == Ok(comp[k := comp[k].(quantity := quantity)]);
    forall j | 0 <= j < |comp| && j != k ensures comp[j].rawMaterial.id != rawMaterialId {
      if j < k {
        assert comp[j].rawMaterial.id != comp[k].rawMaterial.id;
      } else {
        assert comp[k].rawMaterial.id != comp[j].rawMaterial.id;
      }
    }
  }

  /** The upsert keeps the materials of a composition distinct. */
  lemma UpsertKeepsDistinct(comp: seq<ProductRawMaterial>, rawMaterialId: int, quantity: real,
                            catalog: map<int, RawMaterial>, associationId: int)
    requires DistinctMaterials(comp) && CatalogKeyed(catalog)
    ensures var r := Upsert(comp, rawMaterialId, quantity, catalog, associationId);
            r.Ok? ==> DistinctMaterials(r.value)
  {
    var r := Upsert(comp, rawMaterialId, quantity, catalog, associationId);
    if HasMaterial(comp, rawMaterialId) {
      UpsertExisting(comp, rawMaterialId, quantity, catalog, associationId);
      assert forall j :: 0 <= j < |comp| ==> r.value[j].rawMaterial.id == comp[j].rawMaterial.id;
    } else if r.Ok? {
      var c := r.value;
      forall i, j | 0 <= i < j < |c| ensures c[i].rawMaterial.id != c[j].rawMaterial.id {
        assert c[i] == comp[i];
        if j < |comp| {
          assert c[j] == comp[j];
        }
      }
    }
  }

  /** Repeating an accepted `addRawMaterial` changes nothing further. */
  lemma UpsertIdempotent(comp: seq<ProductRawMaterial>, rawMaterialId: int, quantity: real,
                         catalog: map<int, RawMaterial>, associationId: int, laterId: int)
    requires DistinctMaterials(comp) && CatalogKeyed(catalog)
    requires Upsert(comp, rawMaterialId, quantity, catalog, associationId).Ok?
    ensures var once := Upsert(comp, rawMaterialId, quantity, catalog, associationId).value;
            Upsert(once, rawMaterialId, quantity, catalog, laterId) == Ok(once)
  {
    var once := Upsert(comp, rawMaterialId, quantity, catalog, associationId).value;
    UpsertKeepsDistinct(comp, rawMaterialId, quantity, catalog, associationId);
    if HasMaterial(comp, rawMaterialId) {
      UpsertExisting(comp, rawMaterialId, quantity, catalog, associationId);
      var k :| 0 <= k < |comp| && comp[k].rawMaterial.id == rawMaterialId;
      assert once[k].rawMaterial.id == rawMaterialId;
      UpsertExisting(once, rawMaterialId, quantity, catalog, laterId);
    } else {
      assert once[|comp|].rawMaterial.id == rawMaterialId;
      UpsertExisting(once, rawMaterialId, quantity, catalog, laterId);
    }
    var twice := Upsert(once, rawMaterialId, quantity, catalog, laterId).value;
    assert |twice| == |once|;
    forall j | 0 <= j < |once| ensures twice[j] == once[j] {
      if once[j].rawMaterial.id == rawMaterialId {
        if j < |comp| {
          assert once[j] == comp[j].(quantity := quantity);
        }
        assert once[j].quantity == quantity;
        assert twice[j] == once[j].(quantity := quantity);
      }
    }
    assert twice == once;
  }

  /**
   * The upsert does not depend on the order in which the composition was
   * loaded: two listings of the same associations, one of them respecting
   * the unique constraint, are refused alike, agree on whether the material
   * is linked, and yield the same associations.
   */
  lemma UpsertIgnoresOrder(comp: seq<ProductRawMaterial>, other: seq<ProductRawMaterial>, rawMaterialId: int,
                           quantity: real, catalog: map<int, RawMaterial>, associationId: int)
    requires multiset(comp) == multiset(other) && DistinctMaterials(other)
    ensures HasMaterial(comp, rawMaterialId) <==> HasMaterial(other, rawMaterialId)
    ensures var r, s := Upsert(comp, rawMaterialId, quantity, catalog, associationId),
                        Upsert(other, rawMaterialId, quantity, catalog, associationId);
            && r.Fail? == s.Fail?
            && (r.Ok? ==> multiset(r.value) == multiset(s.value))
  {
    assert forall x :: x in comp <==> x in other by {
      forall x ensures x in comp <==> x in other {
        assert x in comp <==> x in multiset(comp);
        assert x in other <==> x in multiset(other);
      }
    }
    assert HasMaterial(comp, rawMaterialId) <==> HasMaterial(other, rawMaterialId) by {
      if HasMaterial(comp, rawMaterialId) {
        var k :| 0 <= k < |comp| && comp[k].rawMaterial.id == rawMaterialId;
        assert comp[k] in other;
      }
      if HasMaterial(other, rawMaterialId) {
        var k :| 0 <= k < |other| && other[k].rawMaterial.id == rawMaterialId;
        assert other[k] in comp;
      }
    }
    if HasMaterial(comp, rawMaterialId) {
      var k1 := FindAssociation(comp, rawMaterialId).value;
      var k2 := FindAssociation(other, rawMaterialId).value;
      assert comp[k1] == other[k2] by {
        assert comp[k1] in other;
        var p :| 0 <= p < |other| && other[p] == comp[k1];
        assert p == k2;
      }
      var v := comp[k1].(quantity := quantity);
      assert multiset(comp[k1 := v]) == multiset(comp) - multiset{comp[k1]} + multiset{v};
      assert multiset(other[k2 := v]) == multiset(other) - multiset{other[k2]} + multiset{v};
    }
  }

  // --- The composition filter ---

  /** `removeRawMaterial`'s `removeIf`: drop every association for the material. */
  function Detach(comp: seq<ProductRawMaterial>, rawMaterialId: int): (r: seq<ProductRawMaterial>)
    ensures !HasMaterial(r, rawMaterialId)
    ensures forall prm :: prm in r <==> prm in comp && prm.rawMaterial.id != rawMaterialId
    ensures !HasMaterial(comp, rawMaterialId) ==> r == comp
  {
    var r := RemoveWhere(comp, (prm: ProductRawMaterial) => prm.rawMaterial.id == rawMaterialId);
    assert forall k :: 0 <= k < |r| ==> r[k] in r;
    r
  }

  /** The survivors keep their relative order: detaching distributes over concatenation. */
  lemma DetachKeepsOrder(front: seq<ProductRawMaterial>, back: seq<ProductRawMaterial>, rawMaterialId: int)
    ensures Detach(front + back, rawMaterialId) == Detach(front, rawMaterialId) + Detach(back, rawMaterialId)
  {
    RemoveWhereAppend(front, back, (prm: ProductRawMaterial) => prm.rawMaterial.id == rawMaterialId);
  }

  /** Detaching keeps the materials of a composition distinct. */
  lemma DetachKeepsDistinct(comp: seq<ProductRawMaterial>, rawMaterialId: int)
    requires DistinctMaterials(comp)
    ensures DistinctMaterials(Detach(comp, rawMaterialId))
  {
    assert DistinctBy(comp, MaterialId);
    RemoveWhereKeepsDistinct(comp, MaterialId, (prm: ProductRawMaterial) => prm.rawMaterial.id == rawMaterialId);
    var r := Detach(comp, rawMaterialId);
    assert forall i, j :: 0 <= i < j < |r| ==> MaterialId(r[i]) != MaterialId(r[j]);
  }

  /** Removing a material that was just attached restores the composition it was attached to. */
  lemma DetachUndoesAttach(comp: seq<ProductRawMaterial>, rawMaterialId: int, quantity: real,
                           catalog: map<int, RawMaterial>, associationId: int)
    requires !HasMaterial(comp, rawMaterialId) && rawMaterialId in catalog && CatalogKeyed(catalog)
    ensures Detach(Upsert(comp, rawMaterialId, quantity, catalog, associationId).value, rawMaterialId) == comp
  {
    var added := ProductRawMaterial(associationId, catalog[rawMaterialId], quantity);
    DetachKeepsOrder(comp, [added], rawMaterialId);
    assert Detach([added], rawMaterialId) == [];
  }

  /** Detaching removes every association of the material and keeps every other one, as often as it occurs. */
  lemma DetachCounts(comp: seq<ProductRawMaterial>, rawMaterialId: int)
    ensures forall prm :: multiset(Detach(comp, rawMaterialId))[prm]
                          == if prm.rawMaterial.id == rawMaterialId then 0 else multiset(comp)[prm]
  {
    RemoveWhereMultiset(comp, (prm: ProductRawMaterial) => prm.rawMaterial.id == rawMaterialId);
  }

  /** Detaching from two listings of the same associations leaves the same associations. */
  lemma DetachIgnoresOrder(comp: seq<ProductRawMaterial>, other: seq<ProductRawMaterial>, rawMaterialId: int)
    requires multiset(comp) == multiset(other)
    ensures multiset(Detach(comp, rawMaterialId)) == multiset(Detach(other, rawMaterialId))
  {
    DetachCounts(comp, rawMaterialId);
    DetachCounts(other, rawMaterialId);
  }

  // --- Save: create or update the product's own fields ---

  /** `save` updates an existing product exactly when the request carries a positive id. */
  predicate IsUpdate(dto: ProductDTO)
  {
    dto.id.Some? && dto.id.value > 0
  }

  /** The repository stores every product under its own id. */
  ghost predicate ProductsKeyed(products: map<int, Product>)
  {
    forall id :: id in products ==> products[id].id == id
  }

  /** The id the saved product has: the request's for an update, a freshly generated one otherwise. */
  function TargetId(dto: ProductDTO, freshId: int): int
  {
    if IsUpdate(dto) then dto.id.value else freshId
  }

  /** Some product other than `self` already has code `code`. */
  predicate CodeTaken(products: map<int, Product>, code: string, self: int)
  {
    exists id :: id in products && id != self && products[id].code == code
  }

  ghost predicate UniqueCodes(products: map<int, Product>)
  {
    forall a, b :: a in products && b in products && a != b ==> products[a].code != products[b].code
  }

  /**
   * The product `save` stores, or why it is refused: the request's code,
   * name and value written onto the stored product (whose composition is
   * kept), or onto a new product with id `freshId` and no composition.
   */
  function Saved(products: map<int, Product>, dto: ProductDTO, freshId: int): (r: Outcome<Product>)
    requires ProductsKeyed(products)
    ensures IsUpdate(dto) && dto.id.value !in products ==> r == Fail(ProductNotFound)
    ensures r.Ok? ==> r.value.code == dto.code && r.value.name == dto.name && r.value.value == dto.value
    ensures r.Ok? && IsUpdate(dto) ==>
              r.value.id == dto.id.value && r.value.rawMaterials == products[dto.id.value].rawMaterials
    ensures r.Ok? && !IsUpdate(dto) ==> r.value.id == freshId && r.value.rawMaterials == []
    ensures r.Ok? <==> (IsUpdate(dto) ==> dto.id.value in products) && !CodeTaken(products, dto.code, TargetId(dto, freshId))
  {
    if IsUpdate(dto) && dto.id.value !in products then Fail(ProductNotFound)
    else
      var base := if IsUpdate(dto) then products[dto.id.value] else Product(freshId, "", "", 0.0, []);
      var p := base.(code := dto.code, name := dto.name, value := dto.value);
      if CodeTaken(products, p.code, p.id) then Fail(DuplicateCode) else Ok(p)
  }

  /** An accepted save keeps product codes unique. */
  lemma SavedKeepsCodesUnique(products: map<int, Product>, dto: ProductDTO, freshId: int)
    requires ProductsKeyed(products) && UniqueCodes(products) && Saved(products, dto, freshId).Ok?
    ensures var p := Saved(products, dto, freshId).value;
            UniqueCodes(products[p.id := p])
  {
    var p := Saved(products, dto, freshId).value;
    var after := products[p.id := p];
    forall a, b | a in after && b in after && a != b ensures after[a].code != after[b].code {
      if a == p.id {
        assert !(b in products && b != p.id && products[b].code == p.code);
      } else if b == p.id {
        assert !(a in products && a != p.id && products[a].code == p.code);
      }
    }
  }

  /**
   * The service over the product repository; `rawMaterials` is the raw
   * material repository, which it only reads. Ids are generated by the
   * database: `nextProductId` and `nextAssociationId` are the next ones.
   */
  class ProductService {
    var products: map<int, Product>
    var rawMaterials: map<int, RawMaterial>
    var nextProductId: int
    var nextAssociationId: int

    /**
     * Every product is stored under its own positive id, below the next one
     * to be generated; no two products share a code, and no composition
     * lists a material twice.
     */
    ghost predicate Valid()
      reads this
    {
      && 0 < nextProductId
      && ProductsKeyed(products)
      && (forall id :: id in products ==> 0 < id < nextProductId && DistinctMaterials(products[id].rawMaterials))
      && UniqueCodes(products)
      && CatalogKeyed(rawMaterials)
    }

    constructor (rawMaterials: map<int, RawMaterial>)
      requires CatalogKeyed(rawMaterials)
      ensures Valid()
      ensures products == map[] && this.rawMaterials == rawMaterials
    {
      products := map[];
      this.rawMaterials := rawMaterials;
      nextProductId := 1;
      nextAssociationId := 1;
    }

    /** `findById`: the product's DTO, or NotFound. */
    function FindById(id: int): (r: Outcome<ProductDTO>)
      reads this
      ensures r.Ok? <==> id in products
      ensures r.Ok? ==> r.value == ConvertToDTO(products[id])
      ensures r.Fail? ==> r.failure == ProductNotFound
    {
      if id in products then Ok(ConvertToDTO(products[id])) else Fail(ProductNotFound)
    }

    /** `findAll`: the DTO of every stored product. */
    function FindAll(): (r: set<ProductDTO>)
      requires Valid()
      reads this
      ensures forall id :: id in products ==> ConvertToDTO(products[id]) in r
      ensures forall d :: d in r ==> d.id.Some? && d.id.value in products && d == ConvertToDTO(products[d.id.value])
    {
      set id | id in products :: ConvertToDTO(products[id])
    }

    /** `save`: create or update a product's code, name and value; the composition is not touched. */
    method Save(dto: ProductDTO) returns (r: Outcome<ProductDTO>)
      requires Valid()
      modifies this
      ensures Valid()
      ensures rawMaterials == old(rawMaterials) && nextAssociationId == old(nextAssociationId)
      ensures var saved := Saved(old(products), dto, old(nextProductId));
              && (saved.Fail? ==> r == Fail(saved.failure) && products == old(products)
                                  && nextProductId == old(nextProductId))
              && (saved.Ok? ==> r == Ok(ConvertToDTO(saved.value))
                                && products == old(products)[saved.value.id := saved.value]
                                && nextProductId == old(nextProductId) + (if IsUpdate(dto) then 0 else 1))
    {
      var product := Product(nextProductId, "", "", 0.0, []);
      if dto.id.Some? && dto.id.value > 0 {
        if dto.id.value !in products {
          return Fail(ProductNotFound);
        }
        product := products[dto.id.value];
      }
      product := product.(code := dto.code, name := dto.name, value := dto.value);
      if CodeTaken(products, product.code, product.id) {
        return Fail(DuplicateCode);
      }
      SavedKeepsCodesUnique(products, dto, nextProductId);
      if !IsUpdate(dto) {
        nextProductId := nextProductId + 1;
      }
      products := products[product.id := product];
      r := Ok(ConvertToDTO(product));
    }

    /** `delete`: the product and, by cascade, its associations are gone; an unknown id is ignored. */
    method Delete(id: int)
      requires Valid()
      modifies this
      ensures Valid()
      ensures products == old(products) - {id}
      ensures rawMaterials == old(rawMaterials) && nextProductId == old(nextProductId)
      ensures nextAssociationId == old(nextAssociationId)
    {
      products := products - {id};
    }

    /**
     * `addRawMaterial`: link a raw material to a product, or set the
     * quantity of the existing link.
     */
    method AddRawMaterial(productId: int, rawMaterialId: int, quantity: real) returns (failure: Option<Failure>)
      requires Valid()
      modifies this
      ensures Valid()
      ensures rawMaterials == old(rawMaterials) && nextProductId == old(nextProductId)
      ensures productId !in old(products) ==>
                failure == Some(ProductNotFound) && products == old(products)
                && nextAssociationId == old(nextAssociationId)
      ensures productId in old(products) ==>
                var comp := old(products)[productId].rawMaterials;
                var upserted := Upsert(comp, rawMaterialId, quantity, rawMaterials, old(nextAssociationId));
                && (upserted.Fail? ==> failure == Some(upserted.failure) && products == old(products)
                                       && nextAssociationId == old(nextAssociationId))
                && (upserted.Ok? ==>
                      && failure == None
                      && products == old(products)[productId := old(products)[productId].(rawMaterials := upserted.value)]
                      && nextAssociationId == old(nextAssociationId) + (if HasMaterial(comp, rawMaterialId) then 0 else 1))
    {
      if productId !in products {
        return Some(ProductNotFound);
      }
      var product := products[productId];
      var comp := product.rawMaterials;
      UpsertKeepsDistinct(comp, rawMaterialId, quantity, rawMaterials, nextAssociationId);
      var existing := FindAssociation(comp, rawMaterialId);
      if existing.Some? {
        var k := existing.value;
        product := product.(rawMaterials := comp[k := comp[k].(quantity := quantity)]);
      } else {
        if rawMaterialId !in rawMaterials {
          return Some(RawMaterialNotFound);
        }
        var association := ProductRawMaterial(nextAssociationId, rawMaterials[rawMaterialId], quantity);
        product := product.(rawMaterials := comp + [association]);
        nextAssociationId := nextAssociationId + 1;
      }
      products := products[productId := product];
      failure := None;
    }

    /** `removeRawMaterial`: unlink every association of the product with the raw material. */
    method RemoveRawMaterial(productId: int, rawMaterialId: int) returns (failure: Option<Failure>)
      requires Valid()
      modifies this
      ensures Valid()
      ensures rawMaterials == old(rawMaterials) && nextProductId == old(nextProductId)
      ensures nextAssociationId == old(nextAssociationId)
      ensures productId !in old(products) ==> failure == Some(ProductNotFound) && products == old(products)
      ensures productId in old(products) ==>
                && failure == None
                && products == old(products)[productId := old(products)[productId].(
                                 rawMaterials := Detach(old(products)[productId].rawMaterials, rawMaterialId))]
    {
      if productId !in products {
        return Some(ProductNotFound);
      }
      var product := products[productId];
      DetachKeepsDistinct(product.rawMaterials, rawMaterialId);
      product := product.(rawMaterials := Detach(product.rawMaterials, rawMaterialId));
      products := products[productId := product];
      failure := None;
    }
  }
}
