/**
 * The greedy production planner of `ProductionService.calculateSuggestion`.
 *
 * Products are visited in the order the repository returns them (value
 * descending). For each, the number of units the remaining stock allows is
 * the minimum over its materials with non-zero need of
 * floor(available / need); if that is at least one, the used stock is
 * reserved in a working copy of the stock map and a suggestion item is
 * recorded. The specification functions below describe the plan product by
 * product; `CalculateSuggestion` is the loop of the source, proved to
 * compute that plan.
 */
module Production {
  import opened Seqs
  import opened Entities

  /** The working copy of the stock: raw-material id to available amount. */
  type Stock = map<int, real>

  function RawMaterialId(m: RawMaterial): int { m.id }

  /** The stock map built from all raw materials (`Collectors.toMap` over their ids). */
  function StockOf(rawMaterials: seq<RawMaterial>): (stock: Stock)
    requires DistinctBy(rawMaterials, RawMaterialId)
    ensures stock.Keys == set m | m in rawMaterials :: m.id
    ensures forall k :: 0 <= k < |rawMaterials| ==>
              stock[rawMaterials[k].id] == rawMaterials[k].stockQuantity
  {
    if rawMaterials == [] then map[]
    else
      var n := |rawMaterials| - 1;
      var init := rawMaterials[..n];
      assert DistinctBy(init, RawMaterialId) by {
        forall i, j | 0 <= i < j < |init| ensures init[i].id != init[j].id {
          assert init[i] == rawMaterials[i] && init[j] == rawMaterials[j];
        }
      }
      assert rawMaterials == init + [rawMaterials[n]];
      StockOf(init)[rawMaterials[n].id := rawMaterials[n].stockQuantity]
  }

  /** `stock.getOrDefault(id, BigDecimal.ZERO)` */
  function Available(stock: Stock, id: int): real
  {
    if id in stock then stock[id] else 0.0
  }

  /** How many units one association allows: floor(available / need). */
  function Possible(prm: ProductRawMaterial, stock: Stock): int
    requires prm.quantity != 0.0
  {
    (Available(stock, MaterialId(prm)) / prm.quantity).Floor
  }

  function Min(a: int, b: int): int { if a <= b then a else b }

  /**
   * The unit count the inner loop computes over `comp`, in list order.
   * `None` plays the part of the `Integer.MAX_VALUE` start value: it stays
   * when every association has zero need.
   */
  function MaxUnits(comp: seq<ProductRawMaterial>, stock: Stock): Option<int>
  {
    if comp == [] then None
    else
      var n := |comp| - 1;
      var prev := MaxUnits(comp[..n], stock);
      if comp[n].quantity == 0.0 then prev
      else
        var possible := Possible(comp[n], stock);
        Some(if prev.None? then possible else Min(prev.value, possible))
  }

  /**
   * The unit count is the minimum of floor(available / need) over the
   * associations with non-zero need, and there is none exactly when every
   * need is zero.
   */
  lemma {:induction false} MaxUnitsIsMin(comp: seq<ProductRawMaterial>, stock: Stock)
    ensures MaxUnits(comp, stock).None? <==> forall k :: 0 <= k < |comp| ==> comp[k].quantity == 0.0
    ensures MaxUnits(comp, stock).Some? ==>
              forall k :: 0 <= k < |comp| && comp[k].quantity != 0.0 ==>
                MaxUnits(comp, stock).value <= Possible(comp[k], stock)
    ensures MaxUnits(comp, stock).Some? ==>
              exists k :: 0 <= k < |comp| && comp[k].quantity != 0.0 &&
                MaxUnits(comp, stock).value == Possible(comp[k], stock)
  {
    if comp != [] {
      var n := |comp| - 1;
      var init := comp[..n];
      assert forall k :: 0 <= k < n ==> init[k] == comp[k];
      MaxUnitsIsMin(init, stock);
      var prev := MaxUnits(init, stock);
      var r := MaxUnits(comp, stock);
      if comp[n].quantity != 0.0 {
        var possible := Possible(comp[n], stock);
        if prev.Some? && prev.value < possible {
          var k :| 0 <= k < n && init[k].quantity != 0.0 && prev.value == Possible(init[k], stock);
          assert comp[k] == init[k];
        } else {
          assert r.value == Possible(comp[n], stock);
        }
      } else if prev.Some? {
        var k :| 0 <= k < n && init[k].quantity != 0.0 && prev.value == Possible(init[k], stock);
        assert comp[k] == init[k];
      }
    }
  }

  /** Every material the composition refers to has an entry in `stock`. */
  ghost predicate Known(comp: seq<ProductRawMaterial>, stock: Stock)
  {
    forall k :: 0 <= k < |comp| ==> comp[k].rawMaterial.id in stock
  }

  ghost predicate ProductsKnown(products: seq<Product>, stock: Stock)
  {
    forall i :: 0 <= i < |products| ==> Known(products[i].rawMaterials, stock)
  }

  /**
   * The stock after reserving `need * units` of every material of `comp`,
   * in list order (`stock.put(id, stock.get(id) - need * units)`).
   */
  function Reserve(stock: Stock, comp: seq<ProductRawMaterial>, units: int): (r: Stock)
    requires Known(comp, stock)
    ensures r.Keys == stock.Keys
  {
    if comp == [] then stock
    else
      var n := |comp| - 1;
      assert forall k :: 0 <= k < n ==> comp[..n][k] == comp[k];
      var s := Reserve(stock, comp[..n], units);
      var id := comp[n].rawMaterial.id;
      s[id := s[id] - comp[n].quantity * units as real]
  }

  /** Reserving for a composition leaves the entries of all other materials unchanged. */
  lemma {:induction false} ReserveFrame(stock: Stock, comp: seq<ProductRawMaterial>, units: int, id: int)
    requires Known(comp, stock) && id in stock && !HasMaterial(comp, id)
    ensures Reserve(stock, comp, units)[id] == stock[id]
  {
    if comp != [] {
      var n := |comp| - 1;
      var init := comp[..n];
      assert forall k :: 0 <= k < n ==> init[k] == comp[k];
      assert comp[n].rawMaterial.id != id;
      ReserveFrame(stock, init, units, id);
    }
  }

  /** With distinct materials, each entry of the composition is reduced by exactly its own need. */
  lemma {:induction false} ReserveAt(stock: Stock, comp: seq<ProductRawMaterial>, units: int, k: nat)
    requires Known(comp, stock) && DistinctMaterials(comp) && k < |comp|
    ensures Reserve(stock, comp, units)[comp[k].rawMaterial.id]
            == stock[comp[k].rawMaterial.id] - comp[k].quantity * units as real
  {
    var n := |comp| - 1;
    var init := comp[..n];
    assert forall j :: 0 <= j < n ==> init[j] == comp[j];
    if k < n {
      ReserveAt(stock, init, units, k);
    } else {
      ReserveFrame(stock, init, units, comp[n].rawMaterial.id);
    }
  }

  /** If `units` is at most floor(s / q) for a positive need q, then q * units does not exceed s. */
  lemma FloorBound(s: real, q: real, units: int)
    requires q > 0.0 && units <= (s / q).Floor
    ensures q * units as real <= s
  {
    var f := (s / q).Floor;
    assert units as real <= f as real <= s / q;
    assert q * (units as real) <= q * (s / q);
  }

  ghost predicate NonNegative(stock: Stock)
  {
    forall id :: id in stock ==> stock[id] >= 0.0
  }

  ghost predicate NeedsNonNegative(comp: seq<ProductRawMaterial>)
  {
    forall k :: 0 <= k < |comp| ==> comp[k].quantity >= 0.0
  }

  /** One entry of the composition stays non-negative when `units` is within what that entry allows. */
  lemma EntryNonNegative(stock: Stock, comp: seq<ProductRawMaterial>, units: int, k: nat)
    requires Known(comp, stock) && DistinctMaterials(comp) && k < |comp|
    requires comp[k].quantity >= 0.0 && stock[comp[k].rawMaterial.id] >= 0.0
    requires comp[k].quantity != 0.0 ==> units <= Possible(comp[k], stock)
    ensures Reserve(stock, comp, units)[comp[k].rawMaterial.id] >= 0.0
  {
    var id := comp[k].rawMaterial.id;
    ReserveAt(stock, comp, units, k);
    if comp[k].quantity != 0.0 {
      assert Available(stock, id) == stock[id];
      FloorBound(stock[id], comp[k].quantity, units);
    }
  }

  /**
   * Reserving the unit count the stock allows never drives an entry below
   * zero, provided the stock and the needs start non-negative and no
   * material is listed twice.
   */
  lemma ReserveNonNegative(stock: Stock, comp: seq<ProductRawMaterial>, units: int)
    requires Known(comp, stock) && DistinctMaterials(comp) && NeedsNonNegative(comp)
    requires NonNegative(stock)
    requires MaxUnits(comp, stock) == Some(units)
    ensures NonNegative(Reserve(stock, comp, units))
  {
    var r := Reserve(stock, comp, units);
    MaxUnitsIsMin(comp, stock);
    assert forall k :: 0 <= k < |comp| && comp[k].quantity != 0.0 ==> units <= Possible(comp[k], stock);
    forall id | id in r ensures r[id] >= 0.0 {
      if HasMaterial(comp, id) {
        var k :| 0 <= k < |comp| && comp[k].rawMaterial.id == id;
        EntryNonNegative(stock, comp, units, k);
      } else {
        ReserveFrame(stock, comp, units, id);
      }
    }
  }

  // --- The plan, product by product ---

  datatype PlanState = PlanState(stock: Stock, items: seq<SuggestionItemDTO>, totalValue: real)

  /** Whether a product is suggested when it meets `stock`. */
  predicate Produces(p: Product, stock: Stock)
  {
    p.rawMaterials != [] && MaxUnits(p.rawMaterials, stock).Some?
    && MaxUnits(p.rawMaterials, stock).value > 0
  }

  function Item(p: Product, units: int): SuggestionItemDTO
  {
    SuggestionItemDTO(p.code, p.name, units, p.value * units as real)
  }

  /** One pass of the outer loop. */
  function Visit(st: PlanState, p: Product): (r: PlanState)
    requires Known(p.rawMaterials, st.stock)
    ensures r.stock.Keys == st.stock.Keys
  {
    if p.rawMaterials == [] then st
    else
      var maxUnits := MaxUnits(p.rawMaterials, st.stock);
      if maxUnits.Some? && maxUnits.value > 0 then
        var units := maxUnits.value;
        var item := Item(p, units);
        PlanState(Reserve(st.stock, p.rawMaterials, units), st.items + [item], st.totalValue + item.subtotal)
      else st
  }

  /**
   * A visit either leaves the state alone (the product is not produced) or
   * appends exactly the product's item, adds its subtotal, and changes the
   * stock only at the product's own materials.
   */
  lemma VisitEffect(st: PlanState, p: Product)
    requires Known(p.rawMaterials, st.stock)
    ensures !Produces(p, st.stock) ==> Visit(st, p) == st
    ensures Produces(p, st.stock) ==>
              var units := MaxUnits(p.rawMaterials, st.stock).value;
              && Visit(st, p).stock == Reserve(st.stock, p.rawMaterials, units)
              && Visit(st, p).items == st.items + [Item(p, units)]
              && Visit(st, p).totalValue == st.totalValue + Item(p, units).subtotal
    ensures forall id :: id in st.stock && !HasMaterial(p.rawMaterials, id) ==>
              Visit(st, p).stock[id] == st.stock[id]
  {
    if Produces(p, st.stock) {
      var units := MaxUnits(p.rawMaterials, st.stock).value;
      assert MaxUnits(p.rawMaterials, st.stock) == Some(units);
      assert units > 0;
      assert p.rawMaterials != [];
      assert Visit(st, p).items == st.items + [Item(p, units)];
      assert Visit(st, p) == PlanState(Reserve(st.stock, p.rawMaterials, units),
                                       st.items + [Item(p, units)],
                                       st.totalValue + Item(p, units).subtotal);
    }
    forall id | id in st.stock && !HasMaterial(p.rawMaterials, id)
      ensures Visit(st, p).stock[id] == st.stock[id]
    {
      if Produces(p, st.stock) {
        ReserveFrame(st.stock, p.rawMaterials, MaxUnits(p.rawMaterials, st.stock).value, id);
      }
    }
  }

  /** The state after visiting `products` in order, starting from `stock`. */
  function Plan(products: seq<Product>, stock: Stock): (r: PlanState)
    requires ProductsKnown(products, stock)
    ensures r.stock.Keys == stock.Keys
  {
    if products == [] then PlanState(stock, [], 0.0)
    else
      var n := |products| - 1;
      assert forall i :: 0 <= i < n ==> products[..n][i] == products[i];
      Visit(Plan(products[..n], stock), products[n])
  }

  /** The stock that product `j` sees: what the products before it left. */
  function StockBefore(products: seq<Product>, stock: Stock, j: nat): (r: Stock)
    requires ProductsKnown(products, stock) && j <= |products|
    ensures r.Keys == stock.Keys
  {
    assert forall i :: 0 <= i < j ==> products[..j][i] == products[i];
    Plan(products[..j], stock).stock
  }

  /** Dropping later products does not change what an earlier product sees. */
  lemma StockBeforePrefix(products: seq<Product>, stock: Stock, n: nat, j: nat)
    requires ProductsKnown(products, stock) && j <= n <= |products|
    ensures ProductsKnown(products[..n], stock)
    ensures StockBefore(products[..n], stock, j) == StockBefore(products, stock, j)
  {
    assert forall i :: 0 <= i < n ==> products[..n][i] == products[i];
    assert products[..n][..j] == products[..j];
  }

  /** The positions, in visiting order, of the products that get an item. */
  ghost function Picks(products: seq<Product>, stock: Stock): seq<nat>
    requires ProductsKnown(products, stock)
  {
    if products == [] then []
    else
      var n := |products| - 1;
      assert forall i :: 0 <= i < n ==> products[..n][i] == products[i];
      var prev := Picks(products[..n], stock);
      if Produces(products[n], StockBefore(products, stock, n)) then prev + [n] else prev
  }

  /** The picked positions are valid and strictly increasing: the plan visits each product once, in order. */
  lemma {:induction false} PicksIncreasing(products: seq<Product>, stock: Stock)
    requires ProductsKnown(products, stock)
    ensures forall k :: 0 <= k < |Picks(products, stock)| ==> Picks(products, stock)[k] < |products|
    ensures forall k, l :: 0 <= k < l < |Picks(products, stock)| ==>
              Picks(products, stock)[k] < Picks(products, stock)[l]
  {
    if products != [] {
      var n := |products| - 1;
      var init := products[..n];
      StockBeforePrefix(products, stock, n, 0);
      PicksIncreasing(init, stock);
      var prev := Picks(init, stock);
      var picks := Picks(products, stock);
      assert picks == prev || picks == prev + [n];
      assert forall k :: 0 <= k < |prev| ==> picks[k] == prev[k] && prev[k] < n;
      forall k, l | 0 <= k < l < |picks| ensures picks[k] < picks[l] {
        if l == |prev| {
          assert prev[k] < n;
        }
      }
    }
  }

  /** A product is picked exactly when it is produced from the stock the products before it left. */
  lemma {:induction false} PicksProduced(products: seq<Product>, stock: Stock)
    requires ProductsKnown(products, stock)
    ensures forall j :: 0 <= j < |products| ==>
              (j in Picks(products, stock) <==> Produces(products[j], StockBefore(products, stock, j)))
  {
    if products != [] {
      var n := |products| - 1;
      var init := products[..n];
      StockBeforePrefix(products, stock, n, 0);
      PicksProduced(init, stock);
      PicksIncreasing(init, stock);
      var prev := Picks(init, stock);
      var picks := Picks(products, stock);
      var produced := Produces(products[n], StockBefore(products, stock, n));
      assert picks == if produced then prev + [n] else prev;
      forall j | 0 <= j < |products|
        ensures j in picks <==> Produces(products[j], StockBefore(products, stock, j))
      {
        if j < n {
          StockBeforePrefix(products, stock, n, j);
          assert init[j] == products[j];
          assert j in picks <==> j in prev;
        } else {
          assert n !in prev;
        }
      }
    }
  }

  /**
   * The suggestion items are exactly one item per picked product, in
   * visiting order: item k names product Picks[k], its quantity is the unit
   * count that product's materials allow in the stock the earlier products
   * left (at least one), and its subtotal is value times quantity. A
   * product with an empty composition is never picked (`Produces`).
   */
  lemma {:induction false} PlanItems(products: seq<Product>, stock: Stock)
    requires ProductsKnown(products, stock)
    ensures |Plan(products, stock).items| == |Picks(products, stock)|
    ensures forall k :: 0 <= k < |Picks(products, stock)| ==>
              var j := Picks(products, stock)[k];
              j < |products| &&
              var units := MaxUnits(products[j].rawMaterials, StockBefore(products, stock, j));
              && products[j].rawMaterials != []
              && units.Some? && units.value >= 1
              && Plan(products, stock).items[k] == Item(products[j], units.value)
  {
    if products != [] {
      var n := |products| - 1;
      var init := products[..n];
      StockBeforePrefix(products, stock, n, 0);
      PlanItems(init, stock);
      PicksIncreasing(init, stock);
      var prev := Plan(init, stock);
      var prevPicks := Picks(init, stock);
      VisitEffect(prev, products[n]);
      var picks := Picks(products, stock);
      var r := Plan(products, stock);
      var produced := Produces(products[n], prev.stock);
      assert StockBefore(products, stock, n) == prev.stock;
      assert picks == if produced then prevPicks + [n] else prevPicks;
      assert r.items == if produced then prev.items + [Item(products[n], MaxUnits(products[n].rawMaterials, prev.stock).value)]
                        else prev.items;
      forall k | 0 <= k < |picks|
        ensures var j := picks[k];
                j < |products| &&
                var units := MaxUnits(products[j].rawMaterials, StockBefore(products, stock, j));
                && products[j].rawMaterials != []
                && units.Some? && units.value >= 1
                && r.items[k] == Item(products[j], units.value)
      {
        if k < |prevPicks| {
          var j := picks[k];
          assert j == prevPicks[k] && j < n;
          StockBeforePrefix(products, stock, n, j);
          assert init[j] == products[j];
          assert r.items[k] == prev.items[k];
        } else {
          assert picks[k] == n && produced;
        }
      }
    }
  }

  function SumSubtotals(items: seq<SuggestionItemDTO>): real
  {
    if items == [] then 0.0 else SumSubtotals(items[..|items| - 1]) + items[|items| - 1].subtotal
  }

  lemma SumSubtotalsAppend(items: seq<SuggestionItemDTO>, item: SuggestionItemDTO)
    ensures SumSubtotals(items + [item]) == SumSubtotals(items) + item.subtotal
  {
    assert (items + [item])[..|items|] == items;
  }

  /** `totalValue` is the sum of the items' subtotals. */
  lemma {:induction false} PlanTotalIsSum(products: seq<Product>, stock: Stock)
    requires ProductsKnown(products, stock)
    ensures Plan(products, stock).totalValue == SumSubtotals(Plan(products, stock).items)
  {
    if products != [] {
      var n := |products| - 1;
      assert forall i :: 0 <= i < n ==> products[..n][i] == products[i];
      PlanTotalIsSum(products[..n], stock);
      var prev := Plan(products[..n], stock);
      VisitEffect(prev, products[n]);
      var r := Plan(products, stock);
      if Produces(products[n], prev.stock) {
        var item := Item(products[n], MaxUnits(products[n].rawMaterials, prev.stock).value);
        SumSubtotalsAppend(prev.items, item);
      }
    }
  }

  ghost predicate WellFormedProducts(products: seq<Product>)
  {
    forall i :: 0 <= i < |products| ==>
      DistinctMaterials(products[i].rawMaterials) && NeedsNonNegative(products[i].rawMaterials)
  }

  /**
   * Starting from non-negative stock, with non-negative needs and no
   * material listed twice in a product, no stock entry ever goes negative.
   */
  lemma {:induction false} PlanNonNegative(products: seq<Product>, stock: Stock)
    requires ProductsKnown(products, stock) && WellFormedProducts(products)
    requires NonNegative(stock)
    ensures NonNegative(Plan(products, stock).stock)
  {
    if products != [] {
      var n := |products| - 1;
      assert forall i :: 0 <= i < n ==> products[..n][i] == products[i];
      PlanNonNegative(products[..n], stock);
      var prev := Plan(products[..n], stock);
      var p := products[n];
      if p.rawMaterials != [] && MaxUnits(p.rawMaterials, prev.stock).Some? {
        ReserveNonNegative(prev.stock, p.rawMaterials, MaxUnits(p.rawMaterials, prev.stock).value);
      }
    }
  }

  /**
   * `calculateSuggestion`: `products` is the repository's list in value
   * descending order and `rawMaterials` all raw materials; every material a
   * product refers to is one of them (the association's foreign key).
   */
  method CalculateSuggestion(products: seq<Product>, rawMaterials: seq<RawMaterial>)
    returns (result: ProductionSuggestionDTO)
    requires DistinctBy(rawMaterials, RawMaterialId)
    requires forall i, k :: 0 <= i < |products| && 0 <= k < |products[i].rawMaterials| ==>
               products[i].rawMaterials[k].rawMaterial.id in StockOf(rawMaterials)
    ensures var plan := Plan(products, StockOf(rawMaterials));
            result == ProductionSuggestionDTO(plan.items, plan.totalValue)
  {
    var stock := StockOf(rawMaterials);
    ghost var initial := stock;
    assert ProductsKnown(products, initial);
    var suggestionItems: seq<SuggestionItemDTO> := [];
    var totalValue := 0.0;

    for i := 0 to |products|
      invariant ProductsKnown(products[..i], initial)
      invariant PlanState(stock, suggestionItems, totalValue) == Plan(products[..i], initial)
    {
      PrefixKnown(products, initial, i + 1);
      assert products[..i + 1][..i] == products[..i];
      assert products[..i + 1][i] == products[i];
      stock, suggestionItems, totalValue := VisitProduct(products[i], stock, suggestionItems, totalValue);
    }
    assert products[..|products|] == products;
    result := ProductionSuggestionDTO(suggestionItems, totalValue);
  }

  /** The body of the outer loop: one product against the remaining stock (lines 62-100). */
  method VisitProduct(product: Product, stock: Stock, suggestionItems: seq<SuggestionItemDTO>, totalValue: real)
    returns (stock': Stock, suggestionItems': seq<SuggestionItemDTO>, totalValue': real)
    requires Known(product.rawMaterials, stock)
    ensures PlanState(stock', suggestionItems', totalValue')
            == Visit(PlanState(stock, suggestionItems, totalValue), product)
  {
    stock', suggestionItems', totalValue' := stock, suggestionItems, totalValue;
    if product.rawMaterials == [] {
      return;
    }
    var maxUnits := UnitsFor(product.rawMaterials, stock);
    if maxUnits.Some? && maxUnits.value > 0 {
      var units := maxUnits.value;
      stock' := ReserveStock(stock, product.rawMaterials, units);
      var subtotal := product.value * units as real;
      totalValue' := totalValue + subtotal;
      var item := SuggestionItemDTO(product.code, product.name, units, subtotal);
      assert item == Item(product, units);
      suggestionItems' := suggestionItems + [item];
    }
  }

  lemma PrefixKnown(products: seq<Product>, stock: Stock, n: nat)
    requires ProductsKnown(products, stock) && n <= |products|
    ensures ProductsKnown(products[..n], stock)
  {
    assert forall i :: 0 <= i < n ==> products[..n][i] == products[i];
  }

  /** The inner loop that computes how many units the stock allows (lines 67-79). */
  method UnitsFor(comp: seq<ProductRawMaterial>, stock: Stock) returns (maxUnits: Option<int>)
    ensures maxUnits == MaxUnits(comp, stock)
  {
    maxUnits := None;
    for j := 0 to |comp|
      invariant maxUnits == MaxUnits(comp[..j], stock)
    {
      assert comp[..j + 1][..j] == comp[..j];
      var neededPerUnit := comp[j].quantity;
      var available := if comp[j].rawMaterial.id in stock then stock[comp[j].rawMaterial.id] else 0.0;
      if neededPerUnit == 0.0 {
        continue;
      }
      var possible := (available / neededPerUnit).Floor;
      maxUnits := Some(if maxUnits.None? then possible else Min(maxUnits.value, possible));
    }
    assert comp[..|comp|] == comp;
  }

  lemma KnownPrefix(comp: seq<ProductRawMaterial>, stock: Stock, n: nat)
    requires Known(comp, stock) && n <= |comp|
    ensures Known(comp[..n], stock)
  {
    assert forall k :: 0 <= k < n ==> comp[..n][k] == comp[k];
  }

  /** The inner loop that reserves the used stock (lines 84-88). */
  method ReserveStock(stock: Stock, comp: seq<ProductRawMaterial>, units: int) returns (r: Stock)
    requires Known(comp, stock)
    ensures r == Reserve(stock, comp, units)
  {
    r := stock;
    for j := 0 to |comp|
      invariant r.Keys == stock.Keys
      invariant r == Reserve(stock, comp[..j], units)
    {
      KnownPrefix(comp, stock, j + 1);
      assert comp[..j + 1][..j] == comp[..j];
      assert comp[..j + 1][j] == comp[j];
      var id := comp[j].rawMaterial.id;
      var neededTotal := comp[j].quantity * units as real;
      ghost var next := Reserve(stock, comp[..j + 1], units);
      assert next[id] == r[id] - neededTotal;
      assert forall k :: k in next && k != id ==> next[k] == r[k];
      r := r[id := r[id] - neededTotal];
    }
    assert comp[..|comp|] == comp;
  }

  /** One product needing 2 of a material with stock 100 is suggested 50 times. */
  lemma ChairExample()
    ensures var wood := RawMaterial(1, "RM001", "Madeira de Carvalho", 100.0);
            var chair := Product(1, "PROD001", " Cadeira de Madeira", 150.0,
                                 [ProductRawMaterial(1, wood, 2.0)]);
            var plan := Plan([chair], StockOf([wood]));
            plan.items == [SuggestionItemDTO("PROD001", " Cadeira de Madeira", 50, 7500.0)]
            && plan.totalValue == 7500.0 && plan.stock[1] == 0.0
  {
    var wood := RawMaterial(1, "RM001", "Madeira de Carvalho", 100.0);
    var chair := Product(1, "PROD001", " Cadeira de Madeira", 150.0, [ProductRawMaterial(1, wood, 2.0)]);
    var stock := StockOf([wood]);
    assert stock == map[1 := 100.0];
    assert [chair][..0] == [];
    assert (100.0 / 2.0).Floor == 50;
    assert MaxUnits(chair.rawMaterials, stock) == Some(50) by {
      assert chair.rawMaterials[..0] == [];
    }
    assert Reserve(stock, chair.rawMaterials, 50) == map[1 := 0.0] by {
      assert chair.rawMaterials[..0] == [];
    }
  }
}
