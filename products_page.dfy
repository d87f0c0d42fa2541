/**
 * The products page of the web client: the draft composition of a product
 * still to be created, the single-row quantity editor, the create-then-attach
 * orchestration, and the editing of an existing product's composition.
 * Remote calls, and the settling of each call the page awaits, are
 * recorded in a trace; the calls' outcomes are inputs.
 */
module ProductsView {
  import opened Seqs
  import opened ClientTypes
  import PS = ProductSlice
  import RS = RawMaterialSlice

  /** An entry of the draft composition of a product not yet created. */
  datatype DraftEntry = DraftEntry(rawMaterialId: int, quantity: real)

  function DraftId(e: DraftEntry): int { e.rawMaterialId }

  /**
   * The entries of the trace: the remote calls the page makes, directly or
   * through the stores' thunks, and `Settled`, recorded when an `await` on
   * the call just before it returns (`ok` when the call was fulfilled).
   */
  datatype Call =
    | CreateProduct(input: ProductInput)
    | AttachRawMaterial(productId: int, rawMaterialId: int, quantity: real)
    | FetchProducts
    | FetchRawMaterials
    | DeleteProduct(id: int)
    | DetachRawMaterial(productId: int, rawMaterialId: int)
    | Settled(ok: bool)

  /** What a form submission shows the user: nothing happened, an alert, or the change was made. */
  datatype Feedback = Done | Ignored | DuplicateAlert

  /** JavaScript truthiness of a nullable id: null and 0 are false. */
  predicate Truthy(id: Option<int>)
  {
    id.Some? && id.value != 0
  }

  // --- The draft composition ---

  /**
   * Adding `rmQty` of material `rmId` to the draft: a non-positive quantity
   * is ignored, a material already in the draft raises an alert, and
   * otherwise the entry is appended. The draft never lists a material twice.
   */
  function DraftAdd(draft: seq<DraftEntry>, rmId: int, rmQty: real): (r: (seq<DraftEntry>, Feedback))
    ensures rmQty <= 0.0 ==> r == (draft, Ignored)
    ensures rmQty > 0.0 && HasKey(draft, DraftId, rmId) ==> r == (draft, DuplicateAlert)
    ensures r.1 == Done <==> rmQty > 0.0 && !HasKey(draft, DraftId, rmId)
    ensures r.1 == Done ==> r.0 == draft + [DraftEntry(rmId, rmQty)]
    ensures DistinctBy(draft, DraftId) ==> DistinctBy(r.0, DraftId)
  {
    if rmQty <= 0.0 then (draft, Ignored)
    else if HasKey(draft, DraftId, rmId) then (draft, DuplicateAlert)
    else
      AppendKeepsDistinctIfDistinct(draft, DraftEntry(rmId, rmQty));
      (draft + [DraftEntry(rmId, rmQty)], Done)
  }

  lemma AppendKeepsDistinctIfDistinct(draft: seq<DraftEntry>, e: DraftEntry)
    requires !HasKey(draft, DraftId, e.rawMaterialId)
    ensures DistinctBy(draft, DraftId) ==> DistinctBy(draft + [e], DraftId)
  {
    if DistinctBy(draft, DraftId) {
      AppendKeepsDistinct(draft, DraftId, e);
    }
  }

  /** Where `Array.prototype.splice(index, 1)` starts: a negative index counts from the end. */
  function SpliceStart(len: nat, index: int): (start: nat)
    ensures start <= len
  {
    if index < 0 then (if len + index < 0 then 0 else len + index)
    else if index > len then len
    else index
  }

  /**
   * `splice(index, 1)` on a copy: the element at the start position is
   * removed and the others keep their order; past the end nothing is removed.
   */
  function SpliceOne<T>(s: seq<T>, index: int): (r: seq<T>)
    ensures 0 <= index < |s| ==> |r| == |s| - 1
    ensures 0 <= index < |s| ==> forall k :: 0 <= k < |r| ==> r[k] == if k < index then s[k] else s[k + 1]
    ensures index >= |s| ==> r == s
    ensures -|s| <= index < 0 ==> r == s[..|s| + index] + s[|s| + index + 1..]
  {
    var start := SpliceStart(|s|, index);
    if start < |s| then s[..start] + s[start + 1..] else s
  }

  /** Putting the removed element back where it was restores the list. */
  lemma SpliceOneInverse<T>(s: seq<T>, index: int)
    requires 0 <= index < |s|
    ensures SpliceOne(s, index)[..index] + [s[index]] + SpliceOne(s, index)[index..] == s
  {
    var r := SpliceOne(s, index);
    assert r[..index] == s[..index];
    assert r[index..] == s[index + 1..];
  }

  /** Removing an entry keeps the draft free of repeated materials. */
  lemma SpliceKeepsDistinct(draft: seq<DraftEntry>, index: int)
    requires DistinctBy(draft, DraftId)
    ensures DistinctBy(SpliceOne(draft, index), DraftId)
  {
    var start := SpliceStart(|draft|, index);
    var r := SpliceOne(draft, index);
    if start < |draft| {
      forall i, j | 0 <= i < j < |r| ensures DraftId(r[i]) != DraftId(r[j]) {
        var i' := if i < start then i else i + 1;
        var j' := if j < start then j else j + 1;
        assert r[i] == draft[i'] && r[j] == draft[j'];
      }
    }
  }

  /**
   * Committing a row edit: only the quantity at `index` changes, with no
   * check on its sign and none for duplicates; the materials stay as they were.
   */
  function WithQuantity(draft: seq<DraftEntry>, index: nat, quantity: real): (r: seq<DraftEntry>)
    requires index < |draft|
    ensures |r| == |draft|
    ensures forall k :: 0 <= k < |r| ==> r[k].rawMaterialId == draft[k].rawMaterialId
    ensures r[index].quantity == quantity
    ensures forall k :: 0 <= k < |r| && k != index ==> r[k] == draft[k]
    ensures DistinctBy(draft, DraftId) ==> DistinctBy(r, DraftId)
  {
    draft[index := draft[index].(quantity := quantity)]
  }

  /**
   * A row edit can leave a quantity that the add guard would have refused:
   * adding with quantity zero is ignored, editing a row to zero is kept.
   */
  lemma RowEditSkipsGuard()
    ensures var draft := DraftAdd([], 1, 2.0).0;
            && DraftAdd(draft, 2, 0.0) == (draft, Ignored)
            && DraftAdd(draft, 1, 2.0).1 == DuplicateAlert
            && WithQuantity(draft, 0, 0.0)[0].quantity == 0.0
  {
    assert DraftAdd([], 1, 2.0).0 == [DraftEntry(1, 2.0)];
    assert HasKey([DraftEntry(1, 2.0)], DraftId, 1) by {
      assert DraftId([DraftEntry(1, 2.0)][0]) == 1;
    }
  }

  /** The attach calls for the draft, one per entry and in draft order, all for product `productId`. */
  function AttachCalls(productId: int, draft: seq<DraftEntry>): (r: seq<Call>)
    ensures |r| == |draft|
    ensures forall k :: 0 <= k < |draft| ==>
              r[k] == AttachRawMaterial(productId, draft[k].rawMaterialId, draft[k].quantity)
  {
    if draft == [] then []
    else
      var n := |draft| - 1;
      AttachCalls(productId, draft[..n]) + [AttachRawMaterial(productId, draft[n].rawMaterialId, draft[n].quantity)]
  }

  /** Whether the `k`-th attach of the create loop is fulfilled; outcomes past `attachOk` count as rejected. */
  function AttachOutcome(attachOk: seq<bool>, k: nat): bool
  {
    k < |attachOk| && attachOk[k]
  }

  /**
   * The trace of the create loop: for each draft entry in draft order, its
   * attach call immediately followed by that call's settling, so every
   * attach has settled before the next one is issued.
   */
  function AwaitedAttaches(productId: int, draft: seq<DraftEntry>, attachOk: seq<bool>): (r: seq<Call>)
    ensures |r| == 2 * |draft|
    ensures forall k :: 0 <= k < |draft| ==>
              && r[2 * k] == AttachRawMaterial(productId, draft[k].rawMaterialId, draft[k].quantity)
              && r[2 * k + 1] == Settled(AttachOutcome(attachOk, k))
  {
    if draft == [] then []
    else
      var n := |draft| - 1;
      var prev := AwaitedAttaches(productId, draft[..n], attachOk);
      var r := prev + [AttachRawMaterial(productId, draft[n].rawMaterialId, draft[n].quantity),
                       Settled(AttachOutcome(attachOk, n))];
      assert forall k :: 0 <= k < n ==> draft[..n][k] == draft[k] && r[2 * k] == prev[2 * k] && r[2 * k + 1] == prev[2 * k + 1];
      r
  }

  /** The awaited trace of a longer draft prefix extends that of the shorter one by one attach and its settling. */
  lemma AwaitedAttachesSnoc(productId: int, draft: seq<DraftEntry>, attachOk: seq<bool>, i: nat)
    requires i < |draft|
    ensures AwaitedAttaches(productId, draft[..i + 1], attachOk)
            == AwaitedAttaches(productId, draft[..i], attachOk)
               + [AttachRawMaterial(productId, draft[i].rawMaterialId, draft[i].quantity), Settled(AttachOutcome(attachOk, i))]
  {
    assert draft[..i + 1][..i] == draft[..i];
  }

  /** Whether a trace entry is a settling rather than a call. */
  predicate IsSettling(c: Call)
  {
    c.Settled?
  }

  /** Leaving out the settlings, the create loop issues exactly `AttachCalls`, whatever the outcomes. */
  lemma {:induction false} IssuedAttaches(productId: int, draft: seq<DraftEntry>, attachOk: seq<bool>)
    ensures RemoveWhere(AwaitedAttaches(productId, draft, attachOk), IsSettling) == AttachCalls(productId, draft)
  {
    if draft != [] {
      var n := |draft| - 1;
      var attach := AttachRawMaterial(productId, draft[n].rawMaterialId, draft[n].quantity);
      var settled := Settled(AttachOutcome(attachOk, n));
      var prev := AwaitedAttaches(productId, draft[..n], attachOk);
      IssuedAttaches(productId, draft[..n], attachOk);
      RemoveWhereAppend(prev, [attach, settled], IsSettling);
      assert [attach, settled][1..] == [settled] && [settled][1..] == [];
      assert RemoveWhere([attach, settled], IsSettling) == [attach];
    }
  }

  /** `products.find(p => p.id === id)`: the first product with that id; a null id matches none. */
  function FindProduct(items: seq<Product>, id: Option<int>): (r: Option<Product>)
    ensures r.Some? <==> id.Some? && exists k :: 0 <= k < |items| && items[k].id == id.value
    ensures r.Some? ==> exists k :: 0 <= k < |items| && items[k] == r.value && r.value.id == id.value
                          && forall j :: 0 <= j < k ==> items[j].id != id.value
  {
    if id.None? || items == [] then None
    else if items[0].id == id.value then Some(items[0])
    else
      var rest := FindProduct(items[1..], id);
      assert forall k :: 0 < k < |items| ==> items[k] == items[1..][k - 1];
      if rest.Some? then
        ghost var k :| 0 <= k < |items[1..]| && items[1..][k] == rest.value && rest.value.id == id.value
                       && forall j :: 0 <= j < k ==> items[1..][j].id != id.value;
        assert items[k + 1] == rest.value;
        rest
      else rest
  }

  /** Whether the product's loaded composition already links material `rmId`. */
  predicate Links(p: Product, rmId: int)
  {
    exists k :: 0 <= k < |p.rawMaterials| && p.rawMaterials[k].rawMaterialId == rmId
  }

  /**
   * The guard of `handleAddMaterial`: no selected product (a null or zero
   * id, or one not among the loaded products) means nothing happens; a
   * material its loaded composition already links raises an alert. There is
   * no check on the quantity.
   */
  function AddMaterialFeedback(selectedId: Option<int>, selected: Option<Product>, rmId: int): (r: Feedback)
    ensures r == Ignored <==> !Truthy(selectedId) || selected.None?
    ensures r == DuplicateAlert <==> Truthy(selectedId) && selected.Some? && Links(selected.value, rmId)
  {
    if !Truthy(selectedId) || selected.None? then Ignored
    else if Links(selected.value, rmId) then DuplicateAlert
    else Done
  }

  /** The page's own state, one field per state hook, plus the trace of remote calls. */
  datatype PageState = PageState(
    selectedProductId: Option<int>,
    isCreateModalOpen: bool,
    pCode: string, pName: string, pValue: real,
    newProductMaterials: seq<DraftEntry>,
    editingMatIndex: Option<int>, editingQty: real,
    editExistingMatId: Option<int>, editExistingQty: real,
    rmId: int, rmQty: real,
    calls: seq<Call>)

  class ProductsPage {
    const products: PS.ProductStore
    const rawMaterials: RS.RawMaterialStore

    var selectedProductId: Option<int>
    var isCreateModalOpen: bool
    var pCode: string
    var pName: string
    var pValue: real
    var newProductMaterials: seq<DraftEntry>
    var editingMatIndex: Option<int>
    var editingQty: real
    var editExistingMatId: Option<int>
    var editExistingQty: real
    var rmId: int
    var rmQty: real
    var calls: seq<Call>

    function State(): PageState
      reads this
    {
      PageState(selectedProductId, isCreateModalOpen, pCode, pName, pValue, newProductMaterials,
                editingMatIndex, editingQty, editExistingMatId, editExistingQty, rmId, rmQty, calls)
    }

    /** The draft never lists a material twice. */
    ghost predicate Valid()
      reads this
    {
      DistinctBy(newProductMaterials, DraftId)
    }

    /** The selected product among the loaded ones (`selectedProduct`). */
    function SelectedProduct(): Option<Product>
      reads this, products
    {
      FindProduct(products.items, selectedProductId)
    }

    constructor (products: PS.ProductStore, rawMaterials: RS.RawMaterialStore)
      ensures Valid()
      ensures this.products == products && this.rawMaterials == rawMaterials
      ensures State() == PageState(None, false, "", "", 0.0, [], None, 0.0, None, 0.0, 0, 0.0, [])
    {
      this.products := products;
      this.rawMaterials := rawMaterials;
      selectedProductId := None;
      isCreateModalOpen := false;
      pCode, pName, pValue := "", "", 0.0;
      newProductMaterials := [];
      editingMatIndex, editingQty := None, 0.0;
      editExistingMatId, editExistingQty := None, 0.0;
      rmId, rmQty := 0, 0.0;
      calls := [];
    }

    /** The mount effect: fetch both lists; both stores start loading. */
    method Mount()
      modifies this, products, rawMaterials
      ensures State() == old(State()).(calls := old(calls) + [FetchProducts, FetchRawMaterials])
      ensures products.State() == PS.Reduced(old(products.State()), PS.FetchPending)
      ensures rawMaterials.State() == RS.Reduced(old(rawMaterials.State()), RS.FetchPending)
    {
      calls := calls + [FetchProducts];
      products.Dispatch(PS.FetchPending);
      calls := calls + [FetchRawMaterials];
      rawMaterials.Dispatch(RS.FetchPending);
    }

    /** The selection effect: with no material chosen yet, choose the first loaded one. */
    method SyncDefaultMaterial()
      modifies this
      ensures |rawMaterials.items| > 0 && old(rmId) == 0 ==>
                State() == old(State()).(rmId := rawMaterials.items[0].id)
      ensures !(|rawMaterials.items| > 0 && old(rmId) == 0) ==> State() == old(State())
    {
      if |rawMaterials.items| > 0 && rmId == 0 {
        rmId := rawMaterials.items[0].id;
      }
    }

    method OpenCreateModal()
      modifies this
      ensures State() == old(State()).(isCreateModalOpen := true)
    {
      isCreateModalOpen := true;
    }

    /** Closing or cancelling the create modal keeps the draft and the form fields. */
    method CloseCreateModal()
      modifies this
      ensures State() == old(State()).(isCreateModalOpen := false)
    {
      isCreateModalOpen := false;
    }

    /** Clicking a row or its edit button opens the product's edit modal. */
    method SelectProduct(id: int)
      modifies this
      ensures State() == old(State()).(selectedProductId := Some(id))
    {
      selectedProductId := Some(id);
    }

    /** `handleAddMaterialToNewProduct`. */
    method HandleAddMaterialToNewProduct() returns (feedback: Feedback)
      requires Valid()
      modifies this
      ensures Valid()
      ensures feedback == DraftAdd(old(newProductMaterials), old(rmId), old(rmQty)).1
      ensures feedback == Done ==>
                State() == old(State()).(newProductMaterials := DraftAdd(old(newProductMaterials), old(rmId), old(rmQty)).0,
                                         rmQty := 0.0)
      ensures feedback != Done ==> State() == old(State())
    {
      if rmQty <= 0.0 {
        return Ignored;
      }
      var alreadyAdded := HasKey(newProductMaterials, DraftId, rmId);
      if alreadyAdded {
        return DuplicateAlert;
      }
      AppendKeepsDistinct(newProductMaterials, DraftId, DraftEntry(rmId, rmQty));
      newProductMaterials := newProductMaterials + [DraftEntry(rmId, rmQty)];
      rmQty := 0.0;
      feedback := Done;
    }

    /** `handleRemoveMaterialFromNewProduct`. */
    method HandleRemoveMaterialFromNewProduct(index: int)
      requires Valid()
      modifies this
      ensures Valid()
      ensures State() == old(State()).(newProductMaterials := SpliceOne(old(newProductMaterials), index))
    {
      SpliceKeepsDistinct(newProductMaterials, index);
      var updated := newProductMaterials;
      updated := SpliceOne(updated, index);
      newProductMaterials := updated;
    }

    /** `startEditingMaterial`: a single slot, so at most one draft row is in edit mode. */
    method StartEditingMaterial(index: int, quantity: real)
      modifies this
      ensures State() == old(State()).(editingMatIndex := Some(index), editingQty := quantity)
    {
      editingMatIndex := Some(index);
      editingQty := quantity;
    }

    /** `saveEditingMaterial`: the edited row is one the draft lists. */
    method SaveEditingMaterial(index: int)
      requires Valid() && 0 <= index < |newProductMaterials|
      modifies this
      ensures Valid()
      ensures State() == old(State()).(newProductMaterials := WithQuantity(old(newProductMaterials), index, old(editingQty)),
                                       editingMatIndex := None)
    {
      var updated := newProductMaterials;
      updated := updated[index := updated[index].(quantity := editingQty)];
      newProductMaterials := updated;
      editingMatIndex := None;
    }

    /** The cancel button of a draft row in edit mode. */
    method CancelEditingMaterial()
      modifies this
      ensures State() == old(State()).(editingMatIndex := None)
    {
      editingMatIndex := None;
    }

    /**
     * `handleCreateProduct`. `created` is the created product, or None when
     * creation is rejected; `attachOk[i]` says whether the i-th attach
     * succeeds (a missing entry is a failure).
     */
    method HandleCreateProduct(created: Option<Product>, attachOk: seq<bool>)
      requires Valid()
      modifies this, products
      ensures Valid()
      ensures var create := CreateProduct(ProductInput(old(pCode), old(pName), old(pValue)));
              created.None? ==>
                && State() == old(State()).(calls := old(calls) + [create, Settled(false)])
                && products.State() == old(products.State())
      ensures var create := CreateProduct(ProductInput(old(pCode), old(pName), old(pValue)));
              created.Some? ==>
                && State() == old(State()).(pCode := "", pName := "", pValue := 0.0, newProductMaterials := [],
                                            isCreateModalOpen := false,
                                            calls := old(calls) + [create, Settled(true)]
                                                     + AwaitedAttaches(created.value.id, old(newProductMaterials), attachOk)
                                                     + [FetchProducts])
                && products.State() == PS.Reduced(PS.Reduced(old(products.State()), PS.CreateFulfilled(created.value)),
                                                  PS.FetchPending)
    {
      var create := CreateProduct(ProductInput(pCode, pName, pValue));
      calls := calls + [create];
      products.Dispatch(PS.CreatePending);
      calls := calls + [Settled(created.Some?)];
      if created.None? {
        products.Dispatch(PS.CreateRejected);
        return;
      }
      var newProduct := created.value;
      products.Dispatch(PS.CreateFulfilled(newProduct));
      FinishCreate(newProduct.id, attachOk);
    }

    /** One iteration of the attach loop: record the call for draft entry `i` and await it. */
    method AttachOne(productId: int, i: nat, ok: bool)
      requires i < |newProductMaterials|
      modifies this, products
      ensures State() == old(State()).(calls := old(calls) + [AttachRawMaterial(productId, old(newProductMaterials[i]).rawMaterialId,
                                                                                old(newProductMaterials[i]).quantity),
                                                              Settled(ok)])
      ensures products.State() == old(products.State())
    {
      var mat := newProductMaterials[i];
      calls := calls + [AttachRawMaterial(productId, mat.rawMaterialId, mat.quantity)];
      AwaitAttach(productId, mat.rawMaterialId, mat.quantity, ok);
    }

    /**
     * One awaited `addRawMaterialToProduct` thunk: its pending action, then
     * its fulfilled or rejected one (`ok`), which the reducer all ignore;
     * the `await` returns once the call has settled.
     */
    method AwaitAttach(productId: int, rawMaterialId: int, quantity: real, ok: bool)
      modifies this, products
      ensures State() == old(State()).(calls := old(calls) + [Settled(ok)])
      ensures products.State() == old(products.State())
    {
      products.Dispatch(PS.AddRawMaterialPending);
      if ok {
        products.Dispatch(PS.AddRawMaterialFulfilled(productId, rawMaterialId, quantity));
      } else {
        products.Dispatch(PS.AddRawMaterialRejected);
      }
      calls := calls + [Settled(ok)];
    }

    /** After a creation: empty the form and the draft, close the modal. */
    method ResetCreateForm()
      modifies this
      ensures State() == old(State()).(pCode := "", pName := "", pValue := 0.0, newProductMaterials := [],
                                       isCreateModalOpen := false)
    {
      pCode, pName, pValue := "", "", 0.0;
      newProductMaterials := [];
      isCreateModalOpen := false;
    }

    /** A refetch of the product list, `fetchProducts`, not awaited: the store starts loading. */
    method Refetch()
      modifies this, products
      ensures State() == old(State()).(calls := old(calls) + [FetchProducts])
      ensures products.State() == PS.Reduced(old(products.State()), PS.FetchPending)
    {
      calls := calls + [FetchProducts];
      products.Dispatch(PS.FetchPending);
    }

    /** What `handleCreateProduct` does once the product exists: attach the draft, reset the form, refetch. */
    method FinishCreate(productId: int, attachOk: seq<bool>)
      modifies this, products
      ensures State() == old(State()).(pCode := "", pName := "", pValue := 0.0, newProductMaterials := [],
                                       isCreateModalOpen := false,
                                       calls := old(calls) + AwaitedAttaches(productId, old(newProductMaterials), attachOk)
                                                + [FetchProducts])
      ensures products.State() == PS.Reduced(old(products.State()), PS.FetchPending)
    {
      if |newProductMaterials| > 0 {
        AttachAll(productId, attachOk);
      }
      ResetCreateForm();
      Refetch();
    }

    /**
     * The sequential loop of `handleCreateProduct`: one awaited attach per
     * draft entry, in draft order; a rejected attach does not stop it.
     */
    method AttachAll(productId: int, attachOk: seq<bool>)
      modifies this, products
      ensures State() == old(State()).(calls := old(calls) + AwaitedAttaches(productId, old(newProductMaterials), attachOk))
      ensures products.State() == old(products.State())
    {
      var i := 0;
      while i < |newProductMaterials|
        invariant 0 <= i <= |newProductMaterials|
        invariant State() == old(State()).(calls := old(calls) + AwaitedAttaches(productId, newProductMaterials[..i], attachOk))
        invariant products.State() == old(products.State())
      {
        AwaitedAttachesSnoc(productId, newProductMaterials, attachOk, i);
        AttachOne(productId, i, AttachOutcome(attachOk, i));
        i := i + 1;
      }
      assert newProductMaterials[..i] == newProductMaterials;
    }

    /**
     * `handleAddMaterial`: attach the chosen material to the selected product
     * unless its loaded composition already links it. `attachOk` is the
     * attach call's outcome, which changes nothing here.
     */
    method HandleAddMaterial(attachOk: bool) returns (feedback: Feedback)
      modifies this, products
      ensures feedback == AddMaterialFeedback(old(selectedProductId), old(SelectedProduct()), old(rmId))
      ensures feedback != Done ==> State() == old(State()) && products.State() == old(products.State())
      ensures feedback == Done ==>
                && State() == old(State()).(rmQty := 0.0,
                                            calls := old(calls) + [AttachRawMaterial(old(selectedProductId).value, old(rmId), old(rmQty)),
                                                                   Settled(attachOk), FetchProducts])
                && products.State() == PS.Reduced(old(products.State()), PS.FetchPending)
    {
      var selectedProduct := FindProduct(products.items, selectedProductId);
      feedback := AddMaterialFeedback(selectedProductId, selectedProduct, rmId);
      if feedback != Done {
        return;
      }
      calls := calls + [AttachRawMaterial(selectedProductId.value, rmId, rmQty)];
      AwaitAttach(selectedProductId.value, rmId, rmQty, attachOk);
      Refetch();
      rmQty := 0.0;
    }

    /** `startEditingExistingMaterial`. */
    method StartEditingExistingMaterial(rawMaterialId: int, currentQty: real)
      modifies this
      ensures State() == old(State()).(editExistingMatId := Some(rawMaterialId), editExistingQty := currentQty)
    {
      editExistingMatId := Some(rawMaterialId);
      editExistingQty := currentQty;
    }

    /**
     * `saveEditingExistingMaterial`: upsert the edited quantity through the
     * attach call, then leave edit mode and refetch.
     */
    method SaveEditingExistingMaterial(rawMaterialId: int, attachOk: bool)
      modifies this, products
      ensures !Truthy(old(selectedProductId)) ==> State() == old(State()) && products.State() == old(products.State())
      ensures Truthy(old(selectedProductId)) ==>
                && State() == old(State()).(editExistingMatId := None,
                                            calls := old(calls) + [AttachRawMaterial(old(selectedProductId).value, rawMaterialId,
                                                                                     old(editExistingQty)),
                                                                   Settled(attachOk), FetchProducts])
                && products.State() == PS.Reduced(old(products.State()), PS.FetchPending)
    {
      if !Truthy(selectedProductId) {
        return;
      }
      calls := calls + [AttachRawMaterial(selectedProductId.value, rawMaterialId, editExistingQty)];
      AwaitAttach(selectedProductId.value, rawMaterialId, editExistingQty, attachOk);
      editExistingMatId := None;
      Refetch();
    }

    /** The cancel button of a composition row in edit mode. */
    method CancelEditingExistingMaterial()
      modifies this
      ensures State() == old(State()).(editExistingMatId := None)
    {
      editExistingMatId := None;
    }

    /**
     * `handleDeleteProduct`: after confirmation, request the deletion and
     * clear the selection if it was the deleted product.
     */
    method HandleDeleteProduct(id: int, confirmed: bool)
      modifies this, products
      ensures products.State() == old(products.State())
      ensures !confirmed ==> State() == old(State())
      ensures confirmed ==>
                State() == old(State()).(calls := old(calls) + [DeleteProduct(id)],
                                         selectedProductId := if old(selectedProductId) == Some(id) then None
                                                              else old(selectedProductId))
    {
      if confirmed {
        calls := calls + [DeleteProduct(id)];
        products.Dispatch(PS.DeletePending);
        if selectedProductId == Some(id) {
          selectedProductId := None;
        }
      }
    }

    /**
     * `handleRemoveMaterial`: after confirmation, detach the material
     * directly and await it; the refetch follows only if the detach call
     * succeeds (`detached`), since a failure escapes the handler.
     */
    method HandleRemoveMaterial(productId: int, rawMaterialId: int, confirmed: bool, detached: bool)
      modifies this, products
      ensures !confirmed ==> State() == old(State()) && products.State() == old(products.State())
      ensures confirmed && !detached ==>
                State() == old(State()).(calls := old(calls) + [DetachRawMaterial(productId, rawMaterialId), Settled(false)])
                && products.State() == old(products.State())
      ensures confirmed && detached ==>
                State() == old(State()).(calls := old(calls) + [DetachRawMaterial(productId, rawMaterialId), Settled(true),
                                                                FetchProducts])
                && products.State() == PS.Reduced(old(products.State()), PS.FetchPending)
    {
      if confirmed {
        calls := calls + [DetachRawMaterial(productId, rawMaterialId), Settled(detached)];
        if detached {
          Refetch();
        }
      }
    }

    /** `closeEditModal`. */
    method CloseEditModal()
      modifies this
      ensures State() == old(State()).(selectedProductId := None, rmQty := 0.0)
    {
      selectedProductId := None;
      rmQty := 0.0;
    }
  }
}
