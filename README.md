# Autoflex inventory: production planner, composition service and products page

A Dafny model of the core of the Autoflex inventory system, a Spring Boot
backend with a React/Redux client, and proofs about that model. Products are
made from raw materials. A product's composition (its bill of materials) lists
how much of each raw material one unit needs.

- `production.dfy` (module `Production`) models `ProductionService.calculateSuggestion`:
  - the greedy planner visits the products by descending value;
  - for each product it computes how many units the remaining stock allows;
  - it reserves that stock in a mutable map and accumulates the subtotals and the total.
  - The method is a `for` loop over the products, with an inner `for` loop for the unit count and another for the reservation. It is proved equal to the specification function `Plan`, and the planner's properties are lemmas about `Plan`.
- `product_service.dfy` (module `ProductCatalog`) models `ProductService`:
  - `save` creates a product (null or non-positive id) or updates one;
  - `addRawMaterial` upserts an association;
  - `removeRawMaterial` filters associations out;
  - `convertToDTO`, `findAll` and `findById`.
  - The repository is a class whose fields are id-keyed maps.
- `product_slice.dfy` and `raw_material_slice.dfy` (modules `ProductSlice`, `RawMaterialSlice`) model the Redux stores:
  - each store is an object whose `Dispatch` assigns `items`, `loading` and `error` as the Immer reducers do;
  - `Dispatch` is proved against the pure transition function `Reduced`.
- `products_page.dfy` (module `ProductsView`) models `ProductsPage.tsx`:
  - a class with one field per state hook, plus a trace of the remote calls the page issues and of the settling of each call it awaits;
  - the outcomes of the remote calls (and of `window.confirm`) are inputs.
- `composition_sync.dfy` (module `CompositionSync`) joins the two sides. It replays the page's create-then-attach calls through the service's upsert.
- `seqs.dfy`, `entities.dfy` and `client_types.dfy` hold:
  - the shared filter and key-uniqueness helpers;
  - the backend entities and DTOs (`BigDecimal` as `real`, `Long` as `int`);
  - the client's types.

## Model

| member | source | states |
|---|---|---|
| Production.StockOf | backend/src/main/java/com/autoflex/inventory/service/ProductionService.java:54-56 | The stock map has exactly the raw materials' ids as keys, and each maps to that material's stock quantity. |
| Production.MaxUnitsIsMin | backend/src/main/java/com/autoflex/inventory/service/ProductionService.java:66-79 | The unit count stays unset (the `Integer.MAX_VALUE` sentinel) iff every per-unit need is zero. Otherwise it is at most floor(available / need) for every non-zero need and equal to it for one of them, i.e. the minimum. A missing stock entry counts as zero. |
| Production.UnitsFor | backend/src/main/java/com/autoflex/inventory/service/ProductionService.java:67-79 | The inner loop (start at the sentinel, skip zero needs, take the minimum) computes exactly that unit count. |
| Production.ReserveFrame | backend/src/main/java/com/autoflex/inventory/service/ProductionService.java:84-88 | Reserving stock for a product leaves the entry of every material outside its composition unchanged. |
| Production.ReserveAt | backend/src/main/java/com/autoflex/inventory/service/ProductionService.java:84-88 | With distinct materials, each material of the composition has its entry lowered by need × units. |
| Production.ReserveStock | backend/src/main/java/com/autoflex/inventory/service/ProductionService.java:84-88 | The reservation loop's `put`s produce the reserved stock. |
| Production.ReserveNonNegative | backend/src/main/java/com/autoflex/inventory/service/ProductionService.java:77-88 | With non-negative stock and needs, reserving the computed unit count leaves every stock entry non-negative. |
| Production.VisitEffect | backend/src/main/java/com/autoflex/inventory/service/ProductionService.java:62-100 | A product that cannot be produced leaves stock, items and total unchanged. Otherwise its materials are reserved, one item (code, name, units, value × units) is appended and the total grows by that subtotal. Other materials' stock is untouched. |
| Production.PicksIncreasing | backend/src/main/java/com/autoflex/inventory/service/ProductionService.java:62 | The products behind the items are visited positions in strictly increasing order: each product yields at most one item, in visiting order. |
| Production.PicksProduced | backend/src/main/java/com/autoflex/inventory/service/ProductionService.java:62-82 | Product j yields an item iff it can be produced from the stock left by the products visited before it. |
| Production.PlanItems | backend/src/main/java/com/autoflex/inventory/service/ProductionService.java:64-99 | The k-th item comes from the k-th producing product, which has a non-empty composition and a unit count of at least 1. The item is that product's code, name, units and value × units. |
| Production.PlanTotalIsSum | backend/src/main/java/com/autoflex/inventory/service/ProductionService.java:91-105 | The total value equals the sum of the item subtotals. |
| Production.PlanNonNegative | backend/src/main/java/com/autoflex/inventory/service/ProductionService.java:84-88 | With non-negative initial stock and needs, no stock entry is negative after the whole plan. |
| Production.VisitProduct | backend/src/main/java/com/autoflex/inventory/service/ProductionService.java:62-100 | One iteration of the outer loop performs exactly one visit step of the plan. |
| Production.CalculateSuggestion | backend/src/main/java/com/autoflex/inventory/service/ProductionService.java:49-108 | The suggestion's items and total are those of the plan over the products (in repository order) and the stock built from all raw materials. |
| Production.ChairExample | e2e_test.py:70-73 | One chair needing 2 units of wood, with 100 in stock, gives a single item of 50 chairs, subtotal 7500, and uses up the wood. |
| ProductCatalog.ConvertToDTO | backend/src/main/java/com/autoflex/inventory/service/ProductService.java:129-147 | The DTO carries the product's id, code, name and value. Its composition has the same length and order, and each entry carries the association id, the material's id and name, and the quantity. |
| ProductCatalog.FindAssociation | backend/src/main/java/com/autoflex/inventory/service/ProductService.java:92-94 | None iff no association refers to the material. Otherwise it gives the position of the first association that does. |
| ProductCatalog.Upsert | backend/src/main/java/com/autoflex/inventory/service/ProductService.java:91-107 | Refused (raw material not found) iff the material is neither linked nor in the repository; the update path does not look it up. An unlinked, known material gets exactly one new association appended at the end. An accepted upsert leaves the material linked, given that the repository stores each material under its own id. |
| ProductCatalog.UpsertExisting | backend/src/main/java/com/autoflex/inventory/service/ProductService.java:96-97 | For a linked material, the length is unchanged, that association alone gets the new quantity and every other association is unchanged. |
| ProductCatalog.UpsertKeepsDistinct | backend/src/main/java/com/autoflex/inventory/service/ProductService.java:92-108 | An accepted upsert keeps each material listed at most once (the table's unique constraint). |
| ProductCatalog.UpsertIdempotent | backend/src/main/java/com/autoflex/inventory/service/ProductService.java:91-108 | Repeating an accepted upsert with the same material and quantity leaves the composition as it is. |
| ProductCatalog.UpsertIgnoresOrder | backend/src/main/java/com/autoflex/inventory/service/ProductService.java:91-108 | Two listings of the same associations, one respecting the unique constraint, agree on whether the material is linked and on refusal, and an accepted upsert leaves the same associations for both. |
| ProductCatalog.Detach | backend/src/main/java/com/autoflex/inventory/service/ProductService.java:122 | After `removeIf` no association refers to the material. The survivors are exactly the other associations, and an unlinked material leaves the composition unchanged. |
| ProductCatalog.DetachKeepsOrder | backend/src/main/java/com/autoflex/inventory/service/ProductService.java:122 | Detaching distributes over concatenation, so the survivors keep their relative order. |
| ProductCatalog.DetachKeepsDistinct | backend/src/main/java/com/autoflex/inventory/service/ProductService.java:122 | Detaching keeps each material listed at most once. |
| ProductCatalog.DetachUndoesAttach | backend/src/main/java/com/autoflex/inventory/service/ProductService.java:98-122 | Removing a material just appended by the upsert restores the earlier composition. |
| ProductCatalog.DetachCounts | backend/src/main/java/com/autoflex/inventory/service/ProductService.java:122 | `removeIf` drops every copy of an association for the material and keeps every other association as often as it occurs. |
| ProductCatalog.DetachIgnoresOrder | backend/src/main/java/com/autoflex/inventory/service/ProductService.java:122 | Detaching from two listings of the same associations leaves the same associations. |
| ProductCatalog.Saved | backend/src/main/java/com/autoflex/inventory/service/ProductService.java:58-69 | A positive id of an unknown product is refused as not found. Otherwise the product gets the request's code, name and value. An update keeps its id and composition; a create gets the fresh id and no composition. The save is accepted iff the product exists (for an update) and no other product has the code. |
| ProductCatalog.SavedKeepsCodesUnique | backend/src/main/java/com/autoflex/inventory/entity/Product.java:32 | An accepted save keeps product codes unique. |
| ProductCatalog.ProductService.FindById | backend/src/main/java/com/autoflex/inventory/service/ProductService.java:46-50 | The stored product's DTO, or not found iff no product has the id. |
| ProductCatalog.ProductService.FindAll | backend/src/main/java/com/autoflex/inventory/service/ProductService.java:34-38 | Exactly the DTOs of the stored products. |
| ProductCatalog.ProductService.Save | backend/src/main/java/com/autoflex/inventory/service/ProductService.java:58-71 | Stores the product `Saved` describes and returns its DTO, or returns the refusal with nothing changed. Only a create advances the id generator. The invariant (ids keyed, codes unique, compositions distinct) is kept. |
| ProductCatalog.ProductService.Delete | backend/src/main/java/com/autoflex/inventory/service/ProductService.java:74-76 | The product (and with it its associations) is gone; an unknown id changes nothing. |
| ProductCatalog.ProductService.AddRawMaterial | backend/src/main/java/com/autoflex/inventory/service/ProductService.java:87-110 | An unknown product is refused with no change. Otherwise the product's composition becomes the upsert's result, or the refusal is returned with no change. Only an insertion takes a new association id. |
| ProductCatalog.ProductService.RemoveRawMaterial | backend/src/main/java/com/autoflex/inventory/service/ProductService.java:118-124 | An unknown product is refused with no change. Otherwise only that product's composition changes, to the detached one. |
| ProductSlice.ErrorText | frontend/src/store/productSlice.ts:76 | The error text is never empty: the message when it is non-empty, else the default text. |
| ProductSlice.WithoutId | frontend/src/store/productSlice.ts:84 | Exactly the products whose id differs; with no such id the list is unchanged. |
| ProductSlice.Reduced | frontend/src/store/productSlice.ts:66-89 | Pending and settled stages that no reducer handles leave the state unchanged, `addRawMaterial.fulfilled` included. The error is written only by a rejected fetch, is then the error text, and is never cleared. Loading is raised by a pending fetch and lowered by a settled one. Items are replaced by a fetch, appended to by a create and filtered by a delete, and change on no other action. |
| ProductSlice.ErrorSticky | frontend/src/store/productSlice.ts:66-89 | Once set, the error stays set after any sequence of actions. |
| ProductSlice.ErrorFromRejectedFetch | frontend/src/store/productSlice.ts:74-77 | If a sequence of actions changes the error, it contains a rejected fetch. |
| ProductSlice.CreateThenDelete | frontend/src/store/productSlice.ts:79-85 | Creating a product with a new id and then deleting it restores the list. |
| ProductSlice.ProductStore.Dispatch | frontend/src/store/productSlice.ts:66-89 | The store's fields after an action are the transition function's result. |
| ProductSlice.ProductStore.constructor | frontend/src/store/productSlice.ts:14-18 | A new store has no items, is not loading and has no error. |
| RawMaterialSlice.WithoutId | frontend/src/store/rawMaterialSlice.ts:60 | Exactly the raw materials whose id differs; with no such id the list is unchanged. |
| RawMaterialSlice.Reduced | frontend/src/store/rawMaterialSlice.ts:46-62 | No action writes the error, and a rejected fetch changes nothing. Loading is raised by a pending fetch and lowered only by a fulfilled one. Items are replaced, appended to or filtered by fetch, create and delete, and by nothing else. |
| RawMaterialSlice.ErrorNeverWritten | frontend/src/store/rawMaterialSlice.ts:46-62 | After any sequence of actions the error is what it was. |
| RawMaterialSlice.LoadingUntilFetched | frontend/src/store/rawMaterialSlice.ts:47-61 | Once loading, the store stays loading until a fetch succeeds. |
| RawMaterialSlice.RawMaterialStore.Dispatch | frontend/src/store/rawMaterialSlice.ts:46-62 | The store's fields after an action are the transition function's result. |
| RawMaterialSlice.RawMaterialStore.constructor | frontend/src/store/rawMaterialSlice.ts:14-18 | A new store has no items, is not loading and has no error (null), which `ErrorNeverWritten` then keeps forever. |
| RawMaterialSlice.FailedFetch | frontend/src/store/rawMaterialSlice.ts:49-61 | A fetch that fails leaves a fresh store loading, with no items and no error. |
| ProductsView.DraftAdd | frontend/src/pages/ProductsPage.tsx:74-86 | A non-positive quantity is ignored. A material already in the draft raises the alert with the draft unchanged. The entry is appended iff neither holds. Distinct materials stay distinct. |
| ProductsView.SpliceOne | frontend/src/pages/ProductsPage.tsx:91-95 | `splice(index, 1)` on a copy removes exactly the entry at the index and keeps the others in order. Past the end nothing is removed, and a negative index counts from the end. |
| ProductsView.SpliceOneInverse | frontend/src/pages/ProductsPage.tsx:91-95 | Putting the removed entry back at its index restores the draft. |
| ProductsView.SpliceKeepsDistinct | frontend/src/pages/ProductsPage.tsx:91-95 | Removing an entry keeps the draft's materials distinct. |
| ProductsView.WithQuantity | frontend/src/pages/ProductsPage.tsx:108-113 | A row edit changes only the quantity at the index: the length and every material id are unchanged, and there is no positivity or duplicate check. |
| ProductsView.RowEditSkipsGuard | frontend/src/pages/ProductsPage.tsx:76-113 | The add guard ignores a zero quantity and alerts on a repeated material, yet a row edit stores a zero quantity. |
| ProductsView.AttachCalls | frontend/src/pages/ProductsPage.tsx:133-139 | One attach call per draft entry, in draft order, each for the new product with that entry's material and quantity. |
| ProductsView.AwaitedAttaches | frontend/src/pages/ProductsPage.tsx:132-139 | The create loop's trace alternates strictly: for the k-th draft entry, its attach call and then the settling with the k-th outcome, so each attach settles before the next is issued. |
| ProductsView.IssuedAttaches | frontend/src/pages/ProductsPage.tsx:132-139 | Leaving out the settlings, the create loop's trace is exactly the draft's attach calls, whatever the outcomes. |
| ProductsView.FindProduct | frontend/src/pages/ProductsPage.tsx:32 | The first loaded product with the selected id; none iff the id is null or not loaded. |
| ProductsView.AddMaterialFeedback | frontend/src/pages/ProductsPage.tsx:155-162 | Nothing happens iff no product is selected (a null or zero id, or an id that is not loaded). The alert is raised iff the selected product's loaded composition already links the material. |
| ProductsView.ProductsPage.constructor | frontend/src/pages/ProductsPage.tsx:28-55 | The initial values of the page's state hooks, with no calls issued. |
| ProductsView.ProductsPage.Mount | frontend/src/pages/ProductsPage.tsx:58-61 | The mount effect fetches products, then raw materials, and both stores start loading. |
| ProductsView.ProductsPage.SyncDefaultMaterial | frontend/src/pages/ProductsPage.tsx:64-68 | With raw materials loaded and none chosen yet, the first one is chosen; otherwise nothing changes. |
| ProductsView.ProductsPage.OpenCreateModal | frontend/src/pages/ProductsPage.tsx:228 | Only the create modal flag changes. |
| ProductsView.ProductsPage.CloseCreateModal | frontend/src/pages/ProductsPage.tsx:398 | Cancelling only closes the modal: the draft and the form fields are kept. |
| ProductsView.ProductsPage.SelectProduct | frontend/src/pages/ProductsPage.tsx:250 | Only the selection changes. |
| ProductsView.ProductsPage.HandleAddMaterialToNewProduct | frontend/src/pages/ProductsPage.tsx:74-86 | The feedback and the new draft are `DraftAdd`'s, and the quantity input resets only when the entry is added. On an alert or an ignored add nothing changes. The draft's materials stay distinct. |
| ProductsView.ProductsPage.HandleRemoveMaterialFromNewProduct | frontend/src/pages/ProductsPage.tsx:91-95 | Only the draft changes, to the spliced copy, and it stays distinct. |
| ProductsView.ProductsPage.StartEditingMaterial | frontend/src/pages/ProductsPage.tsx:100-103 | The single edit slot takes the row and its quantity. |
| ProductsView.ProductsPage.SaveEditingMaterial | frontend/src/pages/ProductsPage.tsx:108-113 | The draft gets the edited quantity at the row and edit mode ends; nothing else changes. |
| ProductsView.ProductsPage.CancelEditingMaterial | frontend/src/pages/ProductsPage.tsx:358 | Only edit mode ends. |
| ProductsView.ProductsPage.HandleCreateProduct | frontend/src/pages/ProductsPage.tsx:123-148 | A rejected creation records only the create call and its settling, and leaves the draft, the form, the modal and the store's list as they were. A fulfilled one records the create call and its settling, then each draft entry's attach followed by its settling, in draft order, and last a refetch with no settling. It empties the form and the draft, closes the modal, appends the product to the store and sets it loading. |
| ProductsView.ProductsPage.FinishCreate | frontend/src/pages/ProductsPage.tsx:131-146 | After creation, the trace gets each draft entry's attach, each followed by its settling before the next attach (nothing for an empty draft), then the refetch, which is not awaited. The form is reset. |
| ProductsView.ProductsPage.AttachAll | frontend/src/pages/ProductsPage.tsx:132-140 | The sequential loop records the draft's attach calls in order, each followed by its settling before the next one is issued. A rejected attach does not stop it, and the store's state is unchanged. |
| ProductsView.ProductsPage.AttachOne | frontend/src/pages/ProductsPage.tsx:133-138 | One loop iteration records the attach call for that draft entry and then its settling, and nothing else. |
| ProductsView.ProductsPage.AwaitAttach | frontend/src/store/productSlice.ts:87-89 | An awaited attach thunk records its settling with the outcome. Fulfilled or rejected, it leaves the product store unchanged. |
| ProductsView.ProductsPage.ResetCreateForm | frontend/src/pages/ProductsPage.tsx:143-145 | The form fields and the draft are emptied and the modal closes. |
| ProductsView.ProductsPage.Refetch | frontend/src/pages/ProductsPage.tsx:146 | One fetch call is recorded and the product store starts loading. |
| ProductsView.ProductsPage.HandleAddMaterial | frontend/src/pages/ProductsPage.tsx:153-172 | The feedback is `AddMaterialFeedback`'s. Unless it is Done, no call is made and nothing changes. Otherwise the attach (with any quantity), its settling and a refetch are recorded, and the quantity resets. |
| ProductsView.ProductsPage.StartEditingExistingMaterial | frontend/src/pages/ProductsPage.tsx:177-180 | The existing-row edit slot takes the material and its quantity. |
| ProductsView.ProductsPage.SaveEditingExistingMaterial | frontend/src/pages/ProductsPage.tsx:185-197 | With no selection nothing happens. Otherwise the attach (an upsert) with the edited quantity, its settling and a refetch are recorded, and edit mode ends. |
| ProductsView.ProductsPage.CancelEditingExistingMaterial | frontend/src/pages/ProductsPage.tsx:470 | Only the existing-row edit mode ends. |
| ProductsView.ProductsPage.HandleDeleteProduct | frontend/src/pages/ProductsPage.tsx:202-207 | Without confirmation nothing changes. With it the delete call is recorded and the selection is cleared iff it was the deleted product. |
| ProductsView.ProductsPage.HandleRemoveMaterial | frontend/src/pages/ProductsPage.tsx:212-217 | Without confirmation nothing changes. With it the detach call and its settling are recorded, followed by a refetch only if the detach succeeds. |
| ProductsView.ProductsPage.CloseEditModal | frontend/src/pages/ProductsPage.tsx:219-222 | The selection is cleared and the quantity input resets. |
| CompositionSync.Apply | backend/src/main/java/com/autoflex/inventory/service/ProductService.java:87-124 | A call for another product, or one that is neither attach nor detach (settlings included), changes nothing. A refused attach changes nothing. An accepted attach leaves the material linked and takes up a new association id only when it inserts. A detach unlinks the material, keeps every other association and the next id. |
| CompositionSync.ApplyKeepsDistinct | backend/src/main/java/com/autoflex/inventory/service/ProductService.java:87-124 | Every call keeps each material listed at most once in the product's composition. |
| CompositionSync.ReplayAwaited | frontend/src/pages/ProductsPage.tsx:132-139 | Replaying the create loop's whole trace, settlings included, has the same server effect as replaying its attach calls alone. |
| CompositionSync.CreateFlowRebuildsDraft | frontend/src/pages/ProductsPage.tsx:132-139 | Replaying the create flow's attach calls through `addRawMaterial` on the new, empty product yields exactly the draft entries whose material exists, in draft order (see "Left out"), with their quantities and consecutive association ids. Entries whose attach is refused are skipped and later ones still land. |
| CompositionSync.CreateFlowAllAccepted | frontend/src/pages/ProductsPage.tsx:132-139 | When every drafted material exists, the new product's composition is the draft itself, entry for entry, and lists no material twice. |
| CompositionSync.ApplyIgnoresOrder | backend/src/main/java/com/autoflex/inventory/service/ProductService.java:91-124 | An attach or a detach applied to two listings of the same associations leaves the same associations and the same next id. |
| CompositionSync.ReloadsFollowReplay | backend/src/main/java/com/autoflex/inventory/service/ProductService.java:91-124 | When every request works on the associations loaded in any order, a run ends with the same associations as the in-order replay. |
| CompositionSync.CreateFlowReloaded | frontend/src/pages/ProductsPage.tsx:132-139 | With any load order, the new product ends up holding each association of an accepted draft entry exactly once, with the draft's quantity, and nothing else. |

## Left out

- Transport and framework: HTTP, axios, the controllers, `GlobalExceptionHandler`, JPA and `@Transactional`.
  - Repositories are id-keyed maps.
  - A remote call is an entry in the page's trace, and its outcome is a parameter. An awaited call is followed in the trace by a `Settled` entry carrying that outcome.
- The database generates ids. `nextProductId` and `nextAssociationId` stand in for its sequences.
- `RawMaterialService`, `ProductionPage.tsx`, the modal and sidebar components, routing, JSX rendering and the controlled-input setters (`setPCode`, `setRmQty`, …) are not part of this model. They have no logic beyond display and plain assignment.
- `window.confirm` is a boolean input and `alert` is the `DuplicateAlert` feedback.
- Concurrency: the model is single-threaded.
  - The awaited thunks (create, each attach, the attach in the edit modal) dispatch their pending and settled actions in order.
  - Thunks that are not awaited (the refetches, the delete) only issue their call and their pending action. Their later fulfilment is a separate `Dispatch`.
- Numbers: `BigDecimal` is `real`, and the JavaScript numbers of quantities and values are `real`. `parseFloat` producing `NaN` is not modelled.
- Production.MaxUnits: the count is an unbounded `int`, with the `Integer.MAX_VALUE` start value as `None`. `intValue()` truncation of a count beyond 32 bits, and a count exactly equal to `Integer.MAX_VALUE` (which the source would then skip), are not modelled.
- Production.CalculateSuggestion: requires every raw material a product uses to be among the fetched raw materials, which the association's foreign key guarantees. Without it the source dereferences null at ProductionService.java:86 for a zero-need material missing from stock, and that failure is not modelled.
- ProductCatalog.ProductService.FindAll: returns a set, so the repository's list order is not modelled.
- ProductCatalog.Saved: the `DuplicateCode` refusal is the unique constraint on the product code (Product.java:32) rejecting the write. The service itself has no such check.
- ProductCatalog.ProductService.Delete: deleting an unknown id is modelled as a no-op, as Spring Data 3's `deleteById` does.
- ProductsView.ProductsPage.SaveEditingMaterial: requires the row index to be in the draft, since the save button exists only on listed rows. The source writes the quantity through an object shared with the previous state's array; the model replaces the entry, which gives the same new state.
- CompositionSync.Apply: models the effect of an attach or a detach on one product. A deletion of that product is not replayed. Its attach clause that the material ends up linked assumes the repository stores each raw material under its own id.
- Two behaviours of the create flow that the model keeps as the code has them:
  - A rejected attach does not stop the loop. ProductsPage.tsx:133-139 awaits each dispatched thunk, and that promise resolves even when the thunk is rejected.
  - Cancelling the create modal does not clear the draft or the form. The cancel button at ProductsPage.tsx:398 only closes the modal.
- Association order across requests: `Product.rawMaterials` is a `@OneToMany` list with no declared order (Product.java:51-52), so the order in which a later request loads it is not guaranteed.
  - ProductCatalog.Upsert appends within one request.
  - The model's repository keeps insertion order between requests, and this is what CompositionSync.CreateFlowRebuildsDraft's "in draft order" and the consecutive association ids rely on.
  - CompositionSync.CreateFlowReloaded states the result with any load order. It promises the same associations, but not their order.
