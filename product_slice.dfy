/**
 * The client's product store: the list of products, a loading flag and an
 * error message, changed only by the settled stages of the product thunks.
 */
module ProductSlice {
  import opened Seqs
  import opened ClientTypes

  /**
   * The actions the product thunks dispatch: each remote call dispatches its
   * pending stage, then its fulfilled or rejected stage. A rejected fetch
   * carries the error's message, which may be absent.
   */
  datatype ProductAction =
    | FetchPending | FetchFulfilled(payload: seq<Product>) | FetchRejected(message: Option<string>)
    | CreatePending | CreateFulfilled(created: Product) | CreateRejected
    | DeletePending | DeleteFulfilled(deletedId: int) | DeleteRejected
    | AddRawMaterialPending
    | AddRawMaterialFulfilled(productId: int, rawMaterialId: int, quantity: real)
    | AddRawMaterialRejected

  /** The stages no reducer handles. */
  predicate Unhandled(a: ProductAction)
  {
    a.CreatePending? || a.CreateRejected? || a.DeletePending? || a.DeleteRejected?
    || a.AddRawMaterialPending? || a.AddRawMaterialFulfilled? || a.AddRawMaterialRejected?
  }

  datatype ProductState = ProductState(items: seq<Product>, loading: bool, error: Option<string>)

  const InitialState := ProductState([], false, None)

  const DefaultError := "Erro ao carregar produtos"

  /** The error text of a failed fetch: the message if it is non-empty, else the default text. */
  function ErrorText(message: Option<string>): (r: string)
    ensures r != []
    ensures message.Some? && message.value != [] ==> r == message.value
    ensures message.None? || message.value == [] ==> r == DefaultError
  {
    if message.Some? && message.value != [] then message.value else DefaultError
  }

  /** The products whose id is not `id`, in order (`items.filter(item => item.id !== id)`). */
  function WithoutId(items: seq<Product>, id: int): (r: seq<Product>)
    ensures forall p :: p in r <==> p in items && p.id != id
    ensures (forall k :: 0 <= k < |items| ==> items[k].id != id) ==> r == items
  {
    RemoveWhere(items, (p: Product) => p.id == id)
  }

  /** The state after one action. */
  function Reduced(s: ProductState, a: ProductAction): (r: ProductState)
    ensures Unhandled(a) ==> r == s
    // The error is written only by a rejected fetch, is then non-empty, and is never cleared.
    ensures r.error != s.error ==> a.FetchRejected?
    ensures a.FetchRejected? ==> r.error == Some(ErrorText(a.message))
    ensures s.error.Some? ==> r.error.Some?
    // Loading is raised by a pending fetch, lowered by a settled one, and untouched otherwise.
    ensures a.FetchPending? ==> r.loading
    ensures a.FetchFulfilled? || a.FetchRejected? ==> !r.loading
    ensures r.loading != s.loading ==> a.FetchPending? || a.FetchFulfilled? || a.FetchRejected?
    // The list is replaced by a fetch, grows by a create, shrinks by a delete.
    ensures a.FetchFulfilled? ==> r.items == a.payload
    ensures a.CreateFulfilled? ==> r.items == s.items + [a.created]
    ensures a.DeleteFulfilled? ==> r.items == WithoutId(s.items, a.deletedId)
    ensures r.items != s.items ==> a.FetchFulfilled? || a.CreateFulfilled? || a.DeleteFulfilled?
  {
    match a
    case FetchPending => s.(loading := true)
    case FetchFulfilled(payload) => s.(loading := false, items := payload)
    case FetchRejected(message) => s.(loading := false, error := Some(ErrorText(message)))
    case CreateFulfilled(created) => s.(items := s.items + [created])
    case DeleteFulfilled(id) => s.(items := WithoutId(s.items, id))
    case _ => s
  }

  /** The state after a sequence of actions, in order. */
  function Run(s: ProductState, trace: seq<ProductAction>): ProductState
    decreases trace
  {
    if trace == [] then s else Run(Reduced(s, trace[0]), trace[1..])
  }

  /** Once set, the error stays set whatever follows: no action clears it. */
  lemma {:induction false} ErrorSticky(s: ProductState, trace: seq<ProductAction>)
    requires s.error.Some?
    ensures Run(s, trace).error.Some?
    decreases trace
  {
    if trace != [] {
      ErrorSticky(Reduced(s, trace[0]), trace[1..]);
    }
  }

  /** A changed error comes from a rejected fetch somewhere in the trace. */
  lemma {:induction false} ErrorFromRejectedFetch(s: ProductState, trace: seq<ProductAction>)
    ensures Run(s, trace).error != s.error ==> exists k :: 0 <= k < |trace| && trace[k].FetchRejected?
    decreases trace
  {
    if trace != [] {
      var next := Reduced(s, trace[0]);
      ErrorFromRejectedFetch(next, trace[1..]);
      if Run(s, trace).error != s.error && !trace[0].FetchRejected? {
        assert next.error == s.error;
        var k :| 0 <= k < |trace[1..]| && trace[1..][k].FetchRejected?;
        assert trace[k + 1].FetchRejected?;
      }
    }
  }

  /** Deleting a product just created, under an id no other product has, restores the list. */
  lemma CreateThenDelete(s: ProductState, p: Product)
    requires forall k :: 0 <= k < |s.items| ==> s.items[k].id != p.id
    ensures Run(s, [CreateFulfilled(p), DeleteFulfilled(p.id)]).items == s.items
  {
    var drop := (q: Product) => q.id == p.id;
    RemoveWhereAppend(s.items, [p], drop);
    assert RemoveWhere([p], drop) == [];
    var created := Reduced(s, CreateFulfilled(p));
    assert [CreateFulfilled(p), DeleteFulfilled(p.id)][1..] == [DeleteFulfilled(p.id)];
    assert Run(s, [CreateFulfilled(p), DeleteFulfilled(p.id)]) == Run(created, [DeleteFulfilled(p.id)]);
    assert Run(created, [DeleteFulfilled(p.id)]) == Reduced(created, DeleteFulfilled(p.id));
  }

  /** The store object; the reducers assign its fields in place. */
  class ProductStore {
    var items: seq<Product>
    var loading: bool
    var error: Option<string>

    function State(): ProductState
      reads this
    {
      ProductState(items, loading, error)
    }

    constructor ()
      ensures State() == InitialState
    {
      items := [];
      loading := false;
      error := None;
    }

    /** Apply one dispatched action. */
    method Dispatch(a: ProductAction)
      modifies this
      ensures State() == Reduced(old(State()), a)
    {
      match a
      case FetchPending =>
        loading := true;
      case FetchFulfilled(payload) =>
        loading := false;
        items := payload;
      case FetchRejected(message) =>
        loading := false;
        error := Some(ErrorText(message));
      case CreateFulfilled(created) =>
        items := items + [created];
      case DeleteFulfilled(id) =>
        items := WithoutId(items, id);
      case _ =>
    }
  }
}
