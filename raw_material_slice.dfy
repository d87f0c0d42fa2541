/**
 * The client's raw material store. It has the same shape as the product
 * store, but no reducer handles a failed fetch and none writes the error.
 */
module RawMaterialSlice {
  import opened Seqs
  import opened ClientTypes

  /** The actions the raw material thunks dispatch, stage by stage. */
  datatype RawMaterialAction =
    | FetchPending | FetchFulfilled(payload: seq<RawMaterial>) | FetchRejected(message: Option<string>)
    | CreatePending | CreateFulfilled(created: RawMaterial) | CreateRejected
    | DeletePending | DeleteFulfilled(deletedId: int) | DeleteRejected

  datatype RawMaterialState = RawMaterialState(items: seq<RawMaterial>, loading: bool, error: Option<string>)

  const InitialState := RawMaterialState([], false, None)

  /** The raw materials whose id is not `id`, in order. */
  function WithoutId(items: seq<RawMaterial>, id: int): (r: seq<RawMaterial>)
    ensures forall m :: m in r <==> m in items && m.id != id
    ensures (forall k :: 0 <= k < |items| ==> items[k].id != id) ==> r == items
  {
    RemoveWhere(items, (m: RawMaterial) => m.id == id)
  }

  /** The state after one action. */
  function Reduced(s: RawMaterialState, a: RawMaterialAction): (r: RawMaterialState)
    // No action writes the error; a failed fetch changes nothing at all.
    ensures r.error == s.error
    ensures a.FetchRejected? ==> r == s
    ensures a.FetchPending? ==> r.loading
    ensures a.FetchFulfilled? ==> !r.loading && r.items == a.payload
    ensures r.loading != s.loading ==> a.FetchPending? || a.FetchFulfilled?
    ensures a.CreateFulfilled? ==> r.items == s.items + [a.created]
    ensures a.DeleteFulfilled? ==> r.items == WithoutId(s.items, a.deletedId)
    ensures r.items != s.items ==> a.FetchFulfilled? || a.CreateFulfilled? || a.DeleteFulfilled?
  {
    match a
    case FetchPending => s.(loading := true)
    case FetchFulfilled(payload) => s.(loading := false, items := payload)
    case CreateFulfilled(created) => s.(items := s.items + [created])
    case DeleteFulfilled(id) => s.(items := WithoutId(s.items, id))
    case _ => s
  }

  function Run(s: RawMaterialState, trace: seq<RawMaterialAction>): RawMaterialState
    decreases trace
  {
    if trace == [] then s else Run(Reduced(s, trace[0]), trace[1..])
  }

  /** Whatever happens, the error keeps its initial value. */
  lemma {:induction false} ErrorNeverWritten(s: RawMaterialState, trace: seq<RawMaterialAction>)
    ensures Run(s, trace).error == s.error
    decreases trace
  {
    if trace != [] {
      ErrorNeverWritten(Reduced(s, trace[0]), trace[1..]);
    }
  }

  /**
   * Once loading, the store stays loading until a fetch succeeds: a failed
   * fetch leaves the flag raised.
   */
  lemma {:induction false} LoadingUntilFetched(s: RawMaterialState, trace: seq<RawMaterialAction>)
    requires s.loading
    requires forall k :: 0 <= k < |trace| ==> !trace[k].FetchFulfilled?
    ensures Run(s, trace).loading
    decreases trace
  {
    if trace != [] {
      assert !trace[0].FetchFulfilled?;
      LoadingUntilFetched(Reduced(s, trace[0]), trace[1..]);
    }
  }

  class RawMaterialStore {
    var items: seq<RawMaterial>
    var loading: bool
    var error: Option<string>

    function State(): RawMaterialState
      reads this
    {
      RawMaterialState(items, loading, error)
    }

    constructor ()
      ensures State() == InitialState
    {
      items := [];
      loading := false;
      error := None;
    }

    method Dispatch(a: RawMaterialAction)
      modifies this
      ensures State() == Reduced(old(State()), a)
    {
      match a
      case FetchPending =>
        loading := true;
      case FetchFulfilled(payload) =>
        loading := false;
        items := payload;
      case CreateFulfilled(created) =>
        items := items + [created];
      case DeleteFulfilled(id) =>
        items := WithoutId(items, id);
      case _ =>
    }
  }

  /** A fetch that fails leaves the store loading with no error to show. */
  method FailedFetch() returns (store: RawMaterialStore)
    ensures store.loading && store.error == None && store.items == []
  {
    store := new RawMaterialStore();
    store.Dispatch(FetchPending);
    store.Dispatch(FetchRejected(Some("Network Error")));
  }
}
