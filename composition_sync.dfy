/**
 * The create-then-attach flow seen end to end: the attach calls the page
 * sends for its draft, applied in order by the service's `addRawMaterial`
 * to the product just created, whose composition starts empty.
 */
module CompositionSync {
  import opened Seqs
  import opened Entities
  import opened ProductCatalog
  import PV = ProductsView

  /** The backend's side of one product: its composition and the next association id. */
  datatype Backend = Backend(comp: seq<ProductRawMaterial>, nextId: int)

  /**
   * What one trace entry does to product `productId`, as the service's
   * `AddRawMaterial` and `RemoveRawMaterial` state it: an attach upserts (a
   * refused one changes nothing, an accepted one links the material, and
   * only an insert takes up the next association id); a detach unlinks the
   * material and keeps every other association; other calls and settlings
   * leave this composition alone.
   */
  function Apply(b: Backend, call: PV.Call, productId: int, catalog: map<int, RawMaterial>): (r: Backend)
    ensures !(call.AttachRawMaterial? || call.DetachRawMaterial?) || call.productId != productId ==> r == b
    ensures call.AttachRawMaterial? && call.productId == productId ==>
              var id := call.rawMaterialId;
              && (!HasMaterial(b.comp, id) && id !in catalog ==> r == b)
              && (CatalogKeyed(catalog) && (HasMaterial(b.comp, id) || id in catalog) ==> HasMaterial(r.comp, id))
              && r.nextId == if HasMaterial(b.comp, id) || id !in catalog then b.nextId else b.nextId + 1
    ensures call.DetachRawMaterial? && call.productId == productId ==>
              && !HasMaterial(r.comp, call.rawMaterialId) && r.nextId == b.nextId
              && forall prm :: prm in r.comp <==> prm in b.comp && prm.rawMaterial.id != call.rawMaterialId
  {
    if call.AttachRawMaterial? && call.productId == productId then
      match Upsert(b.comp, call.rawMaterialId, call.quantity, catalog, b.nextId)
      case Fail(_) => b
      case Ok(comp) => Backend(comp, if HasMaterial(b.comp, call.rawMaterialId) then b.nextId else b.nextId + 1)
    else if call.DetachRawMaterial? && call.productId == productId then
      Backend(Detach(b.comp, call.rawMaterialId), b.nextId)
    else b
  }

  /** Every call keeps the unique constraint on (product, material). */
  lemma ApplyKeepsDistinct(b: Backend, call: PV.Call, productId: int, catalog: map<int, RawMaterial>)
    requires DistinctMaterials(b.comp) && CatalogKeyed(catalog)
    ensures DistinctMaterials(Apply(b, call, productId, catalog).comp)
  {
    if call.AttachRawMaterial? && call.productId == productId {
      UpsertKeepsDistinct(b.comp, call.rawMaterialId, call.quantity, catalog, b.nextId);
    } else if call.DetachRawMaterial? && call.productId == productId {
      DetachKeepsDistinct(b.comp, call.rawMaterialId);
    }
  }

  /** The calls of `calls` applied one after another, in the order they were sent. */
  function Replay(b: Backend, calls: seq<PV.Call>, productId: int, catalog: map<int, RawMaterial>): Backend
    decreases |calls|
  {
    if calls == [] then b
    else
      var n := |calls| - 1;
      Apply(Replay(b, calls[..n], productId, catalog), calls[n], productId, catalog)
  }

  /**
   * The settlings the page records while awaiting each attach change nothing
   * on the server: replaying the create loop's trace has the effect of its
   * attach calls alone.
   */
  lemma {:induction false} ReplayAwaited(b: Backend, productId: int, draft: seq<PV.DraftEntry>, attachOk: seq<bool>,
                                         catalog: map<int, RawMaterial>)
    ensures Replay(b, PV.AwaitedAttaches(productId, draft, attachOk), productId, catalog)
            == Replay(b, PV.AttachCalls(productId, draft), productId, catalog)
  {
    if draft != [] {
      var n := |draft| - 1;
      var attach := PV.AttachRawMaterial(productId, draft[n].rawMaterialId, draft[n].quantity);
      var settled := PV.Settled(PV.AttachOutcome(attachOk, n));
      var prev := PV.AwaitedAttaches(productId, draft[..n], attachOk);
      var trace := prev + [attach, settled];
      ReplayAwaited(b, productId, draft[..n], attachOk, catalog);
      assert trace[..|prev| + 1] == prev + [attach] && (prev + [attach])[..|prev|] == prev;
      var calls := PV.AttachCalls(productId, draft);
      assert calls[..n] == PV.AttachCalls(productId, draft[..n]);
    }
  }

  /** Whether the service rejects the attach of a draft entry: its material does not exist. */
  function Unknown(catalog: map<int, RawMaterial>): PV.DraftEntry -> bool
  {
    (e: PV.DraftEntry) => e.rawMaterialId !in catalog
  }

  /** The draft entries whose material the repository knows, in draft order. */
  function Accepted(draft: seq<PV.DraftEntry>, catalog: map<int, RawMaterial>): (r: seq<PV.DraftEntry>)
    ensures forall k :: 0 <= k < |r| ==> r[k].rawMaterialId in catalog && r[k] in draft
  {
    var r := RemoveWhere(draft, Unknown(catalog));
    assert forall k :: 0 <= k < |r| ==> r[k] in r;
    r
  }

  /** The associations `entries` make when inserted in order from association id `firstId` on. */
  function Linked(entries: seq<PV.DraftEntry>, catalog: map<int, RawMaterial>, firstId: int): (r: seq<ProductRawMaterial>)
    requires forall k :: 0 <= k < |entries| ==> entries[k].rawMaterialId in catalog
    ensures |r| == |entries|
  {
    seq(|entries|, k requires 0 <= k < |entries| =>
          ProductRawMaterial(firstId + k, catalog[entries[k].rawMaterialId], entries[k].quantity))
  }

  /** Inserting one more entry appends its association, with the next id. */
  lemma LinkedSnoc(entries: seq<PV.DraftEntry>, e: PV.DraftEntry, catalog: map<int, RawMaterial>, firstId: int)
    requires forall k :: 0 <= k < |entries| ==> entries[k].rawMaterialId in catalog
    requires e.rawMaterialId in catalog
    ensures Linked(entries + [e], catalog, firstId)
            == Linked(entries, catalog, firstId) + [ProductRawMaterial(firstId + |entries|, catalog[e.rawMaterialId], e.quantity)]
  {
    var longer := entries + [e];
    assert forall k :: 0 <= k < |entries| ==> longer[k] == entries[k];
  }

  /** A draft entry's material is not linked yet by the entries before it. */
  lemma NotLinkedYet(pre: seq<PV.DraftEntry>, e: PV.DraftEntry, catalog: map<int, RawMaterial>, firstId: int)
    requires DistinctBy(pre + [e], PV.DraftId) && CatalogKeyed(catalog)
    ensures !HasMaterial(Linked(Accepted(pre, catalog), catalog, firstId), e.rawMaterialId)
  {
    var acc := Accepted(pre, catalog);
    var comp := Linked(acc, catalog, firstId);
    forall k | 0 <= k < |comp| ensures comp[k].rawMaterial.id != e.rawMaterialId {
      var x := acc[k];
      assert comp[k].rawMaterial == catalog[x.rawMaterialId];
      var j :| 0 <= j < |pre| && pre[j] == x;
      assert (pre + [e])[j] == x && (pre + [e])[|pre|] == e;
    }
  }

  /** A further draft entry is accepted, after the earlier ones, exactly when its material exists. */
  lemma AcceptedSnoc(pre: seq<PV.DraftEntry>, e: PV.DraftEntry, catalog: map<int, RawMaterial>)
    ensures Accepted(pre + [e], catalog)
            == if e.rawMaterialId in catalog then Accepted(pre, catalog) + [e] else Accepted(pre, catalog)
  {
    RemoveWhereAppend(pre, [e], Unknown(catalog));
    assert [e][1..] == [];
  }

  /** One more attach call, for the next draft entry, extends the rebuilt composition by that entry. */
  lemma AttachStep(pre: seq<PV.DraftEntry>, e: PV.DraftEntry, productId: int,
                   catalog: map<int, RawMaterial>, firstId: int)
    requires DistinctBy(pre + [e], PV.DraftId) && CatalogKeyed(catalog)
    ensures var before, after := Accepted(pre, catalog), Accepted(pre + [e], catalog);
            Apply(Backend(Linked(before, catalog, firstId), firstId + |before|),
                  PV.AttachRawMaterial(productId, e.rawMaterialId, e.quantity), productId, catalog)
              == Backend(Linked(after, catalog, firstId), firstId + |after|)
  {
    var accPre := Accepted(pre, catalog);
    var after := Accepted(pre + [e], catalog);
    var b := Backend(Linked(accPre, catalog, firstId), firstId + |accPre|);
    var call := PV.AttachRawMaterial(productId, e.rawMaterialId, e.quantity);
    if e.rawMaterialId in catalog {
      assert Apply(b, call, productId, catalog) == Backend(Linked(after, catalog, firstId), firstId + |after|) by {
        NotLinkedYet(pre, e, catalog, firstId);
        AcceptedSnoc(pre, e, catalog);
        LinkedSnoc(accPre, e, catalog, firstId);
        var inserted := ProductRawMaterial(b.nextId, catalog[e.rawMaterialId], e.quantity);
        assert Upsert(b.comp, e.rawMaterialId, e.quantity, catalog, b.nextId) == Ok(b.comp + [inserted]);
      }
    } else {
      assert Apply(b, call, productId, catalog) == Backend(Linked(after, catalog, firstId), firstId + |after|) by {
        NotLinkedYet(pre, e, catalog, firstId);
        AcceptedSnoc(pre, e, catalog);
        assert Upsert(b.comp, e.rawMaterialId, e.quantity, catalog, b.nextId).Fail?;
      }
    }
  }

  /**
   * The create flow rebuilds the draft on the server: after the page's
   * attach calls for a draft without repeated materials, the new product
   * holds exactly the draft's entries whose material exists, in draft order,
   * with the draft's quantities and consecutive association ids. An entry
   * whose attach is rejected is skipped and the later ones still land. The
   * order is the one a repository that keeps insertion order lists;
   * `CreateFlowReloaded` drops that assumption.
   */
  lemma {:induction false} CreateFlowRebuildsDraft(productId: int, draft: seq<PV.DraftEntry>,
                                                   catalog: map<int, RawMaterial>, firstId: int)
    requires DistinctBy(draft, PV.DraftId) && CatalogKeyed(catalog)
    ensures var accepted := Accepted(draft, catalog);
            Replay(Backend([], firstId), PV.AttachCalls(productId, draft), productId, catalog)
              == Backend(Linked(accepted, catalog, firstId), firstId + |accepted|)
  {
    if draft != [] {
      var n := |draft| - 1;
      var pre, e := draft[..n], draft[n];
      assert draft == pre + [e];
      assert DistinctBy(pre, PV.DraftId) by {
        forall i, j | 0 <= i < j < |pre| ensures pre[i].rawMaterialId != pre[j].rawMaterialId {
          assert pre[i] == draft[i] && pre[j] == draft[j];
        }
      }
      CreateFlowRebuildsDraft(productId, pre, catalog, firstId);
      var calls := PV.AttachCalls(productId, draft);
      assert calls[..n] == PV.AttachCalls(productId, pre);
      var call := PV.AttachRawMaterial(productId, e.rawMaterialId, e.quantity);
      assert calls[n] == call;
      AttachStep(pre, e, productId, catalog, firstId);
    }
  }

  /**
   * When every material of the draft exists, the new product's composition
   * is the draft itself, with the unique constraint on (product, material)
   * respected.
   */
  lemma CreateFlowAllAccepted(productId: int, draft: seq<PV.DraftEntry>,
                              catalog: map<int, RawMaterial>, firstId: int)
    requires DistinctBy(draft, PV.DraftId) && CatalogKeyed(catalog)
    requires forall k :: 0 <= k < |draft| ==> draft[k].rawMaterialId in catalog
    ensures var b := Replay(Backend([], firstId), PV.AttachCalls(productId, draft), productId, catalog);
            && |b.comp| == |draft| && b.nextId == firstId + |draft|
            && DistinctMaterials(b.comp)
            && forall k :: 0 <= k < |draft| ==>
                 b.comp[k] == ProductRawMaterial(firstId + k, catalog[draft[k].rawMaterialId], draft[k].quantity)
  {
    var comp := Linked(draft, catalog, firstId);
    assert Replay(Backend([], firstId), PV.AttachCalls(productId, draft), productId, catalog)
           == Backend(comp, firstId + |draft|) by {
      CreateFlowRebuildsDraft(productId, draft, catalog, firstId);
      assert forall k :: 0 <= k < |draft| ==> !Unknown(catalog)(draft[k]);
      assert Accepted(draft, catalog) == draft;
    }
    assert DistinctMaterials(comp) by {
      forall i, j | 0 <= i < j < |comp| ensures comp[i].rawMaterial.id != comp[j].rawMaterial.id {
        assert comp[i].rawMaterial.id == draft[i].rawMaterialId;
        assert comp[j].rawMaterial.id == draft[j].rawMaterialId;
      }
    }
  }

  // --- Reloading between requests ---

  /**
   * Two snapshots of the backend that hold the same associations, possibly
   * listed in different orders, and agree on the next association id.
   */
  predicate SameAssociations(a: Backend, b: Backend)
  {
    multiset(a.comp) == multiset(b.comp) && a.nextId == b.nextId
  }

  /** A call applied to two listings of the same associations leaves the same associations. */
  lemma ApplyIgnoresOrder(a: Backend, b: Backend, call: PV.Call, productId: int, catalog: map<int, RawMaterial>)
    requires SameAssociations(a, b) && DistinctMaterials(b.comp)
    ensures SameAssociations(Apply(a, call, productId, catalog), Apply(b, call, productId, catalog))
  {
    if call.AttachRawMaterial? && call.productId == productId {
      UpsertIgnoresOrder(a.comp, b.comp, call.rawMaterialId, call.quantity, catalog, a.nextId);
    } else if call.DetachRawMaterial? && call.productId == productId {
      DetachIgnoresOrder(a.comp, b.comp, call.rawMaterialId);
    }
  }

  /**
   * `states` is one run of `calls` in which every request works on the
   * product's associations as the persistence layer loaded them: request k
   * starts from `states[k]`, and `states[k + 1]` is what it left behind,
   * listed in whatever order the next load returns. Every listing respects
   * the unique constraint on (product, material).
   */
  ghost predicate Reloads(b: Backend, calls: seq<PV.Call>, productId: int, catalog: map<int, RawMaterial>,
                          states: seq<Backend>)
  {
    && |states| == |calls| + 1 && states[0] == b
    && (forall k :: 0 <= k < |states| ==> DistinctMaterials(states[k].comp))
    && forall k :: 0 <= k < |calls| ==> SameAssociations(Apply(states[k], calls[k], productId, catalog), states[k + 1])
  }

  /** However each load orders the associations, a run ends with the associations the in-order replay gives. */
  lemma {:induction false} ReloadsFollowReplay(b: Backend, calls: seq<PV.Call>, productId: int,
                                               catalog: map<int, RawMaterial>, states: seq<Backend>)
    requires Reloads(b, calls, productId, catalog, states)
    ensures SameAssociations(Replay(b, calls, productId, catalog), states[|calls|])
  {
    if calls != [] {
      var n := |calls| - 1;
      assert Reloads(b, calls[..n], productId, catalog, states[..n + 1]);
      ReloadsFollowReplay(b, calls[..n], productId, catalog, states[..n + 1]);
      ApplyIgnoresOrder(Replay(b, calls[..n], productId, catalog), states[n], calls[n], productId, catalog);
    }
  }

  /**
   * The create flow without relying on the order of the product's
   * association list: whatever order each request loads it in, the new
   * product ends up holding exactly the associations of the draft's entries
   * whose material exists, each once, with the draft's quantities.
   */
  lemma CreateFlowReloaded(productId: int, draft: seq<PV.DraftEntry>, catalog: map<int, RawMaterial>,
                           firstId: int, states: seq<Backend>)
    requires DistinctBy(draft, PV.DraftId) && CatalogKeyed(catalog)
    requires Reloads(Backend([], firstId), PV.AttachCalls(productId, draft), productId, catalog, states)
    ensures var accepted, last := Accepted(draft, catalog), states[|states| - 1];
            && multiset(last.comp) == multiset(Linked(accepted, catalog, firstId))
            && last.nextId == firstId + |accepted|
  {
    var calls := PV.AttachCalls(productId, draft);
    CreateFlowRebuildsDraft(productId, draft, catalog, firstId);
    ReloadsFollowReplay(Backend([], firstId), calls, productId, catalog, states);
  }
}
