/** DELETE /api/issues/:project — the two-rung validation ladder, then a
    delete-by-key that reports success whether or not the document existed. */
module DeleteIssue {
  import opened Js
  import opened Issues

  /** The DELETE handler. `validId` is the identifier-format check, `health`
      whether `deleteDoc` throws. */
  function Delete(store: Store, body: Body, validId: string -> bool, health: Health): (r: Reply)
    ensures Falsy(Lookup(body, "_id")) <==> r.response == Rejected(MissingId, None)
    ensures !Falsy(Lookup(body, "_id")) ==>
      ((!ValidIdValue(body["_id"], validId) || health == Failing)
       <==> r.response == Rejected(CouldNotDelete, Some(body["_id"])))
    // Success does not depend on whether the document existed.
    ensures r.response.Confirmed? <==>
      !Falsy(Lookup(body, "_id")) && ValidIdValue(body["_id"], validId) && health == Healthy
    ensures r.response.Confirmed? ==>
      && r.response == Confirmed(SuccessfullyDeleted, body["_id"])
      && r.store.Keys == store.Keys - {body["_id"].s}
      && forall k :: k in r.store ==> r.store[k] == store[k]
    ensures !r.response.Confirmed? ==> r.store == store
  {
    if Falsy(Lookup(body, "_id")) then
      Reply(store, Rejected(MissingId, None))
    else if !ValidIdValue(body["_id"], validId) then
      Reply(store, Rejected(CouldNotDelete, Some(body["_id"])))
    else
      match health
      case Failing => Reply(store, Rejected(CouldNotDelete, Some(body["_id"])))
      case Healthy => Reply(store - {body["_id"].s}, Confirmed(SuccessfullyDeleted, body["_id"]))
  }

  /** Deleting twice gives the same response and the same store as deleting once. */
  lemma DeleteIsIdempotent(store: Store, body: Body, validId: string -> bool)
    ensures var once := Delete(store, body, validId, Healthy);
            Delete(once.store, body, validId, Healthy) == once
  {
    var once := Delete(store, body, validId, Healthy);
    var twice := Delete(once.store, body, validId, Healthy);
    if once.response.Confirmed? {
      assert twice.store.Keys == once.store.Keys;
      assert twice.store == once.store;
    }
  }

  /** Deleting a key the store does not hold still reports success. */
  lemma DeletingAbsentKeySucceeds(store: Store, body: Body, validId: string -> bool)
    requires "_id" in body && body["_id"].Str? && body["_id"].s != ""
    requires validId(body["_id"].s) && body["_id"].s !in store
    ensures Delete(store, body, validId, Healthy) == Reply(store, Confirmed(SuccessfullyDeleted, body["_id"]))
  {
    assert store - {body["_id"].s} == store;
  }
}
