/** PUT /api/issues/:project — the fail-fast validation ladder, then a partial
    merge of the whole request body into the addressed document with
    `updated_on` refreshed. */
module UpdateIssue {
  import opened Js
  import opened Issues

  /** The six updatable fields are all falsy, so `open: false` and empty
      strings count as "nothing sent". */
  predicate NothingToUpdate(body: Body) {
    && Falsy(Lookup(body, "issue_title"))
    && Falsy(Lookup(body, "issue_text"))
    && Falsy(Lookup(body, "created_by"))
    && Falsy(Lookup(body, "assigned_to"))
    && Falsy(Lookup(body, "status_text"))
    && Falsy(Lookup(body, "open"))
  }

  function Pick(body: Body, key: string, current: Val): Val {
    if key in body then body[key] else current
  }

  /** Body keys the handler does not name, kept as they are. */
  function ExtraFields(body: Body): Extras {
    map k | k in body && k !in KnownFields :: body[k]
  }

  /** `updateDoc(docRef, {...req.body, updated_on: new Date()})` on one document. */
  function Merge(i: Issue, body: Body, now: int): Issue {
    Issue(
      id := Pick(body, "id", i.id),
      spreadId := if "_id" in body then Some(body["_id"]) else i.spreadId,
      project := Pick(body, "project", i.project),
      issueTitle := Pick(body, "issue_title", i.issueTitle),
      issueText := Pick(body, "issue_text", i.issueText),
      createdBy := Pick(body, "created_by", i.createdBy),
      assignedTo := Pick(body, "assigned_to", i.assignedTo),
      statusText := Pick(body, "status_text", i.statusText),
      open := Pick(body, "open", i.open),
      createdOn := Pick(body, "created_on", i.createdOn),
      updatedOn := Time(now),
      extras := i.extras + ExtraFields(body))
  }

  lemma FieldOfMerge(i: Issue, body: Body, now: int, name: string)
    ensures Field(Merge(i, body, now), name)
         == if name == "updated_on" then Some(Time(now))
            else if name in body then Some(body[name])
            else Field(i, name)
  {
  }

  /** Merging is the object spread: every body field overwrites the stored
      one, every other stored field stays, and `updated_on` becomes `now`. */
  lemma MergeIsSpread(i: Issue, body: Body, now: int)
    ensures Document(Merge(i, body, now)) == Document(i) + body + map["updated_on" := Time(now)]
  {
    var lhs := Document(Merge(i, body, now));
    var rhs := Document(i) + body + map["updated_on" := Time(now)];
    forall name
      ensures (name in lhs <==> name in rhs) && (name in lhs ==> lhs[name] == rhs[name])
    {
      FieldOfMerge(i, body, now, name);
    }
  }

  /** Every rung of the validation ladder passes: `_id` is truthy, some
      update field is truthy, and `_id` is a well-formed identifier. */
  predicate PassesLadder(body: Body, validId: string -> bool) {
    && !Falsy(Lookup(body, "_id"))
    && !NothingToUpdate(body)
    && ValidIdValue(body["_id"], validId)
  }

  /** The PUT handler. `validId` is the identifier-format check, `now` the
      clock, `health` whether `updateDoc` throws a failure other than not-found. */
  function Update(store: Store, body: Body, validId: string -> bool, now: int, health: Health): (r: Reply)
    // The ladder, first failing rung wins.
    ensures Falsy(Lookup(body, "_id")) <==> r.response == Rejected(MissingId, None)
    ensures !Falsy(Lookup(body, "_id")) ==>
      (NothingToUpdate(body) <==> r.response == Rejected(NoUpdateFields, Some(body["_id"])))
    ensures !Falsy(Lookup(body, "_id")) && !NothingToUpdate(body) && !ValidIdValue(body["_id"], validId) ==>
      r.response == Rejected(CouldNotUpdate, Some(body["_id"]))
    ensures PassesLadder(body, validId) && health == Failing ==>
      r.response == Rejected(CouldNotUpdate, Some(body["_id"]))
    ensures PassesLadder(body, validId) && health == Healthy && body["_id"].s !in store ==>
      r.response == Rejected(IssueNotFound, Some(body["_id"]))
    // Success happens exactly when every rung passes and the document exists.
    ensures r.response.Confirmed? <==>
      PassesLadder(body, validId) && health == Healthy && body["_id"].s in store
    ensures r.response.Confirmed? ==> r.response == Confirmed(SuccessfullyUpdated, body["_id"])
    // Only a success changes the store, and then only the addressed document.
    ensures !r.response.Confirmed? ==> r.store == store
    ensures r.response.Confirmed? ==>
      var key := body["_id"].s;
      && r.store.Keys == store.Keys
      && (forall k :: k in store && k != key ==> r.store[k] == store[k])
      && Document(r.store[key]) == Document(store[key]) + body + map["updated_on" := Time(now)]
  {
    if Falsy(Lookup(body, "_id")) then
      Reply(store, Rejected(MissingId, None))
    else if NothingToUpdate(body) then
      Reply(store, Rejected(NoUpdateFields, Some(body["_id"])))
    else if !ValidIdValue(body["_id"], validId) then
      Reply(store, Rejected(CouldNotUpdate, Some(body["_id"])))
    else
      Commit(store, body["_id"], body, now, health)
  }

  /** The store call once the ladder has passed: `updateDoc` on key `id`. */
  function Commit(store: Store, id: Json, body: Body, now: int, health: Health): (r: Reply)
    requires id.Str?
    ensures r.response.Confirmed? <==> health == Healthy && id.s in store
    ensures health == Healthy && id.s !in store ==> r.response == Rejected(IssueNotFound, Some(id))
    ensures health == Failing ==> r.response == Rejected(CouldNotUpdate, Some(id))
    ensures r.response.Confirmed? ==> r.response == Confirmed(SuccessfullyUpdated, id)
    ensures !r.response.Confirmed? ==> r.store == store
    ensures r.response.Confirmed? ==>
      && r.store.Keys == store.Keys
      && (forall k :: k in store && k != id.s ==> r.store[k] == store[k])
      && Document(r.store[id.s]) == Document(store[id.s]) + body + map["updated_on" := Time(now)]
  {
    match health
    case Failing => Reply(store, Rejected(CouldNotUpdate, Some(id)))
    case Healthy =>
      if id.s !in store then
        Reply(store, Rejected(IssueNotFound, Some(id)))
      else
        var merged := Merge(store[id.s], body, now);
        MergeIsSpread(store[id.s], body, now);
        Reply(store[id.s := merged], Confirmed(SuccessfullyUpdated, id))
  }
}
