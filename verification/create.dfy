/** POST /api/issues/:project — required-field check, defaulting, the write
    under a freshly generated document key and the response built from the
    submitted fields and the read-back document. */
module CreateIssue {
  import opened Js
  import opened Issues

  /** The required-field guard: the project path and the three required body
      fields are tested for JavaScript falsiness, so `''` counts as missing. */
  predicate RequiredMissing(project: string, body: Body) {
    || project == ""
    || Falsy(Lookup(body, "issue_title"))
    || Falsy(Lookup(body, "issue_text"))
    || Falsy(Lookup(body, "created_by"))
  }

  /** `body[key] ?? ''`. */
  function OrEmpty(body: Body, key: string): Val {
    Coalesce(Lookup(body, key), Str(""))
  }

  /** `req.body?._id ?? newIssueRef.id`: the `id` field Create stores. */
  function StoredId(body: Body, key: string): Val {
    Coalesce(Lookup(body, "_id"), Str(key))
  }

  /** The document Create writes under the generated key `key` at time `now`. */
  function NewIssue(project: string, body: Body, key: string, now: int): Issue
    requires !RequiredMissing(project, body)
  {
    Issue(
      id := StoredId(body, key),
      spreadId := None,
      project := Str(project),
      issueTitle := body["issue_title"],
      issueText := body["issue_text"],
      createdBy := body["created_by"],
      assignedTo := OrEmpty(body, "assigned_to"),
      statusText := OrEmpty(body, "status_text"),
      open := Bool(true),
      createdOn := Time(now),
      updatedOn := Time(now),
      extras := map[])
  }

  /** The response: submitted fields echoed (with the same defaulting), `_id`,
      timestamps and `open` read back from the stored document. */
  function Echo(body: Body, stored: Issue): (r: Response)
    requires "issue_title" in body && "issue_text" in body && "created_by" in body
    ensures r.Created? <==> stored.createdOn.Time? && stored.updatedOn.Time?
  {
    match (ToDate(stored.createdOn), ToDate(stored.updatedOn))
    case (Some(c), Some(u)) =>
      Created(CreatedIssue(
        id := stored.id,
        issueTitle := body["issue_title"],
        issueText := body["issue_text"],
        createdBy := body["created_by"],
        assignedTo := OrEmpty(body, "assigned_to"),
        statusText := OrEmpty(body, "status_text"),
        createdOn := c,
        updatedOn := u,
        open := Coalesce(Some(stored.open), Bool(false))))
    case _ => Caught
  }

  /** The POST handler. `key` is the id the store generates for the new
      document, `now` the clock, `health` whether the store write throws. */
  function Create(store: Store, project: string, body: Body, key: string, now: int, health: Health): (r: Reply)
    // Validation: exactly the falsy-required-field requests are refused, and they change nothing.
    ensures RequiredMissing(project, body) <==> r.response == Rejected(RequiredFieldsMissing, None)
    ensures !r.response.Created? ==> r.store == store
    ensures r.response.Created? <==> !RequiredMissing(project, body) && health == Healthy
    // A failing store write ends in the catch block.
    ensures !RequiredMissing(project, body) && health == Failing ==> r == Reply(store, Caught)
    // Success: one document is written under `key`; every other document is untouched.
    ensures r.response.Created? ==>
      && r.store.Keys == store.Keys + {key}
      && forall k :: k in store && k != key ==> r.store[k] == store[k]
    // The new document: open, in the path's project, optional fields defaulted to ''.
    ensures r.response.Created? ==>
      var i := r.store[key];
      && i.open == Bool(true)
      && i.project == Str(project)
      && i.issueTitle == body["issue_title"]
      && i.issueText == body["issue_text"]
      && i.createdBy == body["created_by"]
      && i.assignedTo == (if "assigned_to" in body && body["assigned_to"] != Null then body["assigned_to"] else Str(""))
      && i.statusText == (if "status_text" in body && body["status_text"] != Null then body["status_text"] else Str(""))
      && i.createdOn == Time(now) && i.updatedOn == Time(now)
      && i.spreadId.None?
      && i.id == r.response.issue.id
      && i.extras == map[]
    // The response echoes the submission and reports the client's `_id` when it sent one.
    ensures r.response.Created? ==>
      var c := r.response.issue;
      && c.issueTitle == body["issue_title"]
      && c.issueText == body["issue_text"]
      && c.createdBy == body["created_by"]
      && c.assignedTo == r.store[key].assignedTo
      && c.statusText == r.store[key].statusText
      && c.open == Bool(true)
      && c.createdOn == Native(now) && c.updatedOn == Native(now)
      && c.id == (if "_id" in body && body["_id"] != Null then body["_id"] else Str(key))
  {
    if RequiredMissing(project, body) then
      Reply(store, Rejected(RequiredFieldsMissing, None))
    else
      match health
      case Failing => Reply(store, Caught)
      case Healthy =>
        var written := store[key := NewIssue(project, body, key, now)];
        Reply(written, Echo(body, written[key]))
  }

  /** With a key the store does not hold yet, a successful create grows the
      store by exactly one document. */
  lemma CreateAddsOne(store: Store, project: string, body: Body, key: string, now: int)
    requires key !in store
    requires !RequiredMissing(project, body)
    ensures |Create(store, project, body, key, now, Healthy).store| == |store| + 1
  {
    var s' := Create(store, project, body, key, now, Healthy).store;
    assert s'.Keys == store.Keys + {key};
    assert |s'.Keys| == |store.Keys| + 1;
  }
}
