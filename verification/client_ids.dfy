/** A client-supplied `_id` on POST. Create (as written) stores the issue
    under a freshly generated document key but records and reports the
    client's `_id`; PUT and DELETE address documents by that `_id`, so they
    miss the issue. The corrected create keys the document by the client's
    `_id` when it is a non-empty string, so that the reported `_id` always
    addresses the stored document. */
module ClientIds {
  import opened Js
  import opened Issues
  import opened CreateIssue
  import opened UpdateIssue
  import opened DeleteIssue

  // ---------------------------------------------------------------------
  // As written

  /** A create that sent its own `_id` reports that `_id`, but DELETE with it
      answers "successfully deleted" and leaves the issue in the store. */
  lemma ClientIdDeleteMissesIssue(store: Store, project: string, body: Body, key: string,
                                  now: int, validId: string -> bool)
    requires !RequiredMissing(project, body)
    requires "_id" in body && body["_id"].Str? && body["_id"].s != ""
    requires validId(body["_id"].s)
    requires body["_id"].s != key && body["_id"].s !in store
    ensures var c := Create(store, project, body, key, now, Healthy);
            var d := Delete(c.store, map["_id" := body["_id"]], validId, Healthy);
            && c.response.issue.id == body["_id"]
            && d.response == Confirmed(SuccessfullyDeleted, body["_id"])
            && key in d.store
            && d.store == c.store
  {
    var c := Create(store, project, body, key, now, Healthy);
    var d := Delete(c.store, map["_id" := body["_id"]], validId, Healthy);
    assert d.store.Keys == c.store.Keys;
  }

  /** The same request sequence as the functional tests' delete suite: the
      POST sends `_id: 'Rh0nr1x23Iru4JCQgvjo'`, the store generates another
      key, and the DELETE with the reported `_id` succeeds without deleting. */
  lemma DeleteSuiteScenario(validId: string -> bool)
    requires validId("Rh0nr1x23Iru4JCQgvjo")
    ensures var body: Body := map["_id" := Str("Rh0nr1x23Iru4JCQgvjo"), "issue_title" := Str("Title#3"),
                                  "issue_text" := Str("text#3"), "created_by" := Str("Chai and Mocha")];
            var c := Create(map[], "test", body, "q2JZbqkS0uTn1fXyGz7A", 0, Healthy);
            var d := Delete(c.store, map["_id" := Str("Rh0nr1x23Iru4JCQgvjo")], validId, Healthy);
            && d.response == Confirmed(SuccessfullyDeleted, Str("Rh0nr1x23Iru4JCQgvjo"))
            && "q2JZbqkS0uTn1fXyGz7A" in d.store
  {
    var body: Body := map["_id" := Str("Rh0nr1x23Iru4JCQgvjo"), "issue_title" := Str("Title#3"),
                          "issue_text" := Str("text#3"), "created_by" := Str("Chai and Mocha")];
    assert !RequiredMissing("test", body);
    ClientIdDeleteMissesIssue(map[], "test", body, "q2JZbqkS0uTn1fXyGz7A", 0, validId);
  }

  /** PUT with the reported `_id` answers "Issue not found". */
  lemma ClientIdUpdateMissesIssue(store: Store, project: string, body: Body, key: string,
                                  now: int, later: int, validId: string -> bool)
    requires !RequiredMissing(project, body)
    requires "_id" in body && body["_id"].Str? && body["_id"].s != ""
    requires validId(body["_id"].s)
    requires body["_id"].s != key && body["_id"].s !in store
    ensures var c := Create(store, project, body, key, now, Healthy);
            var change: Body := map["_id" := body["_id"], "issue_text" := Str("New Issue Text")];
            Update(c.store, change, validId, later, Healthy).response == Rejected(IssueNotFound, Some(body["_id"]))
  {
    var c := Create(store, project, body, key, now, Healthy);
    var change: Body := map["_id" := body["_id"], "issue_text" := Str("New Issue Text")];
    assert !NothingToUpdate(change);
  }

  // ---------------------------------------------------------------------
  // Corrected

  /** The document key: the client's `_id` when it is a non-empty string,
      the generated key otherwise. */
  function DocumentKey(body: Body, generated: string): string {
    if "_id" in body && body["_id"].Str? && body["_id"].s != "" then body["_id"].s else generated
  }

  /** Create that stores the document under the identifier it reports. */
  function CreateUnderClientId(store: Store, project: string, body: Body, generated: string,
                               now: int, health: Health): (r: Reply)
    ensures r.response.Created? <==> !RequiredMissing(project, body) && health == Healthy
    ensures r.response.Created? ==>
      var k := DocumentKey(body, generated);
      && r.response.issue.id == Str(k)
      && k in r.store
      && r.store[k].id == Str(k)
      && ShownId(r.store[k]) == Str(k)
  {
    Create(store, project, body - {"_id"}, DocumentKey(body, generated), now, health)
  }

  /** Without a client `_id` the corrected create is the create as written:
      the correction only changes where a client-chosen issue is stored. */
  lemma CorrectionKeepsGeneratedKeys(store: Store, project: string, body: Body, generated: string,
                                     now: int, health: Health)
    requires "_id" !in body
    ensures CreateUnderClientId(store, project, body, generated, now, health)
         == Create(store, project, body, generated, now, health)
  {
    assert body - {"_id"} == body;
  }

  /** With the corrected create, deleting by whatever `_id` the POST reported
      removes the issue, and the store is back where it started. */
  lemma CorrectedCreateThenDeleteRestores(store: Store, project: string, body: Body, generated: string,
                                          now: int, validId: string -> bool)
    requires !RequiredMissing(project, body)
    requires DocumentKey(body, generated) !in store
    requires DocumentKey(body, generated) != "" && validId(DocumentKey(body, generated))
    ensures var c := CreateUnderClientId(store, project, body, generated, now, Healthy);
            var k := DocumentKey(body, generated);
            var d := Delete(c.store, map["_id" := Str(k)], validId, Healthy);
            && c.response.issue.id == Str(k)
            && d.response == Confirmed(SuccessfullyDeleted, Str(k))
            && d.store == store
  {
    var k := DocumentKey(body, generated);
    var c := CreateUnderClientId(store, project, body, generated, now, Healthy);
    var d := Delete(c.store, map["_id" := Str(k)], validId, Healthy);
    assert c.store.Keys == store.Keys + {k};
    assert d.store.Keys == store.Keys;
  }
}
