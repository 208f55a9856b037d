/** Properties that span several requests: the timestamp invariant the four
    handlers keep, and round trips between creating, listing, updating and
    deleting an issue. */
module Lifecycle {
  import opened Js
  import opened Issues
  import opened ListIssues
  import opened CreateIssue
  import opened UpdateIssue
  import opened DeleteIssue

  /** A native timestamp `v` was taken strictly before `now`. */
  predicate Before(v: Val, now: int) {
    v.Time? ==> v.millis < now
  }

  /** Every native timestamp in the store predates the clock value `now`. */
  predicate StampedBefore(store: Store, now: int) {
    forall k :: k in store ==> Before(store[k].createdOn, now) && Before(store[k].updatedOn, now)
  }

  /** `created_on <= updated_on` wherever both are native timestamps. */
  predicate InOrder(i: Issue) {
    i.createdOn.Time? && i.updatedOn.Time? ==> i.createdOn.millis <= i.updatedOn.millis
  }

  predicate Chronological(store: Store) {
    forall k :: k in store ==> InOrder(store[k])
  }

  /** Every stored document can be shown by GET: both timestamps are strings
      or native timestamps. */
  predicate Presentable(store: Store) {
    forall k :: k in store ==> ToView(store[k]).Some?
  }

  // ---------------------------------------------------------------------
  // The store invariant under a strictly increasing clock

  lemma CreateKeepsTimeline(store: Store, project: string, body: Body, key: string,
                            now: int, health: Health, later: int)
    requires StampedBefore(store, now) && Chronological(store) && now < later
    ensures var s := Create(store, project, body, key, now, health).store;
            StampedBefore(s, later) && Chronological(s)
  {
  }

  /** The value an update leaves in `created_on`: the body's, or the old one. */
  lemma UpdatedCreatedOn(store: Store, body: Body, validId: string -> bool, now: int, health: Health)
    requires PassesLadder(body, validId) && health == Healthy && body["_id"].s in store
    ensures var key := body["_id"].s;
            var i := Update(store, body, validId, now, health).store[key];
            && i.updatedOn == Time(now)
            && i.createdOn == (if "created_on" in body then body["created_on"] else store[key].createdOn)
  {
    var key := body["_id"].s;
    var r := Update(store, body, validId, now, health);
    var i := r.store[key];
    assert Document(i)["updated_on"] == i.updatedOn;
    assert Document(i)["created_on"] == i.createdOn;
    assert Document(store[key])["created_on"] == store[key].createdOn;
  }

  /** A successful update sets `updated_on` to the current clock, which is
      strictly later than a native `created_on` the store already held. */
  lemma UpdateMovesPastCreation(store: Store, body: Body, validId: string -> bool, now: int, health: Health)
    requires StampedBefore(store, now)
    requires PassesLadder(body, validId) && health == Healthy && body["_id"].s in store
    ensures var i := Update(store, body, validId, now, health).store[body["_id"].s];
            i.updatedOn == Time(now) && (i.createdOn.Time? ==> i.createdOn.millis < i.updatedOn.millis)
  {
    UpdatedCreatedOn(store, body, validId, now, health);
  }

  lemma UpdateKeepsTimeline(store: Store, body: Body, validId: string -> bool,
                            now: int, health: Health, later: int)
    requires StampedBefore(store, now) && Chronological(store) && now < later
    ensures var s := Update(store, body, validId, now, health).store;
            StampedBefore(s, later) && Chronological(s)
  {
    var r := Update(store, body, validId, now, health);
    if r.response.Confirmed? {
      UpdateMovesPastCreation(store, body, validId, now, health);
      var key := body["_id"].s;
      forall k | k in r.store
        ensures Before(r.store[k].createdOn, later) && Before(r.store[k].updatedOn, later) && InOrder(r.store[k])
      {
        if k != key {
          assert r.store[k] == store[k];
        }
      }
    }
  }

  lemma DeleteKeepsTimeline(store: Store, body: Body, validId: string -> bool,
                            health: Health, now: int, later: int)
    requires StampedBefore(store, now) && Chronological(store) && now <= later
    ensures var s := Delete(store, body, validId, health).store;
            StampedBefore(s, later) && Chronological(s)
  {
  }

  // ---------------------------------------------------------------------
  // Round trips

  /** A created issue shows up when its project is listed, carrying the
      `_id`, fields and timestamps the POST response reported. */
  lemma CreatedIssueIsListed(store: Store, project: string, body: Body, key: string,
                             now: int, order: seq<string>)
    requires !RequiredMissing(project, body)
    requires Presentable(store)
    requires key in order
    ensures var r := Create(store, project, body, key, now, Healthy);
            var listed := GetIssues(r.store, order, project, map[], Healthy);
            && listed.Listed?
            && exists v :: v in listed.issues
                 && v.id == r.response.issue.id
                 && v.issueTitle == r.response.issue.issueTitle
                 && v.issueText == r.response.issue.issueText
                 && v.createdBy == r.response.issue.createdBy
                 && v.assignedTo == r.response.issue.assignedTo
                 && v.statusText == r.response.issue.statusText
                 && v.open == r.response.issue.open
                 && v.createdOn == r.response.issue.createdOn
                 && v.updatedOn == r.response.issue.updatedOn
  {
    var r := Create(store, project, body, key, now, Healthy);
    assert Presentable(r.store) by {
      forall k | k in r.store ensures ToView(r.store[k]).Some? {
        if k != key { assert r.store[k] == store[k]; }
      }
    }
    PresentableDocumentIsListed(r.store, order, project, map[], key);
  }

  /** Deleting by the `_id` a POST reported removes the issue again when the
      client did not choose the id: the store is back where it started. */
  lemma DeletingCreatedIssueRestoresStore(store: Store, project: string, body: Body, key: string,
                                          now: int, validId: string -> bool)
    requires !RequiredMissing(project, body)
    requires "_id" !in body || body["_id"] == Null
    requires key !in store && key != "" && validId(key)
    ensures var c := Create(store, project, body, key, now, Healthy);
            var d := Delete(c.store, map["_id" := Str(key)], validId, Healthy);
            && c.response.issue.id == Str(key)
            && d.response == Confirmed(SuccessfullyDeleted, Str(key))
            && d.store == store
  {
    var c := Create(store, project, body, key, now, Healthy);
    var d := Delete(c.store, map["_id" := Str(key)], validId, Healthy);
    assert d.store.Keys == store.Keys;
  }

  /** After a successful update, listing the project by `?_id=` finds the
      document, now showing the addressed key as its `_id` and `updated_on`
      equal to the update's clock value. */
  lemma UpdatedIssueIsListedById(store: Store, body: Body, validId: string -> bool, now: int,
                                 order: seq<string>, project: string)
    requires PassesLadder(body, validId) && body["_id"].s in store
    requires Presentable(store)
    requires "created_on" in body ==> body["created_on"].Str?
    requires body["_id"].s in order
    requires Pick(body, "project", store[body["_id"].s].project) == Str(project)
    ensures var s := Update(store, body, validId, now, Healthy).store;
            var listed := GetIssues(s, order, project, map["_id" := body["_id"].s], Healthy);
            && listed.Listed?
            && exists v :: v in listed.issues && v.id == body["_id"] && v.updatedOn == Native(now)
  {
    var key := body["_id"].s;
    var s := Update(store, body, validId, now, Healthy).store;
    var n := s[key];
    assert Document(store[key])["project"] == store[key].project;
    assert Document(n)["project"] == n.project;
    UpdatedCreatedOn(store, body, validId, now, Healthy);
    assert Document(n)["_id"] == body["_id"];
    assert n.spreadId == Some(body["_id"]);
    assert Presentable(s) by {
      forall k | k in s ensures ToView(s[k]).Some? {
        if k != key { assert s[k] == store[k]; }
      }
    }
    var v := ToView(n).value;
    assert v.id == ShownId(n);
    PresentableDocumentIsListed(s, order, project, map["_id" := key], key);
  }

  /** In a store GET can present, a document of the project that the store
      enumerates is in the listing whenever its view matches the query. */
  lemma PresentableDocumentIsListed(s: Store, order: seq<string>, project: string, q: Query, key: string)
    requires Presentable(s) && ShadowingKey !in q
    requires key in s && key in order && s[key].project == Str(project)
    ensures var listed := GetIssues(s, order, project, q, Healthy);
            && listed.Listed?
            && (MatchesQuery(ToView(s[key]).value, q) ==> ToView(s[key]).value in listed.issues)
  {
    var scanned := Scan(s, order, project);
    forall j | 0 <= j < |scanned| ensures ToView(scanned[j]).Some? {
      assert scanned[j] in s.Values;
    }
    var vs := Views(scanned).value;
    assert s[key] in scanned;
    var j :| 0 <= j < |scanned| && scanned[j] == s[key];
    assert vs[j] == ToView(s[key]).value;
    MatchingViewsMembers(vs, q);
  }
}
