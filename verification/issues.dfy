/** The issue record as it sits in the document store, the shape the GET
    handler turns it into, and the responses the four handlers send. */
module Issues {
  import opened Js

  /** Field names the handler gives a meaning to; every other key a request
      body carries ends up in `extras`. */
  const KnownFields: set<string> :=
    {"id", "_id", "project", "issue_title", "issue_text", "created_by",
     "assigned_to", "status_text", "open", "created_on", "updated_on"}

  /** Fields an update's body spread wrote that the handler does not name. */
  type Extras = m: map<string, Val> | m.Keys !! KnownFields witness map[]

  /** One stored issue document. Its address in the store (the document key)
      is NOT part of the record: `id` is the field Create writes, which is the
      client's `_id` when one was sent and the generated key otherwise.
      `spreadId` is the `_id` field, absent until an update spreads a request
      body (which always carries `_id`) into the document. Every field is a
      `Val` because an update may overwrite it with any JSON value. */
  datatype Issue = Issue(
    id: Val,
    spreadId: Option<Val>,
    project: Val,
    issueTitle: Val,
    issueText: Val,
    createdBy: Val,
    assignedTo: Val,
    statusText: Val,
    open: Val,
    createdOn: Val,
    updatedOn: Val,
    extras: Extras)

  /** The `issues` collection: document key to document. */
  type Store = map<string, Issue>

  /** `doc[name]`: the stored value of one field, `None` when it is absent. */
  function Field(i: Issue, name: string): Option<Val> {
    if name == "id" then Some(i.id)
    else if name == "_id" then i.spreadId
    else if name == "project" then Some(i.project)
    else if name == "issue_title" then Some(i.issueTitle)
    else if name == "issue_text" then Some(i.issueText)
    else if name == "created_by" then Some(i.createdBy)
    else if name == "assigned_to" then Some(i.assignedTo)
    else if name == "status_text" then Some(i.statusText)
    else if name == "open" then Some(i.open)
    else if name == "created_on" then Some(i.createdOn)
    else if name == "updated_on" then Some(i.updatedOn)
    else if name in i.extras then Some(i.extras[name])
    else None
  }

  /** The document as a plain JavaScript object: field name to value. */
  function Document(i: Issue): (d: map<string, Val>)
    ensures forall name :: name in d <==> Field(i, name).Some?
    ensures forall name :: name in d ==> d[name] == Field(i, name).value
  {
    map name | name in i.extras.Keys + KnownFields && Field(i, name).Some? :: Field(i, name).value
  }

  /** A timestamp in a GET response: a stored string is passed through, a
      native timestamp becomes a `Date`. */
  datatype Ts = Text(text: string) | Native(millis: int)

  /** `ts.toDate()`: defined on native timestamps only; on anything else the
      call throws, which `None` stands for. */
  function ToDate(v: Val): (r: Option<Ts>)
    ensures r.Some? <==> v.Time?
    ensures v.Time? ==> r == Some(Native(v.millis))
  {
    if v.Time? then Some(Native(v.millis)) else None
  }

  /** `typeof v === 'string' ? v : v.toDate()`. */
  function Normalize(v: Val): (r: Option<Ts>)
    ensures r.Some? <==> v.Str? || v.Time?
    ensures v.Str? <==> r.Some? && r.value.Text?
    ensures v.Str? ==> r == Some(Text(v.s))
    ensures v.Time? ==> r == Some(Native(v.millis))
  {
    if v.Str? then Some(Text(v.s)) else ToDate(v)
  }

  /** One element of a GET response: the stored document with `id` renamed
      to `_id` and both timestamps normalised. */
  datatype IssueView = IssueView(
    id: Val,
    project: Val,
    issueTitle: Val,
    issueText: Val,
    createdBy: Val,
    assignedTo: Val,
    statusText: Val,
    open: Val,
    createdOn: Ts,
    updatedOn: Ts,
    extras: Extras)

  /** The `_id` a GET response shows: `{_id: data.id, ...data}` lets a stored
      `_id` field win over `id`. */
  function ShownId(i: Issue): Val {
    if i.spreadId.Some? then i.spreadId.value else i.id
  }

  /** The GET post-processing of one document; `None` when a timestamp is
      neither a string nor a native timestamp, so that `.toDate()` throws. */
  function ToView(i: Issue): (r: Option<IssueView>)
    ensures r.Some? <==> Normalize(i.createdOn).Some? && Normalize(i.updatedOn).Some?
    ensures r.Some? ==> Some(r.value.createdOn) == Normalize(i.createdOn)
    ensures r.Some? ==> Some(r.value.updatedOn) == Normalize(i.updatedOn)
  {
    match (Normalize(i.createdOn), Normalize(i.updatedOn))
    case (Some(c), Some(u)) =>
      Some(IssueView(ShownId(i), i.project, i.issueTitle, i.issueText, i.createdBy,
                     i.assignedTo, i.statusText, i.open, c, u, i.extras))
    case _ => None
  }

  /** `customData[name]` apart from the two timestamps: the view as a plain
      JavaScript object, `None` for a key it does not carry. */
  function ViewField(v: IssueView, name: string): Option<Val> {
    if name == "_id" then Some(v.id)
    else if name == "project" then Some(v.project)
    else if name == "issue_title" then Some(v.issueTitle)
    else if name == "issue_text" then Some(v.issueText)
    else if name == "created_by" then Some(v.createdBy)
    else if name == "assigned_to" then Some(v.assignedTo)
    else if name == "status_text" then Some(v.statusText)
    else if name == "open" then Some(v.open)
    else if name in v.extras then Some(v.extras[name])
    else None
  }

  /** The view's non-timestamp fields as a map from field name to value. */
  function ViewFields(v: IssueView): (d: map<string, Val>)
    ensures forall name :: name in d <==> ViewField(v, name).Some?
    ensures forall name :: name in d ==> d[name] == ViewField(v, name).value
  {
    map name | name in v.extras.Keys + KnownFields && ViewField(v, name).Some? :: ViewField(v, name).value
  }

  /** The object GET builds from a document, timestamps aside:
      `{_id: data.id, ...data}` with `id` deleted. */
  function SpreadView(i: Issue): map<string, Val> {
    (map["_id" := Document(i)["id"]] + Document(i)) - {"id", "created_on", "updated_on"}
  }

  lemma ViewFieldOfToView(i: Issue, name: string)
    requires ToView(i).Some?
    ensures ViewField(ToView(i).value, name).Some? <==> name in SpreadView(i)
    ensures name in SpreadView(i) ==> ViewField(ToView(i).value, name).value == SpreadView(i)[name]
  {
    assert "id" in Document(i);
  }

  /** A document's view is the spread `{_id: data.id, ...data}` without `id`,
      with each timestamp normalised: every other field is copied, a stored
      `_id` wins over `id`, and nothing else is added or dropped. */
  lemma ViewIsSpread(i: Issue)
    requires ToView(i).Some?
    ensures ViewFields(ToView(i).value) == SpreadView(i)
    ensures Some(ToView(i).value.createdOn) == Normalize(i.createdOn)
    ensures Some(ToView(i).value.updatedOn) == Normalize(i.updatedOn)
  {
    var lhs := ViewFields(ToView(i).value);
    var rhs := SpreadView(i);
    forall name
      ensures (name in lhs <==> name in rhs) && (name in lhs ==> lhs[name] == rhs[name])
    {
      ViewFieldOfToView(i, name);
    }
  }

  /** The body of a successful POST response. */
  datatype CreatedIssue = CreatedIssue(
    id: Val,
    issueTitle: Val,
    issueText: Val,
    createdBy: Val,
    assignedTo: Val,
    statusText: Val,
    createdOn: Ts,
    updatedOn: Ts,
    open: Val)

  /** Every response is sent with status 200; failure shows only as an `error` key. */
  datatype Response =
    | Listed(issues: seq<IssueView>)            // GET: the array of issues
    | Created(issue: CreatedIssue)              // POST: the new issue
    | Confirmed(result: string, id: Json)       // { result, _id }
    | Rejected(error: string, shownId: Option<Json>) // { error } or { error, _id }
    | Caught                                    // { error: <the caught exception> }

  /** Whether the store call a handler makes throws a generic failure. */
  datatype Health = Healthy | Failing

  /** A handler's effect: the store afterwards and the response sent. */
  datatype Reply = Reply(store: Store, response: Response)

  const RequiredFieldsMissing := "required field(s) missing"
  const MissingId := "missing _id"
  const NoUpdateFields := "no update field(s) sent"
  const CouldNotUpdate := "could not update"
  const IssueNotFound := "Issue not found"
  const SuccessfullyUpdated := "successfully updated"
  const CouldNotDelete := "could not delete"
  const SuccessfullyDeleted := "successfully deleted"

  /** `isValidFirebaseId(_id)`: the library's format check is a parameter
      `validId`; a value that is not a string never passes it. */
  predicate ValidIdValue(v: Val, validId: string -> bool) {
    v.Str? && validId(v.s)
  }
}
