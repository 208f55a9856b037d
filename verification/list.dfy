/** GET /api/issues/:project — the store's equality query on `project`, the
    post-processing of every document, then the chain of exact-match filters
    the query string selects. */
module ListIssues {
  import opened Js
  import opened Issues

  /** The documents `where('project', '==', project)` returns, in the order
      `order` in which the store enumerates its document keys. */
  function Scan(store: Store, order: seq<string>, project: string): (r: seq<Issue>)
    ensures |r| <= |order|
    ensures forall i :: i in r ==> i.project == Str(project)
    ensures forall k :: k in order && k in store && store[k].project == Str(project) ==> store[k] in r
    ensures forall i :: i in r ==> i in store.Values
  {
    if order == [] then []
    else
      var k := order[0];
      (if k in store && store[k].project == Str(project) then [store[k]] else [])
        + Scan(store, order[1..], project)
  }

  /** `order` lists every document key of the store, each exactly once, as
      `getDocs` does. */
  predicate Enumerates(store: Store, order: seq<string>) {
    && (forall i, j :: 0 <= i < j < |order| ==> order[i] != order[j])
    && (forall k :: k in order ==> k in store)
    && (forall k :: k in store ==> k in order)
  }

  /** The keys of the project's documents. */
  function ProjectKeys(store: Store, project: string): set<string> {
    set k | k in store && store[k].project == Str(project)
  }

  /** The project's keys among those `order` lists. */
  function ListedProjectKeys(store: Store, order: seq<string>, project: string): set<string> {
    set k | k in order && k in store && store[k].project == Str(project)
  }

  /** In a duplicate-free key order, the first key does not recur. */
  lemma HeadNotInRest(order: seq<string>)
    requires order != []
    requires forall i, j :: 0 <= i < j < |order| ==> order[i] != order[j]
    ensures order[0] !in order[1..]
  {
    forall j | 0 <= j < |order[1..]| ensures order[1..][j] != order[0] {
      assert order[1..][j] == order[j + 1];
    }
  }

  lemma ListedProjectKeysStep(store: Store, order: seq<string>, project: string)
    requires order != [] && order[0] !in order[1..]
    ensures var k := order[0];
            var tail := ListedProjectKeys(store, order[1..], project);
            if k in store && store[k].project == Str(project)
            then ListedProjectKeys(store, order, project) == {k} + tail && k !in tail
            else ListedProjectKeys(store, order, project) == tail
  {
    assert forall k :: k in order <==> k == order[0] || k in order[1..];
  }

  lemma {:induction false} ScanCounts(store: Store, order: seq<string>, project: string)
    requires forall i, j :: 0 <= i < j < |order| ==> order[i] != order[j]
    ensures |Scan(store, order, project)| == |ListedProjectKeys(store, order, project)|
  {
    if order != [] {
      HeadNotInRest(order);
      ScanCounts(store, order[1..], project);
      ListedProjectKeysStep(store, order, project);
    }
  }

  /** The project's keys among those `order` lists that hold the document `x`. */
  function ListedHolders(store: Store, order: seq<string>, project: string, x: Issue): set<string> {
    set k | k in order && k in store && store[k].project == Str(project) && store[k] == x
  }

  /** The keys of the project that hold the document `x`. */
  function Holders(store: Store, project: string, x: Issue): set<string> {
    set k | k in ProjectKeys(store, project) && store[k] == x
  }

  /** The first listed key, taken apart from the rest. */
  lemma ListedHoldersStep(store: Store, order: seq<string>, project: string, x: Issue)
    requires order != [] && order[0] !in order[1..]
    ensures var k := order[0];
            var tail := ListedHolders(store, order[1..], project, x);
            if k in store && store[k].project == Str(project) && store[k] == x
            then ListedHolders(store, order, project, x) == {k} + tail && k !in tail
            else ListedHolders(store, order, project, x) == tail
  {
    assert forall k :: k in order <==> k == order[0] || k in order[1..];
  }

  lemma {:induction false} ScanMultiplicity(store: Store, order: seq<string>, project: string, x: Issue)
    requires forall i, j :: 0 <= i < j < |order| ==> order[i] != order[j]
    ensures multiset(Scan(store, order, project))[x] == |ListedHolders(store, order, project, x)|
  {
    if order != [] {
      var rest := order[1..];
      HeadNotInRest(order);
      ScanMultiplicity(store, rest, project, x);
      ListedHoldersStep(store, order, project, x);
      var k := order[0];
      var head := if k in store && store[k].project == Str(project) then [store[k]] else [];
      assert multiset(Scan(store, order, project)) == multiset(head) + multiset(Scan(store, rest, project));
    }
  }

  /** When `order` enumerates the store, the scan returns each document of
      the project once per key that holds it, and nothing else. */
  lemma ScanIsProjectDocuments(store: Store, order: seq<string>, project: string)
    requires Enumerates(store, order)
    ensures forall x :: multiset(Scan(store, order, project))[x] == |Holders(store, project, x)|
    ensures |Scan(store, order, project)| == |ProjectKeys(store, project)|
    ensures forall k :: k in ProjectKeys(store, project) ==> store[k] in Scan(store, order, project)
    ensures forall i :: i in Scan(store, order, project) ==> i.project == Str(project) && i in store.Values
  {
    ScanCounts(store, order, project);
    assert ListedProjectKeys(store, order, project) == ProjectKeys(store, project);
    forall x ensures multiset(Scan(store, order, project))[x] == |Holders(store, project, x)| {
      ScanMultiplicity(store, order, project, x);
      assert ListedHolders(store, order, project, x) == Holders(store, project, x);
    }
  }

  /** `getIssuesByProject` after the scan: every document turned into its
      view, or `None` when some document's timestamp makes `.toDate()` throw. */
  function Views(issues: seq<Issue>): (r: Option<seq<IssueView>>)
    ensures r.Some? <==> forall i :: 0 <= i < |issues| ==> ToView(issues[i]).Some?
    ensures r.Some? ==> |r.value| == |issues|
    ensures r.Some? ==> forall i :: 0 <= i < |issues| ==> ToView(issues[i]) == Some(r.value[i])
  {
    if issues == [] then Some([])
    else
      match (ToView(issues[0]), Views(issues[1..]))
      case (Some(v), Some(vs)) => Some([v] + vs)
      case _ => None
  }

  /** The fields a query string may filter on. */
  datatype QueryField =
    | OpenField | TitleField | TextField | CreatorField | AssigneeField
    | StatusField | CreatedOnField | UpdatedOnField | IdField

  /** One `issues.filter((issue) => issue.<field> === value)` step. */
  datatype Filter = Filter(field: QueryField, value: Val)

  /** A view's timestamp as a JavaScript value: a `Date` is an object. */
  function TsValue(t: Ts): Val {
    match t
    case Text(s) => Str(s)
    case Native(ms) => Time(ms)
  }

  function Read(v: IssueView, f: QueryField): Val {
    match f
    case OpenField => v.open
    case TitleField => v.issueTitle
    case TextField => v.issueText
    case CreatorField => v.createdBy
    case AssigneeField => v.assignedTo
    case StatusField => v.statusText
    case CreatedOnField => TsValue(v.createdOn)
    case UpdatedOnField => TsValue(v.updatedOn)
    case IdField => v.id
  }

  predicate Holds(f: Filter, v: IssueView) {
    StrictEquals(Read(v, f.field), f.value)
  }

  /** The query's `open` value after the handler's coercion: `'true'` and
      `'false'` become booleans, any other string stays a string. */
  function CoerceOpen(s: string): Val {
    if s == "true" then Bool(true) else if s == "false" then Bool(false) else Str(s)
  }

  /** The filters the handler applies, in the order it applies them. An
      empty `open` value applies no filter; every other recognised key is
      applied whatever its value; keys not listed here are ignored. */
  function QueryFilters(q: Query): seq<Filter> {
    OpenFilter(q)
    + KeyFilter(q, "issue_title", TitleField)
    + KeyFilter(q, "issue_text", TextField)
    + KeyFilter(q, "created_by", CreatorField)
    + KeyFilter(q, "assigned_to", AssigneeField)
    + KeyFilter(q, "status_text", StatusField)
    + KeyFilter(q, "created_on", CreatedOnField)
    + KeyFilter(q, "updated_on", UpdatedOnField)
    + KeyFilter(q, "_id", IdField)
  }

  function OpenFilter(q: Query): seq<Filter> {
    if "open" in q && q["open"] != "" then [Filter(OpenField, CoerceOpen(q["open"]))] else []
  }

  /** `if (req.query.hasOwnProperty(key)) issues = issues.filter(...)`. */
  function KeyFilter(q: Query, key: string, field: QueryField): seq<Filter> {
    if key in q then [Filter(field, Str(q[key]))] else []
  }

  /** `Array.prototype.filter` with one filter. */
  function Select(vs: seq<IssueView>, f: Filter): seq<IssueView> {
    if vs == [] then []
    else (if Holds(f, vs[0]) then [vs[0]] else []) + Select(vs[1..], f)
  }

  /** The filters applied one after another, each to the previous result. */
  function ApplyFilters(vs: seq<IssueView>, fs: seq<Filter>): seq<IssueView>
    decreases |fs|
  {
    if fs == [] then vs else ApplyFilters(Select(vs, fs[0]), fs[1..])
  }

  /** The query key that shadows `Object.prototype.hasOwnProperty`. The
      query parser keeps it as an own property of `req.query`, so the first
      `req.query.hasOwnProperty(...)` call finds a string, not a method, and
      throws a TypeError. */
  const ShadowingKey := "hasOwnProperty"

  /** The GET handler. A store failure, a timestamp that `.toDate()` cannot
      convert and a query that shadows `hasOwnProperty` all end in the catch
      block; otherwise the response is the subsequence of the project's
      issues that match the query. */
  function GetIssues(store: Store, order: seq<string>, project: string, q: Query, health: Health): (r: Response)
    ensures health == Failing ==> r == Caught
    ensures Views(Scan(store, order, project)).None? ==> r == Caught
    ensures ShadowingKey in q ==> r == Caught
    ensures health == Healthy && Views(Scan(store, order, project)).Some? && ShadowingKey !in q ==>
      r == Listed(MatchingViews(Views(Scan(store, order, project)).value, q))
  {
    match health
    case Failing => Caught
    case Healthy =>
      match Views(Scan(store, order, project))
      case None => Caught
      case Some(vs) =>
        if ShadowingKey in q then Caught
        else
          ChainIsConjunction(vs, QueryFilters(q));
          KeepAllIsMatching(vs, q);
          Listed(ApplyFilters(vs, QueryFilters(q)))
  }

  // ---------------------------------------------------------------------
  // Reference definition: one conjunction over the query, stated directly
  // on the view's fields.

  const RecognisedKeys: set<string> :=
    {"open", "issue_title", "issue_text", "created_by", "assigned_to",
     "status_text", "created_on", "updated_on", "_id"}

  /** `open` as the handler compares it: a coerced boolean, or the raw string. */
  predicate OpenMatches(open: Val, s: string) {
    if s == "true" then open == Bool(true)
    else if s == "false" then open == Bool(false)
    else open == Str(s)
  }

  /** A view passes a query exactly when it agrees with every recognised key
      the query carries; timestamps can only agree when stored as strings. */
  predicate MatchesQuery(v: IssueView, q: Query) {
    && ("open" in q && q["open"] != "" ==> OpenMatches(v.open, q["open"]))
    && ("issue_title" in q ==> v.issueTitle == Str(q["issue_title"]))
    && ("issue_text" in q ==> v.issueText == Str(q["issue_text"]))
    && ("created_by" in q ==> v.createdBy == Str(q["created_by"]))
    && ("assigned_to" in q ==> v.assignedTo == Str(q["assigned_to"]))
    && ("status_text" in q ==> v.statusText == Str(q["status_text"]))
    && ("created_on" in q ==> v.createdOn == Text(q["created_on"]))
    && ("updated_on" in q ==> v.updatedOn == Text(q["updated_on"]))
    && ("_id" in q ==> v.id == Str(q["_id"]))
  }

  /** The order-preserving subsequence of `vs` that passes `q`. */
  function MatchingViews(vs: seq<IssueView>, q: Query): seq<IssueView> {
    if vs == [] then []
    else (if MatchesQuery(vs[0], q) then [vs[0]] else []) + MatchingViews(vs[1..], q)
  }

  /** A view passes every filter in `fs`. */
  predicate HoldsAll(fs: seq<Filter>, v: IssueView) {
    forall f :: f in fs ==> Holds(f, v)
  }

  /** The subsequence of `vs` passing every filter in `fs` at once. */
  function KeepAll(vs: seq<IssueView>, fs: seq<Filter>): seq<IssueView> {
    if vs == [] then []
    else (if HoldsAll(fs, vs[0]) then [vs[0]] else []) + KeepAll(vs[1..], fs)
  }

  // ---------------------------------------------------------------------
  // Lemmas

  lemma {:induction false} KeepNothing(vs: seq<IssueView>)
    ensures KeepAll(vs, []) == vs
  {
    if vs != [] {
      KeepNothing(vs[1..]);
      assert [vs[0]] + vs[1..] == vs;
    }
  }

  lemma {:induction false} SelectThenKeep(vs: seq<IssueView>, f: Filter, fs: seq<Filter>)
    ensures KeepAll(Select(vs, f), fs) == KeepAll(vs, [f] + fs)
  {
    if vs != [] {
      SelectThenKeep(vs[1..], f, fs);
      var rest := Select(vs[1..], f);
      assert HoldsAll([f] + fs, vs[0]) <==> Holds(f, vs[0]) && HoldsAll(fs, vs[0]);
      if Holds(f, vs[0]) {
        assert Select(vs, f) == [vs[0]] + rest;
        assert ([vs[0]] + rest)[1..] == rest;
      } else {
        assert Select(vs, f) == rest;
      }
    }
  }

  /** Applying the filters one after another keeps exactly the views that
      pass all of them at once. */
  lemma {:induction false} ChainIsConjunction(vs: seq<IssueView>, fs: seq<Filter>)
    ensures ApplyFilters(vs, fs) == KeepAll(vs, fs)
    decreases |fs|
  {
    if fs == [] {
      KeepNothing(vs);
    } else {
      ChainIsConjunction(Select(vs, fs[0]), fs[1..]);
      SelectThenKeep(vs, fs[0], fs[1..]);
      assert [fs[0]] + fs[1..] == fs;
    }
  }

  lemma {:induction false} KeepAllDependsOnFilterSet(vs: seq<IssueView>, fs: seq<Filter>, gs: seq<Filter>)
    requires forall f :: f in fs <==> f in gs
    ensures KeepAll(vs, fs) == KeepAll(vs, gs)
  {
    if vs != [] {
      KeepAllDependsOnFilterSet(vs[1..], fs, gs);
      assert HoldsAll(fs, vs[0]) <==> HoldsAll(gs, vs[0]);
    }
  }

  /** Applying the same filters in any order gives the same result. */
  lemma FiltersCommute(vs: seq<IssueView>, fs: seq<Filter>, gs: seq<Filter>)
    requires multiset(fs) == multiset(gs)
    ensures ApplyFilters(vs, fs) == ApplyFilters(vs, gs)
  {
    forall f ensures f in fs <==> f in gs {
      assert f in fs <==> f in multiset(fs);
      assert f in gs <==> f in multiset(gs);
    }
    ChainIsConjunction(vs, fs);
    ChainIsConjunction(vs, gs);
    KeepAllDependsOnFilterSet(vs, fs, gs);
  }

  lemma HoldsAllAppend(a: seq<Filter>, b: seq<Filter>, v: IssueView)
    ensures HoldsAll(a + b, v) <==> HoldsAll(a, v) && HoldsAll(b, v)
  {
    assert forall f :: f in a + b <==> f in a || f in b;
  }

  /** Passing the handler's filters means matching the query. */
  lemma FiltersMeanMatch(q: Query, v: IssueView)
    ensures HoldsAll(QueryFilters(q), v) <==> MatchesQuery(v, q)
  {
    FirstFiltersMean(q, v);
    LastFiltersMean(q, FirstFilters(q), v);
    assert QueryFilters(q) == FirstFilters(q)
      + KeyFilter(q, "status_text", StatusField)
      + KeyFilter(q, "created_on", CreatedOnField)
      + KeyFilter(q, "updated_on", UpdatedOnField)
      + KeyFilter(q, "_id", IdField);
  }

  /** The last four filters of the chain, appended to any prefix `fs`. */
  lemma LastFiltersMean(q: Query, fs: seq<Filter>, v: IssueView)
    ensures HoldsAll(fs
                     + KeyFilter(q, "status_text", StatusField)
                     + KeyFilter(q, "created_on", CreatedOnField)
                     + KeyFilter(q, "updated_on", UpdatedOnField)
                     + KeyFilter(q, "_id", IdField), v) <==>
      && HoldsAll(fs, v)
      && ("status_text" in q ==> v.statusText == Str(q["status_text"]))
      && ("created_on" in q ==> v.createdOn == Text(q["created_on"]))
      && ("updated_on" in q ==> v.updatedOn == Text(q["updated_on"]))
      && ("_id" in q ==> v.id == Str(q["_id"]))
  {
    var f6 := fs + KeyFilter(q, "status_text", StatusField);
    var f7 := f6 + KeyFilter(q, "created_on", CreatedOnField);
    var f8 := f7 + KeyFilter(q, "updated_on", UpdatedOnField);
    StepMeans(q, fs, "status_text", StatusField, v);
    StepMeans(q, f6, "created_on", CreatedOnField, v);
    StepMeans(q, f7, "updated_on", UpdatedOnField, v);
    StepMeans(q, f8, "_id", IdField, v);
  }

  function FirstFilters(q: Query): seq<Filter> {
    OpenFilter(q)
    + KeyFilter(q, "issue_title", TitleField)
    + KeyFilter(q, "issue_text", TextField)
    + KeyFilter(q, "created_by", CreatorField)
    + KeyFilter(q, "assigned_to", AssigneeField)
  }

  lemma FirstFiltersMean(q: Query, v: IssueView)
    ensures HoldsAll(FirstFilters(q), v) <==>
      && ("open" in q && q["open"] != "" ==> OpenMatches(v.open, q["open"]))
      && ("issue_title" in q ==> v.issueTitle == Str(q["issue_title"]))
      && ("issue_text" in q ==> v.issueText == Str(q["issue_text"]))
      && ("created_by" in q ==> v.createdBy == Str(q["created_by"]))
      && ("assigned_to" in q ==> v.assignedTo == Str(q["assigned_to"]))
  {
    var f1 := OpenFilter(q);
    var f2 := f1 + KeyFilter(q, "issue_title", TitleField);
    var f3 := f2 + KeyFilter(q, "issue_text", TextField);
    var f4 := f3 + KeyFilter(q, "created_by", CreatorField);
    OpenFilterMeans(q, v);
    StepMeans(q, f1, "issue_title", TitleField, v);
    StepMeans(q, f2, "issue_text", TextField, v);
    StepMeans(q, f3, "created_by", CreatorField, v);
    StepMeans(q, f4, "assigned_to", AssigneeField, v);
  }

  lemma OpenFilterMeans(q: Query, v: IssueView)
    ensures HoldsAll(OpenFilter(q), v) <==> ("open" in q && q["open"] != "" ==> OpenMatches(v.open, q["open"]))
  {
    if "open" in q && q["open"] != "" {
      var f := Filter(OpenField, CoerceOpen(q["open"]));
      assert OpenFilter(q) == [f];
      assert HoldsAll([f], v) <==> Holds(f, v);
    }
  }

  lemma StepMeans(q: Query, fs: seq<Filter>, key: string, field: QueryField, v: IssueView)
    ensures HoldsAll(fs + KeyFilter(q, key, field), v)
        <==> HoldsAll(fs, v) && (key in q ==> Read(v, field) == Str(q[key]))
  {
    HoldsAllAppend(fs, KeyFilter(q, key, field), v);
    KeyFilterMeans(q, key, field, v);
  }

  lemma KeyFilterMeans(q: Query, key: string, field: QueryField, v: IssueView)
    ensures HoldsAll(KeyFilter(q, key, field), v) <==> (key in q ==> Read(v, field) == Str(q[key]))
  {
    if key in q {
      assert Filter(field, Str(q[key])) in KeyFilter(q, key, field);
    }
  }

  lemma {:induction false} KeepAllIsMatching(vs: seq<IssueView>, q: Query)
    ensures KeepAll(vs, QueryFilters(q)) == MatchingViews(vs, q)
  {
    if vs != [] {
      KeepAllIsMatching(vs[1..], q);
      FiltersMeanMatch(q, vs[0]);
    }
  }

  /** A view is in the result exactly when it is among the inputs and matches. */
  lemma {:induction false} MatchingViewsMembers(vs: seq<IssueView>, q: Query)
    ensures forall v :: v in MatchingViews(vs, q) <==> v in vs && MatchesQuery(v, q)
  {
    if vs != [] {
      MatchingViewsMembers(vs[1..], q);
      assert vs == [vs[0]] + vs[1..];
    }
  }

  /** Filtering distributes over concatenation, so the relative order of the
      kept views is the order of the input. */
  lemma {:induction false} MatchingViewsKeepsOrder(a: seq<IssueView>, b: seq<IssueView>, q: Query)
    ensures MatchingViews(a + b, q) == MatchingViews(a, q) + MatchingViews(b, q)
  {
    if a != [] {
      MatchingViewsKeepsOrder(a[1..], b, q);
      assert (a + b)[1..] == a[1..] + b;
    } else {
      assert a + b == b;
    }
  }

  /** Query keys the handler does not recognise change nothing, apart from
      the one that shadows `hasOwnProperty`. */
  lemma UnrecognisedKeysIgnored(store: Store, order: seq<string>, project: string,
                                q: Query, key: string, value: string, health: Health)
    requires key !in RecognisedKeys && key != ShadowingKey
    ensures GetIssues(store, order, project, q[key := value], health)
         == GetIssues(store, order, project, q, health)
  {
    assert QueryFilters(q[key := value]) == QueryFilters(q);
  }

  /** `open=` with an empty value filters nothing; `open=true` and
      `open=false` keep exactly the issues whose `open` is that boolean. */
  lemma OpenFilterCoercion(vs: seq<IssueView>, s: string)
    ensures s == "" ==> MatchingViews(vs, map["open" := s]) == vs
    ensures s == "true" ==> forall v :: v in MatchingViews(vs, map["open" := s]) <==> v in vs && v.open == Bool(true)
    ensures s == "false" ==> forall v :: v in MatchingViews(vs, map["open" := s]) <==> v in vs && v.open == Bool(false)
  {
    MatchingViewsMembers(vs, map["open" := s]);
    if s == "" {
      MatchAllOfEmptyOpen(vs);
    }
  }

  lemma {:induction false} MatchAllOfEmptyOpen(vs: seq<IssueView>)
    ensures MatchingViews(vs, map["open" := ""]) == vs
  {
    if vs != [] {
      MatchAllOfEmptyOpen(vs[1..]);
      assert vs == [vs[0]] + vs[1..];
    }
  }

  /** Any other `open` value is compared as a string against a stored
      boolean, so over issues whose `open` is a boolean it matches nothing. */
  lemma {:induction false} OtherOpenValuesMatchNothing(vs: seq<IssueView>, q: Query)
    requires "open" in q && q["open"] !in {"", "true", "false"}
    requires forall v :: v in vs ==> v.open.Bool?
    ensures MatchingViews(vs, q) == []
  {
    if vs != [] {
      OtherOpenValuesMatchNothing(vs[1..], q);
    }
  }

  /** A `created_on` or `updated_on` filter keeps only issues whose timestamp
      was stored as a string: a native timestamp becomes a `Date`, which is
      never `===` a query string. */
  lemma TimestampFiltersMatchOnlyStrings(store: Store, order: seq<string>, project: string, q: Query)
    requires Views(Scan(store, order, project)).Some?
    requires "created_on" in q || "updated_on" in q
    requires ShadowingKey !in q
    ensures GetIssues(store, order, project, q, Healthy).Listed?
    ensures forall v :: v in GetIssues(store, order, project, q, Healthy).issues ==>
              ("created_on" in q ==> v.createdOn.Text?) && ("updated_on" in q ==> v.updatedOn.Text?)
  {
    MatchingViewsMembers(Views(Scan(store, order, project)).value, q);
  }

  /** An open issue in project `p`, with native timestamps and the given
      creator and assignee. */
  function SampleView(createdBy: string, assignedTo: string): IssueView {
    IssueView(Str("id-" + createdBy + "-" + assignedTo), Str("p"), Str("To be Filtered"),
              Str("Filter Issues Test"), Str(createdBy), Str(assignedTo), Str(""),
              Bool(true), Native(0), Native(0), map[])
  }

  /** The filter scenario of the functional tests: creators Alice, Alice,
      Alice, Carol with assignees Bob, Bob, Eric, Eric. Filtering by
      `created_by=Alice` keeps three, adding `assigned_to=Bob` keeps two. */
  lemma FilterScenario()
    ensures var vs := [SampleView("Alice", "Bob"), SampleView("Alice", "Bob"),
                       SampleView("Alice", "Eric"), SampleView("Carol", "Eric")];
            && |MatchingViews(vs, map["created_by" := "Alice"])| == 3
            && |MatchingViews(vs, map["created_by" := "Alice", "assigned_to" := "Bob"])| == 2
  {
    var vs := [SampleView("Alice", "Bob"), SampleView("Alice", "Bob"),
               SampleView("Alice", "Eric"), SampleView("Carol", "Eric")];
    var q1 := map["created_by" := "Alice"];
    var q2 := map["created_by" := "Alice", "assigned_to" := "Bob"];
    assert vs[1..][1..][1..][1..] == [];
    assert MatchingViews(vs[3..], q1) == [];
    assert MatchingViews(vs[3..], q2) == [];
    assert !MatchesQuery(vs[2], q2);
  }
}
