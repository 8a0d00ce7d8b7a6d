/** The task hooks (src/hooks/use-task-queries.ts): the taskKeys factory,
    the task-list and global-stats queries with their query strings, and the
    create/update/delete mutations with the key prefixes they invalidate. */
module TaskQueries {
  import opened Common
  import opened Types
  import opened QueryClient

  // ---------------------------------------------------------------------
  // taskKeys

  function AllKey(): QueryKey { [Seg("tasks")] }
  function ListsKey(): QueryKey { AllKey() + [Seg("list")] }
  /** list(params): the parameter object, or undefined when called without one. */
  function ListKey(params: KeyPart): QueryKey { ListsKey() + [params] }
  function DetailsKey(): QueryKey { AllKey() + [Seg("detail")] }
  function DetailKey(id: string): QueryKey { DetailsKey() + [Seg(id)] }
  function StatsKey(): QueryKey { AllKey() + [Seg("stats")] }

  /** lists() is a proper prefix of every list(params), and neither lists()
      nor any list(..) is a prefix of a detail key or of the stats key. */
  lemma ListKeysHierarchy(params: KeyPart, id: string)
    ensures IsPrefix(ListsKey(), ListKey(params)) && ListsKey() != ListKey(params)
    ensures !IsPrefix(ListsKey(), DetailKey(id)) && !IsPrefix(ListsKey(), StatsKey())
    ensures !IsPrefix(ListKey(params), DetailKey(id)) && !IsPrefix(ListKey(params), StatsKey())
  {
    assert DetailKey(id)[1] == Seg("detail");
    assert StatsKey()[1] == Seg("stats");
  }

  /** detail(id) is details() followed by the id, so distinct ids give distinct keys. */
  lemma DetailKeyInjective(a: string, b: string)
    ensures IsPrefix(DetailsKey(), DetailKey(a)) && |DetailKey(a)| == |DetailsKey()| + 1
    ensures DetailKey(a) == DetailKey(b) <==> a == b
  {
    if DetailKey(a) == DetailKey(b) {
      assert DetailKey(a)[2] == DetailKey(b)[2];
    }
  }

  // ---------------------------------------------------------------------
  // useTasks

  datatype SortOrder = Asc | Desc {
    function Name(): string {
      match this
      case Asc => "asc"
      case Desc => "desc"
    }
  }

  /** TaskListParams; an optional property is None when undefined. */
  datatype TaskListParams = TaskListParams(
    projectId: string,
    page: Option<int>,
    pageSize: Option<int>,
    status: Option<TaskStatus>,
    priority: Option<TaskPriority>,
    assigneeId: Option<string>,
    search: Option<string>,
    sortBy: Option<string>,
    sortOrder: Option<SortOrder>)

  /** The parameter object as it sits in the query key, property by property. */
  function TaskListProperties(p: TaskListParams): seq<Property> {
    [ Property("projectId", Some(JString(p.projectId))),
      Property("page", if p.page.Some? then Some(JNumber(p.page.value)) else None),
      Property("pageSize", if p.pageSize.Some? then Some(JNumber(p.pageSize.value)) else None),
      Property("status", if p.status.Some? then Some(JString(p.status.value.Name())) else None),
      Property("priority", if p.priority.Some? then Some(JString(p.priority.value.Name())) else None),
      Property("assigneeId", if p.assigneeId.Some? then Some(JString(p.assigneeId.value)) else None),
      Property("search", if p.search.Some? then Some(JString(p.search.value)) else None),
      Property("sortBy", if p.sortBy.Some? then Some(JString(p.sortBy.value)) else None),
      Property("sortOrder", if p.sortOrder.Some? then Some(JString(p.sortOrder.value.Name())) else None) ]
  }

  function TaskListRecord(p: TaskListParams): Record {
    RecordOf(TaskListProperties(p))
  }

  /** The property names of the key's parameter object, in order. */
  function TaskListPropertyOrder(): seq<string> {
    ["projectId", "page", "pageSize", "status", "priority", "assigneeId", "search", "sortBy", "sortOrder"]
  }

  lemma TaskListPropertyOrderDistinct()
    ensures NoDuplicates(TaskListPropertyOrder())
  {
  }

  lemma TaskListPropertiesDistinct(p: TaskListParams)
    ensures NoDuplicates(PropertyNames(TaskListProperties(p)))
  {
    PropertyNamesAre(TaskListProperties(p), TaskListPropertyOrder());
    TaskListPropertyOrderDistinct();
  }

  function ParseSortOrder(s: string): Option<SortOrder> {
    if s == "asc" then Some(Asc) else if s == "desc" then Some(Desc) else None
  }

  /** The named string field of a parameter object, read back through a parser. */
  function StatusField(r: Record): Option<TaskStatus> {
    var o := StringField(r, "status");
    if o.Some? then ParseStatus(o.value) else None
  }

  function PriorityField(r: Record): Option<TaskPriority> {
    var o := StringField(r, "priority");
    if o.Some? then ParsePriority(o.value) else None
  }

  function SortOrderField(r: Record): Option<SortOrder> {
    var o := StringField(r, "sortOrder");
    if o.Some? then ParseSortOrder(o.value) else None
  }

  /** The parameters read back from their record. */
  function TaskListParamsOf(r: Record): TaskListParams {
    TaskListParams(
      StringField(r, "projectId").GetOr(""),
      NumberField(r, "page"),
      NumberField(r, "pageSize"),
      StatusField(r),
      PriorityField(r),
      StringField(r, "assigneeId"),
      StringField(r, "search"),
      StringField(r, "sortBy"),
      SortOrderField(r))
  }

  /** The key's parameter object keeps every parameter: reading it back
      gives the parameters. */
  lemma TaskListRecordRoundTrip(p: TaskListParams)
    ensures TaskListParamsOf(TaskListRecord(p)) == p
  {
    TaskListNumbersRoundTrip(p);
    TaskListEnumsRoundTrip(p);
    TaskListStringsRoundTrip(p);
  }

  lemma TaskListNumbersRoundTrip(p: TaskListParams)
    ensures var r := TaskListRecord(p);
      StringField(r, "projectId") == Some(p.projectId)
      && NumberField(r, "page") == p.page && NumberField(r, "pageSize") == p.pageSize
  {
    var ps := TaskListProperties(p);
    TaskListPropertiesDistinct(p);
    RecordOfLookup(ps, 0);
    RecordOfLookup(ps, 1);
    RecordOfLookup(ps, 2);
  }

  lemma TaskListEnumsRoundTrip(p: TaskListParams)
    ensures var r := TaskListRecord(p);
      StatusField(r) == p.status && PriorityField(r) == p.priority && SortOrderField(r) == p.sortOrder
  {
    var ps := TaskListProperties(p);
    TaskListPropertiesDistinct(p);
    RecordOfLookup(ps, 3);
    RecordOfLookup(ps, 4);
    RecordOfLookup(ps, 8);
    if p.status.Some? {
      StatusNameRoundTrip(p.status.value);
    }
    if p.priority.Some? {
      PriorityNameRoundTrip(p.priority.value);
    }
  }

  lemma TaskListStringsRoundTrip(p: TaskListParams)
    ensures var r := TaskListRecord(p);
      StringField(r, "assigneeId") == p.assigneeId && StringField(r, "search") == p.search
      && StringField(r, "sortBy") == p.sortBy
  {
    var ps := TaskListProperties(p);
    TaskListPropertiesDistinct(p);
    RecordOfLookup(ps, 5);
    RecordOfLookup(ps, 6);
    RecordOfLookup(ps, 7);
  }

  /** The order in which useTasks sets its parameters. */
  function TaskListOrder(): seq<string> {
    ["page", "pageSize", "status", "priority", "assigneeId", "search", "sortBy", "sortOrder"]
  }

  /** The eight guarded sets of useTasks, in source order. Every status,
      priority and sort order has a non-empty name, so those are set
      whenever they are defined. */
  function TaskListCandidates(p: TaskListParams): (cs: seq<Candidate>)
    ensures CandidateNames(cs) == TaskListOrder()
  {
    var cs := [ NumberCandidate("page", p.page),
      NumberCandidate("pageSize", p.pageSize),
      Candidate(p.status.Some?, "status", if p.status.Some? then p.status.value.Name() else ""),
      Candidate(p.priority.Some?, "priority", if p.priority.Some? then p.priority.value.Name() else ""),
      StringCandidate("assigneeId", p.assigneeId),
      StringCandidate("search", p.search),
      StringCandidate("sortBy", p.sortBy),
      Candidate(p.sortOrder.Some?, "sortOrder", if p.sortOrder.Some? then p.sortOrder.value.Name() else "") ];
    CandidateNamesAre(cs, TaskListOrder());
    cs
  }

  function TaskListPairs(p: TaskListParams): seq<Pair> {
    Select(TaskListCandidates(p))
  }

  lemma TaskListOrderDistinct()
    ensures NoDuplicates(TaskListOrder())
  {
  }

  /** The query function's URLSearchParams, filled by the guarded sets in order. */
  method BuildTaskListQuery(p: TaskListParams) returns (qs: string)
    ensures qs == Serialize(TaskListPairs(p))
  {
    var cs := TaskListCandidates(p);
    TaskListOrderDistinct();
    var sp := new SearchParams();
    SetTaskListParams(sp, cs);
    qs := sp.ToString();
  }

  /** The eight guarded sets of useTasks, one after another, on a fresh
      URLSearchParams. */
  method SetTaskListParams(sp: SearchParams, cs: seq<Candidate>)
    requires |cs| == 8 && NoDuplicates(CandidateNames(cs)) && sp.entries == []
    modifies sp
    ensures sp.entries == Select(cs)
  {
    sp.SetCandidate(cs, 0);  // page, when non-zero
    sp.SetCandidate(cs, 1);  // pageSize, when non-zero
    sp.SetCandidate(cs, 2);  // status, when defined
    sp.SetCandidate(cs, 3);  // priority, when defined
    sp.SetCandidate(cs, 4);  // assigneeId, when non-empty
    sp.SetCandidate(cs, 5);  // search, when non-empty
    sp.SetCandidate(cs, 6);  // sortBy, when non-empty
    sp.SetCandidate(cs, 7);  // sortOrder, when defined
    assert cs[..8] == cs;
  }

  /** Each parameter is in the query string exactly when it is truthy, with
      its value: page 0, pageSize 0 and empty strings are left out. */
  lemma TaskListLookup(p: TaskListParams)
    ensures Lookup(TaskListPairs(p), "page") == if TruthyNumber(p.page) then Some(IntToString(p.page.value)) else None
    ensures Lookup(TaskListPairs(p), "pageSize") == if TruthyNumber(p.pageSize) then Some(IntToString(p.pageSize.value)) else None
    ensures Lookup(TaskListPairs(p), "status") == if p.status.Some? then Some(p.status.value.Name()) else None
    ensures Lookup(TaskListPairs(p), "priority") == if p.priority.Some? then Some(p.priority.value.Name()) else None
    ensures Lookup(TaskListPairs(p), "assigneeId") == if TruthyString(p.assigneeId) then Some(p.assigneeId.value) else None
    ensures Lookup(TaskListPairs(p), "search") == if TruthyString(p.search) then Some(p.search.value) else None
    ensures Lookup(TaskListPairs(p), "sortBy") == if TruthyString(p.sortBy) then Some(p.sortBy.value) else None
    ensures Lookup(TaskListPairs(p), "sortOrder") == if p.sortOrder.Some? then Some(p.sortOrder.value.Name()) else None
  {
    var cs := TaskListCandidates(p);
    TaskListOrderDistinct();
    SelectLookup(cs, 0);
    SelectLookup(cs, 1);
    SelectLookup(cs, 2);
    SelectLookup(cs, 3);
    SelectLookup(cs, 4);
    SelectLookup(cs, 5);
    SelectLookup(cs, 6);
    SelectLookup(cs, 7);
  }

  /** The parameters appear in the fixed order page, pageSize, status,
      priority, assigneeId, search, sortBy, sortOrder, and the query string
      is empty exactly when no parameter is truthy. */
  lemma TaskListShape(p: TaskListParams)
    ensures IsSubsequence(Names(TaskListPairs(p)), TaskListOrder())
    ensures Serialize(TaskListPairs(p)) == "" <==>
      !TruthyNumber(p.page) && !TruthyNumber(p.pageSize) && p.status.None? && p.priority.None?
      && !TruthyString(p.assigneeId) && !TruthyString(p.search) && !TruthyString(p.sortBy) && p.sortOrder.None?
  {
    var cs := TaskListCandidates(p);
    SelectOrder(cs);
    NoneOfEight(cs);
  }

  /** Eight guards all fail exactly when each of them does. */
  lemma NoneOfEight(cs: seq<Candidate>)
    requires |cs| == 8
    ensures (forall k :: 0 <= k < |cs| ==> !cs[k].present) <==>
      !cs[0].present && !cs[1].present && !cs[2].present && !cs[3].present
      && !cs[4].present && !cs[5].present && !cs[6].present && !cs[7].present
  {
  }

  function TasksPath(projectId: string): string {
    "/api/projects/" + projectId + "/tasks"
  }

  /** useTasks: keyed by list(params), disabled without a project id. */
  function TasksQuery(p: TaskListParams): (q: Query)
    ensures q.enabled <==> p.projectId != ""
    ensures q.key == ListKey(Params(TaskListRecord(p)))
    ensures q.request.verb == Get && q.request.body == None
  {
    Query(ListKey(Params(TaskListRecord(p))),
      Request(Get, WithQuery(TasksPath(p.projectId), Serialize(TaskListPairs(p))), None),
      p.projectId != "", None)
  }

  /** The request path is /api/projects/{projectId}/tasks, with "?qs"
      appended only when some parameter is truthy. */
  lemma TasksQueryPath(p: TaskListParams)
    ensures var qs := Serialize(TaskListPairs(p));
      TasksQuery(p).request.path == if qs == "" then TasksPath(p.projectId) else TasksPath(p.projectId) + "?" + qs
  {
  }

  /** Two task-list queries share a cache entry only when they were given
      the same parameters, and so send the same request. */
  lemma TasksQueryKeyDistinguishes(a: TaskListParams, b: TaskListParams)
    ensures TasksQuery(a).key == TasksQuery(b).key ==> a == b && TasksQuery(a) == TasksQuery(b)
  {
    TaskListKeyInjective(a, b);
  }

  lemma TaskListKeyInjective(a: TaskListParams, b: TaskListParams)
    ensures ListKey(Params(TaskListRecord(a))) == ListKey(Params(TaskListRecord(b))) ==> a == b
  {
    if ListKey(Params(TaskListRecord(a))) == ListKey(Params(TaskListRecord(b))) {
      assert TaskListRecord(a) == ListKey(Params(TaskListRecord(a)))[2].record == TaskListRecord(b);
      TaskListRecordRoundTrip(a);
      TaskListRecordRoundTrip(b);
    }
  }

  /** useTask: keyed by detail(id), disabled for an empty id. */
  function TaskQuery(id: string): (q: Query)
    ensures q.enabled <==> id != ""
    ensures q.key == DetailKey(id) && q.request == Request(Get, "/api/tasks/" + id, None)
  {
    Query(DetailKey(id), Request(Get, "/api/tasks/" + id, None), id != "", None)
  }

  // ---------------------------------------------------------------------
  // Mutations

  function CreateTask(projectId: string, data: Record): Mutation {
    Mutation(Request(Post, TasksPath(projectId), Some(data)), [ListsKey()])
  }

  function UpdateTask(id: string, data: Record): Mutation {
    Mutation(Request(Patch, "/api/tasks/" + id, Some(data)), [DetailKey(id), ListsKey()])
  }

  function DeleteTask(id: string): Mutation {
    Mutation(Request(Delete, "/api/tasks/" + id, None), [ListsKey()])
  }

  /** Creating a task refreshes exactly the task lists: no detail key and not the stats key. */
  lemma CreateTaskInvalidates(projectId: string, data: Record, k: QueryKey, id: string)
    ensures Touches(CreateTask(projectId, data).invalidates, k) <==> IsPrefix(ListsKey(), k)
    ensures !Touches(CreateTask(projectId, data).invalidates, DetailKey(id))
    ensures !Touches(CreateTask(projectId, data).invalidates, StatsKey())
  {
    ListKeysHierarchy(Undefined, id);
  }

  /** Updating task id refreshes that task's detail and every task list, no
      other task's detail and not the stats key. */
  lemma UpdateTaskInvalidates(id: string, data: Record, k: QueryKey, other: string)
    ensures Touches(UpdateTask(id, data).invalidates, k) <==> IsPrefix(DetailKey(id), k) || IsPrefix(ListsKey(), k)
    ensures Touches(UpdateTask(id, data).invalidates, DetailKey(other)) <==> other == id
    ensures !Touches(UpdateTask(id, data).invalidates, StatsKey())
  {
    ListKeysHierarchy(Undefined, other);
    DetailKeyInjective(id, other);
    if IsPrefix(DetailKey(id), DetailKey(other)) {
      assert DetailKey(other)[..3] == DetailKey(other);
    }
    assert StatsKey()[1] != DetailKey(id)[1];
  }

  /** Deleting a task refreshes exactly the task lists, like creating one. */
  lemma DeleteTaskInvalidates(id: string, k: QueryKey, other: string)
    ensures Touches(DeleteTask(id).invalidates, k) <==> IsPrefix(ListsKey(), k)
    ensures !Touches(DeleteTask(id).invalidates, DetailKey(other))
    ensures !Touches(DeleteTask(id).invalidates, StatsKey())
  {
    ListKeysHierarchy(Undefined, other);
  }

  // ---------------------------------------------------------------------
  // useGlobalTaskStats

  /** pageSize=1 always, then assigneeId when it is truthy. */
  function StatsCandidates(assigneeId: Option<string>): (cs: seq<Candidate>)
    ensures CandidateNames(cs) == ["pageSize", "assigneeId"]
  {
    [Candidate(true, "pageSize", "1"), StringCandidate("assigneeId", assigneeId)]
  }

  function StatsPairs(assigneeId: Option<string>): seq<Pair> {
    Select(StatsCandidates(assigneeId))
  }

  method BuildStatsQuery(assigneeId: Option<string>) returns (qs: string)
    ensures qs == Serialize(StatsPairs(assigneeId))
  {
    var cs := StatsCandidates(assigneeId);
    assert NoDuplicates(["pageSize", "assigneeId"]);
    var sp := new SearchParams();
    SetStatsParams(sp, cs);
    qs := sp.ToString();
  }

  /** The two guarded sets of the stats query, one after another, on a
      fresh URLSearchParams. */
  method SetStatsParams(sp: SearchParams, cs: seq<Candidate>)
    requires |cs| == 2 && NoDuplicates(CandidateNames(cs)) && sp.entries == []
    modifies sp
    ensures sp.entries == Select(cs)
  {
    sp.SetCandidate(cs, 0);  // pageSize=1, always
    sp.SetCandidate(cs, 1);  // assigneeId, when non-empty
    assert cs[..2] == cs;
  }

  /** The stats request always asks for one item per page, and names an
      assignee only when one is given. */
  lemma StatsPairsShape(assigneeId: Option<string>)
    ensures StatsPairs(assigneeId) ==
      [("pageSize", "1")] + (if TruthyString(assigneeId) then [("assigneeId", assigneeId.value)] else [])
    ensures Lookup(StatsPairs(assigneeId), "pageSize") == Some("1")
    ensures Lookup(StatsPairs(assigneeId), "assigneeId") ==
      if TruthyString(assigneeId) then Some(assigneeId.value) else None
  {
    SelectLookup(StatsCandidates(assigneeId), 0);
    SelectLookup(StatsCandidates(assigneeId), 1);
  }

  function StatsRequest(assigneeId: Option<string>): Request {
    Request(Get, "/api/tasks?" + Serialize(StatsPairs(assigneeId)), None)
  }

  /** The outcome of the stats request: the paginated response's total, or a throw. */
  datatype StatsResponse = Total(total: int) | Threw

  /** The query function never fails: a thrown request yields total 0. */
  function StatsTotal(response: StatsResponse): (total: int)
    ensures response.Total? ==> total == response.total
    ensures response.Threw? ==> total == 0
  {
    match response
    case Total(t) => t
    case Threw => 0
  }

  /** useGlobalTaskStats as written: the key is stats() whatever the assignee. */
  function StatsQueryAsWritten(assigneeId: Option<string>): (q: Query)
    ensures q.key == StatsKey() && q.enabled
  {
    Query(StatsKey(), StatsRequest(assigneeId), true, None)
  }

  /** The dashboard asks for the total count and for the current user's
      count through the same key, although the two requests differ: the
      cache holds one entry for both. */
  lemma StatsKeyCollision(userId: string)
    requires userId != ""
    ensures StatsQueryAsWritten(None).key == StatsQueryAsWritten(Some(userId)).key
    ensures StatsQueryAsWritten(None).request != StatsQueryAsWritten(Some(userId)).request
  {
    StatsPairsShape(None);
    StatsPairsShape(Some(userId));
    var a := Serialize(StatsPairs(None));
    var b := Serialize(StatsPairs(Some(userId)));
    assert |a| == |"pageSize=1"|;
    assert |b| > |"pageSize=1"|;
  }

  /** The parameter object of the stats key. */
  function StatsRecord(assigneeId: Option<string>): Record {
    WithString(map[], "assigneeId", assigneeId)
  }

  /** useGlobalTaskStats with the parameters in its key, as stats() is
      evidently meant to be: the key stays under stats(), and two calls share
      a key only when they issue the same request. */
  function StatsQuery(assigneeId: Option<string>): (q: Query)
    ensures IsPrefix(StatsKey(), q.key) && q.enabled
  {
    Query(StatsKey() + [Params(StatsRecord(assigneeId))], StatsRequest(assigneeId), true, None)
  }

  lemma StatsQueryKeyDistinguishes(a: Option<string>, b: Option<string>)
    ensures StatsQuery(a).key == StatsQuery(b).key ==> StatsQuery(a).request == StatsQuery(b).request
  {
    if StatsQuery(a).key == StatsQuery(b).key {
      assert StatsQuery(a).key[2] == StatsQuery(b).key[2];
      assert StatsRecord(a) == StatsRecord(b);
      assert ("assigneeId" in StatsRecord(a)) == a.Some?;
      assert ("assigneeId" in StatsRecord(b)) == b.Some?;
      if a.Some? && b.Some? {
        assert StatsRecord(a)["assigneeId"] == JString(a.value);
        assert StatsRecord(b)["assigneeId"] == JString(b.value);
      }
    }
  }
}
