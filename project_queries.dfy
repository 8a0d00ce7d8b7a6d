/** The project hooks (src/hooks/use-project-queries.ts): the projectKeys
    factory, the project list query and its query string, the detail query,
    and the create/update/delete mutations. */
module ProjectQueries {
  import opened Common
  import opened QueryClient

  // ---------------------------------------------------------------------
  // projectKeys

  function AllKey(): QueryKey { [Seg("projects")] }
  function ListsKey(): QueryKey { AllKey() + [Seg("list")] }
  function ListKey(params: KeyPart): QueryKey { ListsKey() + [params] }
  function DetailsKey(): QueryKey { AllKey() + [Seg("detail")] }
  function DetailKey(id: string): QueryKey { DetailsKey() + [Seg(id)] }

  /** all / lists / list(params) and all / details / detail(id) are two
      chains under ["projects"]; the list side never covers a detail key,
      and distinct ids give distinct detail keys. */
  lemma KeysHierarchy(params: KeyPart, id: string, other: string)
    ensures IsPrefix(AllKey(), ListsKey()) && IsPrefix(ListsKey(), ListKey(params))
    ensures IsPrefix(AllKey(), DetailsKey()) && IsPrefix(DetailsKey(), DetailKey(id))
    ensures !IsPrefix(ListsKey(), DetailKey(id)) && !IsPrefix(ListKey(params), DetailKey(id))
    ensures !IsPrefix(DetailsKey(), ListKey(params))
    ensures IsPrefix(DetailKey(id), DetailKey(other)) <==> id == other
  {
    assert DetailKey(id)[1] == Seg("detail");
    assert ListKey(params)[1] == Seg("list");
    if IsPrefix(DetailKey(id), DetailKey(other)) {
      assert DetailKey(other)[..3] == DetailKey(other);
      assert DetailKey(id)[2] == DetailKey(other)[2];
    }
  }

  // ---------------------------------------------------------------------
  // useProjects

  datatype ListParams = ListParams(page: Option<int>, pageSize: Option<int>, search: Option<string>)

  function ListRecord(p: ListParams): Record {
    var r := WithNumber(map[], "page", p.page);
    var r := WithNumber(r, "pageSize", p.pageSize);
    WithString(r, "search", p.search)
  }

  function ListKeyPart(params: Option<ListParams>): KeyPart {
    if params.Some? then Params(ListRecord(params.value)) else Undefined
  }

  /** The parameters read back from their record. */
  function ListParamsOf(r: Record): ListParams {
    ListParams(NumberField(r, "page"), NumberField(r, "pageSize"), StringField(r, "search"))
  }

  /** The key part keeps every parameter: reading the record back gives the
      parameters, so two calls share a key part only with equal parameters. */
  lemma ListRecordRoundTrip(params: Option<ListParams>)
    ensures params.Some? ==> ListKeyPart(params).Params? && ListParamsOf(ListKeyPart(params).record) == params.value
    ensures params.None? <==> ListKeyPart(params) == Undefined
  {
    if params.Some? {
      var p := params.value;
      var r := ListRecord(p);
      assert NumberField(r, "page") == p.page;
      assert NumberField(r, "pageSize") == p.pageSize;
      assert StringField(r, "search") == p.search;
    }
  }

  function Given(params: Option<ListParams>): ListParams {
    params.GetOr(ListParams(None, None, None))
  }

  function ListCandidates(params: Option<ListParams>): (cs: seq<Candidate>)
    ensures CandidateNames(cs) == ["page", "pageSize", "search"]
  {
    var p := Given(params);
    [ NumberCandidate("page", p.page),
      NumberCandidate("pageSize", p.pageSize),
      StringCandidate("search", p.search) ]
  }

  function ListPairs(params: Option<ListParams>): seq<Pair> {
    Select(ListCandidates(params))
  }

  method BuildListQuery(params: Option<ListParams>) returns (qs: string)
    ensures qs == Serialize(ListPairs(params))
  {
    var cs := ListCandidates(params);
    ListOrderDistinct();
    var sp := new SearchParams();
    SetListParams(sp, cs);
    qs := sp.ToString();
  }

  lemma ListOrderDistinct()
    ensures NoDuplicates(["page", "pageSize", "search"])
  {
  }

  /** The three guarded sets of useProjects, one after another, on a fresh
      URLSearchParams. */
  method SetListParams(sp: SearchParams, cs: seq<Candidate>)
    requires |cs| == 3 && NoDuplicates(CandidateNames(cs)) && sp.entries == []
    modifies sp
    ensures sp.entries == Select(cs)
  {
    sp.SetCandidate(cs, 0);  // page, when non-zero
    sp.SetCandidate(cs, 1);  // pageSize, when non-zero
    sp.SetCandidate(cs, 2);  // search, when non-empty
    assert cs[..3] == cs;
  }

  /** page, pageSize and search are sent only when truthy, in that order. */
  lemma ListQueryShape(params: Option<ListParams>)
    ensures var p := Given(params);
      && Lookup(ListPairs(params), "page") == (if TruthyNumber(p.page) then Some(IntToString(p.page.value)) else None)
      && Lookup(ListPairs(params), "pageSize") == (if TruthyNumber(p.pageSize) then Some(IntToString(p.pageSize.value)) else None)
      && Lookup(ListPairs(params), "search") == (if TruthyString(p.search) then Some(p.search.value) else None)
    ensures IsSubsequence(Names(ListPairs(params)), ["page", "pageSize", "search"])
    ensures var p := Given(params);
      ListPairs(params) == [] <==> !TruthyNumber(p.page) && !TruthyNumber(p.pageSize) && !TruthyString(p.search)
  {
    var cs := ListCandidates(params);
    SelectLookup(cs, 0);
    SelectLookup(cs, 1);
    SelectLookup(cs, 2);
    SelectOrder(cs);
    if Select(cs) == [] {
      assert !cs[0].present && !cs[1].present && !cs[2].present;
    }
  }

  /** useProjects: keyed by list(params); "?qs" only for a non-empty query string. */
  function ProjectsQuery(params: Option<ListParams>): (q: Query)
    ensures q.key == ListKey(ListKeyPart(params)) && q.enabled
    ensures var qs := Serialize(ListPairs(params));
      q.request == Request(Get, if qs == "" then "/api/projects" else "/api/projects?" + qs, None)
  {
    Query(ListKey(ListKeyPart(params)),
      Request(Get, WithQuery("/api/projects", Serialize(ListPairs(params))), None), true, None)
  }

  /** Two project-list queries share a cache entry only when they were
      given the same parameters, and so send the same request. */
  lemma ProjectsQueryKeyDistinguishes(a: Option<ListParams>, b: Option<ListParams>)
    ensures ProjectsQuery(a).key == ProjectsQuery(b).key ==> a == b && ProjectsQuery(a) == ProjectsQuery(b)
  {
    ListKeyInjective(a, b);
  }

  lemma ListKeyInjective(a: Option<ListParams>, b: Option<ListParams>)
    ensures ListKey(ListKeyPart(a)) == ListKey(ListKeyPart(b)) ==> a == b
  {
    if ListKey(ListKeyPart(a)) == ListKey(ListKeyPart(b)) {
      assert ListKeyPart(a) == ListKey(ListKeyPart(a))[2] == ListKey(ListKeyPart(b))[2] == ListKeyPart(b);
      ListRecordRoundTrip(a);
      ListRecordRoundTrip(b);
    }
  }

  /** useProject: keyed by detail(id), disabled for an empty id. */
  function ProjectQuery(id: string): (q: Query)
    ensures q.enabled <==> id != ""
    ensures q.key == DetailKey(id) && q.request == Request(Get, "/api/projects/" + id, None)
  {
    Query(DetailKey(id), Request(Get, "/api/projects/" + id, None), id != "", None)
  }

  // ---------------------------------------------------------------------
  // Mutations

  function CreateProject(data: Record): Mutation {
    Mutation(Request(Post, "/api/projects", Some(data)), [ListsKey()])
  }

  function UpdateProject(id: string, data: Record): Mutation {
    Mutation(Request(Patch, "/api/projects/" + id, Some(data)), [DetailKey(id), ListsKey()])
  }

  function DeleteProject(id: string): Mutation {
    Mutation(Request(Delete, "/api/projects/" + id, None), [ListsKey()])
  }

  /** Creating a project refreshes exactly the project lists, never a detail. */
  lemma CreateProjectInvalidates(data: Record, k: QueryKey, id: string)
    ensures Touches(CreateProject(data).invalidates, k) <==> IsPrefix(ListsKey(), k)
    ensures !Touches(CreateProject(data).invalidates, DetailKey(id))
  {
    KeysHierarchy(Undefined, id, id);
  }

  /** Updating project id refreshes its detail and every list, and no other project's detail. */
  lemma UpdateProjectInvalidates(id: string, data: Record, k: QueryKey, other: string)
    ensures Touches(UpdateProject(id, data).invalidates, k) <==> IsPrefix(DetailKey(id), k) || IsPrefix(ListsKey(), k)
    ensures Touches(UpdateProject(id, data).invalidates, DetailKey(other)) <==> other == id
  {
    KeysHierarchy(Undefined, id, other);
  }

  /** Deleting a project refreshes exactly the project lists, never a detail. */
  lemma DeleteProjectInvalidates(id: string, k: QueryKey, other: string)
    ensures Touches(DeleteProject(id).invalidates, k) <==> IsPrefix(ListsKey(), k)
    ensures !Touches(DeleteProject(id).invalidates, DetailKey(other))
  {
    KeysHierarchy(Undefined, other, other);
  }
}
