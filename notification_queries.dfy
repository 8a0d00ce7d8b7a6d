/** The notification hooks (src/hooks/use-notification-queries.ts): the
    notificationKeys factory, the list query and its query string, the
    polled unread count, the preferences query, and the mark-read,
    mark-all-read and preferences mutations. */
module NotificationQueries {
  import opened Common
  import opened QueryClient

  // ---------------------------------------------------------------------
  // notificationKeys

  function AllKey(): QueryKey { [Seg("notifications")] }
  function ListsKey(): QueryKey { AllKey() + [Seg("list")] }
  function ListKey(params: KeyPart): QueryKey { ListsKey() + [params] }
  function UnreadCountKey(): QueryKey { AllKey() + [Seg("unread-count")] }
  function PreferencesKey(): QueryKey { AllKey() + [Seg("preferences")] }

  /** lists() is a prefix of every list(params); the unread count and the
      preferences are not under lists(), and neither covers the other. */
  lemma KeysHierarchy(params: KeyPart)
    ensures IsPrefix(ListsKey(), ListKey(params)) && ListsKey() != ListKey(params)
    ensures !IsPrefix(ListsKey(), UnreadCountKey()) && !IsPrefix(ListsKey(), PreferencesKey())
    ensures !IsPrefix(UnreadCountKey(), PreferencesKey()) && !IsPrefix(PreferencesKey(), UnreadCountKey())
    ensures !IsPrefix(UnreadCountKey(), ListKey(params)) && !IsPrefix(PreferencesKey(), ListKey(params))
  {
    assert UnreadCountKey()[1] == Seg("unread-count");
    assert PreferencesKey()[1] == Seg("preferences");
    assert ListKey(params)[1] == Seg("list");
  }

  // ---------------------------------------------------------------------
  // useNotifications

  datatype ListParams = ListParams(page: Option<int>, limit: Option<int>, unreadOnly: Option<bool>)

  function ListRecord(p: ListParams): Record {
    var r := WithNumber(map[], "page", p.page);
    var r := WithNumber(r, "limit", p.limit);
    if p.unreadOnly.Some? then r["unreadOnly" := JBool(p.unreadOnly.value)] else r
  }

  /** The key part of list(params): undefined when the hook is called without parameters. */
  function ListKeyPart(params: Option<ListParams>): KeyPart {
    if params.Some? then Params(ListRecord(params.value)) else Undefined
  }

  /** The parameters read back from their record. */
  function ListParamsOf(r: Record): ListParams {
    ListParams(NumberField(r, "page"), NumberField(r, "limit"), BoolField(r, "unreadOnly"))
  }

  /** The key part keeps every parameter: reading the record back gives the
      parameters, and a call without parameters has the undefined part. */
  lemma ListRecordRoundTrip(params: Option<ListParams>)
    ensures params.Some? ==> ListKeyPart(params).Params? && ListParamsOf(ListKeyPart(params).record) == params.value
    ensures params.None? <==> ListKeyPart(params) == Undefined
  {
    if params.Some? {
      var p := params.value;
      var r := ListRecord(p);
      assert NumberField(r, "page") == p.page;
      assert NumberField(r, "limit") == p.limit;
      assert BoolField(r, "unreadOnly") == p.unreadOnly;
    }
  }

  lemma ListKeyInjective(a: Option<ListParams>, b: Option<ListParams>)
    ensures ListKey(ListKeyPart(a)) == ListKey(ListKeyPart(b)) ==> a == b
  {
    if ListKey(ListKeyPart(a)) == ListKey(ListKeyPart(b)) {
      assert ListKeyPart(a) == ListKey(ListKeyPart(a))[2] == ListKey(ListKeyPart(b))[2] == ListKeyPart(b);
      ListRecordRoundTrip(a);
      ListRecordRoundTrip(b);
    }
  }

  /** `params?.x` is undefined when params is. */
  function Given(params: Option<ListParams>): ListParams {
    params.GetOr(ListParams(None, None, None))
  }

  function ListCandidates(params: Option<ListParams>): (cs: seq<Candidate>)
    ensures CandidateNames(cs) == ["page", "limit", "unreadOnly"]
  {
    var p := Given(params);
    [ NumberCandidate("page", p.page),
      NumberCandidate("limit", p.limit),
      Candidate(p.unreadOnly == Some(true), "unreadOnly", "true") ]
  }

  function ListPairs(params: Option<ListParams>): seq<Pair> {
    Select(ListCandidates(params))
  }

  method BuildListQuery(params: Option<ListParams>) returns (qs: string)
    ensures qs == Serialize(ListPairs(params))
  {
    var cs := ListCandidates(params);
    ListOrderDistinct();
    var sp := new SearchParams();
    SetListParams(sp, cs);
    qs := sp.ToString();
  }

  lemma ListOrderDistinct()
    ensures NoDuplicates(["page", "limit", "unreadOnly"])
  {
  }

  /** The three guarded sets of useNotifications, one after another, on a
      fresh URLSearchParams. */
  method SetListParams(sp: SearchParams, cs: seq<Candidate>)
    requires |cs| == 3 && NoDuplicates(CandidateNames(cs)) && sp.entries == []
    modifies sp
    ensures sp.entries == Select(cs)
  {
    sp.SetCandidate(cs, 0);  // page, when non-zero
    sp.SetCandidate(cs, 1);  // limit, when non-zero
    sp.SetCandidate(cs, 2);  // unreadOnly=true, when unreadOnly is true
    assert cs[..3] == cs;
  }

  /** page and limit are sent only when truthy, unreadOnly only as "true"
      and only when it is true, in the order page, limit, unreadOnly. */
  lemma ListQueryShape(params: Option<ListParams>)
    ensures var p := Given(params);
      && Lookup(ListPairs(params), "page") == (if TruthyNumber(p.page) then Some(IntToString(p.page.value)) else None)
      && Lookup(ListPairs(params), "limit") == (if TruthyNumber(p.limit) then Some(IntToString(p.limit.value)) else None)
      && Lookup(ListPairs(params), "unreadOnly") == (if p.unreadOnly == Some(true) then Some("true") else None)
    ensures IsSubsequence(Names(ListPairs(params)), ["page", "limit", "unreadOnly"])
    ensures var p := Given(params);
      ListPairs(params) == [] <==> !TruthyNumber(p.page) && !TruthyNumber(p.limit) && p.unreadOnly != Some(true)
  {
    var cs := ListCandidates(params);
    SelectLookup(cs, 0);
    SelectLookup(cs, 1);
    SelectLookup(cs, 2);
    SelectOrder(cs);
    if Select(cs) == [] {
      assert !cs[0].present && !cs[1].present && !cs[2].present;
    }
  }

  /** useNotifications: keyed by list(params); "?qs" only for a non-empty query string. */
  function NotificationsQuery(params: Option<ListParams>): (q: Query)
    ensures q.key == ListKey(ListKeyPart(params)) && q.enabled && q.refetchIntervalMs == None
    ensures var qs := Serialize(ListPairs(params));
      q.request == Request(Get, if qs == "" then "/api/notifications" else "/api/notifications?" + qs, None)
  {
    Query(ListKey(ListKeyPart(params)),
      Request(Get, WithQuery("/api/notifications", Serialize(ListPairs(params))), None), true, None)
  }

  /** Two notification-list queries share a cache entry only when they were
      given the same parameters, and so send the same request. */
  lemma NotificationsQueryKeyDistinguishes(a: Option<ListParams>, b: Option<ListParams>)
    ensures NotificationsQuery(a).key == NotificationsQuery(b).key ==> a == b && NotificationsQuery(a) == NotificationsQuery(b)
  {
    ListKeyInjective(a, b);
  }

  // ---------------------------------------------------------------------
  // Unread count and preferences

  /** The unread-count poll interval: 30 seconds. */
  const UnreadPollMs: nat := 30 * 1000

  function UnreadCountQuery(): (q: Query)
    ensures q.refetchIntervalMs == Some(30000) && q.key == UnreadCountKey()
  {
    Query(UnreadCountKey(), Request(Get, "/api/notifications/unread-count", None), true, Some(UnreadPollMs))
  }

  function PreferencesQuery(): Query {
    Query(PreferencesKey(), Request(Get, "/api/preferences", None), true, None)
  }

  // ---------------------------------------------------------------------
  // Mutations

  function MarkRead(id: string): Mutation {
    Mutation(Request(Patch, "/api/notifications/" + id + "/read", None), [ListsKey(), UnreadCountKey()])
  }

  function MarkAllRead(): Mutation {
    Mutation(Request(Post, "/api/notifications/read-all", None), [ListsKey(), UnreadCountKey()])
  }

  function UpdatePreferences(data: Record): Mutation {
    Mutation(Request(Put, "/api/preferences", Some(data)), [PreferencesKey()])
  }

  /** Marking one notification read targets /api/notifications/{id}/read
      and refreshes every list and the unread count, never the preferences. */
  lemma MarkReadInvalidates(id: string, k: QueryKey, params: KeyPart)
    ensures MarkRead(id).request.path == "/api/notifications/" + id + "/read"
    ensures Touches(MarkRead(id).invalidates, k) <==> IsPrefix(ListsKey(), k) || IsPrefix(UnreadCountKey(), k)
    ensures Touches(MarkRead(id).invalidates, ListKey(params)) && Touches(MarkRead(id).invalidates, UnreadCountKey())
    ensures !Touches(MarkRead(id).invalidates, PreferencesKey())
  {
    KeysHierarchy(params);
    assert IsPrefix(UnreadCountKey(), UnreadCountKey());
  }

  /** Marking all read targets /api/notifications/read-all and refreshes the
      same keys as marking one. */
  lemma MarkAllReadInvalidates(k: QueryKey, params: KeyPart)
    ensures MarkAllRead().request == Request(Post, "/api/notifications/read-all", None)
    ensures Touches(MarkAllRead().invalidates, k) <==> IsPrefix(ListsKey(), k) || IsPrefix(UnreadCountKey(), k)
    ensures Touches(MarkAllRead().invalidates, ListKey(params)) && Touches(MarkAllRead().invalidates, UnreadCountKey())
    ensures !Touches(MarkAllRead().invalidates, PreferencesKey())
  {
    KeysHierarchy(params);
    assert IsPrefix(UnreadCountKey(), UnreadCountKey());
  }

  /** Updating the preferences refreshes only the preferences. */
  lemma UpdatePreferencesInvalidates(data: Record, k: QueryKey, params: KeyPart)
    ensures Touches(UpdatePreferences(data).invalidates, k) <==> IsPrefix(PreferencesKey(), k)
    ensures !Touches(UpdatePreferences(data).invalidates, ListKey(params))
    ensures !Touches(UpdatePreferences(data).invalidates, UnreadCountKey())
  {
    KeysHierarchy(params);
  }
}
