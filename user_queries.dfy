/** The user hooks (src/hooks/use-user-queries.ts): the userKeys factory,
    the current-user, user and user-list queries, and the update mutation. */
module UserQueries {
  import opened Common
  import opened QueryClient

  function AllKey(): QueryKey { [Seg("users")] }
  function ListsKey(): QueryKey { AllKey() + [Seg("list")] }
  function DetailKey(id: string): QueryKey { AllKey() + [Seg("detail"), Seg(id)] }
  function MeKey(): QueryKey { AllKey() + [Seg("me")] }

  /** me() is ["users", "me"]; it neither covers nor is covered by lists()
      or any detail(id). */
  lemma MeKeyUnrelated(id: string)
    ensures MeKey() == [Seg("users"), Seg("me")]
    ensures !IsPrefix(MeKey(), ListsKey()) && !IsPrefix(ListsKey(), MeKey())
    ensures !IsPrefix(MeKey(), DetailKey(id)) && !IsPrefix(DetailKey(id), MeKey())
  {
    assert DetailKey(id)[1] == Seg("detail");
    assert ListsKey()[1] == Seg("list") && MeKey()[1] == Seg("me");
    assert ListsKey()[..2] == ListsKey() && MeKey()[..2] == MeKey();
  }

  function CurrentUserQuery(): Query {
    Query(MeKey(), Request(Get, "/api/auth/me", None), true, None)
  }

  /** useUser: keyed by detail(id), disabled for an empty id. */
  function UserQuery(id: string): (q: Query)
    ensures q.enabled <==> id != ""
    ensures q.key == DetailKey(id) && q.request == Request(Get, "/api/users/" + id, None)
  {
    Query(DetailKey(id), Request(Get, "/api/users/" + id, None), id != "", None)
  }

  function UsersQuery(): Query {
    Query(ListsKey(), Request(Get, "/api/users", None), true, None)
  }

  /** The update payload: only a name and an avatar URL, each optional. */
  datatype UpdateUserData = UpdateUserData(name: Option<string>, avatarUrl: Option<string>)

  function UpdateUserBody(data: UpdateUserData): (r: Record)
    ensures r.Keys <= {"name", "avatarUrl"}
    ensures ("name" in r <==> data.name.Some?) && ("avatarUrl" in r <==> data.avatarUrl.Some?)
    ensures data.name.Some? ==> r["name"] == JString(data.name.value)
    ensures data.avatarUrl.Some? ==> r["avatarUrl"] == JString(data.avatarUrl.value)
  {
    WithString(WithString(map[], "name", data.name), "avatarUrl", data.avatarUrl)
  }

  function UpdateUser(id: string, data: UpdateUserData): Mutation {
    Mutation(Request(Patch, "/api/users/" + id, Some(UpdateUserBody(data))), [DetailKey(id), MeKey()])
  }

  /** Updating user id refreshes that user's detail and the current user,
      but not the user list. */
  lemma UpdateUserInvalidates(id: string, data: UpdateUserData, k: QueryKey)
    ensures UpdateUser(id, data).request.path == "/api/users/" + id
    ensures Touches(UpdateUser(id, data).invalidates, k) <==> IsPrefix(DetailKey(id), k) || IsPrefix(MeKey(), k)
    ensures Touches(UpdateUser(id, data).invalidates, DetailKey(id)) && Touches(UpdateUser(id, data).invalidates, MeKey())
    ensures !Touches(UpdateUser(id, data).invalidates, ListsKey())
  {
    MeKeyUnrelated(id);
    assert IsPrefix(MeKey(), MeKey()) && IsPrefix(DetailKey(id), DetailKey(id));
    assert !IsPrefix(DetailKey(id), ListsKey());
  }
}
