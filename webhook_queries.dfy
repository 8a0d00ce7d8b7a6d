/** The webhook hooks (src/hooks/use-webhook-queries.ts): the webhookKeys
    factory, the list and detail queries, and the create, update, delete and
    toggle mutations. */
module WebhookQueries {
  import opened Common
  import opened QueryClient

  function AllKey(): QueryKey { [Seg("webhooks")] }
  function ListsKey(): QueryKey { AllKey() + [Seg("list")] }
  /** detail(id) is built directly under all(), not under a details() key. */
  function DetailKey(id: string): QueryKey { AllKey() + [Seg("detail"), Seg(id)] }

  /** detail(id) is ["webhooks", "detail", id]: it shares only ["webhooks"]
      with lists(), so lists() covers no detail key and no detail key covers
      lists(). */
  lemma KeysHierarchy(id: string)
    ensures DetailKey(id) == [Seg("webhooks"), Seg("detail"), Seg(id)]
    ensures IsPrefix(AllKey(), ListsKey()) && IsPrefix(AllKey(), DetailKey(id))
    ensures !IsPrefix(ListsKey(), DetailKey(id)) && !IsPrefix(DetailKey(id), ListsKey())
  {
    assert DetailKey(id)[1] == Seg("detail");
  }

  function WebhooksQuery(): Query {
    Query(ListsKey(), Request(Get, "/api/webhooks", None), true, None)
  }

  /** useWebhook: keyed by detail(id), disabled for an empty id. */
  function WebhookQuery(id: string): (q: Query)
    ensures q.enabled <==> id != ""
    ensures q.key == DetailKey(id) && q.request == Request(Get, "/api/webhooks/" + id, None)
  {
    Query(DetailKey(id), Request(Get, "/api/webhooks/" + id, None), id != "", None)
  }

  function CreateWebhook(data: Record): Mutation {
    Mutation(Request(Post, "/api/webhooks", Some(data)), [ListsKey()])
  }

  function UpdateWebhook(id: string, data: Record): Mutation {
    Mutation(Request(Patch, "/api/webhooks/" + id, Some(data)), [ListsKey()])
  }

  function DeleteWebhook(id: string): Mutation {
    Mutation(Request(Delete, "/api/webhooks/" + id, None), [ListsKey()])
  }

  /** The toggle body is the object { active }, with no other property. */
  function ToggleWebhook(id: string, active: bool): Mutation {
    Mutation(Request(Patch, "/api/webhooks/" + id, Some(map["active" := JBool(active)])), [ListsKey()])
  }

  /** All four mutations refresh exactly the webhook list, never a detail. */
  lemma MutationsInvalidateOnlyLists(id: string, data: Record, active: bool, m: Mutation, k: QueryKey, other: string)
    requires m in {CreateWebhook(data), UpdateWebhook(id, data), DeleteWebhook(id), ToggleWebhook(id, active)}
    ensures Touches(m.invalidates, k) <==> IsPrefix(ListsKey(), k)
    ensures !Touches(m.invalidates, DetailKey(other))
  {
    KeysHierarchy(other);
  }

  /** Toggling sends a PATCH to /api/webhooks/{id} whose body holds only `active`. */
  lemma ToggleBody(id: string, active: bool)
    ensures var r := ToggleWebhook(id, active).request;
      r.verb == Patch && r.path == "/api/webhooks/" + id && r.body.Some?
      && r.body.value.Keys == {"active"} && r.body.value["active"] == JBool(active)
  {
  }
}
