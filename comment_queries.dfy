/** The comment hooks (src/hooks/use-comment-queries.ts): the commentKeys
    factory, the per-task comment query, and the create and delete mutations. */
module CommentQueries {
  import opened Common
  import opened QueryClient

  function AllKey(): QueryKey { [Seg("comments")] }
  function ListKey(taskId: string): QueryKey { AllKey() + [Seg("list"), Seg(taskId)] }

  /** list(taskId) is ["comments", "list", taskId]: different tasks get
      different keys, and neither covers the other. */
  lemma ListKeyDistinct(a: string, b: string)
    ensures ListKey(a) == [Seg("comments"), Seg("list"), Seg(a)]
    ensures IsPrefix(ListKey(a), ListKey(b)) <==> a == b
  {
    if IsPrefix(ListKey(a), ListKey(b)) {
      assert ListKey(b)[..3] == ListKey(b);
      assert ListKey(a)[2] == ListKey(b)[2];
    }
  }

  function CommentsPath(taskId: string): string {
    "/api/tasks/" + taskId + "/comments"
  }

  /** useComments: keyed by list(taskId), disabled for an empty task id. */
  function CommentsQuery(taskId: string): (q: Query)
    ensures q.enabled <==> taskId != ""
    ensures q.key == ListKey(taskId) && q.request == Request(Get, CommentsPath(taskId), None)
  {
    Query(ListKey(taskId), Request(Get, CommentsPath(taskId), None), taskId != "", None)
  }

  function CreateComment(taskId: string, body: string): Mutation {
    Mutation(Request(Post, CommentsPath(taskId), Some(map["body" := JString(body)])), [ListKey(taskId)])
  }

  /** The delete request addresses the comment; the refresh addresses the task. */
  function DeleteComment(taskId: string, commentId: string): Mutation {
    Mutation(Request(Delete, "/api/comments/" + commentId, None), [ListKey(taskId)])
  }

  /** Creating a comment refreshes exactly the keys under that task's
      comment list: no other task's list, and nothing outside comments. */
  lemma CreateCommentInvalidates(taskId: string, body: string, other: string, k: QueryKey)
    ensures Touches(CreateComment(taskId, body).invalidates, k) <==> IsPrefix(ListKey(taskId), k)
    ensures Touches(CreateComment(taskId, body).invalidates, ListKey(other)) <==> other == taskId
  {
    ListKeyDistinct(taskId, other);
  }

  /** Deleting a comment targets /api/comments/{commentId} but refreshes the
      owning task's list key, whatever the comment id. */
  lemma DeleteCommentInvalidates(taskId: string, commentId: string, other: string, k: QueryKey)
    ensures DeleteComment(taskId, commentId).request.path == "/api/comments/" + commentId
    ensures Touches(DeleteComment(taskId, commentId).invalidates, k) <==> IsPrefix(ListKey(taskId), k)
    ensures Touches(DeleteComment(taskId, commentId).invalidates, ListKey(other)) <==> other == taskId
    ensures DeleteComment(taskId, commentId).invalidates == CreateComment(taskId, "").invalidates
  {
    ListKeyDistinct(taskId, other);
  }
}
