/** The comment thread of a task (src/features/tasks/task-comments.tsx): the
    comment schema, posting and deleting, the relative timestamps, the
    author label and avatar text, and when delete and post are offered.

    The clock is a parameter (integer milliseconds, as for the notification
    bell); the confirm dialog's answer and each request's outcome are
    arguments of the handlers. */
module TaskComments {
  import opened Common
  import opened Types
  import opened QueryClient
  import opened Forms
  import CommentQueries
  import NotificationBell

  datatype Field = Body

  const BodyEmpty := "Comment cannot be empty"
  const BodyTooLong := "Comment is too long"

  /** commentSchema.safeParse: the body's length checks. */
  function Validate(body: string): seq<Issue<Field>>
  {
    LengthIssues(Body, body, 1, BodyEmpty, 2000, BodyTooLong)
  }

  /** A body passes exactly when it is 1 to 2000 characters; a failing one
      has a single issue, "empty" for the empty body and "too long" otherwise. */
  lemma ValidateFirstIssue(body: string)
    ensures Validate(body) == [] <==> 1 <= |body| <= 2000
    ensures Validate(body) != [] ==>
      |Validate(body)| == 1 && Validate(body)[0].message == if body == "" then BodyEmpty else BodyTooLong
  {
  }

  // ---------------------------------------------------------------------
  // Display rules

  /** What formatTimestamp shows: a relative time, or the calendar date
      (toLocaleDateString, not modelled) from a week on. */
  datatype Stamp = Relative(text: string) | CalendarDate

  /** formatTimestamp: floors of the elapsed milliseconds in minutes, hours
      and days; "just now" under a minute (also for a future time), then
      minutes under an hour, hours under a day and days under a week. */
  function FormatTimestamp(nowMs: int, createdMs: int): Stamp
  {
    var diffMs := nowMs - createdMs;
    var diffMins := diffMs / 60000;
    var diffHours := diffMs / 3600000;
    var diffDays := diffMs / 86400000;
    if diffMins < 1 then Relative("just now")
    else if diffMins < 60 then Relative(IntToString(diffMins) + "m ago")
    else if diffHours < 24 then Relative(IntToString(diffHours) + "h ago")
    else if diffDays < 7 then Relative(IntToString(diffDays) + "d ago")
    else CalendarDate
  }

  /** Under a week a comment's timestamp reads exactly like the bell's
      relative time; from a week on it is a calendar date. */
  lemma TimestampMatchesBell(nowMs: int, createdMs: int)
    ensures nowMs - createdMs < 7 * 86400000 ==>
      FormatTimestamp(nowMs, createdMs) == Relative(NotificationBell.TimeAgo(nowMs, createdMs))
    ensures nowMs - createdMs >= 7 * 86400000 ==> FormatTimestamp(nowMs, createdMs) == CalendarDate
  {
    NotificationBell.TimeAgoBuckets(nowMs, createdMs);
    var e := nowMs - createdMs;
    NotificationBell.DivBelow(e, 60000, 1);
    NotificationBell.DivBelow(e, 60000, 60);
    NotificationBell.DivBelow(e, 3600000, 24);
    NotificationBell.DivBelow(e, 86400000, 7);
  }

  /** `s.slice(0, n)` for n >= 0: the first n characters, or all of s when
      it is shorter. */
  function Slice(s: string, n: nat): (r: string)
    ensures r <= s
    ensures |r| == if |s| < n then |s| else n
  {
    if |s| <= n then s else s[..n]
  }

  /** "You" for the signed-in user's own comments, otherwise "User " and the
      first eight characters of the author id. */
  function AuthorLabel(authorId: string, currentUserId: Option<string>): (r: string)
    ensures r == "You" <==> currentUserId == Some(authorId)
  {
    if currentUserId == Some(authorId) then "You" else "User " + Slice(authorId, 8)
  }

  /** The label of another author is "User " and the first eight characters
      of their id, or the whole id when it is shorter; it never reads "You". */
  lemma AuthorLabelOfOthers(authorId: string, currentUserId: Option<string>)
    requires currentUserId != Some(authorId)
    ensures var r := AuthorLabel(authorId, currentUserId);
      && r[..5] == "User "
      && r[5..] <= authorId && |r[5..]| <= 8
      && (|authorId| < 8 ==> r == "User " + authorId)
      && (|authorId| >= 8 ==> r == "User " + authorId[..8])
  {
    var r := AuthorLabel(authorId, currentUserId);
    assert r[5..] == Slice(authorId, 8);
  }

  /** The avatar text: the author id's first two characters (all of a
      shorter id), upper-cased. */
  function AvatarText(authorId: string): (r: string)
    ensures |r| == if |authorId| < 2 then |authorId| else 2
    ensures forall i :: 0 <= i < |r| ==> r[i] == UpperChar(authorId[i])
  {
    UpperCase(Slice(authorId, 2))
  }

  /** The avatar of another author shows, upper-cased, the first two
      characters of the id their label shows, and has no lower-case letter. */
  lemma AvatarMatchesLabel(authorId: string, currentUserId: Option<string>)
    requires currentUserId != Some(authorId) && |authorId| >= 2
    ensures AvatarText(authorId) == UpperCase(AuthorLabel(authorId, currentUserId)[5..7])
    ensures forall i :: 0 <= i < |AvatarText(authorId)| ==> !('a' <= AvatarText(authorId)[i] <= 'z')
  {
    var shown := AuthorLabel(authorId, currentUserId)[5..7];
    assert shown == authorId[..2] by {
      AuthorLabelOfOthers(authorId, currentUserId);
    }
    assert Slice(authorId, 2) == authorId[..2];
  }

  /** The delete control appears only on the signed-in user's own comments. */
  predicate CanDelete(c: Comment, currentUserId: Option<string>) {
    currentUserId == Some(c.authorId)
  }

  /** Delete is offered exactly on the comments labelled "You". */
  lemma DeleteOnlyOwn(c: Comment, currentUserId: Option<string>)
    ensures CanDelete(c, currentUserId) <==> AuthorLabel(c.authorId, currentUserId) == "You"
    ensures currentUserId.None? ==> !CanDelete(c, currentUserId)
  {
  }

  /** The post button is disabled while a post is pending or when the body
      trims to nothing. */
  predicate PostDisabled(isPending: bool, body: string) {
    isPending || Trim(body) == ""
  }

  /** An enabled post button has a body that passes the "cannot be empty" check. */
  lemma EnabledPostIsNotEmpty(isPending: bool, body: string)
    requires !PostDisabled(isPending, body)
    ensures body != "" && (|body| <= 2000 ==> Validate(body) == [])
  {
    var _ := TrimShape(body);
  }

  // ---------------------------------------------------------------------
  // The panel

  const CommentAdded := "Comment added"
  const AddFailed := "Failed to add comment"
  const CommentDeleted := "Comment deleted"
  const DeleteFailed := "Failed to delete comment"

  class Panel {
    const taskId: string
    var commentBody: string
    var validationError: Option<string>

    constructor(taskId: string)
      ensures this.taskId == taskId && commentBody == "" && validationError == None
    {
      this.taskId := taskId;
      commentBody := "";
      validationError := None;
    }

    /** Typing in the comment box. */
    method SetBody(text: string)
      modifies this
      ensures commentBody == text && validationError == old(validationError)
    {
      commentBody := text;
    }

    /** handleSubmit: clears the validation error; an invalid body stores the
        first issue's message and sends nothing; a valid one sends the create
        request, and clears the box on success or keeps it on failure. */
    method Submit(outcome: Outcome<()>) returns (sent: Option<Mutation>, toast: Option<Toast>)
      modifies this
      ensures var issues := Validate(old(commentBody));
        if issues != [] then
          && sent == None && toast == None
          && validationError == Some(issues[0].message) && commentBody == old(commentBody)
        else
          && sent == Some(CommentQueries.CreateComment(taskId, old(commentBody)))
          && validationError == None
          && (outcome.Succeeded? ==> toast == Some(SuccessToast(CommentAdded)) && commentBody == "")
          && (outcome.Failed? ==>
                && toast == Some(ErrorToast(ErrorMessage(outcome.thrown, AddFailed)))
                && commentBody == old(commentBody))
    {
      validationError := None;
      var issues := Validate(commentBody);
      if issues != [] {
        validationError := Some(issues[0].message);
        return None, None;
      }
      sent := Some(CommentQueries.CreateComment(taskId, commentBody));
      match outcome
      case Succeeded(_) =>
        commentBody := "";
        toast := Some(SuccessToast(CommentAdded));
      case Failed(thrown) =>
        toast := Some(ErrorToast(ErrorMessage(thrown, AddFailed)));
    }

    /** handleDelete: nothing unless the user confirms; then the delete
        request for the comment and a toast for its outcome. The panel's
        own state does not change. */
    method Delete(commentId: string, confirmed: bool, outcome: Outcome<()>)
      returns (sent: Option<Mutation>, toast: Option<Toast>)
      ensures !confirmed ==> sent == None && toast == None
      ensures confirmed ==> sent == Some(CommentQueries.DeleteComment(taskId, commentId))
      ensures confirmed && outcome.Succeeded? ==> toast == Some(SuccessToast(CommentDeleted))
      ensures confirmed && outcome.Failed? ==> toast == Some(ErrorToast(ErrorMessage(outcome.thrown, DeleteFailed)))
    {
      if !confirmed {
        return None, None;
      }
      sent := Some(CommentQueries.DeleteComment(taskId, commentId));
      match outcome
      case Succeeded(_) =>
        toast := Some(SuccessToast(CommentDeleted));
      case Failed(thrown) =>
        toast := Some(ErrorToast(ErrorMessage(thrown, DeleteFailed)));
    }
  }
}
