/** The add-member dialog (src/features/projects/add-member-dialog.tsx): the
    users offered for selection, the submit guard and the reset after a
    member is added. The add-member hook is not part of this model: the call
    it receives is the value Submit returns. */
module AddMemberDialog {
  import opened Common
  import opened Types
  import opened Forms

  /** Whether a user may be offered: not a member yet and not the owner. */
  predicate Offered(u: User, existingMemberIds: seq<string>, ownerId: string) {
    u.id !in existingMemberIds && u.id != ownerId
  }

  /** availableUsers: the users that are neither members nor the owner, in
      their original order. */
  function AvailableUsers(users: seq<User>, existingMemberIds: seq<string>, ownerId: string): (r: seq<User>)
    ensures |r| <= |users|
    ensures forall u :: u in r <==> u in users && Offered(u, existingMemberIds, ownerId)
  {
    if users == [] then []
    else
      var rest := AvailableUsers(users[1..], existingMemberIds, ownerId);
      assert forall u :: u in users <==> u == users[0] || u in users[1..];
      if Offered(users[0], existingMemberIds, ownerId) then [users[0]] + rest else rest
  }

  /** Filtering works piecewise, so the offered users keep their order. */
  lemma {:induction false} AvailableUsersAppend(a: seq<User>, b: seq<User>, existingMemberIds: seq<string>, ownerId: string)
    ensures AvailableUsers(a + b, existingMemberIds, ownerId)
      == AvailableUsers(a, existingMemberIds, ownerId) + AvailableUsers(b, existingMemberIds, ownerId)
  {
    if a == [] {
      assert a + b == b;
    } else {
      assert (a + b)[0] == a[0];
      assert (a + b)[1..] == a[1..] + b;
      AvailableUsersAppend(a[1..], b, existingMemberIds, ownerId);
    }
  }

  /** The owner is never offered, even when the member list leaves them out. */
  lemma OwnerNeverOffered(users: seq<User>, existingMemberIds: seq<string>, ownerId: string)
    ensures forall i :: 0 <= i < |AvailableUsers(users, existingMemberIds, ownerId)| ==>
      AvailableUsers(users, existingMemberIds, ownerId)[i].id != ownerId
  {
    var r := AvailableUsers(users, existingMemberIds, ownerId);
    forall i | 0 <= i < |r| ensures r[i].id != ownerId {
      assert r[i] in r;
    }
  }

  /** With nobody to exclude every user is offered, in order. */
  lemma {:induction false} NobodyExcluded(users: seq<User>, existingMemberIds: seq<string>, ownerId: string)
    requires forall i :: 0 <= i < |users| ==> Offered(users[i], existingMemberIds, ownerId)
    ensures AvailableUsers(users, existingMemberIds, ownerId) == users
  {
    if users != [] {
      NobodyExcluded(users[1..], existingMemberIds, ownerId);
    }
  }

  /** Submit is disabled with no user selected or while a request is pending. */
  predicate SubmitDisabled(selectedUserId: string, isPending: bool) {
    selectedUserId == "" || isPending
  }

  /** What the add-member mutation receives. */
  datatype AddMemberCall = AddMemberCall(projectId: string, userId: string, role: ProjectMemberRole)

  const SelectUserFirst := "Please select a user"
  const MemberAdded := "Member added successfully"
  const AddFailed := "Failed to add member"

  class Dialog {
    const projectId: string
    var open: bool
    var selectedUserId: string
    var selectedRole: ProjectMemberRole

    /** Closed, nobody selected, role "member". */
    constructor(projectId: string)
      ensures this.projectId == projectId && !open && selectedUserId == "" && selectedRole == Member
    {
      this.projectId := projectId;
      open := false;
      selectedUserId := "";
      selectedRole := Member;
    }

    /** The trigger, the Cancel button and the dialog's own close control. */
    method SetOpen(value: bool)
      modifies this
      ensures open == value && selectedUserId == old(selectedUserId) && selectedRole == old(selectedRole)
    {
      open := value;
    }

    method SelectUser(userId: string)
      modifies this
      ensures selectedUserId == userId && open == old(open) && selectedRole == old(selectedRole)
    {
      selectedUserId := userId;
    }

    method SelectRole(role: ProjectMemberRole)
      modifies this
      ensures selectedRole == role && open == old(open) && selectedUserId == old(selectedUserId)
    {
      selectedRole := role;
    }

    /** handleSubmit: with nobody selected it reports that and sends nothing;
        otherwise it sends the selection, then on success closes the dialog
        and resets the selection and the role, and on failure reports the
        error and keeps the state. */
    method Submit(outcome: Outcome<()>) returns (sent: Option<AddMemberCall>, toast: Toast)
      modifies this
      ensures old(selectedUserId) == "" ==>
        && sent == None && toast == ErrorToast(SelectUserFirst)
        && open == old(open) && selectedUserId == old(selectedUserId) && selectedRole == old(selectedRole)
      ensures old(selectedUserId) != "" ==>
        && sent == Some(AddMemberCall(projectId, old(selectedUserId), old(selectedRole)))
        && (outcome.Succeeded? ==>
              toast == SuccessToast(MemberAdded) && !open && selectedUserId == "" && selectedRole == Member)
        && (outcome.Failed? ==>
              && toast == ErrorToast(ErrorMessage(outcome.thrown, AddFailed))
              && open == old(open) && selectedUserId == old(selectedUserId) && selectedRole == old(selectedRole))
    {
      if selectedUserId == "" {
        return None, ErrorToast(SelectUserFirst);
      }
      sent := Some(AddMemberCall(projectId, selectedUserId, selectedRole));
      match outcome
      case Succeeded(_) =>
        toast := SuccessToast(MemberAdded);
        open := false;
        selectedUserId := "";
        selectedRole := Member;
      case Failed(thrown) =>
        toast := ErrorToast(ErrorMessage(thrown, AddFailed));
    }
  }

  /** An enabled submit button always passes the selection guard. */
  lemma EnabledSubmitHasSelection(selectedUserId: string, isPending: bool)
    requires !SubmitDisabled(selectedUserId, isPending)
    ensures selectedUserId != "" && !isPending
  {
  }
}
