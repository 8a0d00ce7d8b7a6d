/** The create-task dialog (src/features/tasks/create-task-dialog.tsx): the
    tag list editor, the payload handed to the schema, the schema's checks
    and the submit and cancel flows over the dialog's state.

    The uncontrolled inputs (title, description, assignee, due date) are the
    parameter of Submit; the awaited create request's outcome is one too. */
module CreateTaskDialog {
  import opened Common
  import opened Types
  import opened QueryClient
  import opened Forms
  import TaskQueries

  /** The schema's fields, the keys of the error map. */
  datatype Field = Title | Description | Priority | AssigneeId | DueDate | Tags

  // ---------------------------------------------------------------------
  // Tags

  /** A tag list handleAddTag can build: no blank entry, no untrimmed entry
      and no entry twice. */
  predicate TagsWellFormed(tags: seq<string>) {
    && NoDuplicates(tags)
    && forall i :: 0 <= i < |tags| ==> tags[i] != "" && Trim(tags[i]) == tags[i]
  }

  /** The tag handleAddTag appends: the trimmed input, when it is non-empty
      and not listed yet. */
  function TagToAdd(tags: seq<string>, input: string): (r: Option<string>)
    ensures r.Some? <==> Trim(input) != "" && Trim(input) !in tags
    ensures r.Some? ==> r.value == Trim(input)
  {
    var t := Trim(input);
    if t != "" && t !in tags then Some(t) else None
  }

  /** Adding keeps the list well formed, and at once adding the same input
      again changes nothing. */
  lemma AddKeepsWellFormed(tags: seq<string>, input: string)
    requires TagsWellFormed(tags)
    requires TagToAdd(tags, input).Some?
    ensures var t := TagToAdd(tags, input).value;
      && TagsWellFormed(tags + [t])
      && TagToAdd(tags + [t], input).None?
  {
    var t := Trim(input);
    var s := tags + [t];
    assert s[|tags|] == t;
    assert NoDuplicates(s) by {
      forall i, j | 0 <= i < j < |s| ensures s[i] != s[j] {
        if j == |tags| {
          assert s[i] == tags[i];
        }
      }
    }
    assert forall i :: 0 <= i < |s| ==> s[i] != "" && Trim(s[i]) == s[i] by {
      TrimIdempotent(input);
      forall i | 0 <= i < |s| ensures s[i] != "" && Trim(s[i]) == s[i] {
        if i < |tags| {
          assert s[i] == tags[i];
        }
      }
    }
    assert t in s;
  }

  /** Removing keeps the list well formed. */
  lemma RemoveKeepsWellFormed(tags: seq<string>, tag: string)
    requires TagsWellFormed(tags)
    ensures TagsWellFormed(Without(tags, tag))
  {
    WithoutNoDuplicates(tags, tag);
    var r := Without(tags, tag);
    forall i | 0 <= i < |r| ensures r[i] != "" && Trim(r[i]) == r[i] {
      var j :| 0 <= j < |tags| && tags[j] == r[i];
    }
  }

  /** Removing the tag just added gives back the list as it was. */
  lemma AddThenRemove(tags: seq<string>, input: string)
    requires TagsWellFormed(tags)
    requires TagToAdd(tags, input).Some?
    ensures var t := TagToAdd(tags, input).value;
      Without(tags + [t], t) == tags
  {
    var t := Trim(input);
    AddKeepsWellFormed(tags, input);
    var s := tags + [t];
    WithoutAt(s, |tags|);
    assert s[..|tags|] == tags;
  }

  /** Removing a listed tag keeps every other tag, in order: it cuts out
      exactly that tag's position. */
  lemma RemoveCutsOut(tags: seq<string>, k: nat)
    requires TagsWellFormed(tags) && k < |tags|
    ensures Without(tags, tags[k]) == tags[..k] + tags[k + 1..]
  {
    WithoutAt(tags, k);
  }

  // ---------------------------------------------------------------------
  // Payload and schema

  /** The uncontrolled inputs as FormData returns them (every field is in the form). */
  datatype FormInput = FormInput(title: string, description: string, assigneeId: string, dueDate: string)

  /** The object handed to the schema: an absent field is None. */
  datatype Payload = Payload(
    title: string,
    description: string,
    priority: TaskPriority,
    assigneeId: Option<string>,
    dueDate: Option<string>,
    tags: Option<seq<string>>)

  /** `if (!data.x) delete data.x`: an empty input is dropped. */
  function Truthy(s: string): (r: Option<string>)
    ensures r.None? <==> s == ""
    ensures r.Some? ==> r.value == s
  {
    if s == "" then None else Some(s)
  }

  /** The submitted data: the inputs, the selected priority, the tags only
      when there are any, and the assignee and due date only when non-empty. */
  function ShapePayload(input: FormInput, priority: TaskPriority, tags: seq<string>): Payload
  {
    Payload(input.title, input.description, priority,
      Truthy(input.assigneeId), Truthy(input.dueDate),
      if |tags| > 0 then Some(tags) else None)
  }

  /** The request body: the JSON form of the parsed payload, in which an
      absent field has no key. */
  function PayloadRecord(p: Payload): Record
  {
    var r := map["title" := JString(p.title), "description" := JString(p.description),
                 "priority" := JString(p.priority.Name())];
    var r := WithString(r, "assigneeId", p.assigneeId);
    var r := WithString(r, "dueDate", p.dueDate);
    if p.tags.Some? then r["tags" := JStrings(p.tags.value)] else r
  }

  /** What the create request carries: title, description and the priority's
      wire name always; tags exactly when the list is non-empty; assignee and
      due date exactly when their inputs are non-empty. The priority decodes
      back to the selected one. */
  lemma PayloadKeys(input: FormInput, priority: TaskPriority, tags: seq<string>)
    ensures var r := PayloadRecord(ShapePayload(input, priority, tags));
      && r.Keys <= {"title", "description", "priority", "assigneeId", "dueDate", "tags"}
      && r["title"] == JString(input.title) && r["description"] == JString(input.description)
      && r["priority"].JString? && ParsePriority(r["priority"].s) == Some(priority)
      && ("tags" in r <==> tags != []) && ("tags" in r ==> r["tags"] == JStrings(tags))
      && ("assigneeId" in r <==> input.assigneeId != "")
      && ("assigneeId" in r ==> r["assigneeId"] == JString(input.assigneeId))
      && ("dueDate" in r <==> input.dueDate != "")
      && ("dueDate" in r ==> r["dueDate"] == JString(input.dueDate))
  {
    PriorityNameRoundTrip(priority);
  }

  const TitleRequired := "Task title is required"
  const TitleTooLong := "Title must be 200 characters or less"
  const DescriptionRequired := "Description is required"
  const DescriptionTooLong := "Description must be 2000 characters or less"

  /** createTaskSchema.safeParse: the issues of the title and the description
      checks, in that order. The priority is a TaskPriority here, so its enum
      check cannot fail; the optional fields are strings when present. */
  function Validate(p: Payload): seq<Issue<Field>>
  {
    LengthIssues(Title, p.title, 1, TitleRequired, 200, TitleTooLong)
      + LengthIssues(Description, p.description, 1, DescriptionRequired, 2000, DescriptionTooLong)
  }

  /** The error map a failed parse produces: an entry for the title exactly
      when it is not 1 to 200 characters, for the description exactly when
      it is not 1 to 2000, and for no other field; the parse succeeds
      exactly when both are in range. */
  lemma ValidateErrors(p: Payload)
    ensures Validate(p) == [] <==> 1 <= |p.title| <= 200 && 1 <= |p.description| <= 2000
    ensures var errors := FieldErrors(Validate(p));
      && errors.Keys <= {Title, Description}
      && (Title in errors <==> !(1 <= |p.title| <= 200))
      && (Title in errors ==> errors[Title] == if p.title == "" then TitleRequired else TitleTooLong)
      && (Description in errors <==> !(1 <= |p.description| <= 2000))
      && (Description in errors ==> errors[Description] == if p.description == "" then DescriptionRequired else DescriptionTooLong)
  {
    RequiredFieldsErrors(Title, p.title, 200, TitleRequired, TitleTooLong,
      Description, p.description, 2000, DescriptionRequired, DescriptionTooLong);
  }

  // ---------------------------------------------------------------------
  // The dialog

  const TaskCreated := "Task created successfully"
  const CreateFailed := "Failed to create task"

  class Dialog {
    const projectId: string
    var open: bool
    var errors: map<Field, string>
    var priority: TaskPriority
    var tagInput: string
    var tags: seq<string>

    predicate Valid()
      reads this
    {
      TagsWellFormed(tags)
    }

    /** Closed, no errors, priority "medium", no tag input and no tags. */
    constructor(projectId: string)
      ensures Valid()
      ensures this.projectId == projectId && !open && errors == map[]
      ensures priority == Medium && tagInput == "" && tags == []
    {
      this.projectId := projectId;
      open := false;
      errors := map[];
      priority := Medium;
      tagInput := "";
      tags := [];
    }

    /** The trigger button and the dialog's own close control. */
    method SetOpen(value: bool)
      modifies this
      ensures open == value
      ensures errors == old(errors) && priority == old(priority) && tagInput == old(tagInput) && tags == old(tags)
    {
      open := value;
    }

    method SetTagInput(value: string)
      modifies this
      ensures tagInput == value
      ensures open == old(open) && errors == old(errors) && priority == old(priority) && tags == old(tags)
    {
      tagInput := value;
    }

    method SetPriority(value: TaskPriority)
      modifies this
      ensures priority == value
      ensures open == old(open) && errors == old(errors) && tagInput == old(tagInput) && tags == old(tags)
    {
      priority := value;
    }

    /** handleAddTag (the Add button and Enter in the tag input): appends the
        trimmed input and clears the input when TagToAdd allows it, and
        changes nothing otherwise. */
    method AddTag()
      requires Valid()
      modifies this
      ensures Valid()
      ensures var added := TagToAdd(old(tags), old(tagInput));
        && (added.Some? ==> tags == old(tags) + [added.value] && tagInput == "")
        && (added.None? ==> tags == old(tags) && tagInput == old(tagInput))
      ensures open == old(open) && errors == old(errors) && priority == old(priority)
    {
      var added := TagToAdd(tags, tagInput);  // the trimmed input, if non-empty and new
      if added.Some? {
        assert TagsWellFormed(tags + [added.value]) by {
          AddKeepsWellFormed(tags, tagInput);
        }
        tags := tags + [added.value];
        tagInput := "";
      }
    }

    /** handleRemoveTag: drops every entry equal to tag. */
    method RemoveTag(tag: string)
      requires Valid()
      modifies this
      ensures Valid()
      ensures tags == Without(old(tags), tag)
      ensures open == old(open) && errors == old(errors) && priority == old(priority) && tagInput == old(tagInput)
    {
      RemoveKeepsWellFormed(tags, tag);
      tags := Without(tags, tag);
    }

    /** handleSubmit: clears the errors and parses the shaped payload. On
        failure it stores one message per field and sends nothing. Otherwise
        it sends the create request; on success it raises the success toast,
        closes the dialog and resets priority and tags, and on failure it
        raises the error toast and keeps the state. */
    method Submit(input: FormInput, outcome: Outcome<()>) returns (sent: Option<Mutation>, toast: Option<Toast>)
      requires Valid()
      modifies this
      ensures Valid()
      ensures var p := ShapePayload(input, old(priority), old(tags));
        if Validate(p) != [] then
          && sent == None && toast == None
          && errors == FieldErrors(Validate(p))
          && open == old(open) && priority == old(priority) && tags == old(tags)
        else
          && sent == Some(TaskQueries.CreateTask(projectId, PayloadRecord(p)))
          && errors == map[]
          && (outcome.Succeeded? ==>
                toast == Some(SuccessToast(TaskCreated)) && !open && priority == Medium && tags == [])
          && (outcome.Failed? ==>
                && toast == Some(ErrorToast(ErrorMessage(outcome.thrown, CreateFailed)))
                && open == old(open) && priority == old(priority) && tags == old(tags))
      ensures tagInput == old(tagInput)
    {
      errors := map[];
      var p := ShapePayload(input, priority, tags);
      var issues := Validate(p);
      if issues != [] {
        errors := CollectFieldErrors(issues);
        return None, None;
      }
      sent := Some(TaskQueries.CreateTask(projectId, PayloadRecord(p)));
      match outcome
      case Succeeded(_) =>
        toast := Some(SuccessToast(TaskCreated));
        open := false;
        priority := Medium;
        tags := [];
      case Failed(thrown) =>
        toast := Some(ErrorToast(ErrorMessage(thrown, CreateFailed)));
    }

    /** The Cancel button: closes the dialog and resets priority and tags. */
    method Cancel()
      modifies this
      ensures !open && priority == Medium && tags == []
      ensures errors == old(errors) && tagInput == old(tagInput)
    {
      open := false;
      priority := Medium;
      tags := [];
    }
  }
}
