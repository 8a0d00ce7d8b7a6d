/** The create-project dialog (src/features/projects/create-project-dialog.tsx):
    the schema's checks and the submit and cancel flows over the dialog's
    open flag and error map. The name and description inputs are the
    parameters of Submit; the awaited create request's outcome is one too. */
module CreateProjectDialog {
  import opened Common
  import opened QueryClient
  import opened Forms
  import ProjectQueries

  datatype Field = Name | Description

  const NameRequired := "Project name is required"
  const NameTooLong := "Project name must be 100 characters or less"
  const DescriptionRequired := "Description is required"
  const DescriptionTooLong := "Description must be 500 characters or less"

  /** createProjectSchema.safeParse: the issues of the name and the
      description checks, in that order. */
  function Validate(name: string, description: string): seq<Issue<Field>>
  {
    LengthIssues(Name, name, 1, NameRequired, 100, NameTooLong)
      + LengthIssues(Description, description, 1, DescriptionRequired, 500, DescriptionTooLong)
  }

  /** The parse succeeds exactly when the name is 1 to 100 characters and
      the description 1 to 500; otherwise each field out of range has one
      error, "required" when it is empty and "too long" otherwise. */
  lemma ValidateErrors(name: string, description: string)
    ensures Validate(name, description) == [] <==> 1 <= |name| <= 100 && 1 <= |description| <= 500
    ensures var errors := FieldErrors(Validate(name, description));
      && (Name in errors <==> !(1 <= |name| <= 100))
      && (Name in errors ==> errors[Name] == if name == "" then NameRequired else NameTooLong)
      && (Description in errors <==> !(1 <= |description| <= 500))
      && (Description in errors ==> errors[Description] == if description == "" then DescriptionRequired else DescriptionTooLong)
  {
    RequiredFieldsErrors(Name, name, 100, NameRequired, NameTooLong,
      Description, description, 500, DescriptionRequired, DescriptionTooLong);
  }

  /** The body of the create request: the parsed name and description. */
  function ProjectRecord(name: string, description: string): (r: Record)
    ensures r.Keys == {"name", "description"}
    ensures r["name"] == JString(name) && r["description"] == JString(description)
  {
    map["name" := JString(name), "description" := JString(description)]
  }

  const ProjectCreated := "Project created successfully"
  const CreateFailed := "Failed to create project"

  class Dialog {
    var open: bool
    var errors: map<Field, string>

    constructor()
      ensures !open && errors == map[]
    {
      open := false;
      errors := map[];
    }

    /** The trigger button and the dialog's own close control. */
    method SetOpen(value: bool)
      modifies this
      ensures open == value && errors == old(errors)
    {
      open := value;
    }

    /** handleSubmit: clears the errors; an invalid form stores one message
        per field and sends nothing; a valid one sends the create request,
        then closes the dialog on success or keeps it open and reports the
        error on failure. */
    method Submit(name: string, description: string, outcome: Outcome<()>) returns (sent: Option<Mutation>, toast: Option<Toast>)
      modifies this
      ensures var issues := Validate(name, description);
        if issues != [] then
          sent == None && toast == None && errors == FieldErrors(issues) && open == old(open)
        else
          && sent == Some(ProjectQueries.CreateProject(ProjectRecord(name, description)))
          && errors == map[]
          && (outcome.Succeeded? ==> toast == Some(SuccessToast(ProjectCreated)) && !open)
          && (outcome.Failed? ==>
                toast == Some(ErrorToast(ErrorMessage(outcome.thrown, CreateFailed))) && open == old(open))
    {
      errors := map[];
      var issues := Validate(name, description);
      if issues != [] {
        errors := CollectFieldErrors(issues);
        return None, None;
      }
      sent := Some(ProjectQueries.CreateProject(ProjectRecord(name, description)));
      match outcome
      case Succeeded(_) =>
        toast := Some(SuccessToast(ProjectCreated));
        open := false;
      case Failed(thrown) =>
        toast := Some(ErrorToast(ErrorMessage(thrown, CreateFailed)));
    }

    /** The Cancel button: closes the dialog and submits nothing. */
    method Cancel()
      modifies this
      ensures !open && errors == old(errors)
    {
      open := false;
    }
  }
}
