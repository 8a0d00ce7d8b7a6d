/** The profile settings form (src/features/settings/profile-form.tsx): the
    avatar initials, the initial form data, field edits, the schema and the
    submit flow that sends the update-user mutation.

    zod's URL check is the parameter isUrl; the auth store's user, the
    fetched current user and the mutation's outcome are arguments. */
module ProfileForm {
  import opened Common
  import opened Types
  import opened QueryClient
  import opened Forms
  import UserQueries

  datatype Field = Name | AvatarUrl

  /** The form's controlled values. */
  datatype ProfileData = ProfileData(name: string, avatarUrl: string)

  // ---------------------------------------------------------------------
  // Initials

  /** `words.map(n => n[0]).join("")`: an empty word's n[0] is undefined,
      which join writes as nothing, so the result is the first character of
      each non-empty word, in order. */
  function FirstChars(words: seq<string>): (r: string)
    ensures |r| == |NonEmpty(words)|
    ensures forall i :: 0 <= i < |r| ==> r[i] == NonEmpty(words)[i][0]
  {
    if words == [] then ""
    else (if words[0] == "" then "" else [words[0][0]]) + FirstChars(words[1..])
  }

  /** The avatar fallback: "U" for an empty name, else the upper-cased first
      characters of the space-separated words, at most two. */
  function Initials(name: string): (r: string)
    ensures |r| <= 2
    ensures name == "" ==> r == "U"
    ensures forall i :: 0 <= i < |r| ==> !('a' <= r[i] <= 'z')
  {
    if name == "" then "U"
    else
      var all := UpperCase(FirstChars(Split(name, ' ')));
      if |all| <= 2 then all else all[..2]
  }

  /** A name made of non-empty words joined by single spaces gives the
      upper-cased first letter of its first word, followed by that of its
      second word when there is one. */
  lemma InitialsOfWords(words: seq<string>)
    requires |words| >= 1
    requires forall i :: 0 <= i < |words| ==> words[i] != "" && ' ' !in words[i]
    ensures Initials(Join(words, " ")) ==
      [UpperChar(words[0][0])] + (if |words| >= 2 then [UpperChar(words[1][0])] else [])
  {
    var name := Join(words, " ");
    assert name != "" by {
      if |words| > 1 {
        assert name == words[0] + " " + Join(words[1..], " ");
      }
    }
    assert Split(name, ' ') == words by {
      JoinSplit(words, ' ');
    }
    InitialsOfSplit(name, words);
  }

  /** The initials of a non-empty name whose pieces are all non-empty words. */
  lemma InitialsOfSplit(name: string, words: seq<string>)
    requires name != "" && Split(name, ' ') == words
    requires forall i :: 0 <= i < |words| ==> words[i] != ""
    ensures Initials(name) ==
      [UpperChar(words[0][0])] + (if |words| >= 2 then [UpperChar(words[1][0])] else [])
  {
    var fc := FirstChars(words);
    assert |fc| == |words| && fc[0] == words[0][0] && (|words| >= 2 ==> fc[1] == words[1][0]) by {
      NonEmptyKeepsNonEmpty(words);
    }
    var all := UpperCase(fc);
    InitialsUnfold(name);
    assert all[0] == UpperChar(words[0][0]) by {
      UpperCaseAt(fc, 0);
    }
    if |words| == 1 {
      assert all == [all[0]];
    } else {
      assert all[1] == UpperChar(words[1][0]) by {
        UpperCaseAt(fc, 1);
      }
      assert all[..2] == [all[0], all[1]];
    }
  }

  /** Initials of a non-empty name, one step of its definition. */
  lemma InitialsUnfold(name: string)
    requires name != ""
    ensures var all := UpperCase(FirstChars(Split(name, ' ')));
      Initials(name) == if |all| <= 2 then all else all[..2]
  {
  }

  /** A one-word name gives its upper-cased first letter. */
  lemma InitialsOneWord(w: string)
    requires w != "" && ' ' !in w
    ensures Initials(w) == [UpperChar(w[0])]
  {
    SplitNoSeparator(w, ' ');
  }

  /** A two-word name gives the upper-cased first letters of both words, in order. */
  lemma InitialsTwoWords(a: string, b: string)
    requires a != "" && ' ' !in a && b != "" && ' ' !in b
    ensures Initials(a + " " + b) == [UpperChar(a[0]), UpperChar(b[0])]
  {
    assert a + " " + b == a + [' '] + b;
    SplitAtSeparator(a, ' ', b);
    SplitNoSeparator(a, ' ');
    SplitNoSeparator(b, ' ');
    assert Split(a + " " + b, ' ') == [a, b];
    assert FirstChars([a, b]) == [a[0]] + FirstChars([b]);
  }

  /** Words after the second do not count: "Ada Byron King" gives "AB". */
  lemma InitialsThreeWords(a: string, b: string, c: string)
    requires a != "" && ' ' !in a && b != "" && ' ' !in b && c != "" && ' ' !in c
    ensures Initials(a + " " + b + " " + c) == [UpperChar(a[0]), UpperChar(b[0])]
  {
    var words := [a, b, c];
    assert Join(words, " ") == a + " " + b + " " + c by {
      assert words[1..] == [b, c] && [b, c][1..] == [c];
      assert Join([b, c], " ") == b + " " + c;
      assert Join(words, " ") == a + " " + (b + " " + c);
    }
    InitialsOfWords(words);
  }

  /** The "U" fallback covers only the empty name: a name of one space has
      no word with a first character, so its initials are empty. */
  lemma BlankNameHasNoInitials()
    ensures Initials(" ") == ""
  {
    assert " " == "" + [' '] + "";
    SplitAtSeparator("", ' ', "");
    SplitNoSeparator("", ' ');
    assert Split(" ", ' ') == ["", ""];
  }

  // ---------------------------------------------------------------------
  // Initial data and schema

  /** `currentUserData?.data || user`, then name and `avatarUrl || ""`;
      empty fields without any user. */
  function InitialFormData(fetched: Option<User>, storeUser: Option<User>): (d: ProfileData)
    ensures fetched.None? && storeUser.None? ==> d == ProfileData("", "")
  {
    var userData := if fetched.Some? then fetched else storeUser;
    if userData.Some? then ProfileData(userData.value.name, userData.value.avatarUrl.GetOr(""))
    else ProfileData("", "")
  }

  const NameRequired := "Name is required"
  const InvalidUrl := "Invalid URL"

  /** profileSchema.safeParse: a non-empty name; an avatar URL that passes
      the URL check or is "" (a failing union reports the URL check's issue). */
  function Validate(data: ProfileData, isUrl: string -> bool): seq<Issue<Field>>
  {
    (if data.name == "" then [Issue(Name, NameRequired)] else [])
      + (if isUrl(data.avatarUrl) || data.avatarUrl == "" then [] else [Issue(AvatarUrl, InvalidUrl)])
  }

  /** The parse succeeds exactly when the name is non-empty and the avatar
      URL is a URL or empty; each failing field has its own message. */
  lemma ValidateErrors(data: ProfileData, isUrl: string -> bool)
    ensures Validate(data, isUrl) == [] <==> data.name != "" && (isUrl(data.avatarUrl) || data.avatarUrl == "")
    ensures var errors := FieldErrors(Validate(data, isUrl));
      && (Name in errors <==> data.name == "")
      && (Name in errors ==> errors[Name] == NameRequired)
      && (AvatarUrl in errors <==> !isUrl(data.avatarUrl) && data.avatarUrl != "")
      && (AvatarUrl in errors ==> errors[AvatarUrl] == InvalidUrl)
  {
    var a: seq<Issue<Field>> := if data.name == "" then [Issue(Name, NameRequired)] else [];
    var b: seq<Issue<Field>> := if isUrl(data.avatarUrl) || data.avatarUrl == "" then [] else [Issue(AvatarUrl, InvalidUrl)];
    FieldErrorsConcat(a, b);
    var ea: map<Field, string> := if data.name == "" then map[Name := NameRequired] else map[];
    var eb: map<Field, string> := if isUrl(data.avatarUrl) || data.avatarUrl == "" then map[] else map[AvatarUrl := InvalidUrl];
    assert a == [] || a[..0] == [];
    assert b == [] || b[..0] == [];
    assert FieldErrors(a) == ea;
    assert FieldErrors(b) == eb;
    var errors := FieldErrors(a + b);
    assert errors == ea + eb;
    assert Name in errors <==> Name in ea;
    assert AvatarUrl in errors <==> AvatarUrl in eb;
  }

  /** The update sent: the name, and the avatar URL unless it is "". */
  function UpdatePayload(data: ProfileData): (u: UserQueries.UpdateUserData)
    ensures u.name == Some(data.name)
    ensures u.avatarUrl.None? <==> data.avatarUrl == ""
    ensures u.avatarUrl.Some? ==> u.avatarUrl.value == data.avatarUrl
  {
    UserQueries.UpdateUserData(Some(data.name), if data.avatarUrl == "" then None else Some(data.avatarUrl))
  }

  /** Submitting a user's data unchanged sends back their name and avatar
      URL as they were (a user whose avatar URL is "" has none). */
  lemma InitialDataRoundTrip(u: User, storeUser: Option<User>)
    requires u.avatarUrl != Some("")
    ensures UpdatePayload(InitialFormData(Some(u), storeUser)) == UserQueries.UpdateUserData(Some(u.name), u.avatarUrl)
  {
  }

  /** The data of the fetched user wins over the store's user. */
  lemma InitialPrefersFetched(fetched: User, storeUser: Option<User>)
    ensures InitialFormData(Some(fetched), storeUser) == InitialFormData(Some(fetched), None)
    ensures InitialFormData(None, storeUser) == InitialFormData(storeUser, None)
  {
  }

  // ---------------------------------------------------------------------
  // The form

  const MissingUserId := "User ID not found"
  const ProfileUpdated := "Profile updated successfully"
  const UpdateFailed := "Failed to update profile"

  class Form {
    var data: ProfileData
    var errors: map<Field, string>

    /** The state's initial value, from the users present at the first render. */
    constructor(fetched: Option<User>, storeUser: Option<User>)
      ensures data == InitialFormData(fetched, storeUser) && errors == map[]
    {
      data := InitialFormData(fetched, storeUser);
      errors := map[];
    }

    /** handleChange: sets the edited field only, and drops that field's
        error only (when it has one). */
    method HandleChange(field: Field, value: string)
      modifies this
      ensures field == Name ==> data == old(data).(name := value)
      ensures field == AvatarUrl ==> data == old(data).(avatarUrl := value)
      ensures errors == old(errors) - {field}
    {
      if field == Name {
        data := data.(name := value);
      } else {
        data := data.(avatarUrl := value);
      }
      if field in errors {
        errors := errors - {field};
      }
    }

    /** handleSubmit: clears the errors; an invalid form stores one message
        per field; without a user id it reports that and sends nothing;
        otherwise it sends the update for that user and reports its outcome. */
    method HandleSubmit(storeUser: Option<User>, isUrl: string -> bool, outcome: Outcome<()>)
      returns (sent: Option<Mutation>, toast: Option<Toast>)
      modifies this
      ensures data == old(data)
      ensures var issues := Validate(data, isUrl);
        if issues != [] then
          sent == None && toast == None && errors == FieldErrors(issues)
        else if storeUser.None? || storeUser.value.id == "" then
          sent == None && toast == Some(ErrorToast(MissingUserId)) && errors == map[]
        else
          && sent == Some(UserQueries.UpdateUser(storeUser.value.id, UpdatePayload(data)))
          && errors == map[]
          && (outcome.Succeeded? ==> toast == Some(SuccessToast(ProfileUpdated)))
          && (outcome.Failed? ==> toast == Some(ErrorToast(ErrorMessage(outcome.thrown, UpdateFailed))))
    {
      errors := map[];
      var issues := Validate(data, isUrl);
      if issues != [] {
        errors := CollectFieldErrors(issues);
        return None, None;
      }
      if storeUser.None? || storeUser.value.id == "" {
        return None, Some(ErrorToast(MissingUserId));
      }
      sent := Some(UserQueries.UpdateUser(storeUser.value.id, UpdatePayload(data)));
      match outcome
      case Succeeded(_) =>
        toast := Some(SuccessToast(ProfileUpdated));
      case Failed(thrown) =>
        toast := Some(ErrorToast(ErrorMessage(thrown, UpdateFailed)));
    }
  }
}
