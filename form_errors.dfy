/** What the form components share: zod's validation issues, the per-field
    error map their submit handlers build from them, the length checks their
    schemas declare, and the result of an awaited request. */
module Forms {
  import opened Common

  /** A validation issue: the field of its path and its message. */
  datatype Issue<F> = Issue(field: F, message: string)

  /** The error map the submit handlers build: for each field the message of
      the last issue on it (`fieldErrors[field] = issue.message`, in order). */
  function FieldErrors<F>(issues: seq<Issue<F>>): map<F, string>
  {
    if issues == [] then map[]
    else
      var last := issues[|issues| - 1];
      FieldErrors(issues[..|issues| - 1])[last.field := last.message]
  }

  /** The loop of the submit handlers over the issues. */
  method CollectFieldErrors<F>(issues: seq<Issue<F>>) returns (fieldErrors: map<F, string>)
    ensures fieldErrors == FieldErrors(issues)
  {
    fieldErrors := map[];
    for i := 0 to |issues|
      invariant fieldErrors == FieldErrors(issues[..i])
    {
      assert issues[..i + 1][..i] == issues[..i];
      fieldErrors := fieldErrors[issues[i].field := issues[i].message];
    }
    assert issues[..|issues|] == issues;
  }

  /** A field has an error exactly when some issue is on it. */
  lemma {:induction false} FieldErrorsDomain<F>(issues: seq<Issue<F>>, f: F)
    ensures f in FieldErrors(issues) <==> exists i :: 0 <= i < |issues| && issues[i].field == f
  {
    if issues != [] {
      var init := issues[..|issues| - 1];
      FieldErrorsDomain(init, f);
      if exists i :: 0 <= i < |init| && init[i].field == f {
        var i :| 0 <= i < |init| && init[i].field == f;
        assert issues[i].field == f;
      }
      if exists i :: 0 <= i < |issues| && issues[i].field == f {
        var i :| 0 <= i < |issues| && issues[i].field == f;
        if i < |init| {
          assert init[i].field == f;
        }
      }
    }
  }

  /** The last issue on a field wins: its message is the field's error. */
  lemma {:induction false} LastIssueWins<F>(issues: seq<Issue<F>>, i: nat)
    requires i < |issues|
    requires forall j :: i < j < |issues| ==> issues[j].field != issues[i].field
    ensures issues[i].field in FieldErrors(issues)
    ensures FieldErrors(issues)[issues[i].field] == issues[i].message
  {
    var init := issues[..|issues| - 1];
    if i < |issues| - 1 {
      assert init[i] == issues[i];
      LastIssueWins(init, i);
    }
  }

  /** The issues of two independent checks: the later check's errors override
      the earlier one's field by field. */
  lemma {:induction false} FieldErrorsConcat<F>(a: seq<Issue<F>>, b: seq<Issue<F>>)
    ensures FieldErrors(a + b) == FieldErrors(a) + FieldErrors(b)
  {
    if b != [] {
      var init := b[..|b| - 1];
      var last := b[|b| - 1];
      assert (a + b)[..|a + b| - 1] == a + init;
      assert (a + b)[|a + b| - 1] == last;
      FieldErrorsConcat(a, init);
    } else {
      assert a + b == a;
    }
  }

  /** The issues of `z.string().min(min, minMessage).max(max, maxMessage)`:
      every check runs, each failing one adds its issue, in declaration order.
      Lengths are counted in characters. */
  function LengthIssues<F>(field: F, s: string, min: nat, minMessage: string, max: nat, maxMessage: string): (r: seq<Issue<F>>)
    ensures r == [] <==> min <= |s| <= max
    ensures forall k :: 0 <= k < |r| ==> r[k].field == field
  {
    (if |s| < min then [Issue(field, minMessage)] else [])
      + (if |s| > max then [Issue(field, maxMessage)] else [])
  }

  /** With a consistent range at most one length check fails, and its
      message is the field's error. */
  lemma LengthIssuesError<F>(field: F, s: string, min: nat, minMessage: string, max: nat, maxMessage: string)
    requires min <= max
    ensures var r := LengthIssues(field, s, min, minMessage, max, maxMessage);
      && |r| <= 1
      && (|s| < min ==> FieldErrors(r) == map[field := minMessage])
      && (|s| > max ==> FieldErrors(r) == map[field := maxMessage])
      && (min <= |s| <= max ==> FieldErrors(r) == map[])
  {
    var r := LengthIssues(field, s, min, minMessage, max, maxMessage);
    if |r| == 1 {
      assert r[..0] == [];
    }
  }

  /** The error map of a schema of two required, length-bounded string
      fields: each field out of range has exactly one error, its "required"
      message when it is empty and its "too long" message otherwise, and no
      other field has one. */
  lemma RequiredFieldsErrors<F>(
    f1: F, s1: string, max1: nat, required1: string, tooLong1: string,
    f2: F, s2: string, max2: nat, required2: string, tooLong2: string)
    requires f1 != f2 && max1 >= 1 && max2 >= 1
    ensures var errors := FieldErrors(LengthIssues(f1, s1, 1, required1, max1, tooLong1)
                                      + LengthIssues(f2, s2, 1, required2, max2, tooLong2));
      && errors.Keys <= {f1, f2}
      && (f1 in errors <==> !(1 <= |s1| <= max1))
      && (f1 in errors ==> errors[f1] == if s1 == "" then required1 else tooLong1)
      && (f2 in errors <==> !(1 <= |s2| <= max2))
      && (f2 in errors ==> errors[f2] == if s2 == "" then required2 else tooLong2)
  {
    var a := LengthIssues(f1, s1, 1, required1, max1, tooLong1);
    var b := LengthIssues(f2, s2, 1, required2, max2, tooLong2);
    FieldErrorsConcat(a, b);
    var ea := RequiredFieldErrors(f1, s1, max1, required1, tooLong1);
    var eb := RequiredFieldErrors(f2, s2, max2, required2, tooLong2);
    var errors := FieldErrors(a + b);
    assert errors == ea + eb;
    assert ea.Keys <= {f1} && eb.Keys <= {f2};
    assert f1 in errors <==> f1 in ea;
    assert f2 in errors <==> f2 in eb;
    assert f1 in errors ==> errors[f1] == ea[f1];
  }

  /** The error map of one required, length-bounded string field. */
  lemma RequiredFieldErrors<F>(f: F, s: string, max: nat, required: string, tooLong: string)
    returns (errors: map<F, string>)
    requires max >= 1
    ensures errors == FieldErrors(LengthIssues(f, s, 1, required, max, tooLong))
    ensures errors == if s == "" then map[f := required] else if |s| > max then map[f := tooLong] else map[]
  {
    var r := LengthIssues(f, s, 1, required, max, tooLong);
    errors := FieldErrors(r);
    if s == "" {
      assert r == [Issue(f, required)];
      assert r[..0] == [];
    } else if |s| > max {
      assert r == [Issue(f, tooLong)];
      assert r[..0] == [];
    } else {
      assert r == [];
    }
  }

  /** A value thrown by an awaited call: an Error with its message, or anything else. */
  datatype Thrown = ErrorObject(message: string) | NonError

  /** How an awaited request ended. */
  datatype Outcome<T> = Succeeded(value: T) | Failed(thrown: Thrown)

  /** `err instanceof Error ? err.message : fallback`. */
  function ErrorMessage(thrown: Thrown, fallback: string): (r: string)
    ensures thrown.ErrorObject? ==> r == thrown.message
    ensures thrown.NonError? ==> r == fallback
  {
    match thrown
    case ErrorObject(m) => m
    case NonError => fallback
  }

  /** A toast notification raised by a handler. */
  datatype Toast = SuccessToast(message: string) | ErrorToast(message: string)
}
