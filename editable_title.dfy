/** The inline title editor (src/features/tasks/editable-title.tsx): a
    heading that turns into an input on click or Enter, and saves, reverts
    or cancels from there. The value and disabled props are fields the
    parent sets; a call of onSave is the value a method returns. */
module EditableTitle {
  import opened Common

  /** What save hands to onSave: the trimmed edit, when it is non-empty and
      differs from the current value; nothing otherwise. */
  function SaveResult(editValue: string, value: string): (r: Option<string>)
    ensures r.Some? <==> Trim(editValue) != "" && Trim(editValue) != value
    ensures r.Some? ==> r.value == Trim(editValue)
  {
    var trimmed := Trim(editValue);
    if trimmed != "" && trimmed != value then Some(trimmed) else None
  }

  /** A saved title is never blank, has no surrounding whitespace and
      differs from the title it replaces; once the parent adopts it, saving
      the same edit again sends nothing. */
  lemma SavedTitleIsClean(editValue: string, value: string)
    requires SaveResult(editValue, value).Some?
    ensures var saved := SaveResult(editValue, value).value;
      && saved != "" && saved != value
      && Trim(saved) == saved
      && SaveResult(editValue, saved).None?
      && SaveResult(saved, saved).None?
  {
    TrimIdempotent(editValue);
  }

  /** Entering the current title again, with spaces around it, saves nothing. */
  lemma PaddedTitleSavesNothing(value: string)
    requires Trim(value) == value
    ensures SaveResult(" " + value + " ", value).None?
  {
    TrimPadded(value);
  }

  /** A changed title is saved as typed; the unchanged one is not saved. */
  lemma SaveExamples(value: string, edit: string)
    requires value == "My Task" && edit == "Updated Task"
    ensures SaveResult(edit, value) == Some(edit)
    ensures SaveResult(value, value) == None
  {
    assert !IsWhitespace(edit[0]) && !IsWhitespace(edit[|edit| - 1]);
    assert TrimStart(edit) == edit;
    assert TrimEnd(edit) == edit;
    assert edit != value by {
      assert edit[0] != value[0];
    }
  }

  datatype Key = Enter | Escape | OtherKey

  class Editor {
    var value: string
    var disabled: bool
    var isEditing: bool
    var editValue: string

    /** Shows the heading, with the edit buffer holding the value. */
    constructor(value: string, disabled: bool)
      ensures this.value == value && this.disabled == disabled
      ensures !isEditing && editValue == value
    {
      this.value := value;
      this.disabled := disabled;
      isEditing := false;
      editValue := value;
    }

    /** The parent renders with value v. The effect on [value] runs only
        when v differs from the previous value, and then resets the edit
        buffer; the same value leaves a half-typed or unsaved buffer alone. */
    method SetValue(v: string)
      modifies this
      ensures value == v
      ensures editValue == if v != old(value) then v else old(editValue)
      ensures isEditing == old(isEditing) && disabled == old(disabled)
    {
      if v != value {
        editValue := v;
      }
      value := v;
    }

    method SetDisabled(d: bool)
      modifies this
      ensures disabled == d
      ensures value == old(value) && isEditing == old(isEditing) && editValue == old(editValue)
    {
      disabled := d;
    }

    /** A click on the heading: edit mode unless disabled. */
    method Click()
      requires !isEditing
      modifies this
      ensures isEditing <==> !disabled
      ensures value == old(value) && disabled == old(disabled) && editValue == old(editValue)
    {
      if !disabled {
        isEditing := true;
      }
    }

    /** A key on the heading: Enter enters edit mode unless disabled; any
        other key changes nothing. */
    method HeadingKeyDown(key: Key)
      requires !isEditing
      modifies this
      ensures isEditing <==> key == Enter && !disabled
      ensures value == old(value) && disabled == old(disabled) && editValue == old(editValue)
    {
      if key == Enter && !disabled {
        isEditing := true;
      }
    }

    /** Typing in the input. */
    method Change(text: string)
      requires isEditing
      modifies this
      ensures editValue == text
      ensures value == old(value) && disabled == old(disabled) && isEditing
    {
      editValue := text;
    }

    /** handleSave (Enter in the input, or leaving it): calls onSave with
        SaveResult when there is one and keeps the edit buffer, else reverts
        the buffer to the value; always leaves edit mode. */
    method Save() returns (saved: Option<string>)
      modifies this
      ensures saved == SaveResult(old(editValue), value)
      ensures saved.None? ==> editValue == value
      ensures saved.Some? ==> editValue == old(editValue)
      ensures !isEditing && value == old(value) && disabled == old(disabled)
    {
      var trimmed := Trim(editValue);
      if trimmed != "" && trimmed != value {
        saved := Some(trimmed);
      } else {
        editValue := value;
        saved := None;
      }
      isEditing := false;
    }

    /** A key in the input: Enter saves; Escape reverts the buffer and
        leaves edit mode without saving; other keys change nothing. */
    method InputKeyDown(key: Key) returns (saved: Option<string>)
      requires isEditing
      modifies this
      ensures key == Enter ==> saved == SaveResult(old(editValue), value) && !isEditing
      ensures key == Enter && saved.None? ==> editValue == value
      ensures key == Enter && saved.Some? ==> editValue == old(editValue)
      ensures key == Escape ==> saved == None && editValue == value && !isEditing
      ensures key == OtherKey ==> saved == None && isEditing && editValue == old(editValue)
      ensures value == old(value) && disabled == old(disabled)
    {
      saved := None;
      if key == Enter {
        saved := Save();
      } else if key == Escape {
        editValue := value;
        isEditing := false;
      }
    }

    /** Leaving the input saves. */
    method Blur() returns (saved: Option<string>)
      requires isEditing
      modifies this
      ensures saved == SaveResult(old(editValue), value) && !isEditing
      ensures saved.None? ==> editValue == value
      ensures saved.Some? ==> editValue == old(editValue)
      ensures value == old(value) && disabled == old(disabled)
    {
      saved := Save();
    }
  }
}
