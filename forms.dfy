/**
 * What the login and registration screens share: a form object keyed by field
 * name, a map of invalid flags, the focused input, an error message and a
 * loading flag; the required-field check that runs before any request; the
 * edit handler; and the border colour of each input.
 */
module Forms {
  import opened Options

  /** The message shown when a required field is empty. */
  const FillInMessage: string := "Please fill in all fields correctly."

  /** Border colours of an input. */
  const InvalidBorder: string := "red"
  const FocusedBorder: string := "#12B1D1"
  const PlainBorder: string := "transparent"

  /** `!formData[field]`: a missing or empty value is falsy. */
  predicate IsBlank(data: map<string, string>, field: string)
  {
    field !in data || data[field] == ""
  }

  /** The `newInvalidFields` object: one flag per required field, set exactly when it is blank. */
  function InvalidFlags(data: map<string, string>, required: seq<string>): (r: map<string, bool>)
    ensures forall k :: k in r <==> k in required
    ensures forall k | k in r :: r[k] <==> IsBlank(data, k)
  {
    map k | k in required :: IsBlank(data, k)
  }

  /** `Object.values(flags).some((field) => field)`. */
  predicate AnyInvalid(flags: map<string, bool>)
  {
    exists k | k in flags :: flags[k]
  }

  /** Submission is blocked exactly when some required field is blank. */
  lemma BlockedIffBlankField(data: map<string, string>, required: seq<string>)
    ensures AnyInvalid(InvalidFlags(data, required)) <==> exists k | k in required :: IsBlank(data, k)
  {
    var flags := InvalidFlags(data, required);
    if exists k | k in required :: IsBlank(data, k) {
      var k :| k in required && IsBlank(data, k);
      assert k in flags && flags[k];
    }
  }

  /** `inputStyle(name).borderColor`: invalid wins over focused, focused over plain. */
  function BorderColor(invalid: map<string, bool>, focused: Option<string>, name: string): (r: string)
    ensures name in invalid && invalid[name] ==> r == InvalidBorder
    ensures !(name in invalid && invalid[name]) && focused == Some(name) ==> r == FocusedBorder
    ensures !(name in invalid && invalid[name]) && focused != Some(name) ==> r == PlainBorder
  {
    if name in invalid && invalid[name] then InvalidBorder
    else if focused == Some(name) then FocusedBorder
    else PlainBorder
  }

  /** After a rejected submission every blank required field is drawn red, whatever has focus. */
  lemma BlankFieldsShowRed(data: map<string, string>, required: seq<string>, focused: Option<string>, k: string)
    requires k in required && IsBlank(data, k)
    ensures BorderColor(InvalidFlags(data, required), focused, k) == InvalidBorder
  {
  }

  /**
   * A login or registration screen. `required` lists its fields, each of which
   * the check at the start of the submit handler requires to be non-empty.
   */
  class FormScreen {
    const required: seq<string>
    var formData: map<string, string>
    var invalidFields: map<string, bool>
    var focusedInput: Option<string>
    var error: Option<string>
    var loading: bool

    /** Mount: every field empty, nothing flagged or focused, no error, not loading. */
    constructor (fields: seq<string>)
      ensures required == fields
      ensures formData == map k | k in fields :: ""
      ensures invalidFields == map[] && focusedInput == None && error == None && !loading
    {
      required := fields;
      formData := map k | k in fields :: "";
      invalidFields := map[];
      focusedInput := None;
      error := None;
      loading := false;
    }

    /** `handleChange(name, value)`: the field takes the value and loses its invalid flag. */
    method HandleChange(name: string, value: string)
      modifies this
      ensures formData == old(formData)[name := value]
      ensures invalidFields == old(invalidFields)[name := false]
      ensures focusedInput == old(focusedInput) && error == old(error) && loading == old(loading)
    {
      formData := formData[name := value];
      invalidFields := invalidFields[name := false];
    }

    method HandleFocus(input: string)
      modifies this
      ensures focusedInput == Some(input)
      ensures formData == old(formData) && invalidFields == old(invalidFields)
      ensures error == old(error) && loading == old(loading)
    {
      focusedInput := Some(input);
    }

    method HandleBlur()
      modifies this
      ensures focusedInput == None
      ensures formData == old(formData) && invalidFields == old(invalidFields)
      ensures error == old(error) && loading == old(loading)
    {
      focusedInput := None;
    }

    /**
     * A press on the submit button, up to the request: ignored while loading
     * (the button is disabled); otherwise the flags are recomputed, and a blank
     * field sets the error and stops before anything is sent, while a complete
     * form sets `loading` and is sent as the request body.
     */
    method PressSubmit() returns (request: Option<map<string, string>>)
      modifies this
      ensures old(loading) ==> request == None && unchanged(this)
      ensures !old(loading) ==> invalidFields == InvalidFlags(formData, required)
      ensures !old(loading) ==> (request.Some? <==> !AnyInvalid(InvalidFlags(formData, required)))
      ensures !old(loading) && request.None? ==> error == Some(FillInMessage) && loading == old(loading)
      ensures !old(loading) && request.Some? ==> request.value == formData && loading && error == old(error)
      ensures formData == old(formData) && focusedInput == old(focusedInput)
    {
      if loading {
        return None;
      }
      var flags := InvalidFlags(formData, required);
      invalidFields := flags;
      if AnyInvalid(flags) {
        error := Some(FillInMessage);
        return None;
      }
      loading := true;
      request := Some(formData);
    }

    /** The `finally` of the submit handler: whatever the response, loading ends. */
    method FinishSubmit()
      modifies this
      ensures !loading
      ensures formData == old(formData) && invalidFields == old(invalidFields)
      ensures focusedInput == old(focusedInput) && error == old(error)
    {
      loading := false;
    }
  }

  /** Editing a field to a non-empty value clears its flag and lets it pass the next check. */
  lemma EditedFieldPasses(data: map<string, string>, name: string, value: string)
    requires value != ""
    ensures !IsBlank(data[name := value], name)
    ensures forall k | k != name :: IsBlank(data[name := value], k) == IsBlank(data, k)
  {
  }
}
