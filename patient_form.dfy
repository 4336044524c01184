/** `PatientForm` (src/components/PatientForm.tsx): the create/edit form, its
    validator, the "add custom field" sub-dialog and the submit rule. */
module Form {
  import opened Text
  import opened Records

  const NameRequired := "Name is required"
  const IdRequired := "Valid id is required"
  const WebsiteRequired := "Website URL is required"
  const DescriptionRequired := "Description is required"
  const FieldNameRequired := "Field Name is required"

  /** The message for a field that trims to nothing. */
  function RequiredMessage(key: string): string {
    Capitalise(key) + " is required"
  }

  /** JavaScript truthiness of `formData[key]`: present and not `''`. */
  predicate Truthy(v: Option<string>) {
    v.Some? && v.value != ""
  }

  /** The four fixed checks: emptiness only, no trimming. */
  function FixedError(form: Record, key: string): Option<string> {
    if key == "name" && !Truthy(Get(form, "name")) then Some(NameRequired)
    else if key == "id" && !Truthy(Get(form, "id")) then Some(IdRequired)
    else if key == "website" && !Truthy(Get(form, "website")) then Some(WebsiteRequired)
    else if key == "description" && !Truthy(Get(form, "description")) then Some(DescriptionRequired)
    else None
  }

  /** Edit mode asks every key of `initialData` to be present in `formData`
      (the component starts `formData` as `initialData` and only adds keys). */
  predicate Covers(form: Record, initial: Option<Record>) {
    initial.Some? ==> forall k :: k in initial.value.values ==> k in form.values
  }

  /** The error `validateForm` leaves for `key`: a later check overrides an
      earlier one, so an additional field beats a field of `initialData`,
      which beats the fixed checks. */
  function ExpectedError(form: Record, initial: Option<Record>, extra: Record, key: string): Option<string>
    requires Covers(form, initial)
  {
    if key in extra.values && IsBlank(extra.values[key]) then Some(RequiredMessage(key))
    else if initial.Some? && key in initial.value.values && IsBlank(form.values[key]) then Some(RequiredMessage(key))
    else FixedError(form, key)
  }

  /** The error map as a whole: only the four fixed keys, the keys of
      `initialData` and the additional fields can carry an error. */
  function Validation(form: Record, initial: Option<Record>, extra: Record): (errors: map<string, string>)
    requires Covers(form, initial)
    ensures forall k :: Lookup(errors, k) == ExpectedError(form, initial, extra, k)
  {
    var candidates := {"name", "id", "website", "description"} + extra.values.Keys
      + (if initial.Some? then initial.value.values.Keys else {});
    map k | k in candidates && ExpectedError(form, initial, extra, k).Some? :: ExpectedError(form, initial, extra, k).value
  }

  /** `Object.keys(initialData)`, none in create mode. */
  function InitialKeys(initial: Option<Record>): seq<string> {
    if initial.Some? then initial.value.keys else []
  }

  /** The state of `validateForm` after its four fixed checks and the first
      `done` keys of `initialData`. */
  function AfterInitialKeys(form: Record, done: seq<string>, key: string): Option<string>
    requires forall k :: k in done ==> k in form.values
  {
    if key in done && IsBlank(form.values[key]) then Some(RequiredMessage(key)) else FixedError(form, key)
  }

  /** The state of `validateForm` after the whole first loop and the first
      `done` additional fields. */
  function AfterExtraKeys(form: Record, initialKeys: seq<string>, extra: Record, done: seq<string>, key: string): Option<string>
    requires forall k :: k in initialKeys ==> k in form.values
  {
    if key in done && key in extra.values && IsBlank(extra.values[key]) then Some(RequiredMessage(key))
    else AfterInitialKeys(form, initialKeys, key)
  }

  /** `validateForm`: the four fixed checks, then one loop over the keys of
      `initialData` and one over the additional fields, each writing into
      `newErrors` key by key. */
  method ValidateForm(form: Record, initial: Option<Record>, extra: Record) returns (newErrors: map<string, string>)
    requires Covers(form, initial)
    ensures newErrors == Validation(form, initial, extra)
  {
    newErrors := map[];
    if !Truthy(Get(form, "name")) { newErrors := newErrors["name" := NameRequired]; }
    if !Truthy(Get(form, "id")) { newErrors := newErrors["id" := IdRequired]; }
    if !Truthy(Get(form, "website")) { newErrors := newErrors["website" := WebsiteRequired]; }
    if !Truthy(Get(form, "description")) { newErrors := newErrors["description" := DescriptionRequired]; }
    FixedChecks(form, newErrors);
    var initialKeys := InitialKeys(initial);
    var i := 0;
    while i < |initialKeys|
      invariant 0 <= i <= |initialKeys|
      invariant forall k :: Lookup(newErrors, k) == AfterInitialKeys(form, initialKeys[..i], k)
    {
      var key := initialKeys[i];
      ghost var before := newErrors;
      if IsBlank(form.values[key]) {
        newErrors := newErrors[key := RequiredMessage(key)];
      }
      InitialKeyStep(form, initialKeys, i, before, newErrors);
      i := i + 1;
    }
    assert initialKeys[..i] == initialKeys;
    var j := 0;
    while j < |extra.keys|
      invariant 0 <= j <= |extra.keys|
      invariant forall k :: Lookup(newErrors, k) == AfterExtraKeys(form, initialKeys, extra, extra.keys[..j], k)
    {
      var key := extra.keys[j];
      ghost var before := newErrors;
      if IsBlank(extra.values[key]) {
        newErrors := newErrors[key := RequiredMessage(key)];
      }
      ExtraKeyStep(form, initialKeys, extra, j, before, newErrors);
      j := j + 1;
    }
    assert extra.keys[..j] == extra.keys;
    ValidationFromSteps(form, initial, extra, newErrors);
  }

  /** The four fixed checks leave exactly the fixed errors. */
  lemma FixedChecks(form: Record, errors: map<string, string>)
    requires errors == FixedErrorMap(form)
    ensures forall k :: Lookup(errors, k) == FixedError(form, k)
  {
  }

  /** The map the four fixed checks build, one `if` after another. */
  function FixedErrorMap(form: Record): map<string, string> {
    var m1 := if !Truthy(Get(form, "name")) then map["name" := NameRequired] else map[];
    var m2 := if !Truthy(Get(form, "id")) then m1["id" := IdRequired] else m1;
    var m3 := if !Truthy(Get(form, "website")) then m2["website" := WebsiteRequired] else m2;
    if !Truthy(Get(form, "description")) then m3["description" := DescriptionRequired] else m3
  }

  /** One turn of the loop over `initialData`'s keys keeps its invariant. */
  lemma InitialKeyStep(form: Record, keys: seq<string>, i: nat, before: map<string, string>, after: map<string, string>)
    requires i < |keys| && forall k :: k in keys ==> k in form.values
    requires forall k :: Lookup(before, k) == AfterInitialKeys(form, keys[..i], k)
    requires after == if IsBlank(form.values[keys[i]]) then before[keys[i] := RequiredMessage(keys[i])] else before
    ensures forall k :: Lookup(after, k) == AfterInitialKeys(form, keys[..i + 1], k)
  {
    assert keys[..i + 1] == keys[..i] + [keys[i]];
    forall k ensures Lookup(after, k) == AfterInitialKeys(form, keys[..i + 1], k) {
      if k != keys[i] {
        assert Lookup(after, k) == Lookup(before, k);
        assert (k in keys[..i + 1]) == (k in keys[..i]);
      }
    }
  }

  /** One turn of the loop over the additional fields keeps its invariant. */
  lemma ExtraKeyStep(form: Record, initialKeys: seq<string>, extra: Record, j: nat,
                     before: map<string, string>, after: map<string, string>)
    requires j < |extra.keys| && forall k :: k in initialKeys ==> k in form.values
    requires forall k :: Lookup(before, k) == AfterExtraKeys(form, initialKeys, extra, extra.keys[..j], k)
    requires after == if IsBlank(extra.values[extra.keys[j]])
      then before[extra.keys[j] := RequiredMessage(extra.keys[j])] else before
    ensures forall k :: Lookup(after, k) == AfterExtraKeys(form, initialKeys, extra, extra.keys[..j + 1], k)
  {
    var key := extra.keys[j];
    assert extra.keys[..j + 1] == extra.keys[..j] + [key];
    forall k ensures Lookup(after, k) == AfterExtraKeys(form, initialKeys, extra, extra.keys[..j + 1], k) {
      if k != key {
        assert Lookup(after, k) == Lookup(before, k);
        assert (k in extra.keys[..j + 1]) == (k in extra.keys[..j]);
      }
    }
  }

  /** The map both loops leave behind is the one `Validation` describes. */
  lemma ValidationFromSteps(form: Record, initial: Option<Record>, extra: Record, errors: map<string, string>)
    requires Covers(form, initial)
    requires forall k :: Lookup(errors, k) == AfterExtraKeys(form, InitialKeys(initial), extra, extra.keys, k)
    ensures errors == Validation(form, initial, extra)
  {
    var v := Validation(form, initial, extra);
    forall k ensures Lookup(errors, k) == Lookup(v, k) {
      assert Lookup(v, k) == ExpectedError(form, initial, extra, k);
    }
    LookupExtensional(errors, v);
  }

  /** Each fixed key gets its fixed message exactly when its value is missing or
      `''`, provided neither `initialData` nor an additional field names it. */
  lemma FixedMessages(form: Record, extra: Record)
    requires "name" !in extra.values && "id" !in extra.values
    requires "website" !in extra.values && "description" !in extra.values
    ensures var errors := Validation(form, None, extra);
      && (("name" in errors) <==> !Truthy(Get(form, "name")))
      && ("name" in errors ==> errors["name"] == "Name is required")
      && (("id" in errors) <==> !Truthy(Get(form, "id")))
      && ("id" in errors ==> errors["id"] == "Valid id is required")
      && (("website" in errors) <==> !Truthy(Get(form, "website")))
      && ("website" in errors ==> errors["website"] == "Website URL is required")
      && (("description" in errors) <==> !Truthy(Get(form, "description")))
      && ("description" in errors ==> errors["description"] == "Description is required")
  {
    var errors := Validation(form, None, extra);
    assert Lookup(errors, "name") == FixedError(form, "name");
    assert Lookup(errors, "id") == FixedError(form, "id");
    assert Lookup(errors, "website") == FixedError(form, "website");
    assert Lookup(errors, "description") == FixedError(form, "description");
  }

  /** In create mode any non-empty name made only of whitespace passes: the
      fixed check does not trim. With the other three fixed fields filled and
      no additional fields, such a form has no error at all. */
  lemma CreateModeAcceptsBlankName(form: Record, extra: Record)
    requires "name" in form.values && form.values["name"] != "" && IsBlank(form.values["name"])
    requires "name" !in extra.values
    ensures "name" !in Validation(form, None, extra)
    ensures (extra == Empty && Truthy(Get(form, "id")) && Truthy(Get(form, "website"))
             && Truthy(Get(form, "description"))) ==> Validation(form, None, extra) == map[]
  {
    var errors := Validation(form, None, extra);
    assert Lookup(errors, "name") == ExpectedError(form, None, extra, "name");
    if extra == Empty && Truthy(Get(form, "id")) && Truthy(Get(form, "website")) && Truthy(Get(form, "description")) {
      LookupExtensional(errors, map[]);
    }
  }

  /** In edit mode a field of `initialData` that trims to nothing gets the
      capitalised-key message, which replaces the fixed one, whatever the
      additional fields hold: a blank additional field of the same key writes
      the same message and a filled one writes nothing. */
  lemma EditModeOverridesFixedMessage(form: Record, initial: Record, extra: Record, key: string)
    requires Covers(form, Some(initial))
    requires key in initial.values
    requires IsBlank(form.values[key])
    ensures Lookup(Validation(form, Some(initial), extra), key) == Some(Capitalise(key) + " is required")
  {
    var errors := Validation(form, Some(initial), extra);
    assert Lookup(errors, key) == ExpectedError(form, Some(initial), extra, key);
  }

  /** So a blank `id` in edit mode reads "Id is required", not "Valid id is required". */
  lemma EditModeBlankId(form: Record, initial: Record, extra: Record)
    requires Covers(form, Some(initial))
    requires "id" in initial.values && IsBlank(form.values["id"])
    ensures Lookup(Validation(form, Some(initial), extra), "id") == Some("Id is required")
  {
    EditModeOverridesFixedMessage(form, initial, extra, "id");
    IdMessage();
  }

  /** The capitalised-key message for `id`. */
  lemma IdMessage()
    ensures Capitalise("id") + " is required" == "Id is required"
  {
    assert Capitalise("id") == "Id";
  }

  /** Every additional field whose value trims to nothing gets the
      capitalised-key message, whatever else the form holds. */
  lemma BlankAdditionalFieldFlagged(form: Record, initial: Option<Record>, extra: Record, key: string)
    requires Covers(form, initial)
    requires key in extra.values && IsBlank(extra.values[key])
    ensures Lookup(Validation(form, initial, extra), key) == Some(Capitalise(key) + " is required")
  {
    assert Lookup(Validation(form, initial, extra), key) == ExpectedError(form, initial, extra, key);
  }

  /** A custom field that was added (holding `''`) and never filled in blocks
      the submit and carries its own error. */
  lemma BlankFieldBlocksSubmit(form: Record, initial: Option<Record>, extra: Record, key: string)
    requires Covers(form, initial)
    requires Get(extra, key) == Some("")
    ensures Lookup(Validation(form, initial, extra), key) == Some(Capitalise(key) + " is required")
    ensures SubmitResult(Validation(form, initial, extra), form, extra) == None
  {
    assert IsBlank("");
    BlankAdditionalFieldFlagged(form, initial, extra, key);
  }

  /** The submit rule: block on any error, otherwise hand on `formData` with
      the additional fields spread over it. */
  function SubmitResult(errors: map<string, string>, form: Record, extra: Record): (submitted: Option<Record>)
    ensures submitted.Some? <==> errors == map[]
    ensures submitted.Some? ==> submitted.value.values == form.values + extra.values
  {
    if |errors| > 0 then None else Some(Merge(form, extra))
  }

  /** The record a create-mode form starts from: empty id, name and description. */
  const BlankForm: Record := Dict(["id", "name", "description"], map["id" := "", "name" := "", "description" := ""])

  class PatientForm {
    const initialData: Option<Record>
    var formData: Record
    var additionalFields: Record
    var errors: map<string, string>
    /** The "add field" sub-dialog. */
    var isModalOpen: bool
    var newFieldName: string
    var modalError: Option<string>

    ghost predicate Valid()
      reads this
    {
      Covers(formData, initialData)
    }

    /** The form mounts each time its modal opens, from `initialData`. */
    constructor (initialData: Option<Record>)
      ensures Valid() && this.initialData == initialData
      ensures formData == if initialData.Some? then initialData.value else BlankForm
      ensures additionalFields == Empty && errors == map[]
      ensures !isModalOpen && newFieldName == "" && modalError == None
    {
      this.initialData := initialData;
      formData := if initialData.Some? then initialData.value else BlankForm;
      additionalFields := Empty;
      errors := map[];
      isModalOpen := false;
      newFieldName := "";
      modalError := None;
    }

    /** `handleInputChange`: sets one key of `formData`. */
    method HandleInputChange(name: string, value: string)
      requires Valid()
      modifies this`formData
      ensures Valid()
      ensures formData == Put(old(formData), name, value)
      ensures Get(formData, name) == Some(value)
      ensures forall k :: k != name ==> Get(formData, k) == Get(old(formData), k)
    {
      formData := Put(formData, name, value);
    }

    /** `handleAdditionalFieldChange`: sets one key of `additionalFields`. */
    method HandleAdditionalFieldChange(name: string, value: string)
      modifies this`additionalFields
      ensures additionalFields == Put(old(additionalFields), name, value)
    {
      additionalFields := Put(additionalFields, name, value);
    }

    /** `handleAddField`: opens the sub-dialog. */
    method HandleAddField()
      modifies this`isModalOpen
      ensures isModalOpen
    {
      isModalOpen := true;
    }

    /** The sub-dialog's input `onChange`. */
    method SetNewFieldName(value: string)
      modifies this`newFieldName
      ensures newFieldName == value
    {
      newFieldName := value;
    }

    /** The sub-dialog's close button. */
    method CloseFieldModal()
      modifies this`isModalOpen
      ensures !isModalOpen
    {
      isModalOpen := false;
    }

    /** `handleModalSubmit`: a name that trims to nothing only sets the error;
        otherwise the untrimmed name becomes an additional field holding `''`
        and the dialog closes and clears. */
    method HandleModalSubmit()
      modifies this`additionalFields, this`isModalOpen, this`newFieldName, this`modalError
      ensures IsBlank(old(newFieldName)) ==>
        && modalError == Some(FieldNameRequired)
        && additionalFields == old(additionalFields)
        && isModalOpen == old(isModalOpen) && newFieldName == old(newFieldName)
      ensures !IsBlank(old(newFieldName)) ==>
        && additionalFields == Put(old(additionalFields), old(newFieldName), "")
        && !isModalOpen && newFieldName == "" && modalError == None
    {
      if IsBlank(newFieldName) {
        modalError := Some(FieldNameRequired);
        return;
      }
      additionalFields := Put(additionalFields, newFieldName, "");
      isModalOpen := false;
      newFieldName := "";
      modalError := None;
    }

    /** `handleSubmit`: stores the validation result and returns the record
        passed to `onSubmit`, if it is called. */
    method HandleSubmit() returns (submitted: Option<Record>)
      requires Valid()
      modifies this`errors
      ensures errors == Validation(formData, initialData, additionalFields)
      ensures submitted == SubmitResult(errors, formData, additionalFields)
    {
      var validationErrors := ValidateForm(formData, initialData, additionalFields);
      errors := validationErrors;
      if |validationErrors| > 0 {
        return None;
      }
      var newFormData := Merge(formData, additionalFields);
      submitted := Some(newFormData);
    }
  }
}
