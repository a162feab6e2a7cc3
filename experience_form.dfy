/**
 * The add/edit form for an experience entry: field edits, the technology and
 * description-point lists, validation into a per-field error map, and submit.
 */
module ExperienceEditor {
  import opened Wrappers
  import opened JsStrings
  import opened TagList
  import opened Api

  /** The empty form used when no entry is being edited. */
  const DEFAULT_DATA: ExperienceData := ExperienceData(None, "", "", "", [], [], "")

  /** The keys of the error map: the names of the entry's properties. */
  datatype Key = TitleKey | CompanyKey | DurationKey | DescriptionKey | TechnologiesKey | ImageKey

  /** The messages `validate` stores under a rejected field. */
  const TITLE_REQUIRED := "Title is required"
  const COMPANY_REQUIRED := "Company is required"
  const DURATION_REQUIRED := "Duration is required"
  const DESCRIPTION_REQUIRED := "At least one description point is required"
  const TECHNOLOGIES_REQUIRED := "At least one technology is required"

  /** The message shown under a rejected field; the image is never rejected. */
  function Message(key: Key): string {
    match key
    case TitleKey => TITLE_REQUIRED
    case CompanyKey => COMPANY_REQUIRED
    case DurationKey => DURATION_REQUIRED
    case DescriptionKey => DESCRIPTION_REQUIRED
    case TechnologiesKey => TECHNOLOGIES_REQUIRED
    case ImageKey => ""
  }

  /** The rule each validated field must meet, by error key: blank text (`!x.trim()`), an empty list. */
  predicate Missing(data: ExperienceData, key: Key) {
    match key
    case TitleKey => IsBlank(data.title)
    case CompanyKey => IsBlank(data.company)
    case DurationKey => IsBlank(data.duration)
    case DescriptionKey => |data.description| == 0
    case TechnologiesKey => |data.technologies| == 0
    case ImageKey => false
  }

  /** The error map validation should produce: one message per violated rule. */
  function ExpectedErrors(data: ExperienceData): map<Key, string> {
    map key | Missing(data, key) :: Message(key)
  }

  /** An entry the form lets through: every rule met. */
  predicate Submittable(data: ExperienceData) {
    forall key :: !Missing(data, key)
  }

  /** `validate`'s `newErrors`, filled in one field at a time; submit is allowed iff it stays empty. */
  method CollectErrors(data: ExperienceData) returns (newErrors: map<Key, string>)
    ensures newErrors == ExpectedErrors(data)
    ensures newErrors == map[] <==> Submittable(data)
  {
    var titleMissing := TrimsToEmpty(data.title);
    var companyMissing := TrimsToEmpty(data.company);
    var durationMissing := TrimsToEmpty(data.duration);
    newErrors := map[];
    if titleMissing {
      newErrors := newErrors[TitleKey := TITLE_REQUIRED];
    }
    if companyMissing {
      newErrors := newErrors[CompanyKey := COMPANY_REQUIRED];
    }
    if durationMissing {
      newErrors := newErrors[DurationKey := DURATION_REQUIRED];
    }
    if |data.description| == 0 {
      newErrors := newErrors[DescriptionKey := DESCRIPTION_REQUIRED];
    }
    if |data.technologies| == 0 {
      newErrors := newErrors[TechnologiesKey := TECHNOLOGIES_REQUIRED];
    }
    ErrorsExtensional(newErrors, data);
  }

  /** A map that agrees with the rules key by key is the expected error map. */
  lemma ErrorsExtensional(m: map<Key, string>, data: ExperienceData)
    requires forall key :: key in m <==> Missing(data, key)
    requires forall key :: key in m ==> m[key] == Message(key)
    ensures m == ExpectedErrors(data)
    ensures m == map[] <==> Submittable(data)
  {
    var e := ExpectedErrors(data);
    assert m.Keys == e.Keys;
    if !Submittable(data) {
      var key :| Missing(data, key);
      assert key in m;
    }
  }

  /** The empty form fails validation on every field except the image. */
  lemma DefaultDataRejected()
    ensures ExpectedErrors(DEFAULT_DATA).Keys == {TitleKey, CompanyKey, DurationKey, DescriptionKey, TechnologiesKey}
  {
  }

  /** The text inputs that go through `handleChange`, by their `name` attribute. */
  datatype Field = Title | Company | Duration | Image

  function FieldValue(data: ExperienceData, field: Field): string {
    match field
    case Title => data.title
    case Company => data.company
    case Duration => data.duration
    case Image => data.image
  }

  /** `{...formData, [name]: value}`: the named field takes the value, nothing else changes. */
  function WithField(data: ExperienceData, field: Field, value: string): (d: ExperienceData)
    ensures FieldValue(d, field) == value
    ensures forall g :: g != field ==> FieldValue(d, g) == FieldValue(data, g)
    ensures d.id == data.id && d.description == data.description && d.technologies == data.technologies
  {
    match field
    case Title => data.(title := value)
    case Company => data.(company := value)
    case Duration => data.(duration := value)
    case Image => data.(image := value)
  }

  /** `ExperienceForm`'s state: the entry being edited, the two list inputs and the error map. */
  class ExperienceForm {
    var formData: ExperienceData
    var techInput: string
    var descriptionInput: string
    var errors: map<Key, string>

    /** `useState(initialData || defaultData)` and empty inputs and errors. */
    constructor (initialData: Option<ExperienceData>)
      ensures formData == initialData.GetOr(DEFAULT_DATA)
      ensures techInput == "" && descriptionInput == "" && errors == map[]
    {
      formData := initialData.GetOr(DEFAULT_DATA);
      techInput, descriptionInput := "", "";
      errors := map[];
    }

    /** The effect on `initialData`: a given entry replaces the form data, an absent one changes nothing. */
    method SyncInitialData(initialData: Option<ExperienceData>)
      modifies this
      ensures formData == initialData.GetOr(old(formData))
      ensures techInput == old(techInput) && descriptionInput == old(descriptionInput) && errors == old(errors)
    {
      if initialData.Some? {
        formData := initialData.value;
      }
    }

    /** `handleChange`: only the named field changes. */
    method HandleChange(field: Field, value: string)
      modifies this
      ensures formData == WithField(old(formData), field, value)
      ensures techInput == old(techInput) && descriptionInput == old(descriptionInput) && errors == old(errors)
    {
      formData := WithField(formData, field, value);
    }

    /** The technology input's `onChange`. */
    method SetTechInput(value: string)
      modifies this
      ensures techInput == value
      ensures formData == old(formData) && descriptionInput == old(descriptionInput) && errors == old(errors)
    {
      techInput := value;
    }

    /** The description input's `onChange`. */
    method SetDescriptionInput(value: string)
      modifies this
      ensures descriptionInput == value
      ensures formData == old(formData) && techInput == old(techInput) && errors == old(errors)
    {
      descriptionInput := value;
    }

    /** `handleAddTechnology`: a trimmed, non-empty, new technology is appended and the box cleared. */
    method HandleAddTechnology()
      modifies this
      ensures var e := AddUnique(old(formData.technologies), old(techInput));
        formData == old(formData).(technologies := e.list) && techInput == e.input
      ensures descriptionInput == old(descriptionInput) && errors == old(errors)
    {
      var t := Trim(techInput);
      if t != "" && t !in formData.technologies {
        formData := formData.(technologies := formData.technologies + [t]);
        techInput := "";
      }
    }

    /** `handleRemoveTechnology`: every entry equal to `tech` goes. */
    method HandleRemoveTechnology(tech: string)
      modifies this
      ensures formData == old(formData).(technologies := RemoveAll(old(formData.technologies), tech))
      ensures techInput == old(techInput) && descriptionInput == old(descriptionInput) && errors == old(errors)
    {
      formData := formData.(technologies := RemoveAll(formData.technologies, tech));
    }

    /** `handleAddDescription`: a trimmed, non-empty point is appended (repeats allowed) and the box cleared. */
    method HandleAddDescription()
      modifies this
      ensures var e := AddNonBlank(old(formData.description), old(descriptionInput));
        formData == old(formData).(description := e.list) && descriptionInput == e.input
      ensures techInput == old(techInput) && errors == old(errors)
    {
      var d := Trim(descriptionInput);
      if d != "" {
        formData := formData.(description := formData.description + [d]);
        descriptionInput := "";
      }
    }

    /** `handleRemoveDescription`: every point equal to `desc` goes. */
    method HandleRemoveDescription(desc: string)
      modifies this
      ensures formData == old(formData).(description := RemoveAll(old(formData.description), desc))
      ensures techInput == old(techInput) && descriptionInput == old(descriptionInput) && errors == old(errors)
    {
      formData := formData.(description := RemoveAll(formData.description, desc));
    }

    /** `validate`: store the error map and report whether it is empty. */
    method Validate() returns (ok: bool)
      modifies this
      ensures errors == ExpectedErrors(formData)
      ensures ok <==> Submittable(formData)
      ensures formData == old(formData) && techInput == old(techInput) && descriptionInput == old(descriptionInput)
    {
      var newErrors := CollectErrors(formData);
      errors := newErrors;
      ok := |newErrors| == 0;
    }

    /** `handleSubmit`: `onSubmit` receives the current form data exactly when validation passes. */
    method HandleSubmit() returns (submitted: Option<ExperienceData>)
      modifies this
      ensures errors == ExpectedErrors(formData)
      ensures submitted == if Submittable(formData) then Some(formData) else None
      ensures formData == old(formData) && techInput == old(techInput) && descriptionInput == old(descriptionInput)
    {
      var ok := Validate();
      submitted := if ok then Some(formData) else None;
    }
  }
}
