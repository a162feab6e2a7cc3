/**
 * The add/edit form for a project: field edits, the technology and category
 * lists, validation into a per-field error map, and submit.
 */
module ProjectEditor {
  import opened Wrappers
  import opened JsStrings
  import opened TagList
  import opened Api

  /** The empty form used when no project is being edited. */
  const DEFAULT_DATA: ProjectData := ProjectData(None, "", "", "", [], [])

  /** The keys of the error map: the names of the project's properties. */
  datatype Key = TitleKey | DescriptionKey | ImageKey | TechnologiesKey | CategoryKey

  /** The messages `validate` stores under a rejected field. */
  const TITLE_REQUIRED := "Title is required"
  const DESCRIPTION_REQUIRED := "Description is required"
  const IMAGE_REQUIRED := "Image URL is required"
  const TECHNOLOGIES_REQUIRED := "At least one technology is required"
  const CATEGORY_REQUIRED := "At least one category is required"

  /** The message shown under a rejected field. */
  function Message(key: Key): string {
    match key
    case TitleKey => TITLE_REQUIRED
    case DescriptionKey => DESCRIPTION_REQUIRED
    case ImageKey => IMAGE_REQUIRED
    case TechnologiesKey => TECHNOLOGIES_REQUIRED
    case CategoryKey => CATEGORY_REQUIRED
  }

  /** The rule each field must meet, by error key: blank text (`!x.trim()`), an empty list. */
  predicate Missing(data: ProjectData, key: Key) {
    match key
    case TitleKey => IsBlank(data.title)
    case DescriptionKey => IsBlank(data.description)
    case ImageKey => IsBlank(data.image)
    case TechnologiesKey => |data.technologies| == 0
    case CategoryKey => |data.category| == 0
  }

  /** The error map validation should produce: one message per violated rule. */
  function ExpectedErrors(data: ProjectData): map<Key, string> {
    map key | Missing(data, key) :: Message(key)
  }

  /** A project the form lets through: every rule met. */
  predicate Submittable(data: ProjectData) {
    forall key :: !Missing(data, key)
  }

  /** `validate`'s `newErrors`, filled in one field at a time; submit is allowed iff it stays empty. */
  method CollectErrors(data: ProjectData) returns (newErrors: map<Key, string>)
    ensures newErrors == ExpectedErrors(data)
    ensures newErrors == map[] <==> Submittable(data)
  {
    var titleMissing := TrimsToEmpty(data.title);
    var descriptionMissing := TrimsToEmpty(data.description);
    var imageMissing := TrimsToEmpty(data.image);
    newErrors := map[];
    if titleMissing {
      newErrors := newErrors[TitleKey := TITLE_REQUIRED];
    }
    if descriptionMissing {
      newErrors := newErrors[DescriptionKey := DESCRIPTION_REQUIRED];
    }
    if imageMissing {
      newErrors := newErrors[ImageKey := IMAGE_REQUIRED];
    }
    if |data.technologies| == 0 {
      newErrors := newErrors[TechnologiesKey := TECHNOLOGIES_REQUIRED];
    }
    if |data.category| == 0 {
      newErrors := newErrors[CategoryKey := CATEGORY_REQUIRED];
    }
    ErrorsExtensional(newErrors, data);
  }

  /** A map that agrees with the rules key by key is the expected error map. */
  lemma ErrorsExtensional(m: map<Key, string>, data: ProjectData)
    requires forall key :: key in m <==> Missing(data, key)
    requires forall key :: key in m ==> m[key] == Message(key)
    ensures m == ExpectedErrors(data)
    ensures m == map[] <==> Submittable(data)
  {
    var e := ExpectedErrors(data);
    assert m.Keys == e.Keys;
    if !Submittable(data) {
      var key :| Missing(data, key);
      assert key in m;
    }
  }

  /** The empty form fails validation on all five fields. */
  lemma DefaultDataRejected()
    ensures ExpectedErrors(DEFAULT_DATA).Keys == {TitleKey, DescriptionKey, ImageKey, TechnologiesKey, CategoryKey}
  {
  }

  /** The text inputs that go through `handleChange`, by their `name` attribute. */
  datatype Field = Title | Description | Image

  function FieldValue(data: ProjectData, field: Field): string {
    match field
    case Title => data.title
    case Description => data.description
    case Image => data.image
  }

  /** `{...formData, [name]: value}`: the named field takes the value, nothing else changes. */
  function WithField(data: ProjectData, field: Field, value: string): (d: ProjectData)
    ensures FieldValue(d, field) == value
    ensures forall g :: g != field ==> FieldValue(d, g) == FieldValue(data, g)
    ensures d.id == data.id && d.technologies == data.technologies && d.category == data.category
  {
    match field
    case Title => data.(title := value)
    case Description => data.(description := value)
    case Image => data.(image := value)
  }

  /** `ProjectForm`'s state: the project being edited, the two list inputs and the error map. */
  class ProjectForm {
    var formData: ProjectData
    var techInput: string
    var categoryInput: string
    var errors: map<Key, string>

    /** `useState(initialData || defaultData)` and empty inputs and errors. */
    constructor (initialData: Option<ProjectData>)
      ensures formData == initialData.GetOr(DEFAULT_DATA)
      ensures techInput == "" && categoryInput == "" && errors == map[]
    {
      formData := initialData.GetOr(DEFAULT_DATA);
      techInput, categoryInput := "", "";
      errors := map[];
    }

    /** The effect on `initialData`: a given project replaces the form data, an absent one changes nothing. */
    method SyncInitialData(initialData: Option<ProjectData>)
      modifies this
      ensures formData == initialData.GetOr(old(formData))
      ensures techInput == old(techInput) && categoryInput == old(categoryInput) && errors == old(errors)
    {
      if initialData.Some? {
        formData := initialData.value;
      }
    }

    /** `handleChange`: only the named field changes. */
    method HandleChange(field: Field, value: string)
      modifies this
      ensures formData == WithField(old(formData), field, value)
      ensures techInput == old(techInput) && categoryInput == old(categoryInput) && errors == old(errors)
    {
      formData := WithField(formData, field, value);
    }

    /** The technology input's `onChange`. */
    method SetTechInput(value: string)
      modifies this
      ensures techInput == value
      ensures formData == old(formData) && categoryInput == old(categoryInput) && errors == old(errors)
    {
      techInput := value;
    }

    /** The category input's `onChange`. */
    method SetCategoryInput(value: string)
      modifies this
      ensures categoryInput == value
      ensures formData == old(formData) && techInput == old(techInput) && errors == old(errors)
    {
      categoryInput := value;
    }

    /** `handleAddTechnology`: a trimmed, non-empty, new technology is appended and the box cleared. */
    method HandleAddTechnology()
      modifies this
      ensures var e := AddUnique(old(formData.technologies), old(techInput));
        formData == old(formData).(technologies := e.list) && techInput == e.input
      ensures categoryInput == old(categoryInput) && errors == old(errors)
    {
      var t := Trim(techInput);
      if t != "" && t !in formData.technologies {
        formData := formData.(technologies := formData.technologies + [t]);
        techInput := "";
      }
    }

    /** `handleRemoveTechnology`: every entry equal to `tech` goes. */
    method HandleRemoveTechnology(tech: string)
      modifies this
      ensures formData == old(formData).(technologies := RemoveAll(old(formData.technologies), tech))
      ensures techInput == old(techInput) && categoryInput == old(categoryInput) && errors == old(errors)
    {
      formData := formData.(technologies := RemoveAll(formData.technologies, tech));
    }

    /** `handleAddCategory`: a trimmed, non-empty, new category is appended and the box cleared. */
    method HandleAddCategory()
      modifies this
      ensures var e := AddUnique(old(formData.category), old(categoryInput));
        formData == old(formData).(category := e.list) && categoryInput == e.input
      ensures techInput == old(techInput) && errors == old(errors)
    {
      var c := Trim(categoryInput);
      if c != "" && c !in formData.category {
        formData := formData.(category := formData.category + [c]);
        categoryInput := "";
      }
    }

    /** `handleRemoveCategory`: every entry equal to `cat` goes. */
    method HandleRemoveCategory(cat: string)
      modifies this
      ensures formData == old(formData).(category := RemoveAll(old(formData.category), cat))
      ensures techInput == old(techInput) && categoryInput == old(categoryInput) && errors == old(errors)
    {
      formData := formData.(category := RemoveAll(formData.category, cat));
    }

    /** `validate`: store the error map and report whether it is empty. */
    method Validate() returns (ok: bool)
      modifies this
      ensures errors == ExpectedErrors(formData)
      ensures ok <==> Submittable(formData)
      ensures formData == old(formData) && techInput == old(techInput) && categoryInput == old(categoryInput)
    {
      var newErrors := CollectErrors(formData);
      errors := newErrors;
      ok := |newErrors| == 0;
    }

    /** `handleSubmit`: `onSubmit` receives the current form data exactly when validation passes. */
    method HandleSubmit() returns (submitted: Option<ProjectData>)
      modifies this
      ensures errors == ExpectedErrors(formData)
      ensures submitted == if Submittable(formData) then Some(formData) else None
      ensures formData == old(formData) && techInput == old(techInput) && categoryInput == old(categoryInput)
    {
      var ok := Validate();
      submitted := if ok then Some(formData) else None;
    }
  }
}
