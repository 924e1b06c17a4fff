/** The form of components/add-link-modal/index.tsx: a record of seven fields with fixed
    defaults, updated one field per change event, reset on close and handed unchanged to
    `onSubmit`; the submit button is disabled while loading or while title or link is empty. */
module AddLinkModal {
  import opened Common
  import opened ProjectsDto
  import Numbers

  /** The `type` of the element that raised a change event, as far as the value depends on it. */
  datatype InputType = Checkbox | NumberInput | OtherInput

  /** `e.target`: its `name`, `value`, `type` and, for a checkbox, `checked`. */
  datatype ChangeEvent = ChangeEvent(name: string, value: string, inputType: InputType, checked: bool)

  /** The value stored for an event: a checkbox stores its boolean, a number field stores
      `parseInt(value) || 0`, every other element stores the text it holds. */
  function FieldValue(e: ChangeEvent): (v: JsValue)
    ensures e.inputType == Checkbox ==> v == JsBool(e.checked)
    ensures e.inputType == NumberInput ==> v == JsNumber(Numbers.ParseIntOrZero(e.value))
    ensures e.inputType == OtherInput ==> v == JsString(e.value)
  {
    match e.inputType
    case Checkbox => JsBool(e.checked)
    case NumberInput => JsNumber(Numbers.ParseIntOrZero(e.value))
    case OtherInput => JsString(e.value)
  }

  /** A number field given a numeral stores that integer, and one given text without any
      digit stores 0. */
  lemma NumberFieldValue(e: ChangeEvent, n: int)
    requires e.inputType == NumberInput
    ensures e.value == Numbers.IntString(n) ==> FieldValue(e) == JsNumber(n)
    ensures (forall i :: 0 <= i < |e.value| ==> !Numbers.IsDecimalDigit(e.value[i])) ==> FieldValue(e) == JsNumber(0)
  {
    if e.value == Numbers.IntString(n) {
      Numbers.ParseIntOfIntString(n);
    }
    if forall i :: 0 <= i < |e.value| ==> !Numbers.IsDecimalDigit(e.value[i]) {
      Numbers.ParseIntWithoutDigits(e.value);
    }
  }

  /** The record both `useState` and `resetForm` start from. */
  const InitialForm: JsObject := map[
    "channel_name" := JsString(""),
    "title" := JsString(""),
    "body" := JsString(""),
    "link" := JsString(""),
    "is_fixed" := JsBool(true),
    "is_active" := JsBool(true),
    "project_material" := JsNumber(0)]

  /** The record after one change event: the named field holds the event's value, every other
      field is kept, and a name the record did not have is added. */
  function AfterChange(form: JsObject, e: ChangeEvent): (r: JsObject)
    ensures r.Keys == form.Keys + {e.name}
    ensures r[e.name] == FieldValue(e)
    ensures forall k :: k in form && k != e.name ==> r[k] == form[k]
  {
    form[e.name := FieldValue(e)]
  }

  /** The elements the modal renders, by name, and the input type of each: title (text),
      link (url), channel_name (select), body (textarea) and project_material (number). */
  predicate RenderedEvent(e: ChangeEvent)
  {
    && e.name in {"title", "link", "channel_name", "body", "project_material"}
    && e.inputType == (if e.name == "project_material" then NumberInput else OtherInput)
  }

  /** The shape of the record: the seven fields, the five texts as strings, the two flags as
      booleans and the material id as a number. */
  predicate WellShaped(form: JsObject)
  {
    && form.Keys == InitialForm.Keys
    && form["channel_name"].JsString? && form["title"].JsString? && form["body"].JsString?
    && form["link"].JsString? && form["is_fixed"].JsBool? && form["is_active"].JsBool?
    && form["project_material"].JsNumber?
  }

  /** Events from the rendered elements keep the record's shape and never touch the two
      flags, which no element of the modal names. */
  lemma RenderedEventKeepsShape(form: JsObject, e: ChangeEvent)
    requires WellShaped(form) && RenderedEvent(e)
    ensures WellShaped(AfterChange(form, e))
    ensures AfterChange(form, e)["is_fixed"] == form["is_fixed"]
    ensures AfterChange(form, e)["is_active"] == form["is_active"]
  {
  }

  /** After any run of rendered events from the initial record, both flags are still true. */
  lemma {:induction false} FlagsStayTrue(events: seq<ChangeEvent>)
    requires forall i :: 0 <= i < |events| ==> RenderedEvent(events[i])
    ensures WellShaped(ApplyAll(InitialForm, events))
    ensures ApplyAll(InitialForm, events)["is_fixed"] == JsBool(true)
    ensures ApplyAll(InitialForm, events)["is_active"] == JsBool(true)
  {
    if events != [] {
      var init := events[..|events| - 1];
      assert forall i :: 0 <= i < |init| ==> init[i] == events[i];
      FlagsStayTrue(init);
      RenderedEventKeepsShape(ApplyAll(InitialForm, init), events[|events| - 1]);
    }
  }

  /** The record after a run of change events, applied in order. */
  function ApplyAll(form: JsObject, events: seq<ChangeEvent>): JsObject
  {
    if events == [] then form
    else AfterChange(ApplyAll(form, events[..|events| - 1]), events[|events| - 1])
  }

  /** `loading || !formData.title || !formData.link`; a missing field counts as empty. */
  predicate SubmitDisabled(loading: bool, form: JsObject)
  {
    loading || !("title" in form && Truthy(form["title"])) || !("link" in form && Truthy(form["link"]))
  }

  /** On a well-shaped record the button is disabled exactly when loading or when the title
      or the link text is empty; the freshly opened form is therefore disabled. */
  lemma SubmitDisabledExactly(loading: bool, form: JsObject)
    requires WellShaped(form)
    ensures SubmitDisabled(loading, form) <==> loading || form["title"].s == "" || form["link"].s == ""
    ensures SubmitDisabled(loading, InitialForm)
  {
    assert "title" in InitialForm && InitialForm["title"] == JsString("");
  }

  /** What the modal hands to its parent. */
  datatype ModalEvent = Submitted(data: JsObject) | CloseRequested

  class AddLinkFormState {
    var formData: JsObject

    constructor ()
      ensures formData == InitialForm
    {
      formData := InitialForm;
    }

    /** `handleChange`. */
    method HandleChange(e: ChangeEvent)
      modifies this
      ensures formData == AfterChange(old(formData), e)
    {
      formData := formData[e.name := FieldValue(e)];
    }

    /** `resetForm`. */
    method ResetForm()
      modifies this
      ensures formData == InitialForm
    {
      formData := InitialForm;
    }

    /** `handleClose`: the form is reset, then `onClose` is called, so the parent is told to
        close only once the record holds the defaults again. */
    method HandleClose() returns (event: ModalEvent, formAtCall: JsObject)
      modifies this
      ensures formData == InitialForm
      ensures event == CloseRequested && formAtCall == InitialForm
    {
      ResetForm();
      formAtCall := formData;
      event := CloseRequested;
    }

    /** `handleSubmit`: the current record goes to `onSubmit` as it is, and nothing changes. */
    method HandleSubmit() returns (event: ModalEvent)
      ensures event == Submitted(formData)
    {
      event := Submitted(formData);
    }
  }
}
