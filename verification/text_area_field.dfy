/**
 * The multi-line text field descriptor (`TextAreaFormElement`): defaults,
 * properties schema, `construct`, `validate`, the properties panel's
 * `applyChanges`, and the fill-in component's value and error state.
 */
module TextAreaElement {
  import opened Wrappers
  import opened Elements
  import DesignerContext

  /** The typed view of a text area's attributes. */
  datatype Properties = Properties(labelText: string, helperText: string, required: bool, placeHolder: string, rows: real)

  /** What the properties form submits; here the schema gives `required` no default. */
  datatype PropertiesInput = PropertiesInput(labelText: string, helperText: string, required: Option<bool>,
                                             placeHolder: string, rows: real)

  const Defaults: Properties := Properties("Area de texto", "Helper text", false, "Escriba aqui...", 3.0)

  /** The bounds the properties schema puts on a text area. */
  predicate WithinBounds(labelText: string, helperText: string, placeHolder: string, rows: real) {
    2 <= |labelText| <= 50 && |helperText| <= 200 && |placeHolder| <= 50 && 1.0 <= rows <= 10.0
  }

  /** `propiertiesSchema` parsing the submitted properties; a missing `required` is rejected. */
  function ParseProperties(input: PropertiesInput): (r: Option<Properties>)
    ensures r.Some? <==> input.required.Some?
                         && WithinBounds(input.labelText, input.helperText, input.placeHolder, input.rows)
    ensures r.Some? ==> r.value.labelText == input.labelText && r.value.helperText == input.helperText
    ensures r.Some? ==> r.value.placeHolder == input.placeHolder && r.value.rows == input.rows
    ensures r.Some? ==> Some(r.value.required) == input.required
  {
    match input.required
    case None => None
    case Some(req) =>
      if WithinBounds(input.labelText, input.helperText, input.placeHolder, input.rows) then
        Some(Properties(input.labelText, input.helperText, req, input.placeHolder, input.rows))
      else None
  }

  /** The attribute bag holding exactly the five properties. */
  function ToAttributes(p: Properties): (a: Attributes)
    ensures a.Keys == {"label", "helperText", "required", "placeHolder", "rows"}
  {
    map["label" := Str(p.labelText), "helperText" := Str(p.helperText), "required" := Bool(p.required),
        "placeHolder" := Str(p.placeHolder), "rows" := Num(p.rows)]
  }

  /** The properties read back from an attribute bag, as the form's `reset` loads them. */
  function ReadProperties(a: Attributes): (r: Option<Properties>)
    ensures r.Some? <==> (
      "label" in a && a["label"].Str? && "helperText" in a && a["helperText"].Str?
      && "required" in a && a["required"].Bool? && "placeHolder" in a && a["placeHolder"].Str?
      && "rows" in a && a["rows"].Num?)
    ensures r.Some? ==> (
      a["label"] == Str(r.value.labelText) && a["helperText"] == Str(r.value.helperText)
      && a["required"] == Bool(r.value.required) && a["placeHolder"] == Str(r.value.placeHolder)
      && a["rows"] == Num(r.value.rows))
  {
    match (StringAttr(a, "label"), StringAttr(a, "helperText"), BoolAttr(a, "required"),
           StringAttr(a, "placeHolder"), NumberAttr(a, "rows"))
    case (Some(l), Some(h), Some(q), Some(p), Some(n)) => Some(Properties(l, h, q, p, n))
    case _ => None
  }

  /** Properties stored as attributes read back unchanged. */
  lemma AttributesRoundTrip(p: Properties)
    ensures ReadProperties(ToAttributes(p)) == Some(p)
  {
    var a := ToAttributes(p);
    assert StringAttr(a, "label") == Some(p.labelText);
    assert StringAttr(a, "helperText") == Some(p.helperText);
    assert BoolAttr(a, "required") == Some(p.required);
    assert StringAttr(a, "placeHolder") == Some(p.placeHolder);
    assert NumberAttr(a, "rows") == Some(p.rows);
  }

  /** `construct(id)`: a text area carrying the defaults (three rows, not required). */
  function Construct(id: string): (inst: Instance)
    ensures inst.id == id && inst.tag == TextAreaField
    ensures inst.extraAttributes.Some? && ReadProperties(inst.extraAttributes.value) == Some(Defaults)
    ensures inst.extraAttributes.value.Keys == {"label", "helperText", "required", "placeHolder", "rows"}
    ensures RequiredFlag(inst) == Some(false)
  {
    AttributesRoundTrip(Defaults);
    Instance(id, TextAreaField, Some(ToAttributes(Defaults)))
  }

  /** The defaults satisfy the schema. */
  lemma DefaultsAccepted()
    ensures ParseProperties(PropertiesInput(Defaults.labelText, Defaults.helperText, Some(Defaults.required),
                                            Defaults.placeHolder, Defaults.rows)) == Some(Defaults)
  {
  }

  /**
   * `validate(instance, currentValue)`: a required text area needs a
   * non-empty value, an optional one accepts anything. Reading `required`
   * from an instance without attributes throws.
   */
  function Validate(inst: Instance, currentValue: string): (r: Outcome)
    ensures r == Throws <==> inst.extraAttributes.None?
    ensures r == Returns(false) <==> RequiredFlag(inst) == Some(true) && currentValue == ""
  {
    match RequiredFlag(inst)
    case None => Throws
    case Some(required) => if required then Returns(|currentValue| > 0) else Returns(true)
  }

  /** A freshly constructed text area accepts every value, the empty one included. */
  lemma ConstructedAcceptsAll(id: string, v: string)
    ensures Validate(Construct(id), v) == Returns(true)
  {
  }

  /** The element `applyChanges` writes: same id and tag, attributes replaced wholesale. */
  function Updated(element: Instance, p: Properties): (r: Instance)
    ensures r.id == element.id && r.tag == element.tag
    ensures r.extraAttributes.Some? && ReadProperties(r.extraAttributes.value) == Some(p)
    ensures r.extraAttributes.value.Keys == {"label", "helperText", "required", "placeHolder", "rows"}
  {
    AttributesRoundTrip(p);
    element.(extraAttributes := Some(ToAttributes(p)))
  }

  /** After an update, `validate` follows the submitted `required` flag. */
  lemma UpdatedValidates(element: Instance, p: Properties, v: string)
    ensures Validate(Updated(element, p), v) == Returns(!p.required || v != "")
  {
    AttributesRoundTrip(p);
  }

  /** The properties panel's `form.handleSubmit(applyChanges)`. */
  method ApplyChanges(designer: DesignerContext.Designer, element: Instance, input: PropertiesInput)
    modifies designer
    ensures designer.elements ==
      match ParseProperties(input)
      case Some(p) => DesignerContext.ReplaceFirst(old(designer.elements), element.id, Updated(element, p))
      case None => old(designer.elements)
    ensures designer.selectedElement == old(designer.selectedElement)
  {
    var parsed := ParseProperties(input);
    if parsed.Some? {
      designer.UpdateElement(element.id, Updated(element, parsed.value));
    }
  }

  /** The fill-in value a component starts from: `defaultValue || ""`. */
  function InitialValue(defaultValue: Option<string>): (v: string)
    ensures defaultValue.Some? ==> v == defaultValue.value
    ensures defaultValue.None? ==> v == ""
  {
    defaultValue.GetOr("")
  }

  /** The fill-in component (`FormComponent`): the typed value and the error flag. */
  class Input {
    const element: Instance
    /** Whether the parent passed a `submitValue` callback. */
    const canSubmit: bool
    var value: string
    var error: bool

    /** Mounting: the value starts from `defaultValue`, the error from `isInvalid === true`. */
    constructor (element: Instance, canSubmit: bool, isInvalid: Option<bool>, defaultValue: Option<string>)
      requires element.extraAttributes.Some?
      ensures this.element == element && this.canSubmit == canSubmit
      ensures value == InitialValue(defaultValue)
      ensures error == (isInvalid == Some(true))
    {
      this.element := element;
      this.canSubmit := canSubmit;
      value := InitialValue(defaultValue);
      error := isInvalid == Some(true);
    }

    /** `onChange`: the typed text becomes the value. */
    method OnChange(text: string)
      modifies this
      ensures value == text && error == old(error)
    {
      value := text;
    }

    /**
     * `onBlur`: without a callback nothing happens; otherwise the error flag
     * becomes "invalid", and only a valid value is submitted, under the
     * element's id.
     */
    method OnBlur(text: string) returns (submitted: Option<Submitted>)
      requires element.extraAttributes.Some?
      modifies this
      ensures value == old(value)
      ensures !canSubmit ==> submitted == None && error == old(error)
      ensures canSubmit ==> error == (Validate(element, text) == Returns(false))
      ensures canSubmit ==> (submitted.Some? <==> Validate(element, text) == Returns(true))
      ensures submitted.Some? ==> submitted.value == Submitted(element.id, text)
    {
      if !canSubmit {
        return None;
      }
      var valid := Validate(element, text).valid;
      error := !valid;
      if !valid {
        return None;
      }
      submitted := Some(Submitted(element.id, text));
    }
  }
}
