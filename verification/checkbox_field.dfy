/**
 * The checkbox field descriptor (`CheckboxFieldFormElement`): defaults,
 * properties schema, `construct`, `validate`, the encoding of the checked
 * state as the strings "true"/"false", `applyChanges`, and the fill-in
 * component.
 */
module CheckboxFieldElement {
  import opened Wrappers
  import opened Elements
  import DesignerContext

  /** The typed view of a checkbox's attributes. */
  datatype Properties = Properties(labelText: string, helperText: string, required: bool)

  /** What the properties form submits; `required` may be left out. */
  datatype PropertiesInput = PropertiesInput(labelText: string, helperText: string, required: Option<bool>)

  const Defaults: Properties := Properties("Checkbox field", "Helper text", false)

  /** What the checkbox widget reports: checked, unchecked, or indeterminate. */
  datatype CheckedState = Checked | Unchecked | Indeterminate

  /** The length bounds the properties schema puts on a checkbox. */
  predicate WithinBounds(labelText: string, helperText: string) {
    2 <= |labelText| <= 50 && |helperText| <= 200
  }

  /** `propiertiesSchema`: `required` defaults to false. */
  function ParseProperties(input: PropertiesInput): (r: Option<Properties>)
    ensures r.Some? <==> WithinBounds(input.labelText, input.helperText)
    ensures r.Some? ==> r.value.labelText == input.labelText && r.value.helperText == input.helperText
    ensures r.Some? ==> r.value.required == (input.required == Some(true))
  {
    if WithinBounds(input.labelText, input.helperText) then
      Some(Properties(input.labelText, input.helperText, input.required.GetOr(false)))
    else None
  }

  /** The attribute bag holding exactly the three properties. */
  function ToAttributes(p: Properties): (a: Attributes)
    ensures a.Keys == {"label", "helperText", "required"}
  {
    map["label" := Str(p.labelText), "helperText" := Str(p.helperText), "required" := Bool(p.required)]
  }

  /** The properties read back from an attribute bag, as the form's `reset` loads them. */
  function ReadProperties(a: Attributes): (r: Option<Properties>)
    ensures r.Some? <==> (
      "label" in a && a["label"].Str? && "helperText" in a && a["helperText"].Str?
      && "required" in a && a["required"].Bool?)
    ensures r.Some? ==> (
      a["label"] == Str(r.value.labelText) && a["helperText"] == Str(r.value.helperText)
      && a["required"] == Bool(r.value.required))
  {
    match (StringAttr(a, "label"), StringAttr(a, "helperText"), BoolAttr(a, "required"))
    case (Some(l), Some(h), Some(q)) => Some(Properties(l, h, q))
    case _ => None
  }

  /** Properties stored as attributes read back unchanged. */
  lemma AttributesRoundTrip(p: Properties)
    ensures ReadProperties(ToAttributes(p)) == Some(p)
  {
    var a := ToAttributes(p);
    assert StringAttr(a, "label") == Some(p.labelText);
    assert StringAttr(a, "helperText") == Some(p.helperText);
    assert BoolAttr(a, "required") == Some(p.required);
  }

  /** `construct(id)`: a checkbox carrying the defaults. */
  function Construct(id: string): (inst: Instance)
    ensures inst.id == id && inst.tag == CheckboxField
    ensures inst.extraAttributes.Some? && ReadProperties(inst.extraAttributes.value) == Some(Defaults)
    ensures inst.extraAttributes.value.Keys == {"label", "helperText", "required"}
    ensures RequiredFlag(inst) == Some(false)
  {
    AttributesRoundTrip(Defaults);
    Instance(id, CheckboxField, Some(ToAttributes(Defaults)))
  }

  /** The defaults satisfy the schema. */
  lemma DefaultsAccepted()
    ensures ParseProperties(PropertiesInput(Defaults.labelText, Defaults.helperText, None)) == Some(Defaults)
  {
  }

  /**
   * `validate`: a required checkbox accepts exactly the string "true"
   * (so "false" and "" fail); an optional one accepts anything.
   */
  function Validate(inst: Instance, currentValue: string): (r: Outcome)
    ensures r == Throws <==> inst.extraAttributes.None?
    ensures r == Returns(false) <==> RequiredFlag(inst) == Some(true) && currentValue != "true"
  {
    match RequiredFlag(inst)
    case None => Throws
    case Some(required) => if required then Returns(currentValue == "true") else Returns(true)
  }

  /** `onCheckedChange` first collapses the widget's state: only `checked === true` counts as checked. */
  function IsChecked(c: CheckedState): (b: bool)
    ensures b <==> c == Checked
  {
    c == Checked
  }

  /** The checked flag as the string that is validated and submitted. */
  function Encode(checked: bool): (s: string)
    ensures s == "true" || s == "false"
    ensures s == "true" <==> checked
  {
    if checked then "true" else "false"
  }

  /** The initial checked flag from a stored value: `defaultValue === "true"`. */
  function Decode(defaultValue: Option<string>): (checked: bool)
    ensures checked <==> defaultValue == Some("true")
  {
    defaultValue == Some("true")
  }

  /** Decoding what was encoded gives back the flag. */
  lemma DecodeEncode(checked: bool)
    ensures Decode(Some(Encode(checked))) == checked
  {
  }

  /** Encoding a decoded value gives back the string, for the two strings the encoding produces. */
  lemma EncodeDecode(s: string)
    requires s == "true" || s == "false"
    ensures Encode(Decode(Some(s))) == s
  {
  }

  /** On a required checkbox, a widget state passes validation exactly when it is `Checked`. */
  lemma RequiredPassesOnlyWhenChecked(inst: Instance, c: CheckedState)
    requires RequiredFlag(inst) == Some(true)
    ensures Validate(inst, Encode(IsChecked(c))) == Returns(c == Checked)
  {
  }

  /** The element `applyChanges` writes: same id and tag, attributes replaced wholesale. */
  function Updated(element: Instance, p: Properties): (r: Instance)
    ensures r.id == element.id && r.tag == element.tag
    ensures r.extraAttributes.Some? && ReadProperties(r.extraAttributes.value) == Some(p)
    ensures r.extraAttributes.value.Keys == {"label", "helperText", "required"}
  {
    AttributesRoundTrip(p);
    element.(extraAttributes := Some(ToAttributes(p)))
  }

  /**
   * The properties panel's `form.handleSubmit(applyChanges)`: on an accepted
   * input the element is replaced and the selection is cleared.
   */
  method ApplyChanges(designer: DesignerContext.Designer, element: Instance, input: PropertiesInput)
    modifies designer
    ensures designer.elements ==
      match ParseProperties(input)
      case Some(p) => DesignerContext.ReplaceFirst(old(designer.elements), element.id, Updated(element, p))
      case None => old(designer.elements)
    ensures designer.selectedElement ==
      if ParseProperties(input).Some? then None else old(designer.selectedElement)
  {
    var parsed := ParseProperties(input);
    if parsed.Some? {
      designer.UpdateElement(element.id, Updated(element, parsed.value));
      designer.SetSelectedElement(None);
    }
  }

  /** The fill-in component (`FormComponent`): the checked flag and the error flag. */
  class Input {
    const element: Instance
    /** Whether the parent passed a `submitValue` callback. */
    const canSubmit: bool
    var checked: bool
    var error: bool

    /** Mounting: checked exactly when `defaultValue === "true"`; the error from `isInvalid === true`. */
    constructor (element: Instance, canSubmit: bool, isInvalid: Option<bool>, defaultValue: Option<string>)
      requires element.extraAttributes.Some?
      ensures this.element == element && this.canSubmit == canSubmit
      ensures checked == Decode(defaultValue)
      ensures error == (isInvalid == Some(true))
    {
      this.element := element;
      this.canSubmit := canSubmit;
      checked := Decode(defaultValue);
      error := isInvalid == Some(true);
    }

    /**
     * `onCheckedChange`: the collapsed flag is stored; with a callback, its
     * encoding is validated into the error flag and submitted even when
     * invalid.
     */
    method OnCheckedChange(state: CheckedState) returns (submitted: Option<Submitted>)
      requires element.extraAttributes.Some?
      modifies this
      ensures checked == (state == Checked)
      ensures !canSubmit ==> submitted == None && error == old(error)
      ensures canSubmit ==> error == (Validate(element, Encode(checked)) == Returns(false))
      ensures canSubmit ==> submitted == Some(Submitted(element.id, Encode(checked)))
    {
      var value := false;
      if state == Checked {
        value := true;
      }
      checked := value;
      if !canSubmit {
        return None;
      }
      var stringValue := if value then "true" else "false";
      var valid := Validate(element, stringValue).valid;
      error := !valid;
      submitted := Some(Submitted(element.id, stringValue));
    }
  }
}
