/**
 * The single-line text field descriptor (`TextFieldFormElement`): its
 * default attributes, its properties schema, `construct`, and the
 * properties panel's `applyChanges`. This descriptor supplies no `validate`.
 */
module TextFieldElement {
  import opened Wrappers
  import opened Elements
  import DesignerContext

  /** The typed view of a text field's attributes. */
  datatype Properties = Properties(labelText: string, helperText: string, required: bool, placeHolder: string)

  /** What the properties form submits; `required` may be left out. */
  datatype PropertiesInput = PropertiesInput(labelText: string, helperText: string, required: Option<bool>, placeHolder: string)

  const Defaults: Properties := Properties("Campo de texto", "Helper text", false, "Escriba aqui...")

  /** The length bounds the properties schema puts on a text field. */
  predicate WithinBounds(labelText: string, helperText: string, placeHolder: string) {
    2 <= |labelText| <= 50 && |helperText| <= 200 && |placeHolder| <= 50
  }

  /** `propiertiesSchema` parsing the submitted properties; `required` defaults to false. */
  function ParseProperties(input: PropertiesInput): (r: Option<Properties>)
    ensures r.Some? <==> WithinBounds(input.labelText, input.helperText, input.placeHolder)
    ensures r.Some? ==> r.value.labelText == input.labelText && r.value.helperText == input.helperText
    ensures r.Some? ==> r.value.placeHolder == input.placeHolder
    ensures r.Some? ==> r.value.required == (input.required == Some(true))
  {
    if WithinBounds(input.labelText, input.helperText, input.placeHolder) then
      Some(Properties(input.labelText, input.helperText, input.required.GetOr(false), input.placeHolder))
    else None
  }

  /** The attribute bag holding exactly the four properties. */
  function ToAttributes(p: Properties): (a: Attributes)
    ensures a.Keys == {"label", "helperText", "required", "placeHolder"}
  {
    map["label" := Str(p.labelText), "helperText" := Str(p.helperText),
        "required" := Bool(p.required), "placeHolder" := Str(p.placeHolder)]
  }

  /** The properties read back from an attribute bag, as the form's `reset` loads them. */
  function ReadProperties(a: Attributes): (r: Option<Properties>)
    ensures r.Some? <==> (
      "label" in a && a["label"].Str? && "helperText" in a && a["helperText"].Str?
      && "required" in a && a["required"].Bool? && "placeHolder" in a && a["placeHolder"].Str?)
    ensures r.Some? ==> (
      a["label"] == Str(r.value.labelText) && a["helperText"] == Str(r.value.helperText)
      && a["required"] == Bool(r.value.required) && a["placeHolder"] == Str(r.value.placeHolder))
  {
    match (StringAttr(a, "label"), StringAttr(a, "helperText"), BoolAttr(a, "required"), StringAttr(a, "placeHolder"))
    case (Some(l), Some(h), Some(q), Some(p)) => Some(Properties(l, h, q, p))
    case _ => None
  }

  /** Properties stored as attributes read back unchanged. */
  lemma AttributesRoundTrip(p: Properties)
    ensures ReadProperties(ToAttributes(p)) == Some(p)
  {
    var a := ToAttributes(p);
    assert StringAttr(a, "label") == Some(p.labelText);
    assert StringAttr(a, "helperText") == Some(p.helperText);
    assert BoolAttr(a, "required") == Some(p.required);
    assert StringAttr(a, "placeHolder") == Some(p.placeHolder);
  }

  /** `construct(id)`: a text field carrying the defaults. */
  function Construct(id: string): (inst: Instance)
    ensures inst.id == id && inst.tag == TextField
    ensures inst.extraAttributes.Some? && ReadProperties(inst.extraAttributes.value) == Some(Defaults)
    ensures inst.extraAttributes.value.Keys == {"label", "helperText", "required", "placeHolder"}
    ensures RequiredFlag(inst) == Some(false)
  {
    AttributesRoundTrip(Defaults);
    Instance(id, TextField, Some(ToAttributes(Defaults)))
  }

  /** The defaults satisfy the schema, so a fresh field's panel submits successfully. */
  lemma DefaultsAccepted()
    ensures ParseProperties(PropertiesInput(Defaults.labelText, Defaults.helperText, Some(Defaults.required),
                                            Defaults.placeHolder)) == Some(Defaults)
  {
  }

  /** The element `applyChanges` writes: same id and tag, attributes replaced wholesale. */
  function Updated(element: Instance, p: Properties): (r: Instance)
    ensures r.id == element.id && r.tag == element.tag
    ensures r.extraAttributes.Some? && ReadProperties(r.extraAttributes.value) == Some(p)
    ensures r.extraAttributes.value.Keys == {"label", "helperText", "required", "placeHolder"}
  {
    AttributesRoundTrip(p);
    element.(extraAttributes := Some(ToAttributes(p)))
  }

  /**
   * The properties panel's blur handler, `form.handleSubmit(applyChanges)`:
   * when the schema accepts the input, the element with this id is
   * replaced by one carrying exactly the submitted properties.
   */
  method ApplyChanges(designer: DesignerContext.Designer, element: Instance, input: PropertiesInput)
    modifies designer
    ensures designer.elements ==
      match ParseProperties(input)
      case Some(p) => DesignerContext.ReplaceFirst(old(designer.elements), element.id, Updated(element, p))
      case None => old(designer.elements)
    ensures designer.selectedElement == old(designer.selectedElement)
  {
    var parsed := ParseProperties(input);
    if parsed.Some? {
      designer.UpdateElement(element.id, Updated(element, parsed.value));
    }
  }
}
