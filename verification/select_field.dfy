/**
 * The single-select field descriptor (`SelectFieldFormElement`): defaults,
 * properties schema, `construct`, `validate`, editing of the option list in
 * the properties panel, `applyChanges`, and the fill-in component.
 */
module SelectFieldElement {
  import opened Wrappers
  import opened Elements
  import DesignerContext

  /** The typed view of a select field's attributes. */
  datatype Properties = Properties(labelText: string, helperText: string, required: bool, placeHolder: string,
                                   options: seq<string>)

  /** What the properties form submits; `required` and `options` may be left out. */
  datatype PropertiesInput = PropertiesInput(labelText: string, helperText: string, required: Option<bool>,
                                             placeHolder: string, options: Option<seq<string>>)

  const Defaults: Properties := Properties("Campo de lista", "Helper text", false, "Escriba aqui...", [])

  /** The option the "Agregar" button appends. */
  const NewOption: string := "Nueva Opción"

  /** The length bounds the properties schema puts on a select field. */
  predicate WithinBounds(labelText: string, helperText: string, placeHolder: string) {
    2 <= |labelText| <= 50 && |helperText| <= 200 && |placeHolder| <= 50
  }

  /** `propiertiesSchema`: `required` defaults to false and `options` to the empty list. */
  function ParseProperties(input: PropertiesInput): (r: Option<Properties>)
    ensures r.Some? <==> WithinBounds(input.labelText, input.helperText, input.placeHolder)
    ensures r.Some? ==> r.value.labelText == input.labelText && r.value.helperText == input.helperText
    ensures r.Some? ==> r.value.placeHolder == input.placeHolder
    ensures r.Some? ==> r.value.required == (input.required == Some(true))
    ensures r.Some? ==> r.value.options == if input.options.Some? then input.options.value else []
  {
    if WithinBounds(input.labelText, input.helperText, input.placeHolder) then
      Some(Properties(input.labelText, input.helperText, input.required.GetOr(false), input.placeHolder,
                      input.options.GetOr([])))
    else None
  }

  /** The attribute bag holding exactly the five properties. */
  function ToAttributes(p: Properties): (a: Attributes)
    ensures a.Keys == {"label", "helperText", "required", "placeHolder", "options"}
  {
    map["label" := Str(p.labelText), "helperText" := Str(p.helperText), "required" := Bool(p.required),
        "placeHolder" := Str(p.placeHolder), "options" := StrList(p.options)]
  }

  /** The properties read back from an attribute bag, as the form's `reset` loads them. */
  function ReadProperties(a: Attributes): (r: Option<Properties>)
    ensures r.Some? <==> (
      "label" in a && a["label"].Str? && "helperText" in a && a["helperText"].Str?
      && "required" in a && a["required"].Bool? && "placeHolder" in a && a["placeHolder"].Str?
      && "options" in a && a["options"].StrList?)
    ensures r.Some? ==> (
      a["label"] == Str(r.value.labelText) && a["helperText"] == Str(r.value.helperText)
      && a["required"] == Bool(r.value.required) && a["placeHolder"] == Str(r.value.placeHolder)
      && a["options"] == StrList(r.value.options))
  {
    match (StringAttr(a, "label"), StringAttr(a, "helperText"), BoolAttr(a, "required"),
           StringAttr(a, "placeHolder"), ListAttr(a, "options"))
    case (Some(l), Some(h), Some(q), Some(p), Some(o)) => Some(Properties(l, h, q, p, o))
    case _ => None
  }

  /** Properties stored as attributes read back unchanged. */
  lemma AttributesRoundTrip(p: Properties)
    ensures ReadProperties(ToAttributes(p)) == Some(p)
  {
    var a := ToAttributes(p);
    assert StringAttr(a, "label") == Some(p.labelText);
    assert StringAttr(a, "helperText") == Some(p.helperText);
    assert BoolAttr(a, "required") == Some(p.required);
    assert StringAttr(a, "placeHolder") == Some(p.placeHolder);
    assert ListAttr(a, "options") == Some(p.options);
  }

  /** `construct(id)`: a select field with no options, not required. */
  function Construct(id: string): (inst: Instance)
    ensures inst.id == id && inst.tag == SelectField
    ensures inst.extraAttributes.Some? && ReadProperties(inst.extraAttributes.value) == Some(Defaults)
    ensures inst.extraAttributes.value.Keys == {"label", "helperText", "required", "placeHolder", "options"}
    ensures RequiredFlag(inst) == Some(false)
  {
    AttributesRoundTrip(Defaults);
    Instance(id, SelectField, Some(ToAttributes(Defaults)))
  }

  /** The defaults satisfy the schema, even with both defaulted entries left out. */
  lemma DefaultsAccepted()
    ensures ParseProperties(PropertiesInput(Defaults.labelText, Defaults.helperText, None,
                                            Defaults.placeHolder, None)) == Some(Defaults)
  {
  }

  /** `validate`: a required select needs a non-empty choice; an optional one accepts anything. */
  function Validate(inst: Instance, currentValue: string): (r: Outcome)
    ensures r == Throws <==> inst.extraAttributes.None?
    ensures r == Returns(false) <==> RequiredFlag(inst) == Some(true) && currentValue == ""
  {
    match RequiredFlag(inst)
    case None => Throws
    case Some(required) => if required then Returns(|currentValue| > 0) else Returns(true)
  }

  /** "Agregar": one "Nueva Opción" appended after the existing options. */
  function AddOption(options: seq<string>): (r: seq<string>)
    ensures |r| == |options| + 1
    ensures r[..|options|] == options && r[|options|] == NewOption
  {
    options + [NewOption]
  }

  /** Typing into option `index` overwrites that option only. */
  function EditOption(options: seq<string>, index: nat, text: string): (r: seq<string>)
    requires index < |options|
    ensures |r| == |options| && r[index] == text
    ensures forall j :: 0 <= j < |options| && j != index ==> r[j] == options[j]
  {
    options[index := text]
  }

  /** The delete button of option `index`: `splice(index, 1)` on a copy. */
  function DeleteOption(options: seq<string>, index: nat): (r: seq<string>)
    requires index < |options|
    ensures |r| == |options| - 1
    ensures forall j :: 0 <= j < index ==> r[j] == options[j]
    ensures forall j :: index <= j < |r| ==> r[j] == options[j + 1]
  {
    options[..index] + options[index + 1..]
  }

  /** Deleting the option just added gives back the original list. */
  lemma DeleteUndoesAdd(options: seq<string>)
    ensures DeleteOption(AddOption(options), |options|) == options
  {
    assert AddOption(options)[..|options|] == options;
  }

  /** Editing an option back to its old text restores the list. */
  lemma EditUndoesEdit(options: seq<string>, index: nat, text: string)
    requires index < |options|
    ensures EditOption(EditOption(options, index, text), index, options[index]) == options
  {
  }

  /** The option list as the properties form holds it while it is edited. */
  class OptionsEditor {
    var options: seq<string>

    constructor (options: seq<string>)
      ensures this.options == options
    {
      this.options := options;
    }

    /** The "Agregar" button: `field.value.concat(["Nueva Opción"])`. */
    method Add()
      modifies this
      ensures options == AddOption(old(options))
    {
      options := options + [NewOption];
    }

    /** Option `index`'s input: `field.value[index] = e.target.value`. */
    method Edit(index: nat, text: string)
      requires index < |options|
      modifies this
      ensures options == EditOption(old(options), index, text)
    {
      options := options[index := text];
    }

    /** Option `index`'s delete button. */
    method Delete(index: nat)
      requires index < |options|
      modifies this
      ensures options == DeleteOption(old(options), index)
    {
      options := options[..index] + options[index + 1..];
    }
  }

  /** The element `applyChanges` writes: same id and tag, attributes replaced wholesale. */
  function Updated(element: Instance, p: Properties): (r: Instance)
    ensures r.id == element.id && r.tag == element.tag
    ensures r.extraAttributes.Some? && ReadProperties(r.extraAttributes.value) == Some(p)
    ensures r.extraAttributes.value.Keys == {"label", "helperText", "required", "placeHolder", "options"}
  {
    AttributesRoundTrip(p);
    element.(extraAttributes := Some(ToAttributes(p)))
  }

  /**
   * The properties panel's `form.handleSubmit(applyChanges)`: on an accepted
   * input the element is replaced and the selection is cleared.
   */
  method ApplyChanges(designer: DesignerContext.Designer, element: Instance, input: PropertiesInput)
    modifies designer
    ensures designer.elements ==
      match ParseProperties(input)
      case Some(p) => DesignerContext.ReplaceFirst(old(designer.elements), element.id, Updated(element, p))
      case None => old(designer.elements)
    ensures designer.selectedElement ==
      if ParseProperties(input).Some? then None else old(designer.selectedElement)
  {
    var parsed := ParseProperties(input);
    if parsed.Some? {
      designer.UpdateElement(element.id, Updated(element, parsed.value));
      designer.SetSelectedElement(None);
    }
  }

  /** The fill-in component (`FormComponent`): the chosen value and the error flag. */
  class Input {
    const element: Instance
    /** Whether the parent passed a `submitValue` callback. */
    const canSubmit: bool
    var value: string
    var error: bool

    /** Mounting: the value starts from `defaultValue || ""`, the error from `isInvalid === true`. */
    constructor (element: Instance, canSubmit: bool, isInvalid: Option<bool>, defaultValue: Option<string>)
      requires element.extraAttributes.Some?
      ensures this.element == element && this.canSubmit == canSubmit
      ensures value == defaultValue.GetOr("")
      ensures error == (isInvalid == Some(true))
    {
      this.element := element;
      this.canSubmit := canSubmit;
      value := defaultValue.GetOr("");
      error := isInvalid == Some(true);
    }

    /**
     * `onValueChange`: the choice becomes the value; with a callback, the
     * error flag becomes "invalid" and the choice is submitted whether or
     * not it is valid.
     */
    method OnValueChange(choice: string) returns (submitted: Option<Submitted>)
      requires element.extraAttributes.Some?
      modifies this
      ensures value == choice
      ensures !canSubmit ==> submitted == None && error == old(error)
      ensures canSubmit ==> error == (Validate(element, choice) == Returns(false))
      ensures canSubmit ==> submitted == Some(Submitted(element.id, choice))
    {
      value := choice;
      if !canSubmit {
        return None;
      }
      var valid := Validate(element, choice).valid;
      error := !valid;
      submitted := Some(Submitted(element.id, choice));
    }
  }
}
