/**
 * The `FormElements` record: one descriptor per tag, each supplying
 * `construct(id)` and, except for the text field, `validate(instance, value)`.
 *
 * The descriptors of NumberField, DateFíeld, ParagraphField, SpacerField and
 * SubTitleField are imported into the registry but their code is not part of
 * this model; their `construct` and `validate` come in as the `Unshown`
 * parameter.
 */
module Registry {
  import opened Wrappers
  import opened Elements
  import TextFieldElement
  import TextAreaElement
  import SelectFieldElement
  import CheckboxFieldElement
  import TitleFieldElement
  import SeparatorFieldElement

  /** `FormElement`, restricted to its tag and its two functions. */
  datatype FormElement = FormElement(
    tag: ElementsType,
    construct: string -> Instance,
    validate: Option<(Instance, string) -> Outcome>)

  /** The behaviour of the descriptors whose code this model does not include. */
  datatype Unshown = Unshown(
    construct: (ElementsType, string) -> Instance,
    validate: (ElementsType, Instance, string) -> Outcome)

  /** Whether `t`'s descriptor is one of the six this model includes. */
  predicate IsShown(t: ElementsType) {
    t in {TextField, TextAreaField, SelectField, CheckboxField, TitleField, SeparatorField}
  }

  /** `FormElements[t]`: total over the tags; each descriptor's own tag is its key. */
  function FormElements(unshown: Unshown, t: ElementsType): (d: FormElement)
    ensures d.tag == t
    ensures d.validate.None? <==> t == TextField
  {
    match t
    case TextField => FormElement(t, TextFieldElement.Construct, None)
    case TextAreaField => FormElement(t, TextAreaElement.Construct, Some(TextAreaElement.Validate))
    case SelectField => FormElement(t, SelectFieldElement.Construct, Some(SelectFieldElement.Validate))
    case CheckboxField => FormElement(t, CheckboxFieldElement.Construct, Some(CheckboxFieldElement.Validate))
    case TitleField => FormElement(t, TitleFieldElement.Construct, Some(TitleFieldElement.Validate))
    case SeparatorField => FormElement(t, SeparatorFieldElement.Construct, Some(SeparatorFieldElement.Validate))
    case _ => FormElement(t, id => unshown.construct(t, id), Some((inst, v) => unshown.validate(t, inst, v)))
  }

  /**
   * `FormElements[t].validate(instance, value)`: calling the text field's
   * missing `validate` throws.
   */
  function Validate(unshown: Unshown, t: ElementsType, inst: Instance, value: string): (r: Outcome)
    ensures t == TextField ==> r == Throws
  {
    match FormElements(unshown, t).validate
    case None => Throws
    case Some(f) => f(inst, value)
  }

  /** Every included descriptor builds an instance with the given id and its own tag. */
  lemma ShownConstructKeepsIdAndTag(unshown: Unshown, t: ElementsType, id: string)
    requires IsShown(t)
    ensures FormElements(unshown, t).construct(id).id == id
    ensures FormElements(unshown, t).construct(id).tag == t
  {
    match t
    case TextField =>
    case TextAreaField =>
    case SelectField =>
    case CheckboxField =>
    case TitleField =>
    case SeparatorField =>
  }

  /** The unshown descriptors follow the same `{id, type, ...}` pattern. */
  ghost predicate ConstructsFaithfully(unshown: Unshown) {
    forall t, id :: unshown.construct(t, id).id == id && unshown.construct(t, id).tag == t
  }

  /** Under that pattern, construction keeps id and tag for every tag of the registry. */
  lemma ConstructKeepsIdAndTag(unshown: Unshown, t: ElementsType, id: string)
    requires ConstructsFaithfully(unshown)
    ensures FormElements(unshown, t).construct(id).id == id
    ensures FormElements(unshown, t).construct(id).tag == t
  {
    if IsShown(t) {
      ShownConstructKeepsIdAndTag(unshown, t, id);
    }
  }

  /** Only the separator is built without an attribute bag. */
  lemma OnlySeparatorLacksAttributes(unshown: Unshown, t: ElementsType, id: string)
    requires IsShown(t)
    ensures FormElements(unshown, t).construct(id).extraAttributes.None? <==> t == SeparatorField
  {
  }

  /** The decorative title and separator are valid whatever the instance and the value. */
  lemma DecorativeAlwaysValid(unshown: Unshown, t: ElementsType, inst: Instance, value: string)
    requires t == TitleField || t == SeparatorField
    ensures Validate(unshown, t, inst, value) == Returns(true)
  {
  }

  /**
   * The required-field boundary: a required text area or select rejects the
   * empty value, a required checkbox rejects "false" and "" and accepts
   * "true".
   */
  lemma RequiredBoundary(unshown: Unshown, inst: Instance)
    requires RequiredFlag(inst) == Some(true)
    ensures Validate(unshown, TextAreaField, inst, "") == Returns(false)
    ensures Validate(unshown, SelectField, inst, "") == Returns(false)
    ensures Validate(unshown, CheckboxField, inst, "false") == Returns(false)
    ensures Validate(unshown, CheckboxField, inst, "") == Returns(false)
    ensures Validate(unshown, CheckboxField, inst, "true") == Returns(true)
  {
  }

  /** An instance that is not required is accepted by every included input field, whatever the value. */
  lemma OptionalAcceptsAll(unshown: Unshown, t: ElementsType, inst: Instance, value: string)
    requires t in {TextAreaField, SelectField, CheckboxField}
    requires RequiredFlag(inst) == Some(false)
    ensures Validate(unshown, t, inst, value) == Returns(true)
  {
  }

  /** A freshly built instance of an included tag is never rejected by its own `validate`. */
  lemma FreshInstancesValid(unshown: Unshown, t: ElementsType, id: string, value: string)
    requires IsShown(t) && t != TextField
    ensures Validate(unshown, t, FormElements(unshown, t).construct(id), value) == Returns(true)
  {
  }
}
