/**
 * The title descriptor (`TitleFieldFormElement`): a decorative element with
 * one property, `title`. It takes no input, so `validate` is constant true.
 */
module TitleFieldElement {
  import opened Wrappers
  import opened Elements
  import DesignerContext

  const DefaultTitle: string := "Titulo"

  /** The properties schema: 2 to 50 characters. */
  predicate TitleAccepted(title: string) {
    2 <= |title| <= 50
  }

  /** `propiertiesSchema` parsing the submitted title. */
  function ParseTitle(title: string): (r: Option<string>)
    ensures r.Some? <==> 2 <= |title| <= 50
    ensures r.Some? ==> r.value == title
  {
    if TitleAccepted(title) then Some(title) else None
  }

  /** The attribute bag holding exactly the title. */
  function ToAttributes(title: string): (a: Attributes)
    ensures a.Keys == {"title"} && StringAttr(a, "title") == Some(title)
  {
    map["title" := Str(title)]
  }

  /** `construct(id)`: a title reading "Titulo". */
  function Construct(id: string): (inst: Instance)
    ensures inst.id == id && inst.tag == TitleField
    ensures inst.extraAttributes == Some(map["title" := Str(DefaultTitle)])
  {
    Instance(id, TitleField, Some(ToAttributes(DefaultTitle)))
  }

  /** The default title satisfies the schema. */
  lemma DefaultAccepted()
    ensures ParseTitle(DefaultTitle) == Some(DefaultTitle)
  {
  }

  /** `validate: () => true`: whatever the instance and the value. */
  function Validate(inst: Instance, currentValue: string): (r: Outcome)
    ensures r == Returns(true)
  {
    Returns(true)
  }

  /** The element `applyChanges` writes: same id and tag, attributes exactly `{title}`. */
  function Updated(element: Instance, title: string): (r: Instance)
    ensures r.id == element.id && r.tag == element.tag
    ensures r.extraAttributes == Some(map["title" := Str(title)])
  {
    element.(extraAttributes := Some(ToAttributes(title)))
  }

  /** The properties panel's blur handler, `form.handleSubmit(applyChanges)`. */
  method ApplyChanges(designer: DesignerContext.Designer, element: Instance, title: string)
    modifies designer
    ensures designer.elements ==
      if TitleAccepted(title) then DesignerContext.ReplaceFirst(old(designer.elements), element.id, Updated(element, title))
      else old(designer.elements)
    ensures designer.selectedElement == old(designer.selectedElement)
  {
    var parsed := ParseTitle(title);
    if parsed.Some? {
      designer.UpdateElement(element.id, Updated(element, parsed.value));
    }
  }
}
