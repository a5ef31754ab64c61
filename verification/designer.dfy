/**
 * The designer canvas (`Designer` and `DesignerElementWrapper`): the rule
 * applied when a drag ends, and the wrapper's delete and select actions.
 */
module DesignerView {
  import opened Wrappers
  import opened Elements
  import Registry
  import DesignerContext

  /** The data carried by the dragged item. */
  datatype ActiveData =
    | PaletteButton(tag: ElementsType)                 // `isDesignerBtnElement`
    | PlacedElement(tag: ElementsType, elementId: string) // `isDesignerElement`

  /** The data carried by the drop target under the pointer. */
  datatype OverData =
    | DropArea                                      // `isDesignerDropArea`
    | TopHalf(tag: ElementsType, elementId: string)    // `isTopHalfDesignerElement`
    | BottomHalf(tag: ElementsType, elementId: string) // `isBottomHalfDesignerElement`

  /** A `DragEndEvent`: the dragged item and the drop target, either possibly missing. */
  datatype DragEndEvent = DragEndEvent(active: Option<ActiveData>, over: Option<OverData>)

  /**
   * The element a drag end adds, if any: only a palette button dropped on
   * some target adds one, built by that tag's `construct` from the new id.
   */
  function DroppedElement(unshown: Registry.Unshown, event: DragEndEvent, newId: string): (r: Option<Instance>)
    ensures r.Some? <==> event.active.Some? && event.over.Some? && event.active.value.PaletteButton?
    ensures r.Some? ==> r.value == Registry.FormElements(unshown, event.active.value.tag).construct(newId)
  {
    match (event.active, event.over)
    case (Some(PaletteButton(t)), Some(_)) => Some(Registry.FormElements(unshown, t).construct(newId))
    case _ => None
  }

  /** Which target the element is dropped on does not change what is added. */
  lemma DropTargetIgnored(unshown: Registry.Unshown, active: Option<ActiveData>, o1: OverData, o2: OverData,
                          newId: string)
    ensures DroppedElement(unshown, DragEndEvent(active, Some(o1)), newId)
         == DroppedElement(unshown, DragEndEvent(active, Some(o2)), newId)
  {
  }

  /** A dropped palette button of an included tag yields an element of that tag under the new id. */
  lemma DroppedElementShape(unshown: Registry.Unshown, t: ElementsType, over: OverData, newId: string)
    requires Registry.IsShown(t)
    ensures DroppedElement(unshown, DragEndEvent(Some(PaletteButton(t)), Some(over)), newId).Some?
    ensures DroppedElement(unshown, DragEndEvent(Some(PaletteButton(t)), Some(over)), newId).value.id == newId
    ensures DroppedElement(unshown, DragEndEvent(Some(PaletteButton(t)), Some(over)), newId).value.tag == t
  {
    Registry.ShownConstructKeepsIdAndTag(unshown, t, newId);
  }

  /** Adding at index 0 puts the element first and shifts every other element one place right. */
  lemma InsertAtFront(s: seq<Instance>, e: Instance)
    ensures DesignerContext.Inserted(s, 0, e) == [e] + s
  {
    assert s[..0] == [];
    assert s[0..] == s;
  }

  /**
   * `onDragEnd`: the id comes from `idGenerator()` (here the parameter
   * `newId`); a dropped palette button's new element goes to the front of
   * the list; every other drag end changes nothing.
   */
  method OnDragEnd(designer: DesignerContext.Designer, unshown: Registry.Unshown, event: DragEndEvent,
                   newId: string)
    modifies designer
    ensures designer.elements ==
      match DroppedElement(unshown, event, newId)
      case Some(e) => [e] + old(designer.elements)
      case None => old(designer.elements)
    ensures designer.selectedElement == old(designer.selectedElement)
  {
    if event.active.None? || event.over.None? {
      return;
    }
    if event.active.value.PaletteButton? {
      var newElement := Registry.FormElements(unshown, event.active.value.tag).construct(newId);
      InsertAtFront(designer.elements, newElement);
      designer.AddElement(0, newElement);
    }
  }

  /** The wrapper's delete button: removes the wrapper's own element by id. */
  method OnDeleteClick(designer: DesignerContext.Designer, element: Instance)
    modifies designer
    ensures designer.elements == DesignerContext.WithoutId(old(designer.elements), element.id)
    ensures designer.selectedElement == old(designer.selectedElement)
  {
    designer.RemoveElement(element.id);
  }

  /** A click on the wrapper selects its element. */
  method OnWrapperClick(designer: DesignerContext.Designer, element: Instance)
    modifies designer
    ensures designer.selectedElement == Some(element)
    ensures designer.elements == old(designer.elements)
  {
    designer.SetSelectedElement(Some(element));
  }
}
