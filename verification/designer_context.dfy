/**
 * The designer's shared state (`DesignerContextProvider`): the ordered list
 * of element instances being designed and the currently selected element,
 * with the three list operations `addElement`, `removeElement` and
 * `updateElemet`. Each operation is specified by a function on sequences,
 * and the laws of those functions are proved as lemmas.
 */
module DesignerContext {
  import opened Wrappers
  import opened Elements

  /**
   * Where `Array.prototype.splice(index, 0, x)` inserts into an array of
   * length `n`: a negative index counts from the end (clamped at 0), an index
   * past the end appends.
   */
  function SpliceStart(index: int, n: nat): (k: nat)
    ensures k <= n
    ensures 0 <= index <= n ==> k == index
    ensures index > n ==> k == n
    ensures index < 0 ==> k == if n + index < 0 then 0 else n + index
  {
    if index < 0 then (if n + index < 0 then 0 else n + index)
    else if index > n then n
    else index
  }

  /** The list after `addElement(index, e)`. */
  function Inserted(s: seq<Instance>, index: int, e: Instance): (r: seq<Instance>)
    ensures |r| == |s| + 1
    ensures r[SpliceStart(index, |s|)] == e
    ensures forall j :: 0 <= j < SpliceStart(index, |s|) ==> r[j] == s[j]
    ensures forall j :: SpliceStart(index, |s|) <= j < |s| ==> r[j + 1] == s[j]
  {
    var k := SpliceStart(index, |s|);
    s[..k] + [e] + s[k..]
  }

  /** The list after `removeElement(id)`: `prev.filter(el => el.id !== id)`. */
  function WithoutId(s: seq<Instance>, id: string): (r: seq<Instance>)
    ensures |r| <= |s|
  {
    if s == [] then []
    else if s[0].id == id then WithoutId(s[1..], id)
    else [s[0]] + WithoutId(s[1..], id)
  }

  /** An element survives the removal exactly when it was in the list and does not carry the id. */
  lemma {:induction false} WithoutIdMembers(s: seq<Instance>, id: string, x: Instance)
    ensures x in WithoutId(s, id) <==> x in s && x.id != id
  {
    if s != [] {
      WithoutIdMembers(s[1..], id, x);
      assert s == [s[0]] + s[1..];
    }
  }

  /** Filtering distributes over concatenation: the survivors keep their relative order. */
  lemma {:induction false} WithoutIdConcat(a: seq<Instance>, b: seq<Instance>, id: string)
    ensures WithoutId(a + b, id) == WithoutId(a, id) + WithoutId(b, id)
  {
    if a == [] {
      assert a + b == b;
    } else {
      assert (a + b)[1..] == a[1..] + b;
      WithoutIdConcat(a[1..], b, id);
    }
  }

  /** Removing an id that no element carries leaves the list as it was. */
  lemma {:induction false} WithoutAbsentId(s: seq<Instance>, id: string)
    requires forall j :: 0 <= j < |s| ==> s[j].id != id
    ensures WithoutId(s, id) == s
  {
    if s != [] {
      WithoutAbsentId(s[1..], id);
    }
  }

  /** Removing by id drops exactly the elements with that id: the list shrinks by their number. */
  lemma {:induction false} WithoutIdCount(s: seq<Instance>, id: string)
    ensures |WithoutId(s, id)| == |s| - CountId(s, id)
  {
    if s != [] {
      WithoutIdCount(s[1..], id);
    }
  }

  /** How many elements of `s` carry `id`. */
  function CountId(s: seq<Instance>, id: string): (n: nat)
    ensures n <= |s|
    ensures n == 0 <==> forall j :: 0 <= j < |s| ==> s[j].id != id
  {
    if s == [] then 0
    else (if s[0].id == id then 1 else 0) + CountId(s[1..], id)
  }

  /** Removing a fresh id from a list with that one element spliced in at `k` removes just that element. */
  lemma WithoutSplicedId(s: seq<Instance>, k: nat, e: Instance)
    requires k <= |s|
    requires forall j :: 0 <= j < |s| ==> s[j].id != e.id
    ensures WithoutId(s[..k] + [e] + s[k..], e.id) == s
  {
    WithoutIdConcat(s[..k] + [e], s[k..], e.id);
    WithoutIdConcat(s[..k], [e], e.id);
    WithoutAbsentId(s[..k], e.id);
    WithoutAbsentId(s[k..], e.id);
    assert s[..k] + s[k..] == s;
  }

  /**
   * Adding an element under a fresh id and then removing that id gives back
   * the original list, wherever the element was inserted.
   */
  lemma RemoveAfterInsert(s: seq<Instance>, index: int, e: Instance)
    requires forall j :: 0 <= j < |s| ==> s[j].id != e.id
    ensures WithoutId(Inserted(s, index, e), e.id) == s
  {
    WithoutSplicedId(s, SpliceStart(index, |s|), e);
  }

  /**
   * The list after `updateElemet(id, e)`: the first element carrying `id` is
   * overwritten in place; with no such element the list is unchanged.
   */
  function ReplaceFirst(s: seq<Instance>, id: string, e: Instance): (r: seq<Instance>)
    ensures |r| == |s|
  {
    if s == [] then []
    else if s[0].id == id then [e] + s[1..]
    else [s[0]] + ReplaceFirst(s[1..], id, e)
  }

  /** When position `k` holds the first match, only position `k` changes, and it becomes `e`. */
  lemma {:induction false} ReplaceFirstAt(s: seq<Instance>, id: string, e: Instance, k: nat)
    requires k < |s| && s[k].id == id
    requires forall j :: 0 <= j < k ==> s[j].id != id
    ensures ReplaceFirst(s, id, e) == s[k := e]
  {
    if k > 0 {
      ReplaceFirstAt(s[1..], id, e, k - 1);
      assert s[k := e] == [s[0]] + s[1..][k - 1 := e];
    }
  }

  /** With no element carrying `id`, the update changes nothing. */
  lemma {:induction false} ReplaceFirstAbsent(s: seq<Instance>, id: string, e: Instance)
    requires forall j :: 0 <= j < |s| ==> s[j].id != id
    ensures ReplaceFirst(s, id, e) == s
  {
    if s != [] {
      ReplaceFirstAbsent(s[1..], id, e);
    }
  }

  /**
   * `Array.prototype.findIndex(el => el.id === id)`: the first position
   * holding `id`, or -1.
   */
  method FindIndex(s: seq<Instance>, id: string) returns (index: int)
    ensures -1 <= index < |s|
    ensures index == -1 <==> forall j :: 0 <= j < |s| ==> s[j].id != id
    ensures 0 <= index ==> s[index].id == id && forall j :: 0 <= j < index ==> s[j].id != id
  {
    var i := 0;
    while i < |s|
      invariant 0 <= i <= |s|
      invariant forall j :: 0 <= j < i ==> s[j].id != id
    {
      if s[i].id == id {
        return i;
      }
      i := i + 1;
    }
    return -1;
  }

  /** The designer state held by the context provider. */
  class Designer {
    var elements: seq<Instance>
    var selectedElement: Option<Instance>

    /** The initial state: no elements and nothing selected. */
    constructor ()
      ensures elements == [] && selectedElement == None
    {
      elements := [];
      selectedElement := None;
    }

    /** `addElement(index, element)`: splices `element` in at `index`. */
    method AddElement(index: int, element: Instance)
      modifies this
      ensures elements == Inserted(old(elements), index, element)
      ensures selectedElement == old(selectedElement)
    {
      var k := SpliceStart(index, |elements|);
      elements := elements[..k] + [element] + elements[k..];
    }

    /** `removeElement(id)`: drops every element carrying `id`. */
    method RemoveElement(id: string)
      modifies this
      ensures elements == WithoutId(old(elements), id)
      ensures selectedElement == old(selectedElement)
    {
      elements := WithoutId(elements, id);
    }

    /**
     * `updateElemet(id, element)`: writes `element` at the index `findIndex`
     * returns. When that index is -1 the write sets a property named "-1" on
     * the copied array, which is not one of its entries, so the list of
     * elements is unchanged.
     */
    method UpdateElement(id: string, element: Instance)
      modifies this
      ensures elements == ReplaceFirst(old(elements), id, element)
      ensures selectedElement == old(selectedElement)
    {
      var index := FindIndex(elements, id);
      if index >= 0 {
        ReplaceFirstAt(elements, id, element, index);
        elements := elements[index := element];
      } else {
        ReplaceFirstAbsent(elements, id, element);
      }
    }

    /** `setSelectedElement(element)`: changes the selection and nothing else. */
    method SetSelectedElement(element: Option<Instance>)
      modifies this
      ensures selectedElement == element
      ensures elements == old(elements)
    {
      selectedElement := element;
    }
  }
}
