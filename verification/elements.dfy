/**
 * The value types of the form-element layer: the closed set of field tags
 * (`ElementsType`), the loosely typed attribute bag of an element instance
 * (`extraAttributes?: Record<string, any>`), the instance itself, and the
 * outcome of calling a descriptor's `validate`.
 */
module Elements {
  import opened Wrappers

  /** The eleven field tags. `DateField` is the tag spelled "DateFíeld" in the program. */
  datatype ElementsType =
    | TextField
    | TitleField
    | SubTitleField
    | ParagraphField
    | SeparatorField
    | SpacerField
    | NumberField
    | TextAreaField
    | DateField
    | SelectField
    | CheckboxField

  /** Every tag, in declaration order. */
  const AllTypes: seq<ElementsType> := [
    TextField, TitleField, SubTitleField, ParagraphField, SeparatorField, SpacerField,
    NumberField, TextAreaField, DateField, SelectField, CheckboxField
  ]

  /** The tag set is closed and has exactly eleven members. */
  lemma AllTypesIsTheClosedSet()
    ensures |AllTypes| == 11
    ensures forall t: ElementsType :: t in AllTypes
    ensures forall i, j :: 0 <= i < j < |AllTypes| ==> AllTypes[i] != AllTypes[j]
  {
    forall t: ElementsType ensures t in AllTypes {
      match t
      case TextField => assert AllTypes[0] == t;
      case TitleField => assert AllTypes[1] == t;
      case SubTitleField => assert AllTypes[2] == t;
      case ParagraphField => assert AllTypes[3] == t;
      case SeparatorField => assert AllTypes[4] == t;
      case SpacerField => assert AllTypes[5] == t;
      case NumberField => assert AllTypes[6] == t;
      case TextAreaField => assert AllTypes[7] == t;
      case DateField => assert AllTypes[8] == t;
      case SelectField => assert AllTypes[9] == t;
      case CheckboxField => assert AllTypes[10] == t;
    }
  }

  /** The string a tag is stored under in serialized form content. */
  function TypeName(t: ElementsType): string {
    match t
    case TextField => "TextField"
    case TitleField => "TitleField"
    case SubTitleField => "SubTitleField"
    case ParagraphField => "ParagraphField"
    case SeparatorField => "SeparatorField"
    case SpacerField => "SpacerField"
    case NumberField => "NumberField"
    case TextAreaField => "TextAreaField"
    case DateField => "DateFíeld"
    case SelectField => "SelectField"
    case CheckboxField => "CheckboxField"
  }

  /** Reads a stored tag string back; any other string is not a tag. */
  function ParseType(s: string): (r: Option<ElementsType>)
    ensures r.Some? ==> TypeName(r.value) == s
    ensures r.None? <==> forall t :: TypeName(t) != s
  {
    if s == "TextField" then Some(TextField)
    else if s == "TitleField" then Some(TitleField)
    else if s == "SubTitleField" then Some(SubTitleField)
    else if s == "ParagraphField" then Some(ParagraphField)
    else if s == "SeparatorField" then Some(SeparatorField)
    else if s == "SpacerField" then Some(SpacerField)
    else if s == "NumberField" then Some(NumberField)
    else if s == "TextAreaField" then Some(TextAreaField)
    else if s == "DateFíeld" then Some(DateField)
    else if s == "SelectField" then Some(SelectField)
    else if s == "CheckboxField" then Some(CheckboxField)
    else None
  }

  /** Tag names round-trip, so no two tags share a name. */
  lemma TypeNameRoundTrip(t: ElementsType)
    ensures ParseType(TypeName(t)) == Some(t)
  {
  }

  /** A value held in an attribute bag (strings, booleans, numbers and string lists occur). */
  datatype Value = Str(s: string) | Bool(b: bool) | Num(n: real) | StrList(items: seq<string>)

  type Attributes = map<string, Value>

  /** JavaScript truthiness of an attribute value. */
  predicate Truthy(v: Value) {
    match v
    case Str(s) => s != ""
    case Bool(b) => b
    case Num(n) => n != 0.0
    case StrList(_) => true
  }

  /** `FormElementInstance`: an id, a tag, and an optional attribute bag. */
  datatype Instance = Instance(id: string, tag: ElementsType, extraAttributes: Option<Attributes>)

  /** One call of a form component's `submitValue(key, value)` callback. */
  datatype Submitted = Submitted(key: string, value: string)

  /** What calling `validate` does: return a verdict, or throw. */
  datatype Outcome = Returns(valid: bool) | Throws

  /**
   * `element.extraAttributes.required` used as a condition: None when the
   * instance has no attribute bag (the property read throws), otherwise the
   * truthiness of the `required` entry (a missing entry is `undefined`, falsy).
   */
  function RequiredFlag(inst: Instance): (r: Option<bool>)
    ensures r.None? <==> inst.extraAttributes.None?
    ensures r == Some(true) <==>
      inst.extraAttributes.Some? && "required" in inst.extraAttributes.value
      && Truthy(inst.extraAttributes.value["required"])
  {
    match inst.extraAttributes
    case None => None
    case Some(attrs) => Some("required" in attrs && Truthy(attrs["required"]))
  }

  /** The string entry `key` of an attribute bag, when present and a string. */
  function StringAttr(attrs: Attributes, key: string): (r: Option<string>)
    ensures r.Some? <==> key in attrs && attrs[key].Str?
    ensures r.Some? ==> attrs[key] == Str(r.value)
  {
    if key in attrs && attrs[key].Str? then Some(attrs[key].s) else None
  }

  /** The boolean entry `key` of an attribute bag, when present and a boolean. */
  function BoolAttr(attrs: Attributes, key: string): (r: Option<bool>)
    ensures r.Some? <==> key in attrs && attrs[key].Bool?
    ensures r.Some? ==> attrs[key] == Bool(r.value)
  {
    if key in attrs && attrs[key].Bool? then Some(attrs[key].b) else None
  }

  /** The numeric entry `key` of an attribute bag, when present and a number. */
  function NumberAttr(attrs: Attributes, key: string): (r: Option<real>)
    ensures r.Some? <==> key in attrs && attrs[key].Num?
    ensures r.Some? ==> attrs[key] == Num(r.value)
  {
    if key in attrs && attrs[key].Num? then Some(attrs[key].n) else None
  }

  /** The string-list entry `key` of an attribute bag, when present and a list. */
  function ListAttr(attrs: Attributes, key: string): (r: Option<seq<string>>)
    ensures r.Some? <==> key in attrs && attrs[key].StrList?
    ensures r.Some? ==> attrs[key] == StrList(r.value)
  {
    if key in attrs && attrs[key].StrList? then Some(attrs[key].items) else None
  }
}
