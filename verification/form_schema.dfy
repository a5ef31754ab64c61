/**
 * The form-creation schema (`formSchema`): an object with a `name` string
 * of at least 4 characters and an optional `description` string. Other
 * keys of the input are dropped.
 */
module FormSchema {
  import opened Wrappers

  /** A value given for a key: a string, or anything else (number, boolean, null, object). */
  datatype Input = Text(s: string) | NonText

  /** The submitted object, restricted to the two keys the schema reads; None is an absent key. */
  datatype FormInput = FormInput(name: Option<Input>, description: Option<Input>)

  /** `formSchemaType`, the parsed values. */
  datatype FormValues = FormValues(name: string, description: Option<string>)

  const MinNameLength: nat := 4

  /** `z.string().min(4)` for `name`. */
  predicate NameAccepted(name: Option<Input>) {
    name.Some? && name.value.Text? && |name.value.s| >= MinNameLength
  }

  /** `z.string().optional()` for `description`. */
  predicate DescriptionAccepted(description: Option<Input>) {
    description.None? || description.value.Text?
  }

  /** `formSchema.safeParse`: the values when both keys pass, nothing otherwise. */
  function Parse(input: FormInput): (r: Option<FormValues>)
    ensures r.Some? <==> NameAccepted(input.name) && DescriptionAccepted(input.description)
    ensures r.Some? ==> Some(Text(r.value.name)) == input.name
    ensures r.Some? ==> r.value.description.None? == input.description.None?
    ensures r.Some? && r.value.description.Some? ==> input.description == Some(Text(r.value.description.value))
  {
    if NameAccepted(input.name) && DescriptionAccepted(input.description) then
      Some(FormValues(input.name.value.s,
                      match input.description case None => None case Some(d) => Some(d.s)))
    else None
  }

  /** The object a client sends for the given values. */
  function Encode(v: FormValues): (input: FormInput)
    ensures input.name == Some(Text(v.name))
  {
    FormInput(Some(Text(v.name)), match v.description case None => None case Some(d) => Some(Text(d)))
  }

  /** Values with a long enough name survive encoding and parsing unchanged. */
  lemma ParseEncode(v: FormValues)
    requires |v.name| >= MinNameLength
    ensures Parse(Encode(v)) == Some(v)
  {
  }

  /** A name shorter than 4 characters, or a missing or non-string one, is rejected whatever the description. */
  lemma ShortNameRejected(input: FormInput)
    requires input.name.None? || input.name.value.NonText? || |input.name.value.s| < MinNameLength
    ensures Parse(input).None?
  {
  }

  /** Any name of 4 or more characters is accepted when the description is absent or a string. */
  lemma LongNameAccepted(name: string, description: Option<string>)
    requires |name| >= MinNameLength
    ensures Parse(FormInput(Some(Text(name)), None)) == Some(FormValues(name, None))
    ensures description.Some? ==>
      Parse(FormInput(Some(Text(name)), Some(Text(description.value)))) == Some(FormValues(name, description))
  {
  }

  /** A description that is present but not a string is rejected even with a valid name. */
  lemma NonTextDescriptionRejected(name: string)
    ensures Parse(FormInput(Some(Text(name)), Some(NonText))).None?
  {
  }
}
