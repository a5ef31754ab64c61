/**
 * The separator descriptor (`SeparatorFieldFormElement`): a decorative
 * element with no attributes and a constant-true `validate`.
 */
module SeparatorFieldElement {
  import opened Wrappers
  import opened Elements

  /** `construct(id)`: exactly `{id, type}`, with no attribute bag. */
  function Construct(id: string): (inst: Instance)
    ensures inst.id == id && inst.tag == SeparatorField
    ensures inst.extraAttributes.None?
  {
    Instance(id, SeparatorField, None)
  }

  /** `validate: () => true`: whatever the instance and the value. */
  function Validate(inst: Instance, currentValue: string): (r: Outcome)
    ensures r == Returns(true)
  {
    Returns(true)
  }
}
