# Form builder: the form-element layer in Dafny

This project models the form-element layer of a form-building web
application. Owners design forms by dragging field types from a palette onto
a canvas and editing each field's properties. Visitors fill the published
form. Owners review, edit and export the submissions.

The model covers these parts:

- **Element registry** (`Elements`, `Registry`): the closed set of eleven
  field tags and the attribute bag of an element instance. It also covers
  the `FormElements` record, which maps each tag to a descriptor with
  `construct(id)` and, for every tag except the text field, a `validate`.
  A text field has no `validate` to call, so calling it throws.
- **Designer state** (`DesignerContext`): a `Designer` class holding the
  ordered element list and the selected element, with `addElement`,
  `removeElement` and `updateElemet`. Each method is proved against a
  function on sequences (`Inserted`, `WithoutId`, `ReplaceFirst`), and the
  laws of those functions are proved as lemmas.
- **Designer canvas** (`DesignerView`): the drop rule of `onDragEnd` and the
  element wrapper's delete and select actions.
- **Field descriptors**: `TextFieldElement`, `TextAreaElement`,
  `SelectFieldElement`, `CheckboxFieldElement`, `TitleFieldElement` and
  `SeparatorFieldElement`. Each has its defaults, the properties schema's
  bounds, `construct`, `validate`, and the properties panel's
  `applyChanges`. The fill-in components' value and error state are classes.
  The select field also has option-list editing, and the checkbox has its
  checked/"true"/"false" encoding.
- **Submission editor** (`EditButton`): `calculateTotals` is a method with
  two loops, proved against a prefix fold (`Accumulate`) and the averaging
  step (`Averages`). Lemmas describe each identifier's group. The group's
  sum and count restart whenever its running sum is exactly 0, and the
  model keeps that rule. `AverageIsGroupMean` gives the condition under
  which the total is the true mean. `ResetDiscardsEarlierValues` shows a
  case where it is not. The `EditDialog` class holds the edited values,
  the totals and the loading flag.
- **Dashboard statistics** (`FormStats`): the submission and bounce rates.
  They are not clamped.
- **Spreadsheet export** (`DownloadExcel`): one row per submission. A row
  is an ordered list of keyed cells, following how a JavaScript object
  keeps its keys: assigning an existing key keeps its place, and a new key
  goes last.
- **Create-form schema** (`FormSchema`): the name needs at least 4
  characters, and the description is an optional string.

Calls into code outside the model are parameters:

- `idGenerator()` is the new id of `OnDragEnd`.
- `parseFloat` is a `string -> Option<real>`, where None stands for NaN.
- `JSON.parse` is a `string -> Option<map<string, string>>`, where None
  means it throws.
- `new Date(...).toLocaleString()` is a `string -> string`.
- The unshown descriptors come in as `Registry.Unshown`.
- Whether `onSubmit` throws is a boolean.

Two behaviours of the code are worth stating up front:

- The top-half and bottom-half drop zones of a placed element carry its
  `elementId`, but `onDragEnd` never reads the drop target's data. A
  palette button always inserts at index 0, and dragging a placed element
  changes nothing (`DropTargetIgnored`, `OnDragEnd`).
- The export parses every submission inside one `try`, so one content that
  fails to parse aborts the whole workbook (`DownloadExcel.DownloadExcel`
  returns `Failed`).

## Model

| member | source | states |
|---|---|---|
| `Elements.AllTypesIsTheClosedSet` | src/components/form/disingner/FormElemets.tsx:17-28 | The tag set has exactly eleven members, all distinct, and every tag is among them. |
| `Elements.ParseType` | src/components/form/disingner/FormElemets.tsx:17-28 | A recognised tag name prints back as the same string, and a string is rejected exactly when it is no tag's name. |
| `Elements.TypeNameRoundTrip` | src/components/form/disingner/FormElemets.tsx:17-28 | Every tag's stored name parses back to that tag, including "DateFíeld" with its accented í. |
| `Elements.RequiredFlag` | src/components/form/disingner/fields/TextAreaField.tsx:66-67 | Reading `extraAttributes.required` throws without an attribute bag. Otherwise it is JavaScript truthiness of the entry, and a missing entry is false. |
| `Registry.FormElements` | src/components/form/disingner/FormElemets.tsx:100-119 | The registry is total over the tags. Each descriptor's tag is its key, and only the text field has no `validate`. |
| `Registry.Validate` | src/components/form/disingner/FormElemets.tsx:82 | Calling the text field's missing `validate` throws. |
| `Registry.ShownConstructKeepsIdAndTag` | src/components/form/disingner/FormElemets.tsx:50 | Each modelled descriptor's `construct(id)` keeps the id and sets its own tag. |
| `Registry.ConstructKeepsIdAndTag` | src/components/form/disingner/FormElemets.tsx:107-119 | If the unshown descriptors also keep id and tag, then every tag's `construct` does. |
| `Registry.OnlySeparatorLacksAttributes` | src/components/form/disingner/fields/SeparatorField.tsx:28-33 | Among the modelled descriptors, exactly the separator builds an instance without an attribute bag. |
| `Registry.DecorativeAlwaysValid` | src/components/form/disingner/fields/TitleField.tsx:52 | Title and separator validate to true for every instance and value. |
| `Registry.RequiredBoundary` | src/components/form/disingner/fields/CheckboxField.tsx:58-68 | On a required instance: text area and select reject "". The checkbox rejects "false" and "" and accepts "true". |
| `Registry.OptionalAcceptsAll` | src/components/form/disingner/fields/SelectField.tsx:66-76 | A non-required text area, select or checkbox accepts every value. |
| `Registry.FreshInstancesValid` | src/components/form/disingner/FormElemets.tsx:107-119 | A freshly built instance of any modelled tag with a `validate` accepts every value. |
| `DesignerContext.SpliceStart` | src/components/form/disingner/context/DisignerContext.tsx:32 | The splice position: an index in range is kept, a larger one appends, and a negative one counts from the end, clamped at 0. |
| `DesignerContext.Inserted` | src/components/form/disingner/context/DisignerContext.tsx:29-35 | Inserting makes the list one longer, with the new element at the splice position, the entries before it unchanged and the later ones shifted right. |
| `DesignerContext.WithoutId` | src/components/form/disingner/context/DisignerContext.tsx:37-39 | Removing by id never lengthens the list. |
| `DesignerContext.WithoutIdMembers` | src/components/form/disingner/context/DisignerContext.tsx:38 | An element survives removal exactly when it was in the list and does not carry the id. |
| `DesignerContext.WithoutIdConcat` | src/components/form/disingner/context/DisignerContext.tsx:38 | Removal distributes over concatenation, so the survivors keep their relative order. |
| `DesignerContext.WithoutAbsentId` | src/components/form/disingner/context/DisignerContext.tsx:38 | Removing an id no element carries leaves the list unchanged. |
| `DesignerContext.WithoutIdCount` | src/components/form/disingner/context/DisignerContext.tsx:38 | The list shrinks by exactly the number of elements carrying the id. |
| `DesignerContext.WithoutSplicedId` | src/components/form/disingner/context/DisignerContext.tsx:29-39 | Splicing in an element with a fresh id and then removing that id restores the list. |
| `DesignerContext.RemoveAfterInsert` | src/components/form/disingner/context/DisignerContext.tsx:29-39 | `removeElement` undoes `addElement` of an element with a fresh id, at any index. |
| `DesignerContext.ReplaceFirst` | src/components/form/disingner/context/DisignerContext.tsx:41-48 | Replacing by id keeps the length. |
| `DesignerContext.ReplaceFirstAt` | src/components/form/disingner/context/DisignerContext.tsx:43-46 | When position k holds the first match, the update is exactly a write at k. |
| `DesignerContext.ReplaceFirstAbsent` | src/components/form/disingner/context/DisignerContext.tsx:44-45 | With no matching id, the list is unchanged: the write to index -1 touches no entry. |
| `DesignerContext.FindIndex` | src/components/form/disingner/context/DisignerContext.tsx:44 | `findIndex` returns -1 exactly when no element carries the id. Otherwise it returns the position of the first element that does. |
| `DesignerContext.Designer.constructor` | src/components/form/disingner/context/DisignerContext.tsx:26-27 | The designer starts with an empty list and nothing selected. |
| `DesignerContext.Designer.AddElement` | src/components/form/disingner/context/DisignerContext.tsx:29-35 | The new list is `Inserted(old list, index, element)`, and the selection is unchanged. |
| `DesignerContext.Designer.RemoveElement` | src/components/form/disingner/context/DisignerContext.tsx:37-39 | The new list is `WithoutId(old list, id)`, and the selection is unchanged. |
| `DesignerContext.Designer.UpdateElement` | src/components/form/disingner/context/DisignerContext.tsx:41-48 | The new list is `ReplaceFirst(old list, id, element)`, and the selection is unchanged. |
| `DesignerContext.Designer.SetSelectedElement` | src/components/form/disingner/context/DisignerContext.tsx:27 | The selection becomes the given element or none, and the list is unchanged. |
| `DesignerView.DroppedElement` | src/components/form/disingner/Designer.tsx:39-53 | A drag end adds an element exactly when both the dragged item and the target exist and the item is a palette button. The element is that tag's `construct` of the new id. |
| `DesignerView.DropTargetIgnored` | src/components/form/disingner/Designer.tsx:39-53 | Which drop target is under the pointer (area, top half or bottom half of an element) does not change the result. |
| `DesignerView.DroppedElementShape` | src/components/form/disingner/Designer.tsx:45-49 | A dropped palette button of a modelled tag yields an element with the new id and that tag. |
| `DesignerView.InsertAtFront` | src/components/form/disingner/Designer.tsx:51 | Inserting at index 0 puts the element first, followed by the old list. |
| `DesignerView.OnDragEnd` | src/components/form/disingner/Designer.tsx:39-53 | The list becomes the dropped element followed by the old list, or stays unchanged when nothing is dropped. The selection is unchanged. |
| `DesignerView.OnDeleteClick` | src/components/form/disingner/Designer.tsx:175-178 | The delete button removes the wrapper's own element by its id. |
| `DesignerView.OnWrapperClick` | src/components/form/disingner/Designer.tsx:154-158 | A click selects the wrapper's element and leaves the list unchanged. |
| `TextFieldElement.ParseProperties` | src/components/form/disingner/fields/TextField.tsx:33-38 | Accepted exactly when 2 ≤ \|label\| ≤ 50, \|helperText\| ≤ 200 and \|placeHolder\| ≤ 50. The submitted values are kept, and an omitted `required` becomes false. |
| `TextFieldElement.ToAttributes` | src/components/form/disingner/fields/TextField.tsx:26-31 | The attribute bag has exactly the keys label, helperText, required and placeHolder. |
| `TextFieldElement.ReadProperties` | src/components/form/disingner/fields/TextField.tsx:72-77 | The read succeeds exactly when label, helperText and placeHolder are strings and required is a boolean. The properties are those four entries. |
| `TextFieldElement.AttributesRoundTrip` | src/components/form/disingner/fields/TextField.tsx:80-96 | Properties written by `applyChanges` read back unchanged when the panel resets. |
| `TextFieldElement.Construct` | src/components/form/disingner/fields/TextField.tsx:40-46 | The new element has the given id, tag TextField, the defaults ("Campo de texto", "Helper text", not required, "Escriba aqui...") and is not required. The attribute bag holds exactly the property keys. |
| `TextFieldElement.DefaultsAccepted` | src/components/form/disingner/fields/TextField.tsx:26-38 | The defaults satisfy the properties schema. |
| `TextFieldElement.Updated` | src/components/form/disingner/fields/TextField.tsx:84-96 | The updated element keeps id and tag, and its attributes are exactly the four submitted values. |
| `TextFieldElement.ApplyChanges` | src/components/form/disingner/fields/TextField.tsx:84-96 | An accepted input replaces the element with that id by the updated one. A rejected input changes nothing. The selection is unchanged. |
| `TextAreaElement.ParseProperties` | src/components/form/disingner/fields/TextAreaField.tsx:37-43 | Accepted exactly when `required` is given, 2 ≤ \|label\| ≤ 50, \|helperText\| ≤ 200, \|placeHolder\| ≤ 50 and 1 ≤ rows ≤ 10. The submitted values are kept. |
| `TextAreaElement.ToAttributes` | src/components/form/disingner/fields/TextAreaField.tsx:29-35 | The attribute bag has exactly the five property keys. |
| `TextAreaElement.ReadProperties` | src/components/form/disingner/fields/TextAreaField.tsx:89-95 | The read succeeds exactly when label, helperText and placeHolder are strings, required is a boolean and rows is a number. The properties are those five entries. |
| `TextAreaElement.AttributesRoundTrip` | src/components/form/disingner/fields/TextAreaField.tsx:98-115 | Properties written by `applyChanges` read back unchanged. |
| `TextAreaElement.Construct` | src/components/form/disingner/fields/TextAreaField.tsx:45-51 | The new element has the given id, tag TextAreaField and the defaults ("Area de texto", 3 rows, not required). The attribute bag holds exactly the property keys. |
| `TextAreaElement.DefaultsAccepted` | src/components/form/disingner/fields/TextAreaField.tsx:29-43 | The defaults satisfy the properties schema. |
| `TextAreaElement.Validate` | src/components/form/disingner/fields/TextAreaField.tsx:61-71 | It throws exactly when there is no attribute bag. It rejects exactly a required instance with the empty value. |
| `TextAreaElement.ConstructedAcceptsAll` | src/components/form/disingner/fields/TextAreaField.tsx:45-71 | A fresh text area accepts every value. |
| `TextAreaElement.Updated` | src/components/form/disingner/fields/TextAreaField.tsx:102-115 | The updated element keeps id and tag, and its attributes are exactly the five submitted values. |
| `TextAreaElement.UpdatedValidates` | src/components/form/disingner/fields/TextAreaField.tsx:61-115 | After an update, a value is valid exactly when the field is not required or the value is non-empty. |
| `TextAreaElement.ApplyChanges` | src/components/form/disingner/fields/TextAreaField.tsx:102-115 | An accepted input replaces the element with that id. A rejected one changes nothing. The selection is unchanged. |
| `TextAreaElement.InitialValue` | src/components/form/disingner/fields/TextAreaField.tsx:278 | The fill-in value starts as `defaultValue`, or "" when absent. |
| `TextAreaElement.Input.constructor` | src/components/form/disingner/fields/TextAreaField.tsx:278-283 | The value starts from `defaultValue`, and the error flag is `isInvalid === true`. |
| `TextAreaElement.Input.OnChange` | src/components/form/disingner/fields/TextAreaField.tsx:295 | Typing sets the value and nothing else. |
| `TextAreaElement.Input.OnBlur` | src/components/form/disingner/fields/TextAreaField.tsx:296-302 | Without a callback nothing changes. With one, the error flag becomes "invalid", and a value is submitted under the element's id exactly when it is valid. |
| `SelectFieldElement.ParseProperties` | src/components/form/disingner/fields/SelectField.tsx:42-48 | Accepted exactly within the three length bounds. An omitted `required` becomes false and omitted options become []. |
| `SelectFieldElement.ToAttributes` | src/components/form/disingner/fields/SelectField.tsx:33-40 | The attribute bag has exactly the five property keys. |
| `SelectFieldElement.ReadProperties` | src/components/form/disingner/fields/SelectField.tsx:94-100 | The read succeeds exactly when label, helperText and placeHolder are strings, required is a boolean and options is a string list. The properties are those five entries. |
| `SelectFieldElement.AttributesRoundTrip` | src/components/form/disingner/fields/SelectField.tsx:104-126 | Properties written by `applyChanges` read back unchanged. |
| `SelectFieldElement.Construct` | src/components/form/disingner/fields/SelectField.tsx:50-56 | The new element has the given id, tag SelectField and the defaults ("Campo de lista", no options, not required). The attribute bag holds exactly the property keys. |
| `SelectFieldElement.DefaultsAccepted` | src/components/form/disingner/fields/SelectField.tsx:33-48 | The defaults satisfy the schema even with `required` and `options` left out. |
| `SelectFieldElement.Validate` | src/components/form/disingner/fields/SelectField.tsx:66-76 | It throws exactly when there is no attribute bag. It rejects exactly a required instance with the empty value. |
| `SelectFieldElement.AddOption` | src/components/form/disingner/fields/SelectField.tsx:205-207 | Exactly one "Nueva Opción" is appended after the unchanged options. |
| `SelectFieldElement.EditOption` | src/components/form/disingner/fields/SelectField.tsx:221-223 | Only option `index` changes, and it becomes the typed text. |
| `SelectFieldElement.DeleteOption` | src/components/form/disingner/fields/SelectField.tsx:229-233 | Exactly option `index` is removed, and the others keep their order. |
| `SelectFieldElement.DeleteUndoesAdd` | src/components/form/disingner/fields/SelectField.tsx:205-233 | Deleting the option just added restores the list. |
| `SelectFieldElement.EditUndoesEdit` | src/components/form/disingner/fields/SelectField.tsx:221-223 | Editing an option back to its old text restores the list. |
| `SelectFieldElement.OptionsEditor.Add` | src/components/form/disingner/fields/SelectField.tsx:205-207 | The option list becomes `AddOption` of the old list. |
| `SelectFieldElement.OptionsEditor.Edit` | src/components/form/disingner/fields/SelectField.tsx:221-223 | The option list becomes `EditOption` of the old list. |
| `SelectFieldElement.OptionsEditor.Delete` | src/components/form/disingner/fields/SelectField.tsx:229-233 | The option list becomes `DeleteOption` of the old list. |
| `SelectFieldElement.Updated` | src/components/form/disingner/fields/SelectField.tsx:107-124 | The updated element keeps id and tag, and its attributes are exactly the five submitted values. |
| `SelectFieldElement.ApplyChanges` | src/components/form/disingner/fields/SelectField.tsx:107-126 | An accepted input replaces the element and clears the selection. A rejected one changes nothing. |
| `SelectFieldElement.Input.constructor` | src/components/form/disingner/fields/SelectField.tsx:320-325 | The value starts as `defaultValue` or "", and the error flag is `isInvalid === true`. |
| `SelectFieldElement.Input.OnValueChange` | src/components/form/disingner/fields/SelectField.tsx:345-351 | The choice becomes the value. With a callback, the error flag becomes "invalid" and the choice is submitted even when invalid. |
| `CheckboxFieldElement.ParseProperties` | src/components/form/disingner/fields/CheckboxField.tsx:36-40 | Accepted exactly when 2 ≤ \|label\| ≤ 50 and \|helperText\| ≤ 200. An omitted `required` becomes false. |
| `CheckboxFieldElement.ToAttributes` | src/components/form/disingner/fields/CheckboxField.tsx:30-34 | The attribute bag has exactly the keys label, helperText and required. |
| `CheckboxFieldElement.ReadProperties` | src/components/form/disingner/fields/CheckboxField.tsx:84-91 | The read succeeds exactly when label and helperText are strings and required is a boolean. The properties are those three entries. |
| `CheckboxFieldElement.AttributesRoundTrip` | src/components/form/disingner/fields/CheckboxField.tsx:94-114 | Properties written by `applyChanges` read back unchanged. |
| `CheckboxFieldElement.Construct` | src/components/form/disingner/fields/CheckboxField.tsx:42-48 | The new element has the given id, tag CheckboxField and the defaults ("Checkbox field", not required). The attribute bag holds exactly the property keys. |
| `CheckboxFieldElement.DefaultsAccepted` | src/components/form/disingner/fields/CheckboxField.tsx:30-40 | The defaults satisfy the schema. |
| `CheckboxFieldElement.Validate` | src/components/form/disingner/fields/CheckboxField.tsx:58-68 | It throws exactly when there is no attribute bag. It rejects exactly a required instance whose value is not the string "true". |
| `CheckboxFieldElement.IsChecked` | src/components/form/disingner/fields/CheckboxField.tsx:250-251 | Only the state `checked === true` counts as checked. The unchecked and indeterminate states do not. |
| `CheckboxFieldElement.Encode` | src/components/form/disingner/fields/CheckboxField.tsx:255 | The encoding is "true" exactly for checked and "false" otherwise. |
| `CheckboxFieldElement.Decode` | src/components/form/disingner/fields/CheckboxField.tsx:233-235 | The initial flag is set exactly when `defaultValue` is the string "true". |
| `CheckboxFieldElement.DecodeEncode` | src/components/form/disingner/fields/CheckboxField.tsx:233-255 | Decoding an encoded flag gives back the flag. |
| `CheckboxFieldElement.EncodeDecode` | src/components/form/disingner/fields/CheckboxField.tsx:233-255 | Encoding a decoded "true" or "false" gives back the string. |
| `CheckboxFieldElement.RequiredPassesOnlyWhenChecked` | src/components/form/disingner/fields/CheckboxField.tsx:249-258 | On a required checkbox, a widget state passes validation exactly when it is checked. |
| `CheckboxFieldElement.Updated` | src/components/form/disingner/fields/CheckboxField.tsx:97-112 | The updated element keeps id and tag, and its attributes are exactly the three submitted values. |
| `CheckboxFieldElement.ApplyChanges` | src/components/form/disingner/fields/CheckboxField.tsx:97-114 | An accepted input replaces the element and clears the selection. A rejected one changes nothing. |
| `CheckboxFieldElement.Input.constructor` | src/components/form/disingner/fields/CheckboxField.tsx:233-240 | The box starts checked exactly when `defaultValue === "true"`, and the error flag is `isInvalid === true`. |
| `CheckboxFieldElement.Input.OnCheckedChange` | src/components/form/disingner/fields/CheckboxField.tsx:249-259 | Only `checked === true` checks the box. With a callback, the error flag becomes "invalid" and the encoded value is submitted even when invalid. |
| `TitleFieldElement.ParseTitle` | src/components/form/disingner/fields/TitleField.tsx:32-34 | A title is accepted exactly when it has 2 to 50 characters, and it is kept as given. |
| `TitleFieldElement.ToAttributes` | src/components/form/disingner/fields/TitleField.tsx:28-30 | The attribute bag is exactly `{title}`. |
| `TitleFieldElement.Construct` | src/components/form/disingner/fields/TitleField.tsx:36-42 | The new element has the given id, tag TitleField and the attributes exactly {title: "Titulo"}. |
| `TitleFieldElement.DefaultAccepted` | src/components/form/disingner/fields/TitleField.tsx:28-34 | The default title satisfies the schema. |
| `TitleFieldElement.Validate` | src/components/form/disingner/fields/TitleField.tsx:52 | The title accepts every instance and value. |
| `TitleFieldElement.Updated` | src/components/form/disingner/fields/TitleField.tsx:79-88 | The updated element keeps id and tag, and its attributes are exactly {title}. |
| `TitleFieldElement.ApplyChanges` | src/components/form/disingner/fields/TitleField.tsx:79-88 | An accepted title replaces the element with that id. A rejected one changes nothing. The selection is unchanged. |
| `SeparatorFieldElement.Construct` | src/components/form/disingner/fields/SeparatorField.tsx:28-33 | The new element has the given id, tag SeparatorField and no attribute bag. |
| `SeparatorFieldElement.Validate` | src/components/form/disingner/fields/SeparatorField.tsx:43 | The separator accepts every instance and value. |
| `EditButton.Identifier` | src/components/form/accionestable/EditButton.tsx:43 | A field's group is its `identifier` attribute when that is a string. A field with no attribute bag, or whose identifier is missing or not a string, falls in the group "". |
| `EditButton.RawValue` | src/components/form/accionestable/EditButton.tsx:44 | A field's text is its stored value, or "0" when that is missing or empty. |
| `EditButton.Contribution` | src/components/form/accionestable/EditButton.tsx:42-49 | A field contributes exactly when it is a NumberField whose text parses to a number other than 0. It then contributes that number. |
| `EditButton.Step` | src/components/form/accionestable/EditButton.tsx:51-59 | Each step keeps both dictionaries on the same keys with every count at least 1. |
| `EditButton.Accumulate` | src/components/form/accionestable/EditButton.tsx:41-64 | After any prefix of the form, both dictionaries have the same keys and every count is at least 1. |
| `EditButton.Averages` | src/components/form/accionestable/EditButton.tsx:67-72 | Every identifier with a sum gets an average, which is its sum divided by its count. |
| `EditButton.VisitElement` | src/components/form/accionestable/EditButton.tsx:41-64 | The `forEach` callback changes the dictionaries exactly as `Step` does. |
| `EditButton.CalculateTotals` | src/components/form/accionestable/EditButton.tsx:37-75 | The result is `Averages(Accumulate(form, values))`. |
| `EditButton.KeptSnoc` | src/components/form/accionestable/EditButton.tsx:51-59 | A group's kept values restart from the new value exactly when their sum is 0. |
| `EditButton.StepDescribes` | src/components/form/accionestable/EditButton.tsx:41-64 | One element changes a group only through its own contribution. |
| `EditButton.AccumulateByGroup` | src/components/form/accionestable/EditButton.tsx:41-64 | Each identifier's sum and count are the sum and number of the values its group still holds after the resets. |
| `EditButton.KeptIsSuffix` | src/components/form/accionestable/EditButton.tsx:51-54 | What a group holds is a non-empty suffix of its values. |
| `EditButton.KeptWhole` | src/components/form/accionestable/EditButton.tsx:51-54 | If no running sum returns to 0 before the end, the group holds all its values. |
| `EditButton.AveragedIdentifiers` | src/components/form/accionestable/EditButton.tsx:67-72 | An identifier has a total exactly when its group received a non-zero value. |
| `EditButton.AverageIsGroupMean` | src/components/form/accionestable/EditButton.tsx:67-72 | If no running sum returns to 0 before the end, the total is the mean of the group's values. |
| `EditButton.AverageOfKept` | src/components/form/accionestable/EditButton.tsx:51-72 | For every input, an identifier with a total still holds some values after the resets, and its total is their mean. |
| `EditButton.MissingValueIgnored` | src/components/form/accionestable/EditButton.tsx:44-49 | A field with a missing or empty value adds nothing. |
| `EditButton.OtherTagsIgnored` | src/components/form/accionestable/EditButton.tsx:42 | Elements other than NumberFields never change the totals. |
| `EditButton.ResetDiscardsEarlierValues` | src/components/form/accionestable/EditButton.tsx:51-54 | If a group's values are x, -x and then y, its total is y, not the mean of the three. |
| `EditButton.EditDialog.constructor` | src/components/form/accionestable/EditButton.tsx:30-34 | The dialog opens with the row's values and the stored totals, not recomputed, and no loader. |
| `EditButton.EditDialog.HandleValueChange` | src/components/form/accionestable/EditButton.tsx:80-90 | Exactly one key of the values is set, and the totals are recomputed from the updated values. |
| `EditButton.EditDialog.HandleSubmit` | src/components/form/accionestable/EditButton.tsx:93-114 | The current values and totals are sent together. The loader is off afterwards whether or not `onSubmit` throws. |
| `FormStats.GetFormStats` | actions/form.ts:32-50 | Null sums read as 0 and are returned unchanged. The two rates sum to 100. Without visits the rate is 0. With visits, rate × visits = submissions × 100. |
| `FormStats.NoDataIsFullBounce` | actions/form.ts:32-42 | No data gives a submission rate of 0 and a bounce rate of 100. |
| `FormStats.RateNonNegative` | actions/form.ts:36-39 | Non-negative counts give a non-negative submission rate. |
| `FormStats.UnclampedRates` | actions/form.ts:36-42 | With visits, the rate exceeds 100 and the bounce rate is negative exactly when there are more submissions than visits. |
| `FormStats.WorkedCases` | actions/form.ts:36-42 | The case (0, 0) gives 0 and 100. The case (10, 5) gives 50 and 50. The case (10, 12) gives 120 and -20. |
| `DownloadExcel.Lookup` | src/components/form/forms/DownloadExcelButton.tsx:31-39 | Reading a key of a row finds nothing exactly when the row lacks the key. |
| `DownloadExcel.Put` | src/components/form/forms/DownloadExcelButton.tsx:38 | Assigning a key keeps every existing cell's place. A new key is appended at the end, so the length grows by one exactly for a new key. |
| `DownloadExcel.PutKeys` | src/components/form/forms/DownloadExcelButton.tsx:38 | Assigning adds the key and no other. |
| `DownloadExcel.PutLookup` | src/components/form/forms/DownloadExcelButton.tsx:38 | After an assignment, the key reads the new value and every other key reads as before. |
| `DownloadExcel.PutDistinct` | src/components/form/forms/DownloadExcelButton.tsx:38 | An assignment never creates a second cell with the same key. |
| `DownloadExcel.ColumnKey` | src/components/form/forms/DownloadExcelButton.tsx:37 | The column key is the label when it is a non-empty string, and the field's id otherwise. |
| `DownloadExcel.CellValue` | src/components/form/forms/DownloadExcelButton.tsx:38 | A cell holds the submitted value for the field's id, or "" when there is none. |
| `DownloadExcel.FormatRow` | src/components/form/forms/DownloadExcelButton.tsx:31-40 | The row built by the loop is `RowSpec` of the date, the fields and the content. |
| `DownloadExcel.RowShape` | src/components/form/forms/DownloadExcelButton.tsx:31-39 | Every row starts with the date column and has no key twice. |
| `DownloadExcel.RowKeys` | src/components/form/forms/DownloadExcelButton.tsx:31-39 | A row's keys are exactly the date column and the fields' column keys. |
| `DownloadExcel.LastFieldWins` | src/components/form/forms/DownloadExcelButton.tsx:36-39 | A field's cell holds its own value unless a later field has the same column key. Of several fields sharing a label, the last one wins. |
| `DownloadExcel.DateCellKept` | src/components/form/forms/DownloadExcelButton.tsx:31-39 | The first cell holds the formatted date unless some field's column key is "Fecha de envío". |
| `DownloadExcel.ColWidth` | src/components/form/forms/DownloadExcelButton.tsx:49-54 | A width is the larger of 15 and 1.5 × the column key's length. |
| `DownloadExcel.ColWidths` | src/components/form/forms/DownloadExcelButton.tsx:49-54 | There is one width per field, in field order, repeated labels included. Width i is `ColWidth` of field i, so each is at least 15. |
| `DownloadExcel.ColWidthThreshold` | src/components/form/forms/DownloadExcelButton.tsx:50-53 | Keys of at most 10 characters get width 15. Longer keys get 1.5 per character. |
| `DownloadExcel.ContentOf` | src/components/form/forms/DownloadExcelButton.tsx:27-29 | String content is JSON-parsed. Other content is used as it is. |
| `DownloadExcel.DownloadExcel` | src/components/form/forms/DownloadExcelButton.tsx:18-64 | Missing or empty data gives the "no data" outcome. Content that fails to parse gives the error outcome. Otherwise there is one row per submission, in order, each `RowSpec` of its date and content, plus the per-field widths. |
| `FormSchema.Parse` | schemas/form.ts:4-7 | Accepted exactly when the name is a string of at least 4 characters and the description is absent or a string. The accepted values are the given ones. |
| `FormSchema.ParseEncode` | schemas/form.ts:4-7 | Values whose name has at least 4 characters survive encoding and parsing unchanged. |
| `FormSchema.ShortNameRejected` | schemas/form.ts:5 | A missing, non-string or shorter-than-4 name is rejected whatever the description. |
| `FormSchema.LongNameAccepted` | schemas/form.ts:5-6 | Any name of 4 or more characters is accepted, with the description absent or a string. |
| `FormSchema.NonTextDescriptionRejected` | schemas/form.ts:6 | A description that is present but not a string is rejected. |

## Left out

- Persistence and authentication are not part of this model. That covers
  the Prisma aggregate of `GetFormStats` (actions/form.ts:11-29), which
  becomes the two optional sums, and its user guard. Because `currentUser()`
  is not awaited, that guard can never fire.
- Library calls are parameters: `JSON.parse`, `toLocaleString`,
  `parseFloat` and `idGenerator`. The XLSX workbook building and file
  writing are left out, so the export stops at the rows and widths handed
  to the sheet.
- Numbers are Dafny reals: IEEE rounding, infinities and NaN are not
  modelled, and NaN is the `None` of the parse function. String lengths are
  counted in Dafny characters, not UTF-16 code units.
- The React rendering is left out. So are the `mouseIsOver` hover state,
  the dnd-kit sensors and overlay, the toasts and the alerts. The effect
  `setError(isInvalid === true)` is modelled only at mounting.
- The descriptors of NumberField, DateFíeld, ParagraphField, SpacerField
  and SubTitleField are not part of this model. They enter as the `Unshown`
  parameter, and no validator is invented for them.
- Every descriptor's `construct` shares one `extraAttributes` object, and
  editing an option writes into the form's array in place. The model uses
  values, so this aliasing is not captured.
- `Elements.Value` covers strings, booleans, numbers and string lists. An
  `identifier` or `label` attribute of another type is not modelled.
  `EditButton.Identifier` and `DownloadExcel.ColumnKey` read only string
  attributes, so a truthy non-string one is treated as missing.
- Submission contents are string-to-string maps. A parsed content that is
  not an object (for example JSON `null`) counts as a parse failure.
- JavaScript puts integer-like keys first in an object. The row model
  keeps insertion order for every key, so rows with numeric labels are not
  ordered as in a browser.
- `ws['!cols']` assigns the widths to columns by position, and the date
  column comes first. The model states the widths, not which column each
  lands on.
- `handleValueChange` builds the new values from the state captured when
  the handler was created. The model reads the current state, so two
  changes in one render are not modelled.
- `setElements`, used by the form builder page, is not part of the
  designer context and is not modelled.
- The select field's `OptionsEditor.Edit` and `OptionsEditor.Delete`
  require an existing index, as only rendered options can be edited or
  deleted.
- `DesignerContext.WithoutId`: its own contract states only that the list
  does not grow. The membership, order and count facts are the lemmas
  `WithoutIdMembers`, `WithoutIdConcat` and `WithoutIdCount`.
- `DesignerContext.ReplaceFirst`: its own contract states only the length.
  Where the element lands is `ReplaceFirstAt`, and the absent-id case is
  `ReplaceFirstAbsent`.
