# Dynamic Android Form: a verified model of its field logic

Dynamic Android Form builds Android input forms from field controllers. Each controller
owns one named field. The fields include free text, auto-complete text, read-only text,
check-box and radio-button groups, an image grid, date and time pickers, and a button.
All fields of a form share one value store (`getModel()`), which maps a field name to the
object the field holds. Validation rules check the stored value of a field and report
errors. Error displays show those errors, either next to each field or in one pop-up alert.

This project models the renderer-independent part of that library in Dafny and proves
what each part promises:

- **Validation rules** (`Validations`). The required-field rule and the mobile-number rule
  are pure functions from (value, field name, field label) to an optional error. Validator
  objects are equal by class, so a hash set of validators behaves as a set of rule kinds.
- **The labelled-field base** (`BaseLine`). It keeps a mutable rule set with required and
  mobile toggles, and a validation pass whose errors are stated as a multiset, because a
  hash set has no iteration order.
- **Choice groups** (`CheckBox`, `RadioButton`, `Choice`). The selection lives in the store
  as a set. Each box's check handler adds or removes its item's value. A one-shot flag
  silences notifications while the prefill loop runs. Refresh makes every box agree with
  the stored set.
- **The image grid** (`ImageGroup`). Construction checks sizes. Building the view seeds the
  store with growing prefixes of the record list. The grid spacing arithmetic is modelled
  with Java's truncating `/` and `%`.
- **Text fields** (`EditText`, `AutoComplete`, `TextView`, `InputTypes`). Each has an
  input-type bit mask (`bv32`, with the Android constants). Each field orders its prefill
  and first refresh differently. A refresh writes the text only when it differs. The
  phone class carries a 10-character length cap.
- **Pickers** (`DatePicker`, `TimePicker`). Each is a one-dialog-at-a-time state machine.
  Confirming a value writes the store and the text and sends one notification.
- **The button** (`Button`). An enable flag reaches the widget's enabled state, colour and
  click binding only when `refresh` runs.
- **Error displays** (`ErrorDisplays`, `Forms`). The per-field display clears every
  element and routes each message to the first element with the error's field name. The
  pop-up display builds one body in which each message ends with a newline, then shows
  one alert.
- **Collaborators** (`Services`, `Widgets`, `Values`). These are the value store, a
  monotonic view-id allocator, listeners that count calls, an alert sink, and widgets with
  `text`, `checked`, `enabled`, `inputType` and a few surface fields.

Controllers whose source changes state step by step are classes with `modifies` frames.
Their loops are proved against specification functions: `Prefilled`, `Seeded` and
`ChangedCount` for the choice groups, `ItemsAsEntries` for the image grid, `Body` and
`LastRouted` for the error displays. The facts the source promises are proved about those
functions as lemmas.

## Model

| member | source | states |
|---|---|---|
| `Validations.EqualityIsByKind` | src/main/java/com/github/jarvis/validations/RequiredFieldValidator.java:37-50 | two validator objects are equal exactly when they are of the same class; nothing equals null; equal objects share hash code 0 |
| `Validations.HashSetAddKeepsKindsDistinct` | src/main/java/com/github/jarvis/validations/RequiredMobileValidator.java:45-58 | adding a validator to a hash set with one object per class keeps one per class and adds its class, whether or not an equal one was present |
| `Validations.HashSetHoldsOnePerKind` | src/main/java/com/github/jarvis/validations/RequiredFieldValidator.java:37-50 | however many validators are added, the hash set holds at most one per class and exactly the classes added, so it behaves as a set of rule kinds |
| `Validations.FirstMissingImage` | src/main/java/com/github/jarvis/validations/RequiredFieldValidator.java:13-24 | the position found holds an image record whose drawable is null or empty, and no earlier entry does; no position means no entry lacks an image (other objects are skipped) |
| `Validations.ValidateRequiredField` | src/main/java/com/github/jarvis/validations/RequiredFieldValidator.java:10-29 | null fails with the field's label; a string fails iff it is empty; a list fails with the text of its first record lacking an image, else passes; any other object passes |
| `Validations.RequiredFieldExamples` | src/main/java/com/github/jarvis/validations/RequiredFieldValidator.java:13-28 | null fails, "abc" passes, a record with an empty drawable fails under its own text, a record with an image passes, the empty list passes, an integer passes |
| `Validations.RequiredFieldReportsFirstRecordOnly` | src/main/java/com/github/jarvis/validations/RequiredFieldValidator.java:15-21 | with two records lacking images, separated by another object, only the first record's text is reported |
| `Validations.IsValidPhoneNumber` | src/main/java/com/github/jarvis/validations/RequiredMobileValidator.java:20-37 | a phone number passes iff it has exactly 10 characters, all ASCII digits, the first at least '5' |
| `Validations.ValidateRequiredMobile` | src/main/java/com/github/jarvis/validations/RequiredMobileValidator.java:6-12 | null fails; a string fails iff it is not a valid phone number; any other object passes; a failure carries the field's name and label |
| `Validations.MobileExamples` | src/main/java/com/github/jarvis/validations/RequiredMobileValidator.java:20-37 | "9876543210" and "5876543210" pass; "1876543210", "98765", an 11-digit number and a number with a letter fail; an integer passes; null fails |
| `Validations.Validate` | src/main/java/com/github/jarvis/validations/RequiredFieldValidator.java:25-27 | any error a rule reports is of that rule's kind and names the validated field |
| `Validations.DifferentRulesReportDifferentErrors` | src/main/java/com/github/jarvis/validations/RequiredMobileValidator.java:8-9 | two different rules that both fail on a value report different errors |
| `BaseLine.RulesFor` | src/main/java/com/github/jarvis/controllers/BaseLineController.java:57-61 | the rule set built from the two flags holds the required rule iff `isRequired` and the mobile rule iff `isMobile` |
| `BaseLine.FailuresOfAreTheFailingRules` | src/main/java/com/github/jarvis/controllers/BaseLineController.java:129-141 | when each rule reports errors of its own kind, a pass collects every failing rule's error, only errors of rules in the set, and none twice |
| `BaseLine.FailuresOfCoverTheFailingRules` | src/main/java/com/github/jarvis/controllers/BaseLineController.java:133-138 | a pass does not stop at the first failure: every failing rule of the set contributes its error |
| `BaseLine.FailuresOfComeFromRules` | src/main/java/com/github/jarvis/controllers/BaseLineController.java:133-138 | every collected error is what some rule of the set reported |
| `BaseLine.FailuresOfAreDistinct` | src/main/java/com/github/jarvis/controllers/BaseLineController.java:133-138 | errors of rules of different kinds never coincide, so each error is collected at most once |
| `BaseLine.FailuresAreTheFailingRules` | src/main/java/com/github/jarvis/controllers/BaseLineController.java:129-141 | the errors of a pass over a field all carry the field's name, and are exactly the failing rules' errors, each once |
| `BaseLine.FailuresAddRule` | src/main/java/com/github/jarvis/controllers/BaseLineController.java:133-138 | running one more rule adds exactly that rule's error, if any, to those collected so far |
| `BaseLine.BaseLineController.WithValidators` | src/main/java/com/github/jarvis/controllers/BaseLineController.java:72-76 | the controller keeps the given name, label and rule set |
| `BaseLine.BaseLineController.IsRequired` | src/main/java/com/github/jarvis/controllers/BaseLineController.java:115-117 | the query holds iff some rule of the set reports required-field errors |
| `BaseLine.BaseLineController.IsMobileRequired` | src/main/java/com/github/jarvis/controllers/BaseLineController.java:119-121 | the query holds iff some rule of the set reports mobile-number errors |
| `BaseLine.BaseLineController.constructor` | src/main/java/com/github/jarvis/controllers/BaseLineController.java:57-61 | starting from an empty set and applying both toggles yields exactly the rules the two flags ask for |
| `BaseLine.BaseLineController.GetLabel` | src/main/java/com/github/jarvis/controllers/BaseLineController.java:83-86 | the label, or the field name when there is no label |
| `BaseLine.BaseLineController.SetIsRequired` | src/main/java/com/github/jarvis/controllers/BaseLineController.java:94-100 | the required rule is added or removed as asked; `isRequired()` then answers the flag and the mobile rule is untouched |
| `BaseLine.BaseLineController.SetIsMobile` | src/main/java/com/github/jarvis/controllers/BaseLineController.java:102-108 | the mobile rule is added or removed as asked; `isMobileRequired()` then answers the flag and the required rule is untouched |
| `BaseLine.BaseLineController.ValidateInput` | src/main/java/com/github/jarvis/controllers/BaseLineController.java:129-141 | the returned list holds, as a multiset, exactly the errors of the rules in the set on the stored value |
| `BaseLine.BaseLineController.SetError` | src/main/java/com/github/jarvis/controllers/BaseLineController.java:173-176 | the call changes nothing |
| `BaseLine.BaseLineController.SetIsRequiredTwice` | src/main/java/com/github/jarvis/controllers/BaseLineController.java:94-100 | two `setIsRequired(true)` calls leave the set as one does: the required rule added once, every other rule as it was, the mobile query unchanged |
| `Values.ShowOrEmpty` | src/main/java/com/github/jarvis/controllers/EditTextController.java:253-254 | the text of a stored value: "" for null, the string itself for a string |
| `Values.NatToDecimal` | src/main/java/com/github/jarvis/controllers/ButtonController.java:48-49 | a stored number's `toString` is a non-empty string of ASCII digits that spells the number, with no leading zero |
| `Values.NatToDecimalExamples` | src/main/java/com/github/jarvis/controllers/ButtonController.java:48-49 | 0, 7, 120 and 1005 print as "0", "7", "120" and "1005" |
| `Widgets.Capped` | src/main/java/com/github/jarvis/controllers/EditTextController.java:216-220 | text shown through a length filter is a prefix of the text, all of it without a cap, and exactly the cap's length when the text is longer |
| `JavaText.TrimIsInfix` | src/main/java/com/github/jarvis/controllers/CheckBoxController.java:130 | `trim()` removes only leading and trailing characters up to U+0020, and the result neither starts nor ends with one |
| `JavaText.EqualsIgnoreCaseIsCharwise` | src/main/java/com/github/jarvis/controllers/RadioButtonController.java:154 | case-insensitive equality holds iff the strings have equal length and agree character by character after case folding (Basic Latin and Latin-1 letters) |
| `JavaText.EqualsIgnoreCaseExamples` | src/main/java/com/github/jarvis/controllers/RadioButtonController.java:154 | "Émile" matches "émile" and "YES" matches "yes"; "Yes" does not match "Yet", and the multiplication sign does not match the division sign |
| `JavaText.EqualsIgnoreCaseIsEquivalence` | src/main/java/com/github/jarvis/controllers/CheckBoxController.java:157 | case-insensitive equality is reflexive, symmetric and transitive |
| `JavaText.EqualsIgnoreCaseNeedsEqualLength` | src/main/java/com/github/jarvis/controllers/CheckBoxController.java:157 | strings of different lengths never match |
| `Services.IdAllocator.GenerateViewId` | src/main/java/com/github/jarvis/controllers/CheckBoxController.java:31 | each id handed out is one more than the last, and was never handed out before |
| `Services.FormModel.GetValue` | src/main/java/com/github/jarvis/controllers/CheckBoxController.java:213 | the stored value under the name, or null when the name has no entry |
| `Services.FormModel.SetValue` | src/main/java/com/github/jarvis/controllers/CheckBoxController.java:145 | only the value under the name changes |
| `Choice.ItemsAsValues` | src/main/java/com/github/jarvis/controllers/CheckBoxController.java:51-53 | the `useItemsAsValues` value list is the item labels, one per item, in order |
| `Choice.Toggled` | src/main/java/com/github/jarvis/controllers/CheckBoxController.java:138-143 | the toggled value is in the new set iff checked; every other value keeps its membership |
| `Choice.RewriteIsIdentity` | src/main/java/com/github/jarvis/controllers/CheckBoxController.java:159-161 | writing back the set just read from the store leaves the store as it was |
| `Choice.CheckStates` | src/main/java/com/github/jarvis/controllers/CheckBoxController.java:190-195 | the checked state of each box or button, in order |
| `Choice.SelectionIn` | src/main/java/com/github/jarvis/controllers/CheckBoxController.java:212-218 | the stored selection is the set the store holds under the field's name, or the empty set when it holds nothing |
| `CheckBox.ItemMatches` | src/main/java/com/github/jarvis/controllers/CheckBoxController.java:157 | a submitted item matches an item label iff, both trimmed, they have equal length and agree character by character after case folding |
| `CheckBox.CheckBoxController.Create` | src/main/java/com/github/jarvis/controllers/CheckBoxController.java:66-75 | one view id is reserved; construction fails iff values are given and their number differs from the items'; otherwise the controller holds what it was given and is not built |
| `CheckBox.CheckBoxController.OnCheckedChanged` | src/main/java/com/github/jarvis/controllers/CheckBoxController.java:135-150 | the box at position id minus base id toggles its item's value (`values[i]`, or index i) in the stored set, and a notification is sent iff prefill is over |
| `CheckBox.CheckBoxController.SetBoxChecked` | src/main/java/com/github/jarvis/controllers/CheckBoxController.java:158 | the box shows the new state; the handler runs, and the store changes, only when the state changes |
| `CheckBox.CheckBoxController.Tap` | src/main/java/com/github/jarvis/controllers/CheckBoxController.java:135-150 | a tap on a built box flips it, toggles its value in the store and sends exactly one notification |
| `CheckBox.CheckBoxController.RefreshBox` | src/main/java/com/github/jarvis/controllers/CheckBoxController.java:177-184 | the box ends checked iff its item's value is in the stored set (null counts as empty); a change writes the same set back |
| `CheckBox.CheckBoxController.Refresh` | src/main/java/com/github/jarvis/controllers/CheckBoxController.java:186-196 | every box ends checked iff its value is in the stored set, labels untouched; the store is rewritten with the same set iff some box changed, with one notification per changed box |
| `CheckBox.CheckBoxController.RefreshStep` | src/main/java/com/github/jarvis/controllers/CheckBoxController.java:192-195 | one loop turn brings box `index` in line with the stored set and leaves every other box as it was |
| `CheckBox.CheckBoxController.RefreshTurn` | src/main/java/com/github/jarvis/controllers/CheckBoxController.java:193-194 | after one box is refreshed, the store and the notification count follow the number of boxes changed so far |
| `CheckBox.CheckBoxController.CreateFieldView` | src/main/java/com/github/jarvis/controllers/CheckBoxController.java:120-168 | box i gets id base+i and the trimmed label i, and is checked iff its value is in the set prefilled up to it; the store ends as the seeded store; no notification is sent |
| `CheckBox.CheckBoxController.BuildBox` | src/main/java/com/github/jarvis/controllers/CheckBoxController.java:129-163 | one outer turn builds box `index`, refreshes it from the store and prefills it, taking the store from the seeded store of `index` to that of `index + 1` |
| `CheckBox.CheckBoxController.PrefillBox` | src/main/java/com/github/jarvis/controllers/CheckBoxController.java:156-163 | after the inner loop a box is checked iff it was or some submitted label matches its item, trimmed and ignoring case |
| `CheckBox.CheckBoxController.PrefillLabel` | src/main/java/com/github/jarvis/controllers/CheckBoxController.java:157-162 | one comparison: a match checks the box and rewrites the stored set unchanged |
| `CheckBox.CheckBoxController.PrefillEnd` | src/main/java/com/github/jarvis/controllers/CheckBoxController.java:156-163 | once every label has been compared, the store is the seeded store of the next box |
| `CheckBox.CheckBoxController.GetFieldView` | src/main/java/com/github/jarvis/controllers/BaseLineController.java:148-153 | the view is built on the first call only; later calls return the same boxes and change nothing |
| `CheckBox.CheckBoxController.PrefilledMembers` | src/main/java/com/github/jarvis/controllers/CheckBoxController.java:156-163 | after prefill a value is selected iff it was before or it is the value of a matched item |
| `CheckBox.CheckBoxController.AnyMatchedMeans` | src/main/java/com/github/jarvis/controllers/CheckBoxController.java:157 | some item among the first n is matched iff one of them has a matching submitted label |
| `CheckBox.CheckBoxController.NoMatchKeepsSelection` | src/main/java/com/github/jarvis/controllers/CheckBoxController.java:156-163 | with no match, prefill leaves the selection as it was |
| `CheckBox.CheckBoxController.SeededSelection` | src/main/java/com/github/jarvis/controllers/CheckBoxController.java:159-161 | the seeded store holds a set, and that set is the prefilled selection |
| `CheckBox.CheckBoxController.SeededRewrite` | src/main/java/com/github/jarvis/controllers/CheckBoxController.java:159-161 | writing a non-empty prefilled set over the seeded store changes nothing, so the commented-out add leaves the rewrite without effect |
| `CheckBox.CheckBoxController.CreatedBoxesAgreeWithStore` | src/main/java/com/github/jarvis/controllers/CheckBoxController.java:154-163 | when items stand for distinct values, a box built early is checked iff its value is in the final stored set |
| `CheckBox.CheckBoxController.IndicesAreDistinct` | src/main/java/com/github/jarvis/controllers/CheckBoxController.java:137 | without a value list, no two items resolve to the same object |
| `RadioButton.ItemMatches` | src/main/java/com/github/jarvis/controllers/RadioButtonController.java:154 | a submitted item matches an item label iff, untrimmed, they have equal length and agree character by character after case folding |
| `RadioButton.RadioButtonController.Create` | src/main/java/com/github/jarvis/controllers/RadioButtonController.java:106-117 | one view id is reserved; construction fails iff values are given and their number differs from the items'; otherwise the controller holds what it was given |
| `RadioButton.RadioButtonController.OnCheckedChanged` | src/main/java/com/github/jarvis/controllers/RadioButtonController.java:135-148 | the button's item value is added or removed, other members unchanged, and a notification is sent iff prefill is over |
| `RadioButton.RadioButtonController.SetButtonChecked` | src/main/java/com/github/jarvis/controllers/RadioButtonController.java:155 | the button shows the new state; the handler runs only when the state changes |
| `RadioButton.RadioButtonController.Tap` | src/main/java/com/github/jarvis/controllers/RadioButtonController.java:135-148 | a tap only ever checks: on an unchecked built button it checks it, adds its value to the stored set and sends exactly one notification; on a checked one nothing changes |
| `RadioButton.RadioButtonController.RefreshButton` | src/main/java/com/github/jarvis/controllers/RadioButtonController.java:174-181 | the button ends checked iff its value is in the stored set (null counts as empty); a change writes the same set back |
| `RadioButton.RadioButtonController.Refresh` | src/main/java/com/github/jarvis/controllers/RadioButtonController.java:183-193 | every button ends checked iff its value is in the stored set; the store is rewritten with that set iff some button changed, with one notification per change |
| `RadioButton.RadioButtonController.RefreshStep` | src/main/java/com/github/jarvis/controllers/RadioButtonController.java:189-192 | one loop turn brings button `index` in line with the stored set and leaves the others as they were |
| `RadioButton.RadioButtonController.RefreshTurn` | src/main/java/com/github/jarvis/controllers/RadioButtonController.java:190-191 | after one button is refreshed, the store and the notification count follow the number of changed buttons so far |
| `RadioButton.RadioButtonController.CreateFieldView` | src/main/java/com/github/jarvis/controllers/RadioButtonController.java:119-165 | button i gets id base+i and label i, untrimmed, and is checked iff its value is in the set prefilled up to it; the store ends seeded; no notification is sent |
| `RadioButton.RadioButtonController.BuildButtons` | src/main/java/com/github/jarvis/controllers/RadioButtonController.java:128-161 | the outer loop builds every button in item order and leaves the store as the seeded store of all items |
| `RadioButton.RadioButtonController.BuildButton` | src/main/java/com/github/jarvis/controllers/RadioButtonController.java:129-160 | one outer turn builds, refreshes and prefills button `index`, taking the store to the seeded store of `index + 1` |
| `RadioButton.RadioButtonController.PrefillButton` | src/main/java/com/github/jarvis/controllers/RadioButtonController.java:153-160 | after the inner loop a button is checked iff its value was prefilled or a submitted label matches its label ignoring case |
| `RadioButton.RadioButtonController.PrefillLabel` | src/main/java/com/github/jarvis/controllers/RadioButtonController.java:154-159 | one comparison: a match checks the button (its handler adds the item's value if it was off) and then adds the raw submitted label |
| `RadioButton.RadioButtonController.MidwayStep` | src/main/java/com/github/jarvis/controllers/RadioButtonController.java:155-158 | a later matching label adds only itself to the stored set |
| `RadioButton.RadioButtonController.FirstMatchStep` | src/main/java/com/github/jarvis/controllers/RadioButtonController.java:155-158 | the first matching label adds the item's value and the label itself to the stored set |
| `RadioButton.RadioButtonController.NoMatchNoRaw` | src/main/java/com/github/jarvis/controllers/RadioButtonController.java:154 | with no matching label, no raw label is collected |
| `RadioButton.RadioButtonController.MidwayEnd` | src/main/java/com/github/jarvis/controllers/RadioButtonController.java:153-160 | once every label has been compared, the store is the seeded store of the next button |
| `RadioButton.RadioButtonController.GetFieldView` | src/main/java/com/github/jarvis/controllers/BaseLineController.java:148-153 | the view is built on the first call only; later calls return the same buttons and change nothing |
| `RadioButton.RadioButtonController.PrefilledMembers` | src/main/java/com/github/jarvis/controllers/RadioButtonController.java:153-160 | after prefill a value is selected iff it was before or some item's prefill added it |
| `RadioButton.RadioButtonController.RawWithinMembers` | src/main/java/com/github/jarvis/controllers/RadioButtonController.java:154-157 | a raw label is collected iff it is one of the submitted labels matching the item, exactly as submitted |
| `RadioButton.RadioButtonController.AnyMatchedMeans` | src/main/java/com/github/jarvis/controllers/RadioButtonController.java:154 | some item among the first n is matched iff one of them has a matching submitted label |
| `RadioButton.RadioButtonController.NoMatchKeepsSelection` | src/main/java/com/github/jarvis/controllers/RadioButtonController.java:153-160 | with no match, prefill leaves the selection as it was |
| `RadioButton.RadioButtonController.SeededSelection` | src/main/java/com/github/jarvis/controllers/RadioButtonController.java:156-158 | the seeded store holds a set, and that set is the prefilled selection |
| `RadioButton.RadioButtonController.SeededRewrite` | src/main/java/com/github/jarvis/controllers/RadioButtonController.java:156-158 | writing a non-empty prefilled set over the seeded store changes nothing |
| `RadioButton.RadioButtonController.CreatedButtonsAgreeWithStore` | src/main/java/com/github/jarvis/controllers/RadioButtonController.java:152-160 | without a value list, a button built early is checked iff its index is in the final stored set |
| `RadioButton.RadioButtonController.PrefillKeepsRawLabel` | src/main/java/com/github/jarvis/controllers/RadioButtonController.java:155-158 | item "Yes" prefilled by "yes" leaves both "Yes" and "yes" in the set |
| `RadioButton.RadioButtonController.IndicesAreDistinct` | src/main/java/com/github/jarvis/controllers/RadioButtonController.java:137 | without a value list, no two items resolve to the same object |
| `ImageGroup.JavaDiv` | src/main/java/com/github/jarvis/controllers/ImageGroupController.java:223 | Java's `/` agrees with Dafny's on non-negative operands and rounds toward zero for a negative dividend: the quotient is minus that of the magnitudes |
| `ImageGroup.JavaRem` | src/main/java/com/github/jarvis/controllers/ImageGroupController.java:220 | Java's `%` agrees with Dafny's on non-negative operands; for a negative dividend the remainder takes the dividend's sign, minus that of the magnitudes, and lies in (-b, 0] |
| `ImageGroup.ItemOffsetsByColumn` | src/main/java/com/github/jarvis/controllers/ImageGroupController.java:218-237 | with column c = position % n: with edges, left s-c*s/n, right (c+1)*s/n, top s only in the first row, bottom s; without, left c*s/n, right s-(c+1)*s/n, top s only after the first row, others untouched |
| `ImageGroup.ItemOffsets` | src/main/java/com/github/jarvis/controllers/ImageGroupController.java:218-237 | the top offset is the spacing in the first row with edges and after it without, else untouched; the bottom is the spacing with edges, else untouched |
| `ImageGroup.OffsetsAreBounded` | src/main/java/com/github/jarvis/controllers/ImageGroupController.java:223-234 | every offset assigned lies between 0 and the spacing; a side left unassigned keeps its value |
| `ImageGroup.NeighboursShareOneSpacing` | src/main/java/com/github/jarvis/controllers/ImageGroupController.java:223-232 | the right offset of column c plus the left offset of column c+1 is exactly the spacing, in both modes |
| `ImageGroup.OuterEdges` | src/main/java/com/github/jarvis/controllers/ImageGroupController.java:223-232 | the first column's left and the last column's right are the spacing with edges and 0 without |
| `ImageGroup.NoPositionOffsets` | src/main/java/com/github/jarvis/controllers/ImageGroupController.java:218-237 | for position -1 (`RecyclerView.NO_POSITION`) the column is -1 and, without edges, the cell gets left -25 and right 50 in the installed grid; -7 / 2 truncates to -3 |
| `ImageGroup.TwoColumnGrid` | src/main/java/com/github/jarvis/controllers/ImageGroupController.java:132-136 | for the installed grid (2 columns, 50 px, no edges), cells get 0/25 and 25/0 side offsets and top 50 from the second row on |
| `ImageGroup.ItemsAsEntries` | src/main/java/com/github/jarvis/controllers/ImageGroupController.java:146-148 | the list stored holds the image records, one entry each, in order |
| `ImageGroup.RetrieveModelValues` | src/main/java/com/github/jarvis/controllers/ImageGroupController.java:188-194 | the stored set, the empty set when nothing is stored, and a failed cast for any other stored object |
| `ImageGroup.ImageGroupController.Create` | src/main/java/com/github/jarvis/controllers/ImageGroupController.java:112-123 | one view id is reserved; construction fails iff values are given and items are null or differ in number; otherwise the controller holds what it was given |
| `ImageGroup.ImageGroupController.CreateUsingItems` | src/main/java/com/github/jarvis/controllers/ImageGroupController.java:96-99 | with `useItemsAsValues` the values are the items themselves, so construction never fails |
| `ImageGroup.ImageGroupController.CreateFieldView` | src/main/java/com/github/jarvis/controllers/ImageGroupController.java:145-152 | with records, the store ends holding all of them in order, and exactly one notification per record is sent; with none (null or empty), the store is untouched and nothing is sent |
| `ImageGroup.ImageGroupController.GetFieldView` | src/main/java/com/github/jarvis/controllers/BaseLineController.java:148-153 | the view is built on the first call only; later calls change nothing |
| `ImageGroup.ImageGroupController.OnItemClick` | src/main/java/com/github/jarvis/controllers/ImageGroupController.java:140-142 | a click on a cell hands its position and record to the click listener, once |
| `ImageGroup.ImageGroupController.RefreshImage` | src/main/java/com/github/jarvis/controllers/ImageGroupController.java:158-166 | the call changes nothing; its only effect is the outcome of the unused cast |
| `ImageGroup.SeededListDefeatsRefresh` | src/main/java/com/github/jarvis/controllers/ImageGroupController.java:149 | once a record list is stored, `refresh(imageView, index)` can only fail its cast |
| `ImageGroup.EntriesPrefix` | src/main/java/com/github/jarvis/controllers/ImageGroupController.java:147-150 | each stored prefix holds the first records of the list in their original order |
| `InputTypes.ApplyMaskBits` | src/main/java/com/github/jarvis/controllers/EditTextController.java:152-157 | setting turns every mask bit on, clearing turns every mask bit off, and the bits outside the mask are unchanged either way |
| `InputTypes.ApplyMaskIsIdempotent` | src/main/java/com/github/jarvis/controllers/EditTextController.java:179-199 | applying the same mask change twice has the effect of applying it once |
| `InputTypes.SetThenClearRestores` | src/main/java/com/github/jarvis/controllers/EditTextController.java:152-157 | setting and then clearing a mask restores the original type when the mask's bits were clear |
| `InputTypes.FlagReadsBack` | src/main/java/com/github/jarvis/controllers/EditTextController.java:152-163 | after a change of a non-zero mask, the whole mask reads back as set iff the change enabled it |
| `InputTypes.AsWrittenQueriesAreConstant` | src/main/java/com/github/jarvis/controllers/EditTextController.java:170-172 | as written, the multi-line and secure-entry queries answer true for every input type, even just after the flag was cleared |
| `InputTypes.PlainTextReportsBoth` | src/main/java/com/github/jarvis/controllers/AutoCompleteEditTextController.java:160-162 | for plain text, which has neither flag, the written queries still answer true |
| `InputTypes.QueriesFollowSetters` | src/main/java/com/github/jarvis/controllers/EditTextController.java:179-199 | with AND, `isMultiLine()` answers what `setMultiLine` last set, and `isSecureEntry()` what `setSecureEntry` last set |
| `InputTypes.SettersAreIndependent` | src/main/java/com/github/jarvis/controllers/AutoCompleteEditTextController.java:169-190 | changing the multi-line flag leaves secure entry as it was, and the other way round |
| `InputTypes.CapFollowsExactPhoneClass` | src/main/java/com/github/jarvis/controllers/EditTextController.java:215-220 | the mobile type carries the 10-character cap and the text type none; a type carries a cap iff it is exactly the phone class, so the phone class with the multi-line flag has none |
| `InputTypes.OrNotPhone` | src/main/java/com/github/jarvis/controllers/EditTextController.java:216 | adding the multi-line flag to the phone class makes it no longer equal the phone class |
| `InputTypes.LineModeFollowsType` | src/main/java/com/github/jarvis/controllers/EditTextController.java:215 | the widget's own multi-line test on a type agrees with the corrected `IsMultiLine` for text-class types, and fails for every other class |
| `InputTypes.SetMultiLineReachesWidget` | src/main/java/com/github/jarvis/controllers/EditTextController.java:179-181 | on the text class, the multi-line flag as set is what the widget reads as its line mode; on the phone class, the widget stays single-line either way |
| `Widgets.Widget.SetInputType` | src/main/java/com/github/jarvis/controllers/EditTextController.java:215 | the widget takes the type, and its line mode is re-derived from it: single-line unless the type is a multi-line text type |
| `EditText.EditTextController.Create` | src/main/java/com/github/jarvis/controllers/EditTextController.java:88-95 | one view id is reserved; the controller holds what it was given and is not built |
| `EditText.EditTextController.IsMultiLine` | src/main/java/com/github/jarvis/controllers/EditTextController.java:170-172 | as written, the query answers true for every input type |
| `EditText.EditTextController.IsSecureEntry` | src/main/java/com/github/jarvis/controllers/EditTextController.java:188-190 | as written, the query answers true for every input type |
| `EditText.EditTextController.CreateMobile` | src/main/java/com/github/jarvis/controllers/EditTextController.java:106-109 | the base gets the rules the two flags ask for; the type is the phone class for a mobile field, and so carries the 10-character cap iff mobile |
| `EditText.EditTextController.SetInputTypeMask` | src/main/java/com/github/jarvis/controllers/EditTextController.java:152-163 | the type becomes the masked type; a built field's widget takes the new type, re-derives its line mode from it, and keeps its text, cap and hint |
| `EditText.EditTextController.SetMultiLine` | src/main/java/com/github/jarvis/controllers/EditTextController.java:179-181 | the multi-line bit is set or cleared as asked |
| `EditText.EditTextController.SetSecureEntry` | src/main/java/com/github/jarvis/controllers/EditTextController.java:198-200 | the password bit is set or cleared as asked |
| `EditText.EditTextController.RefreshWidget` | src/main/java/com/github/jarvis/controllers/EditTextController.java:252-257 | the text is replaced by the stored value's text (through the cap) only when they differ |
| `EditText.EditTextController.CreateFieldView` | src/main/java/com/github/jarvis/controllers/EditTextController.java:203-250 | a non-empty submitted value ends in the store and in the capped text; otherwise the text is the stored value's and the store is untouched; the line mode is the one the type implies; building sends no notification |
| `EditText.EditTextController.NewEditText` | src/main/java/com/github/jarvis/controllers/EditTextController.java:204-210 | the new widget has the field's id and the placeholder as hint, and starts multi-line, because the written query answers true |
| `EditText.EditTextController.InstallMask` | src/main/java/com/github/jarvis/controllers/EditTextController.java:215-220 | the widget takes the type and the line mode it implies, and the 10-character cap exactly when the type is the phone class |
| `EditText.EditTextController.AfterTextChanged` | src/main/java/com/github/jarvis/controllers/EditTextController.java:236-239 | the shown text is stored under the field's name and exactly one notification is sent |
| `EditText.EditTextController.OnUserEdit` | src/main/java/com/github/jarvis/controllers/EditTextController.java:226-240 | a typed text passes the cap, is stored and is validated once |
| `EditText.EditTextController.Refresh` | src/main/java/com/github/jarvis/controllers/EditTextController.java:259-262 | a text already equal to the stored value's text is kept with nothing stored or sent; otherwise it is replaced, stored back and one notification sent |
| `EditText.EditTextController.EditThenRefresh` | src/main/java/com/github/jarvis/controllers/EditTextController.java:236-262 | a refresh right after an edit finds the store in step and sends no second notification |
| `AutoComplete.AutoCompleteEditTextController.Create` | src/main/java/com/github/jarvis/controllers/AutoCompleteEditTextController.java:91-98 | one view id is reserved; the controller holds what it was given and is not built |
| `AutoComplete.AutoCompleteEditTextController.IsMultiLine` | src/main/java/com/github/jarvis/controllers/AutoCompleteEditTextController.java:160-162 | as written, the query answers true for every input type |
| `AutoComplete.AutoCompleteEditTextController.IsSecureEntry` | src/main/java/com/github/jarvis/controllers/AutoCompleteEditTextController.java:178-180 | as written, the query answers true for every input type |
| `AutoComplete.AutoCompleteEditTextController.CreateMobile` | src/main/java/com/github/jarvis/controllers/AutoCompleteEditTextController.java:109-111 | the base gets the rules asked for; the type is the phone class for a mobile field, which carries the 10-character cap |
| `AutoComplete.AutoCompleteEditTextController.SetInputTypeMask` | src/main/java/com/github/jarvis/controllers/AutoCompleteEditTextController.java:144-153 | the type becomes the masked type; a built field's widget takes it, re-derives its line mode from it, and keeps its text, cap and hint |
| `AutoComplete.AutoCompleteEditTextController.SetMultiLine` | src/main/java/com/github/jarvis/controllers/AutoCompleteEditTextController.java:169-171 | the multi-line bit is set or cleared as asked |
| `AutoComplete.AutoCompleteEditTextController.SetSecureEntry` | src/main/java/com/github/jarvis/controllers/AutoCompleteEditTextController.java:188-190 | the password bit is set or cleared as asked |
| `AutoComplete.AutoCompleteEditTextController.NewTextView` | src/main/java/com/github/jarvis/controllers/AutoCompleteEditTextController.java:194-208 | the widget has the id, the hint and the type, the line mode the type implies (the later `setInputType` overrides the earlier `setSingleLine`), and the cap exactly for the phone class |
| `AutoComplete.AutoCompleteEditTextController.CreateFieldView` | src/main/java/com/github/jarvis/controllers/AutoCompleteEditTextController.java:192-239 | the refresh comes first; any non-null submitted value, even "", then replaces the text through the cap, and the shown text is stored; without one, the store is untouched; the line mode is the one the type implies |
| `AutoComplete.AutoCompleteEditTextController.AfterTextChanged` | src/main/java/com/github/jarvis/controllers/AutoCompleteEditTextController.java:227-229 | the shown text is stored, and no notification is sent |
| `AutoComplete.AutoCompleteEditTextController.OnUserEdit` | src/main/java/com/github/jarvis/controllers/AutoCompleteEditTextController.java:217-230 | a typed text passes the cap and is stored |
| `AutoComplete.AutoCompleteEditTextController.Refresh` | src/main/java/com/github/jarvis/controllers/AutoCompleteEditTextController.java:241-251 | the text is replaced by the stored value's text only when they differ, and the change is stored back |
| `TextView.TextViewController.Create` | src/main/java/com/github/jarvis/controllers/TextViewController.java:86-91 | one view id is reserved; the controller holds what it was given and is not built |
| `TextView.TextViewController.IsMultiLine` | src/main/java/com/github/jarvis/controllers/TextViewController.java:164-166 | as written, the query answers true for every input type |
| `TextView.TextViewController.CreateWithListener` | src/main/java/com/github/jarvis/controllers/TextViewController.java:102-105 | the type is the text class whatever `isMobile` says, the rules follow the flags, and the listener is dropped |
| `TextView.TextViewController.SetInputTypeMask` | src/main/java/com/github/jarvis/controllers/TextViewController.java:148-157 | the type becomes the masked type; a built view takes it, re-derives its line mode from it, and keeps its text and cap |
| `TextView.TextViewController.SetMultiLine` | src/main/java/com/github/jarvis/controllers/TextViewController.java:173-175 | the multi-line bit is set or cleared as asked |
| `TextView.TextViewController.CreateFieldView` | src/main/java/com/github/jarvis/controllers/TextViewController.java:177-199 | a non-empty submitted value ends in the store and the text; otherwise the text is the stored value's and the store is untouched |
| `TextView.TextViewController.Refresh` | src/main/java/com/github/jarvis/controllers/TextViewController.java:201-211 | the text shows the stored value's text (set only when it differs), and the store is never written |
| `DatePicker.DatePickerController.Create` | src/main/java/com/github/jarvis/controllers/DatePickerController.java:70-78 | one view id is reserved; no dialog is open; the controller holds what it was given |
| `DatePicker.DatePickerController.StoredText` | src/main/java/com/github/jarvis/controllers/DatePickerController.java:169-172 | the text a refresh shows: the stored string, or "" when nothing is stored |
| `DatePicker.DatePickerController.InitialMoment` | src/main/java/com/github/jarvis/controllers/DatePickerController.java:127-136 | a new dialog starts from the stored date when one is stored and parses, and from now when none is stored or it does not parse |
| `DatePicker.DatePickerController.CreateFieldView` | src/main/java/com/github/jarvis/controllers/DatePickerController.java:92-122 | a single-line field with the placeholder as hint, its input type `TYPE_NULL` once the key listener is removed, is refreshed from the store, then a non-empty submitted date is shown and stored |
| `DatePicker.DatePickerController.ShowDatePickerDialog` | src/main/java/com/github/jarvis/controllers/DatePickerController.java:124-163 | a dialog opens, from the stored date if it parses and from now otherwise, only when none is open; an open dialog stays as it was |
| `DatePicker.DatePickerController.OnClick` | src/main/java/com/github/jarvis/controllers/DatePickerController.java:101-106 | a click goes through the same guarded open |
| `DatePicker.DatePickerController.OnFocusChange` | src/main/java/com/github/jarvis/controllers/DatePickerController.java:108-115 | only a gained focus goes through the guarded open; a lost focus changes nothing |
| `DatePicker.DatePickerController.OnDateSet` | src/main/java/com/github/jarvis/controllers/DatePickerController.java:141-151 | the same formatted date goes to the store and the text, then exactly one notification is sent |
| `DatePicker.DatePickerController.OnDismiss` | src/main/java/com/github/jarvis/controllers/DatePickerController.java:154-159 | dismissal clears the guard and touches nothing else |
| `DatePicker.DatePickerController.Refresh` | src/main/java/com/github/jarvis/controllers/DatePickerController.java:169-176 | the text becomes the stored string, or "" when nothing is stored, unconditionally |
| `DatePicker.DatePickerController.ConfirmThenRefresh` | src/main/java/com/github/jarvis/controllers/DatePickerController.java:146-172 | a confirmed date reads back unchanged through a refresh |
| `TimePicker.TimePickerController.Create` | src/main/java/com/github/jarvis/controllers/TimePickerController.java:63-72 | one view id is reserved; no dialog is open; the controller holds what it was given |
| `TimePicker.TimePickerController.StoredText` | src/main/java/com/github/jarvis/controllers/TimePickerController.java:165-168 | the text a refresh shows: "" when nothing is stored, otherwise the stored moment formatted |
| `TimePicker.TimePickerController.InitialMoment` | src/main/java/com/github/jarvis/controllers/TimePickerController.java:129-135 | a new dialog starts from the stored moment, and from now when none is stored |
| `Widgets.Widget.ClearKeyListener` | src/main/java/com/github/jarvis/controllers/DatePickerController.java:98 | with the key listener removed, the widget's input type is `TYPE_NULL` |
| `TimePicker.TimePickerController.CreateFieldView` | src/main/java/com/github/jarvis/controllers/TimePickerController.java:86-124 | a single-line field whose input type is `TYPE_NULL` once the key listener is removed; the text is the submitted value whatever it is ("" for null); the store takes the parsed moment only when the value is non-empty and parses |
| `TimePicker.TimePickerController.ShowTimePickerDialog` | src/main/java/com/github/jarvis/controllers/TimePickerController.java:126-159 | a dialog opens, from the stored moment or now, only when none is open |
| `TimePicker.TimePickerController.OnClick` | src/main/java/com/github/jarvis/controllers/TimePickerController.java:95-100 | a click goes through the same guarded open |
| `TimePicker.TimePickerController.OnFocusChange` | src/main/java/com/github/jarvis/controllers/TimePickerController.java:102-109 | only a gained focus goes through the guarded open |
| `TimePicker.TimePickerController.OnTimeSet` | src/main/java/com/github/jarvis/controllers/TimePickerController.java:139-147 | the picked moment is stored, the text shows it formatted, and exactly one notification is sent |
| `TimePicker.TimePickerController.OnDismiss` | src/main/java/com/github/jarvis/controllers/TimePickerController.java:150-155 | dismissal clears the guard and touches nothing else |
| `TimePicker.TimePickerController.Refresh` | src/main/java/com/github/jarvis/controllers/TimePickerController.java:165-173 | the text shows the stored moment formatted, or "" when nothing is stored |
| `TimePicker.TimePickerController.ConfirmThenRefresh` | src/main/java/com/github/jarvis/controllers/TimePickerController.java:145-168 | after a confirmation, a refresh shows the same text already shown |
| `Button.ButtonController.constructor` | src/main/java/com/github/jarvis/controllers/ButtonController.java:28-32 | the button's base is built not required and not mobile, so its rule set is empty |
| `Button.ButtonController.RefreshView` | src/main/java/com/github/jarvis/controllers/ButtonController.java:47-63 | the text is the stored value's text; the widget is enabled, orange and bound to a click handler iff the flag is set, grey and unbound otherwise |
| `Button.ButtonController.CreateFieldView` | src/main/java/com/github/jarvis/controllers/ButtonController.java:35-41 | the new view is refreshed from the store and the flag |
| `Button.ButtonController.Refresh` | src/main/java/com/github/jarvis/controllers/ButtonController.java:69-71 | the built view shows the store and the current flag |
| `Button.ButtonController.ToggleButton` | src/main/java/com/github/jarvis/controllers/ButtonController.java:65-67 | only the flag changes; the surface waits for the next refresh |
| `Button.ButtonController.Click` | src/main/java/com/github/jarvis/controllers/ButtonController.java:53-58 | a click reaches `onButtonClicked` exactly once when a handler is bound, and not at all otherwise |
| `Button.ButtonController.ToggleRefreshClick` | src/main/java/com/github/jarvis/controllers/ButtonController.java:50-67 | after a toggle and a refresh, the widget is enabled iff the new flag is, and a click counts iff it is |
| `Button.ButtonNeverFails` | src/main/java/com/github/jarvis/controllers/ButtonController.java:29 | with no rules, a validation pass of the button reports nothing |
| `Forms.Element.SetError` | src/main/java/com/github/jarvis/validations/PerFieldValidationErrorDisplay.java:25 | the element shows the given message, or none |
| `Forms.FlattenMembers` | src/main/java/com/github/jarvis/validations/PerFieldValidationErrorDisplay.java:23-24 | an element is among the form's elements iff it belongs to one of its sections |
| `Forms.FirstNamed` | src/main/java/com/github/jarvis/validations/PerFieldValidationErrorDisplay.java:35 | the index found names the field and no earlier element does; none is found iff no element has the name |
| `Forms.FormController.GetElement` | src/main/java/com/github/jarvis/validations/PerFieldValidationErrorDisplay.java:35 | the element found is one of the form's with the given name, the first in section order; none is found iff no element has the name |
| `ErrorDisplays.UnroutedIffNoMessage` | src/main/java/com/github/jarvis/validations/PerFieldValidationErrorDisplay.java:34-37 | an element gets no message iff no error's field name looks up to that element |
| `ErrorDisplays.LaterErrorWins` | src/main/java/com/github/jarvis/validations/PerFieldValidationErrorDisplay.java:34-37 | when several errors reach one element, the message of the last one in list order is the one shown |
| `ErrorDisplays.RoutedComesFromAnError` | src/main/java/com/github/jarvis/validations/PerFieldValidationErrorDisplay.java:34-37 | a message shown on an element is the message of some error whose field name looks up to that element |
| `ErrorDisplays.PerFieldValidationErrorDisplay.ResetErrors` | src/main/java/com/github/jarvis/validations/PerFieldValidationErrorDisplay.java:22-28 | every element of every section ends with no error |
| `ErrorDisplays.PerFieldValidationErrorDisplay.ShowErrors` | src/main/java/com/github/jarvis/validations/PerFieldValidationErrorDisplay.java:31-38 | every element shows the message of the last error routed to it, and an element no error names keeps its previous state |
| `ErrorDisplays.Messages` | src/main/java/com/github/jarvis/validations/PopUpValidationErrorDisplay.java:27-28 | one message per error, in list order |
| `ErrorDisplays.BodyOfAppend` | src/main/java/com/github/jarvis/validations/PopUpValidationErrorDisplay.java:27-29 | the body of two message lists one after the other is the first body followed by the second |
| `ErrorDisplays.BodyOfCons` | src/main/java/com/github/jarvis/validations/PopUpValidationErrorDisplay.java:28 | the body starts with the first message and a newline |
| `ErrorDisplays.BodyLength` | src/main/java/com/github/jarvis/validations/PopUpValidationErrorDisplay.java:27-29 | the body's length is the sum of each message's length plus one |
| `ErrorDisplays.BodyNewlines` | src/main/java/com/github/jarvis/validations/PopUpValidationErrorDisplay.java:27-29 | when no message holds a newline, the body holds exactly one per message and, if non-empty, ends with one |
| `ErrorDisplays.BodyExamples` | src/main/java/com/github/jarvis/validations/PopUpValidationErrorDisplay.java:25-29 | no errors give the empty body; two messages give each followed by a newline, in order |
| `ErrorDisplays.PopUpValidationErrorDisplay.ResetErrors` | src/main/java/com/github/jarvis/validations/PopUpValidationErrorDisplay.java:19-21 | nothing is shown and nothing changes |
| `ErrorDisplays.PopUpValidationErrorDisplay.ShowErrors` | src/main/java/com/github/jarvis/validations/PopUpValidationErrorDisplay.java:24-31 | exactly one alert is shown, even for no errors, with the title and the body of all messages in list order, each ending with a newline |

## Left out

- Android rendering is not modelled: inflation, layout params, typefaces, tint lists (`setCheckBoxColor`, `setRadioButtonColor`), `ArrayAdapter`, `RecyclerViewAdapter` and its Glide image loading, `setKeyListener(null)` beyond its reset of the input type to `TYPE_NULL` (`Widgets.Widget.ClearKeyListener`). Only the widget fields the logic reads or writes remain: text, checked, enabled, input type, line mode, length cap, hint, click binding and background colour.
- A null `LayoutInflater` makes the choice groups and the image grid return no view. The model always builds the view.
- `SimpleDateFormat`, `Calendar`, `TimeZone`, `Locale` and `new Date()` are parameters of the pickers. Parsing and formatting are functions given to the controller, and "now" and the picked instant are method arguments. Calendar's month arithmetic and the time picker's `is24HourView` are not modelled.
- Message text is not modelled. `RequiredField.getMessage` and `RequiredMobile.getMessage` do a resource lookup and a `String.format`; the model uses an abstract function of (kind, label). `MessageUtil.showAlertMessage` becomes a recorded call on an alert sink, and the title resource becomes a constant string.
- `ValidationErrorDisplay` and `ImageClickListener` are interfaces. They are plain classes here, because the model has no trait. `ImageDataModel` is a datatype, and `AutoCompleteTextViewDataModel` is left out because only the adapter reads it.
- `FormController`, `LabeledFieldController`, `FormElementController`, `InputValidator`, `ValidationError` and `ValidationListener` are not part of this model. They appear only through the surface the core uses: a fresh-id counter, a first-match element lookup over sections, a shared value store, a counting listener, and the element error field.
- Listeners that the source leaves null are not modelled. Several constructors never set `validationListener`, and calling it then would throw. In the model, a listener is always present.
- Two null-reference failures of the source are not modelled. (1) Only the `AutoCompleteEditTextController` constructor at AutoCompleteEditTextController.java:91-98, and the one at :109-111 that delegates to it, set `context`. The constructors at :42, :58, :73 and :121 leave it null, so `createFieldView` would throw at the `ArrayAdapter` built at :214. That happens after the submitted value has been shown and stored at :210-213. `AutoComplete.AutoCompleteEditTextController.CreateFieldView` always succeeds, and the model has no constructor for those four. (2) `CheckBox` and `RadioButton` hold `items` and `submittedItems` as sequences, so a null list is not modelled. The source throws on it at CheckBoxController.java:127 and :156 and at RadioButtonController.java:127 and :153, and at :72 and :71 as well when a value list is given. `ImageGroup` does model its null-items case (`NullItems`).
- `Values.Show`: the `toString` of a stored set, date or list is an unspecified string here. Only strings and numbers are shown faithfully.
- Casting a stored value is modelled as a precondition (`SelectionTyped`, `TextTyped`, `MomentTyped`). The one exception is `ImageGroup.RetrieveModelValues`, which models the failing cast as an error value.
- View ids from `generateViewId` are consecutive. A group reserves one id and uses `id + i` for its members, so member ids may collide with ids allocated later. The model records this as the allocator's behaviour and proves nothing about it.
- A submitted phone value longer than 10 characters is shown capped by the edit text while the store keeps the full value, because the watcher is bound only after the second prefill (`EditText.EditTextController.CreateFieldView` states both halves).
- BaseLine.BaseLineController.WithValidators: the caller's validator set is copied by value. In the source the controller keeps the caller's `Set` object, so a later change made through the caller's reference would also change the controller's rules; the model does not capture that aliasing.
- JavaText.EqualsIgnoreCaseIsCharwise: case folding covers only the Basic Latin and Latin-1 letters. Java's `equalsIgnoreCase` also folds other scripts and pairs across blocks (ÿ and Ÿ, µ and Μ); the model does not. So `JavaText.EqualsIgnoreCase`, `CheckBox.ItemMatches`, `RadioButton.ItemMatches`, `CheckBox.CheckBoxController.PrefillBox` and `RadioButton.RadioButtonController.PrefillButton` treat such pairs as different where Java matches them.
- `LabeledFieldController` is assumed to pass the name, label and flags unchanged to the base controller.
- `LabeledFieldController` is assumed to override the no-op `setError` of the base controller so that a form element displays the message it is given. `Forms.Element.error` records the last `setError` argument, and the per-field display's contract (`ErrorDisplays.PerFieldValidationErrorDisplay.ShowErrors`) is about that field.
- Widgets.Capped: the cap counts Unicode scalar values. Android's `LengthFilter` counts UTF-16 code units, so the two differ on characters outside the Basic Multilingual Plane.
- The radio buttons are assumed to sit in a plain container, not a `RadioGroup`: a checked button is not unchecked when another is checked. A tap only ever checks, as `RadioButton.toggle()` does.
- Widgets.Widget.SetInputType: only the line-mode rule of Android's `setInputType` is modelled. The widget is single-line unless the type is a text-class type with the multi-line flag. Keyboard, transformation and other side effects are not modelled.
- `InputTypes.ApplyMask` has no contract of its own; its bit facts are stated in `InputTypes.ApplyMaskBits`.
- Java `int` overflow in the grid arithmetic and in view ids is not modelled: integers are unbounded.
- The LineController and ValueController classes, the application and activity classes, and `getEditText`/`getTextView` lookups by id are left out. They are display or lifecycle code.
- The mobile rule's doc comment says a number starts with 6 to 9, but its regular expression also accepts 5. The model follows the regular expression (`Validations.MobileExamples` proves that "5876543210" passes).

## Findings

| source | as written | input that shows it | evidently intended | confidence | as-written member | corrected member |
|---|---|---|---|---|---|---|
| src/main/java/com/github/jarvis/controllers/EditTextController.java:170-172 | `isMultiLine()` tests `(inputType \| TYPE_TEXT_FLAG_MULTI_LINE) != 0`, which holds for every type; `AutoCompleteEditTextController.java:160-162` and `TextViewController.java:164-166` repeat it | `TYPE_CLASS_TEXT` (0x1) lacks the flag, yet reports multi-line, so `setMultiLine(false)` is never read back by the query; the widget's line mode is still right, because `setInputType` at :215 re-derives it from the type | `(inputType & TYPE_TEXT_FLAG_MULTI_LINE) != 0` | not executed | `InputTypes.AsWrittenQueriesAreConstant` | `InputTypes.QueriesFollowSetters` |
| src/main/java/com/github/jarvis/controllers/EditTextController.java:188-190 | `isSecureEntry()` tests `(inputType \| TYPE_TEXT_VARIATION_PASSWORD) != 0`, which holds for every type; `AutoCompleteEditTextController.java:178-180` repeats it | `TYPE_CLASS_TEXT` (0x1) is not a password type, yet reports secure entry | `(inputType & TYPE_TEXT_VARIATION_PASSWORD) != 0` | not executed | `InputTypes.PlainTextReportsBoth` | `InputTypes.SettersAreIndependent` |

The controllers keep the queries as written: `IsMultiLine` of EditText, AutoComplete and TextView, and `IsSecureEntry` of EditText and AutoComplete, answer true. So the `setSingleLine(!isMultiLine())` of the EditText and AutoComplete `createFieldView` first makes a new widget multi-line (TextView's never calls `setSingleLine`). The model follows Android's `setInputType`, which then sets the line mode from the type itself (`Widgets.Widget.SetInputType`); for text-class types this agrees with the corrected query (`InputTypes.LineModeFollowsType`). The corrected queries, with AND, are `InputTypes.IsMultiLine` and `InputTypes.IsSecureEntry`, and the written ones are `InputTypes.IsMultiLineAsWritten` and `InputTypes.IsSecureEntryAsWritten`.
