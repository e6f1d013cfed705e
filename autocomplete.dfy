/**
 * `AutoCompleteEditTextController`: a free-text field with suggestions. Unlike the edit
 * text, it refreshes first and then shows and stores any non-null submitted value, even an
 * empty one; its text watcher stores every later change but sends no validation notification.
 */
module AutoComplete {
  import opened Wrappers
  import opened Values
  import InputTypes
  import Widgets
  import Services
  import BaseLine

  class AutoCompleteEditTextController {
    const autoCompleteId: int
    const base: BaseLine.BaseLineController
    const model: Services.FormModel
    const placeholder: Option<string>
    const submittedValue: Option<string>
    var inputType: bv32
    var textView: Widgets.Widget?   // null until the view is built; the text watcher is bound with it
    ghost var createCalls: nat

    function Name(): string {
      base.name
    }

    ghost predicate Valid()
      reads this, textView
    {
      && createCalls == (if textView != null then 1 else 0)
      && (textView != null ==>
            && textView.id == autoCompleteId && textView.inputType == inputType
            && textView.singleLine == !InputTypes.MultiLineInputType(inputType))
    }

    constructor (autoCompleteId: int, base: BaseLine.BaseLineController, model: Services.FormModel,
                 placeholder: Option<string>, submittedValue: Option<string>, inputType: bv32)
      ensures Valid() && textView == null
      ensures this.autoCompleteId == autoCompleteId && this.base == base && this.model == model
      ensures this.placeholder == placeholder && this.submittedValue == submittedValue && this.inputType == inputType
    {
      this.autoCompleteId := autoCompleteId;
      this.base := base;
      this.model := model;
      this.placeholder := placeholder;
      this.submittedValue := submittedValue;
      this.inputType := inputType;
      textView := null;
      createCalls := 0;
    }

    /** The constructor taking `isRequired`, `isMobile` and a mask: the view id is reserved first (a field initialiser). */
    static method Create(ids: Services.IdAllocator, base: BaseLine.BaseLineController, model: Services.FormModel,
                         placeholder: Option<string>, submittedValue: Option<string>, inputType: bv32)
      returns (c: AutoCompleteEditTextController)
      requires ids.Valid()
      modifies ids
      ensures ids.Valid() && ids.next == old(ids.next) + 1
      ensures fresh(c) && c.Valid() && c.textView == null && c.autoCompleteId == old(ids.next)
      ensures c.base == base && c.model == model
      ensures c.placeholder == placeholder && c.submittedValue == submittedValue && c.inputType == inputType
    {
      var id := ids.GenerateViewId();
      c := new AutoCompleteEditTextController(id, base, model, placeholder, submittedValue, inputType);
    }

    /** The `isMobile` constructor without a mask: the phone class (and so the cap) for a mobile field. */
    static method CreateMobile(ids: Services.IdAllocator, name: string, labelText: Option<string>,
                               placeholder: Option<string>, submittedValue: Option<string>,
                               isRequired: bool, isMobile: bool, model: Services.FormModel)
      returns (c: AutoCompleteEditTextController)
      requires ids.Valid()
      modifies ids
      ensures ids.Valid() && ids.next == old(ids.next) + 1
      ensures fresh(c) && fresh(c.base) && c.Valid() && c.textView == null
      ensures c.Name() == name && c.base.validators == BaseLine.RulesFor(isRequired, isMobile)
      ensures c.inputType == InputTypes.MobileInputType(isMobile)
      ensures InputTypes.LengthCap(c.inputType) == if isMobile then Some(10) else None
    {
      var base := new BaseLine.BaseLineController(name, labelText, isRequired, isMobile);
      c := Create(ids, base, model, placeholder, submittedValue, InputTypes.MobileInputType(isMobile));
      InputTypes.CapFollowsExactPhoneClass(c.inputType);
    }

    /** `isMultiLine()` as written: the OR with the flag makes it answer true whatever the mask. */
    function IsMultiLine(): (r: bool)
      reads this
      ensures r
    {
      InputTypes.AsWrittenQueriesAreConstant(inputType);
      InputTypes.IsMultiLineAsWritten(inputType)
    }

    /** `isSecureEntry()` as written: true whatever the mask. */
    function IsSecureEntry(): (r: bool)
      reads this
      ensures r
    {
      InputTypes.AsWrittenQueriesAreConstant(inputType);
      InputTypes.IsSecureEntryAsWritten(inputType)
    }

    /**
     * `setInputTypeMask(mask, enabled)`: changes the mask; a built view takes the new type
     * through `setInputType`, which re-derives its line mode from it.
     */
    method SetInputTypeMask(mask: bv32, enabled: bool)
      requires Valid()
      modifies this`inputType, textView
      ensures Valid()
      ensures inputType == InputTypes.ApplyMask(old(inputType), mask, enabled)
      ensures textView != null ==>
                && textView.inputType == inputType && textView.singleLine == !InputTypes.MultiLineInputType(inputType)
                && unchanged(textView`text, textView`maxLength, textView`hint)
    {
      inputType := InputTypes.ApplyMask(inputType, mask, enabled);
      if textView != null {
        textView.SetInputType(inputType);
      }
    }

    /** `setMultiLine(multiLine)`. */
    method SetMultiLine(multiLine: bool)
      requires Valid()
      modifies this`inputType, textView
      ensures Valid()
      ensures inputType == InputTypes.ApplyMask(old(inputType), InputTypes.TYPE_TEXT_FLAG_MULTI_LINE, multiLine)
      ensures textView != null ==>
                && textView.inputType == inputType && textView.singleLine == !InputTypes.MultiLineInputType(inputType)
                && unchanged(textView`text, textView`maxLength, textView`hint)
    {
      SetInputTypeMask(InputTypes.TYPE_TEXT_FLAG_MULTI_LINE, multiLine);
    }

    /** `setSecureEntry(isSecureEntry)`. */
    method SetSecureEntry(secure: bool)
      requires Valid()
      modifies this`inputType, textView
      ensures Valid()
      ensures inputType == InputTypes.ApplyMask(old(inputType), InputTypes.TYPE_TEXT_VARIATION_PASSWORD, secure)
      ensures textView != null ==>
                && textView.inputType == inputType && textView.singleLine == !InputTypes.MultiLineInputType(inputType)
                && unchanged(textView`text, textView`maxLength, textView`hint)
    {
      SetInputTypeMask(InputTypes.TYPE_TEXT_VARIATION_PASSWORD, secure);
    }

    /**
     * The new view: its id and hint; `setSingleLine(!isMultiLine())` makes it multi-line as
     * written, then `setInputType` installs the mask and re-derives the line mode from it;
     * the cap is installed for the phone class exactly.
     */
    method NewTextView() returns (w: Widgets.Widget)
      ensures fresh(w) && w.id == autoCompleteId && w.text == ""
      ensures w.singleLine == !InputTypes.MultiLineInputType(inputType) && w.hint == placeholder
      ensures w.inputType == inputType && w.maxLength == InputTypes.LengthCap(inputType)
    {
      w := new Widgets.Widget(autoCompleteId, InputTypes.TYPE_CLASS_TEXT);
      w.singleLine := !IsMultiLine();
      if placeholder.Some? {
        w.hint := placeholder;
      }
      w.SetInputType(inputType);
      if inputType == InputTypes.TYPE_CLASS_PHONE {
        w.maxLength := Some(10);
      }
    }

    /**
     * `createFieldView()`: the view is refreshed from the store, then a non-null submitted
     * value (even "") is shown through the cap and the shown text is stored. The watcher is
     * bound last.
     */
    method CreateFieldView()
      requires Valid() && textView == null
      modifies this, model
      ensures Valid() && textView != null && fresh(textView)
      ensures textView.singleLine == !InputTypes.MultiLineInputType(inputType) && textView.hint == placeholder
      ensures textView.maxLength == InputTypes.LengthCap(inputType)
      ensures submittedValue.Some? ==>
                && textView.text == Widgets.Capped(submittedValue.value, InputTypes.LengthCap(inputType))
                && model.values == old(model.values)[Name() := Text(textView.text)]
      ensures submittedValue.None? ==>
                && textView.text == Widgets.Capped(ShowOrEmpty(old(model.GetValue(Name()))), InputTypes.LengthCap(inputType))
                && model.values == old(model.values)
      ensures inputType == old(inputType)
    {
      var w := NewTextView();
      var valueStr := ShowOrEmpty(model.GetValue(Name()));
      if valueStr != w.text {
        w.SetText(valueStr);
      }
      if submittedValue.Some? {
        w.SetText(submittedValue.value);
        model.SetValue(Name(), Text(w.text));
      }
      textView := w;
      createCalls := createCalls + 1;
    }

    /** The watcher's `afterTextChanged`: the shown text is stored, and nothing else happens. */
    method AfterTextChanged()
      requires textView != null
      modifies model
      ensures model.values == old(model.values)[Name() := Text(textView.text)]
    {
      model.SetValue(Name(), Text(textView.text));
    }

    /** The user edits the field: the text passes the cap and is stored. */
    method OnUserEdit(typed: string)
      requires Valid() && textView != null
      modifies textView`text, model
      ensures Valid()
      ensures textView.text == Widgets.Capped(typed, textView.maxLength)
      ensures model.values == old(model.values)[Name() := Text(textView.text)]
    {
      textView.SetText(typed);
      AfterTextChanged();
    }

    /** `refresh()`: the stored value's text, set only when it differs; the change is stored back by the watcher. */
    method Refresh()
      requires Valid() && textView != null
      modifies textView`text, model
      ensures Valid()
      ensures ShowOrEmpty(old(model.GetValue(Name()))) == old(textView.text) ==>
                textView.text == old(textView.text) && model.values == old(model.values)
      ensures ShowOrEmpty(old(model.GetValue(Name()))) != old(textView.text) ==>
                && textView.text == Widgets.Capped(ShowOrEmpty(old(model.GetValue(Name()))), textView.maxLength)
                && model.values == old(model.values)[Name() := Text(textView.text)]
    {
      var valueStr := ShowOrEmpty(model.GetValue(Name()));
      if valueStr != textView.text {
        textView.SetText(valueStr);
        AfterTextChanged();
      }
    }
  }
}
