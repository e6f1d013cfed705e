/**
 * `EditTextController`: a free-text field. Its view is an edit text whose text mirrors the
 * value stored under the field's name. A submitted value is stored and shown before the
 * first refresh; once the view exists, every text change (typed, or set by a refresh) is
 * written back to the store and sent to the validation listener.
 */
module EditText {
  import opened Wrappers
  import opened Values
  import InputTypes
  import Widgets
  import Services
  import BaseLine

  class EditTextController {
    const editTextId: int
    const base: BaseLine.BaseLineController
    const model: Services.FormModel
    const listener: Services.ValidationListener
    const placeholder: Option<string>
    const submittedValue: Option<string>
    var inputType: bv32
    var editText: Widgets.Widget?   // null until the view is built; the text watcher is bound with it
    ghost var createCalls: nat

    function Name(): string {
      base.name
    }

    /** The submitted value is non-null and non-empty. */
    predicate Prefills() {
      submittedValue.Some? && submittedValue.value != ""
    }

    ghost predicate Valid()
      reads this, editText
    {
      && createCalls == (if editText != null then 1 else 0)
      && (editText != null ==>
            && editText.id == editTextId && editText.inputType == inputType
            && editText.singleLine == !InputTypes.MultiLineInputType(inputType))
    }

    constructor (editTextId: int, base: BaseLine.BaseLineController, model: Services.FormModel,
                 listener: Services.ValidationListener, placeholder: Option<string>,
                 submittedValue: Option<string>, inputType: bv32)
      ensures Valid() && editText == null
      ensures this.editTextId == editTextId && this.base == base && this.model == model && this.listener == listener
      ensures this.placeholder == placeholder && this.submittedValue == submittedValue && this.inputType == inputType
    {
      this.editTextId := editTextId;
      this.base := base;
      this.model := model;
      this.listener := listener;
      this.placeholder := placeholder;
      this.submittedValue := submittedValue;
      this.inputType := inputType;
      editText := null;
      createCalls := 0;
    }

    /** The constructors taking a mask: the edit text id is reserved first (a field initialiser). */
    static method Create(ids: Services.IdAllocator, base: BaseLine.BaseLineController, model: Services.FormModel,
                         listener: Services.ValidationListener, placeholder: Option<string>,
                         submittedValue: Option<string>, inputType: bv32)
      returns (c: EditTextController)
      requires ids.Valid()
      modifies ids
      ensures ids.Valid() && ids.next == old(ids.next) + 1
      ensures fresh(c) && c.Valid() && c.editText == null && c.editTextId == old(ids.next)
      ensures c.base == base && c.model == model && c.listener == listener
      ensures c.placeholder == placeholder && c.submittedValue == submittedValue && c.inputType == inputType
    {
      var id := ids.GenerateViewId();
      c := new EditTextController(id, base, model, listener, placeholder, submittedValue, inputType);
    }

    /**
     * The `isMobile` constructor without a mask: the base gets both rules as asked, and the
     * mask is the phone class for a mobile field and the text class otherwise.
     */
    static method CreateMobile(ids: Services.IdAllocator, name: string, labelText: Option<string>,
                               placeholder: Option<string>, submittedValue: Option<string>,
                               isRequired: bool, isMobile: bool, model: Services.FormModel,
                               listener: Services.ValidationListener)
      returns (c: EditTextController)
      requires ids.Valid()
      modifies ids
      ensures ids.Valid() && ids.next == old(ids.next) + 1
      ensures fresh(c) && fresh(c.base) && c.Valid() && c.editText == null
      ensures c.Name() == name && c.base.validators == BaseLine.RulesFor(isRequired, isMobile)
      ensures c.inputType == InputTypes.MobileInputType(isMobile)
      ensures InputTypes.LengthCap(c.inputType) == if isMobile then Some(10) else None
    {
      var base := new BaseLine.BaseLineController(name, labelText, isRequired, isMobile);
      c := Create(ids, base, model, listener, placeholder, submittedValue, InputTypes.MobileInputType(isMobile));
      InputTypes.CapFollowsExactPhoneClass(c.inputType);
    }

    /** `isMultiLine()` as written: the OR with the flag makes it answer true whatever the mask. */
    function IsMultiLine(): (r: bool)
      reads this
      ensures r
    {
      InputTypes.AsWrittenQueriesAreConstant(inputType);
      InputTypes.IsMultiLineAsWritten(inputType)
    }

    /** `isSecureEntry()` as written: true whatever the mask. */
    function IsSecureEntry(): (r: bool)
      reads this
      ensures r
    {
      InputTypes.AsWrittenQueriesAreConstant(inputType);
      InputTypes.IsSecureEntryAsWritten(inputType)
    }

    /**
     * `setInputTypeMask(mask, enabled)`: changes the mask; a built edit text takes the new
     * type through `setInputType`, which re-derives its line mode from it.
     */
    method SetInputTypeMask(mask: bv32, enabled: bool)
      requires Valid()
      modifies this`inputType, editText
      ensures Valid()
      ensures inputType == InputTypes.ApplyMask(old(inputType), mask, enabled)
      ensures editText != null ==>
                && editText.inputType == inputType && editText.singleLine == !InputTypes.MultiLineInputType(inputType)
                && unchanged(editText`text, editText`maxLength, editText`hint)
    {
      inputType := InputTypes.ApplyMask(inputType, mask, enabled);
      if editText != null {
        editText.SetInputType(inputType);
      }
    }

    /** `setMultiLine(multiLine)`. */
    method SetMultiLine(multiLine: bool)
      requires Valid()
      modifies this`inputType, editText
      ensures Valid()
      ensures inputType == InputTypes.ApplyMask(old(inputType), InputTypes.TYPE_TEXT_FLAG_MULTI_LINE, multiLine)
      ensures editText != null ==>
                && editText.inputType == inputType && editText.singleLine == !InputTypes.MultiLineInputType(inputType)
                && unchanged(editText`text, editText`maxLength, editText`hint)
    {
      SetInputTypeMask(InputTypes.TYPE_TEXT_FLAG_MULTI_LINE, multiLine);
    }

    /** `setSecureEntry(isSecureEntry)`. */
    method SetSecureEntry(secure: bool)
      requires Valid()
      modifies this`inputType, editText
      ensures Valid()
      ensures inputType == InputTypes.ApplyMask(old(inputType), InputTypes.TYPE_TEXT_VARIATION_PASSWORD, secure)
      ensures editText != null ==>
                && editText.inputType == inputType && editText.singleLine == !InputTypes.MultiLineInputType(inputType)
                && unchanged(editText`text, editText`maxLength, editText`hint)
    {
      SetInputTypeMask(InputTypes.TYPE_TEXT_VARIATION_PASSWORD, secure);
    }

    /** `refresh(editText)` before the watcher is bound: the stored value's text, set only when it differs. */
    static method RefreshWidget(w: Widgets.Widget, stored: Option<Value>)
      modifies w`text
      ensures ShowOrEmpty(stored) == old(w.text) ==> w.text == old(w.text)
      ensures ShowOrEmpty(stored) != old(w.text) ==> w.text == Widgets.Capped(ShowOrEmpty(stored), w.maxLength)
    {
      var valueStr := ShowOrEmpty(stored);
      if valueStr != w.text {
        w.SetText(valueStr);
      }
    }

    /**
     * `createFieldView()`: the edit text starts multi-line (`setSingleLine(!isMultiLine())`
     * as written), a submitted value is shown and stored, then `setInputType` installs the
     * mask and re-derives the line mode from it, and the 10-character cap is installed for
     * the phone class exactly. The view is refreshed and the submitted value shown again,
     * now through the cap. The watcher is bound last, so building sends no notification.
     */
    method CreateFieldView()
      requires Valid() && editText == null
      modifies this, model
      ensures Valid() && editText != null && fresh(editText)
      ensures editText.singleLine == !InputTypes.MultiLineInputType(inputType) && editText.hint == placeholder
      ensures editText.maxLength == InputTypes.LengthCap(inputType)
      ensures Prefills() ==> model.values == old(model.values)[Name() := Text(submittedValue.value)]
      ensures Prefills() ==> editText.text == Widgets.Capped(submittedValue.value, InputTypes.LengthCap(inputType))
      ensures !Prefills() ==> model.values == old(model.values)
      ensures !Prefills() ==> editText.text == Widgets.Capped(ShowOrEmpty(old(model.GetValue(Name()))), InputTypes.LengthCap(inputType))
      ensures inputType == old(inputType) && listener.calls == old(listener.calls)
    {
      var w := NewEditText();
      if Prefills() {
        w.SetText(submittedValue.value);
        model.SetValue(Name(), Text(submittedValue.value));
      }
      InstallMask(w);
      RefreshWidget(w, model.GetValue(Name()));
      if Prefills() {
        w.SetText(submittedValue.value);
      }
      editText := w;
      createCalls := createCalls + 1;
    }

    /**
     * The new edit text: its id, its placeholder as hint, and the line mode
     * `setSingleLine(!isMultiLine())` gives, which is multi-line for every mask as written.
     */
    method NewEditText() returns (w: Widgets.Widget)
      ensures fresh(w) && w.id == editTextId && w.text == "" && w.maxLength == None
      ensures !w.singleLine && w.hint == placeholder
    {
      w := new Widgets.Widget(editTextId, InputTypes.TYPE_CLASS_TEXT);
      w.singleLine := !IsMultiLine();
      if placeholder.Some? {
        w.hint := placeholder;
      }
    }

    /** `setInputType(inputType)`, which also sets the line mode, and the length filter for the phone class exactly. */
    method InstallMask(w: Widgets.Widget)
      modifies w`inputType, w`singleLine, w`maxLength
      ensures w.inputType == inputType && w.maxLength == InputTypes.LengthCap(inputType)
      ensures w.singleLine == !InputTypes.MultiLineInputType(inputType)
    {
      w.SetInputType(inputType);
      if inputType == InputTypes.TYPE_CLASS_PHONE {
        w.maxLength := Some(10);
      } else {
        w.maxLength := None;
      }
    }

    /** The watcher's `afterTextChanged`: the shown text is stored, then one notification is sent. */
    method AfterTextChanged()
      requires editText != null
      modifies model, listener
      ensures model.values == old(model.values)[Name() := Text(editText.text)]
      ensures listener.calls == old(listener.calls) + 1
    {
      model.SetValue(Name(), Text(editText.text));
      listener.OnValidateInput();
    }

    /** The user edits the field: the text passes the cap, is stored and is validated once. */
    method OnUserEdit(typed: string)
      requires Valid() && editText != null
      modifies editText`text, model, listener
      ensures Valid()
      ensures editText.text == Widgets.Capped(typed, editText.maxLength)
      ensures model.values == old(model.values)[Name() := Text(editText.text)]
      ensures listener.calls == old(listener.calls) + 1
    {
      editText.SetText(typed);
      AfterTextChanged();
    }

    /**
     * `refresh()`: the stored value's text is set only when it differs from the shown text;
     * that change runs the watcher, which stores the shown text and sends one notification.
     */
    method Refresh()
      requires Valid() && editText != null
      modifies editText`text, model, listener
      ensures Valid()
      ensures ShowOrEmpty(old(model.GetValue(Name()))) == old(editText.text) ==>
                editText.text == old(editText.text) && model.values == old(model.values) && listener.calls == old(listener.calls)
      ensures ShowOrEmpty(old(model.GetValue(Name()))) != old(editText.text) ==>
                && editText.text == Widgets.Capped(ShowOrEmpty(old(model.GetValue(Name()))), editText.maxLength)
                && model.values == old(model.values)[Name() := Text(editText.text)]
                && listener.calls == old(listener.calls) + 1
    {
      var valueStr := ShowOrEmpty(model.GetValue(Name()));
      if valueStr != editText.text {
        editText.SetText(valueStr);
        AfterTextChanged();
      }
    }

    /** A refresh right after a user edit finds the store in step with the field and changes nothing. */
    method EditThenRefresh(typed: string)
      requires Valid() && editText != null
      modifies editText`text, model, listener
      ensures editText.text == Widgets.Capped(typed, editText.maxLength)
      ensures model.values == old(model.values)[Name() := Text(editText.text)]
      ensures listener.calls == old(listener.calls) + 1
    {
      OnUserEdit(typed);
      Refresh();
    }
  }
}
