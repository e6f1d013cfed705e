/**
 * `TextViewController`: a read-only text field. A submitted value is stored and shown
 * before the first refresh; nothing else ever writes the store, since the view has no
 * edit handler.
 */
module TextView {
  import opened Wrappers
  import opened Values
  import InputTypes
  import Widgets
  import Services
  import BaseLine

  class TextViewController {
    const textViewId: int
    const base: BaseLine.BaseLineController
    const model: Services.FormModel
    const placeholder: Option<string>
    const submittedValue: Option<string>
    var inputType: bv32
    var textView: Widgets.Widget?   // null until the view is built
    ghost var createCalls: nat

    function Name(): string {
      base.name
    }

    /** The submitted value is non-null and non-empty. */
    predicate Prefills() {
      submittedValue.Some? && submittedValue.value != ""
    }

    ghost predicate Valid()
      reads this, textView
    {
      && createCalls == (if textView != null then 1 else 0)
      && (textView != null ==> textView.id == textViewId && textView.maxLength == None)
    }

    constructor (textViewId: int, base: BaseLine.BaseLineController, model: Services.FormModel,
                 placeholder: Option<string>, submittedValue: Option<string>, inputType: bv32)
      ensures Valid() && textView == null
      ensures this.textViewId == textViewId && this.base == base && this.model == model
      ensures this.placeholder == placeholder && this.submittedValue == submittedValue && this.inputType == inputType
    {
      this.textViewId := textViewId;
      this.base := base;
      this.model := model;
      this.placeholder := placeholder;
      this.submittedValue := submittedValue;
      this.inputType := inputType;
      textView := null;
      createCalls := 0;
    }

    /** The constructors taking a mask: the view id is reserved first (a field initialiser). */
    static method Create(ids: Services.IdAllocator, base: BaseLine.BaseLineController, model: Services.FormModel,
                         placeholder: Option<string>, submittedValue: Option<string>, inputType: bv32)
      returns (c: TextViewController)
      requires ids.Valid()
      modifies ids
      ensures ids.Valid() && ids.next == old(ids.next) + 1
      ensures fresh(c) && c.Valid() && c.textView == null && c.textViewId == old(ids.next)
      ensures c.base == base && c.model == model
      ensures c.placeholder == placeholder && c.submittedValue == submittedValue && c.inputType == inputType
    {
      var id := ids.GenerateViewId();
      c := new TextViewController(id, base, model, placeholder, submittedValue, inputType);
    }

    /**
     * The constructor taking `isMobile` and a validation listener: the mask is the text
     * class whatever `isMobile` says, and the listener is dropped.
     */
    static method CreateWithListener(ids: Services.IdAllocator, name: string, labelText: Option<string>,
                                     placeholder: Option<string>, submittedValue: Option<string>,
                                     isRequired: bool, isMobile: bool, model: Services.FormModel,
                                     listener: Services.ValidationListener)
      returns (c: TextViewController)
      requires ids.Valid()
      modifies ids
      ensures ids.Valid() && ids.next == old(ids.next) + 1
      ensures fresh(c) && fresh(c.base) && c.Valid() && c.textView == null
      ensures c.Name() == name && c.base.validators == BaseLine.RulesFor(isRequired, isMobile)
      ensures c.inputType == InputTypes.TYPE_CLASS_TEXT
    {
      var base := new BaseLine.BaseLineController(name, labelText, isRequired, isMobile);
      c := Create(ids, base, model, placeholder, submittedValue, InputTypes.TYPE_CLASS_TEXT);
    }

    /** `isMultiLine()` as written: the OR with the flag makes it answer true whatever the mask. */
    function IsMultiLine(): (r: bool)
      reads this
      ensures r
    {
      InputTypes.AsWrittenQueriesAreConstant(inputType);
      InputTypes.IsMultiLineAsWritten(inputType)
    }

    /**
     * `setInputTypeMask(mask, enabled)`: changes the mask; a built view takes the new type
     * through `setInputType`, which re-derives its line mode from it.
     */
    method SetInputTypeMask(mask: bv32, enabled: bool)
      requires Valid()
      modifies this`inputType, textView
      ensures Valid()
      ensures inputType == InputTypes.ApplyMask(old(inputType), mask, enabled)
      ensures textView != null ==>
                && textView.inputType == inputType && textView.singleLine == !InputTypes.MultiLineInputType(inputType)
                && unchanged(textView`text, textView`maxLength)
    {
      inputType := InputTypes.ApplyMask(inputType, mask, enabled);
      if textView != null {
        textView.SetInputType(inputType);
      }
    }

    /** `setMultiLine(multiLine)`. */
    method SetMultiLine(multiLine: bool)
      requires Valid()
      modifies this`inputType, textView
      ensures Valid()
      ensures inputType == InputTypes.ApplyMask(old(inputType), InputTypes.TYPE_TEXT_FLAG_MULTI_LINE, multiLine)
      ensures textView != null ==>
                && textView.inputType == inputType && textView.singleLine == !InputTypes.MultiLineInputType(inputType)
                && unchanged(textView`text, textView`maxLength)
    {
      SetInputTypeMask(InputTypes.TYPE_TEXT_FLAG_MULTI_LINE, multiLine);
    }

    /**
     * `createFieldView()`: a submitted value is shown and stored, the view is refreshed
     * from the store and the submitted value is shown once more. The mask is never applied
     * to the view at creation.
     */
    method CreateFieldView()
      requires Valid() && textView == null
      modifies this, model
      ensures Valid() && textView != null && fresh(textView)
      ensures Prefills() ==> textView.text == submittedValue.value && model.values == old(model.values)[Name() := Text(submittedValue.value)]
      ensures !Prefills() ==> textView.text == ShowOrEmpty(old(model.GetValue(Name()))) && model.values == old(model.values)
      ensures inputType == old(inputType)
    {
      var w := new Widgets.Widget(textViewId, 0);
      if Prefills() {
        w.SetText(submittedValue.value);
        model.SetValue(Name(), Text(submittedValue.value));
      }
      var valueStr := ShowOrEmpty(model.GetValue(Name()));
      if valueStr != w.text {
        w.SetText(valueStr);
      }
      if Prefills() {
        w.SetText(submittedValue.value);
      }
      textView := w;
      createCalls := createCalls + 1;
    }

    /** `refresh()`: shows the stored value's text (set only when it differs); the store is never written. */
    method Refresh()
      requires Valid() && textView != null
      modifies textView`text
      ensures Valid()
      ensures textView.text == ShowOrEmpty(model.GetValue(Name()))
    {
      var valueStr := ShowOrEmpty(model.GetValue(Name()));
      if valueStr != textView.text {
        textView.SetText(valueStr);
      }
    }
  }
}
