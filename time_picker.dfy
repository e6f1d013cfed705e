/**
 * `TimePickerController`: a time field picked from a dialog. The store holds a moment;
 * the text shows it through the display format. At most one dialog is open at a time, and
 * confirming a time stores it, shows it and sends one validation notification.
 */
module TimePicker {
  import opened Wrappers
  import opened Values
  import InputTypes
  import Widgets
  import Services
  import BaseLine

  /** An open `TimePickerDialog`, and the instant (milliseconds) it starts from. */
  datatype Dialog = Dialog(initial: int)

  class TimePickerController {
    const editTextId: int
    const base: BaseLine.BaseLineController
    const model: Services.FormModel
    const listener: Services.ValidationListener
    const placeHolder: Option<string>
    const submittedValue: Option<string>
    const parseTime: string -> Option<int>   // `displayFormat.parse`, `None` on a ParseException
    const formatTime: int -> string          // `displayFormat.format`
    var editText: Widgets.Widget?            // null until the view is built
    var dialog: Option<Dialog>               // the `timePickerDialog` guard

    function Name(): string {
      base.name
    }

    /** `value != null ? displayFormat.format(value) : ""` for the stored moment. */
    function StoredText(): (r: string)
      reads this, model
      requires MomentTyped(model.values, Name())
      ensures Name() !in model.values ==> r == ""
      ensures Name() in model.values ==> r == formatTime(InitialMoment(0))
    {
      if Name() in model.values then formatTime(model.values[Name()].millis) else ""
    }

    /** The instant a new dialog starts from: the stored moment, otherwise now. */
    function InitialMoment(now: int): (r: int)
      reads this, model
      requires MomentTyped(model.values, Name())
      ensures Name() in model.values ==> model.values[Name()] == Moment(r)
      ensures Name() !in model.values ==> r == now
    {
      if Name() in model.values then model.values[Name()].millis else now
    }

    ghost predicate Valid()
      reads this, editText
    {
      editText != null ==> editText.id == editTextId && editText.maxLength == None
    }

    constructor (editTextId: int, base: BaseLine.BaseLineController, model: Services.FormModel,
                 listener: Services.ValidationListener, placeHolder: Option<string>, submittedValue: Option<string>,
                 parseTime: string -> Option<int>, formatTime: int -> string)
      ensures Valid() && editText == null && dialog == None
      ensures this.editTextId == editTextId && this.base == base && this.model == model && this.listener == listener
      ensures this.placeHolder == placeHolder && this.submittedValue == submittedValue
      ensures this.parseTime == parseTime && this.formatTime == formatTime
    {
      this.editTextId := editTextId;
      this.base := base;
      this.model := model;
      this.listener := listener;
      this.placeHolder := placeHolder;
      this.submittedValue := submittedValue;
      this.parseTime := parseTime;
      this.formatTime := formatTime;
      editText := null;
      dialog := None;
    }

    /** The constructors: the edit text id is reserved first (a field initialiser); no dialog is open. */
    static method Create(ids: Services.IdAllocator, base: BaseLine.BaseLineController, model: Services.FormModel,
                         listener: Services.ValidationListener, placeHolder: Option<string>, submittedValue: Option<string>,
                         parseTime: string -> Option<int>, formatTime: int -> string)
      returns (c: TimePickerController)
      requires ids.Valid()
      modifies ids
      ensures ids.Valid() && ids.next == old(ids.next) + 1
      ensures fresh(c) && c.Valid() && c.editText == null && c.dialog == None && c.editTextId == old(ids.next)
      ensures c.base == base && c.model == model && c.listener == listener
      ensures c.placeHolder == placeHolder && c.submittedValue == submittedValue
      ensures c.parseTime == parseTime && c.formatTime == formatTime
    {
      var id := ids.GenerateViewId();
      c := new TimePickerController(id, base, model, listener, placeHolder, submittedValue, parseTime, formatTime);
    }

    /**
     * `createFieldView()`: a single-line field whose date-time type `setKeyListener(null)`
     * turns into `TYPE_NULL`, refreshed from the store; then the
     * text becomes the submitted value whatever it is (`null` shows as ""), and the store
     * takes the parsed moment only when that value is non-empty and parses.
     */
    method CreateFieldView()
      requires Valid() && editText == null && MomentTyped(model.values, Name())
      modifies this`editText, model
      ensures Valid() && editText != null && fresh(editText) && MomentTyped(model.values, Name())
      ensures editText.singleLine && editText.inputType == InputTypes.TYPE_NULL && editText.hint == placeHolder
      ensures editText.text == submittedValue.GetOr("")
      ensures submittedValue.Some? && submittedValue.value != "" && parseTime(submittedValue.value).Some? ==>
                model.values == old(model.values)[Name() := Moment(parseTime(submittedValue.value).value)]
      ensures submittedValue.None? || submittedValue.value == "" || parseTime(submittedValue.value).None? ==>
                model.values == old(model.values)
      ensures dialog == old(dialog)
    {
      var w := new Widgets.Widget(editTextId, InputTypes.TYPE_CLASS_TEXT);
      w.singleLine := true;
      w.SetInputType(InputTypes.TYPE_CLASS_DATETIME);
      w.ClearKeyListener();
      w.hint := placeHolder;
      w.SetText(StoredText());
      w.SetText(submittedValue.GetOr(""));
      if submittedValue.Some? && submittedValue.value != "" {
        var parsed := parseTime(submittedValue.value);
        if parsed.Some? {
          model.SetValue(Name(), Moment(parsed.value));
        }
      }
      editText := w;
    }

    /** `showTimePickerDialog`: opens a dialog starting from the stored moment (or `now`) only when none is open. */
    method ShowTimePickerDialog(now: int)
      requires MomentTyped(model.values, Name())
      modifies this`dialog
      ensures old(dialog).Some? ==> dialog == old(dialog)
      ensures old(dialog).None? ==> dialog == Some(Dialog(InitialMoment(now)))
    {
      if dialog.None? {
        dialog := Some(Dialog(InitialMoment(now)));
      }
    }

    /** The click listener. */
    method OnClick(now: int)
      requires MomentTyped(model.values, Name())
      modifies this`dialog
      ensures old(dialog).Some? ==> dialog == old(dialog)
      ensures old(dialog).None? ==> dialog == Some(Dialog(InitialMoment(now)))
    {
      ShowTimePickerDialog(now);
    }

    /** The focus listener: only a gained focus opens the dialog. */
    method OnFocusChange(hasFocus: bool, now: int)
      requires MomentTyped(model.values, Name())
      modifies this`dialog
      ensures !hasFocus || old(dialog).Some? ==> dialog == old(dialog)
      ensures hasFocus && old(dialog).None? ==> dialog == Some(Dialog(InitialMoment(now)))
    {
      if hasFocus {
        ShowTimePickerDialog(now);
      }
    }

    /**
     * `onTimeSet`: `picked` is the instant the calendar yields for the chosen hour and
     * minute. It is stored, its formatted form is shown, and one notification is sent.
     */
    method OnTimeSet(picked: int)
      requires Valid() && editText != null && dialog.Some?
      modifies editText`text, model, listener
      ensures Valid()
      ensures model.values == old(model.values)[Name() := Moment(picked)]
      ensures editText.text == formatTime(picked)
      ensures listener.calls == old(listener.calls) + 1
    {
      model.SetValue(Name(), Moment(picked));
      editText.SetText(formatTime(picked));
      listener.OnValidateInput();
    }

    /** The dismiss listener: clears the guard and nothing else. */
    method OnDismiss()
      modifies this`dialog
      ensures dialog == None
    {
      dialog := None;
    }

    /** `refresh()`: the text becomes the stored moment, formatted, or "" when nothing is stored. */
    method Refresh()
      requires Valid() && editText != null && MomentTyped(model.values, Name())
      modifies editText`text
      ensures Valid()
      ensures editText.text == StoredText()
    {
      editText.SetText(StoredText());
    }

    /** After a confirmed time, a refresh shows exactly the text the confirmation showed. */
    method ConfirmThenRefresh(picked: int)
      requires Valid() && editText != null && dialog.Some?
      modifies editText`text, model, listener
      ensures MomentTyped(model.values, Name()) && editText.text == formatTime(picked) && StoredText() == editText.text
      ensures listener.calls == old(listener.calls) + 1
    {
      OnTimeSet(picked);
      var shown := editText.text;
      Refresh();
      assert editText.text == shown;
    }
  }
}
