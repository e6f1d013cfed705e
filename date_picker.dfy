/**
 * `DatePickerController`: a date field whose text is picked from a dialog. At most one
 * dialog is open at a time: a click or a gained focus opens one only when none is showing,
 * and its dismissal clears the guard. Confirming a date writes the formatted date to the
 * store and the text alike and sends one validation notification. Dates are stored as
 * strings in the "dd-MM-yyyy" pattern.
 */
module DatePicker {
  import opened Wrappers
  import opened Values
  import InputTypes
  import Widgets
  import Services
  import BaseLine

  /** An open `DatePickerDialog`, and the instant (milliseconds) it starts from. */
  datatype Dialog = Dialog(initial: int)

  class DatePickerController {
    const editTextId: int
    const base: BaseLine.BaseLineController
    const model: Services.FormModel
    const listener: Services.ValidationListener
    const placeHolder: Option<string>
    const submittedDate: Option<string>
    const parseDate: string -> Option<int>   // `new SimpleDateFormat("dd-MM-yyyy").parse`, `None` on a ParseException
    const formatDate: int -> string          // the same pattern's `format`
    var editText: Widgets.Widget?            // null until the view is built
    var dialog: Option<Dialog>               // the `datePickerDialog` guard

    function Name(): string {
      base.name
    }

    /** The submitted date is non-null and non-empty. */
    predicate Prefills() {
      submittedDate.Some? && submittedDate.value != ""
    }

    /** `(String) getModel().getValue(name)`, or "" for `null`. */
    function StoredText(): (r: string)
      reads this, model
      requires TextTyped(model.values, Name())
      ensures Name() !in model.values ==> r == ""
      ensures Name() in model.values ==> model.values[Name()] == Text(r)
    {
      if Name() in model.values then model.values[Name()].s else ""
    }

    /** The instant a new dialog starts from: the stored date when it parses, otherwise now. */
    function InitialMoment(now: int): (r: int)
      reads this, model
      requires TextTyped(model.values, Name())
      ensures Name() in model.values && parseDate(StoredText()).Some? ==> r == parseDate(StoredText()).value
      ensures Name() !in model.values || parseDate(StoredText()).None? ==> r == now
    {
      if Name() in model.values && parseDate(model.values[Name()].s).Some?
      then parseDate(model.values[Name()].s).value
      else now
    }

    ghost predicate Valid()
      reads this, editText
    {
      editText != null ==> editText.id == editTextId && editText.maxLength == None
    }

    constructor (editTextId: int, base: BaseLine.BaseLineController, model: Services.FormModel,
                 listener: Services.ValidationListener, placeHolder: Option<string>, submittedDate: Option<string>,
                 parseDate: string -> Option<int>, formatDate: int -> string)
      ensures Valid() && editText == null && dialog == None
      ensures this.editTextId == editTextId && this.base == base && this.model == model && this.listener == listener
      ensures this.placeHolder == placeHolder && this.submittedDate == submittedDate
      ensures this.parseDate == parseDate && this.formatDate == formatDate
    {
      this.editTextId := editTextId;
      this.base := base;
      this.model := model;
      this.listener := listener;
      this.placeHolder := placeHolder;
      this.submittedDate := submittedDate;
      this.parseDate := parseDate;
      this.formatDate := formatDate;
      editText := null;
      dialog := None;
    }

    /** The constructors: the edit text id is reserved first (a field initialiser); no dialog is open. */
    static method Create(ids: Services.IdAllocator, base: BaseLine.BaseLineController, model: Services.FormModel,
                         listener: Services.ValidationListener, placeHolder: Option<string>, submittedDate: Option<string>,
                         parseDate: string -> Option<int>, formatDate: int -> string)
      returns (c: DatePickerController)
      requires ids.Valid()
      modifies ids
      ensures ids.Valid() && ids.next == old(ids.next) + 1
      ensures fresh(c) && c.Valid() && c.editText == null && c.dialog == None && c.editTextId == old(ids.next)
      ensures c.base == base && c.model == model && c.listener == listener
      ensures c.placeHolder == placeHolder && c.submittedDate == submittedDate
      ensures c.parseDate == parseDate && c.formatDate == formatDate
    {
      var id := ids.GenerateViewId();
      c := new DatePickerController(id, base, model, listener, placeHolder, submittedDate, parseDate, formatDate);
    }

    /**
     * `createFieldView()`: a single-line field with the placeholder as hint, whose date-time
     * type `setKeyListener(null)` turns into `TYPE_NULL` (typing is off; the dialog edits it),
     * refreshed from the store; then a submitted date is shown and stored.
     */
    method CreateFieldView()
      requires Valid() && editText == null && TextTyped(model.values, Name())
      modifies this`editText, model
      ensures Valid() && editText != null && fresh(editText) && TextTyped(model.values, Name())
      ensures editText.singleLine && editText.inputType == InputTypes.TYPE_NULL && editText.hint == placeHolder
      ensures Prefills() ==> editText.text == submittedDate.value && model.values == old(model.values)[Name() := Text(submittedDate.value)]
      ensures !Prefills() ==> editText.text == old(StoredText()) && model.values == old(model.values)
      ensures dialog == old(dialog)
    {
      var w := new Widgets.Widget(editTextId, InputTypes.TYPE_CLASS_TEXT);
      w.singleLine := true;
      w.SetInputType(InputTypes.TYPE_CLASS_DATETIME);
      w.ClearKeyListener();
      w.hint := placeHolder;
      w.SetText(StoredText());
      if Prefills() {
        w.SetText(submittedDate.value);
        model.SetValue(Name(), Text(submittedDate.value));
      }
      editText := w;
    }

    /**
     * `showDatePickerDialog`: opens a dialog starting from the stored date (or `now`) only
     * when none is open; otherwise nothing happens.
     */
    method ShowDatePickerDialog(now: int)
      requires TextTyped(model.values, Name())
      modifies this`dialog
      ensures old(dialog).Some? ==> dialog == old(dialog)
      ensures old(dialog).None? ==> dialog == Some(Dialog(InitialMoment(now)))
    {
      if dialog.None? {
        dialog := Some(Dialog(InitialMoment(now)));
      }
    }

    /** The click listener. */
    method OnClick(now: int)
      requires TextTyped(model.values, Name())
      modifies this`dialog
      ensures old(dialog).Some? ==> dialog == old(dialog)
      ensures old(dialog).None? ==> dialog == Some(Dialog(InitialMoment(now)))
    {
      ShowDatePickerDialog(now);
    }

    /** The focus listener: only a gained focus opens the dialog. */
    method OnFocusChange(hasFocus: bool, now: int)
      requires TextTyped(model.values, Name())
      modifies this`dialog
      ensures !hasFocus || old(dialog).Some? ==> dialog == old(dialog)
      ensures hasFocus && old(dialog).None? ==> dialog == Some(Dialog(InitialMoment(now)))
    {
      if hasFocus {
        ShowDatePickerDialog(now);
      }
    }

    /**
     * `onDateSet`: `picked` is the instant the calendar yields for the chosen day. Its
     * formatted form goes to the store and to the text, then one notification is sent.
     */
    method OnDateSet(picked: int)
      requires Valid() && editText != null && dialog.Some?
      modifies editText`text, model, listener
      ensures Valid()
      ensures model.values == old(model.values)[Name() := Text(formatDate(picked))]
      ensures editText.text == formatDate(picked)
      ensures listener.calls == old(listener.calls) + 1
    {
      var formatted := formatDate(picked);
      model.SetValue(Name(), Text(formatted));
      editText.SetText(formatted);
      listener.OnValidateInput();
    }

    /** The dismiss listener: clears the guard and nothing else. */
    method OnDismiss()
      modifies this`dialog
      ensures dialog == None
    {
      dialog := None;
    }

    /** `refresh()`: the text becomes the stored string, or "" when nothing is stored. */
    method Refresh()
      requires Valid() && editText != null && TextTyped(model.values, Name())
      modifies editText`text
      ensures Valid()
      ensures editText.text == StoredText()
    {
      editText.SetText(StoredText());
    }

    /** A confirmed date reads back unchanged through a refresh. */
    method ConfirmThenRefresh(picked: int)
      requires Valid() && editText != null && dialog.Some?
      modifies editText`text, model, listener
      ensures TextTyped(model.values, Name()) && StoredText() == formatDate(picked) && editText.text == StoredText()
      ensures listener.calls == old(listener.calls) + 1
    {
      OnDateSet(picked);
      Refresh();
    }
  }
}
