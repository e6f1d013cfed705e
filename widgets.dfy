/**
 * The Android surface a controller drives, reduced to the state the controllers read
 * and write. Two behaviours of the Android widgets are part of this model because the
 * controllers depend on them, although they are not code of this repository:
 * `setText` passes the text through the widget's `InputFilter.LengthFilter`, if any;
 * `setInputType` re-derives the line mode from the type; and `CompoundButton.setChecked` notifies its listener only when the state changes
 * (modelled in each choice-group controller, which owns that listener).
 */
module Widgets {
  import opened Wrappers
  import InputTypes

  /** What `InputFilter.LengthFilter(cap)` keeps of a text: its first `cap` characters. */
  function Capped(s: string, cap: Option<nat>): (r: string)
    ensures |r| <= |s| && r == s[..|r|]
    ensures cap.None? ==> r == s
    ensures cap.Some? ==> |r| == if |s| <= cap.value then |s| else cap.value
  {
    if cap.Some? && cap.value < |s| then s[..cap.value] else s
  }

  /** A text view, edit text, check box or radio button. */
  class Widget {
    const id: int
    var text: string
    var checked: bool
    var enabled: bool
    var inputType: bv32            // the `android.text.InputType` mask
    var singleLine: bool
    var maxLength: Option<nat>     // the LengthFilter cap, if one is installed
    var hint: Option<string>
    var clickBound: bool           // whether an OnClickListener is set
    var background: int            // background colour, 0xAARRGGBB as `Color.parseColor` returns it

    constructor (id: int, inputType: bv32)
      ensures this.id == id && this.inputType == inputType
      ensures text == "" && !checked && enabled && !singleLine
      ensures maxLength == None && hint == None && !clickBound && background == 0
    {
      this.id := id;
      this.inputType := inputType;
      text := "";
      checked := false;
      enabled := true;
      singleLine := false;
      maxLength := None;
      hint := None;
      clickBound := false;
      background := 0;
    }

    /** `setText(s)`: the installed length filter applies to programmatic text too. */
    method SetText(s: string)
      modifies this`text
      ensures text == Capped(s, maxLength)
    {
      text := Capped(s, maxLength);
    }

    /** `setInputType(t)`: the widget takes the type and is single-line unless the type is multi-line text. */
    method SetInputType(t: bv32)
      modifies this`inputType, this`singleLine
      ensures inputType == t && singleLine == !InputTypes.MultiLineInputType(t)
    {
      inputType := t;
      singleLine := !InputTypes.MultiLineInputType(t);
    }

    /**
     * `setKeyListener(null)`: without a key listener the editor's input type becomes
     * `TYPE_NULL`; the line mode is left as it was.
     */
    method ClearKeyListener()
      modifies this`inputType
      ensures inputType == InputTypes.TYPE_NULL
    {
      inputType := InputTypes.TYPE_NULL;
    }

    /** `setChecked(b)`: stores the state; whoever owns the change listener dispatches it. */
    method SetChecked(b: bool)
      modifies this`checked
      ensures checked == b
    {
      checked := b;
    }
  }
}
