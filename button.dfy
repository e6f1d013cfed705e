/**
 * `ButtonController`: a value shown on a button-like text view. An enable flag decides,
 * each time the view is refreshed, whether the view is enabled, its colour and whether a
 * click reaches the click listener; changing the flag alone changes nothing on screen.
 */
module Button {
  import opened Wrappers
  import opened Values
  import Widgets
  import Services
  import BaseLine
  import Validations

  /** `Color.parseColor("#f68c1e")`, with the opaque alpha it adds. */
  const ENABLED_COLOR: int := 0xFF_F6_8C_1E
  /** `Color.parseColor("#D3D3D3")`. */
  const DISABLED_COLOR: int := 0xFF_D3_D3_D3

  class ButtonController {
    const viewId: int
    const base: BaseLine.BaseLineController
    const model: Services.FormModel
    const clickListener: Services.ClickListener
    var isEnabled: bool
    var textView: Widgets.Widget?   // null until the view is built

    function Name(): string {
      base.name
    }

    ghost predicate Valid()
      reads this, textView
    {
      textView != null ==> textView.id == viewId && textView.maxLength == None
    }

    /** `ButtonController(ctx, name, labelText, listener, isEnabled)`: the field is never required. */
    constructor (viewId: int, name: string, labelText: Option<string>, model: Services.FormModel,
                 clickListener: Services.ClickListener, isEnabled: bool)
      ensures Valid() && textView == null && fresh(base)
      ensures Name() == name && base.labelText == labelText && base.validators == {}
      ensures !base.IsRequired() && !base.IsMobileRequired()
      ensures this.viewId == viewId && this.model == model && this.clickListener == clickListener && this.isEnabled == isEnabled
    {
      this.viewId := viewId;
      base := new BaseLine.BaseLineController(name, labelText, false, false);
      this.model := model;
      this.clickListener := clickListener;
      this.isEnabled := isEnabled;
      textView := null;
    }

    /** `refresh(textView)`: the stored value's text, then the enabled state, colour and click binding from the flag. */
    method RefreshView(w: Widgets.Widget)
      requires w.maxLength == None
      modifies w`text, w`enabled, w`background, w`clickBound
      ensures w.text == ShowOrEmpty(model.GetValue(Name()))
      ensures w.enabled == isEnabled && w.clickBound == isEnabled
      ensures w.background == if isEnabled then ENABLED_COLOR else DISABLED_COLOR
    {
      w.SetText(ShowOrEmpty(model.GetValue(Name())));
      w.enabled := isEnabled;
      if isEnabled {
        w.background := ENABLED_COLOR;
        w.clickBound := true;
      } else {
        w.background := DISABLED_COLOR;
        w.clickBound := false;
      }
    }

    /** `createFieldView()`: the inflated view, refreshed once. */
    method CreateFieldView()
      requires Valid() && textView == null
      modifies this`textView
      ensures Valid() && textView != null && fresh(textView)
      ensures textView.text == ShowOrEmpty(model.GetValue(Name()))
      ensures textView.enabled == isEnabled && textView.clickBound == isEnabled
      ensures textView.background == if isEnabled then ENABLED_COLOR else DISABLED_COLOR
    {
      var w := new Widgets.Widget(viewId, 0);
      RefreshView(w);
      textView := w;
    }

    /** `refresh()`. */
    method Refresh()
      requires Valid() && textView != null
      modifies textView`text, textView`enabled, textView`background, textView`clickBound
      ensures Valid()
      ensures textView.text == ShowOrEmpty(model.GetValue(Name()))
      ensures textView.enabled == isEnabled && textView.clickBound == isEnabled
      ensures textView.background == if isEnabled then ENABLED_COLOR else DISABLED_COLOR
    {
      RefreshView(textView);
    }

    /** `toggleButton(isEnabled)`: only the flag changes; the view waits for the next refresh. */
    method ToggleButton(enabled: bool)
      modifies this`isEnabled
      ensures isEnabled == enabled
    {
      isEnabled := enabled;
    }

    /** A click on the view: reaches `onButtonClicked` exactly once when a click listener is bound, else nothing. */
    method Click()
      requires textView != null
      modifies clickListener`buttonClicks
      ensures clickListener.buttonClicks == old(clickListener.buttonClicks) + (if textView.clickBound then 1 else 0)
    {
      if textView.clickBound {
        clickListener.OnButtonClicked();
      }
    }

    /** Toggling and then refreshing puts the view in the toggled state; a click then counts iff enabled. */
    method ToggleRefreshClick(enabled: bool)
      requires Valid() && textView != null
      modifies this`isEnabled, textView`text, textView`enabled, textView`background, textView`clickBound, clickListener`buttonClicks
      ensures textView.enabled == enabled
      ensures clickListener.buttonClicks == old(clickListener.buttonClicks) + (if enabled then 1 else 0)
    {
      ToggleButton(enabled);
      Refresh();
      Click();
    }
  }

  /** The button's base runs no rule, so validating it reports nothing whatever is stored. */
  lemma ButtonNeverFails(value: Option<Value>, name: string, fieldLabel: string)
    ensures BaseLine.Failures({}, value, name, fieldLabel) == multiset{}
  {
  }
}
