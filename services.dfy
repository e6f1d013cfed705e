/**
 * The collaborators the controllers call but whose code is not part of this model:
 * the form's value store, the view-id allocator, the validation and click listeners,
 * and the alert presenter. Each is specified by the effect it has and nothing more.
 */
module Services {
  import opened Wrappers
  import opened Values

  /**
   * The value store shared by every controller of a form (`getModel()`): at most one
   * value per field name; a name with no entry reads as Java's `null`.
   */
  class FormModel {
    var values: map<string, Value>

    constructor (initial: map<string, Value>)
      ensures values == initial
    {
      values := initial;
    }

    /** `getValue(name)`: the stored value, or `None` for `null`. */
    function GetValue(name: string): (r: Option<Value>)
      reads this
      ensures r.Some? <==> name in values
      ensures r.Some? ==> r.value == values[name]
    {
      if name in values then Some(values[name]) else None
    }

    /** `setValue(name, v)`: replaces the value stored under `name` and nothing else. */
    method SetValue(name: string, v: Value)
      modifies this
      ensures values == old(values)[name := v]
    {
      values := values[name := v];
    }
  }

  /**
   * `FormController.generateViewId()`: a process-wide counter handing out consecutive
   * integers; `issued` remembers every id handed out so far.
   */
  class IdAllocator {
    var next: int
    ghost var issued: set<int>

    ghost predicate Valid()
      reads this
    {
      forall id :: id in issued ==> id < next
    }

    constructor (start: int)
      ensures Valid() && next == start && issued == {}
    {
      next := start;
      issued := {};
    }

    /** A fresh id: never handed out before, and one more than the previous one. */
    method GenerateViewId() returns (id: int)
      requires Valid()
      modifies this
      ensures Valid()
      ensures id == old(next) && next == old(next) + 1
      ensures id !in old(issued) && issued == old(issued) + {id}
    {
      id := next;
      next := next + 1;
      issued := issued + {id};
    }
  }

  /** `ValidationListener`: counts the `onValidateInput` notifications it receives. */
  class ValidationListener {
    var calls: nat

    constructor ()
      ensures calls == 0
    {
      calls := 0;
    }

    method OnValidateInput()
      modifies this
      ensures calls == old(calls) + 1
    {
      calls := calls + 1;
    }
  }

  /** `ImageClickListener`: records image clicks and counts button clicks. */
  class ClickListener {
    var imageClicks: seq<(int, ImageRecord)>
    var buttonClicks: nat

    constructor ()
      ensures imageClicks == [] && buttonClicks == 0
    {
      imageClicks := [];
      buttonClicks := 0;
    }

    method OnImageClicked(position: int, record: ImageRecord)
      modifies this`imageClicks
      ensures imageClicks == old(imageClicks) + [(position, record)]
    {
      imageClicks := imageClicks + [(position, record)];
    }

    method OnButtonClicked()
      modifies this`buttonClicks
      ensures buttonClicks == old(buttonClicks) + 1
    {
      buttonClicks := buttonClicks + 1;
    }
  }

  /** `MessageUtil.showAlertMessage(title, body, context)`: records each alert shown. */
  class AlertSink {
    var shown: seq<(string, string)>

    constructor ()
      ensures shown == []
    {
      shown := [];
    }

    method ShowAlertMessage(title: string, body: string)
      modifies this
      ensures shown == old(shown) + [(title, body)]
    {
      shown := shown + [(title, body)];
    }
  }
}
