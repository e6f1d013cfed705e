/**
 * `RadioButtonController`: a group of radio buttons whose selection lives in the value store
 * as a set. Item i stands for `values[i]`, or for the boxed index i when there are no values.
 * It works as the check-box group does, with two differences in prefill: labels are compared
 * untrimmed, and every matching submitted label is itself added to the stored set.
 */
module RadioButton {
  import opened Wrappers
  import opened Values
  import opened Choice
  import JavaText
  import Widgets
  import Services
  import BaseLine

  /**
   * The prefill comparison `equalsIgnoreCase` on the labels as given, untrimmed: the same
   * length, and each pair of characters equal up to case.
   */
  function ItemMatches(submitted: string, item: string): (r: bool)
    ensures r <==> |submitted| == |item| && forall i :: 0 <= i < |submitted| ==> JavaText.FoldCase(submitted[i]) == JavaText.FoldCase(item[i])
  {
    JavaText.EqualsIgnoreCaseIsCharwise(submitted, item);
    JavaText.EqualsIgnoreCase(submitted, item)
  }

  class RadioButtonController {
    const base: BaseLine.BaseLineController
    const model: Services.FormModel
    const listener: Services.ValidationListener
    const radioButtonId: int
    const items: seq<string>
    const submittedItems: seq<string>
    const values: Option<seq<Elem>>
    var isPrefiledValueSet: bool
    var buttons: seq<Widgets.Widget>   // the container's children, button i at position i
    var created: bool                // whether `getFieldView` has built the view
    ghost var createCalls: nat

    function Name(): string {
      base.name
    }

    predicate SizesAgree() {
      values.Some? ==> |values.value| == |items|
    }

    /** The object item i stands for in the selection set. */
    function Resolve(i: nat): Elem
      requires SizesAgree() && i < |items|
    {
      if values.Some? then values.value[i] else Index(i)
    }

    /** Some of the first `n` submitted labels matches item j. */
    predicate MatchedWithin(j: nat, n: nat)
      requires j < |items| && n <= |submittedItems|
    {
      n > 0 && (MatchedWithin(j, n - 1) || ItemMatches(submittedItems[n - 1], items[j]))
    }

    predicate Matched(j: nat)
      requires j < |items|
    {
      MatchedWithin(j, |submittedItems|)
    }

    /** Some item among the first `n` is matched by a submitted label. */
    predicate AnyMatched(n: nat)
      requires n <= |items|
    {
      n > 0 && (AnyMatched(n - 1) || Matched(n - 1))
    }

    /** The submitted labels among the first `n` that match item j, as they were submitted. */
    function RawWithin(j: nat, n: nat): set<Elem>
      requires j < |items| && n <= |submittedItems|
    {
      if n == 0 then {}
      else RawWithin(j, n - 1) + (if ItemMatches(submittedItems[n - 1], items[j]) then {Str(submittedItems[n - 1])} else {})
    }

    /** What prefilling button j adds: its value and the raw labels that matched it. */
    function PrefillOf(j: nat): set<Elem>
      requires SizesAgree() && j < |items|
    {
      if Matched(j) then {Resolve(j)} + RawWithin(j, |submittedItems|) else {}
    }

    /** The selection once the first `n` buttons are prefilled, starting from `s`. */
    function Prefilled(s: set<Elem>, n: nat): set<Elem>
      requires SizesAgree() && n <= |items|
    {
      if n == 0 then s else Prefilled(s, n - 1) + PrefillOf(n - 1)
    }

    /** The store once the first `n` buttons are prefilled: untouched until some label matches. */
    function Seeded(m0: map<string, Value>, n: nat): map<string, Value>
      requires SizesAgree() && n <= |items| && SelectionTyped(m0, Name())
    {
      if AnyMatched(n) then m0[Name() := Selection(Prefilled(SelectionIn(m0, Name()), n))] else m0
    }

    /** How many of the first `n` states disagree with membership of their item's value in `s`. */
    function ChangedCount(checks: seq<bool>, s: set<Elem>, n: nat): nat
      requires SizesAgree() && n <= |checks| && n <= |items|
    {
      if n == 0 then 0
      else ChangedCount(checks, s, n - 1) + (if checks[n - 1] != (Resolve(n - 1) in s) then 1 else 0)
    }

    ghost predicate Valid()
      reads this, buttons
    {
      && SizesAgree()
      && isPrefiledValueSet == created
      && createCalls == (if created then 1 else 0)
      && |buttons| == (if created then |items| else 0)
      && forall i :: 0 <= i < |buttons| ==> buttons[i].id == radioButtonId + i
    }

    /** Each button shows its item's label. */
    ghost predicate Labelled()
      reads this, buttons
    {
      |buttons| <= |items| && forall i :: 0 <= i < |buttons| ==> buttons[i].text == items[i]
    }

    constructor (radioButtonId: int, base: BaseLine.BaseLineController, model: Services.FormModel,
                 listener: Services.ValidationListener, items: seq<string>, submittedItems: seq<string>,
                 values: Option<seq<Elem>>)
      requires values.Some? ==> |values.value| == |items|
      ensures Valid() && !created
      ensures this.radioButtonId == radioButtonId && this.base == base && this.model == model && this.listener == listener
      ensures this.items == items && this.submittedItems == submittedItems && this.values == values
    {
      this.radioButtonId := radioButtonId;
      this.base := base;
      this.model := model;
      this.listener := listener;
      this.items := items;
      this.submittedItems := submittedItems;
      this.values := values;
      isPrefiledValueSet := false;
      buttons := [];
      created := false;
      createCalls := 0;
    }

    /**
     * The constructors: the button ids are reserved first (a field initialiser), then a
     * `values` list whose size differs from `items` is rejected.
     */
    static method Create(ids: Services.IdAllocator, base: BaseLine.BaseLineController, model: Services.FormModel,
                         listener: Services.ValidationListener, items: seq<string>, submittedItems: seq<string>,
                         values: Option<seq<Elem>>)
      returns (r: Result<RadioButtonController, ConstructionError>)
      requires ids.Valid()
      modifies ids
      ensures ids.Valid() && ids.next == old(ids.next) + 1
      ensures r.Failure? <==> values.Some? && |values.value| != |items|
      ensures r.Success? ==> fresh(r.value) && r.value.Valid() && !r.value.created
      ensures r.Success? ==> r.value.radioButtonId == old(ids.next) && r.value.base == base && r.value.model == model
      ensures r.Success? ==> r.value.listener == listener && r.value.items == items
      ensures r.Success? ==> r.value.submittedItems == submittedItems && r.value.values == values
    {
      var id := ids.GenerateViewId();
      if values.Some? && |items| != |values.value| {
        return Failure(SizeMismatch);
      }
      var c := new RadioButtonController(id, base, model, listener, items, submittedItems, values);
      return Success(c);
    }

    /** The check-changed handler of the button whose id is `viewId`. */
    method OnCheckedChanged(viewId: int, isChecked: bool)
      requires SizesAgree() && radioButtonId <= viewId < radioButtonId + |items|
      requires SelectionTyped(model.values, Name())
      modifies model, listener
      ensures model.values == old(model.values)[Name() := Selection(Toggled(old(SelectionIn(model.values, Name())), Resolve(viewId - radioButtonId), isChecked))]
      ensures listener.calls == old(listener.calls) + (if isPrefiledValueSet then 1 else 0)
    {
      var position := viewId - radioButtonId;
      var value := Resolve(position);
      var modelValues := SelectionIn(model.values, Name());
      if isChecked {
        modelValues := modelValues + {value};
      } else {
        modelValues := modelValues - {value};
      }
      model.SetValue(Name(), Selection(modelValues));
      if isPrefiledValueSet {
        listener.OnValidateInput();
      }
    }

    /** `setChecked(b)` on one of the buttons: its listener runs only when the state changes. */
    method SetButtonChecked(button: Widgets.Widget, b: bool)
      requires SizesAgree() && radioButtonId <= button.id < radioButtonId + |items|
      requires SelectionTyped(model.values, Name())
      modifies button`checked, model, listener
      ensures button.checked == b
      ensures old(button.checked) == b ==> model.values == old(model.values) && listener.calls == old(listener.calls)
      ensures old(button.checked) != b ==>
                && model.values == old(model.values)[Name() := Selection(Toggled(old(SelectionIn(model.values, Name())), Resolve(button.id - radioButtonId), b))]
                && listener.calls == old(listener.calls) + (if isPrefiledValueSet then 1 else 0)
    {
      if button.checked != b {
        button.SetChecked(b);
        OnCheckedChanged(button.id, b);
      }
    }

    /**
     * The user taps a button of the built view. `RadioButton.toggle` only ever checks: a tap
     * on a checked button does nothing, and a tap on an unchecked one adds its value to the
     * stored set and sends one notification.
     */
    method Tap(button: Widgets.Widget)
      requires Valid() && created && button in buttons && SelectionTyped(model.values, Name())
      modifies button`checked, model, listener
      ensures button.checked
      ensures old(button.checked) ==> model.values == old(model.values) && listener.calls == old(listener.calls)
      ensures !old(button.checked) ==>
                && model.values == old(model.values)[Name() := Selection(old(SelectionIn(model.values, Name())) + {Resolve(button.id - radioButtonId)})]
                && listener.calls == old(listener.calls) + 1
    {
      if !button.checked {
        SetButtonChecked(button, true);
      }
    }

    /** `refresh(button, index)`: the button shows whether item `index`'s value is in the stored set. */
    method RefreshButton(button: Widgets.Widget, index: nat)
      requires SizesAgree() && index < |items| && button.id == radioButtonId + index
      requires SelectionTyped(model.values, Name())
      modifies button`checked, model, listener
      ensures button.checked == (Resolve(index) in old(SelectionIn(model.values, Name())))
      ensures old(button.checked) == button.checked ==>
                model.values == old(model.values) && listener.calls == old(listener.calls)
      ensures old(button.checked) != button.checked ==>
                && model.values == old(model.values)[Name() := Selection(old(SelectionIn(model.values, Name())))]
                && listener.calls == old(listener.calls) + (if isPrefiledValueSet then 1 else 0)
    {
      var modelValues := SelectionIn(model.values, Name());
      var value := Resolve(index);
      SetButtonChecked(button, value in modelValues);
      assert Toggled(modelValues, value, value in modelValues) == modelValues;
    }

    /**
     * `refresh()`: every button shows whether its value is in the stored set. Each button that
     * changes runs its listener, which writes that same set back (an absent value becomes
     * the empty set) and sends one notification.
     */
    method Refresh()
      requires Valid() && created && SelectionTyped(model.values, Name())
      modifies buttons, model, listener
      ensures Valid()
      ensures forall i :: 0 <= i < |buttons| ==> buttons[i].text == old(buttons[i].text)
      ensures forall i :: 0 <= i < |buttons| ==> buttons[i].checked == (Resolve(i) in old(SelectionIn(model.values, Name())))
      ensures model.values ==
                if ChangedCount(old(CheckStates(buttons)), old(SelectionIn(model.values, Name())), |items|) == 0
                then old(model.values)
                else old(model.values)[Name() := Selection(old(SelectionIn(model.values, Name())))]
      ensures listener.calls == old(listener.calls) + ChangedCount(old(CheckStates(buttons)), old(SelectionIn(model.values, Name())), |items|)
    {
      ghost var m0 := model.values;
      ghost var s0 := SelectionIn(m0, Name());
      ghost var c0 := CheckStates(buttons);
      var index := 0;
      while index < |items|
        invariant 0 <= index <= |items|
        invariant Valid()
        invariant forall j :: 0 <= j < |buttons| ==>
                    && buttons[j].text == old(buttons[j].text)
                    && buttons[j].checked == if j < index then Resolve(j) in s0 else c0[j]
        invariant model.values == if ChangedCount(c0, s0, index) == 0 then m0 else m0[Name() := Selection(s0)]
        invariant SelectionTyped(model.values, Name()) && SelectionIn(model.values, Name()) == s0
        invariant listener.calls == old(listener.calls) + ChangedCount(c0, s0, index)
      {
        RefreshStep(index, m0, c0);
        index := index + 1;
      }
    }

    /** The loop of `refresh()` past button `index`: that button now shows the stored set, the others are as they were. */
    method RefreshStep(index: nat, ghost m0: map<string, Value>, ghost c0: seq<bool>)
      requires Valid() && created && index < |items| && |c0| == |items| && SelectionTyped(m0, Name())
      requires forall j :: 0 <= j < |buttons| ==>
                 buttons[j].checked == if j < index then Resolve(j) in SelectionIn(m0, Name()) else c0[j]
      requires model.values == if ChangedCount(c0, SelectionIn(m0, Name()), index) == 0 then m0 else m0[Name() := Selection(SelectionIn(m0, Name()))]
      requires SelectionTyped(model.values, Name()) && SelectionIn(model.values, Name()) == SelectionIn(m0, Name())
      modifies buttons[index], model, listener
      ensures forall j :: 0 <= j < |buttons| ==>
                && buttons[j].text == old(buttons[j].text)
                && buttons[j].checked == if j < index + 1 then Resolve(j) in SelectionIn(m0, Name()) else c0[j]
      ensures model.values == if ChangedCount(c0, SelectionIn(m0, Name()), index + 1) == 0 then m0 else m0[Name() := Selection(SelectionIn(m0, Name()))]
      ensures SelectionTyped(model.values, Name()) && SelectionIn(model.values, Name()) == SelectionIn(m0, Name())
      ensures listener.calls == old(listener.calls) + ChangedCount(c0, SelectionIn(m0, Name()), index + 1) - ChangedCount(c0, SelectionIn(m0, Name()), index)
    {
      var button := buttons[index];
      forall j | 0 <= j < |items| && j != index
        ensures buttons[j] != button
      {
        assert buttons[j].id != button.id;
      }
      RefreshTurn(button, index, m0, c0);
    }

    /** One turn of the loop of `refresh()`: the store and the count of notifications follow the changed buttons so far. */
    method RefreshTurn(w: Widgets.Widget, index: nat, ghost m0: map<string, Value>, ghost c0: seq<bool>)
      requires SizesAgree() && isPrefiledValueSet && index < |items| && |c0| == |items| && w.id == radioButtonId + index
      requires SelectionTyped(m0, Name()) && w.checked == c0[index]
      requires model.values == if ChangedCount(c0, SelectionIn(m0, Name()), index) == 0 then m0 else m0[Name() := Selection(SelectionIn(m0, Name()))]
      requires SelectionTyped(model.values, Name()) && SelectionIn(model.values, Name()) == SelectionIn(m0, Name())
      modifies w`checked, model, listener
      ensures w.checked == (Resolve(index) in SelectionIn(m0, Name()))
      ensures model.values == if ChangedCount(c0, SelectionIn(m0, Name()), index + 1) == 0 then m0 else m0[Name() := Selection(SelectionIn(m0, Name()))]
      ensures SelectionTyped(model.values, Name()) && SelectionIn(model.values, Name()) == SelectionIn(m0, Name())
      ensures listener.calls == old(listener.calls) + ChangedCount(c0, SelectionIn(m0, Name()), index + 1) - ChangedCount(c0, SelectionIn(m0, Name()), index)
    {
      ghost var s0 := SelectionIn(m0, Name());
      ghost var before := model.values;
      ghost var changes := c0[index] != (Resolve(index) in s0);
      assert ChangedCount(c0, s0, index + 1) == ChangedCount(c0, s0, index) + (if changes then 1 else 0);
      RefreshButton(w, index);
      if changes {
        assert model.values == before[Name() := Selection(s0)];
        assert before[Name() := Selection(s0)] == m0[Name() := Selection(s0)];
      } else {
        assert model.values == before;
      }
    }

    /**
     * `createFieldView()`: builds button i with id `radioButtonId + i` and its label, checks
     * it from the store, then checks it again for every submitted label that matches, each
     * match adding that label to the stored set. Only then is the prefill flag set, so no
     * notification is sent while building.
     */
    method CreateFieldView()
      requires Valid() && !created && SelectionTyped(model.values, Name())
      modifies this, model, listener
      ensures Valid() && created && Labelled()
      ensures forall j :: 0 <= j < |buttons| ==> fresh(buttons[j])
      ensures forall j :: 0 <= j < |buttons| ==>
                buttons[j].checked == (Resolve(j) in Prefilled(old(SelectionIn(model.values, Name())), j + 1))
      ensures model.values == Seeded(old(model.values), |items|)
      ensures listener.calls == old(listener.calls)
    {
      buttons := BuildButtons();
      isPrefiledValueSet := true;
      created := true;
      createCalls := createCalls + 1;
    }

    /** Button `b` for item `j` is checked iff the item's value is in the set prefilled up to it. */
    ghost predicate ShowsPrefill(b: Widgets.Widget, j: nat, s: set<Elem>)
      requires SizesAgree() && j < |items|
      reads this, b
    {
      b.checked == (Resolve(j) in Prefilled(s, j + 1))
    }

    /** The outer loop of `createFieldView`: every button, in item order. */
    method BuildButtons() returns (built: seq<Widgets.Widget>)
      requires SizesAgree() && !isPrefiledValueSet && SelectionTyped(model.values, Name())
      modifies model, listener
      ensures |built| == |items|
      ensures forall j :: 0 <= j < |items| ==>
                && fresh(built[j])
                && built[j].id == radioButtonId + j
                && built[j].text == items[j]
                && ShowsPrefill(built[j], j, old(SelectionIn(model.values, Name())))
      ensures model.values == Seeded(old(model.values), |items|)
      ensures listener.calls == old(listener.calls)
    {
      ghost var m0 := model.values;
      ghost var s0 := SelectionIn(m0, Name());
      built := [];
      var index := 0;
      while index < |items|
        invariant 0 <= index <= |items| && |built| == index
        invariant forall j :: 0 <= j < index ==>
                    && fresh(built[j])
                    && built[j].id == radioButtonId + j
                    && built[j].text == items[j]
                    && ShowsPrefill(built[j], j, s0)
        invariant model.values == Seeded(m0, index)
        invariant listener.calls == old(listener.calls)
      {
        var button := BuildButton(index, m0);
        built := built + [button];
        index := index + 1;
      }
    }

    /** One turn of the outer loop of `createFieldView`: button `index` is built, refreshed and prefilled. */
    method BuildButton(index: nat, ghost m0: map<string, Value>) returns (button: Widgets.Widget)
      requires SizesAgree() && index < |items| && SelectionTyped(m0, Name()) && !isPrefiledValueSet
      requires model.values == Seeded(m0, index)
      modifies model, listener
      ensures fresh(button) && button.id == radioButtonId + index && button.text == items[index]
      ensures button.checked == (Resolve(index) in Prefilled(SelectionIn(m0, Name()), index + 1))
      ensures model.values == Seeded(m0, index + 1)
      ensures listener.calls == old(listener.calls)
    {
      button := new Widgets.Widget(radioButtonId + index, 0);
      button.SetText(items[index]);
      SeededSelection(m0, index);
      RefreshButton(button, index);
      if button.checked {
        SeededRewrite(m0, index);
      }
      PrefillButton(button, index, m0);
    }

    /** The inner prefill loop of `createFieldView` for button `index`. */
    method PrefillButton(button: Widgets.Widget, index: nat, ghost m0: map<string, Value>)
      requires SizesAgree() && index < |items| && button.id == radioButtonId + index
      requires SelectionTyped(m0, Name()) && !isPrefiledValueSet
      requires model.values == Seeded(m0, index)
      requires button.checked == (Resolve(index) in Prefilled(SelectionIn(m0, Name()), index))
      modifies button`checked, model, listener
      ensures button.checked == (Resolve(index) in Prefilled(SelectionIn(m0, Name()), index + 1))
      ensures model.values == Seeded(m0, index + 1)
      ensures listener.calls == old(listener.calls)
    {
      var i := 0;
      while i < |submittedItems|
        invariant 0 <= i <= |submittedItems|
        invariant button.checked == (Resolve(index) in Prefilled(SelectionIn(m0, Name()), index) || MatchedWithin(index, i))
        invariant model.values == Midway(m0, index, i)
        invariant listener.calls == old(listener.calls)
      {
        PrefillLabel(button, index, i, m0);
        i := i + 1;
      }
      MidwayEnd(m0, index);
    }

    /** One turn of the inner prefill loop: submitted label `i` is compared with item `index`. */
    method PrefillLabel(button: Widgets.Widget, index: nat, i: nat, ghost m0: map<string, Value>)
      requires SizesAgree() && index < |items| && i < |submittedItems| && button.id == radioButtonId + index
      requires SelectionTyped(m0, Name()) && !isPrefiledValueSet
      requires button.checked == (Resolve(index) in Prefilled(SelectionIn(m0, Name()), index) || MatchedWithin(index, i))
      requires model.values == Midway(m0, index, i)
      modifies button`checked, model, listener
      ensures button.checked == (Resolve(index) in Prefilled(SelectionIn(m0, Name()), index) || MatchedWithin(index, i + 1))
      ensures model.values == Midway(m0, index, i + 1)
      ensures listener.calls == old(listener.calls)
    {
      if ItemMatches(submittedItems[i], items[index]) {
        MidwayStep(m0, index, i);
        SetButtonChecked(button, true);
        var modelValues := SelectionIn(model.values, Name());
        modelValues := modelValues + {Str(submittedItems[i])};
        model.SetValue(Name(), Selection(modelValues));
      } else {
        assert RawWithin(index, i + 1) == RawWithin(index, i);
        assert Midway(m0, index, i + 1) == Midway(m0, index, i);
      }
    }

    /** The store while button `index` is prefilled, once `i` submitted labels are compared. */
    ghost function Midway(m0: map<string, Value>, index: nat, i: nat): map<string, Value>
      requires SizesAgree() && index < |items| && i <= |submittedItems| && SelectionTyped(m0, Name())
    {
      if MatchedWithin(index, i)
      then Seeded(m0, index)[Name() := Selection(Prefilled(SelectionIn(m0, Name()), index) + {Resolve(index)} + RawWithin(index, i))]
      else Seeded(m0, index)
    }

    /** What one matching label does to the store: the listener's write, if the button was off, then the label's. */
    lemma MidwayStep(m0: map<string, Value>, index: nat, i: nat)
      requires SizesAgree() && index < |items| && i < |submittedItems| && SelectionTyped(m0, Name())
      requires ItemMatches(submittedItems[i], items[index])
      ensures SelectionTyped(Midway(m0, index, i), Name())
      ensures var p := Prefilled(SelectionIn(m0, Name()), index);
              var cur := Midway(m0, index, i);
              var fired := if Resolve(index) in p || MatchedWithin(index, i) then cur
                           else cur[Name() := Selection(Toggled(SelectionIn(cur, Name()), Resolve(index), true))];
              fired[Name() := Selection(SelectionIn(fired, Name()) + {Str(submittedItems[i])})] == Midway(m0, index, i + 1)
    {
      var p := Prefilled(SelectionIn(m0, Name()), index);
      var v := Resolve(index);
      var raw := RawWithin(index, i);
      var entry := Str(submittedItems[i]);
      SeededSelection(m0, index);
      assert RawWithin(index, i + 1) == raw + {entry};
      assert MatchedWithin(index, i + 1);
      var next := Seeded(m0, index)[Name() := Selection(p + {v} + raw + {entry})];
      assert p + {v} + RawWithin(index, i + 1) == p + {v} + raw + {entry};
      assert Midway(m0, index, i + 1) == next;
      if !MatchedWithin(index, i) {
        FirstMatchStep(m0, index, i);
      }
    }

    /** The first matching label: the listener adds the item's value (unless prefilled already), then the label is added. */
    lemma FirstMatchStep(m0: map<string, Value>, index: nat, i: nat)
      requires SizesAgree() && index < |items| && i < |submittedItems| && SelectionTyped(m0, Name())
      requires !MatchedWithin(index, i)
      ensures var p := Prefilled(SelectionIn(m0, Name()), index);
              var cur := Seeded(m0, index);
              var fired := if Resolve(index) in p then cur
                           else cur[Name() := Selection(Toggled(SelectionIn(cur, Name()), Resolve(index), true))];
              fired[Name() := Selection(SelectionIn(fired, Name()) + {Str(submittedItems[i])})]
                == Seeded(m0, index)[Name() := Selection(p + {Resolve(index)} + RawWithin(index, i) + {Str(submittedItems[i])})]
    {
      var p := Prefilled(SelectionIn(m0, Name()), index);
      var v := Resolve(index);
      var entry := Str(submittedItems[i]);
      SeededSelection(m0, index);
      NoMatchNoRaw(index, i);
      if v in p {
        assert p + {v} + RawWithin(index, i) + {entry} == p + {entry};
      } else {
        var fired := Seeded(m0, index)[Name() := Selection(p + {v})];
        assert SelectionIn(fired, Name()) + {entry} == p + {v} + RawWithin(index, i) + {entry};
      }
    }

    /** Without a match among the first `n` labels, no raw label is collected. */
    lemma {:induction false} NoMatchNoRaw(j: nat, n: nat)
      requires j < |items| && n <= |submittedItems| && !MatchedWithin(j, n)
      ensures RawWithin(j, n) == {}
    {
      if n > 0 {
        NoMatchNoRaw(j, n - 1);
      }
    }

    /** Once every label is compared, the store is the seeded store of the next button. */
    lemma MidwayEnd(m0: map<string, Value>, index: nat)
      requires SizesAgree() && index < |items| && SelectionTyped(m0, Name())
      ensures Midway(m0, index, |submittedItems|) == Seeded(m0, index + 1)
    {
      var p := Prefilled(SelectionIn(m0, Name()), index);
      assert Prefilled(SelectionIn(m0, Name()), index + 1) == p + PrefillOf(index);
      if Matched(index) {
        assert AnyMatched(index + 1);
        var x := p + {Resolve(index)} + RawWithin(index, |submittedItems|);
        assert p + PrefillOf(index) == x;
        assert Seeded(m0, index)[Name() := Selection(x)] == m0[Name() := Selection(x)];
      } else {
        assert AnyMatched(index + 1) == AnyMatched(index);
        assert PrefillOf(index) == {};
        assert Prefilled(SelectionIn(m0, Name()), index + 1) == p;
      }
    }

    /** `getFieldView()`: builds the view on the first call only and returns the same buttons ever after. */
    method GetFieldView() returns (view: seq<Widgets.Widget>)
      requires Valid() && SelectionTyped(model.values, Name())
      modifies this, model, listener
      ensures Valid() && created && createCalls == 1 && view == buttons
      ensures old(created) ==> view == old(buttons) && model.values == old(model.values) && listener.calls == old(listener.calls)
      ensures !old(created) ==> Labelled() && model.values == Seeded(old(model.values), |items|) && listener.calls == old(listener.calls)
      ensures !old(created) ==> forall j :: 0 <= j < |buttons| ==>
                fresh(buttons[j]) && buttons[j].checked == (Resolve(j) in Prefilled(old(SelectionIn(model.values, Name())), j + 1))
    {
      if !created {
        CreateFieldView();
      }
      view := buttons;
    }

    // -------------------------------------------------------------------------
    // Facts about prefill

    /**
     * A value is in the prefilled set iff it was there already, or is the value of a matched
     * item, or is a submitted label as written that matched an item.
     */
    lemma {:induction false} PrefilledMembers(s: set<Elem>, n: nat, x: Elem)
      requires SizesAgree() && n <= |items|
      ensures x in Prefilled(s, n) <==> x in s || exists k :: 0 <= k < n && x in PrefillOf(k)
    {
      if n > 0 {
        PrefilledMembers(s, n - 1, x);
        if x in Prefilled(s, n) && x !in s && x !in Prefilled(s, n - 1) {
          assert x in PrefillOf(n - 1);
        }
      }
    }

    /** A raw label joins the set only if it matched the item, and then it is exactly that label. */
    lemma {:induction false} RawWithinMembers(j: nat, n: nat, x: Elem)
      requires j < |items| && n <= |submittedItems|
      ensures x in RawWithin(j, n) <==> exists i :: 0 <= i < n && ItemMatches(submittedItems[i], items[j]) && x == Str(submittedItems[i])
    {
      if n > 0 {
        RawWithinMembers(j, n - 1, x);
        if x in RawWithin(j, n) && x !in RawWithin(j, n - 1) {
          assert ItemMatches(submittedItems[n - 1], items[j]) && x == Str(submittedItems[n - 1]);
        }
      }
    }

    /** `AnyMatched(n)` says that some item among the first `n` is matched. */
    lemma {:induction false} AnyMatchedMeans(n: nat)
      requires n <= |items|
      ensures AnyMatched(n) <==> exists k :: 0 <= k < n && Matched(k)
    {
      if n > 0 {
        AnyMatchedMeans(n - 1);
        if Matched(n - 1) {
          assert exists k :: 0 <= k < n && Matched(k);
        }
      }
    }

    /** With no match, prefill leaves the selection as it was. */
    lemma {:induction false} NoMatchKeepsSelection(s: set<Elem>, n: nat)
      requires SizesAgree() && n <= |items| && !AnyMatched(n)
      ensures Prefilled(s, n) == s
    {
      if n > 0 {
        NoMatchKeepsSelection(s, n - 1);
      }
    }

    /** The store after prefilling holds the prefilled set, or nothing when it held nothing and no label matched. */
    lemma SeededSelection(m0: map<string, Value>, n: nat)
      requires SizesAgree() && n <= |items| && SelectionTyped(m0, Name())
      ensures SelectionTyped(Seeded(m0, n), Name())
      ensures SelectionIn(Seeded(m0, n), Name()) == Prefilled(SelectionIn(m0, Name()), n)
    {
      if !AnyMatched(n) {
        NoMatchKeepsSelection(SelectionIn(m0, Name()), n);
      }
    }

    /** Writing a non-empty prefilled set back over the seeded store changes nothing. */
    lemma SeededRewrite(m0: map<string, Value>, n: nat)
      requires SizesAgree() && n <= |items| && SelectionTyped(m0, Name())
      requires Prefilled(SelectionIn(m0, Name()), n) != {}
      ensures Seeded(m0, n)[Name() := Selection(Prefilled(SelectionIn(m0, Name()), n))] == Seeded(m0, n)
    {
      SeededSelection(m0, n);
      RewriteIsIdentity(Seeded(m0, n), Name());
    }

    /**
     * With boxed indices as values, each button the view is built with is checked iff its
     * index is in the store's final selection: the raw labels are strings, never indices.
     */
    lemma CreatedButtonsAgreeWithStore(s: set<Elem>, j: nat)
      requires values.None? && j < |items|
      ensures Resolve(j) in Prefilled(s, j + 1) <==> Resolve(j) in Prefilled(s, |items|)
    {
      PrefilledMembers(s, j + 1, Resolve(j));
      PrefilledMembers(s, |items|, Resolve(j));
      if Resolve(j) in Prefilled(s, |items|) && Resolve(j) !in s {
        var k :| 0 <= k < |items| && Resolve(j) in PrefillOf(k);
        if Resolve(j) in RawWithin(k, |submittedItems|) {
          RawWithinMembers(k, |submittedItems|, Resolve(j));
        }
        assert k == j;
      }
    }

    /**
     * With labels as values, a submitted label that differs from its item in case joins the
     * selection beside the item's own label: one prefilled button gives two set members.
     */
    lemma PrefillKeepsRawLabel()
      requires items == ["Yes"] && submittedItems == ["yes"] && values == Some([Str("Yes")])
      ensures Prefilled({}, 1) == {Str("Yes"), Str("yes")}
    {
      JavaText.EqualsIgnoreCaseIsCharwise("yes", "Yes");
      assert ItemMatches("yes", "Yes");
      assert Matched(0);
    }

    /** Without values, two items never stand for the same object. */
    lemma IndicesAreDistinct()
      requires values.None?
      ensures forall a, b :: 0 <= a < b < |items| ==> Resolve(a) != Resolve(b)
    {
    }
  }
}
