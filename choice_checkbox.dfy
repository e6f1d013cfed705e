/**
 * `CheckBoxController`: a group of check boxes whose selection lives in the value store as
 * a set. Item i stands for `values[i]`, or for the boxed index i when there are no values.
 * Building the view checks each box from the store, then prefills it from the submitted
 * labels; validation notifications start only once that prefill is over.
 */
module CheckBox {
  import opened Wrappers
  import opened Values
  import opened Choice
  import JavaText
  import Widgets
  import Services
  import BaseLine

  /**
   * The prefill comparison `submitted.trim().equalsIgnoreCase(item.trim())`: once both are
   * trimmed, the labels have the same length and agree character by character up to case.
   */
  function ItemMatches(submitted: string, item: string): (r: bool)
    ensures r <==> var a, b := JavaText.Trim(submitted), JavaText.Trim(item);
                   |a| == |b| && forall i :: 0 <= i < |a| ==> JavaText.FoldCase(a[i]) == JavaText.FoldCase(b[i])
  {
    JavaText.EqualsIgnoreCaseIsCharwise(JavaText.Trim(submitted), JavaText.Trim(item));
    JavaText.EqualsIgnoreCase(JavaText.Trim(submitted), JavaText.Trim(item))
  }

  class CheckBoxController {
    const base: BaseLine.BaseLineController
    const model: Services.FormModel
    const listener: Services.ValidationListener
    const checkboxId: int
    const items: seq<string>
    const submittedItems: seq<string>
    const values: Option<seq<Elem>>
    var isPrefiledValueSet: bool
    var boxes: seq<Widgets.Widget>   // the container's children, box i at position i
    var created: bool                // whether `getFieldView` has built the view
    ghost var createCalls: nat

    function Name(): string {
      base.name
    }

    predicate SizesAgree() {
      values.Some? ==> |values.value| == |items|
    }

    /** The object item i stands for in the selection set. */
    function Resolve(i: nat): Elem
      requires SizesAgree() && i < |items|
    {
      if values.Some? then values.value[i] else Index(i)
    }

    /** Some of the first `n` submitted labels matches item j. */
    predicate MatchedWithin(j: nat, n: nat)
      requires j < |items| && n <= |submittedItems|
    {
      n > 0 && (MatchedWithin(j, n - 1) || ItemMatches(submittedItems[n - 1], items[j]))
    }

    predicate Matched(j: nat)
      requires j < |items|
    {
      MatchedWithin(j, |submittedItems|)
    }

    /** Some item among the first `n` is matched by a submitted label. */
    predicate AnyMatched(n: nat)
      requires n <= |items|
    {
      n > 0 && (AnyMatched(n - 1) || Matched(n - 1))
    }

    /** The selection once the first `n` boxes are prefilled, starting from `s`. */
    function Prefilled(s: set<Elem>, n: nat): set<Elem>
      requires SizesAgree() && n <= |items|
    {
      if n == 0 then s else Prefilled(s, n - 1) + (if Matched(n - 1) then {Resolve(n - 1)} else {})
    }

    /** The store once the first `n` boxes are prefilled: untouched until some label matches. */
    function Seeded(m0: map<string, Value>, n: nat): map<string, Value>
      requires SizesAgree() && n <= |items| && SelectionTyped(m0, Name())
    {
      if AnyMatched(n) then m0[Name() := Selection(Prefilled(SelectionIn(m0, Name()), n))] else m0
    }

    /** How many of the first `n` states disagree with membership of their item's value in `s`. */
    function ChangedCount(checks: seq<bool>, s: set<Elem>, n: nat): nat
      requires SizesAgree() && n <= |checks| && n <= |items|
    {
      if n == 0 then 0
      else ChangedCount(checks, s, n - 1) + (if checks[n - 1] != (Resolve(n - 1) in s) then 1 else 0)
    }

    ghost predicate Valid()
      reads this, boxes
    {
      && SizesAgree()
      && isPrefiledValueSet == created
      && createCalls == (if created then 1 else 0)
      && |boxes| == (if created then |items| else 0)
      && forall i :: 0 <= i < |boxes| ==> boxes[i].id == checkboxId + i
    }

    /** Each box shows its item's trimmed label. */
    ghost predicate Labelled()
      reads this, boxes
    {
      |boxes| <= |items| && forall i :: 0 <= i < |boxes| ==> boxes[i].text == JavaText.Trim(items[i])
    }

    constructor (checkboxId: int, base: BaseLine.BaseLineController, model: Services.FormModel,
                 listener: Services.ValidationListener, items: seq<string>, submittedItems: seq<string>,
                 values: Option<seq<Elem>>)
      requires values.Some? ==> |values.value| == |items|
      ensures Valid() && !created
      ensures this.checkboxId == checkboxId && this.base == base && this.model == model && this.listener == listener
      ensures this.items == items && this.submittedItems == submittedItems && this.values == values
    {
      this.checkboxId := checkboxId;
      this.base := base;
      this.model := model;
      this.listener := listener;
      this.items := items;
      this.submittedItems := submittedItems;
      this.values := values;
      isPrefiledValueSet := false;
      boxes := [];
      created := false;
      createCalls := 0;
    }

    /**
     * The constructors: the box ids are reserved first (a field initialiser), then a
     * `values` list whose size differs from `items` is rejected.
     */
    static method Create(ids: Services.IdAllocator, base: BaseLine.BaseLineController, model: Services.FormModel,
                         listener: Services.ValidationListener, items: seq<string>, submittedItems: seq<string>,
                         values: Option<seq<Elem>>)
      returns (r: Result<CheckBoxController, ConstructionError>)
      requires ids.Valid()
      modifies ids
      ensures ids.Valid() && ids.next == old(ids.next) + 1
      ensures r.Failure? <==> values.Some? && |values.value| != |items|
      ensures r.Success? ==> fresh(r.value) && r.value.Valid() && !r.value.created
      ensures r.Success? ==> r.value.checkboxId == old(ids.next) && r.value.base == base && r.value.model == model
      ensures r.Success? ==> r.value.listener == listener && r.value.items == items
      ensures r.Success? ==> r.value.submittedItems == submittedItems && r.value.values == values
    {
      var id := ids.GenerateViewId();
      if values.Some? && |items| != |values.value| {
        return Failure(SizeMismatch);
      }
      var c := new CheckBoxController(id, base, model, listener, items, submittedItems, values);
      return Success(c);
    }

    /** The check-changed handler of the box whose id is `viewId`. */
    method OnCheckedChanged(viewId: int, isChecked: bool)
      requires SizesAgree() && checkboxId <= viewId < checkboxId + |items|
      requires SelectionTyped(model.values, Name())
      modifies model, listener
      ensures model.values == old(model.values)[Name() := Selection(Toggled(old(SelectionIn(model.values, Name())), Resolve(viewId - checkboxId), isChecked))]
      ensures listener.calls == old(listener.calls) + (if isPrefiledValueSet then 1 else 0)
    {
      var position := viewId - checkboxId;
      var value := Resolve(position);
      var modelValues := SelectionIn(model.values, Name());
      if isChecked {
        modelValues := modelValues + {value};
      } else {
        modelValues := modelValues - {value};
      }
      model.SetValue(Name(), Selection(modelValues));
      if isPrefiledValueSet {
        listener.OnValidateInput();
      }
    }

    /** `setChecked(b)` on one of the boxes: its listener runs only when the state changes. */
    method SetBoxChecked(box: Widgets.Widget, b: bool)
      requires SizesAgree() && checkboxId <= box.id < checkboxId + |items|
      requires SelectionTyped(model.values, Name())
      modifies box`checked, model, listener
      ensures box.checked == b
      ensures old(box.checked) == b ==> model.values == old(model.values) && listener.calls == old(listener.calls)
      ensures old(box.checked) != b ==>
                && model.values == old(model.values)[Name() := Selection(Toggled(old(SelectionIn(model.values, Name())), Resolve(box.id - checkboxId), b))]
                && listener.calls == old(listener.calls) + (if isPrefiledValueSet then 1 else 0)
    {
      if box.checked != b {
        box.SetChecked(b);
        OnCheckedChanged(box.id, b);
      }
    }

    /** The user taps a box of the built view: one store update and one notification. */
    method Tap(box: Widgets.Widget)
      requires Valid() && created && box in boxes && SelectionTyped(model.values, Name())
      modifies box`checked, model, listener
      ensures box.checked == !old(box.checked)
      ensures model.values == old(model.values)[Name() := Selection(Toggled(old(SelectionIn(model.values, Name())), Resolve(box.id - checkboxId), box.checked))]
      ensures listener.calls == old(listener.calls) + 1
    {
      SetBoxChecked(box, !box.checked);
    }

    /** `refresh(checkbox, index)`: the box shows whether item `index`'s value is in the stored set. */
    method RefreshBox(checkbox: Widgets.Widget, index: nat)
      requires SizesAgree() && index < |items| && checkbox.id == checkboxId + index
      requires SelectionTyped(model.values, Name())
      modifies checkbox`checked, model, listener
      ensures checkbox.checked == (Resolve(index) in old(SelectionIn(model.values, Name())))
      ensures old(checkbox.checked) == checkbox.checked ==>
                model.values == old(model.values) && listener.calls == old(listener.calls)
      ensures old(checkbox.checked) != checkbox.checked ==>
                && model.values == old(model.values)[Name() := Selection(old(SelectionIn(model.values, Name())))]
                && listener.calls == old(listener.calls) + (if isPrefiledValueSet then 1 else 0)
    {
      var modelValues := SelectionIn(model.values, Name());
      var value := Resolve(index);
      SetBoxChecked(checkbox, value in modelValues);
      assert Toggled(modelValues, value, value in modelValues) == modelValues;
    }

    /**
     * `refresh()`: every box shows whether its value is in the stored set. Each box that
     * changes runs its listener, which writes that same set back (an absent value becomes
     * the empty set) and sends one notification.
     */
    method Refresh()
      requires Valid() && created && SelectionTyped(model.values, Name())
      modifies boxes, model, listener
      ensures Valid()
      ensures forall i :: 0 <= i < |boxes| ==> boxes[i].text == old(boxes[i].text)
      ensures forall i :: 0 <= i < |boxes| ==> boxes[i].checked == (Resolve(i) in old(SelectionIn(model.values, Name())))
      ensures model.values ==
                if ChangedCount(old(CheckStates(boxes)), old(SelectionIn(model.values, Name())), |items|) == 0
                then old(model.values)
                else old(model.values)[Name() := Selection(old(SelectionIn(model.values, Name())))]
      ensures listener.calls == old(listener.calls) + ChangedCount(old(CheckStates(boxes)), old(SelectionIn(model.values, Name())), |items|)
    {
      ghost var m0 := model.values;
      ghost var s0 := SelectionIn(m0, Name());
      ghost var c0 := CheckStates(boxes);
      var index := 0;
      while index < |items|
        invariant 0 <= index <= |items|
        invariant Valid()
        invariant forall j :: 0 <= j < |boxes| ==>
                    && boxes[j].text == old(boxes[j].text)
                    && boxes[j].checked == if j < index then Resolve(j) in s0 else c0[j]
        invariant model.values == if ChangedCount(c0, s0, index) == 0 then m0 else m0[Name() := Selection(s0)]
        invariant SelectionTyped(model.values, Name()) && SelectionIn(model.values, Name()) == s0
        invariant listener.calls == old(listener.calls) + ChangedCount(c0, s0, index)
      {
        RefreshStep(index, m0, c0);
        index := index + 1;
      }
    }

    /** The loop of `refresh()` past box `index`: that box now shows the stored set, the others are as they were. */
    method RefreshStep(index: nat, ghost m0: map<string, Value>, ghost c0: seq<bool>)
      requires Valid() && created && index < |items| && |c0| == |items| && SelectionTyped(m0, Name())
      requires forall j :: 0 <= j < |boxes| ==>
                 boxes[j].checked == if j < index then Resolve(j) in SelectionIn(m0, Name()) else c0[j]
      requires model.values == if ChangedCount(c0, SelectionIn(m0, Name()), index) == 0 then m0 else m0[Name() := Selection(SelectionIn(m0, Name()))]
      requires SelectionTyped(model.values, Name()) && SelectionIn(model.values, Name()) == SelectionIn(m0, Name())
      modifies boxes[index], model, listener
      ensures forall j :: 0 <= j < |boxes| ==>
                && boxes[j].text == old(boxes[j].text)
                && boxes[j].checked == if j < index + 1 then Resolve(j) in SelectionIn(m0, Name()) else c0[j]
      ensures model.values == if ChangedCount(c0, SelectionIn(m0, Name()), index + 1) == 0 then m0 else m0[Name() := Selection(SelectionIn(m0, Name()))]
      ensures SelectionTyped(model.values, Name()) && SelectionIn(model.values, Name()) == SelectionIn(m0, Name())
      ensures listener.calls == old(listener.calls) + ChangedCount(c0, SelectionIn(m0, Name()), index + 1) - ChangedCount(c0, SelectionIn(m0, Name()), index)
    {
      var checkbox := boxes[index];
      forall j | 0 <= j < |items| && j != index
        ensures boxes[j] != checkbox
      {
        assert boxes[j].id != checkbox.id;
      }
      RefreshTurn(checkbox, index, m0, c0);
    }

    /** One turn of the loop of `refresh()`: the store and the count of notifications follow the changed boxes so far. */
    method RefreshTurn(w: Widgets.Widget, index: nat, ghost m0: map<string, Value>, ghost c0: seq<bool>)
      requires SizesAgree() && isPrefiledValueSet && index < |items| && |c0| == |items| && w.id == checkboxId + index
      requires SelectionTyped(m0, Name()) && w.checked == c0[index]
      requires model.values == if ChangedCount(c0, SelectionIn(m0, Name()), index) == 0 then m0 else m0[Name() := Selection(SelectionIn(m0, Name()))]
      requires SelectionTyped(model.values, Name()) && SelectionIn(model.values, Name()) == SelectionIn(m0, Name())
      modifies w`checked, model, listener
      ensures w.checked == (Resolve(index) in SelectionIn(m0, Name()))
      ensures model.values == if ChangedCount(c0, SelectionIn(m0, Name()), index + 1) == 0 then m0 else m0[Name() := Selection(SelectionIn(m0, Name()))]
      ensures SelectionTyped(model.values, Name()) && SelectionIn(model.values, Name()) == SelectionIn(m0, Name())
      ensures listener.calls == old(listener.calls) + ChangedCount(c0, SelectionIn(m0, Name()), index + 1) - ChangedCount(c0, SelectionIn(m0, Name()), index)
    {
      ghost var s0 := SelectionIn(m0, Name());
      ghost var before := model.values;
      ghost var changes := c0[index] != (Resolve(index) in s0);
      assert ChangedCount(c0, s0, index + 1) == ChangedCount(c0, s0, index) + (if changes then 1 else 0);
      RefreshBox(w, index);
      if changes {
        assert model.values == before[Name() := Selection(s0)];
        assert before[Name() := Selection(s0)] == m0[Name() := Selection(s0)];
      } else {
        assert model.values == before;
      }
    }

    /**
     * `createFieldView()`: builds box i with id `checkboxId + i` and the trimmed label,
     * checks it from the store, then checks it again for every submitted label that
     * matches, each match writing the current set back to the store. Only then is the
     * prefill flag set, so no notification is sent while building.
     */
    method CreateFieldView()
      requires Valid() && !created && SelectionTyped(model.values, Name())
      modifies this, model, listener
      ensures Valid() && created && Labelled()
      ensures forall j :: 0 <= j < |boxes| ==> fresh(boxes[j])
      ensures forall j :: 0 <= j < |boxes| ==>
                boxes[j].checked == (Resolve(j) in Prefilled(old(SelectionIn(model.values, Name())), j + 1))
      ensures model.values == Seeded(old(model.values), |items|)
      ensures listener.calls == old(listener.calls)
    {
      ghost var m0 := model.values;
      ghost var s0 := SelectionIn(m0, Name());
      boxes := [];
      var index := 0;
      while index < |items|
        invariant 0 <= index <= |items|
        invariant |boxes| == index && !created && !isPrefiledValueSet && createCalls == 0
        invariant forall j :: 0 <= j < index ==>
                    && fresh(boxes[j])
                    && boxes[j].id == checkboxId + j
                    && boxes[j].text == JavaText.Trim(items[j])
                    && boxes[j].checked == (Resolve(j) in Prefilled(s0, j + 1))
        invariant model.values == Seeded(m0, index)
        invariant listener.calls == old(listener.calls)
      {
        var box := BuildBox(index, m0);
        boxes := boxes + [box];
        index := index + 1;
      }
      isPrefiledValueSet := true;
      created := true;
      createCalls := createCalls + 1;
    }

    /** One turn of the outer loop of `createFieldView`: box `index` is built, refreshed and prefilled. */
    method BuildBox(index: nat, ghost m0: map<string, Value>) returns (box: Widgets.Widget)
      requires SizesAgree() && index < |items| && SelectionTyped(m0, Name()) && !isPrefiledValueSet
      requires model.values == Seeded(m0, index)
      modifies model, listener
      ensures fresh(box) && box.id == checkboxId + index && box.text == JavaText.Trim(items[index])
      ensures box.checked == (Resolve(index) in Prefilled(SelectionIn(m0, Name()), index + 1))
      ensures model.values == Seeded(m0, index + 1)
      ensures listener.calls == old(listener.calls)
    {
      box := new Widgets.Widget(checkboxId + index, 0);
      box.SetText(JavaText.Trim(items[index]));
      SeededSelection(m0, index);
      RefreshBox(box, index);
      if box.checked {
        SeededRewrite(m0, index);
      }
      PrefillBox(box, index, m0);
    }

    /** The inner prefill loop of `createFieldView` for box `index`. */
    method PrefillBox(checkBox: Widgets.Widget, index: nat, ghost m0: map<string, Value>)
      requires SizesAgree() && index < |items| && checkBox.id == checkboxId + index
      requires SelectionTyped(m0, Name()) && !isPrefiledValueSet
      requires model.values == Seeded(m0, index)
      requires checkBox.checked == (Resolve(index) in Prefilled(SelectionIn(m0, Name()), index))
      modifies checkBox`checked, model, listener
      ensures checkBox.checked == (Resolve(index) in Prefilled(SelectionIn(m0, Name()), index + 1))
      ensures model.values == Seeded(m0, index + 1)
      ensures listener.calls == old(listener.calls)
    {
      var i := 0;
      while i < |submittedItems|
        invariant 0 <= i <= |submittedItems|
        invariant checkBox.checked == (Resolve(index) in Prefilled(SelectionIn(m0, Name()), index) || MatchedWithin(index, i))
        invariant model.values == Partial(m0, index, i)
        invariant listener.calls == old(listener.calls)
      {
        PrefillLabel(checkBox, index, i, m0);
        i := i + 1;
      }
      PrefillEnd(m0, index);
    }

    /** The store while box `index` is prefilled, once `i` submitted labels are compared. */
    ghost function Partial(m0: map<string, Value>, index: nat, i: nat): map<string, Value>
      requires SizesAgree() && index < |items| && i <= |submittedItems| && SelectionTyped(m0, Name())
    {
      if MatchedWithin(index, i)
      then Seeded(m0, index)[Name() := Selection(Prefilled(SelectionIn(m0, Name()), index) + {Resolve(index)})]
      else Seeded(m0, index)
    }

    /** One turn of the inner prefill loop: submitted label `i` is compared with item `index`. */
    method PrefillLabel(checkBox: Widgets.Widget, index: nat, i: nat, ghost m0: map<string, Value>)
      requires SizesAgree() && index < |items| && i < |submittedItems| && checkBox.id == checkboxId + index
      requires SelectionTyped(m0, Name()) && !isPrefiledValueSet
      requires checkBox.checked == (Resolve(index) in Prefilled(SelectionIn(m0, Name()), index) || MatchedWithin(index, i))
      requires model.values == Partial(m0, index, i)
      modifies checkBox`checked, model, listener
      ensures checkBox.checked == (Resolve(index) in Prefilled(SelectionIn(m0, Name()), index) || MatchedWithin(index, i + 1))
      ensures model.values == Partial(m0, index, i + 1)
      ensures listener.calls == old(listener.calls)
    {
      ghost var p := Prefilled(SelectionIn(m0, Name()), index);
      var value := Resolve(index);
      SeededSelection(m0, index);
      if ItemMatches(submittedItems[i], items[index]) {
        if !MatchedWithin(index, i) && value in p {
          SeededRewrite(m0, index);
          assert p + {value} == p;
        }
        SetBoxChecked(checkBox, true);
        var modelValues := SelectionIn(model.values, Name());
        model.SetValue(Name(), Selection(modelValues));
      }
    }

    /** Once every label is compared for box `index`, the box and the store are those of the next box's start. */
    lemma PrefillEnd(m0: map<string, Value>, index: nat)
      requires SizesAgree() && index < |items| && SelectionTyped(m0, Name())
      ensures (Resolve(index) in Prefilled(SelectionIn(m0, Name()), index) || Matched(index)) ==
                (Resolve(index) in Prefilled(SelectionIn(m0, Name()), index + 1))
      ensures Partial(m0, index, |submittedItems|) == Seeded(m0, index + 1)
    {
      var s0 := SelectionIn(m0, Name());
      var p := Prefilled(s0, index);
      var value := Resolve(index);
      assert Prefilled(s0, index + 1) == p + (if Matched(index) then {value} else {});
      if Matched(index) {
        assert AnyMatched(index + 1);
        assert Seeded(m0, index)[Name() := Selection(p + {value})] == m0[Name() := Selection(p + {value})];
      } else {
        assert Prefilled(s0, index + 1) == p;
        assert AnyMatched(index + 1) == AnyMatched(index);
        assert Seeded(m0, index + 1) == Seeded(m0, index);
      }
    }

    /** `getFieldView()`: builds the view on the first call only and returns the same boxes ever after. */
    method GetFieldView() returns (view: seq<Widgets.Widget>)
      requires Valid() && SelectionTyped(model.values, Name())
      modifies this, model, listener
      ensures Valid() && created && createCalls == 1 && view == boxes
      ensures old(created) ==> view == old(boxes) && model.values == old(model.values) && listener.calls == old(listener.calls)
      ensures !old(created) ==> Labelled() && model.values == Seeded(old(model.values), |items|) && listener.calls == old(listener.calls)
      ensures !old(created) ==> forall j :: 0 <= j < |boxes| ==>
                fresh(boxes[j]) && boxes[j].checked == (Resolve(j) in Prefilled(old(SelectionIn(model.values, Name())), j + 1))
    {
      if !created {
        CreateFieldView();
      }
      view := boxes;
    }

    // -------------------------------------------------------------------------
    // Facts about prefill

    /** A value is in the prefilled set iff it was there already or is the value of a matched item. */
    lemma {:induction false} PrefilledMembers(s: set<Elem>, n: nat, x: Elem)
      requires SizesAgree() && n <= |items|
      ensures x in Prefilled(s, n) <==> x in s || exists k :: 0 <= k < n && Matched(k) && Resolve(k) == x
    {
      if n > 0 {
        PrefilledMembers(s, n - 1, x);
        if x in Prefilled(s, n) && x !in s && x !in Prefilled(s, n - 1) {
          assert Matched(n - 1) && Resolve(n - 1) == x;
        }
      }
    }

    /** `AnyMatched(n)` says that some item among the first `n` is matched. */
    lemma {:induction false} AnyMatchedMeans(n: nat)
      requires n <= |items|
      ensures AnyMatched(n) <==> exists k :: 0 <= k < n && Matched(k)
    {
      if n > 0 {
        AnyMatchedMeans(n - 1);
        if Matched(n - 1) {
          assert exists k :: 0 <= k < n && Matched(k);
        }
      }
    }

    /** With no match, prefill leaves the selection as it was. */
    lemma {:induction false} NoMatchKeepsSelection(s: set<Elem>, n: nat)
      requires SizesAgree() && n <= |items| && !AnyMatched(n)
      ensures Prefilled(s, n) == s
    {
      if n > 0 {
        NoMatchKeepsSelection(s, n - 1);
      }
    }

    /** The store after prefilling holds the prefilled set, or nothing when it held nothing and no label matched. */
    lemma SeededSelection(m0: map<string, Value>, n: nat)
      requires SizesAgree() && n <= |items| && SelectionTyped(m0, Name())
      ensures SelectionTyped(Seeded(m0, n), Name())
      ensures SelectionIn(Seeded(m0, n), Name()) == Prefilled(SelectionIn(m0, Name()), n)
    {
      if !AnyMatched(n) {
        NoMatchKeepsSelection(SelectionIn(m0, Name()), n);
      }
    }

    /** Writing a non-empty prefilled set back over the seeded store changes nothing. */
    lemma SeededRewrite(m0: map<string, Value>, n: nat)
      requires SizesAgree() && n <= |items| && SelectionTyped(m0, Name())
      requires Prefilled(SelectionIn(m0, Name()), n) != {}
      ensures Seeded(m0, n)[Name() := Selection(Prefilled(SelectionIn(m0, Name()), n))] == Seeded(m0, n)
    {
      SeededSelection(m0, n);
      RewriteIsIdentity(Seeded(m0, n), Name());
    }

    /**
     * When the items stand for distinct values, each box the view is built with is checked
     * iff its value is in the store's final selection.
     */
    lemma CreatedBoxesAgreeWithStore(s: set<Elem>, j: nat)
      requires SizesAgree() && j < |items|
      requires forall a, b :: 0 <= a < b < |items| ==> Resolve(a) != Resolve(b)
      ensures Resolve(j) in Prefilled(s, j + 1) <==> Resolve(j) in Prefilled(s, |items|)
    {
      PrefilledMembers(s, j + 1, Resolve(j));
      PrefilledMembers(s, |items|, Resolve(j));
      if Resolve(j) in Prefilled(s, |items|) && Resolve(j) !in s {
        var k :| 0 <= k < |items| && Matched(k) && Resolve(k) == Resolve(j);
        assert k == j;
      }
    }

    /** Without values, two items never stand for the same object. */
    lemma IndicesAreDistinct()
      requires values.None?
      ensures forall a, b :: 0 <= a < b < |items| ==> Resolve(a) != Resolve(b)
    {
    }
  }
}
