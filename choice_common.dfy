/**
 * What the check-box and radio-button groups share: the selection set they keep in the
 * value store, and the construction failure both throw.
 */
module Choice {
  import opened Values
  import Widgets

  /** `IllegalArgumentException("Size of Values and Items must be equal.")`. */
  datatype ConstructionError = SizeMismatch

  /** The `values` list the `useItemsAsValues` constructors pass on: the item labels themselves. */
  function ItemsAsValues(items: seq<string>): (r: seq<Elem>)
    ensures |r| == |items|
    ensures forall i :: 0 <= i < |items| ==> r[i] == Str(items[i])
  {
    if items == [] then [] else ItemsAsValues(items[..|items| - 1]) + [Str(items[|items| - 1])]
  }

  /** The value store holds a `Set` under `name`, or nothing (the source casts without a check). */
  predicate SelectionTyped(m: map<string, Value>, name: string) {
    name in m ==> m[name].Selection?
  }

  /** `retrieveModelValues()`: the stored set, or the empty set when nothing is stored. */
  function SelectionIn(m: map<string, Value>, name: string): (r: set<Elem>)
    requires SelectionTyped(m, name)
    ensures name !in m ==> r == {}
    ensures name in m ==> m[name] == Selection(r)
  {
    if name in m then m[name].elems else {}
  }

  /** The selection after one item turns on or off: only the toggled value changes membership. */
  function Toggled(s: set<Elem>, v: Elem, on: bool): (r: set<Elem>)
    ensures v in r <==> on
    ensures forall x :: x != v ==> (x in r <==> x in s)
  {
    if on then s + {v} else s - {v}
  }

  /** Writing back the set just read from the store leaves the store as it was. */
  lemma RewriteIsIdentity(m: map<string, Value>, name: string)
    requires SelectionTyped(m, name) && name in m
    ensures m[name := Selection(SelectionIn(m, name))] == m
  {
  }

  /** The checked states of a row of boxes or buttons, in order. */
  function CheckStates(bs: seq<Widgets.Widget>): (r: seq<bool>)
    reads set b | b in bs
    ensures |r| == |bs| && forall i :: 0 <= i < |bs| ==> r[i] == bs[i].checked
  {
    if bs == [] then [] else CheckStates(bs[..|bs| - 1]) + [bs[|bs| - 1].checked]
  }
}
