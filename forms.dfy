/**
 * The form that owns the controllers: a list of sections, each a list of elements, and a
 * lookup of an element by field name. The form controller's own code is not part of this
 * model; only the surface the error displays rely on is specified here.
 */
module Forms {
  import opened Wrappers

  /** A form element as an error display sees it: a field name and the error it shows (`null` = none). */
  class Element {
    const name: string
    var error: Option<string>

    constructor (name: string)
      ensures this.name == name && error == None
    {
      this.name := name;
      error := None;
    }

    /** `setError(message)`. */
    method SetError(message: Option<string>)
      modifies this`error
      ensures error == message
    {
      error := message;
    }
  }

  /** The elements of all sections, section by section, in order. */
  function Flatten(sections: seq<seq<Element>>): seq<Element> {
    if |sections| == 0 then [] else Flatten(sections[..|sections| - 1]) + sections[|sections| - 1]
  }

  /** An element is listed iff it is in some section. */
  lemma {:induction false} FlattenMembers(sections: seq<seq<Element>>, e: Element)
    ensures e in Flatten(sections) <==> exists t :: 0 <= t < |sections| && e in sections[t]
  {
    if |sections| > 0 {
      var init := sections[..|sections| - 1];
      FlattenMembers(init, e);
      assert forall t :: 0 <= t < |init| ==> init[t] == sections[t];
    }
  }

  /** The position of the first element named `name`, if any. */
  function FirstNamed(elements: seq<Element>, name: string): (r: Option<nat>)
    ensures r.Some? ==> r.value < |elements| && elements[r.value].name == name
    ensures r.Some? ==> forall k :: 0 <= k < r.value ==> elements[k].name != name
    ensures r.None? <==> forall k :: 0 <= k < |elements| ==> elements[k].name != name
  {
    if |elements| == 0 then None
    else if elements[0].name == name then Some(0)
    else match FirstNamed(elements[1..], name)
      case None => None
      case Some(k) => Some(k + 1)
  }

  /** The form controller: its sections never change once the form is built. */
  class FormController {
    const sections: seq<seq<Element>>

    constructor (sections: seq<seq<Element>>)
      ensures this.sections == sections
    {
      this.sections := sections;
    }

    /** `getSections()`, flattened. */
    function Elements(): seq<Element> {
      Flatten(sections)
    }

    /** Every element of every section, as a frame. */
    function ElementSet(): set<Element> {
      set e | e in Elements()
    }

    /** `getElement(name)`: the first element, over the sections in order, with that name; `null` when none has it. */
    function GetElement(name: string): (r: Option<Element>)
      ensures r.Some? ==> r.value in ElementSet() && r.value.name == name
      ensures r.None? <==> forall e :: e in Elements() ==> e.name != name
      ensures r.Some? ==> exists k :: 0 <= k < |Elements()| && Elements()[k] == r.value &&
                            forall j :: 0 <= j < k ==> Elements()[j].name != name
    {
      match FirstNamed(Elements(), name)
      case None => None
      case Some(k) => Some(Elements()[k])
    }
  }
}
