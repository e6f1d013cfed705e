/**
 * The two ways of showing validation errors. The per-field display writes each error's
 * message onto the element the error names; the pop-up display gathers all messages into
 * one body and shows it in a single alert.
 */
module ErrorDisplays {
  import opened Wrappers
  import Validations
  import Forms
  import Services

  /**
   * `getMessage(resources)` of each error kind: a resource string formatted with the field
   * label. The resource table is outside this model, so the text is a parameter.
   */
  type MessageText = (Validations.ErrorKind, string) -> string

  function Message(text: MessageText, e: Validations.ValidationError): string {
    text(e.kind, e.fieldLabel)
  }

  // -------------------------------------------------------------------------
  // Per field

  /**
   * The error element `e` shows after the errors are routed: the message of the LAST error
   * whose field name looks up to `e`, or none when no error does.
   */
  function LastRouted(form: Forms.FormController, text: MessageText,
                      errors: seq<Validations.ValidationError>, e: Forms.Element): Option<string>
  {
    if |errors| == 0 then None
    else if form.GetElement(errors[|errors| - 1].fieldName) == Some(e) then Some(Message(text, errors[|errors| - 1]))
    else LastRouted(form, text, errors[..|errors| - 1], e)
  }

  /** A routed message replaces the previous error; without one the previous error stays. */
  function Overlay(routed: Option<string>, previous: Option<string>): Option<string> {
    if routed.Some? then routed else previous
  }

  /** No error routes to `e` exactly when `e` ends up with no routed message. */
  lemma {:induction false} UnroutedIffNoMessage(form: Forms.FormController, text: MessageText,
                                                errors: seq<Validations.ValidationError>, e: Forms.Element)
    ensures LastRouted(form, text, errors, e).None? <==>
              forall i :: 0 <= i < |errors| ==> form.GetElement(errors[i].fieldName) != Some(e)
  {
    if |errors| > 0 {
      var init := errors[..|errors| - 1];
      UnroutedIffNoMessage(form, text, init, e);
      assert forall i :: 0 <= i < |init| ==> init[i] == errors[i];
    }
  }

  /** The later of two errors naming the same element wins: a routed error is only overridden by later ones. */
  lemma {:induction false} LaterErrorWins(form: Forms.FormController, text: MessageText,
                                          before: seq<Validations.ValidationError>, x: Validations.ValidationError,
                                          after: seq<Validations.ValidationError>, e: Forms.Element)
    requires form.GetElement(x.fieldName) == Some(e)
    requires forall i :: 0 <= i < |after| ==> form.GetElement(after[i].fieldName) != Some(e)
    ensures LastRouted(form, text, before + [x] + after, e) == Some(Message(text, x))
  {
    if |after| == 0 {
      assert before + [x] + after == before + [x];
      assert (before + [x])[..|before|] == before;
    } else {
      var all := before + [x] + after;
      var init := after[..|after| - 1];
      assert all[|all| - 1] == after[|after| - 1];
      assert all[..|all| - 1] == before + [x] + init;
      LaterErrorWins(form, text, before, x, init, e);
    }
  }

  /** A routed message is that of some error naming `e`. */
  lemma {:induction false} RoutedComesFromAnError(form: Forms.FormController, text: MessageText,
                                                  errors: seq<Validations.ValidationError>, e: Forms.Element)
    requires LastRouted(form, text, errors, e).Some?
    ensures exists i :: 0 <= i < |errors| && form.GetElement(errors[i].fieldName) == Some(e) &&
                        LastRouted(form, text, errors, e).value == Message(text, errors[i])
  {
    var last := |errors| - 1;
    if form.GetElement(errors[last].fieldName) != Some(e) {
      var init := errors[..last];
      RoutedComesFromAnError(form, text, init, e);
      var i :| 0 <= i < |init| && form.GetElement(init[i].fieldName) == Some(e) &&
               LastRouted(form, text, init, e).value == Message(text, init[i]);
      assert init[i] == errors[i];
    }
  }

  class PerFieldValidationErrorDisplay {
    const form: Forms.FormController
    const text: MessageText

    constructor (form: Forms.FormController, text: MessageText)
      ensures this.form == form && this.text == text
    {
      this.form := form;
      this.text := text;
    }

    /** `resetErrors()`: every element of every section is set to show no error. */
    method ResetErrors()
      modifies form.ElementSet()
      ensures forall e :: e in form.Elements() ==> e.error == None
    {
      var sections: seq<seq<Forms.Element>> := form.sections;
      var s := 0;
      while s < |sections|
        invariant 0 <= s <= |sections|
        invariant forall t, j :: 0 <= t < s && 0 <= j < |sections[t]| ==> sections[t][j].error == None
      {
        var j := 0;
        while j < |sections[s]|
          invariant 0 <= j <= |sections[s]|
          invariant forall t, k :: 0 <= t < s && 0 <= k < |sections[t]| ==> sections[t][k].error == None
          invariant forall k :: 0 <= k < j ==> sections[s][k].error == None
        {
          var element := sections[s][j];
          Forms.FlattenMembers(sections, element);
          element.SetError(None);
          j := j + 1;
        }
        s := s + 1;
      }
      forall e | e in form.Elements()
        ensures e.error == None
      {
        Forms.FlattenMembers(sections, e);
        var t :| 0 <= t < |sections| && e in sections[t];
        var k :| 0 <= k < |sections[t]| && sections[t][k] == e;
      }
    }

    /**
     * `showErrors(errors)`: each error in turn sets the message on the element its field
     * name looks up to. Every field name must look up to an element; the source dereferences
     * the lookup unchecked.
     */
    method ShowErrors(errors: seq<Validations.ValidationError>)
      requires forall i :: 0 <= i < |errors| ==> form.GetElement(errors[i].fieldName).Some?
      modifies form.ElementSet()
      ensures forall t, j :: 0 <= t < |form.sections| && 0 <= j < |form.sections[t]| ==>
                form.sections[t][j].error == Overlay(LastRouted(form, text, errors, form.sections[t][j]), old(form.sections[t][j].error))
    {
      var i := 0;
      while i < |errors|
        invariant 0 <= i <= |errors|
        invariant forall t, j :: 0 <= t < |form.sections| && 0 <= j < |form.sections[t]| ==>
                    form.sections[t][j].error == Overlay(LastRouted(form, text, errors[..i], form.sections[t][j]), old(form.sections[t][j].error))
      {
        var element := form.GetElement(errors[i].fieldName).value;
        element.SetError(Some(Message(text, errors[i])));
        assert errors[..i + 1][..i] == errors[..i];
        i := i + 1;
      }
      assert errors[..|errors|] == errors;
    }
  }

  // -------------------------------------------------------------------------
  // Pop-up

  /** The messages of the errors, in list order. */
  function Messages(text: MessageText, errors: seq<Validations.ValidationError>): (r: seq<string>)
    ensures |r| == |errors| && forall i :: 0 <= i < |errors| ==> r[i] == Message(text, errors[i])
  {
    seq(|errors|, i requires 0 <= i < |errors| => Message(text, errors[i]))
  }

  /** The alert body: each message followed by a newline. */
  function Body(messages: seq<string>): string {
    if |messages| == 0 then "" else Body(messages[..|messages| - 1]) + messages[|messages| - 1] + "\n"
  }

  /** The number of characters the body needs: one per message character and one newline per message. */
  function BodySize(messages: seq<string>): nat {
    if |messages| == 0 then 0 else |messages[0]| + 1 + BodySize(messages[1..])
  }

  /** The body of a concatenation is the concatenation of the bodies. */
  lemma {:induction false} BodyOfAppend(a: seq<string>, b: seq<string>)
    ensures Body(a + b) == Body(a) + Body(b)
  {
    if |b| > 0 {
      var init := b[..|b| - 1];
      BodyOfAppend(a, init);
      assert (a + b)[..|a + b| - 1] == a + init;
    } else {
      assert a + b == a;
    }
  }

  /** The body starts with the first message and its newline, then the rest's body. */
  lemma BodyOfCons(m: string, rest: seq<string>)
    ensures Body([m] + rest) == m + "\n" + Body(rest)
  {
    BodyOfAppend([m], rest);
    assert [m][..0] == [];
  }

  /** The body's length is the sum over messages of the message length plus one. */
  lemma {:induction false} BodyLength(messages: seq<string>)
    ensures |Body(messages)| == BodySize(messages)
  {
    if |messages| > 0 {
      assert messages == [messages[0]] + messages[1..];
      BodyOfCons(messages[0], messages[1..]);
      BodyLength(messages[1..]);
    }
  }

  /** A non-empty body ends in a newline, and has one newline per message when no message holds one. */
  lemma {:induction false} BodyNewlines(messages: seq<string>)
    requires forall i, c :: 0 <= i < |messages| && 0 <= c < |messages[i]| ==> messages[i][c] != '\n'
    ensures multiset(Body(messages))['\n'] == |messages|
    ensures |messages| > 0 ==> |Body(messages)| > 0 && Body(messages)[|Body(messages)| - 1] == '\n'
  {
    if |messages| > 0 {
      var init := messages[..|messages| - 1];
      var m := messages[|messages| - 1];
      BodyNewlines(init);
      assert forall c :: 0 <= c < |m| ==> m[c] != '\n';
      assert multiset(m)['\n'] == 0;
      assert Body(messages) == Body(init) + m + "\n";
      assert multiset(Body(init) + m + "\n") == multiset(Body(init)) + multiset(m) + multiset("\n");
    }
  }

  /** Two messages give "first\nsecond\n"; no messages give "". */
  lemma BodyExamples()
    ensures Body([]) == ""
    ensures Body(["Name is required", "Mobile is invalid"]) == "Name is required\nMobile is invalid\n"
  {
    assert ["Name is required", "Mobile is invalid"][..1] == ["Name is required"];
    assert ["Name is required"][..0] == [];
  }

  class PopUpValidationErrorDisplay {
    const title: string          // the validation error title string
    const text: MessageText
    const alerts: Services.AlertSink

    constructor (title: string, text: MessageText, alerts: Services.AlertSink)
      ensures this.title == title && this.text == text && this.alerts == alerts
    {
      this.title := title;
      this.text := text;
      this.alerts := alerts;
    }

    /** `resetErrors()`: nothing to undo, since the alert is dismissed by the user. */
    method ResetErrors()
      ensures unchanged(alerts)
    {
    }

    /** `showErrors(errors)`: one alert whose body holds every message followed by a newline, even for no errors. */
    method ShowErrors(errors: seq<Validations.ValidationError>)
      modifies alerts
      ensures alerts.shown == old(alerts.shown) + [(title, Body(Messages(text, errors)))]
    {
      ghost var messages := Messages(text, errors);
      var sb := "";
      var i := 0;
      while i < |errors|
        invariant 0 <= i <= |errors|
        invariant sb == Body(messages[..i])
      {
        assert messages[..i + 1][..i] == messages[..i];
        sb := sb + Message(text, errors[i]) + "\n";
        i := i + 1;
      }
      assert messages[..|errors|] == messages;
      alerts.ShowAlertMessage(title, sb);
    }
  }
}
