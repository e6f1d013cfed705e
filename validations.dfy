/**
 * The validation rules (`RequiredFieldValidator`, `RequiredMobileValidator`) and the
 * errors they report (`RequiredField`, `RequiredMobile`). A rule is a pure function from
 * a field's stored value, its name and its label to an optional error.
 */
module Validations {
  import opened Wrappers
  import opened Values
  import JavaText

  /** The validator classes. Every instance of one class equals every other, so the class is the identity. */
  datatype Rule = RequiredFieldRule | RequiredMobileRule

  /** The `ValidationError` subclasses. */
  datatype ErrorKind = RequiredField | RequiredMobile

  /** A validation error names its field and carries the label used in its message. */
  datatype ValidationError = ValidationError(kind: ErrorKind, fieldName: string, fieldLabel: string)

  /** The error kind a rule reports. */
  function KindOf(rule: Rule): ErrorKind {
    match rule
    case RequiredFieldRule => RequiredField
    case RequiredMobileRule => RequiredMobile
  }

  // ---------------------------------------------------------------------------
  // Equality by kind

  /** A validator object as Java sees it: its class and its identity. */
  datatype ValidatorObject = ValidatorObject(rule: Rule, identity: nat)

  /** `equals(o)`: `super.equals(o) || o != null && getClass() == o.getClass()`. */
  predicate ValidatorEquals(a: ValidatorObject, o: Option<ValidatorObject>) {
    o.Some? && (o.value == a || o.value.rule == a.rule)
  }

  /** `hashCode()`: every instance answers 0. */
  function ValidatorHashCode(a: ValidatorObject): int {
    0
  }

  /** `HashSet.add`: keeps the set unchanged when an equal member is already present. */
  function HashSetAdd(s: seq<ValidatorObject>, x: ValidatorObject): seq<ValidatorObject> {
    if exists i :: 0 <= i < |s| && ValidatorEquals(s[i], Some(x)) then s else s + [x]
  }

  /** Adds the objects in order, starting from the empty set. */
  function HashSetAddAll(xs: seq<ValidatorObject>): seq<ValidatorObject> {
    if xs == [] then [] else HashSetAdd(HashSetAddAll(xs[..|xs| - 1]), xs[|xs| - 1])
  }

  lemma EqualityIsByKind(a: ValidatorObject, b: ValidatorObject)
    ensures ValidatorEquals(a, Some(b)) <==> a.rule == b.rule
    ensures !ValidatorEquals(a, None)
    ensures ValidatorEquals(a, Some(b)) ==> ValidatorHashCode(a) == ValidatorHashCode(b)
  {
  }

  /** Some object in `s` is of class `r`. */
  predicate HasKind(s: seq<ValidatorObject>, r: Rule) {
    exists i :: 0 <= i < |s| && s[i].rule == r
  }

  /** One `add`: the classes present grow by the added object's class, and stay pairwise distinct. */
  lemma HashSetAddKeepsKindsDistinct(s: seq<ValidatorObject>, x: ValidatorObject)
    requires forall i, j :: 0 <= i < j < |s| ==> s[i].rule != s[j].rule
    ensures var t := HashSetAdd(s, x);
      && (forall i, j :: 0 <= i < j < |t| ==> t[i].rule != t[j].rule)
      && (forall r :: HasKind(t, r) <==> HasKind(s, r) || x.rule == r)
  {
    var t := HashSetAdd(s, x);
    if exists i :: 0 <= i < |s| && ValidatorEquals(s[i], Some(x)) {
      var i :| 0 <= i < |s| && ValidatorEquals(s[i], Some(x));
      assert s[i].rule == x.rule;
    } else {
      assert t == s + [x];
      forall r ensures HasKind(t, r) <==> HasKind(s, r) || x.rule == r {
        if HasKind(s, r) {
          var i :| 0 <= i < |s| && s[i].rule == r;
          assert t[i].rule == r;
        }
        if x.rule == r {
          assert t[|s|].rule == r;
        }
      }
    }
  }

  /**
   * However many validator objects are added, a hash set holds at most one per class,
   * and it holds exactly the classes added: it behaves as a `set<Rule>`.
   */
  lemma {:induction false} HashSetHoldsOnePerKind(xs: seq<ValidatorObject>)
    ensures forall i, j :: 0 <= i < j < |HashSetAddAll(xs)| ==> HashSetAddAll(xs)[i].rule != HashSetAddAll(xs)[j].rule
    ensures forall r :: HasKind(HashSetAddAll(xs), r) <==> HasKind(xs, r)
  {
    if xs != [] {
      var init := xs[..|xs| - 1];
      var x := xs[|xs| - 1];
      HashSetHoldsOnePerKind(init);
      HashSetAddKeepsKindsDistinct(HashSetAddAll(init), x);
      forall r ensures HasKind(xs, r) <==> HasKind(init, r) || x.rule == r {
        if HasKind(init, r) {
          var k :| 0 <= k < |init| && init[k].rule == r;
          assert xs[k].rule == r;
        }
        if HasKind(xs, r) {
          var k :| 0 <= k < |xs| && xs[k].rule == r;
          if k < |init| {
            assert init[k].rule == r;
          }
        }
      }
    }
  }

  // ---------------------------------------------------------------------------
  // RequiredFieldValidator

  /** An `ImageDataModel` whose drawable is null or equal, ignoring case, to "". */
  predicate MissingImage(e: Entry) {
    e.Image? && (e.record.drawable.None? || JavaText.EqualsIgnoreCase(e.record.drawable.value, ""))
  }

  /** The position of the first record, in list order, that lacks an image; other objects are skipped. */
  function FirstMissingImage(entries: seq<Entry>): (r: Option<nat>)
    ensures r.Some? ==> r.value < |entries| && MissingImage(entries[r.value])
    ensures r.Some? ==> forall j :: 0 <= j < r.value ==> !MissingImage(entries[j])
    ensures r.None? ==> forall j :: 0 <= j < |entries| ==> !MissingImage(entries[j])
  {
    if entries == [] then None
    else if MissingImage(entries[0]) then Some(0)
    else match FirstMissingImage(entries[1..])
      case Some(k) => Some(k + 1)
      case None => None
  }

  /** `RequiredFieldValidator.validate(value, fieldName, fieldLabel)`. */
  function ValidateRequiredField(value: Option<Value>, fieldName: string, fieldLabel: string): (r: Option<ValidationError>)
    // null is missing input
    ensures value.None? ==> r == Some(ValidationError(RequiredField, fieldName, fieldLabel))
    // a string fails exactly when it is empty
    ensures value.Some? && value.value.Text? ==>
              r == if value.value.s == "" then Some(ValidationError(RequiredField, fieldName, fieldLabel)) else None
    // a list fails on its first record without an image, reporting that record's caption
    ensures value.Some? && value.value.List? ==>
              forall i :: 0 <= i < |value.value.entries| && MissingImage(value.value.entries[i])
                          && (forall j :: 0 <= j < i ==> !MissingImage(value.value.entries[j]))
                          ==> r == Some(ValidationError(RequiredField, fieldName, value.value.entries[i].record.text))
    ensures value.Some? && value.value.List? ==>
              (r.None? <==> forall i :: 0 <= i < |value.value.entries| ==> !MissingImage(value.value.entries[i]))
    // any other object passes
    ensures value.Some? && !value.value.Text? && !value.value.List? ==> r.None?
  {
    var missing := if value.Some? && value.value.List? then FirstMissingImage(value.value.entries) else None;
    if missing.Some? then
      Some(ValidationError(RequiredField, fieldName, value.value.entries[missing.value].record.text))
    else if value.None? || (value.value.Text? && value.value.s == "") then
      Some(ValidationError(RequiredField, fieldName, fieldLabel))
    else
      None
  }

  // ---------------------------------------------------------------------------
  // RequiredMobileValidator

  /** `mobile.matches("^[56789]\\d{9}$")`: the whole string is one of 5-9 followed by nine digits. */
  predicate IsNumberStartsWithValidDigits(mobile: string) {
    |mobile| == 10 && mobile[0] in "56789" && forall i :: 1 <= i < 10 ==> JavaText.IsAsciiDigit(mobile[i])
  }

  /** `isValidPhoneNumber`: exactly ten ASCII digits, the first at least 5. */
  function IsValidPhoneNumber(phone: string): (r: bool)
    ensures r <==> |phone| == 10 && '5' <= phone[0] && forall i :: 0 <= i < |phone| ==> JavaText.IsAsciiDigit(phone[i])
  {
    if |phone| < 10 then false
    else
      var isEmpty := phone == "";
      var isValidPhoneNumber := IsNumberStartsWithValidDigits(phone);
      if isEmpty then false else isValidPhoneNumber
  }

  /** `RequiredMobileValidator.validate(value, fieldName, fieldLabel)`. */
  function ValidateRequiredMobile(value: Option<Value>, fieldName: string, fieldLabel: string): (r: Option<ValidationError>)
    ensures value.None? ==> r == Some(ValidationError(RequiredMobile, fieldName, fieldLabel))
    ensures value.Some? && value.value.Text? ==>
              r == if IsValidPhoneNumber(value.value.s) then None else Some(ValidationError(RequiredMobile, fieldName, fieldLabel))
    ensures value.Some? && !value.value.Text? ==> r.None?
  {
    if value.None? || (value.value.Text? && !IsValidPhoneNumber(value.value.s)) then
      Some(ValidationError(RequiredMobile, fieldName, fieldLabel))
    else
      None
  }

  /** `InputValidator.validate`, dispatched on the rule. */
  function Validate(rule: Rule, value: Option<Value>, fieldName: string, fieldLabel: string): (r: Option<ValidationError>)
    ensures r.Some? ==> r.value.kind == KindOf(rule) && r.value.fieldName == fieldName
  {
    match rule
    case RequiredFieldRule => ValidateRequiredField(value, fieldName, fieldLabel)
    case RequiredMobileRule => ValidateRequiredMobile(value, fieldName, fieldLabel)
  }

  // ---------------------------------------------------------------------------
  // Facts about the rules

  lemma RequiredFieldExamples()
    ensures ValidateRequiredField(None, "x", "X") == Some(ValidationError(RequiredField, "x", "X"))
    ensures ValidateRequiredField(Some(Text("abc")), "x", "X") == None
    ensures ValidateRequiredField(Some(List([Image(ImageRecord("Front", Some(""), None))])), "x", "X")
            == Some(ValidationError(RequiredField, "x", "Front"))
    ensures ValidateRequiredField(Some(List([Image(ImageRecord("Front", Some("a.png"), None))])), "x", "X") == None
    ensures ValidateRequiredField(Some(List([])), "x", "X") == None
    ensures ValidateRequiredField(Some(Number(7)), "x", "X") == None
  {
    assert !MissingImage(Image(ImageRecord("Front", Some("a.png"), None)));
  }

  /** Only the first offending record is reported, even when a later one lacks an image too. */
  lemma RequiredFieldReportsFirstRecordOnly(a: ImageRecord, b: ImageRecord, fieldName: string, fieldLabel: string)
    requires a.drawable.None? && b.drawable.None?
    ensures ValidateRequiredField(Some(List([Image(a), OtherObject, Image(b)])), fieldName, fieldLabel)
            == Some(ValidationError(RequiredField, fieldName, a.text))
  {
  }

  lemma MobileExamples()
    ensures IsValidPhoneNumber("9876543210")
    ensures !IsValidPhoneNumber("1876543210")
    ensures !IsValidPhoneNumber("98765")
    ensures !IsValidPhoneNumber("98765432101")
    ensures !IsValidPhoneNumber("987654321a")
    // the character class admits a leading 5, which the documentation comment does not list
    ensures IsValidPhoneNumber("5876543210")
    ensures ValidateRequiredMobile(Some(Number(9876543210)), "m", "M") == None
    ensures ValidateRequiredMobile(None, "m", "M") == Some(ValidationError(RequiredMobile, "m", "M"))
  {
    assert !JavaText.IsAsciiDigit("987654321a"[9]);
  }

  /** A rule reports an error of its own kind, so different rules never report the same error. */
  lemma DifferentRulesReportDifferentErrors(r1: Rule, r2: Rule, value: Option<Value>, fieldName: string, fieldLabel: string)
    requires r1 != r2
    requires Validate(r1, value, fieldName, fieldLabel).Some? && Validate(r2, value, fieldName, fieldLabel).Some?
    ensures Validate(r1, value, fieldName, fieldLabel).value != Validate(r2, value, fieldName, fieldLabel).value
  {
  }
}
