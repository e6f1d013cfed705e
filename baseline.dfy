/**
 * `BaseLineController`: the labelled-field base every concrete controller builds on. It
 * owns the field's name and fieldLabel and a set of validation rules, which the required
 * and mobile toggles add to and remove from; `validateInput` runs every rule in the set.
 */
module BaseLine {
  import opened Wrappers
  import opened Values
  import opened Validations
  import Services

  /** The rule set that `setIsRequired(isRequired); setIsMobile(isMobile)` builds from an empty set. */
  function RulesFor(isRequired: bool, isMobile: bool): (r: set<Rule>)
    ensures RequiredFieldRule in r <==> isRequired
    ensures RequiredMobileRule in r <==> isMobile
  {
    (if isRequired then {RequiredFieldRule} else {}) + (if isMobile then {RequiredMobileRule} else {})
  }

  /** The one-or-zero errors of a single rule. */
  function Bag(e: Option<ValidationError>): multiset<ValidationError> {
    if e.Some? then multiset{e.value} else multiset{}
  }

  /**
   * The errors one validation pass reports, counted with multiplicity, when `outcome`
   * says what each rule reports: a hash set gives no iteration order, so only the
   * multiset of the collected list is determined.
   */
  function FailuresOf(rules: set<Rule>, outcome: Rule -> Option<ValidationError>): multiset<ValidationError> {
    (if RequiredFieldRule in rules then Bag(outcome(RequiredFieldRule)) else multiset{})
    + (if RequiredMobileRule in rules then Bag(outcome(RequiredMobileRule)) else multiset{})
  }

  /** The errors of one validation pass over `value`. */
  function Failures(rules: set<Rule>, value: Option<Value>, name: string, fieldLabel: string): multiset<ValidationError> {
    FailuresOf(rules, rule => Validate(rule, value, name, fieldLabel))
  }

  /**
   * When each rule's error carries that rule's kind, a pass reports exactly the errors of
   * the failing rules in the set, each once.
   */
  lemma FailuresOfAreTheFailingRules(rules: set<Rule>, outcome: Rule -> Option<ValidationError>)
    requires forall rule :: outcome(rule).Some? ==> outcome(rule).value.kind == KindOf(rule)
    ensures forall rule :: rule in rules && outcome(rule).Some? ==> outcome(rule).value in FailuresOf(rules, outcome)
    ensures forall e :: e in FailuresOf(rules, outcome) ==> exists rule :: rule in rules && outcome(rule) == Some(e)
    ensures forall e :: FailuresOf(rules, outcome)[e] <= 1
  {
    FailuresOfCoverTheFailingRules(rules, outcome);
    FailuresOfComeFromRules(rules, outcome);
    FailuresOfAreDistinct(rules, outcome);
  }

  /** Every failing rule of the set contributes its error. */
  lemma FailuresOfCoverTheFailingRules(rules: set<Rule>, outcome: Rule -> Option<ValidationError>)
    ensures forall rule :: rule in rules && outcome(rule).Some? ==> outcome(rule).value in FailuresOf(rules, outcome)
  {
    forall rule | rule in rules && outcome(rule).Some?
      ensures outcome(rule).value in FailuresOf(rules, outcome)
    {
      var fa := if RequiredFieldRule in rules then Bag(outcome(RequiredFieldRule)) else multiset{};
      var fb := if RequiredMobileRule in rules then Bag(outcome(RequiredMobileRule)) else multiset{};
      assert FailuresOf(rules, outcome) == fa + fb;
      if rule == RequiredFieldRule {
        assert outcome(rule).value in fa;
      } else {
        assert outcome(rule).value in fb;
      }
    }
  }

  /** Every collected error is the report of some rule of the set. */
  lemma FailuresOfComeFromRules(rules: set<Rule>, outcome: Rule -> Option<ValidationError>)
    ensures forall e :: e in FailuresOf(rules, outcome) ==> exists rule :: rule in rules && outcome(rule) == Some(e)
  {
    var fa := if RequiredFieldRule in rules then Bag(outcome(RequiredFieldRule)) else multiset{};
    var fb := if RequiredMobileRule in rules then Bag(outcome(RequiredMobileRule)) else multiset{};
    forall e | e in fa + fb
      ensures exists rule :: rule in rules && outcome(rule) == Some(e)
    {
      if e in fa {
        assert outcome(RequiredFieldRule) == Some(e);
      } else {
        assert outcome(RequiredMobileRule) == Some(e);
      }
    }
  }

  /** Errors of different rules have different kinds, so none is collected twice. */
  lemma FailuresOfAreDistinct(rules: set<Rule>, outcome: Rule -> Option<ValidationError>)
    requires forall rule :: outcome(rule).Some? ==> outcome(rule).value.kind == KindOf(rule)
    ensures forall e :: FailuresOf(rules, outcome)[e] <= 1
  {
    var fa := if RequiredFieldRule in rules then Bag(outcome(RequiredFieldRule)) else multiset{};
    var fb := if RequiredMobileRule in rules then Bag(outcome(RequiredMobileRule)) else multiset{};
    forall e
      ensures (fa + fb)[e] <= 1
    {
      assert fa[e] == 0 || fb[e] == 0 by {
        assert e in fa ==> e.kind == RequiredField;
      }
    }
  }

  /** A pass over a field's value reports, under the field's name, one error per failing rule of the set. */
  lemma FailuresAreTheFailingRules(rules: set<Rule>, value: Option<Value>, name: string, fieldLabel: string)
    ensures forall e :: e in Failures(rules, value, name, fieldLabel) ==> e.fieldName == name
    ensures forall rule :: rule in rules && Validate(rule, value, name, fieldLabel).Some? ==>
              Validate(rule, value, name, fieldLabel).value in Failures(rules, value, name, fieldLabel)
    ensures forall e :: e in Failures(rules, value, name, fieldLabel) ==>
              exists rule :: rule in rules && Validate(rule, value, name, fieldLabel) == Some(e)
    ensures forall e :: Failures(rules, value, name, fieldLabel)[e] <= 1
  {
    var outcome := rule => Validate(rule, value, name, fieldLabel);
    FailuresOfAreTheFailingRules(rules, outcome);
  }

  /** Adding one rule not yet run adds exactly that rule's error, if any. */
  lemma FailuresAddRule(done: set<Rule>, rule: Rule, value: Option<Value>, name: string, fieldLabel: string)
    requires rule !in done
    ensures Failures(done + {rule}, value, name, fieldLabel) == Failures(done, value, name, fieldLabel) + Bag(Validate(rule, value, name, fieldLabel))
  {
  }

  class BaseLineController {
    const name: string
    const labelText: Option<string>
    var validators: set<Rule>

    /** `BaseLineController(ctx, name, labelText, validators)`. */
    constructor WithValidators(name: string, labelText: Option<string>, validators: set<Rule>)
      ensures this.name == name && this.labelText == labelText && this.validators == validators
    {
      this.name := name;
      this.labelText := labelText;
      this.validators := validators;
    }

    /** `BaseLineController(ctx, name, labelText, isRequired, isMobile)`: an empty set, then the two toggles. */
    constructor (name: string, labelText: Option<string>, isRequired: bool, isMobile: bool)
      ensures this.name == name && this.labelText == labelText
      ensures validators == RulesFor(isRequired, isMobile)
    {
      this.name := name;
      this.labelText := labelText;
      validators := {};
      new;
      SetIsRequired(isRequired);
      SetIsMobile(isMobile);
    }

    /** `getLabel()`: the fieldLabel, or the field name when there is none. */
    function GetLabel(): (r: string)
      ensures labelText.None? ==> r == name
      ensures labelText.Some? ==> r == labelText.value
    {
      if labelText.None? then name else labelText.value
    }

    /**
     * `isRequired()`: `contains` with a fresh required-field validator, which, since validators
     * are equal by class, asks whether some rule of the set reports required-field errors.
     */
    function IsRequired(): (r: bool)
      reads this
      ensures r <==> exists rule :: rule in validators && KindOf(rule) == RequiredField
    {
      RequiredFieldRule in validators
    }

    /** `isMobileRequired()`: whether some rule of the set reports mobile-number errors. */
    function IsMobileRequired(): (r: bool)
      reads this
      ensures r <==> exists rule :: rule in validators && KindOf(rule) == RequiredMobile
    {
      RequiredMobileRule in validators
    }

    /** `setIsRequired(required)`: adds or removes the single required rule; no other rule changes. */
    method SetIsRequired(required: bool)
      modifies this`validators
      ensures validators == if required then old(validators) + {RequiredFieldRule} else old(validators) - {RequiredFieldRule}
      ensures IsRequired() == required
      ensures IsMobileRequired() == old(IsMobileRequired())
    {
      if !required {
        validators := validators - {RequiredFieldRule};
      } else if !IsRequired() {
        validators := validators + {RequiredFieldRule};
      }
    }

    /** `setIsMobile(isMobile)`: adds or removes the single mobile rule; no other rule changes. */
    method SetIsMobile(isMobile: bool)
      modifies this`validators
      ensures validators == if isMobile then old(validators) + {RequiredMobileRule} else old(validators) - {RequiredMobileRule}
      ensures IsMobileRequired() == isMobile
      ensures IsRequired() == old(IsRequired())
    {
      if !isMobile {
        validators := validators - {RequiredMobileRule};
      } else if !IsMobileRequired() {
        validators := validators + {RequiredMobileRule};
      }
    }

    /**
     * `validateInput()`: runs every rule of the set, in the set's order, on the value stored
     * under the field's name, and collects every error into a new list.
     */
    method ValidateInput(model: Services.FormModel) returns (errors: seq<ValidationError>)
      ensures multiset(errors) == Failures(validators, model.GetValue(name), name, GetLabel())
    {
      errors := [];
      var value := model.GetValue(name);
      var remaining := validators;
      while remaining != {}
        invariant remaining <= validators
        invariant multiset(errors) == Failures(validators - remaining, value, name, GetLabel())
        decreases remaining
      {
        var validator :| validator in remaining;
        var error := Validate(validator, value, name, GetLabel());
        FailuresAddRule(validators - remaining, validator, value, name, GetLabel());
        assert validators - (remaining - {validator}) == (validators - remaining) + {validator};
        if error.Some? {
          errors := errors + [error.value];
        }
        remaining := remaining - {validator};
      }
    }

    /** Two `setIsRequired(true)` calls leave the rules as one does: the required rule added once, the rest as they were. */
    method SetIsRequiredTwice()
      modifies this`validators
      ensures validators == old(validators) + {RequiredFieldRule}
      ensures IsRequired() && IsMobileRequired() == old(IsMobileRequired())
    {
      SetIsRequired(true);
      ghost var once := validators;
      SetIsRequired(true);
      assert validators == once;
    }

    /** `setError(message)`: this base shows no error indicator; the call changes nothing. */
    method SetError(message: Option<string>)
      ensures unchanged(this)
    {
    }
  }
}
