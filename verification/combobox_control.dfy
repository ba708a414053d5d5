/**
 * The searchable select of the form controls: the trigger shows the
 * selected option's label or a placeholder, each option carries a check
 * mark when it is the current value, and choosing an option hands its value
 * to `onChange` and closes the popover. The values handed to `onChange`
 * are recorded in order; the parent decides what the next `value` is.
 */
module ComboboxControl {
  import opened Wrappers
  import opened JsValues
  import opened ChoiceOptions

  /** The built-in placeholder text, character for character as the component writes it. */
  const DefaultPlaceholder := "Ausw√§hlen..."

  /** `(typeof opt === "string" ? opt : opt.value) === value`: only a string value can equal an option's value. */
  predicate Matches(opt: ChoiceOption, value: JsValue) {
    value == Str(ValueOf(opt))
  }

  /** The position `options.find` stops at, from `from` on. */
  function FindFrom(options: seq<ChoiceOption>, value: JsValue, from: nat): (r: Option<nat>)
    requires from <= |options|
    ensures r.Some? ==> from <= r.value < |options| && Matches(options[r.value], value)
    ensures r.Some? ==> forall j :: from <= j < r.value ==> !Matches(options[j], value)
    ensures r.None? ==> forall j :: from <= j < |options| ==> !Matches(options[j], value)
    decreases |options| - from
  {
    if from == |options| then None
    else if Matches(options[from], value) then Some(from)
    else FindFrom(options, value, from + 1)
  }

  /** The first option whose value equals `value`. */
  function FindOption(options: seq<ChoiceOption>, value: JsValue): Option<nat> {
    FindFrom(options, value, 0)
  }

  /**
   * The trigger's text: for a truthy value the label of the first matching
   * option, or nothing (`undefined`) when none matches; for a falsy value
   * the placeholder, or the built-in text when the placeholder is missing
   * or empty.
   */
  function TriggerText(value: JsValue, options: seq<ChoiceOption>, placeholder: Option<string>): Option<string> {
    if Truthy(value) then
      match FindOption(options, value)
      case Some(i) => Some(LabelOf(options[i]))
      case None => None
    else if placeholder.Some? && placeholder.value != "" then Some(placeholder.value)
    else Some(DefaultPlaceholder)
  }

  /** What the trigger shows, case by case. */
  lemma TriggerTextCases(value: JsValue, options: seq<ChoiceOption>, placeholder: Option<string>)
    ensures !Truthy(value) ==> TriggerText(value, options, placeholder) == Some(if placeholder.Some? && placeholder.value != "" then placeholder.value else DefaultPlaceholder)
    ensures Truthy(value) && TriggerText(value, options, placeholder).Some? ==>
      exists i :: 0 <= i < |options| && Matches(options[i], value)
        && TriggerText(value, options, placeholder).value == LabelOf(options[i])
        && forall j :: 0 <= j < i ==> !Matches(options[j], value)
    ensures Truthy(value) ==> (TriggerText(value, options, placeholder).None? <==> forall j :: 0 <= j < |options| ==> !Matches(options[j], value))
  {
    if Truthy(value) && FindOption(options, value).Some? {
      var i := FindOption(options, value).value;
      assert Matches(options[i], value);
    }
  }

  /** `value === val`: the check mark of an option is visible exactly when the current value is that option's value. */
  predicate CheckVisible(value: JsValue, opt: ChoiceOption) {
    Matches(opt, value)
  }

  /** Option values that differ pairwise. */
  predicate DistinctValues(options: seq<ChoiceOption>) {
    forall i, j :: 0 <= i < j < |options| ==> ValueOf(options[i]) != ValueOf(options[j])
  }

  /**
   * Once the parent adopts the chosen value, the chosen option carries the
   * check mark and, among distinct values, no other option does; the
   * trigger shows the chosen option's label, unless the value is the empty
   * string, which is falsy and brings the placeholder back.
   */
  lemma ChosenValueShown(options: seq<ChoiceOption>, i: nat, placeholder: Option<string>)
    requires i < |options| && DistinctValues(options)
    ensures var value := Str(ValueOf(options[i]));
      CheckVisible(value, options[i])
      && (forall j :: 0 <= j < |options| && j != i ==> !CheckVisible(value, options[j]))
      && (ValueOf(options[i]) != "" ==> TriggerText(value, options, placeholder) == Some(LabelOf(options[i])))
      && (ValueOf(options[i]) == "" ==> TriggerText(value, options, placeholder) == TriggerText(Undefined, options, placeholder))
  {
    var value := Str(ValueOf(options[i]));
    if ValueOf(options[i]) != "" {
      var r := FindOption(options, value);
      assert r.Some?;
      assert r.value == i;
    }
  }

  class Combobox {
    const options: seq<ChoiceOption>
    /** Whether the popover is open. */
    var open: bool
    /** The values handed to `onChange`, oldest first. */
    var changes: seq<string>

    constructor (options: seq<ChoiceOption>)
      ensures this.options == options && !open && changes == []
    {
      this.options := options;
      open := false;
      changes := [];
    }

    /** `onOpenChange`: the popover opens and closes on the trigger. */
    method SetOpen(isOpen: bool)
      modifies this
      ensures open == isOpen && changes == old(changes)
    {
      open := isOpen;
    }

    /** `onSelect` of the i-th item: `onChange(val)`, then the popover closes. */
    method Select(i: nat)
      requires i < |options|
      modifies this
      ensures changes == old(changes) + [ValueOf(options[i])]
      ensures !open
    {
      changes := changes + [ValueOf(options[i])];
      open := false;
    }
  }
}
