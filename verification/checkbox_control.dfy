/**
 * The checkbox control of the invoice form. Without options it is one
 * checkbox bound to a boolean; with options it is one checkbox per option,
 * bound to the list of the checked options' values.
 */
module CheckboxControl {
  import opened Wrappers
  import opened ChoiceOptions
  import opened Sorting

  /** How the control renders: `!options` selects the single checkbox, and an empty option list is still a list. */
  datatype Layout = SingleBox | OptionBoxes(values: seq<string>)

  function LayoutOf(options: Option<seq<ChoiceOption>>): (r: Layout)
    ensures r.SingleBox? <==> options.None?
    ensures r.OptionBoxes? ==> r.values == Values(options.value)
  {
    match options
    case None => SingleBox
    case Some(opts) => OptionBoxes(Values(opts))
  }

  /** `value?.includes(val)`: an absent list shows nothing as checked. */
  predicate IsChecked(value: Option<seq<string>>, val: string) {
    value.Some? && val in value.value
  }

  function IsNot(val: string): string -> bool {
    v => v != val
  }

  /** The list handed to `onChange` when the option `val` is checked or unchecked; `value || []` reads an absent list as empty. */
  function Toggled(value: Option<seq<string>>, val: string, checked: bool): seq<string> {
    var current := value.GetOr([]);
    if checked then current + [val] else Filter(current, IsNot(val))
  }

  /** Checking appends the value once more, at the end, whether or not it was already there. */
  lemma CheckAppends(value: Option<seq<string>>, val: string)
    ensures var r := Toggled(value, val, true);
      |r| == |value.GetOr([])| + 1 && r[..|r| - 1] == value.GetOr([]) && r[|r| - 1] == val
      && multiset(r) == multiset(value.GetOr([])) + multiset{val}
      && IsChecked(Some(r), val)
  {
  }

  /** Unchecking removes every occurrence of the value, keeps every other value as often as it was there, and keeps their order. */
  lemma UncheckRemoves(value: Option<seq<string>>, val: string, other: string)
    ensures !IsChecked(Some(Toggled(value, val, false)), val)
    ensures other != val ==> multiset(Toggled(value, val, false))[other] == multiset(value.GetOr([]))[other]
    ensures Toggled(value, val, false) == Filter(value.GetOr([]), IsNot(val))
  {
    var r := Toggled(value, val, false);
    FilterCount(value.GetOr([]), IsNot(val), other);
    FilterCount(value.GetOr([]), IsNot(val), val);
    assert val !in multiset(r);
  }

  /** Checking and then unchecking an option is the same as unchecking it straight away. */
  lemma CheckThenUncheck(value: Option<seq<string>>, val: string)
    ensures Toggled(Some(Toggled(value, val, true)), val, false) == Toggled(value, val, false)
  {
    var current := value.GetOr([]);
    FilterAppend(current, [val], IsNot(val));
    FilterSingle(val, IsNot(val));
    assert Filter(current, IsNot(val)) + [] == Filter(current, IsNot(val));
  }

  /** Unchecking an option nobody checked leaves the list as it was. */
  lemma UncheckAbsent(current: seq<string>, val: string)
    requires val !in current
    ensures Toggled(Some(current), val, false) == current
  {
    FilterUnchanged(current, IsNot(val));
  }
}
