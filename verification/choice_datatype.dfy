/** The choice datatype of the generic form: single choices are an enum of the option values, multiple choices an array of strings. */
module ChoiceDatatype {
  import opened Wrappers
  import opened JsValues
  import opened Zod
  import opened ChoiceOptions

  datatype ChoiceIcon = ChevronDownIcon

  const ChoiceIconOf: ChoiceIcon := ChevronDownIcon

  function GetChoiceSchema(options: seq<ChoiceOption>, required: bool, multiple: bool): Schema {
    if multiple then
      if required then ZStringArray(1, "Mindestens eine Option muss ausgewählt werden")
      else ZOptional(ZStringArray(0, ""))
    else
      var schema := ZEnum(Values(options));
      if required then schema else ZOptional(schema)
  }

  /** A single choice accepts exactly the option values (and `undefined` when optional). */
  lemma SingleChoiceAccepts(options: seq<ChoiceOption>, required: bool, v: JsValue, o: Oracles)
    ensures Accepts(GetChoiceSchema(options, required, false), v, o) <==>
      (!required && v == Undefined)
      || (v.Str? && exists i :: 0 <= i < |options| && ValueOf(options[i]) == v.s)
  {
    if v.Str? {
      ValuesMembership(options, v.s);
    }
    if !required && v != Undefined {
      assert Issues(GetChoiceSchema(options, required, false), v, o) == Issues(ZEnum(Values(options)), v, o);
    }
  }

  /**
   * A multiple choice accepts any array of strings, at least one when
   * required: the chosen strings are not checked against the options.
   */
  lemma MultipleChoiceAccepts(options: seq<ChoiceOption>, required: bool, v: JsValue, o: Oracles)
    ensures Accepts(GetChoiceSchema(options, required, true), v, o) <==>
      (!required && v == Undefined)
      || (v.Array? && (required ==> |v.items| >= 1) && forall i :: 0 <= i < |v.items| ==> v.items[i].Str?)
  {
    if required {
      StringArrayAccepts(1, "Mindestens eine Option muss ausgewählt werden", v, o);
    } else {
      StringArrayAccepts(0, "", v, o);
    }
  }

  /** Multiple choices: the value when it is an array, else `[]`; single: the value when truthy, else `""`. */
  function ParseChoiceValue(v: JsValue, multiple: bool): (r: JsValue)
    ensures multiple ==> r.Array? && (v.Array? ==> r == v)
    ensures multiple && !v.Array? ==> r == Array([])
    ensures !multiple ==> Truthy(r) == Truthy(v) && (Truthy(v) ==> r == v) && (!Truthy(v) ==> r == Str(""))
  {
    if multiple then (if v.Array? then v else Array([]))
    else if Truthy(v) then v else Str("")
  }
}
