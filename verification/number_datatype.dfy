/** The number datatype of the generic form: its zod schema, its icon and its display suffix. */
module NumberDatatype {
  import opened Wrappers
  import opened Strings
  import opened JsValues
  import opened Zod

  datatype NumberFormat = PlainNumber | Currency | Percentage

  datatype NumberIcon = HashIcon | EuroIcon | PercentIcon

  function NumberIconOf(format: NumberFormat): NumberIcon {
    match format
    case PlainNumber => HashIcon
    case Currency => EuroIcon
    case Percentage => PercentIcon
  }

  /**
   * The checks chained onto `z.number()`, in order: the caller's minimum
   * and maximum, then 0..100 for percentages, then a lower bound of 0 for
   * currency amounts that have no explicit minimum.
   */
  function NumberChecks(format: Option<NumberFormat>, min: Option<int>, max: Option<int>): seq<NumberCheck> {
    (if min.Some? then [AtLeast(min.value, Some("Minimum ist " + IntToString(min.value)))] else [])
    + (if max.Some? then [AtMost(max.value, Some("Maximum ist " + IntToString(max.value)))] else [])
    + (if format == Some(Percentage) then [AtLeast(0, None), AtMost(100, Some("Prozentsatz muss zwischen 0 und 100 liegen"))] else [])
    + (if format == Some(Currency) && min.None? then [AtLeast(0, Some("Betrag muss positiv sein"))] else [])
  }

  function GetNumberSchema(format: Option<NumberFormat>, required: bool, min: Option<int>, max: Option<int>): Schema {
    var schema := ZNumber(NumberChecks(format, min, max));
    if required then schema else ZOptional(schema)
  }

  /** The range a number field admits, stated independently of the checks. */
  predicate InRange(format: Option<NumberFormat>, min: Option<int>, max: Option<int>, n: int) {
    (min.Some? ==> n >= min.value)
    && (max.Some? ==> n <= max.value)
    && (format == Some(Percentage) ==> 0 <= n <= 100)
    && (format == Some(Currency) && min.None? ==> n >= 0)
  }

  lemma NumberChecksMeaning(format: Option<NumberFormat>, min: Option<int>, max: Option<int>, n: int)
    ensures (forall i :: 0 <= i < |NumberChecks(format, min, max)| ==> NumberPasses(NumberChecks(format, min, max)[i], n))
      <==> InRange(format, min, max, n)
  {
    var a := if min.Some? then [AtLeast(min.value, Some("Minimum ist " + IntToString(min.value)))] else [];
    var b := if max.Some? then [AtMost(max.value, Some("Maximum ist " + IntToString(max.value)))] else [];
    var c := if format == Some(Percentage) then [AtLeast(0, None), AtMost(100, Some("Prozentsatz muss zwischen 0 und 100 liegen"))] else [];
    var d := if format == Some(Currency) && min.None? then [AtLeast(0, Some("Betrag muss positiv sein"))] else [];
    var checks := NumberChecks(format, min, max);
    assert checks == a + b + c + d;
    if InRange(format, min, max, n) {
      forall i | 0 <= i < |checks| ensures NumberPasses(checks[i], n) {
        if i < |a| {
        } else if i < |a| + |b| {
          assert checks[i] == b[i - |a|];
        } else if i < |a| + |b| + |c| {
          assert checks[i] == c[i - |a| - |b|];
        } else {
          assert checks[i] == d[i - |a| - |b| - |c|];
        }
      }
    }
    if forall i :: 0 <= i < |checks| ==> NumberPasses(checks[i], n) {
      if min.Some? { assert NumberPasses(checks[0], n); }
      if max.Some? { assert NumberPasses(checks[|a|], n); }
      if format == Some(Percentage) {
        assert NumberPasses(checks[|a| + |b|], n);
        assert NumberPasses(checks[|a| + |b| + 1], n);
      }
      if format == Some(Currency) && min.None? { assert NumberPasses(checks[|a| + |b| + |c|], n); }
    }
  }

  /** A number field accepts exactly the integers in its range, and `undefined` when optional; NaN never. */
  lemma NumberSchemaAccepts(format: Option<NumberFormat>, required: bool, min: Option<int>, max: Option<int>, v: JsValue, o: Oracles)
    ensures Accepts(GetNumberSchema(format, required, min, max), v, o) <==>
      (!required && v == Undefined) || (v.Number? && InRange(format, min, max, v.n))
  {
    NumberAccepts(NumberChecks(format, min, max), v, o);
    if v.Number? {
      NumberChecksMeaning(format, min, max, v.n);
    }
  }

  /** An explicit minimum on a currency field replaces the implicit lower bound of 0. */
  lemma CurrencyMinimumOverrides(m: int, n: int)
    requires m <= n < 0
    ensures InRange(Some(Currency), Some(m), None, n)
    ensures !InRange(Some(Currency), None, None, n)
  {
  }

  /** A value under the caller's minimum reports that minimum in its message. */
  lemma MinimumMessage(format: Option<NumberFormat>, min: int, max: Option<int>, n: int, o: Oracles)
    requires n < min
    ensures CheckFailed(Some("Minimum ist " + IntToString(min))) in Issues(GetNumberSchema(format, true, Some(min), max), Number(n), o)
  {
    var checks := NumberChecks(format, Some(min), max);
    assert checks[0] == AtLeast(min, Some("Minimum ist " + IntToString(min)));
    assert NumberIssues(checks, n) == [CheckFailed(Some("Minimum ist " + IntToString(min)))] + NumberIssues(checks[1..], n);
  }

  /** The unit shown after the input: a euro sign for currency, a percent sign for percentages. */
  function GetNumberSuffix(format: Option<NumberFormat>): (r: Option<string>)
    ensures r.Some? <==> format in {Some(Currency), Some(Percentage)}
    ensures format == Some(Currency) ==> r == Some("€")
    ensures format == Some(Percentage) ==> r == Some("%")
  {
    match format
    case Some(Currency) => Some("€")
    case Some(Percentage) => Some("%")
    case _ => None
  }
}
