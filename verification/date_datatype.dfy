/** The date datatype of the invoice form: its zod schema per format, its icon and its value conversion. */
module DateDatatype {
  import opened Wrappers
  import opened Strings
  import opened JsValues
  import opened Zod

  datatype DateFormat = Date | DateTime | Time

  datatype DateIcon = CalendarIcon | CalendarClockIcon | ClockIcon

  function DateIconOf(format: DateFormat): DateIcon {
    match format
    case Date => CalendarIcon
    case DateTime => CalendarClockIcon
    case Time => ClockIcon
  }

  /** The anchored pattern per format, `D` standing for one ASCII digit. */
  function DateShape(format: Option<DateFormat>): string {
    match format
    case Some(DateTime) => "DDDD-DD-DDTDD:DD"
    case Some(Time) => "DD:DD"
    case _ => "DDDD-DD-DD"
  }

  function DateShapeMessage(format: Option<DateFormat>): string {
    match format
    case Some(DateTime) => "Ungültiges Datum/Zeit-Format"
    case Some(Time) => "Ungültige Zeitangabe"
    case _ => "Ungültiges Datumsformat"
  }

  /** The pattern check, followed by a non-empty check when required, or made optional otherwise. */
  function GetDateSchema(format: Option<DateFormat>, required: bool): Schema {
    var shape := Shape(DateShape(format), Some(DateShapeMessage(format)));
    if required then ZString([shape, MinLength(1, Some("Dieses Feld ist erforderlich"))])
    else ZOptional(ZString([shape]))
  }

  /** Every pattern is non-empty, so a matching string is never empty. */
  lemma ShapeNonEmpty(format: Option<DateFormat>, s: string)
    requires MatchesShape(s, DateShape(format))
    ensures JsLength(s) >= 1
  {
    assert Utf16(s) == CodeUnits(s[0]) + Utf16(s[1..]);
  }

  /** A date field accepts exactly the strings matching its pattern (and `undefined` when optional). */
  lemma DateSchemaAccepts(format: Option<DateFormat>, required: bool, v: JsValue, o: Oracles)
    ensures Accepts(GetDateSchema(format, required), v, o) <==>
      (!required && v == Undefined) || (v.Str? && MatchesShape(v.s, DateShape(format)))
  {
    var shape := Shape(DateShape(format), Some(DateShapeMessage(format)));
    if required {
      StringAccepts([shape, MinLength(1, Some("Dieses Feld ist erforderlich"))], v, o);
      if v.Str? && MatchesShape(v.s, DateShape(format)) {
        ShapeNonEmpty(format, v.s);
      }
    } else {
      StringAccepts([shape], v, o);
    }
  }

  /** The empty string breaks both checks of a required field and gets both messages, pattern first. */
  lemma RequiredDateEmpty(format: Option<DateFormat>, o: Oracles)
    ensures Issues(GetDateSchema(format, true), Str(""), o)
      == [CheckFailed(Some(DateShapeMessage(format))), CheckFailed(Some("Dieses Feld ist erforderlich"))]
  {
    var shape := Shape(DateShape(format), Some(DateShapeMessage(format)));
    var required := MinLength(1, Some("Dieses Feld ist erforderlich"));
    assert !StringPasses(shape, "", o);
    assert !StringPasses(required, "", o);
    assert [shape, required][1..] == [required];
    assert StringIssues([required], "", o) == [CheckFailed(required.message)] + StringIssues([], "", o);
  }

  /** `.optional()` admits only `undefined`: an optional date left empty is still rejected. */
  lemma OptionalDateRejectsEmpty(format: Option<DateFormat>, o: Oracles)
    ensures !Accepts(GetDateSchema(format, false), Str(""), o)
  {
    DateSchemaAccepts(format, false, Str(""), o);
  }

  /** `String(value || "")`. */
  function ParseDateValue(v: JsValue): string {
    StringOrEmpty(v)
  }

  lemma ParseDateValueCases(v: JsValue)
    ensures v.Str? ==> ParseDateValue(v) == v.s
    ensures !Truthy(v) ==> ParseDateValue(v) == ""
  {
    StringOrEmptyCases(v);
  }
}
