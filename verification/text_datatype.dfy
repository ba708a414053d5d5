/** The text datatype of the generic form: its zod schema per format, its icon and its value conversion. */
module TextDatatype {
  import opened Wrappers
  import opened Strings
  import opened JsValues
  import opened Zod

  datatype TextFormat = Text | Multiline | Password | EmailFormat | UrlFormat | Tel

  datatype TextIcon = TypeIcon | AlignLeftIcon | LockIcon | MailIcon | LinkIcon | PhoneIcon

  /** The icon table: one icon per format. */
  function TextIconOf(format: TextFormat): TextIcon {
    match format
    case Text => TypeIcon
    case Multiline => AlignLeftIcon
    case Password => LockIcon
    case EmailFormat => MailIcon
    case UrlFormat => LinkIcon
    case Tel => PhoneIcon
  }

  /** The single check each format chains onto `z.string()`; no format or plain text requires a non-empty string. */
  function FormatCheck(format: Option<TextFormat>): StringCheck {
    match format
    case Some(EmailFormat) => Email(Some("Ungültige E-Mail-Adresse"))
    case Some(UrlFormat) => Url(Some("Ungültige URL"))
    case Some(Tel) => MinLength(10, Some("Telefonnummer muss mindestens 10 Zeichen haben"))
    case Some(Password) => MinLength(8, Some("Passwort muss mindestens 8 Zeichen haben"))
    case Some(Multiline) => MinLength(10, Some("Text muss mindestens 10 Zeichen haben"))
    case _ => MinLength(1, Some("Dieses Feld ist erforderlich"))
  }

  function GetTextSchema(format: Option<TextFormat>, required: bool): Schema {
    var schema := ZString([FormatCheck(format)]);
    if required then schema else ZOptional(schema)
  }

  /** What each format demands of a string, stated independently of the schema. */
  predicate TextRule(format: Option<TextFormat>, s: string, o: Oracles) {
    match format
    case Some(EmailFormat) => o.isEmail(s)
    case Some(UrlFormat) => o.isUrl(s)
    case Some(Tel) => JsLength(s) >= 10
    case Some(Password) => JsLength(s) >= 8
    case Some(Multiline) => JsLength(s) >= 10
    case _ => JsLength(s) >= 1
  }

  /** A text field accepts a string meeting its format's rule, and `undefined` only when optional. */
  lemma TextSchemaAccepts(format: Option<TextFormat>, required: bool, v: JsValue, o: Oracles)
    ensures Accepts(GetTextSchema(format, required), v, o) <==>
      (!required && v == Undefined) || (v.Str? && TextRule(format, v.s, o))
  {
    StringAccepts([FormatCheck(format)], v, o);
  }

  /** A string breaking its format's rule gets exactly that format's message. */
  lemma TextSchemaMessage(format: Option<TextFormat>, required: bool, s: string, o: Oracles)
    requires !TextRule(format, s, o)
    ensures Issues(GetTextSchema(format, required), Str(s), o) == [CheckFailed(FormatCheck(format).message)]
  {
  }

  /** An optional text field still rejects the empty string unless its format allows it. */
  lemma OptionalTextRejectsEmpty(format: Option<TextFormat>, o: Oracles)
    requires format !in {Some(EmailFormat), Some(UrlFormat)}
    ensures !Accepts(GetTextSchema(format, false), Str(""), o)
  {
    TextSchemaAccepts(format, false, Str(""), o);
  }

  /** `String(value || "")`. */
  function ParseTextValue(v: JsValue): string {
    StringOrEmpty(v)
  }

  /** Converting a value that is already a string, or is falsy, gives that string or the empty one. */
  lemma ParseTextValueCases(v: JsValue)
    ensures v.Str? ==> ParseTextValue(v) == v.s
    ensures !Truthy(v) ==> ParseTextValue(v) == ""
  {
    StringOrEmptyCases(v);
  }
}
