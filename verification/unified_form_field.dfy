/**
 * The generic form field of the invoice form: which control it renders,
 * the HTML input type and the unit suffix of a plain input, the icon shown
 * for its datatype and format, and the error styling. The format arrives as
 * free text and is looked up in each datatype's icon table.
 */
module UnifiedFormField {
  import opened Wrappers
  import opened TextDatatype
  import opened NumberDatatype
  import opened DateDatatype
  import opened BooleanDatatype
  import opened ChoiceDatatype

  datatype Datatype = TextType | NumberType | DateType | BooleanType | ChoiceType

  /** The keys of the text icon table. */
  function TextFormatName(f: TextFormat): string {
    match f
    case Text => "text"
    case Multiline => "multiline"
    case Password => "password"
    case EmailFormat => "email"
    case UrlFormat => "url"
    case Tel => "tel"
  }

  /** Looking a format up in the text icon table: only its own keys are found. */
  function TextFormatNamed(format: Option<string>): (r: Option<TextFormat>)
    ensures r.Some? ==> format == Some(TextFormatName(r.value))
  {
    match format
    case Some("text") => Some(Text)
    case Some("multiline") => Some(Multiline)
    case Some("password") => Some(Password)
    case Some("email") => Some(EmailFormat)
    case Some("url") => Some(UrlFormat)
    case Some("tel") => Some(Tel)
    case _ => None
  }

  function NumberFormatName(f: NumberFormat): string {
    match f
    case PlainNumber => "number"
    case Currency => "currency"
    case Percentage => "percentage"
  }

  function NumberFormatNamed(format: Option<string>): (r: Option<NumberFormat>)
    ensures r.Some? ==> format == Some(NumberFormatName(r.value))
  {
    match format
    case Some("number") => Some(PlainNumber)
    case Some("currency") => Some(Currency)
    case Some("percentage") => Some(Percentage)
    case _ => None
  }

  function DateFormatName(f: DateFormat): string {
    match f
    case Date => "date"
    case DateTime => "datetime"
    case Time => "time"
  }

  function DateFormatNamed(format: Option<string>): (r: Option<DateFormat>)
    ensures r.Some? ==> format == Some(DateFormatName(r.value))
  {
    match format
    case Some("date") => Some(Date)
    case Some("datetime") => Some(DateTime)
    case Some("time") => Some(Time)
    case _ => None
  }

  /** Every table key is found again under its own name. */
  lemma FormatNamesFound(t: TextFormat, n: NumberFormat, d: DateFormat)
    ensures TextFormatNamed(Some(TextFormatName(t))) == Some(t)
    ensures NumberFormatNamed(Some(NumberFormatName(n))) == Some(n)
    ensures DateFormatNamed(Some(DateFormatName(d))) == Some(d)
  {
  }

  datatype Icon = TextIconOfField(text: TextIcon) | NumberIconOfField(number: NumberIcon) | DateIconOfField(date: DateIcon)
    | BooleanIconOfField | ChoiceIconOfField

  /** `getDataTypeIcon`: the format's own icon when the table has the format, otherwise the datatype's default entry. */
  function DataTypeIcon(kind: Datatype, format: Option<string>): Icon {
    match kind
    case TextType => TextIconOfField(TextIconOf(TextFormatNamed(format).GetOr(Text)))
    case NumberType => NumberIconOfField(NumberIconOf(NumberFormatNamed(format).GetOr(PlainNumber)))
    case DateType => DateIconOfField(DateIconOf(DateFormatNamed(format).GetOr(Date)))
    case BooleanType => BooleanIconOfField
    case ChoiceType => ChoiceIconOfField
  }

  /** The icon follows the format when the format is a key of the datatype's table, and is the default icon otherwise. */
  lemma DataTypeIconFallback(kind: Datatype, format: Option<string>)
    ensures kind == TextType ==>
      DataTypeIcon(kind, format) == TextIconOfField(if format.Some? && format.value in {"text", "multiline", "password", "email", "url", "tel"}
        then TextIconOf(TextFormatNamed(format).value) else TypeIcon)
    ensures kind == NumberType ==>
      DataTypeIcon(kind, format) == NumberIconOfField(if format.Some? && format.value in {"number", "currency", "percentage"}
        then NumberIconOf(NumberFormatNamed(format).value) else HashIcon)
    ensures kind == DateType ==>
      DataTypeIcon(kind, format) == DateIconOfField(if format.Some? && format.value in {"date", "datetime", "time"}
        then DateIconOf(DateFormatNamed(format).value) else CalendarIcon)
  {
  }

  /** The `type` of the plain input: always `number` for numbers, otherwise the four special formats pass through. */
  function InputType(kind: Datatype, format: Option<string>): string {
    if kind == NumberType then "number"
    else if format == Some("password") then "password"
    else if format == Some("email") then "email"
    else if format == Some("url") then "url"
    else if format == Some("tel") then "tel"
    else "text"
  }

  /** The unit shown after a plain input; only numbers have one. */
  function Suffix(kind: Datatype, format: Option<string>): Option<string> {
    if kind == NumberType then GetNumberSuffix(NumberFormatNamed(format)) else None
  }

  lemma InputTypeCases(kind: Datatype, format: Option<string>)
    ensures kind == NumberType ==> InputType(kind, format) == "number"
    ensures kind != NumberType && format.Some? && format.value in {"password", "email", "url", "tel"} ==>
      InputType(kind, format) == format.value
    ensures kind != NumberType && !(format.Some? && format.value in {"password", "email", "url", "tel"}) ==>
      InputType(kind, format) == "text"
    ensures InputType(kind, format) in {"number", "password", "email", "url", "tel", "text"}
  {
  }

  /** A suffix appears only for a number in currency or percentage format. */
  lemma SuffixCases(kind: Datatype, format: Option<string>)
    ensures Suffix(kind, format).Some? <==> kind == NumberType && format in {Some("currency"), Some("percentage")}
    ensures Suffix(NumberType, Some("currency")) == Some("€") && Suffix(NumberType, Some("percentage")) == Some("%")
  {
  }

  /** The control a field renders; a plain input carries its type and suffix. */
  datatype Control = TextareaControl | SelectControl | RadioControl | CheckboxControl | SliderControl
    | DatePickerControl | ComboboxControl | InputControl(inputType: string, suffix: Option<string>)

  /** The `switch (controlType)`: `input` and every name it does not list give the plain input. */
  function RenderControl(controlType: string, kind: Datatype, format: Option<string>): Control {
    match controlType
    case "textarea" => TextareaControl
    case "select" => SelectControl
    case "radio" => RadioControl
    case "checkbox" => CheckboxControl
    case "slider" => SliderControl
    case "datepicker" => DatePickerControl
    case "combobox" => ComboboxControl
    case _ => InputControl(InputType(kind, format), Suffix(kind, format))
  }

  const KnownControls: set<string> := {"textarea", "select", "radio", "checkbox", "slider", "datepicker", "combobox"}

  /** An unknown control type is rendered exactly like `input`, and only the input branch computes a type and suffix. */
  lemma UnknownControlIsInput(controlType: string, kind: Datatype, format: Option<string>)
    ensures controlType !in KnownControls ==> RenderControl(controlType, kind, format) == RenderControl("input", kind, format)
    ensures RenderControl(controlType, kind, format).InputControl? <==> controlType !in KnownControls
  {
  }

  /** `getStatusColor`. */
  function StatusColor(status: Option<string>): Option<string> {
    if status == Some("error") then Some("text-error border-error") else None
  }

  /** `getStatusIcon`: whether the alert icon is shown. */
  predicate ShowsStatusIcon(status: Option<string>) {
    status == Some("error")
  }

  /** The error colour and the alert icon come together, and only for the error status. */
  lemma StatusStyling(status: Option<string>)
    ensures StatusColor(status).Some? <==> ShowsStatusIcon(status)
    ensures ShowsStatusIcon(status) <==> status == Some("error")
  {
  }
}
