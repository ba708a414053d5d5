/** The zod schemas of the sales contact form and the career application form. */
module FormValidation {
  import opened Wrappers
  import opened Strings
  import opened JsValues
  import opened Zod

  datatype Location = Berlin | FrankfurtAmMain | Heidelberg | Heilbronn | Leipzig | Mannheim | Wiesbaden | Other

  /** The location filter on the career page adds "Alle" to the locations. */
  datatype LocationFilter = All | At(location: Location)

  datatype FormState = Idle | Submitting | Success | Error

  function LocationName(l: Location): string {
    match l
    case Berlin => "Berlin"
    case FrankfurtAmMain => "Frankfurt am Main"
    case Heidelberg => "Heidelberg"
    case Heilbronn => "Heilbronn"
    case Leipzig => "Leipzig"
    case Mannheim => "Mannheim"
    case Wiesbaden => "Wiesbaden"
    case Other => "anderes"
  }

  function LocationFilterName(f: LocationFilter): string {
    match f
    case All => "Alle"
    case At(l) => LocationName(l)
  }

  const Locations: seq<string> :=
    ["Berlin", "Frankfurt am Main", "Heidelberg", "Heilbronn", "Leipzig", "Mannheim", "Wiesbaden", "anderes"]

  const AreasOfUse: seq<string> :=
    ["Technisches FM", "Infra-Services", "Compliance", "Energie", "Digitalisierung"]

  const RequiredMessage := "Dieses Feld ist erforderlich"
  const EmailMessage := "Bitte gültige E-Mail angeben"
  const ConsentMessage := "Bitte stimmen Sie der Datenverarbeitung zu"
  const MaxCvSize: nat := 10 * 1024 * 1024

  const ContactFormSchema: seq<Field> := [
    Field("name", ZString([MinLength(1, Some(RequiredMessage))])),
    Field("email", ZString([Email(Some(EmailMessage))])),
    Field("phone", ZOptional(ZString([]))),
    Field("company", ZOptional(ZString([]))),
    Field("location", ZEnum(Locations)),
    Field("areaOfUse", ZOptional(ZEnum(AreasOfUse))),
    Field("message", ZOptional(ZString([MaxLength(1000, Some("Nachricht zu lang (max. 1000 Zeichen)"))]))),
    Field("consent", ZLiteral(Bool(true), Some(ConsentMessage)))
  ]

  const CvFileSchema: Schema :=
    ZFile(MaxCvSize, "Datei zu groß (max. 10MB)", "application/pdf", "Nur PDF-Dateien erlaubt")

  const JobApplicationSchema: seq<Field> := [
    Field("name", ZString([MinLength(1, Some(RequiredMessage))])),
    Field("email", ZString([Email(Some(EmailMessage))])),
    Field("location", ZOptional(ZString([]))),
    Field("jobTitle", ZString([MinLength(1, Some(RequiredMessage))])),
    Field("cvFile", CvFileSchema),
    Field("message", ZOptional(ZString([MaxLength(2000, Some("Nachricht zu lang (max. 2000 Zeichen)"))]))),
    Field("gdprConsent", ZLiteral(Bool(true), Some(ConsentMessage)))
  ]

  predicate OptionalString(v: JsValue) { v == Undefined || v.Str? }

  /** What the contact form demands of each submitted property, written out field by field. */
  predicate ContactValid(p: map<string, JsValue>, o: Oracles) {
    var name, email, location, area, message := Get(p, "name"), Get(p, "email"), Get(p, "location"), Get(p, "areaOfUse"), Get(p, "message");
    name.Str? && JsLength(name.s) >= 1
    && email.Str? && o.isEmail(email.s)
    && OptionalString(Get(p, "phone"))
    && OptionalString(Get(p, "company"))
    && location.Str? && location.s in Locations
    && (area == Undefined || (area.Str? && area.s in AreasOfUse))
    && (message == Undefined || (message.Str? && JsLength(message.s) <= 1000))
    && Get(p, "consent") == Bool(true)
  }

  /** What the application form demands of each submitted property. */
  predicate ApplicationValid(p: map<string, JsValue>, o: Oracles) {
    var name, email, title, cv, message := Get(p, "name"), Get(p, "email"), Get(p, "jobTitle"), Get(p, "cvFile"), Get(p, "message");
    name.Str? && JsLength(name.s) >= 1
    && email.Str? && o.isEmail(email.s)
    && OptionalString(Get(p, "location"))
    && title.Str? && JsLength(title.s) >= 1
    && cv.FileObj? && cv.file.size <= MaxCvSize && cv.file.mimeType == "application/pdf"
    && (message == Undefined || (message.Str? && JsLength(message.s) <= 2000))
    && Get(p, "gdprConsent") == Bool(true)
  }

  lemma EmptyChecksAccept(v: JsValue, o: Oracles)
    ensures Accepts(ZOptional(ZString([])), v, o) <==> OptionalString(v)
  {
    StringAccepts([], v, o);
  }

  lemma SingleCheckAccepts(c: StringCheck, v: JsValue, o: Oracles)
    ensures Accepts(ZString([c]), v, o) <==> v.Str? && StringPasses(c, v.s, o)
  {
    StringAccepts([c], v, o);
  }

  /** The contact schema accepts an object exactly when every field meets its rule. */
  lemma ContactFormAccepts(v: JsValue, o: Oracles)
    ensures ObjectAccepts(ContactFormSchema, v, o) <==> v.Object? && ContactValid(v.props, o)
  {
    if v.Object? {
      var p := v.props;
      FieldIssuesEmpty(ContactFormSchema, p, o);
      ContactFieldRules(p, o);
      if ContactValid(p, o) {
        forall i | 0 <= i < |ContactFormSchema|
          ensures Accepts(ContactFormSchema[i].schema, Get(p, ContactFormSchema[i].name), o)
        {
          assert i in {0, 1, 2, 3, 4, 5, 6, 7};
        }
      }
    }
  }

  /** Each field of the contact schema, on its own, against its rule. */
  lemma ContactFieldRules(p: map<string, JsValue>, o: Oracles)
    ensures Accepts(ContactFormSchema[0].schema, Get(p, ContactFormSchema[0].name), o) <==> Get(p, "name").Str? && JsLength(Get(p, "name").s) >= 1
    ensures Accepts(ContactFormSchema[1].schema, Get(p, ContactFormSchema[1].name), o) <==> Get(p, "email").Str? && o.isEmail(Get(p, "email").s)
    ensures Accepts(ContactFormSchema[2].schema, Get(p, ContactFormSchema[2].name), o) <==> OptionalString(Get(p, "phone"))
    ensures Accepts(ContactFormSchema[3].schema, Get(p, ContactFormSchema[3].name), o) <==> OptionalString(Get(p, "company"))
    ensures Accepts(ContactFormSchema[4].schema, Get(p, ContactFormSchema[4].name), o) <==> Get(p, "location").Str? && Get(p, "location").s in Locations
    ensures Accepts(ContactFormSchema[5].schema, Get(p, ContactFormSchema[5].name), o) <==>
      (Get(p, "areaOfUse") == Undefined || (Get(p, "areaOfUse").Str? && Get(p, "areaOfUse").s in AreasOfUse))
    ensures Accepts(ContactFormSchema[6].schema, Get(p, ContactFormSchema[6].name), o) <==>
      (Get(p, "message") == Undefined || (Get(p, "message").Str? && JsLength(Get(p, "message").s) <= 1000))
    ensures Accepts(ContactFormSchema[7].schema, Get(p, ContactFormSchema[7].name), o) <==> Get(p, "consent") == Bool(true)
  {
    SingleCheckAccepts(MinLength(1, Some(RequiredMessage)), Get(p, "name"), o);
    SingleCheckAccepts(Email(Some(EmailMessage)), Get(p, "email"), o);
    EmptyChecksAccept(Get(p, "phone"), o);
    EmptyChecksAccept(Get(p, "company"), o);
    SingleCheckAccepts(MaxLength(1000, Some("Nachricht zu lang (max. 1000 Zeichen)")), Get(p, "message"), o);
    OptionalAccepts(ZEnum(AreasOfUse), Get(p, "areaOfUse"), o);
  }

  /** The application schema accepts an object exactly when every field meets its rule. */
  lemma JobApplicationAccepts(v: JsValue, o: Oracles)
    ensures ObjectAccepts(JobApplicationSchema, v, o) <==> v.Object? && ApplicationValid(v.props, o)
  {
    if v.Object? {
      var p := v.props;
      FieldIssuesEmpty(JobApplicationSchema, p, o);
      ApplicationFieldRules(p, o);
      if ApplicationValid(p, o) {
        forall i | 0 <= i < |JobApplicationSchema|
          ensures Accepts(JobApplicationSchema[i].schema, Get(p, JobApplicationSchema[i].name), o)
        {
          assert i in {0, 1, 2, 3, 4, 5, 6};
        }
      }
    }
  }

  lemma ApplicationFieldRules(p: map<string, JsValue>, o: Oracles)
    ensures Accepts(JobApplicationSchema[0].schema, Get(p, JobApplicationSchema[0].name), o) <==> Get(p, "name").Str? && JsLength(Get(p, "name").s) >= 1
    ensures Accepts(JobApplicationSchema[1].schema, Get(p, JobApplicationSchema[1].name), o) <==> Get(p, "email").Str? && o.isEmail(Get(p, "email").s)
    ensures Accepts(JobApplicationSchema[2].schema, Get(p, JobApplicationSchema[2].name), o) <==> OptionalString(Get(p, "location"))
    ensures Accepts(JobApplicationSchema[3].schema, Get(p, JobApplicationSchema[3].name), o) <==> Get(p, "jobTitle").Str? && JsLength(Get(p, "jobTitle").s) >= 1
    ensures Accepts(JobApplicationSchema[4].schema, Get(p, JobApplicationSchema[4].name), o) <==>
      Get(p, "cvFile").FileObj? && Get(p, "cvFile").file.size <= MaxCvSize && Get(p, "cvFile").file.mimeType == "application/pdf"
    ensures Accepts(JobApplicationSchema[5].schema, Get(p, JobApplicationSchema[5].name), o) <==>
      (Get(p, "message") == Undefined || (Get(p, "message").Str? && JsLength(Get(p, "message").s) <= 2000))
    ensures Accepts(JobApplicationSchema[6].schema, Get(p, JobApplicationSchema[6].name), o) <==> Get(p, "gdprConsent") == Bool(true)
  {
    SingleCheckAccepts(MinLength(1, Some(RequiredMessage)), Get(p, "name"), o);
    SingleCheckAccepts(Email(Some(EmailMessage)), Get(p, "email"), o);
    EmptyChecksAccept(Get(p, "location"), o);
    SingleCheckAccepts(MinLength(1, Some(RequiredMessage)), Get(p, "jobTitle"), o);
    SingleCheckAccepts(MaxLength(2000, Some("Nachricht zu lang (max. 2000 Zeichen)")), Get(p, "message"), o);
  }

  /** The `Location` type and the schema's enum list the same eight places. */
  lemma LocationsMatchEnum(s: string)
    ensures s in Locations <==> exists l :: LocationName(l) == s
  {
    if s in Locations {
      var l := if s == "Berlin" then Berlin else if s == "Frankfurt am Main" then FrankfurtAmMain
        else if s == "Heidelberg" then Heidelberg else if s == "Heilbronn" then Heilbronn
        else if s == "Leipzig" then Leipzig else if s == "Mannheim" then Mannheim
        else if s == "Wiesbaden" then Wiesbaden else Other;
      assert LocationName(l) == s;
    }
  }

  /** Distinct locations have distinct names, and none of them is the filter's "Alle". */
  lemma LocationFilterNamesDistinct(a: LocationFilter, b: LocationFilter)
    requires LocationFilterName(a) == LocationFilterName(b)
    ensures a == b
  {
  }
}
