/**
 * The part of the zod validation library the forms use: string, number,
 * boolean, enum, string-array, literal, file and optional schemas, and
 * objects of named fields. A schema is a value; `Issues` lists what zod
 * reports for an input, in zod's order, and a value is accepted when there
 * are none. zod's e-mail regular expression and its URL parser are not
 * modelled: they are the `isEmail` and `isUrl` oracles.
 */
module Zod {
  import opened Wrappers
  import opened Strings
  import opened JsValues

  datatype Oracles = Oracles(isEmail: string -> bool, isUrl: string -> bool)

  /** A check chained onto `z.string()`; a message of None stands for zod's default wording. */
  datatype StringCheck =
    | MinLength(n: nat, message: Option<string>)
    | MaxLength(n: nat, message: Option<string>)
    | Shape(shape: string, message: Option<string>)
    | Email(message: Option<string>)
    | Url(message: Option<string>)

  /** `.min(bound)` and `.max(bound)` on `z.number()`, both inclusive. */
  datatype NumberCheck = AtLeast(bound: int, message: Option<string>) | AtMost(bound: int, message: Option<string>)

  datatype Schema =
    | ZString(checks: seq<StringCheck>)
    | ZNumber(numberChecks: seq<NumberCheck>)
      /** `z.boolean()`, with `.refine(val => val === true, message)` when `mustBeTrue` is present. */
    | ZBoolean(mustBeTrue: Option<string>)
    | ZEnum(values: seq<string>)
      /** `z.array(z.string())`, with `.min(minItems, minMessage)` when `minItems` is positive. */
    | ZStringArray(minItems: nat, minMessage: string)
    | ZLiteral(literal: JsValue, literalMessage: Option<string>)
      /** `z.instanceof(File)` refined by a size bound and then by an exact MIME type. */
    | ZFile(maxSize: nat, sizeMessage: string, mimeType: string, typeMessage: string)
    | ZOptional(inner: Schema)

  datatype Issue = InvalidType | InvalidEnumValue | CheckFailed(message: Option<string>)

  datatype Field = Field(name: string, schema: Schema)

  /**
   * Whether `s` matches a regular expression `^…$` made of literal
   * characters and `\d`; in `shape` the letter `D` stands for `\d`.
   */
  predicate MatchesShape(s: string, shape: string) {
    |s| == |shape| && forall i :: 0 <= i < |s| ==> if shape[i] == 'D' then IsDigit(s[i]) else s[i] == shape[i]
  }

  /** zod measures strings by their JavaScript length. */
  predicate StringPasses(c: StringCheck, s: string, o: Oracles) {
    match c
    case MinLength(n, _) => JsLength(s) >= n
    case MaxLength(n, _) => JsLength(s) <= n
    case Shape(shape, _) => MatchesShape(s, shape)
    case Email(_) => o.isEmail(s)
    case Url(_) => o.isUrl(s)
  }

  /** Every failing check contributes its message, in the order the checks were chained. */
  function StringIssues(checks: seq<StringCheck>, s: string, o: Oracles): (r: seq<Issue>)
    ensures |r| <= |checks|
    ensures forall i :: 0 <= i < |r| ==> r[i].CheckFailed?
  {
    if |checks| == 0 then []
    else
      (if StringPasses(checks[0], s, o) then [] else [CheckFailed(checks[0].message)])
      + StringIssues(checks[1..], s, o)
  }

  predicate NumberPasses(c: NumberCheck, n: int) {
    match c
    case AtLeast(b, _) => n >= b
    case AtMost(b, _) => n <= b
  }

  function NumberIssues(checks: seq<NumberCheck>, n: int): (r: seq<Issue>)
    ensures |r| <= |checks|
  {
    if |checks| == 0 then []
    else
      (if NumberPasses(checks[0], n) then [] else [CheckFailed(checks[0].message)])
      + NumberIssues(checks[1..], n)
  }

  /** One invalid-type issue per array element that is not a string. */
  function ElementIssues(items: seq<JsValue>): (r: seq<Issue>)
    ensures |r| <= |items|
  {
    if |items| == 0 then []
    else (if items[0].Str? then [] else [InvalidType]) + ElementIssues(items[1..])
  }

  /** What zod reports when `schema` parses `v`. */
  function Issues(schema: Schema, v: JsValue, o: Oracles): seq<Issue> {
    match schema
    case ZString(checks) => if v.Str? then StringIssues(checks, v.s, o) else [InvalidType]
    case ZNumber(checks) => if v.Number? then NumberIssues(checks, v.n) else [InvalidType]
    case ZBoolean(mustBeTrue) =>
      if !v.Bool? then [InvalidType]
      else if mustBeTrue.Some? && !v.b then [CheckFailed(mustBeTrue)]
      else []
    case ZEnum(values) =>
      if !v.Str? then [InvalidType] else if v.s in values then [] else [InvalidEnumValue]
    case ZStringArray(minItems, minMessage) =>
      if !v.Array? then [InvalidType]
      else (if |v.items| < minItems then [CheckFailed(Some(minMessage))] else []) + ElementIssues(v.items)
    case ZLiteral(literal, message) => if v == literal then [] else [CheckFailed(message)]
    case ZFile(maxSize, sizeMessage, mimeType, typeMessage) =>
      if !v.FileObj? then [InvalidType]
      else
        (if v.file.size <= maxSize then [] else [CheckFailed(Some(sizeMessage))])
        + (if v.file.mimeType == mimeType then [] else [CheckFailed(Some(typeMessage))])
    case ZOptional(inner) => if v == Undefined then [] else Issues(inner, v, o)
  }

  predicate Accepts(schema: Schema, v: JsValue, o: Oracles) {
    Issues(schema, v, o) == []
  }

  /** The issues of `z.object(fields)`, each tagged with the name of its field. */
  function ObjectIssues(fields: seq<Field>, v: JsValue, o: Oracles): seq<(string, Issue)> {
    if !v.Object? then [("", InvalidType)] else FieldIssues(fields, v.props, o)
  }

  function FieldIssues(fields: seq<Field>, props: map<string, JsValue>, o: Oracles): seq<(string, Issue)> {
    if |fields| == 0 then []
    else
      var f := fields[0];
      Tag(f.name, Issues(f.schema, Get(props, f.name), o)) + FieldIssues(fields[1..], props, o)
  }

  function Tag(name: string, issues: seq<Issue>): (r: seq<(string, Issue)>)
    ensures |r| == |issues|
    ensures forall i :: 0 <= i < |r| ==> r[i] == (name, issues[i])
  {
    seq(|issues|, i requires 0 <= i < |issues| => (name, issues[i]))
  }

  predicate ObjectAccepts(fields: seq<Field>, v: JsValue, o: Oracles) {
    ObjectIssues(fields, v, o) == []
  }

  /** A string passes its chained checks exactly when each check holds. */
  lemma {:induction false} StringIssuesEmpty(checks: seq<StringCheck>, s: string, o: Oracles)
    ensures StringIssues(checks, s, o) == [] <==> forall i :: 0 <= i < |checks| ==> StringPasses(checks[i], s, o)
  {
    if |checks| > 0 {
      StringIssuesEmpty(checks[1..], s, o);
      assert forall i :: 1 <= i < |checks| ==> checks[i] == checks[1..][i - 1];
    }
  }

  lemma {:induction false} NumberIssuesEmpty(checks: seq<NumberCheck>, n: int)
    ensures NumberIssues(checks, n) == [] <==> forall i :: 0 <= i < |checks| ==> NumberPasses(checks[i], n)
  {
    if |checks| > 0 {
      NumberIssuesEmpty(checks[1..], n);
      assert forall i :: 1 <= i < |checks| ==> checks[i] == checks[1..][i - 1];
    }
  }

  lemma {:induction false} ElementIssuesEmpty(items: seq<JsValue>)
    ensures ElementIssues(items) == [] <==> forall i :: 0 <= i < |items| ==> items[i].Str?
  {
    if |items| > 0 {
      ElementIssuesEmpty(items[1..]);
      assert forall i :: 1 <= i < |items| ==> items[i] == items[1..][i - 1];
    }
  }

  /** An object is accepted exactly when each field's schema accepts that field's value. */
  lemma {:induction false} FieldIssuesEmpty(fields: seq<Field>, props: map<string, JsValue>, o: Oracles)
    ensures FieldIssues(fields, props, o) == [] <==>
      forall i :: 0 <= i < |fields| ==> Accepts(fields[i].schema, Get(props, fields[i].name), o)
  {
    if |fields| > 0 {
      FieldIssuesEmpty(fields[1..], props, o);
      assert forall i :: 1 <= i < |fields| ==> fields[i] == fields[1..][i - 1];
    }
  }

  /** A field whose schema rejects its value contributes at least one issue tagged with its name. */
  lemma {:induction false} FieldIssuesTagged(fields: seq<Field>, props: map<string, JsValue>, o: Oracles, i: nat)
    requires i < |fields| && !Accepts(fields[i].schema, Get(props, fields[i].name), o)
    ensures exists j :: 0 <= j < |FieldIssues(fields, props, o)| && FieldIssues(fields, props, o)[j].0 == fields[i].name
  {
    var issues := FieldIssues(fields, props, o);
    var first := Tag(fields[0].name, Issues(fields[0].schema, Get(props, fields[0].name), o));
    assert issues == first + FieldIssues(fields[1..], props, o);
    if i == 0 {
      assert issues[0] == first[0];
    } else {
      assert fields[1..][i - 1] == fields[i];
      FieldIssuesTagged(fields[1..], props, o, i - 1);
      var j :| 0 <= j < |FieldIssues(fields[1..], props, o)| && FieldIssues(fields[1..], props, o)[j].0 == fields[i].name;
      assert issues[|first| + j] == FieldIssues(fields[1..], props, o)[j];
    }
  }

  /** `.optional()` admits `undefined` and otherwise defers to the inner schema. */
  lemma OptionalAccepts(inner: Schema, v: JsValue, o: Oracles)
    ensures Accepts(ZOptional(inner), v, o) <==> v == Undefined || Accepts(inner, v, o)
  {
  }

  lemma StringAccepts(checks: seq<StringCheck>, v: JsValue, o: Oracles)
    ensures Accepts(ZString(checks), v, o) <==>
      v.Str? && forall i :: 0 <= i < |checks| ==> StringPasses(checks[i], v.s, o)
  {
    if v.Str? {
      StringIssuesEmpty(checks, v.s, o);
    }
  }

  lemma NumberAccepts(checks: seq<NumberCheck>, v: JsValue, o: Oracles)
    ensures Accepts(ZNumber(checks), v, o) <==>
      v.Number? && forall i :: 0 <= i < |checks| ==> NumberPasses(checks[i], v.n)
  {
    if v.Number? {
      NumberIssuesEmpty(checks, v.n);
    }
  }

  lemma StringArrayAccepts(minItems: nat, minMessage: string, v: JsValue, o: Oracles)
    ensures Accepts(ZStringArray(minItems, minMessage), v, o) <==>
      v.Array? && |v.items| >= minItems && forall i :: 0 <= i < |v.items| ==> v.items[i].Str?
  {
    if v.Array? {
      ElementIssuesEmpty(v.items);
    }
  }
}
