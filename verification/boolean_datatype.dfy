/** The boolean datatype of the generic form: a required box must be ticked. */
module BooleanDatatype {
  import opened Wrappers
  import opened JsValues
  import opened Zod

  datatype BooleanIcon = CheckSquareIcon

  const BooleanIconOf: BooleanIcon := CheckSquareIcon

  function GetBooleanSchema(required: bool): Schema {
    if required then ZBoolean(Some("Dieses Feld muss aktiviert sein"))
    else ZOptional(ZBoolean(None))
  }

  /** Required: only `true`. Optional: `true`, `false` or `undefined`. */
  lemma BooleanSchemaAccepts(required: bool, v: JsValue, o: Oracles)
    ensures Accepts(GetBooleanSchema(required), v, o) <==>
      if required then v == Bool(true) else v.Bool? || v == Undefined
  {
    if !required && v != Undefined {
      assert Issues(GetBooleanSchema(required), v, o) == Issues(ZBoolean(None), v, o);
    }
  }

  /** A required box left unticked reports the refinement's message, and one left unset a type error. */
  lemma RequiredBooleanIssues(o: Oracles)
    ensures Issues(GetBooleanSchema(true), Bool(false), o) == [CheckFailed(Some("Dieses Feld muss aktiviert sein"))]
    ensures Issues(GetBooleanSchema(true), Undefined, o) == [InvalidType]
  {
  }

  /** `Boolean(value)`. */
  function ParseBooleanValue(v: JsValue): (r: bool)
    ensures r <==> Truthy(v)
  {
    Truthy(v)
  }

  /** Converting and validating agree: the converted value always passes an optional boolean field. */
  lemma ParsedBooleanAccepted(v: JsValue, o: Oracles)
    ensures Accepts(GetBooleanSchema(false), Bool(ParseBooleanValue(v)), o)
    ensures Accepts(GetBooleanSchema(true), Bool(ParseBooleanValue(v)), o) <==> Truthy(v)
  {
  }
}
