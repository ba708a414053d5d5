/**
 * Turning an agent's JSON answer into a full checkcard: the step's
 * definition supplies the top-level key and the metadata, the agent data
 * supplies tools, outputs and, for steps with an input phase, the inputs.
 * The step definitions are a parameter.
 */
module ProcessCheckcard {
  import opened Wrappers
  import opened Strings
  import opened PyJson

  const EmptyDict: Json := JObject(map[])

  /**
   * A full checkcard has one top-level key, the definition's
   * `checkcard_structure`. Python uses it as a dict key, so it is a
   * hashable JSON value: never a list or an object.
   */
  datatype FullCheckcard = FullCheckcard(key: Json, body: map<string, Json>)

  /** Whether Python can hash the value, as a dict key needs. */
  predicate Hashable(v: Json) { !v.JList? && !v.JObject? }

  /**
   * The checkcard `build_full_checkcard` returns, the exit for an unknown
   * step, or a crash where Python raises: a definition or metadata that is
   * not a dict, agent data that is not a dict, or an unhashable key.
   */
  function FullCheckcardOf(definitions: map<string, Json>, stepId: string, ai: Json): Outcome<FullCheckcard> {
    var definition := if stepId in definitions then definitions[stepId] else JNull;
    if !Truthy(definition) then Exit(2)
    else if !definition.JObject? then Crash
    else
      var d := definition.fields;
      var metadata := GetOr(d, "metadata", EmptyDict);
      if !metadata.JObject? || !ai.JObject? then Crash
      else
        var m, a := metadata.fields, ai.fields;
        var structure := GetOr(d, "checkcard_structure", JNull);
        if !Hashable(structure) then Crash
        else
          var base := map[
            "step_index" := GetOr(m, "step_index", JNull),
            "step_name" := GetOr(m, "step_name", JNull),
            "agent" := GetOr(d, "agent", JNull),
            "description" := GetOr(m, "description", JNull),
            "tools" := GetOr(a, "tools", EmptyDict),
            "outputs" := GetOr(a, "outputs", EmptyDict)];
          var withInputs := if Truthy(GetOr(d, "has_input_output", JNull)) && "inputs" in a then base["inputs" := a["inputs"]] else base;
          Ok(FullCheckcard(structure, withInputs))
  }

  method BuildFullCheckcard(definitions: map<string, Json>, stepId: string, ai: Json) returns (r: Outcome<FullCheckcard>)
    ensures r == FullCheckcardOf(definitions, stepId, ai)
  {
    var definition := JNull;
    if stepId in definitions {
      definition := definitions[stepId];
    }
    if !Truthy(definition) {
      return Exit(2);
    }
    if !definition.JObject? {
      return Crash;
    }
    var d := definition.fields;
    var metadata := if "metadata" in d then d["metadata"] else EmptyDict;
    var agent := if "agent" in d then d["agent"] else JNull;
    var structure := if "checkcard_structure" in d then d["checkcard_structure"] else JNull;
    if !metadata.JObject? || !ai.JObject? {
      return Crash;
    }
    var m, a := metadata.fields, ai.fields;
    var body: map<string, Json> := map[];
    body := body["step_index" := GetOr(m, "step_index", JNull)];
    body := body["step_name" := GetOr(m, "step_name", JNull)];
    body := body["agent" := agent];
    body := body["description" := GetOr(m, "description", JNull)];
    body := body["tools" := GetOr(a, "tools", EmptyDict)];
    body := body["outputs" := GetOr(a, "outputs", EmptyDict)];
    if structure.JList? || structure.JObject? {
      return Crash;
    }
    var hasInputOutput := if "has_input_output" in d then d["has_input_output"] else JNull;
    if Truthy(hasInputOutput) && "inputs" in a {
      body := body["inputs" := a["inputs"]];
    }
    return Ok(FullCheckcard(structure, body));
  }

  /** An unknown step, or one whose definition is empty, exits with code 2 before anything is built. */
  lemma UnknownStepExits(definitions: map<string, Json>, stepId: string, ai: Json)
    ensures FullCheckcardOf(definitions, stepId, ai) == Exit(2) <==> stepId !in definitions || !Truthy(definitions[stepId])
  {
  }

  /**
   * A known step crashes exactly when its definition or metadata is not a
   * dict, the agent data is not a dict, or its `checkcard_structure` is a
   * list or an object.
   */
  lemma CrashCases(definitions: map<string, Json>, stepId: string, ai: Json)
    requires stepId in definitions && Truthy(definitions[stepId])
    ensures FullCheckcardOf(definitions, stepId, ai) == Crash <==>
      !definitions[stepId].JObject?
      || !GetOr(definitions[stepId].fields, "metadata", EmptyDict).JObject?
      || !ai.JObject?
      || !Hashable(GetOr(definitions[stepId].fields, "checkcard_structure", JNull))
  {
  }

  /**
   * What the body holds: the metadata fields and the agent from the
   * definition, tools and outputs from the agent data or `{}`, and the
   * inputs exactly when the step has an input phase and the agent sent them.
   */
  lemma FullCheckcardContents(definitions: map<string, Json>, stepId: string, ai: Json)
    requires FullCheckcardOf(definitions, stepId, ai).Ok?
    ensures ai.JObject? && Hashable(FullCheckcardOf(definitions, stepId, ai).value.key)
    ensures var c, d, a := FullCheckcardOf(definitions, stepId, ai).value, definitions[stepId].fields, ai.fields;
      var m := GetOr(d, "metadata", EmptyDict).fields;
      c.key == GetOr(d, "checkcard_structure", JNull)
      && (forall k :: k in c.body <==>
            (k in {"step_index", "step_name", "agent", "description", "tools", "outputs"}
             || (k == "inputs" && Truthy(GetOr(d, "has_input_output", JNull)) && "inputs" in a)))
      && c.body["step_index"] == GetOr(m, "step_index", JNull)
      && c.body["step_name"] == GetOr(m, "step_name", JNull)
      && c.body["description"] == GetOr(m, "description", JNull)
      && c.body["agent"] == GetOr(d, "agent", JNull)
      && c.body["tools"] == (if "tools" in a then a["tools"] else EmptyDict)
      && c.body["outputs"] == (if "outputs" in a then a["outputs"] else EmptyDict)
      && ("inputs" in c.body ==> c.body["inputs"] == a["inputs"])
  {
  }

  /** The script needs exactly two arguments; the step id is upper-cased, ASCII letters only. */
  function ParseArgs(argv: seq<string>): (r: Outcome<string>)
    ensures r.Ok? <==> |argv| == 3
    ensures !r.Ok? ==> r == Exit(2)
    ensures r.Ok? ==> r.value == AsciiUpper(argv[1])
    ensures r.Ok? ==> |r.value| == |argv[1]| && forall i :: 0 <= i < |r.value| ==> !('a' <= r.value[i] <= 'z')
  {
    if |argv| != 3 then Exit(2) else Ok(AsciiUpper(argv[1]))
  }

  /** `chr(ord(step_id[0]) + 1) + "1"`; None where Python raises or produces a lone surrogate. */
  function NextStepLabel(stepId: string): (r: Option<string>)
    ensures r.Some? ==> |stepId| > 0 && |r.value| == 2 && r.value[1] == '1' && r.value[0] as int == stepId[0] as int + 1
    ensures r.None? <==> |stepId| == 0 || stepId[0] as int + 1 == 0xD800 || stepId[0] as int + 1 > 0x10FFFF
  {
    if |stepId| == 0 then None
    else
      var code := stepId[0] as int + 1;
      if code == 0xD800 || code > 0x10FFFF then None else Some([code as char, '1'])
  }

  /** The hint after a step of an upper-case letter below 'Z' names the next letter's first step. */
  lemma NextStepOfLetter(c: char, rest: string)
    requires 'A' <= c < 'Z'
    ensures NextStepLabel([c] + rest) == Some([(c as int + 1) as char, '1'])
  {
  }
}
