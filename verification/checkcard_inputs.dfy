/**
 * Loading a step's inputs from an earlier step's checkcard: the checkcard
 * is looked up by step name, the sub-step's data is taken from it, and each
 * input is found by walking a dotted path through nested dicts. The files
 * on disk are a parameter: `checkcards` maps a step name to the parsed
 * content of its checkcard file.
 */
module CheckcardInputs {
  import opened Wrappers
  import opened Strings
  import opened PyJson
  import opened Seqs

  const Empty: Json := JObject(map[])

  /** `load_checkcard`: exit code 2 when the step has no checkcard file. */
  function LoadCheckcard(checkcards: map<string, Json>, step: Json): (r: Outcome<Json>)
    ensures r.Ok? <==> PyStr(step) in checkcards
    ensures r.Ok? ==> r.value == checkcards[PyStr(step)]
    ensures !r.Ok? ==> r == Exit(2)
  {
    var name := PyStr(step);
    if name in checkcards then Ok(checkcards[name]) else Exit(2)
  }

  /** One step of the walk: `value.get(part, {}) if isinstance(value, dict) else {}`. */
  function Step(value: Json, part: string): Json {
    if value.JObject? && part in value.fields then value.fields[part] else Empty
  }

  /** The value a path leads to, the parts taken from the front. */
  function Walk(value: Json, parts: seq<string>): Json
    decreases |parts|
  {
    if |parts| == 0 then value else Walk(Step(value, parts[0]), parts[1..])
  }

  method WalkPath(source: Json, path: string) returns (value: Json)
    ensures value == Walk(source, Split(path, '.'))
  {
    var parts := Split(path, '.');
    value := source;
    for i := 0 to |parts|
      invariant Walk(value, parts[i..]) == Walk(source, parts)
    {
      assert parts[i..][1..] == parts[i + 1..];
      value := Step(value, parts[i]);
    }
  }

  /** What an input definition names: the source step, its sub-step and the `key -> dotted path` mappings in order. */
  datatype InputDefinition = InputDefinition(sourceStep: Json, sourceSub: Json, mappings: seq<(string, string)>)

  /** `source_checkcard.get(source_sub, {})`: only a dict has `get`, and only a hashable key can be looked up. */
  function SourceData(checkcard: Json, sub: Json): Outcome<Json> {
    if !checkcard.JObject? || sub.JList? || sub.JObject? then Crash
    else if sub.JStr? && sub.s in checkcard.fields then Ok(checkcard.fields[sub.s])
    else Ok(Empty)
  }

  /** The inputs the first mappings give, or the exit the first empty one causes. */
  function Collected(source: Json, mappings: seq<(string, string)>): Outcome<map<string, Json>>
  {
    if |mappings| == 0 then Ok(map[])
    else
      var before := Collected(source, mappings[..|mappings| - 1]);
      var (key, path) := mappings[|mappings| - 1];
      var value := Walk(source, Split(path, '.'));
      if !before.Ok? then before
      else if !Truthy(value) then Exit(3)
      else Ok(before.value[key := value])
  }

  /** The result of `load_inputs`. */
  function Inputs(checkcards: map<string, Json>, def: InputDefinition): Outcome<map<string, Json>> {
    var checkcard := LoadCheckcard(checkcards, def.sourceStep);
    if !checkcard.Ok? then Exit(2)
    else
      var data := SourceData(checkcard.value, def.sourceSub);
      if !data.Ok? then Crash
      else if !Truthy(data.value) then Exit(3)
      else Collected(data.value, def.mappings)
  }

  method LoadInputs(checkcards: map<string, Json>, def: InputDefinition) returns (r: Outcome<map<string, Json>>)
    ensures r == Inputs(checkcards, def)
  {
    var name := PyStr(def.sourceStep);
    if name !in checkcards {
      return Exit(2);
    }
    var checkcard := checkcards[name];
    if !checkcard.JObject? || def.sourceSub.JList? || def.sourceSub.JObject? {
      return Crash;
    }
    var source := Empty;
    if def.sourceSub.JStr? && def.sourceSub.s in checkcard.fields {
      source := checkcard.fields[def.sourceSub.s];
    }
    if !Truthy(source) {
      return Exit(3);
    }
    var inputs: map<string, Json> := map[];
    for i := 0 to |def.mappings|
      invariant Collected(source, def.mappings[..i]) == Ok(inputs)
    {
      var (key, path) := def.mappings[i];
      TakeNext(def.mappings, i);
      assert def.mappings[..i + 1][..i] == def.mappings[..i];
      var value := WalkPath(source, path);
      if !Truthy(value) {
        FirstExitStays(source, def.mappings, i + 1);
        return Exit(3);
      }
      inputs := inputs[key := value];
    }
    assert def.mappings[..|def.mappings|] == def.mappings;
    return Ok(inputs);
  }

  /** Once a mapping has caused the exit, the later ones change nothing. */
  lemma {:induction false} FirstExitStays(source: Json, mappings: seq<(string, string)>, n: nat)
    requires n <= |mappings|
    requires Collected(source, mappings[..n]) == Exit(3)
    ensures Collected(source, mappings) == Exit(3)
  {
    if n < |mappings| {
      var init := mappings[..|mappings| - 1];
      assert init[..n] == mappings[..n];
      FirstExitStays(source, init, n);
    } else {
      assert mappings[..n] == mappings;
    }
  }

  /** Walking on from the empty dict stays at the empty dict. */
  lemma {:induction false} WalkFromEmpty(parts: seq<string>)
    ensures Walk(Empty, parts) == Empty
    decreases |parts|
  {
    if |parts| > 0 {
      WalkFromEmpty(parts[1..]);
    }
  }

  /** A walk along `a + b` is a walk along `a` and then along `b`. */
  lemma {:induction false} WalkAppend(value: Json, a: seq<string>, b: seq<string>)
    ensures Walk(value, a + b) == Walk(Walk(value, a), b)
    decreases |a|
  {
    if |a| == 0 {
      assert a + b == b;
    } else {
      assert (a + b)[0] == a[0];
      assert (a + b)[1..] == a[1..] + b;
      WalkAppend(Step(value, a[0]), a[1..], b);
    }
  }

  /** A part that is missing, or a value along the way that is not a dict, leads to the empty dict. */
  lemma WalkDeadEnd(value: Json, parts: seq<string>, i: nat)
    requires i < |parts|
    requires var reached := Walk(value, parts[..i]); !reached.JObject? || parts[i] !in reached.fields
    ensures Walk(value, parts) == Empty
  {
    assert parts == parts[..i] + parts[i..];
    WalkAppend(value, parts[..i], parts[i..]);
    WalkFromEmpty(parts[i + 1..]);
  }

  /** Every input loaded is truthy, and the keys are exactly the mapped keys. */
  lemma {:induction false} CollectedValues(source: Json, mappings: seq<(string, string)>, key: string)
    requires Collected(source, mappings).Ok?
    ensures key in Collected(source, mappings).value ==> Truthy(Collected(source, mappings).value[key])
    ensures key in Collected(source, mappings).value <==> exists i :: 0 <= i < |mappings| && mappings[i].0 == key
  {
    if |mappings| > 0 {
      var init := mappings[..|mappings| - 1];
      CollectedValues(source, init, key);
      if exists i :: 0 <= i < |init| && init[i].0 == key {
        var i :| 0 <= i < |init| && init[i].0 == key;
        assert mappings[i].0 == key;
      }
      if exists i :: 0 <= i < |mappings| - 1 && mappings[i].0 == key {
        var i :| 0 <= i < |mappings| - 1 && mappings[i].0 == key;
        assert init[i].0 == key;
      }
    }
  }

  /** Each mapping's key holds the value its path leads to, when no later mapping reuses the key. */
  lemma {:induction false} CollectedLookup(source: Json, mappings: seq<(string, string)>, i: nat)
    requires Collected(source, mappings).Ok?
    requires i < |mappings|
    requires forall j :: i < j < |mappings| ==> mappings[j].0 != mappings[i].0
    ensures mappings[i].0 in Collected(source, mappings).value
    ensures Collected(source, mappings).value[mappings[i].0] == Walk(source, Split(mappings[i].1, '.'))
  {
    if i < |mappings| - 1 {
      var init := mappings[..|mappings| - 1];
      assert init[i] == mappings[i];
      CollectedLookup(source, init, i);
    }
  }

  /** The run ends with exit code 3 exactly when the source data is empty or some path leads to an empty value. */
  lemma {:induction false} CollectedExit(source: Json, mappings: seq<(string, string)>)
    ensures Collected(source, mappings).Ok? || Collected(source, mappings) == Exit(3)
    ensures Collected(source, mappings) == Exit(3) <==>
      exists i :: 0 <= i < |mappings| && !Truthy(Walk(source, Split(mappings[i].1, '.')))
  {
    if |mappings| > 0 {
      var init := mappings[..|mappings| - 1];
      CollectedExit(source, init);
      if exists i :: 0 <= i < |init| && !Truthy(Walk(source, Split(init[i].1, '.'))) {
        var i :| 0 <= i < |init| && !Truthy(Walk(source, Split(init[i].1, '.')));
        assert mappings[i] == init[i];
      }
      if exists i :: 0 <= i < |mappings| && !Truthy(Walk(source, Split(mappings[i].1, '.'))) {
        var i :| 0 <= i < |mappings| && !Truthy(Walk(source, Split(mappings[i].1, '.')));
        if i < |init| {
          assert mappings[i] == init[i];
        }
      }
    }
  }

  /** Exit code 2 exactly when the step has no checkcard; crashes only on a malformed checkcard or sub-step name. */
  lemma InputsOutcome(checkcards: map<string, Json>, def: InputDefinition)
    ensures Inputs(checkcards, def) == Exit(2) <==> PyStr(def.sourceStep) !in checkcards
    ensures Inputs(checkcards, def) == Crash <==>
      PyStr(def.sourceStep) in checkcards
      && (!checkcards[PyStr(def.sourceStep)].JObject? || def.sourceSub.JList? || def.sourceSub.JObject?)
  {
    var checkcard := LoadCheckcard(checkcards, def.sourceStep);
    if checkcard.Ok? {
      var data := SourceData(checkcard.value, def.sourceSub);
      if data.Ok? && Truthy(data.value) {
        CollectedExit(data.value, def.mappings);
      }
    }
  }
}
