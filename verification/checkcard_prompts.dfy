/**
 * The interactive side of the checkcard CLI: typed answers are turned into
 * booleans or lists, long inputs are cut for display, and the answers to a
 * checkcard's questions are collected into dicts. What the user types is a
 * parameter: `answers(i)` is the i-th line read.
 */
module CheckcardPrompts {
  import opened Wrappers
  import opened Strings
  import opened PyJson
  import opened Seqs

  /** `input(...).strip()`. */
  function Prompt(raw: string): string { PyStrip(raw) }

  /** `answer.lower() == "true"`, with ASCII case mapping. */
  predicate BoolAnswer(answer: string) { AsciiLower(answer) == "true" }

  /** The pieces of a split answer, stripped, with the empty ones dropped. */
  function KeepStripped(pieces: seq<string>): (r: seq<string>)
    ensures |r| <= |pieces|
    ensures forall i :: 0 <= i < |r| ==> r[i] != "" && PyStrip(r[i]) == r[i]
  {
    if |pieces| == 0 then []
    else
      var rest := KeepStripped(pieces[..|pieces| - 1]);
      var piece := PyStrip(pieces[|pieces| - 1]);
      TrimIdempotent(pieces[|pieces| - 1], IsPyWhitespace);
      if piece != "" then rest + [piece] else rest
  }

  /** `[x.strip() for x in answer.split(",") if x.strip()] if answer else []`. */
  function ListAnswer(answer: string): seq<string> {
    if answer == "" then [] else KeepStripped(Split(answer, ','))
  }

  /** How a display entry is configured: the input's key, an optional label and an optional length limit. */
  datatype DisplayConfig = DisplayConfig(key: string, caption: Option<string>, truncate: Option<int>)

  /** Python's `value[:n]`: a negative `n` counts from the end. */
  function PyPrefix(value: string, n: int): (r: string)
    ensures StartsWith(value, r)
  {
    if n >= |value| then value
    else if n >= 0 then value[..n]
    else if |value| + n >= 0 then value[..|value| + n]
    else ""
  }

  /** `value[:truncate] + "..."` when `truncate` is set, non-zero and smaller than the length. */
  function Truncate(value: string, truncate: Option<int>): string {
    if truncate.Some? && truncate.value != 0 && |value| > truncate.value then PyPrefix(value, truncate.value) + "..."
    else value
  }

  /**
   * One line of `display_inputs`: the label defaults to the key and a
   * missing value is the empty string. A string is cut as `Truncate` says.
   * Under a non-zero limit, a list or dict longer than the limit fails
   * (`value[:n] + "..."` raises), and so does any other value, which has no
   * `len`; otherwise the value is printed with `str`.
   */
  function DisplayLine(inputs: map<string, Json>, config: DisplayConfig): Outcome<string> {
    var shown := config.caption.GetOr(config.key);
    var value := GetOr(inputs, config.key, JStr(""));
    var head := "[INPUT] " + shown + ": ";
    if value.JStr? then Ok(head + Truncate(value.s, config.truncate))
    else if config.truncate.None? || config.truncate.value == 0 then Ok(head + PyStr(value))
    else if value.JList? && |value.items| <= config.truncate.value then Ok(head + PyStr(value))
    else if value.JObject? && |value.fields| <= config.truncate.value then Ok(head + PyStr(value))
    else Crash
  }

  /**
   * The lines printed, one per configuration entry in order, up to the
   * first entry whose value cannot be shown; `completed` says whether every
   * entry was printed.
   */
  method DisplayInputs(inputs: map<string, Json>, configs: seq<DisplayConfig>) returns (lines: seq<string>, completed: bool)
    ensures |lines| <= |configs|
    ensures forall i :: 0 <= i < |lines| ==> DisplayLine(inputs, configs[i]) == Ok(lines[i])
    ensures completed <==> |lines| == |configs|
    ensures !completed ==> DisplayLine(inputs, configs[|lines|]) == Crash
  {
    lines := [];
    var i := 0;
    while i < |configs|
      invariant i == |lines| <= |configs|
      invariant forall j :: 0 <= j < i ==> DisplayLine(inputs, configs[j]) == Ok(lines[j])
    {
      var config := configs[i];
      var shown := if config.caption.Some? then config.caption.value else config.key;
      var value := if config.key in inputs then inputs[config.key] else JStr("");
      var limited := config.truncate.Some? && config.truncate.value != 0;
      var text: string;
      if value.JStr? {
        text := value.s;
        if limited && |text| > config.truncate.value {
          text := PyPrefix(text, config.truncate.value) + "...";
        }
      } else if !limited {
        text := PyStr(value);
      } else if value.JList? && |value.items| <= config.truncate.value {
        text := PyStr(value);
      } else if value.JObject? && |value.fields| <= config.truncate.value {
        text := PyStr(value);
      } else {
        return lines, false;
      }
      lines := lines + ["[INPUT] " + shown + ": " + text];
      i := i + 1;
    }
    return lines, true;
  }

  /** An output question: the key it fills and the answer's type, "text" when absent. */
  datatype OutputField = OutputField(key: string, prompt: string, fieldType: Option<string>)

  datatype QuestionGroup = QuestionGroup(fields: seq<OutputField>)

  datatype ToolQuestion = ToolQuestion(key: string, prompt: string)

  /** The typed answer: a bool for "bool", a list of strings for "list", the text otherwise. */
  function Convert(fieldType: Option<string>, answer: string): Json {
    var kind := fieldType.GetOr("text");
    if kind == "bool" then JBool(BoolAnswer(answer))
    else if kind == "list" then JList(Strs(ListAnswer(answer)))
    else JStr(answer)
  }

  function Strs(xs: seq<string>): (r: seq<Json>)
    ensures |r| == |xs| && forall i :: 0 <= i < |xs| ==> r[i] == JStr(xs[i])
  {
    seq(|xs|, i requires 0 <= i < |xs| => JStr(xs[i]))
  }

  function GroupFields(g: QuestionGroup): seq<OutputField> { g.fields }

  /** Every question of every group, in the order they are asked. */
  function AllFields(groups: seq<QuestionGroup>): seq<OutputField> { FlatMap(groups, GroupFields) }

  /** The dict `collect_outputs` fills when question `i` is answered by `answers(i)`. */
  function Outputs(fields: seq<OutputField>, answers: nat -> string): map<string, Json> {
    if |fields| == 0 then map[]
    else
      var last := fields[|fields| - 1];
      Outputs(fields[..|fields| - 1], answers)[last.key := Convert(last.fieldType, Prompt(answers(|fields| - 1)))]
  }

  /** The type conversion step of `collect_outputs`. */
  method ConvertAnswer(fieldType: Option<string>, answer: string) returns (converted: Json)
    ensures converted == Convert(fieldType, answer)
  {
    var kind := if fieldType.Some? then fieldType.value else "text";
    if kind == "bool" {
      converted := JBool(AsciiLower(answer) == "true");
    } else if kind == "list" {
      converted := JList(Strs(ListAnswer(answer)));
    } else {
      converted := JStr(answer);
    }
  }

  /** Asks one question: its answer is the next line, converted by the question's type. */
  method AskOne(field: OutputField, answers: nat -> string, asked: seq<OutputField>, outputs: map<string, Json>)
    returns (asked': seq<OutputField>, outputs': map<string, Json>)
    requires outputs == Outputs(asked, answers)
    ensures asked' == asked + [field]
    ensures outputs' == Outputs(asked', answers)
  {
    var converted := ConvertAnswer(field.fieldType, Prompt(answers(|asked|)));
    outputs' := outputs[field.key := converted];
    InitOfSnoc(asked, field);
    asked' := asked + [field];
  }

  /** Asks the questions of one group in turn, continuing the answer count from the questions asked before. */
  method AskGroup(fields: seq<OutputField>, answers: nat -> string, asked: seq<OutputField>, outputs: map<string, Json>)
    returns (asked': seq<OutputField>, outputs': map<string, Json>)
    requires outputs == Outputs(asked, answers)
    ensures asked' == asked + fields
    ensures outputs' == Outputs(asked', answers)
  {
    asked', outputs' := asked, outputs;
    for k := 0 to |fields|
      invariant asked' == asked + fields[..k]
      invariant outputs' == Outputs(asked', answers)
    {
      TakeNext(fields, k);
      AppendAssoc(asked, fields[..k], [fields[k]]);
      asked', outputs' := AskOne(fields[k], answers, asked', outputs');
    }
    assert fields[..|fields|] == fields;
  }

  method CollectOutputs(groups: seq<QuestionGroup>, answers: nat -> string) returns (outputs: map<string, Json>)
    ensures outputs == Outputs(AllFields(groups), answers)
  {
    outputs := map[];
    var asked: seq<OutputField> := [];
    for g := 0 to |groups|
      invariant asked == AllFields(groups[..g])
      invariant outputs == Outputs(asked, answers)
    {
      asked, outputs := AskGroup(groups[g].fields, answers, asked, outputs);
      assert groups[..g + 1][..g] == groups[..g];
    }
    assert groups[..|groups|] == groups;
  }

  /** The dict `collect_tools` fills: every answer becomes a list. */
  function Tools(questions: seq<ToolQuestion>, answers: nat -> string): map<string, Json> {
    if |questions| == 0 then map[]
    else
      var last := questions[|questions| - 1];
      Tools(questions[..|questions| - 1], answers)[last.key := JList(Strs(ListAnswer(Prompt(answers(|questions| - 1)))))]
  }

  method CollectTools(questions: seq<ToolQuestion>, answers: nat -> string) returns (tools: map<string, Json>)
    ensures tools == Tools(questions, answers)
  {
    tools := map[];
    for i := 0 to |questions|
      invariant tools == Tools(questions[..i], answers)
    {
      var answer := Prompt(answers(i));
      ToolsStep(questions, answers, i);
      tools := tools[questions[i].key := JList(Strs(ListAnswer(answer)))];
    }
    assert questions[..|questions|] == questions;
  }

  /** One more question asked adds, or replaces, its key. */
  lemma ToolsStep(questions: seq<ToolQuestion>, answers: nat -> string, i: nat)
    requires i < |questions|
    ensures Tools(questions[..i + 1], answers) == Tools(questions[..i], answers)[questions[i].key := JList(Strs(ListAnswer(Prompt(answers(i)))))]
  {
    assert questions[..i + 1][..i] == questions[..i];
  }

  /** A "bool" answer is true exactly for the four letters of "true" in any mix of case. */
  lemma BoolAnswerMeaning(answer: string)
    ensures BoolAnswer(answer) <==>
      |answer| == 4 && answer[0] in "tT" && answer[1] in "rR" && answer[2] in "uU" && answer[3] in "eE"
  {
    var l := AsciiLower(answer);
    if |answer| == 4 {
      assert l == [l[0], l[1], l[2], l[3]];
    }
  }

  lemma {:induction false} KeepStrippedNoComma(pieces: seq<string>)
    requires forall i :: 0 <= i < |pieces| ==> ',' !in pieces[i]
    ensures forall i :: 0 <= i < |KeepStripped(pieces)| ==> ',' !in KeepStripped(pieces)[i]
  {
    if |pieces| > 0 {
      var last := pieces[|pieces| - 1];
      KeepStrippedNoComma(pieces[..|pieces| - 1]);
      var t := PyStrip(last);
      assert t == TrimEnd(TrimStart(last, IsPyWhitespace), IsPyWhitespace);
      assert ',' !in t;
    }
  }

  /** Every item of a "list" answer is non-empty, has no surrounding whitespace and holds no comma. */
  lemma ListAnswerItems(answer: string)
    ensures forall i :: 0 <= i < |ListAnswer(answer)| ==>
      var x := ListAnswer(answer)[i]; x != "" && PyStrip(x) == x && ',' !in x
  {
    if answer != "" {
      KeepStrippedNoComma(Split(answer, ','));
    }
  }

  lemma {:induction false} KeepStrippedOfStripped(pieces: seq<string>)
    requires forall i :: 0 <= i < |pieces| ==> pieces[i] != "" && PyStrip(pieces[i]) == pieces[i]
    ensures KeepStripped(pieces) == pieces
  {
    if |pieces| > 0 {
      var init, last := pieces[..|pieces| - 1], pieces[|pieces| - 1];
      assert forall i :: 0 <= i < |init| ==> init[i] == pieces[i];
      KeepStrippedOfStripped(init);
      assert PyStrip(last) == last && last != "";
      InitLast(pieces);
    }
  }

  /** Items of that kind, typed with commas between them, come back as the same list. */
  lemma ListAnswerOfJoin(xs: seq<string>)
    requires forall i :: 0 <= i < |xs| ==> xs[i] != "" && PyStrip(xs[i]) == xs[i] && ',' !in xs[i]
    ensures ListAnswer(Join(xs, ",")) == xs
  {
    if |xs| > 0 {
      SplitJoin(xs, ',');
      KeepStrippedOfStripped(xs);
      assert Join(xs, ",") != "" by {
        assert |Join(xs, ",")| > 0 by { JoinLength(xs, ","); }
      }
    }
  }

  lemma {:induction false} JoinLength(xs: seq<string>, sep: string)
    requires |xs| > 0 && xs[0] != ""
    ensures |Join(xs, sep)| >= |xs[0]|
  {
  }

  /** A value is cut, to its first `n` characters plus "...", only when a non-zero limit `n` is below its length. */
  lemma TruncateCases(value: string, truncate: Option<int>)
    ensures truncate.Some? && 0 < truncate.value < |value| ==>
      Truncate(value, truncate) == value[..truncate.value] + "..." && |Truncate(value, truncate)| == truncate.value + 3
    ensures truncate.None? || truncate.value == 0 || truncate.value >= |value| ==> Truncate(value, truncate) == value
    ensures truncate.Some? && truncate.value < 0 ==>
      Truncate(value, truncate) == value[..if |value| + truncate.value >= 0 then |value| + truncate.value else 0] + "..."
  {
  }

  /**
   * The label shown is the configured one, or the key; a key without an
   * input shows an empty value. A string value is always shown; any other
   * value fails exactly under a non-zero limit it has no length for or
   * exceeds, and is otherwise printed whole with `str`.
   */
  lemma DisplayLineParts(inputs: map<string, Json>, config: DisplayConfig)
    ensures var shown := if config.caption.Some? then config.caption.value else config.key;
      DisplayLine(inputs, config).Ok? ==> StartsWith(DisplayLine(inputs, config).value, "[INPUT] " + shown + ": ")
    ensures var shown := if config.caption.Some? then config.caption.value else config.key;
      config.key !in inputs && (config.truncate.None? || config.truncate.value >= 0) ==> DisplayLine(inputs, config) == Ok("[INPUT] " + shown + ": ")
    ensures var value := GetOr(inputs, config.key, JStr(""));
      DisplayLine(inputs, config).Crash? <==>
        !value.JStr? && config.truncate.Some? && config.truncate.value != 0
        && !(value.JList? && |value.items| <= config.truncate.value)
        && !(value.JObject? && |value.fields| <= config.truncate.value)
    ensures var value, shown := GetOr(inputs, config.key, JStr("")), if config.caption.Some? then config.caption.value else config.key;
      !value.JStr? && DisplayLine(inputs, config).Ok? ==> DisplayLine(inputs, config) == Ok("[INPUT] " + shown + ": " + PyStr(value))
  {
    var shown := if config.caption.Some? then config.caption.value else config.key;
    var head := "[INPUT] " + shown + ": ";
    var r := DisplayLine(inputs, config);
    if r.Ok? {
      var value := GetOr(inputs, config.key, JStr(""));
      var text := if value.JStr? then Truncate(value.s, config.truncate) else PyStr(value);
      assert r.value == head + text;
      assert r.value[..|head|] == head;
      if config.key !in inputs && (config.truncate.None? || config.truncate.value >= 0) {
        assert text == "";
        assert r.value == head;
      }
    }
  }

  /** The keys of the questions asked. */
  function FieldKeys(fields: seq<OutputField>): set<string> {
    set i | 0 <= i < |fields| :: fields[i].key
  }

  lemma FieldKeysSnoc(fields: seq<OutputField>)
    requires |fields| > 0
    ensures FieldKeys(fields) == FieldKeys(fields[..|fields| - 1]) + {fields[|fields| - 1].key}
  {
    var init := fields[..|fields| - 1];
    assert forall i :: 0 <= i < |init| ==> init[i] == fields[i];
    forall k | k in FieldKeys(fields)
      ensures k in FieldKeys(init) + {fields[|fields| - 1].key}
    {
      var i :| 0 <= i < |fields| && fields[i].key == k;
      if i < |init| {
        assert init[i].key == k;
      }
    }
  }

  /** The dict holds exactly the keys asked for. */
  lemma {:induction false} OutputsKeys(fields: seq<OutputField>, answers: nat -> string)
    ensures Outputs(fields, answers).Keys == FieldKeys(fields)
  {
    if |fields| > 0 {
      OutputsKeys(fields[..|fields| - 1], answers);
      FieldKeysSnoc(fields);
    }
  }

  /** When two questions share a key, the later answer wins. */
  lemma {:induction false} OutputsLastWins(fields: seq<OutputField>, answers: nat -> string, i: nat)
    requires i < |fields|
    requires forall j :: i < j < |fields| ==> fields[j].key != fields[i].key
    ensures fields[i].key in Outputs(fields, answers)
    ensures Outputs(fields, answers)[fields[i].key] == Convert(fields[i].fieldType, Prompt(answers(i)))
  {
    if i < |fields| - 1 {
      var init := fields[..|fields| - 1];
      assert init[i] == fields[i];
      OutputsLastWins(init, answers, i);
    }
  }

  function AsListField(q: ToolQuestion): OutputField { OutputField(q.key, q.prompt, Some("list")) }

  function AsListFields(questions: seq<ToolQuestion>): (r: seq<OutputField>)
    ensures |r| == |questions| && forall i :: 0 <= i < |questions| ==> r[i] == AsListField(questions[i])
  {
    seq(|questions|, i requires 0 <= i < |questions| => AsListField(questions[i]))
  }

  /** `collect_tools` is `collect_outputs` with every question of type "list". */
  lemma {:induction false} ToolsAreListOutputs(questions: seq<ToolQuestion>, answers: nat -> string)
    ensures Tools(questions, answers) == Outputs(AsListFields(questions), answers)
  {
    if |questions| > 0 {
      var init := questions[..|questions| - 1];
      ToolsAreListOutputs(init, answers);
      assert AsListFields(questions)[..|questions| - 1] == AsListFields(init);
    }
  }
}
