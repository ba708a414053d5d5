/**
 * Validation of a task list an agent hands back to the checkcard CLI:
 * every element must be a dict with the five required fields of the right
 * types; errors are collected with a per-task prefix, and the result is
 * either every task normalised or no task at all.
 */
module CheckcardTasks {
  import opened Wrappers
  import opened Strings
  import opened PyJson
  import opened Seqs

  type Task = map<string, Json>

  const RequiredFields: seq<string> := ["task_id", "description", "is_parallel", "dependencies", "mvp"]

  const NotAListError := "Tasks must be a JSON array (list)"
  const EmptyListError := "Tasks list cannot be empty"
  const DepsShapeError := "Field 'dependencies': must be null or string array"
  const DepsItemError := "Field 'dependencies': all items must be strings"

  datatype ValidationResult = ValidationResult(isValid: bool, errors: seq<string>, tasks: Option<seq<Task>>)

  /** The type each required field must have: `str`, `bool`, or None-or-`list` for the dependencies. */
  predicate HasExpectedType(field: string, v: Json) {
    if field == "is_parallel" || field == "mvp" then v.JBool?
    else if field == "dependencies" then v.JNull? || v.JList?
    else v.JStr?
  }

  /** How Python prints the expected type: a class, or a tuple of classes. */
  function ExpectedTypeText(field: string): string {
    if field == "is_parallel" || field == "mvp" then "<class 'bool'>"
    else if field == "dependencies" then "(<class 'NoneType'>, <class 'list'>)"
    else "<class 'str'>"
  }

  function MissingError(field: string): string { "Missing required field: " + field }

  function TypeError(field: string, v: Json): string {
    "Field '" + field + "': expected " + ExpectedTypeText(field) + ", got " + TypeName(v)
  }

  predicate AllStrings(items: seq<Json>) { forall i :: 0 <= i < |items| ==> items[i].JStr? }

  /** The dependency-specific checks: the shape error for a non-null non-list, one item error for a list with a non-string. */
  function DependencyErrors(v: Json): seq<string> {
    if !v.JNull? && !v.JList? then [DepsShapeError]
    else if v.JList? && !AllStrings(v.items) then [DepsItemError]
    else []
  }

  /** The errors one required field contributes. */
  function FieldErrors(task: Task, field: string): seq<string> {
    if field !in task then [MissingError(field)]
    else
      var value := task[field];
      (if HasExpectedType(field, value) then [] else [TypeError(field, value)])
      + (if field == "dependencies" then DependencyErrors(value) else [])
  }

  /** The errors of the given fields, in order. */
  function FieldsErrors(task: Task, fields: seq<string>): seq<string> {
    FlatMap(fields, FieldErrorsOf(task))
  }

  function FieldErrorsOf(task: Task): string -> seq<string> {
    field => FieldErrors(task, field)
  }

  function TaskErrors(task: Task): seq<string> { FieldsErrors(task, RequiredFields) }

  /** The required fields a task holds, with their values. */
  function PresentFields(task: Task, fields: seq<string>): Task {
    if |fields| == 0 then map[]
    else
      var last := fields[|fields| - 1];
      var rest := PresentFields(task, fields[..|fields| - 1]);
      if last in task then rest[last := task[last]] else rest
  }

  /** The copy holds exactly the listed fields present, with their values. */
  lemma {:induction false} PresentFieldsContents(task: Task, fields: seq<string>)
    ensures forall f :: f in PresentFields(task, fields) <==> f in fields && f in task
    ensures forall f :: f in PresentFields(task, fields) ==> PresentFields(task, fields)[f] == task[f]
  {
    if |fields| > 0 {
      var init := fields[..|fields| - 1];
      PresentFieldsContents(task, init);
      assert fields == init + [fields[|fields| - 1]];
    }
  }

  /** The normalised task: the required fields, and `phase` and `status` forced to "pending". */
  function ValidatedTask(task: Task): Task {
    PresentFields(task, RequiredFields)["phase" := JStr("pending")]["status" := JStr("pending")]
  }

  /** `task.get('task_id', 'UNKNOWN')` as printed. */
  function TaskLabel(task: Task): string {
    if "task_id" in task then PyStr(task["task_id"]) else "UNKNOWN"
  }

  function Prefix(idx: nat, taskLabel: string): string {
    "Task " + NatToString(idx) + " (" + taskLabel + "): "
  }

  function PrefixAll(prefix: string, errs: seq<string>): (r: seq<string>)
    ensures |r| == |errs|
    ensures forall i :: 0 <= i < |r| ==> r[i] == prefix + errs[i]
  {
    seq(|errs|, i requires 0 <= i < |errs| => prefix + errs[i])
  }

  function NotADictError(idx: nat, v: Json): string {
    "Task " + NatToString(idx) + ": Must be an object/dict, got " + TypeName(v)
  }

  /** The errors the element at position `idx` contributes. */
  function ElementErrors(idx: nat, v: Json): seq<string> {
    if !v.JObject? then [NotADictError(idx, v)]
    else PrefixAll(Prefix(idx, TaskLabel(v.fields)), TaskErrors(v.fields))
  }

  /** The errors of the first `n` elements. */
  function ErrorsUpTo(items: seq<Json>, n: nat): seq<string>
    requires n <= |items|
  {
    FlatMapUpTo(items, n, ElementErrors)
  }

  /** Every required field present and typed, and the dependencies, when a list, strings only. */
  predicate TaskOk(task: Task) {
    (forall f :: f in RequiredFields ==> f in task && HasExpectedType(f, task[f]))
    && ("dependencies" in task && task["dependencies"].JList? ==> AllStrings(task["dependencies"].items))
  }

  /** An element that passes: a dict whose task checks find nothing. */
  predicate Clean(v: Json) { v.JObject? && TaskOk(v.fields) }

  /** The normalised tasks among the first `n` elements. */
  function ValidTasksUpTo(items: seq<Json>, n: nat): seq<Task>
    requires n <= |items|
  {
    if n == 0 then []
    else ValidTasksUpTo(items, n - 1) + (if Clean(items[n - 1]) then [ValidatedTask(items[n - 1].fields)] else [])
  }

  /** The result `validate_task_json` returns for an already parsed document. */
  function Validation(data: Json): (r: ValidationResult)
    ensures r.isValid <==> r.errors == []
    ensures r.tasks.Some? <==> r.isValid
    ensures !data.JList? ==> r.errors == [NotAListError]
    ensures data.JList? && data.items == [] ==> r.errors == [EmptyListError]
  {
    if !data.JList? then ValidationResult(false, [NotAListError], None)
    else if |data.items| == 0 then ValidationResult(false, [EmptyListError], None)
    else
      var errors := ErrorsUpTo(data.items, |data.items|);
      if errors != [] then ValidationResult(false, errors, None)
      else ValidationResult(true, [], Some(ValidTasksUpTo(data.items, |data.items|)))
  }

  /** The checks of one required field, as the inner loop of `validate_task_json` runs them. */
  method CheckField(fields: Task, field: string) returns (errs: seq<string>)
    ensures errs == FieldErrors(fields, field)
  {
    if field !in fields {
      return [MissingError(field)];
    }
    var value := fields[field];
    errs := [];
    if !HasExpectedType(field, value) {
      errs := errs + [TypeError(field, value)];
    }
    if field == "dependencies" {
      if !value.JNull? && !value.JList? {
        errs := errs + [DepsShapeError];
      } else if value.JList? {
        var typed := errs;
        var j := 0;
        while j < |value.items|
          invariant 0 <= j <= |value.items|
          invariant errs == typed
          invariant forall i :: 0 <= i < j ==> value.items[i].JStr?
        {
          if !value.items[j].JStr? {
            errs := errs + [DepsItemError];
            break;
          }
          j := j + 1;
        }
      }
    }
  }

  /** Checks every required field of one dict, collecting its errors and its normalised copy. */
  method CheckTask(fields: Task) returns (errs: seq<string>, validated: Task)
    ensures errs == TaskErrors(fields)
    ensures validated == ValidatedTask(fields)
  {
    errs := [];
    validated := map[];
    for k := 0 to |RequiredFields|
      invariant errs == FieldsErrors(fields, RequiredFields[..k])
      invariant validated == PresentFields(fields, RequiredFields[..k])
    {
      var field := RequiredFields[k];
      assert RequiredFields[..k + 1][..k] == RequiredFields[..k];
      var fieldErrs := CheckField(fields, field);
      errs := errs + fieldErrs;
      if field in fields {
        validated := validated[field := fields[field]];
      }
    }
    assert RequiredFields[..|RequiredFields|] == RequiredFields;
    validated := validated["phase" := JStr("pending")]["status" := JStr("pending")];
  }

  /** Appends each of a task's errors, with its task prefix, to the list collected so far. */
  method AppendPrefixed(errors: seq<string>, prefix: string, taskErrors: seq<string>) returns (r: seq<string>)
    ensures r == errors + PrefixAll(prefix, taskErrors)
  {
    r := errors;
    for e := 0 to |taskErrors|
      invariant r == errors + PrefixAll(prefix, taskErrors[..e])
    {
      assert taskErrors[..e + 1] == taskErrors[..e] + [taskErrors[e]];
      r := r + [prefix + taskErrors[e]];
    }
    assert taskErrors[..|taskErrors|] == taskErrors;
  }

  method ValidateTaskJson(data: Json) returns (r: ValidationResult)
    ensures r == Validation(data)
  {
    if !data.JList? {
      return ValidationResult(false, [NotAListError], None);
    }
    var tasks := data.items;
    if |tasks| == 0 {
      return ValidationResult(false, [EmptyListError], None);
    }
    var errors: seq<string> := [];
    var validated: seq<Task> := [];
    for idx := 0 to |tasks|
      invariant errors == ErrorsUpTo(tasks, idx)
      invariant validated == ValidTasksUpTo(tasks, idx)
    {
      var task := tasks[idx];
      if !task.JObject? {
        errors := errors + [NotADictError(idx, task)];
        continue;
      }
      var taskErrors, validatedTask := CheckTask(task.fields);
      TaskErrorsEmpty(task.fields);
      if |taskErrors| > 0 {
        errors := AppendPrefixed(errors, Prefix(idx, TaskLabel(task.fields)), taskErrors);
      } else {
        validated := validated + [validatedTask];
      }
    }
    if |errors| > 0 {
      return ValidationResult(false, errors, None);
    }
    return ValidationResult(true, [], Some(validated));
  }

  /** The dependency rules: null or a list of strings passes; the first non-string item adds one error; anything else adds a type error and the shape error. */
  lemma DependencyCases(task: Task)
    requires "dependencies" in task
    ensures var v, errs := task["dependencies"], FieldErrors(task, "dependencies");
      (errs == [] <==> v.JNull? || (v.JList? && AllStrings(v.items)))
      && (v.JList? && !AllStrings(v.items) ==> errs == [DepsItemError])
      && (!v.JNull? && !v.JList? ==> errs == [TypeError("dependencies", v), DepsShapeError])
  {
  }

  /** A missing field adds exactly its missing-field error; a present field of another kind adds at most its type error. */
  lemma FieldErrorCases(task: Task, field: string)
    ensures field !in task ==> FieldErrors(task, field) == [MissingError(field)]
    ensures field in task && field != "dependencies" ==>
      FieldErrors(task, field) == if HasExpectedType(field, task[field]) then [] else [TypeError(field, task[field])]
  {
  }

  /** A required field that is absent or of the wrong type is reported. */
  lemma MissingOrMistypedReported(task: Task, field: string)
    requires field in RequiredFields
    ensures field !in task ==> MissingError(field) in TaskErrors(task)
    ensures field in task && !HasExpectedType(field, task[field]) ==> TypeError(field, task[field]) in TaskErrors(task)
  {
    var i :| 0 <= i < |RequiredFields| && RequiredFields[i] == field;
    if field !in task {
      FlatMapMember(RequiredFields, FieldErrorsOf(task), i, MissingError(field));
    } else if !HasExpectedType(field, task[field]) {
      FlatMapMember(RequiredFields, FieldErrorsOf(task), i, TypeError(field, task[field]));
    }
  }

  /** A task has no errors exactly when every required field is present and typed, and its dependencies are null or strings only. */
  lemma TaskErrorsEmpty(task: Task)
    ensures TaskErrors(task) == [] <==> TaskOk(task)
  {
    FlatMapEmpty(RequiredFields, FieldErrorsOf(task));
    assert RequiredFields[3] == "dependencies";
    if TaskErrors(task) == [] {
      forall f | f in RequiredFields
        ensures f in task && HasExpectedType(f, task[f])
      {
        var i :| 0 <= i < |RequiredFields| && RequiredFields[i] == f;
        assert FieldErrors(task, RequiredFields[i]) == [];
      }
    }
  }

  /** A validated task holds the required fields the input has, with their values, plus phase and status set to "pending"; all other keys are dropped. */
  lemma ValidatedTaskShape(task: Task)
    ensures var t := ValidatedTask(task);
      t["phase"] == JStr("pending") && t["status"] == JStr("pending")
      && (forall k :: k in t <==> k == "phase" || k == "status" || (k in RequiredFields && k in task))
      && (forall k :: k in RequiredFields && k in task ==> t[k] == task[k])
  {
    assert "phase" !in RequiredFields && "status" !in RequiredFields;
    PresentFieldsContents(task, RequiredFields);
  }

  /** A task without errors validates to exactly seven keys. */
  lemma CleanTaskKeys(task: Task)
    requires TaskOk(task)
    ensures ValidatedTask(task).Keys == {"task_id", "description", "is_parallel", "dependencies", "mvp", "phase", "status"}
  {
    ValidatedTaskShape(task);
  }

  /** An element contributes no error exactly when it is a dict without task errors. */
  lemma ElementErrorsEmpty(idx: nat, v: Json)
    ensures ElementErrors(idx, v) == [] <==> Clean(v)
  {
    if v.JObject? {
      TaskErrorsEmpty(v.fields);
    }
  }

  /** A non-dict element adds one error; a dict's errors each carry its task prefix. */
  lemma ElementErrorsPrefixed(idx: nat, v: Json)
    ensures !v.JObject? ==> ElementErrors(idx, v) == [NotADictError(idx, v)]
    ensures v.JObject? ==> forall e :: e in ElementErrors(idx, v) ==> StartsWith(e, Prefix(idx, TaskLabel(v.fields)))
    ensures v.JObject? ==> |ElementErrors(idx, v)| == |TaskErrors(v.fields)|
  {
    if v.JObject? {
      var p := Prefix(idx, TaskLabel(v.fields));
      forall e | e in ElementErrors(idx, v)
        ensures StartsWith(e, p)
      {
        var i :| 0 <= i < |ElementErrors(idx, v)| && ElementErrors(idx, v)[i] == e;
        assert e == p + TaskErrors(v.fields)[i];
        assert e[..|p|] == p;
      }
    }
  }

  /** The errors of element `j` appear, in order, right after those of the elements before it: a bad element never stops the check. */
  lemma ErrorsInPlace(items: seq<Json>, j: nat)
    requires j < |items|
    ensures var before, upto, all := ErrorsUpTo(items, j), ErrorsUpTo(items, j + 1), ErrorsUpTo(items, |items|);
      |before| <= |upto| <= |all| && all[|before|..|upto|] == ElementErrors(j, items[j])
  {
    FlatMapUpToPrefix(items, j + 1, |items|, ElementErrors);
    var before, upto, all := ErrorsUpTo(items, j), ErrorsUpTo(items, j + 1), ErrorsUpTo(items, |items|);
    assert upto == before + ElementErrors(j, items[j]);
    assert all[|before|..|upto|] == upto[|before|..];
  }

  /** When every element is clean, the validated tasks match the elements one to one, in order. */
  lemma {:induction false} ValidTasksOneToOne(items: seq<Json>, n: nat)
    requires n <= |items|
    requires forall i :: 0 <= i < n ==> Clean(items[i])
    ensures |ValidTasksUpTo(items, n)| == n
    ensures forall i :: 0 <= i < n ==> items[i].JObject? && ValidTasksUpTo(items, n)[i] == ValidatedTask(items[i].fields)
  {
    if n > 0 {
      ValidTasksOneToOne(items, n - 1);
    }
  }

  /** The document is valid exactly when it is a non-empty list of dicts without task errors, and then every element is normalised in order. */
  lemma ValidationMeaning(data: Json)
    ensures Validation(data).isValid <==>
      data.JList? && |data.items| > 0 && forall i :: 0 <= i < |data.items| ==> Clean(data.items[i])
    ensures Validation(data).isValid ==>
      |Validation(data).tasks.value| == |data.items|
      && forall i :: 0 <= i < |data.items| ==> Validation(data).tasks.value[i] == ValidatedTask(data.items[i].fields)
  {
    if data.JList? {
      FlatMapUpToEmpty(data.items, |data.items|, ElementErrors);
      forall i | 0 <= i < |data.items|
        ensures ElementErrors(i, data.items[i]) == [] <==> Clean(data.items[i])
      {
        ElementErrorsEmpty(i, data.items[i]);
      }
      if forall i :: 0 <= i < |data.items| ==> Clean(data.items[i]) {
        ValidTasksOneToOne(data.items, |data.items|);
      }
    }
  }
}
