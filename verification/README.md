# A verified model of the website's form, navigation and checkcard logic

The repository is a company website (React and TypeScript) together with a
small checkcard workflow written as Python scripts. This project models the
parts of both that carry rules of their own and proves what those rules
promise:

- **Checkcard workflow.** `validate_task_json` checks a parsed task list.
  The prompt helpers convert typed answers and truncate long input
  values. `load_inputs` walks dotted paths through an earlier step's
  checkcard. `build_full_checkcard` assembles the record written for a
  step. `main` checks its arguments and prints the next step's label.
- **Duplicate-submission store.** A 32-bit string hash gives a storage key
  for the normalised e-mail address. Over the local-storage map there are
  three operations: check, record and clean up, all with a 24-hour window.
- **Validators.** The CV file check, the contact and job-application
  schemas, and the schema builders for date, number, text, choice and
  boolean fields.
- **Form helpers.**
  - the multi-option checkbox toggle;
  - the invoice grid, filled in place, and its schema record;
  - input type, suffix, icon and status styling in the unified form field;
  - the combobox label lookup and its select handler.
- **UI state.**
  - the testimonial slider, the image gallery and the product sheet's tabs;
  - the PDF toolbar's page jump and zoom clamp;
  - the theme hook;
  - the bottom-sheet hook;
  - the contact form's submission flow.
- **Pure display rules.**
  - anchor configuration guards and the breakpoint media queries;
  - active-link matching;
  - project gallery order and limit;
  - hero variants and the hero button dispatch;
  - team member order, initials and social buttons.

Pure code is written as datatypes, functions and lemmas. Code that updates
state step by step is written as methods with loops and invariants. Objects
and hooks whose fields change become classes, and each of their methods is
proved against a specification function.

JavaScript values are modelled by the `JsValues.JsValue` datatype: numbers
are integers plus NaN. Python JSON values are modelled by `PyJson.Json`.
The shared modules model the runtime's own operations:

- `Strings`:
  - JavaScript `trim`, Python `strip`, `split` and `join`;
  - ASCII case mapping;
  - the UTF-16 length;
  - decimal rendering;
  - JavaScript `parseInt`, including its `0x` prefix.
- `Sorting`: the stable `Array.prototype.sort` by a numeric key.
- `Zod`: the schema library as far as the schemas use it. Its e-mail and
  URL checks are passed in as predicates.

The clock, local storage, the prompt answers, the step definitions and the
checkcard files are all parameters or fields.

## Model

| member | source | states |
|---|---|---|
| CheckcardTasks.Validation | workflow/scripts/checkcard-cli.py:34-109 | The result is valid exactly when there are no errors, and tasks are returned only then. A non-list gives the single "must be a JSON array" error and an empty list the single "cannot be empty" error. |
| CheckcardTasks.ValidateTaskJson | workflow/scripts/checkcard-cli.py:34-109 | The loop over elements and fields returns exactly the result specified by `Validation`. |
| CheckcardTasks.CheckField | workflow/scripts/checkcard-cli.py:73-96 | The inner per-field loop collects exactly the errors the field specification gives. |
| CheckcardTasks.CheckTask | workflow/scripts/checkcard-cli.py:70-98 | Checking one dict gives its task errors and its normalised copy. |
| CheckcardTasks.AppendPrefixed | workflow/scripts/checkcard-cli.py:100-102 | A task's errors are appended, each with its task prefix, after those collected so far. |
| CheckcardTasks.ValidationMeaning | workflow/scripts/checkcard-cli.py:56-109 | The document is valid exactly when it is a non-empty list of dicts without task errors. Then the returned tasks are the normalised elements, one to one and in order. |
| CheckcardTasks.DependencyCases | workflow/scripts/checkcard-cli.py:81-92 | `null` or a list of strings passes. The first non-string item adds exactly one error. Any other value adds a type error and the "null or string array" error. |
| CheckcardTasks.FieldErrorCases | workflow/scripts/checkcard-cli.py:73-82 | A missing field adds exactly its missing-field error. A present non-dependency field adds at most its type error. |
| CheckcardTasks.MissingOrMistypedReported | workflow/scripts/checkcard-cli.py:73-82 | A required field that is absent, or of the wrong type, is reported. |
| CheckcardTasks.TaskErrorsEmpty | workflow/scripts/checkcard-cli.py:70-96 | A task has no errors exactly when every required field is present and typed and its dependencies are null or strings only. |
| CheckcardTasks.PresentFieldsContents | workflow/scripts/checkcard-cli.py:94 | The copy holds exactly the required fields present, with their values. |
| CheckcardTasks.ValidatedTaskShape | workflow/scripts/checkcard-cli.py:19-31 | A validated task keeps the required fields it has, with their values. `phase` and `status` are "pending" whatever the input held, and other keys are dropped. |
| CheckcardTasks.CleanTaskKeys | workflow/scripts/checkcard-cli.py:19-31 | A task without errors has exactly the seven keys `task_id`, `description`, `is_parallel`, `dependencies`, `mvp`, `phase` and `status`. |
| CheckcardTasks.ElementErrorsEmpty | workflow/scripts/checkcard-cli.py:62-104 | An element adds no error exactly when it is a dict without task errors. |
| CheckcardTasks.ElementErrorsPrefixed | workflow/scripts/checkcard-cli.py:64-67 | A non-dict element adds one error. Every error of a dict starts with "Task {idx} ({task_id or UNKNOWN}): ". |
| CheckcardTasks.ErrorsInPlace | workflow/scripts/checkcard-cli.py:62-104 | Each element's errors follow those of the elements before it, so a bad element never stops the check. |
| CheckcardTasks.ValidTasksOneToOne | workflow/scripts/checkcard-cli.py:103-104 | When every element is clean, the validated tasks match the elements one to one and in order. |
| CheckcardPrompts.KeepStripped | workflow/scripts/checkcard-cli.py:201 | The kept pieces are non-empty, have no surrounding whitespace, and are no more than the pieces split off. |
| CheckcardPrompts.BoolAnswerMeaning | workflow/scripts/checkcard-cli.py:198-199 | A "bool" answer is true exactly for "true" in any mix of ASCII case. |
| CheckcardPrompts.ListAnswerItems | workflow/scripts/checkcard-cli.py:200-201 | Every item of a "list" answer is non-empty, has no surrounding whitespace and holds no comma. |
| CheckcardPrompts.ListAnswerOfJoin | workflow/scripts/checkcard-cli.py:200-201 | Such items, typed with commas between them, come back as the same list. |
| CheckcardPrompts.PyPrefix | workflow/scripts/checkcard-cli.py:176-177 | Python's `value[:n]`, negative `n` included, is a prefix of the value. |
| CheckcardPrompts.TruncateCases | workflow/scripts/checkcard-cli.py:176-177 | A value is cut to its first `n` characters plus "..." only when a non-zero limit `n` lies below its length. Otherwise it is shown whole. A negative limit cuts from the end. |
| CheckcardPrompts.DisplayInputs | workflow/scripts/checkcard-cli.py:167-180 | One line per configured input, in configuration order, up to the first input that cannot be shown. The run completes exactly when every line is printed. |
| CheckcardPrompts.DisplayLineParts | workflow/scripts/checkcard-cli.py:170-179 | The label is the configured one, or else the key. A key without an input shows an empty value. A string input is always shown. Any other value raises exactly when a non-zero limit is set and the value has no length or is longer than the limit. Otherwise it is printed whole with `str`. |
| CheckcardPrompts.ConvertAnswer | workflow/scripts/checkcard-cli.py:198-201 | The answer is converted by its question's type: bool, list or text. |
| CheckcardPrompts.AskOne | workflow/scripts/checkcard-cli.py:190-203 | Asking one question extends the questions asked by one, and the dict by its converted answer. |
| CheckcardPrompts.AskGroup | workflow/scripts/checkcard-cli.py:188-203 | Asking a group keeps the dict equal to the specification over every question asked so far. |
| CheckcardPrompts.CollectOutputs | workflow/scripts/checkcard-cli.py:183-205 | The nested loops fill exactly the dict specified for all questions of all groups, in the order asked. |
| CheckcardPrompts.CollectTools | workflow/scripts/checkcard-cli.py:208-217 | The loop fills exactly the specified tools dict. |
| CheckcardPrompts.OutputsKeys | workflow/scripts/checkcard-cli.py:190-203 | The dict holds exactly the keys asked for. |
| CheckcardPrompts.OutputsLastWins | workflow/scripts/checkcard-cli.py:190-203 | A key holds the converted answer of the last question that carries it. |
| CheckcardPrompts.ToolsAreListOutputs | workflow/scripts/checkcard-cli.py:208-217 | `collect_tools` is `collect_outputs` with every question typed "list". |
| CheckcardInputs.LoadCheckcard | workflow/scripts/checkcard-cli.py:117-128 | The step's checkcard when it has one. Otherwise the script exits with code 2. |
| CheckcardInputs.WalkPath | workflow/scripts/checkcard-cli.py:150-153 | The loop reassigning `value` reaches exactly the value the dotted path specifies. |
| CheckcardInputs.LoadInputs | workflow/scripts/checkcard-cli.py:131-164 | The loading loop returns exactly the specified inputs, or the specified exit. |
| CheckcardInputs.FirstExitStays | workflow/scripts/checkcard-cli.py:155-160 | Once a mapping has caused the exit, later mappings change nothing. |
| CheckcardInputs.WalkFromEmpty | workflow/scripts/checkcard-cli.py:152-153 | A walk on from the empty dict stays at the empty dict. |
| CheckcardInputs.WalkAppend | workflow/scripts/checkcard-cli.py:150-153 | A walk along `a + b` is a walk along `a` followed by one along `b`. |
| CheckcardInputs.WalkDeadEnd | workflow/scripts/checkcard-cli.py:152-153 | A missing part, or a non-dict value on the way, leads to the empty dict. |
| CheckcardInputs.CollectedValues | workflow/scripts/checkcard-cli.py:148-162 | Every loaded input is truthy, and the keys are exactly the mapped keys. |
| CheckcardInputs.CollectedLookup | workflow/scripts/checkcard-cli.py:148-162 | A key holds the value its path leads to, when no later mapping reuses the key. |
| CheckcardInputs.CollectedExit | workflow/scripts/checkcard-cli.py:155-160 | Exit code 3 exactly when some path leads to an empty value. |
| CheckcardInputs.InputsOutcome | workflow/scripts/checkcard-cli.py:131-145 | Exit code 2 exactly when the step has no checkcard. A crash happens only for a malformed checkcard or sub-step name. |
| ProcessCheckcard.BuildFullCheckcard | workflow/scripts/process-checkcard.py:65-93 | The method builds exactly the record `build_full_checkcard` specifies, and crashes in the same cases. |
| ProcessCheckcard.CrashCases | workflow/scripts/process-checkcard.py:73-87 | A known step raises exactly when its definition, its metadata or the agent data is not a dict, or when its `checkcard_structure` is a list or dict and so cannot be a dict key. |
| ProcessCheckcard.UnknownStepExits | workflow/scripts/process-checkcard.py:68-71 | Exit code 2 exactly for an unknown step, or one whose definition is empty. |
| ProcessCheckcard.FullCheckcardContents | workflow/scripts/process-checkcard.py:78-91 | A built record comes from dict agent data. It has one top-level key, `checkcard_structure`, which is hashable. Metadata fields and agent come from the definition. Tools and outputs come from the agent data or are `{}`. `inputs` is present exactly when the step has an input phase and the agent sent inputs. |
| ProcessCheckcard.ParseArgs | workflow/scripts/process-checkcard.py:98-104 | Exactly two arguments are accepted, and anything else exits with code 2. The step id is the first argument upper-cased. It keeps its length and holds no lower-case ASCII letter. |
| ProcessCheckcard.NextStepLabel | workflow/scripts/process-checkcard.py:171 | The first character advanced by one code point, then "1". None where Python would fail. |
| ProcessCheckcard.NextStepOfLetter | workflow/scripts/process-checkcard.py:171 | For a step id starting with an upper-case letter below Z, the hint names step 1 of the next letter. |
| DuplicateDetection.ToInt32 | src/shared/services/duplicate-detection.ts:14-15 | The result lies in the signed 32-bit range and agrees with the input modulo 2^32. |
| DuplicateDetection.ToInt32Congruent | src/shared/services/duplicate-detection.ts:14-15 | Values equal modulo 2^32 truncate alike, so the shift-and-subtract form is `31 * h + c`. |
| DuplicateDetection.Hash | src/shared/services/duplicate-detection.ts:8-18 | The hash stays within the signed 32-bit range. |
| DuplicateDetection.HashEmail | src/shared/services/duplicate-detection.ts:8-18 | The loop computes the decimal form of the absolute value of h := ToInt32(31·h + c), over the UTF-16 code units. |
| DuplicateDetection.HashText | src/shared/services/duplicate-detection.ts:17 | The hash text is a non-empty string of digits with no minus sign. |
| DuplicateDetection.HashTextBound | src/shared/services/duplicate-detection.ts:17 | The hash text parses back to a number from 0 to 2^31. |
| DuplicateDetection.GetStorageKey | src/shared/services/duplicate-detection.ts:21-24 | The key is the prefix, the form type and the hash of the normalised address. |
| DuplicateDetection.NormalisedIsLower | src/shared/services/duplicate-detection.ts:22 | A normalised address has no upper-case ASCII letter left. |
| DuplicateDetection.NormaliseIdempotent | src/shared/services/duplicate-detection.ts:22 | Normalising twice is normalising once. |
| DuplicateDetection.StorageKeyNormalised | src/shared/services/duplicate-detection.ts:21-24 | Addresses that differ only in ASCII case or surrounding whitespace share a key. Every key starts with "pacon_submission_". |
| DuplicateDetection.StorageKeysSeparateForms | src/shared/services/duplicate-detection.ts:21-24 | A sales key never equals a career key. |
| DuplicateDetection.SubmissionStore.IsDuplicateSubmission | src/shared/services/duplicate-detection.ts:27-51 | With no stored entry the answer is false and storage is unchanged. An entry older than 24 hours is removed and the answer is false. Otherwise the answer is true and storage is unchanged. |
| DuplicateDetection.SubmissionStore.RecordSubmission | src/shared/services/duplicate-detection.ts:54-58 | Storage gains, or overwrites, the key with the decimal timestamp, and nothing else changes. |
| DuplicateDetection.SubmissionStore.CleanupOldSubmissions | src/shared/services/duplicate-detection.ts:61-81 | The loop removes exactly the prefixed keys whose stored timestamp is older than 24 hours. |
| DuplicateDetection.RecordThenCheck | src/shared/services/duplicate-detection.ts:36-58 | A recorded submission is a duplicate for exactly 24 hours, the boundary included, and is removed by the first check after that. |
| DuplicateDetection.UnparsableStoredStays | src/shared/services/duplicate-detection.ts:35-50 | A stored value that is not a number is a duplicate for ever and survives both the check and the clean-up. |
| DuplicateDetection.DuplicateMessagesDistinct | src/shared/services/duplicate-detection.ts:84-92 | The sales and career forms show different duplicate messages. |
| DuplicateDetection.CleanupKeeps | src/shared/services/duplicate-detection.ts:61-81 | Clean-up keeps every key without the prefix and every record still inside the window. Cleaning up twice is cleaning up once. |
| FileUpload.ValidateCVFile | src/shared/services/file-upload.ts:15-47 | A file is valid exactly when it is `application/pdf` and 0 < size ≤ 10485760, and only then carries no error. The type is checked first, then the size bound, then emptiness, each with its own message. |
| FileUpload.ValidIsPdf | src/shared/services/file-upload.ts:93-95 | Every file that passes validation is a PDF by `isPDFFile`. |
| FileUpload.ValidateAgreesWithSchema | src/shared/lib/form-validation.ts:35-38 | The service and the form schema's `cvFile` rule agree on every file except an empty one. |
| FileUpload.SchemaAcceptsEmptyPdf | src/shared/lib/form-validation.ts:35-38 | The schema accepts a zero-byte PDF, while the service rejects it as empty. |
| FileUpload.FirstErrorsDiffer | src/shared/services/file-upload.ts:21-34 | For a file that is too large and not a PDF, the service reports the type and the schema reports the size first. |
| FileUpload.FileExtensionIsTail | src/shared/services/file-upload.ts:98-99 | The extension is the lower-cased text after the last dot. A name without a dot is its own extension, and a trailing dot gives "". |
| FileUpload.FileExtensionLowered | src/shared/services/file-upload.ts:98-99 | The extension has no upper-case ASCII letter. |
| FormValidation.ContactFormAccepts | src/shared/lib/form-validation.ts:5-26 | The contact schema accepts an object exactly when every field meets its rule. |
| FormValidation.ContactFieldRules | src/shared/lib/form-validation.ts:5-26 | The rules, field by field: non-empty name; valid e-mail; optional phone and company; location among the eight places; optional area of use among the five listed; optional message of at most 1000 characters; consent exactly `true`. |
| FormValidation.JobApplicationAccepts | src/shared/lib/form-validation.ts:30-45 | The application schema accepts an object exactly when every field meets its rule. |
| FormValidation.ApplicationFieldRules | src/shared/lib/form-validation.ts:30-45 | The rules, field by field: non-empty name and job title; valid e-mail; optional location; a CV file of at most 10 MiB typed `application/pdf`; optional message of at most 2000 characters; GDPR consent exactly `true`. |
| FormValidation.LocationsMatchEnum | src/shared/lib/form-validation.ts:10 | The `Location` type and the schema's enum list the same eight places. |
| FormValidation.LocationFilterNamesDistinct | src/shared/lib/form-validation.ts:53-54 | A filter is "Alle" or one location, and distinct filters have distinct names. |
| DateDatatype.DateSchemaAccepts | src/components/features/invoice-form/lib/validation/date.ts:18-41 | A date field accepts exactly the strings of its digit pattern. `YYYY-MM-DD` is the default, and there are also `HH:MM` and `YYYY-MM-DDTHH:MM`. Digits only, no ranges. `undefined` is accepted only when optional. |
| DateDatatype.ShapeNonEmpty | src/components/features/invoice-form/lib/validation/date.ts:35-36 | Every pattern implies the required field's `min(1)`. |
| DateDatatype.RequiredDateEmpty | src/components/features/invoice-form/lib/validation/date.ts:18-36 | A required field left empty gets both messages, the pattern's first. |
| DateDatatype.OptionalDateRejectsEmpty | src/components/features/invoice-form/lib/validation/date.ts:37-39 | An optional date left empty is still rejected. |
| DateDatatype.ParseDateValueCases | src/components/features/invoice-form/lib/validation/date.ts:44-46 | A string is kept, and every falsy value becomes "". |
| NumberDatatype.NumberChecksMeaning | src/components/form/datatypes/numberDatatype.ts:24-41 | The added checks hold together exactly when the value lies within every bound: the explicit min and max, percentage's 0..100, and currency's 0 when no min is given. |
| NumberDatatype.NumberSchemaAccepts | src/components/form/datatypes/numberDatatype.ts:18-46 | A number field accepts exactly the integers in its range, plus `undefined` when optional, and never NaN. |
| NumberDatatype.CurrencyMinimumOverrides | src/components/form/datatypes/numberDatatype.ts:38-40 | An explicit minimum on a currency field replaces the implicit lower bound 0. |
| NumberDatatype.MinimumMessage | src/components/form/datatypes/numberDatatype.ts:26-28 | A value below the minimum reports "Minimum ist {min}". |
| NumberDatatype.GetNumberSuffix | src/components/form/datatypes/numberDatatype.ts:54-63 | "€" for currency, "%" for percentage, and none otherwise. |
| TextDatatype.TextSchemaAccepts | src/components/form/datatypes/textDatatype.ts:24-51 | A text field accepts a string meeting its format's rule, and `undefined` only when optional. The rules: e-mail and URL by their checks, at least 10 characters for tel and multiline, 8 for password, 1 otherwise. |
| TextDatatype.TextSchemaMessage | src/components/form/datatypes/textDatatype.ts:28-45 | A string breaking its format's rule gets exactly that format's message. |
| TextDatatype.OptionalTextRejectsEmpty | src/components/form/datatypes/textDatatype.ts:47-49 | An optional field still rejects "" unless its format is e-mail or URL. |
| TextDatatype.ParseTextValueCases | src/components/form/datatypes/textDatatype.ts:54-56 | A string is kept, and every falsy value, 0 included, becomes "". |
| ChoiceOptions.ValuesMembership | src/components/form/datatypes/choiceDatatype.ts:13-15 | A value is allowed exactly when some option carries it. A plain string option is its own value. |
| ChoiceDatatype.SingleChoiceAccepts | src/components/form/datatypes/choiceDatatype.ts:27-33 | A single choice accepts exactly the option values, plus `undefined` when optional. |
| ChoiceDatatype.MultipleChoiceAccepts | src/components/form/datatypes/choiceDatatype.ts:17-24 | A multiple choice accepts any array of strings, with at least one element when required. The elements are not checked against the options. |
| ChoiceDatatype.ParseChoiceValue | src/components/form/datatypes/choiceDatatype.ts:36-41 | Multiple: the value if it is an array, else the empty array. Single: the value if truthy, else "". |
| BooleanDatatype.BooleanSchemaAccepts | src/components/form/datatypes/booleanDatatype.ts:8-19 | Required: only `true`. Optional: `true`, `false` or `undefined`. |
| BooleanDatatype.RequiredBooleanIssues | src/components/form/datatypes/booleanDatatype.ts:11-14 | An unticked required box reports the refinement's message, and an unset one a type error. |
| BooleanDatatype.ParseBooleanValue | src/components/form/datatypes/booleanDatatype.ts:22-24 | The result is JavaScript truthiness. |
| BooleanDatatype.ParsedBooleanAccepted | src/components/form/datatypes/booleanDatatype.ts:8-24 | A converted value always passes an optional box, and passes a required one exactly when truthy. |
| JsValues.StringOrEmptyCases | src/components/form/datatypes/textDatatype.ts:55 | `String(value \|\| "")` keeps a string, turns every falsy value into "", and a non-zero number into its decimal form. |
| CheckboxControl.LayoutOf | src/components/features/invoice-form/components/controls/CheckboxControl.tsx:20-38 | Without options the control is a single checkbox. With options, even an empty list, it is one box per option value. |
| CheckboxControl.CheckAppends | src/components/features/invoice-form/components/controls/CheckboxControl.tsx:44-47 | Checking appends the value once more, at the end, without deduplicating. A missing list counts as empty. |
| CheckboxControl.UncheckRemoves | src/components/features/invoice-form/components/controls/CheckboxControl.tsx:44-48 | Unchecking removes every occurrence of the value and keeps the others, as often as they were there and in order. |
| CheckboxControl.CheckThenUncheck | src/components/features/invoice-form/components/controls/CheckboxControl.tsx:42-48 | Checking then unchecking equals unchecking straight away. |
| CheckboxControl.UncheckAbsent | src/components/features/invoice-form/components/controls/CheckboxControl.tsx:48 | Unchecking a value nobody checked leaves the list as it was. |
| InvoiceForm.MaxX | src/components/features/invoice-form/components/invoice-form.tsx:145 | The largest column over all fields. |
| InvoiceForm.MaxY | src/components/features/invoice-form/components/invoice-form.tsx:146 | The largest row over all fields. |
| InvoiceForm.PlaceFields | src/components/features/invoice-form/components/invoice-form.tsx:145-157 | Builds a fresh grid of (max y + 1) × (max x + 1), starting from null cells. Each cell ends up holding what the placement specification gives. |
| InvoiceForm.FieldsFitGrid | src/components/features/invoice-form/components/invoice-form.tsx:145-146 | Every field's cell lies inside the grid. |
| InvoiceForm.LastWriterWins | src/components/features/invoice-form/components/invoice-form.tsx:155-157 | A field is drawn in its cell unless a later field targets the same cell. |
| InvoiceForm.CellOfMeaning | src/components/features/invoice-form/components/invoice-form.tsx:149-157 | A cell is null exactly when no field targets it. A drawn field is one that targets the cell. |
| InvoiceForm.InvoiceGrid | src/components/features/invoice-form/components/invoice-form.tsx:11-115 | The invoice grid has 5 rows and 2 columns, `status` is at (0,0) and (0,1) is null. |
| InvoiceForm.InvoiceFieldsDrawn | src/components/features/invoice-form/components/invoice-form.tsx:11-115 | No two invoice fields share a cell, so every field is drawn where it asks to be. |
| InvoiceForm.BuildSchemaShape | src/components/features/invoice-form/components/invoice-form.tsx:117-122 | The `reduce` over the fields builds exactly the specified schema record. |
| InvoiceForm.SchemaShapeContents | src/components/features/invoice-form/components/invoice-form.tsx:117-122 | The keys are the field names, and each name maps to the schema of the last field carrying it. |
| InvoiceForm.InvoiceSchema | src/components/features/invoice-form/components/invoice-form.tsx:117-122 | The invoice names are distinct, so each field gets its own schema. |
| InvoiceForm.DefaultsCoverFields | src/components/features/invoice-form/components/invoice-form.tsx:127-137 | The defaults name exactly the fields. The numeric defaults pass their schemas and the empty text defaults do not. |
| UnifiedFormField.FormatNamesFound | src/components/features/invoice-form/components/unified-form-field.tsx:90-103 | Every icon-table key is found again under its own name. |
| UnifiedFormField.DataTypeIconFallback | src/components/features/invoice-form/components/unified-form-field.tsx:90-103 | The icon is the format's own when the format is a key of the datatype's table, and the default icon otherwise. |
| UnifiedFormField.InputTypeCases | src/components/features/invoice-form/components/unified-form-field.tsx:161-172 | A number is always "number". Otherwise password, email, url and tel map to themselves and anything else to "text". |
| UnifiedFormField.SuffixCases | src/components/features/invoice-form/components/unified-form-field.tsx:174-175 | There is a suffix only for a number in currency or percentage format. |
| UnifiedFormField.UnknownControlIsInput | src/components/features/invoice-form/components/unified-form-field.tsx:124-187 | An unknown control type renders exactly like `input`. |
| UnifiedFormField.StatusStyling | src/components/features/invoice-form/components/unified-form-field.tsx:105-114 | The error colour and the alert icon come together, and only for status "error". |
| TestimonialSlider.SlidesMeaning | src/components/blocks/testimonial-slider/testimonial-slider.tsx:41-43 | The slides hold exactly the testimonials of the requested type, as often as the input does, sorted by display order. Equal display orders keep their input order. |
| TestimonialSlider.NextIndex | src/components/blocks/testimonial-slider/testimonial-slider.tsx:54-56 | Next stays below the slide count. |
| TestimonialSlider.PrevIndex | src/components/blocks/testimonial-slider/testimonial-slider.tsx:58-60 | Previous stays below the slide count. |
| TestimonialSlider.IndexSteps | src/components/blocks/testimonial-slider/testimonial-slider.tsx:54-60 | Next steps forward and wraps from last to first; previous does the reverse. |
| TestimonialSlider.NextPrevInverse | src/components/blocks/testimonial-slider/testimonial-slider.tsx:54-60 | Previous undoes next and next undoes previous. |
| TestimonialSlider.Slider.constructor | src/components/blocks/testimonial-slider/testimonial-slider.tsx:33-47 | The slides are the filtered, sorted testimonials and the index starts at 0. |
| TestimonialSlider.Slider.HandleNext | src/components/blocks/testimonial-slider/testimonial-slider.tsx:54-56 | The index moves to the next slide and stays valid. |
| TestimonialSlider.Slider.HandlePrev | src/components/blocks/testimonial-slider/testimonial-slider.tsx:58-60 | The index moves to the previous slide and stays valid. |
| TestimonialSlider.Slider.HandleDotClick | src/components/blocks/testimonial-slider/testimonial-slider.tsx:62-64 | The index becomes exactly the clicked dot's. |
| TestimonialSlider.Slider.Tick | src/components/blocks/testimonial-slider/testimonial-slider.tsx:68-76 | The timer advances only when there is more than one slide. |
| ImageGallery.StepsClamp | src/components/features/product-feature/image-gallery.tsx:79-101 | With at least two items, next is min(i + 1, len − 1) and previous is max(i − 1, 0), and both stay inside the list. |
| ImageGallery.NextFromFirst | src/components/features/product-feature/image-gallery.tsx:79-89 | From the first item next always goes to 1, which is past the end of a one-item list. |
| ImageGallery.StepsUndo | src/components/features/product-feature/image-gallery.tsx:79-101 | Back after forward returns from inside the list, and forward after back returns as well. |
| ImageGallery.Gallery.constructor | src/components/features/product-feature/image-gallery.tsx:60-107 | The gallery starts at the first item and publishes its key. With no items, the effect fails and the context's key stays. |
| ImageGallery.Gallery.SyncSelectedKey | src/components/features/product-feature/image-gallery.tsx:105-107 | The shared key becomes the shown item's key. Past the end of the list the effect fails and publishes nothing. |
| ImageGallery.Gallery.Next | src/components/features/product-feature/image-gallery.tsx:79-89 | The index moves as next specifies. The key is synchronised whenever the list has at least two items. |
| ImageGallery.Gallery.Prev | src/components/features/product-feature/image-gallery.tsx:91-101 | The index moves as previous specifies, and the key is synchronised. |
| SheetProductContent.TabContent | src/components/features/product-feature/sheet-product-content.tsx:40-46 | The tabs are the titled entries in key order, numbered "1" to "n". |
| SheetProductContent.ViewOf | src/components/features/product-feature/sheet-product-content.tsx:35-50 | Missing or empty data shows the no-data message. Tabs are shown only for data with titled entries, and they are then exactly the derived tab list. |
| SheetProductContent.NoTitledTabsMeaning | src/components/features/product-feature/sheet-product-content.tsx:48-50 | The second fallback shows exactly when there is data and no entry has a title. |
| SheetProductContent.FindIndex | src/components/features/product-feature/sheet-product-content.tsx:52-53 | The first tab carrying the value, or −1 when none does. |
| SheetProductContent.FindTabNumber | src/components/features/product-feature/sheet-product-content.tsx:52-53 | Looking a tab up by its number finds that very tab. |
| SheetProductContent.TabValuesDistinct | src/components/features/product-feature/sheet-product-content.tsx:40-46 | The tab values are distinct. |
| SheetProductContent.TabState.constructor | src/components/features/product-feature/sheet-product-content.tsx:27 | The sheet starts on tab "1". |
| SheetProductContent.TabState.GoToNext | src/components/features/product-feature/sheet-product-content.tsx:57-61 | Advances exactly one tab unless the next button is disabled. |
| SheetProductContent.TabState.GoToPrev | src/components/features/product-feature/sheet-product-content.tsx:63-67 | Goes back exactly one tab unless the previous button is disabled. |
| PdfViewer.PageTargetInRange | src/components/PdfViewer.tsx:93-103 | With at least one page and a valid current page, the target is always a page of the document. |
| PdfViewer.PageTargetCases | src/components/PdfViewer.tsx:93-103 | A number above the page count gives the last page, and a number below 1 gives the first. Text that does not parse keeps the current page. Any other number is the target itself. |
| PdfViewer.UnchangedInputStays | src/components/PdfViewer.tsx:78-81 | Committing the prefilled page number unchanged stays on the current page. |
| PdfViewer.HexPageInput | src/components/PdfViewer.tsx:94 | `parseInt` without a radix reads `0x` followed by hexadecimal digits in base 16. This holds for any text, including text a number field would not deliver. |
| PdfViewer.HexPageTarget | src/components/PdfViewer.tsx:93-103 | Such a page number inside the document is the page jumped to. |
| PdfViewer.ZoomTarget | src/components/PdfViewer.tsx:201-206 | The zoom is absent exactly when the text does not parse. |
| PdfViewer.ZoomTargetClamps | src/components/PdfViewer.tsx:201-206 | A parsed percentage is clamped into 10..300 and left alone inside that range. |
| PdfViewer.Toolbar.constructor | src/components/PdfViewer.tsx:33-36 | Neither field is being edited and both inputs are empty. Auto-zoom starts on. |
| PdfViewer.Toolbar.ToggleAutoZoom | src/components/PdfViewer.tsx:282-291 | The auto-zoom button flips the viewer's switch, which starts on, and leaves both fields as they are. |
| PdfViewer.Toolbar.StartEditingPage | src/components/PdfViewer.tsx:78-81 | Opens the page field, filled with the shown page number. |
| PdfViewer.Toolbar.ChangePageInput | src/components/PdfViewer.tsx:78-81 | Replaces only the page text. |
| PdfViewer.Toolbar.BlurPage | src/components/PdfViewer.tsx:93-103 | Jumps to the zero-based target and closes the field. |
| PdfViewer.Toolbar.PageKeyDown | src/components/PdfViewer.tsx:104-116 | Enter does exactly what blur does, and any other key does nothing. |
| PdfViewer.Toolbar.StartEditingZoom | src/components/PdfViewer.tsx:163-189 | The zoom label can be clicked only while auto-zoom is on. Clicking it opens the zoom field, filled with the rounded percentage. |
| PdfViewer.Toolbar.ChangeZoomInput | src/components/PdfViewer.tsx:193-200 | Typing is possible only while auto-zoom is on, and replaces only the zoom text. |
| PdfViewer.Toolbar.BlurZoom | src/components/PdfViewer.tsx:201-206 | While auto-zoom is on, leaving the field hands the clamped percentage on and closes the field. |
| PdfViewer.Toolbar.ZoomKeyDown | src/components/PdfViewer.tsx:207-213 | Enter does exactly what blur does, and any other key does nothing. |
| PageConfig.HasAnchorsMeaning | src/shared/types/page-config.ts:211-213 | `hasAnchors` holds exactly for a present, non-empty array. |
| PageConfig.ValidAnchorConfigMeaning | src/shared/types/page-config.ts:221-232 | Valid exactly for a non-null object whose `id` and `label` are non-empty strings. `i18nKey`, and any other property, plays no part. |
| PageConfig.AnchorConfigValid | src/shared/types/page-config.ts:221-232 | An anchor object passes exactly when its id and link text are not empty. |
| PageConfig.JsLengthPositive | src/shared/types/page-config.ts:229-230 | A string has positive length exactly when it is not empty. |
| PageConfig.BreakpointQueries | src/shared/types/page-config.ts:249-259 | The queries read `(max-width: 767px)` and `(min-width: 768px)`, and every whole-pixel width matches exactly one of them. |
| NavigationHeader.ActivePathMeaning | src/components/blocks/navigation-header/navigation-header.tsx:61-66 | `/` is active only on `/`. Any other link is active exactly on the paths it prefixes, so `/salesforce` activates `/sales`. |
| NavigationHeader.AtMostOneActive | src/components/blocks/navigation-header/navigation-header.tsx:50-66 | At most one header link is highlighted, whatever the path. |
| NavigationHeader.ContextFallback | src/components/blocks/navigation-header/navigation-header.tsx:40-44 | A given prop overrides the page context, and the context plays no part. A missing prop defers to the context. With the provider's initial context, nothing is active. |
| NavigationHeader.AnchorBarSource | src/components/blocks/navigation-header/navigation-header.tsx:141 | A given prop wins even when empty, which hides the bar. Without one, the context decides, and the initial context shows no bar. |
| Theme.InitialTheme | src/components/features/theme-toggle/use-theme.ts:10-24 | A stored `light` or `dark` wins. Then the system's dark preference decides. Otherwise the theme is light. |
| Theme.Toggled | src/components/features/theme-toggle/use-theme.ts:36-38 | Toggling changes the theme. |
| Theme.ToggleTwice | src/components/features/theme-toggle/use-theme.ts:36-38 | Toggling twice gives the theme back. |
| Theme.StoredThemeRestored | src/components/features/theme-toggle/use-theme.ts:10-24 | The stored theme is read back as the same theme, whatever the system prefers. |
| Theme.ThemeState.constructor | src/components/features/theme-toggle/use-theme.ts:10-24 | The initial state is resolved from storage and the preference only. |
| Theme.ThemeState.ToggleTheme | src/components/features/theme-toggle/use-theme.ts:36-38 | Flips the theme and changes nothing else. |
| Theme.ThemeState.SetThemeMode | src/components/features/theme-toggle/use-theme.ts:40-42 | Sets exactly the given theme and changes nothing else. |
| Theme.ThemeState.ApplyTheme | src/components/features/theme-toggle/use-theme.ts:45-62 | Afterwards the root carries exactly one of `light` and `dark`, the theme's, and storage holds the theme's name. The two CSS properties hold the theme's palette. |
| BottomSheet.SheetState.constructor | src/shared/hooks/use-bottom-sheet.ts:11-15 | The breakpoint defaults to 768, and the sheet starts closed and not mobile. |
| BottomSheet.SheetState.Open | src/shared/hooks/use-bottom-sheet.ts:27 | Opens the sheet. |
| BottomSheet.SheetState.Close | src/shared/hooks/use-bottom-sheet.ts:28 | Closes the sheet. |
| BottomSheet.SheetState.Toggle | src/shared/hooks/use-bottom-sheet.ts:29 | Negates `isOpen`. |
| BottomSheet.SheetState.CheckScreenSize | src/shared/hooks/use-bottom-sheet.ts:24-35 | `isMobile` is exactly "width below the breakpoint", and `shouldUseBottomSheet` agrees with it. |
| BottomSheet.SheetState.AutoClose | src/shared/hooks/use-bottom-sheet.ts:49-53 | Closes the sheet on a wide window and otherwise changes nothing. Afterwards a non-mobile sheet is never open. |
| BottomSheet.OpenAndSettle | src/shared/hooks/use-bottom-sheet.ts:27-53 | Opening followed by the effect leaves the sheet open exactly on a narrow window. |
| BottomSheet.ResizeAndSettle | src/shared/hooks/use-bottom-sheet.ts:32-53 | A resize followed by its effects leaves the sheet open only on a narrow window, and only if it was open. |
| ProjectGallery.DisplayedMeaning | src/components/blocks/project-gallery/project-gallery.tsx:36-40 | The shown projects are sorted by display order and taken from the input. They are the front of the sorted list, so no omitted project comes earlier in display order than a shown one. Without `maxItems` all are shown. The count follows `slice`: min(maxItems, n) for a non-negative limit. |
| ProjectGallery.DisplayedStableLimited | src/components/blocks/project-gallery/project-gallery.tsx:38-39 | With any limit, the shown projects of one display order are the first ones of that order in the input, in input order. |
| ProjectGallery.DisplayedStable | src/components/blocks/project-gallery/project-gallery.tsx:38 | Projects with the same display order keep their input order. |
| ProjectGallery.DisplayedFromInput | src/components/blocks/project-gallery/project-gallery.tsx:38-40 | Each shown project is one of the input's, and comes no earlier in display order than those before it. |
| HeroSection.VariantOf | src/components/blocks/hero-section/hero-section.tsx:49 | A missing variant prop is the default variant. |
| HeroSection.VariantNames | src/components/blocks/hero-section/hero-section.tsx:54-67 | The four page names select their variants, and every other name selects the default. |
| HeroSection.TitleOnlyLarger | src/components/blocks/hero-section/hero-section.tsx:69-78 | The title classes differ from the default exactly on the landing variant. |
| HeroSection.HandleButtonClick | src/components/blocks/hero-section/hero-section.tsx:80-98 | No button does nothing, and a handler wins over the link. Then the checks run in order: a `#` link scrolls to its element when the page has one, an `http` link opens in a new tab, and anything else navigates. |
| HeroSection.ClickCases | src/components/blocks/hero-section/hero-section.tsx:80-98 | A handler wins whatever the link. An `https://` URL opens in a new tab. A path starting with `/` navigates in place. A missing button does nothing. |
| TeamSection.ShownMembers | src/components/blocks/team-section/team-section.tsx:41-46 | Nothing renders for a missing or empty list. Otherwise all members are shown, sorted by display order. |
| TeamSection.ShownMembersStable | src/components/blocks/team-section/team-section.tsx:46 | Members with the same display order keep their input order. |
| TeamSection.InitialsOfSegments | src/components/blocks/team-section/team-section.tsx:101 | The initials are the first characters of the non-empty segments, in order. |
| TeamSection.InitialsSkipEmptySegments | src/components/blocks/team-section/team-section.tsx:101 | Repeated, leading or trailing spaces contribute nothing. |
| TeamSection.InitialsOfWords | src/components/blocks/team-section/team-section.tsx:101 | A name of single-spaced words has one initial per word, the word's first character. |
| TeamSection.AvatarOf | src/components/blocks/team-section/team-section.tsx:82-101 | The photo for a non-empty `photoUrl`, with the name as alt text. The initials otherwise. |
| TeamSection.SocialButtonPresent | src/components/blocks/team-section/team-section.tsx:108-158 | A network's button appears exactly when the member has a non-empty link for it. |
| TeamSection.SocialButtonsOrdered | src/components/blocks/team-section/team-section.tsx:108-158 | Each button points at its link and is labelled "{name} on {network}". The order is Twitter, LinkedIn, GitHub. |
| ComboboxControl.FindFrom | src/components/form/controls/ComboboxControl.tsx:36-41 | The first option whose value equals the current value, or none. |
| ComboboxControl.TriggerTextCases | src/components/form/controls/ComboboxControl.tsx:35-42 | A falsy value shows the placeholder, or the built-in text. Otherwise the first matching option's text is shown, or nothing when none matches. |
| ComboboxControl.ChosenValueShown | src/components/form/controls/ComboboxControl.tsx:35-68 | Once the chosen value is adopted, the chosen option has the check mark and, among distinct values, no other option does. The trigger shows the chosen option, except for the value "", which shows the placeholder. |
| ComboboxControl.Combobox.constructor | src/components/form/controls/ComboboxControl.tsx:23 | The popover starts closed and no value has been handed on. |
| ComboboxControl.Combobox.SetOpen | src/components/form/controls/ComboboxControl.tsx:26 | The popover follows the trigger and no value is handed on. |
| ComboboxControl.Combobox.Select | src/components/form/controls/ComboboxControl.tsx:59-62 | Hands exactly the chosen option's value to `onChange` and closes the popover. |
| ContactForm.SubmitResultCases | src/components/features/contact-form/contact-form.tsx:86-108 | A duplicate wins whatever the service says. A submission is recorded exactly on a service success that was no duplicate, and that is exactly the success state. A thrown call gives the connection-failure error. Every outcome has a message. |
| ContactForm.SettledDisabled | src/components/features/contact-form/contact-form.tsx:75-76 | Once settled, the fields stay disabled exactly after a success. Retry is offered exactly when the alert is not green. |
| ContactForm.ContactFormState.constructor | src/components/features/contact-form/contact-form.tsx:34-35 | The form starts idle with no message, nothing sent and no reset. |
| ContactForm.ContactFormState.StartSubmit | src/components/features/contact-form/contact-form.tsx:82-90 | The duplicate check runs first. A duplicate sets the duplicate state with the sales message and sends nothing. Otherwise the form is submitting and the address is sent. |
| ContactForm.ContactFormState.FinishSubmit | src/components/features/contact-form/contact-form.tsx:93-108 | A success records the submission, sets success and resets the form. Anything else is an error, with no record and no reset. |
| ContactForm.ContactFormState.OnSubmit | src/components/features/contact-form/contact-form.tsx:80-109 | The whole flow ends in the state, message, record and reset that `SubmitResult` specifies. |
| ContactForm.ContactFormState.HandleRetry | src/components/features/contact-form/contact-form.tsx:111-114 | Back to idle with an empty message. |

## Left out

- Parsing and I/O are left out of the workflow scripts: JSON parsing, reading and writing files, the interactive `input` loop, `jsonschema` validation, timestamps and `main`'s printing. Prompt answers, checkcard files and parsed documents are parameters.
- step_definitions.py is not part of this model. The step definitions are a map parameter of `ProcessCheckcard.FullCheckcardOf`.
- The F1 retry loop in checkcard-cli.py and the unreachable test harness after `collect_generic` are left out. `run_a1_interactive.py` is a subprocess wrapper and is left out too.
- Python floats are carried as their text. They are only asked for their type name, their truthiness and their printed form, and `repr` escaping of strings is not modelled.
- Python dict order is not modelled: a checkcard's keys form a map, and display order comes from the configuration list.
- `ProcessCheckcard.NextStepLabel`: returns None where Python would raise, or print a lone surrogate, rather than modelling the exception.
- Only ASCII case mapping is modelled for `toLowerCase`, `toUpperCase`, `lower` and `upper`. Non-ASCII letters stay unchanged.
- Strings are sequences of code points. `Strings.Utf16` gives the code units that `hashEmail` and `length` see. Lone surrogates in JavaScript strings are not modelled.
- `TeamSection.Initials`: takes a segment's whole first code point, whereas JavaScript's `n[0]` takes only the first UTF-16 unit of a character outside the BMP.
- JavaScript numbers are integers or NaN. Fractions, Infinity, `parseFloat`, `parseNumberValue`, `formatFileSize` and the zoom's division by 100 with `Math.round` are left out. The toolbar takes the rounded percentage as a parameter.
- `Strings.JsParseInt`: exact on arbitrarily long digit strings, whereas JavaScript loses precision beyond 2^53.
- `fileToBase64`, `form-submission.ts` and the network call in the contact form are left out. The service's answer is the `SubmissionOutcome` parameter: success, failure with a message, or a thrown error.
- The contact form's field values, and what `reset` restores, are not modelled. Only the e-mail address sent and the number of resets are recorded.
- Exceptions from `localStorage` are not modelled: storage is a map that always answers. Since `parseInt` never throws, the catch branch of `isDuplicateSubmission` cannot run and has no counterpart.
- The default branch of `getDuplicateMessage` is left out: the form type is a two-valued datatype.
- The icon tables are looked up by their own keys only. Keys inherited from `Object.prototype` are not modelled.
- zod's e-mail and URL checks are predicates passed in as parameters. Their regular expressions are not modelled.
- The DOM, scrolling, `window.open`, routing, timers and media-query listeners are left out. `HeroSection.HandleButtonClick` returns the action taken. Whether `#id` names an element on the page is a parameter, and `querySelector` throwing on an invalid selector such as `#` is not modelled.
- The `onError` fallback of team photos and all translation lookups (i18next) are left out. Labels are shown as given.
- Props that change while a component's index state persists are not modelled: each class takes its items when it is constructed.
- `CheckboxControl` treats a present value as a list of strings. A non-array value in multi-option mode is not modelled.
- `ImageGallery.Gallery.Next`: the out-of-range item read that follows `next` on a one-item gallery is modelled as the effect failing (`synced` false, nothing published). The crash itself is not modelled.
- `PyJson.PyStr`: a dict renders as `{...}`, not as Python's `{'key': value, ...}` listing, because a map carries no key order. This affects the printed form of dict inputs and of a dict `task_id` in task-error messages.
- `CheckcardPrompts.DisplayLine`: the configured label is a string and the limit an integer. A label or limit of another JSON type is not modelled. The lines printed before a failing input are returned, and the exception itself is not modelled.
- `PdfViewer.Toolbar.ChangePageInput`: accepts any text, whereas an `<input type="number">` delivers only a valid number or "". `HexPageInput` and `HexPageTarget` are therefore about `parseInt` on text the browser itself never sends.
- `PdfViewer.Toolbar`: the viewer's zoom level and the `SpecialZoomLevel.PageWidth` default that auto-zoom selects are not modelled. Only the switch that gates the zoom field is.
- `ImageGallery.Gallery.constructor`: an empty item list is modelled as the first effect failing, so nothing is published and the gallery is not in a valid state. The exception thrown while rendering `items[0]` is not modelled.
- `HeroSection.VariantClasses`: the background classes are given exactly, but no lemma proves them pairwise distinct.
- The combobox's default placeholder is kept exactly as the source spells it, with its mis-encoded "ä".
