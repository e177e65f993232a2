# AttributeContextArgs validation, modelled in Dafny

This project models the argument record of inseq's `attribute-context`
command and the validation and defaulting pass that runs once when the
record is constructed (`AttributeContextArgs.__post_init__`). The record is
made of three field groups: input texts and templates, method settings, and
output options. The pass runs these steps in order:

1. It fails on the `pre` strategy without output context when the output
   template is missing or uses `{context}`.
2. It fails when both contextless next-token overrides are set.
3. It fills in the default templates and the default contextless text.
4. It adds the `has_input_context` and `has_output_context` flags.
5. It fails on an empty current text.
6. It clears context text that its template does not use, with a warning.
7. It checks the `{current}` and `{context}` placeholders.
8. It warns about a suffix after `{current}` in the output template.

Files:

- `wrappers.dfy`: `Option` (Python's `Optional`) and `Result`.
- `py_str.dfy`: the Python string operations the pass uses. These are `p in s`
  (`In`, specified by `Contains`), `s.find(p)` (`Find`, the first occurrence
  or -1), `s.endswith(p)` and `s.partition(p)`. It also defines the
  truthiness of an optional string (`Truthy`: both `None` and `""` are
  falsy).
- `attribute_context_args.dfy`: the datatypes for the three field groups and
  their defaults, and the merged record `Args`. It has the errors and warnings
  of the pass, and `Validate`, the pass as a function from the record before
  to the record after, with the outcome and the logged warnings. The class
  `AttributeContextArgs` holds the same fields as mutable state. Its
  `PostInit` method updates them one after another, as the source does, and
  is proved to match `Validate` exactly: final state, outcome and warnings.
  `Construct` models calling the dataclass: store the fields, then run the
  pass.
- `attribute_context_properties.dfy`: lemmas about `Validate`.

Python truthiness is modelled exactly. The template defaults test `is None`,
but the context checks test falsiness. So an input context text of `""`
still selects the template `"{context} {current}"`, and the input-context
check then rejects it. The first check searches for `{context}` in the
output template before the template is defaulted. With strategy `pre`, no
truthy output context text and no output template, Python raises a
TypeError. That is a separate error here (`OutputTemplateNotString`). The
empty current text is checked twice with the same message. The model gives
the two raise sites separate error constructors, so that a lemma can show
that the second one never fires.

The code checks that a template using `{context}` has its context text only
on the input side. Unless the strategy is `pre`, an output template with
`{context}` and no output context text is accepted: the help text of `output_context_text` (lines 52-62) says
that the output context is then generated together with the output current
text (`OutputContextNotRequired`, which uses the default `manual` strategy).

## Model

| member | source | states |
|---|---|---|
| `PyStr.FindFrom` | inseq/commands/attribute_context/attribute_context_args.py:266 | the result is -1 or an index at or after the start where the pattern occurs, and the pattern occurs at no index between the start and the result |
| `PyStr.Find` | inseq/commands/attribute_context/attribute_context_args.py:266 | `find` returns -1 exactly when the pattern is not a substring; otherwise it returns an occurrence, and no earlier index holds one |
| `PyStr.In` | inseq/commands/attribute_context/attribute_context_args.py:239-240 | `p in s` holds exactly when `p` is a substring of `s` |
| `PyStr.EndsWith` | inseq/commands/attribute_context/attribute_context_args.py:270 | `endswith` holds exactly when the suffix occurs at the last possible index |
| `PyStr.Partition` | inseq/commands/attribute_context/attribute_context_args.py:271 | the three parts concatenate to the input. The middle part is the separator exactly when the separator occurs; otherwise the result is `(s, "", "")`. The head contains no start of an occurrence, so the split is at the first occurrence |
| `PyStr.Truthy` | inseq/commands/attribute_context/attribute_context_args.py:220-221 | no contract of its own: it is Python's truthiness of an optional string, false for `None` and `""`. `PreStrategyConflict`, `UnusedContextCleared` and `EmptyInputContextRejected` state what it decides |
| `AttributeContext.HandleOutputContextSetting.Value` | inseq/commands/attribute_context/attribute_context_args.py:15-18 | no contract of its own: the strategy values `"manual"`, `"auto"` and `"pre"`. `SettingValuesDistinct` shows they are distinct |
| `AttributeContext.DefaultInputArgs` | inseq/commands/attribute_context/attribute_context_args.py:23-95 | no contract of its own: the input field defaults, an empty current text and every other field `None`. `DefaultsFail` and `PreStrategyWithDefaultTemplateIsTypeError` state what the pass does with them |
| `AttributeContext.DefaultMethodArgs` | inseq/commands/attribute_context/attribute_context_args.py:98-178 | no contract of its own: the method field defaults, with strategy `manual`, no next-token overrides, separator `" "` and thresholds 1.0 |
| `AttributeContext.DefaultOutputArgs` | inseq/commands/attribute_context/attribute_context_args.py:182-206 | no contract of its own: the output field defaults. `OtherFieldsUnchanged` shows the pass never changes these fields |
| `AttributeContext.EarlyError` | inseq/commands/attribute_context/attribute_context_args.py:219-232 | no contract of its own: the two checks made before any assignment. `PreStrategyConflict` and `NextTokenOverridesExclusive` state when each fails |
| `AttributeContext.WithDefaults` | inseq/commands/attribute_context/attribute_context_args.py:233-240 | afterwards both templates and the contextless text are present, and each flag records whether its template contains `{context}` |
| `AttributeContext.ClearUnusedContext` | inseq/commands/attribute_context/attribute_context_args.py:243-254 | only the two context texts can change; no suffix warning is logged; the defaulted shape is kept |
| `AttributeContext.PlaceholderError` | inseq/commands/attribute_context/attribute_context_args.py:255-269 | no contract of its own: the placeholder checks in source order. `PlaceholderGuarantees`, `MissingCurrentFails` and `ValidConfigurationCompletes` state what passing them means |
| `AttributeContext.SuffixWarnings` | inseq/commands/attribute_context/attribute_context_args.py:270-276 | no contract of its own: the suffix warning. `SuffixWarningLast` and `SuffixWarning` state when it is logged and what it reports |
| `AttributeContext.Validate` | inseq/commands/attribute_context/attribute_context_args.py:218-276 | no contract of its own: the whole pass as a function. `PostInit` is proved to follow it exactly, and every lemma in `AttributeContextProperties` is about it; `CompletesIffValid` states when it completes |
| `AttributeContext.AttributeContextArgs.constructor` | inseq/commands/attribute_context/attribute_context_args.py:209-211 | the object holds the given field groups, and the two flags do not exist yet |
| `AttributeContext.AttributeContextArgs.FillDefaults` | inseq/commands/attribute_context/attribute_context_args.py:233-240 | the object's fields afterwards are the defaulted record with its two flags |
| `AttributeContext.AttributeContextArgs.ClearUnusedContextText` | inseq/commands/attribute_context/attribute_context_args.py:243-254 | the object's fields and the logged warnings are those of the clearing step applied to the old fields |
| `AttributeContext.AttributeContextArgs.CheckPlaceholders` | inseq/commands/attribute_context/attribute_context_args.py:255-269 | returns the first failing placeholder check, in source order, and changes nothing |
| `AttributeContext.AttributeContextArgs.PostInit` | inseq/commands/attribute_context/attribute_context_args.py:218-276 | the whole in-place pass. The final fields, the outcome and the warnings are exactly those of `Validate` on the old fields, including the fields assigned before an early raise |
| `AttributeContext.Construct` | inseq/commands/attribute_context/attribute_context_args.py:209-276 | construction yields a fresh object holding the validated record exactly when the pass completes; otherwise it yields the raised error. The warnings are those of the pass |
| `AttributeContextProperties.PreStrategyConflict` | inseq/commands/attribute_context/attribute_context_args.py:219-227 | with `pre` and no truthy output context text: a `None` output template fails with the TypeError, and one containing `{context}` fails with the ValueError. Both directions hold, and in either case nothing is assigned and nothing is logged |
| `AttributeContextProperties.NextTokenOverridesExclusive` | inseq/commands/attribute_context/attribute_context_args.py:228-232 | non-empty contextless next tokens together with the prompt flag always fail. The error is the mutual-exclusion one unless the `pre` check fired first, and the record is unchanged |
| `AttributeContextProperties.TemplateDefaults` | inseq/commands/attribute_context/attribute_context_args.py:233-238 | past the early checks, a `None` template becomes `{current}` when its context text is `None` and `{context} {current}` otherwise. A `None` contextless text becomes `{current}`, and supplied values are kept |
| `AttributeContextProperties.DerivedFlags` | inseq/commands/attribute_context/attribute_context_args.py:239-240 | past the early checks, `has_input_context` and `has_output_context` hold exactly when the final template contains `{context}` |
| `AttributeContextProperties.EmptyCurrentTextFails` | inseq/commands/attribute_context/attribute_context_args.py:241-242 | an empty current text always fails. Past the early checks it fails with the first empty-text error |
| `AttributeContextProperties.EmptyCurrentTextRecheckNeverFires` | inseq/commands/attribute_context/attribute_context_args.py:264-265 | no input makes the second empty-text check fail |
| `AttributeContextProperties.UnusedContextCleared` | inseq/commands/attribute_context/attribute_context_args.py:243-254 | once clearing is reached, a context text is set to `None` exactly when it is truthy and its final template lacks `{context}`. Otherwise it is kept. A warning naming the template is logged exactly when the text is cleared |
| `AttributeContextProperties.UnusedInputContextNotRejected` | inseq/commands/attribute_context/attribute_context_args.py:243-256 | a truthy input context text that the supplied input template does not use is ignored, not rejected: the pass ends as it would without that text, and on success leaves the same record |
| `AttributeContextProperties.UnusedOutputContextNotRejected` | inseq/commands/attribute_context/attribute_context_args.py:219-254 | a truthy output context text that the supplied output template does not use is ignored, not rejected: the pass ends as it would without that text, and on success leaves the same record |
| `AttributeContextProperties.PlaceholderGuarantees` | inseq/commands/attribute_context/attribute_context_args.py:255-269 | when no placeholder check fails: both templates contain `{current}`. A used input context has truthy text. In an output template that uses `{context}`, the first `{context}` starts strictly before the first `{current}` |
| `AttributeContextProperties.SuccessGuarantees` | inseq/commands/attribute_context/attribute_context_args.py:255-269 | after a completed pass: both templates contain `{current}` and the current text is non-empty. The flags match the final templates. `has_input_context` holds exactly when the input context text is truthy, and a truthy output context text implies `has_output_context`. `{context}` precedes `{current}` in an output template that uses `{context}` |
| `AttributeContextProperties.ValidConfigurationCompletes` | inseq/commands/attribute_context/attribute_context_args.py:219-269 | a record meeting every constraint completes: no early conflict, a non-empty current text, `{current}` in both final templates, a truthy input context text when the input template uses `{context}`, and `{context}` before the first `{current}` in an output template that uses it |
| `AttributeContextProperties.CompletedIsValid` | inseq/commands/attribute_context/attribute_context_args.py:219-269 | a completed pass started from a record meeting every constraint |
| `AttributeContextProperties.CompletesIffValid` | inseq/commands/attribute_context/attribute_context_args.py:219-269 | the pass completes exactly on the records that meet every constraint |
| `AttributeContextProperties.MissingCurrentFails` | inseq/commands/attribute_context/attribute_context_args.py:260-263 | a supplied input or output template without `{current}` always makes the pass fail |
| `AttributeContextProperties.OtherFieldsUnchanged` | inseq/commands/attribute_context/attribute_context_args.py:218-276 | the pass never changes the method fields, the output fields, the input current text or the output current text |
| `AttributeContextProperties.SuffixWarning` | inseq/commands/attribute_context/attribute_context_args.py:270-276 | after a completed pass, a suffix warning is logged exactly when the output template does not end with `{current}`. It is the last warning, and its suffix is the non-empty text after the first `{current}` |
| `AttributeContextProperties.SuffixAfterFirstCurrent` | inseq/commands/attribute_context/attribute_context_args.py:270-271 | for a template containing `{current}`, the tail `partition` returns is the text after the first `{current}`. It is non-empty unless the template ends with `{current}` |
| `AttributeContextProperties.SuffixWarningLast` | inseq/commands/attribute_context/attribute_context_args.py:270-276 | appending the final step's warnings to warnings without a suffix warning gives exactly the suffix reporting described above |
| `AttributeContextProperties.CompletedStages` | inseq/commands/attribute_context/attribute_context_args.py:218-276 | a completed pass passed the early checks and the empty-text check and then every placeholder check. Every context text left truthy is used by its template |
| `AttributeContextProperties.StableRecordCompletes` | inseq/commands/attribute_context/attribute_context_args.py:218-276 | a defaulted record that passes every check, and keeps context text only where it is used, goes through the pass unchanged and logs only the suffix warning |
| `AttributeContextProperties.Idempotent` | inseq/commands/attribute_context/attribute_context_args.py:218-276 | running the pass again on a completed record completes, changes nothing and logs at most the suffix warning |
| `AttributeContextProperties.AfterEarlyChecks` | inseq/commands/attribute_context/attribute_context_args.py:233-254 | past the early checks, the final record is the defaulted record, cleared of unused context unless the current text is empty |
| `AttributeContextProperties.PreStrategyWithDefaultTemplateIsTypeError` | inseq/commands/attribute_context/attribute_context_args.py:219-223 | with a current text, strategy `pre` and every other field at its default, the pass raises the TypeError, not the `pre` ValueError |
| `AttributeContextProperties.DefaultsFail` | inseq/commands/attribute_context/attribute_context_args.py:24-32 | the all-defaults record fails with the empty-current-text error, because the default current text is `""` |
| `AttributeContextProperties.EmptyInputContextRejected` | inseq/commands/attribute_context/attribute_context_args.py:255-259 | an input context text of `""` with no template selects `{context} {current}`, and the pass then fails with the missing-input-context error |
| `AttributeContextProperties.OutputContextNotRequired` | inseq/commands/attribute_context/attribute_context_args.py:255-269 | an output template `{context} {current}` without output context text is accepted. `has_output_context` holds and the output context text stays `None` |
| `AttributeContextProperties.CurrentTextOnly` | inseq/commands/attribute_context/attribute_context_args.py:233-240 | with only a current text, the pass completes, the input template is `{current}` and `has_input_context` is false |
| `AttributeContextProperties.CurrentAndContextText` | inseq/commands/attribute_context/attribute_context_args.py:233-240 | with a current text and an input context text, the pass completes, the input template is `{context} {current}`, `has_input_context` is true and the context text is kept |
| `AttributeContextProperties.TagsDiffer` | inseq/commands/attribute_context/attribute_context_args.py:266 | `{context}` and `{current}` never start at the same index, so the order check's `>` gives a strict order |
| `AttributeContextProperties.CurrentTagHasNoContext` | inseq/commands/attribute_context/attribute_context_args.py:234 | the default template `{current}` does not contain `{context}` |
| `AttributeContextProperties.SettingValuesDistinct` | inseq/commands/attribute_context/attribute_context_args.py:15-18 | two strategy settings have the same value exactly when they are the same setting, so the comparison at line 220 identifies `pre` |

## Left out

- Command-line metadata is not modelled: help strings, aliases and `choices`
  (lines 24-206). That `handle_output_context_strategy` is one of the three
  enum values is checked by the argument parser, not by the pass. So that
  field is any string, compared with the value of `HandleOutputContextSetting.Pre`.
- The allowed values of `context_sensitivity_metric` are not modelled. They
  come from `list_step_functions` and `is_contrastive_step_function`, which
  are outside this model.
- The fields inherited from `AttributeBaseArgs` are not modelled. Its source
  file is not part of this model, and the pass does not read them.
- `__repr__`, `to_dict`, `pretty_dict` and `command_args_docstring` are not
  modelled. They are serialisation and documentation glue.
- The two standard-deviation thresholds are floats in the source. Here they
  are `real` values that are carried through and never inspected, so float
  semantics are not modelled.
- Exception messages are not modelled. Each raise site is an `Error`
  constructor without the message text or the template some messages quote
  (lines 257, 261, 263 and 268). Every site but `OutputTemplateNotString`
  (a TypeError) raises a ValueError; the exception class is not carried.
- Logging is reduced to abstract warning events. Each event carries the
  template or suffix its message reports, not the message text.
- Python's dynamic typing is not modelled beyond the `None` output template
  at line 222. A field given a value of another type than its annotation
  (for example a `None` current text) is not representable.
- Dataclass field ordering across the three base classes and the method
  resolution order are not modelled. The model composes the three field
  groups directly.
- `PyStr.Partition` requires a non-empty separator, because Python's
  `str.partition` raises on an empty one. The pass only uses `{current}`.
- Construct: when the pass raises, the model still allocates the object
  before returning the error. Python has allocated it too, but no caller can
  reach it.
