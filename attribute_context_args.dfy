/**
 * The argument record of the `attribute-context` command and the validation
 * and defaulting pass that runs once when the record is constructed
 * (`AttributeContextArgs.__post_init__`).
 *
 * `Validate` is the pass as a function from the record before the pass to
 * the record after it, the outcome (completed, or the exception raised) and
 * the warnings logged on the way. The class `AttributeContextArgs` holds the
 * same fields as mutable state, and its method `PostInit` performs the pass
 * by updating them one after another, as the source does; its contract ties
 * it to `Validate`.
 */
module AttributeContext {
  import opened Wrappers
  import opened PyStr

  /** How an output context produced together with the output current text is separated from it. */
  datatype HandleOutputContextSetting = Manual | Auto | Pre {
    /** The string value the command line accepts for this setting. */
    function Value(): string {
      match this
      case Manual => "manual"
      case Auto => "auto"
      case Pre => "pre"
    }
  }

  const ContextTag: string := "{context}"
  const CurrentTag: string := "{current}"
  /** The template used when a context text is supplied but no template. */
  const ContextCurrentTemplate: string := "{context} {current}"

  /** The input-side fields (`AttributeContextInputArgs`). */
  datatype InputArgs = InputArgs(
    inputCurrentText: string,
    inputContextText: Option<string>,
    inputTemplate: Option<string>,
    outputContextText: Option<string>,
    outputCurrentText: Option<string>,
    outputTemplate: Option<string>,
    contextlessInputCurrentText: Option<string>)

  /**
   * The method fields (`AttributeContextMethodArgs`). The two thresholds are
   * floating-point numbers in the source; they are carried through and never
   * inspected here.
   */
  datatype MethodArgs = MethodArgs(
    contextSensitivityMetric: string,
    handleOutputContextStrategy: string,
    contextlessOutputNextTokens: seq<string>,
    promptUserForContextlessOutputNextTokens: bool,
    specialTokensToKeep: seq<string>,
    decoderInputOutputSeparator: string,
    contextSensitivityStdThreshold: real,
    contextSensitivityTopk: Option<int>,
    attributionStdThreshold: real,
    attributionTopk: Option<int>)

  /** The output fields (`AttributeContextOutputArgs`). */
  datatype OutputArgs = OutputArgs(
    showIntermediateOutputs: bool,
    savePath: Option<string>,
    addOutputInfo: bool,
    vizPath: Option<string>,
    showViz: bool)

  /**
   * The merged record. `hasInputContext` and `hasOutputContext` are the
   * attributes the pass adds; `None` means the attribute does not exist yet.
   */
  datatype Args = Args(
    inputArgs: InputArgs,
    methodArgs: MethodArgs,
    outputArgs: OutputArgs,
    hasInputContext: Option<bool>,
    hasOutputContext: Option<bool>)

  /** The default value of every input field. */
  function DefaultInputArgs(): InputArgs {
    InputArgs("", None, None, None, None, None, None)
  }

  /** The default value of every method field. */
  function DefaultMethodArgs(): MethodArgs {
    MethodArgs("kl_divergence", Manual.Value(), [], false, [], " ", 1.0, None, 1.0, None)
  }

  /** The default value of every output field. */
  function DefaultOutputArgs(): OutputArgs {
    OutputArgs(false, None, true, None, true)
  }

  /** The record a fresh object holds before the pass runs. */
  function Initial(inputArgs: InputArgs, methodArgs: MethodArgs, outputArgs: OutputArgs): Args {
    Args(inputArgs, methodArgs, outputArgs, None, None)
  }

  /**
   * The exceptions the pass raises, one per raise site. The empty current
   * text is checked twice with the same message; the two checks are told
   * apart here. Every raise site but the first is a ValueError; the message
   * texts, and the template some of them quote, are not carried.
   */
  datatype Error =
    | OutputTemplateNotString           // TypeError: `"{context}" in None`
    | PreStrategyWithoutOutputContext
    | ConflictingContextlessNextTokens
    | EmptyInputCurrentText
    | MissingInputContextText
    | MissingCurrentInInputTemplate
    | MissingCurrentInOutputTemplate
    | EmptyInputCurrentTextRecheck
    | ContextAfterCurrentInOutputTemplate

  /** The logged warnings, with the value each message reports. */
  datatype Warning =
    | InputContextIgnored(inputTemplate: string)
    | OutputContextIgnored(outputTemplate: string)
    | OutputTemplateSuffix(suffix: string)

  datatype Outcome = Completed | Raised(error: Error)

  /** The result of one pass: the record afterwards, how the pass ended and what it logged. */
  datatype Run = Run(args: Args, outcome: Outcome, warnings: seq<Warning>)

  /** The template a `None` template becomes, given the matching context text. */
  function DefaultTemplate(contextText: Option<string>): string {
    if contextText.None? then CurrentTag else ContextCurrentTemplate
  }

  /** The checks made before any field is changed: the `pre` strategy conflict and the contextless next tokens. */
  function EarlyError(a: Args): Option<Error> {
    var i := a.inputArgs;
    var m := a.methodArgs;
    if m.handleOutputContextStrategy == Pre.Value() && !Truthy(i.outputContextText) && i.outputTemplate.None? then
      Some(OutputTemplateNotString)
    else if m.handleOutputContextStrategy == Pre.Value() && !Truthy(i.outputContextText)
      && In(ContextTag, i.outputTemplate.value) then
      Some(PreStrategyWithoutOutputContext)
    else if |m.contextlessOutputNextTokens| > 0 && m.promptUserForContextlessOutputNextTokens then
      Some(ConflictingContextlessNextTokens)
    else
      None
  }

  /** Both templates and the contextless text are present, and the two flags record whether each template uses `{context}`. */
  predicate Defaulted(a: Args) {
    && a.inputArgs.inputTemplate.Some?
    && a.inputArgs.outputTemplate.Some?
    && a.inputArgs.contextlessInputCurrentText.Some?
    && a.hasInputContext == Some(In(ContextTag, a.inputArgs.inputTemplate.value))
    && a.hasOutputContext == Some(In(ContextTag, a.inputArgs.outputTemplate.value))
  }

  /** Fills in the two templates and the contextless text where they are `None`. */
  function FillTemplates(a: Args): Args {
    var i := a.inputArgs;
    a.(inputArgs := i.(
      inputTemplate := Some(if i.inputTemplate.None? then DefaultTemplate(i.inputContextText) else i.inputTemplate.value),
      outputTemplate := Some(if i.outputTemplate.None? then DefaultTemplate(i.outputContextText) else i.outputTemplate.value),
      contextlessInputCurrentText := Some(if i.contextlessInputCurrentText.None? then CurrentTag else i.contextlessInputCurrentText.value)))
  }

  /** Records whether each template uses `{context}`. */
  function AddFlags(a: Args): Args
    requires a.inputArgs.inputTemplate.Some? && a.inputArgs.outputTemplate.Some?
  {
    a.(hasInputContext := Some(In(ContextTag, a.inputArgs.inputTemplate.value)),
       hasOutputContext := Some(In(ContextTag, a.inputArgs.outputTemplate.value)))
  }

  /** Fills in the defaults and adds the two flags. */
  function WithDefaults(a: Args): (b: Args)
    ensures Defaulted(b)
  {
    AddFlags(FillTemplates(a))
  }

  /** Drops a context text that its template does not use, with a warning. */
  function ClearUnusedContext(b: Args): (r: (Args, seq<Warning>))
    requires Defaulted(b)
    ensures Defaulted(r.0)
    ensures r.0 == b.(inputArgs := b.inputArgs.(inputContextText := r.0.inputArgs.inputContextText,
                                                 outputContextText := r.0.inputArgs.outputContextText))
    ensures forall w :: w in r.1 ==> !w.OutputTemplateSuffix?
  {
    var i := b.inputArgs;
    var (i1, w1) :=
      if Truthy(i.inputContextText) && !b.hasInputContext.value then
        (i.(inputContextText := None), [InputContextIgnored(i.inputTemplate.value)])
      else (i, []);
    var (i2, w2) :=
      if Truthy(i1.outputContextText) && !b.hasOutputContext.value then
        (i1.(outputContextText := None), [OutputContextIgnored(i1.outputTemplate.value)])
      else (i1, []);
    (b.(inputArgs := i2), w1 + w2)
  }

  /** The placeholder checks, in the order the source makes them. */
  function PlaceholderError(c: Args): Option<Error>
    requires Defaulted(c)
  {
    var i := c.inputArgs;
    var inputTemplate := i.inputTemplate.value;
    var outputTemplate := i.outputTemplate.value;
    if !Truthy(i.inputContextText) && c.hasInputContext.value then Some(MissingInputContextText)
    else if !In(CurrentTag, inputTemplate) then Some(MissingCurrentInInputTemplate)
    else if !In(CurrentTag, outputTemplate) then Some(MissingCurrentInOutputTemplate)
    else if i.inputCurrentText == "" then Some(EmptyInputCurrentTextRecheck)
    else if c.hasOutputContext.value && Find(outputTemplate, ContextTag) > Find(outputTemplate, CurrentTag) then
      Some(ContextAfterCurrentInOutputTemplate)
    else None
  }

  /** The warning about text after `{current}` in the output template. */
  function SuffixWarnings(c: Args): seq<Warning>
    requires Defaulted(c)
  {
    var outputTemplate := c.inputArgs.outputTemplate.value;
    if EndsWith(outputTemplate, CurrentTag) then []
    else [OutputTemplateSuffix(Partition(outputTemplate, CurrentTag).2)]
  }

  /** The whole pass, from the record as constructed. */
  function Validate(a: Args): Run {
    match EarlyError(a)
    case Some(e) => Run(a, Raised(e), [])
    case None =>
      var b := WithDefaults(a);
      if b.inputArgs.inputCurrentText == "" then Run(b, Raised(EmptyInputCurrentText), [])
      else
        var (c, w) := ClearUnusedContext(b);
        match PlaceholderError(c)
        case Some(e) => Run(c, Raised(e), w)
        case None => Run(c, Completed, w + SuffixWarnings(c))
  }

  /** The record as a mutable object, with the pass as a method on it. */
  class AttributeContextArgs {
    var inputCurrentText: string
    var inputContextText: Option<string>
    var inputTemplate: Option<string>
    var outputContextText: Option<string>
    var outputCurrentText: Option<string>
    var outputTemplate: Option<string>
    var contextlessInputCurrentText: Option<string>

    /** The method and output fields, which the pass never assigns; it reads only the three method fields it checks. */
    var methodArgs: MethodArgs
    var outputArgs: OutputArgs

    var hasInputContext: Option<bool>
    var hasOutputContext: Option<bool>

    /** The object's fields as a record. */
    function State(): Args
      reads this
    {
      Args(
        InputArgs(inputCurrentText, inputContextText, inputTemplate, outputContextText,
                  outputCurrentText, outputTemplate, contextlessInputCurrentText),
        methodArgs, outputArgs,
        hasInputContext, hasOutputContext)
    }

    /** Stores the given fields; the derived flags do not exist yet. */
    constructor (inputArgs: InputArgs, methodArgs: MethodArgs, outputArgs: OutputArgs)
      ensures State() == Initial(inputArgs, methodArgs, outputArgs)
    {
      inputCurrentText := inputArgs.inputCurrentText;
      inputContextText := inputArgs.inputContextText;
      inputTemplate := inputArgs.inputTemplate;
      outputContextText := inputArgs.outputContextText;
      outputCurrentText := inputArgs.outputCurrentText;
      outputTemplate := inputArgs.outputTemplate;
      contextlessInputCurrentText := inputArgs.contextlessInputCurrentText;
      this.methodArgs := methodArgs;
      this.outputArgs := outputArgs;
      hasInputContext := None;
      hasOutputContext := None;
    }

    /** Fills in the two templates and the contextless text, and adds the two flags. */
    method FillDefaults()
      modifies this
      ensures State() == WithDefaults(old(State()))
    {
      ghost var a := State();
      if inputTemplate.None? {
        inputTemplate := Some(DefaultTemplate(inputContextText));
      }
      if outputTemplate.None? {
        outputTemplate := Some(DefaultTemplate(outputContextText));
      }
      if contextlessInputCurrentText.None? {
        contextlessInputCurrentText := Some(CurrentTag);
      }
      assert State() == FillTemplates(a);
      hasInputContext := Some(In(ContextTag, inputTemplate.value));
      hasOutputContext := Some(In(ContextTag, outputTemplate.value));
    }

    /** Clears each context text that its template does not use, logging a warning for it. */
    method ClearUnusedContextText() returns (warnings: seq<Warning>)
      requires Defaulted(State())
      modifies this
      ensures (State(), warnings) == ClearUnusedContext(old(State()))
    {
      warnings := [];
      if Truthy(inputContextText) && !hasInputContext.value {
        warnings := warnings + [InputContextIgnored(inputTemplate.value)];
        inputContextText := None;
      }
      if Truthy(outputContextText) && !hasOutputContext.value {
        warnings := warnings + [OutputContextIgnored(outputTemplate.value)];
        outputContextText := None;
      }
      ghost var r := ClearUnusedContext(old(State()));
      assert inputContextText == r.0.inputArgs.inputContextText && outputContextText == r.0.inputArgs.outputContextText;
      assert State().inputArgs == r.0.inputArgs;
      assert State() == r.0 && warnings == r.1;
    }

    /** The placeholder checks; changes nothing. */
    method CheckPlaceholders() returns (error: Option<Error>)
      requires Defaulted(State())
      ensures error == PlaceholderError(State())
    {
      if !Truthy(inputContextText) && hasInputContext.value {
        return Some(MissingInputContextText);
      }
      if !In(CurrentTag, inputTemplate.value) {
        return Some(MissingCurrentInInputTemplate);
      }
      if !In(CurrentTag, outputTemplate.value) {
        return Some(MissingCurrentInOutputTemplate);
      }
      if inputCurrentText == "" {
        return Some(EmptyInputCurrentTextRecheck);
      }
      if hasOutputContext.value && Find(outputTemplate.value, ContextTag) > Find(outputTemplate.value, CurrentTag) {
        return Some(ContextAfterCurrentInOutputTemplate);
      }
      return None;
    }

    /**
     * The validation and defaulting pass. It either completes or stops at the
     * first failing check; in both cases the object holds what the pass had
     * assigned up to that point.
     */
    method PostInit() returns (outcome: Outcome, warnings: seq<Warning>)
      modifies this
      ensures State() == Validate(old(State())).args
      ensures outcome == Validate(old(State())).outcome
      ensures warnings == Validate(old(State())).warnings
    {
      warnings := [];
      if methodArgs.handleOutputContextStrategy == Pre.Value() && !Truthy(outputContextText) {
        if outputTemplate.None? {
          return Raised(OutputTemplateNotString), warnings;
        }
        if In(ContextTag, outputTemplate.value) {
          return Raised(PreStrategyWithoutOutputContext), warnings;
        }
      }
      if |methodArgs.contextlessOutputNextTokens| > 0 && methodArgs.promptUserForContextlessOutputNextTokens {
        return Raised(ConflictingContextlessNextTokens), warnings;
      }
      FillDefaults();
      if inputCurrentText == "" {
        return Raised(EmptyInputCurrentText), warnings;
      }
      warnings := ClearUnusedContextText();
      var error := CheckPlaceholders();
      if error.Some? {
        return Raised(error.value), warnings;
      }
      if !EndsWith(outputTemplate.value, CurrentTag) {
        var (_, _, suffix) := Partition(outputTemplate.value, CurrentTag);
        warnings := warnings + [OutputTemplateSuffix(suffix)];
      }
      outcome := Completed;
    }
  }

  /**
   * Constructing the record: the fields are stored and the pass runs. When the
   * pass raises, no object is produced.
   */
  method Construct(inputArgs: InputArgs, methodArgs: MethodArgs, outputArgs: OutputArgs)
    returns (result: Result<AttributeContextArgs, Error>, warnings: seq<Warning>)
    ensures var run := Validate(Initial(inputArgs, methodArgs, outputArgs));
      && warnings == run.warnings
      && (run.outcome == Completed <==> result.Success?)
      && (result.Failure? ==> run.outcome == Raised(result.error))
      && (result.Success? ==> fresh(result.value) && result.value.State() == run.args)
  {
    var args := new AttributeContextArgs(inputArgs, methodArgs, outputArgs);
    var outcome;
    outcome, warnings := args.PostInit();
    if outcome.Raised? {
      result := Failure(outcome.error);
    } else {
      result := Success(args);
    }
  }
}
