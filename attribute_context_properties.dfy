/**
 * What the validation pass of `AttributeContextArgs` guarantees, stated about
 * the function `Validate` that `AttributeContextArgs.PostInit` is proved to
 * follow.
 */
module AttributeContextProperties {
  import opened Wrappers
  import opened PyStr
  import opened AttributeContext

  /** The strategy is `pre` and no usable output context text was given. */
  predicate PreWithoutOutputContext(a: Args) {
    a.methodArgs.handleOutputContextStrategy == Pre.Value() && !Truthy(a.inputArgs.outputContextText)
  }

  /** The first check fails: with `pre` and no output context, the supplied output template is `None` or uses `{context}`. */
  ghost predicate PreConflict(a: Args) {
    && PreWithoutOutputContext(a)
    && (a.inputArgs.outputTemplate.None? || Contains(a.inputArgs.outputTemplate.value, ContextTag))
  }

  /** Both ways of overriding the contextless next tokens are requested. */
  predicate BothNextTokenOverrides(a: Args) {
    |a.methodArgs.contextlessOutputNextTokens| > 0 && a.methodArgs.promptUserForContextlessOutputNextTokens
  }

  /** The record after the pass. */
  function After(a: Args): Args {
    Validate(a).args
  }

  /** The three strategy values are distinct strings, so comparing the string identifies the setting. */
  lemma SettingValuesDistinct(x: HandleOutputContextSetting, y: HandleOutputContextSetting)
    ensures x.Value() == y.Value() <==> x == y
  {
  }

  /** The two placeholders cannot start at the same index. */
  lemma TagsDiffer(s: string, k: int)
    requires OccursAt(s, ContextTag, k)
    ensures !OccursAt(s, CurrentTag, k)
  {
    assert s[k + 2] == s[k..k + 9][2] == ContextTag[2] == 'o';
    assert CurrentTag[2] == 'u';
  }

  /** `"{current}"` does not contain `"{context}"`. */
  lemma CurrentTagHasNoContext()
    ensures !Contains(CurrentTag, ContextTag)
  {
    if Contains(CurrentTag, ContextTag) {
      var k :| OccursAt(CurrentTag, ContextTag, k);
      assert k == 0;
      TagsDiffer(CurrentTag, 0);
      assert OccursAt(CurrentTag, CurrentTag, 0);
    }
  }

  /**
   * The `pre` strategy conflict: the pass stops at once, before assigning
   * anything, with a ValueError when the supplied output template uses
   * `{context}`, and with a TypeError when there is no output template yet.
   */
  lemma PreStrategyConflict(a: Args)
    ensures Validate(a).outcome == Raised(OutputTemplateNotString)
        <==> PreWithoutOutputContext(a) && a.inputArgs.outputTemplate.None?
    ensures Validate(a).outcome == Raised(PreStrategyWithoutOutputContext)
        <==> PreWithoutOutputContext(a) && a.inputArgs.outputTemplate.Some?
             && Contains(a.inputArgs.outputTemplate.value, ContextTag)
    ensures PreConflict(a) ==> Validate(a).args == a && Validate(a).warnings == []
  {
  }

  /** Asking both for explicit contextless next tokens and for the prompt always fails, and changes nothing. */
  lemma NextTokenOverridesExclusive(a: Args)
    requires BothNextTokenOverrides(a)
    ensures Validate(a).outcome.Raised?
    ensures !PreConflict(a) ==> Validate(a).outcome == Raised(ConflictingContextlessNextTokens)
    ensures Validate(a).args == a && Validate(a).warnings == []
  {
  }

  /**
   * Once the early checks pass, each `None` template becomes `"{current}"`
   * when its context text is `None` and `"{context} {current}"` otherwise,
   * a `None` contextless text becomes `"{current}"`, and supplied values are kept.
   */
  lemma AfterEarlyChecks(a: Args)
    requires !PreConflict(a) && !BothNextTokenOverrides(a)
    ensures EarlyError(a).None?
    ensures var b := WithDefaults(a);
      After(a) == if b.inputArgs.inputCurrentText == "" then b else ClearUnusedContext(b).0
  {
  }

  lemma TemplateDefaults(a: Args)
    requires !PreConflict(a) && !BothNextTokenOverrides(a)
    ensures var i, r := a.inputArgs, After(a).inputArgs;
      && r.inputTemplate == Some(
           if i.inputTemplate.Some? then i.inputTemplate.value
           else if i.inputContextText.None? then "{current}" else "{context} {current}")
      && r.outputTemplate == Some(
           if i.outputTemplate.Some? then i.outputTemplate.value
           else if i.outputContextText.None? then "{current}" else "{context} {current}")
      && r.contextlessInputCurrentText == Some(
           if i.contextlessInputCurrentText.Some? then i.contextlessInputCurrentText.value else "{current}")
  {
    AfterEarlyChecks(a);
  }

  /** Once the early checks pass, the two flags say whether the final templates use `{context}`. */
  lemma DerivedFlags(a: Args)
    requires !PreConflict(a) && !BothNextTokenOverrides(a)
    ensures var r := After(a);
      && r.inputArgs.inputTemplate.Some? && r.inputArgs.outputTemplate.Some?
      && r.hasInputContext == Some(Contains(r.inputArgs.inputTemplate.value, ContextTag))
      && r.hasOutputContext == Some(Contains(r.inputArgs.outputTemplate.value, ContextTag))
  {
  }

  /** An empty current text always fails; past the early checks, with the first of the two empty-text errors. */
  lemma EmptyCurrentTextFails(a: Args)
    requires a.inputArgs.inputCurrentText == ""
    ensures Validate(a).outcome.Raised?
    ensures !PreConflict(a) && !BothNextTokenOverrides(a) ==> Validate(a).outcome == Raised(EmptyInputCurrentText)
  {
  }

  /** The second empty-text check never fires: the first one has already rejected every empty text. */
  lemma EmptyCurrentTextRecheckNeverFires(a: Args)
    ensures Validate(a).outcome != Raised(EmptyInputCurrentTextRecheck)
  {
  }

  /**
   * Unused context text: once the pass reaches the clearing step, a truthy
   * context text whose final template has no `{context}` is cleared with a
   * warning naming the template; any other context text is kept as it was.
   */
  lemma UnusedContextCleared(a: Args)
    requires !PreConflict(a) && !BothNextTokenOverrides(a) && a.inputArgs.inputCurrentText != ""
    ensures var i, r := a.inputArgs, Validate(a);
      var it, ot := r.args.inputArgs.inputTemplate.value, r.args.inputArgs.outputTemplate.value;
      var inputUnused := Truthy(i.inputContextText) && !Contains(it, ContextTag);
      var outputUnused := Truthy(i.outputContextText) && !Contains(ot, ContextTag);
      && r.args.inputArgs.inputContextText == (if inputUnused then None else i.inputContextText)
      && r.args.inputArgs.outputContextText == (if outputUnused then None else i.outputContextText)
      && (InputContextIgnored(it) in r.warnings <==> inputUnused)
      && (OutputContextIgnored(ot) in r.warnings <==> outputUnused)
  {
    AfterEarlyChecks(a);
  }

  /**
   * Unused input context text is not rejected: a truthy input context text
   * that the supplied input template does not use leads to the same outcome
   * as no input context text, and on success to the same record.
   */
  lemma UnusedInputContextNotRejected(a: Args)
    requires a.inputArgs.inputTemplate.Some? && !Contains(a.inputArgs.inputTemplate.value, ContextTag)
    requires Truthy(a.inputArgs.inputContextText)
    ensures var a0 := a.(inputArgs := a.inputArgs.(inputContextText := None));
      && Validate(a).outcome == Validate(a0).outcome
      && (Validate(a).outcome == Completed ==> Validate(a).args == Validate(a0).args)
  {
  }

  /**
   * Unused output context text is not rejected: a truthy output context text
   * that the supplied output template does not use leads to the same outcome
   * as no output context text, and on success to the same record.
   */
  lemma UnusedOutputContextNotRejected(a: Args)
    requires a.inputArgs.outputTemplate.Some? && !Contains(a.inputArgs.outputTemplate.value, ContextTag)
    requires Truthy(a.inputArgs.outputContextText)
    ensures var a0 := a.(inputArgs := a.inputArgs.(outputContextText := None));
      && Validate(a).outcome == Validate(a0).outcome
      && (Validate(a).outcome == Completed ==> Validate(a).args == Validate(a0).args)
  {
  }

  /** A completed pass went through every stage: `c` is the record after clearing, and no placeholder check failed. */
  lemma CompletedStages(a: Args) returns (c: Args)
    requires Validate(a).outcome == Completed
    ensures EarlyError(a).None? && c == ClearUnusedContext(WithDefaults(a)).0
    ensures Defaulted(c) && PlaceholderError(c).None? && After(a) == c
    ensures c.inputArgs.inputCurrentText != ""
    ensures Truthy(c.inputArgs.inputContextText) ==> c.hasInputContext == Some(true)
    ensures Truthy(c.inputArgs.outputContextText) ==> c.hasOutputContext == Some(true)
    ensures Validate(a).warnings == ClearUnusedContext(WithDefaults(a)).1 + SuffixWarnings(c)
  {
    assert EarlyError(a).None?;
    var b := WithDefaults(a);
    assert b.inputArgs.inputCurrentText != "";
    c := ClearUnusedContext(b).0;
    assert PlaceholderError(c).None?;
  }

  /** What passing every placeholder check says about a defaulted record. */
  lemma PlaceholderGuarantees(c: Args)
    requires Defaulted(c) && PlaceholderError(c).None?
    ensures var it, ot := c.inputArgs.inputTemplate.value, c.inputArgs.outputTemplate.value;
      && Contains(it, CurrentTag) && Contains(ot, CurrentTag)
      && (c.hasInputContext == Some(true) ==> Truthy(c.inputArgs.inputContextText))
      && (c.hasOutputContext == Some(true) ==> 0 <= Find(ot, ContextTag) < Find(ot, CurrentTag))
  {
    var ot := c.inputArgs.outputTemplate.value;
    if c.hasOutputContext == Some(true) {
      var k := Find(ot, ContextTag);
      assert k >= 0 && Find(ot, CurrentTag) >= 0;
      TagsDiffer(ot, k);
    }
  }

  /**
   * A completed pass leaves both templates with `{current}`, a non-empty
   * current text, a non-empty input context text whenever the input template
   * uses `{context}`, a context text only where its template uses it, and
   * `{context}` strictly before the first `{current}` in an output template that uses it.
   */
  lemma SuccessGuarantees(a: Args)
    requires Validate(a).outcome == Completed
    ensures var r := After(a);
      var it, ot := r.inputArgs.inputTemplate, r.inputArgs.outputTemplate;
      && it.Some? && ot.Some?
      && Contains(it.value, CurrentTag) && Contains(ot.value, CurrentTag)
      && r.inputArgs.inputCurrentText != ""
      && r.hasInputContext == Some(Contains(it.value, ContextTag))
      && r.hasOutputContext == Some(Contains(ot.value, ContextTag))
      && (r.hasInputContext == Some(true) <==> Truthy(r.inputArgs.inputContextText))
      && (Truthy(r.inputArgs.outputContextText) ==> r.hasOutputContext == Some(true))
      && (r.hasOutputContext == Some(true) ==> 0 <= Find(ot.value, ContextTag) < Find(ot.value, CurrentTag))
  {
    var c := CompletedStages(a);
    PlaceholderGuarantees(c);
  }

  /** The input template the pass ends up with: the supplied one, or the default for its context text. */
  function FinalInputTemplate(i: InputArgs): string {
    if i.inputTemplate.Some? then i.inputTemplate.value else DefaultTemplate(i.inputContextText)
  }

  /** The output template the pass ends up with: the supplied one, or the default for its context text. */
  function FinalOutputTemplate(i: InputArgs): string {
    if i.outputTemplate.Some? then i.outputTemplate.value else DefaultTemplate(i.outputContextText)
  }

  /**
   * Every constraint of the pass, stated on the record as constructed: no
   * early conflict, a non-empty current text, `{current}` in both final
   * templates, a truthy input context text when the input template uses
   * `{context}`, and `{context}` before the first `{current}` in an output
   * template that uses it.
   */
  ghost predicate ValidConfiguration(a: Args) {
    var i := a.inputArgs;
    var it, ot := FinalInputTemplate(i), FinalOutputTemplate(i);
    && !PreConflict(a) && !BothNextTokenOverrides(a)
    && i.inputCurrentText != ""
    && Contains(it, CurrentTag) && Contains(ot, CurrentTag)
    && (Contains(it, ContextTag) ==> Truthy(i.inputContextText))
    && (Contains(ot, ContextTag) ==> Find(ot, ContextTag) < Find(ot, CurrentTag))
  }

  /** A record meeting every constraint completes: the pass rejects nothing valid. */
  lemma ValidConfigurationCompletes(a: Args)
    requires ValidConfiguration(a)
    ensures Validate(a).outcome == Completed
  {
  }

  /** A completed pass started from a record meeting every constraint. */
  lemma CompletedIsValid(a: Args)
    requires Validate(a).outcome == Completed
    ensures ValidConfiguration(a)
  {
    var c := CompletedStages(a);
    PlaceholderGuarantees(c);
    AfterEarlyChecks(a);
    TemplateDefaults(a);
  }

  /** The pass completes exactly on the records that meet every constraint. */
  lemma CompletesIffValid(a: Args)
    ensures Validate(a).outcome == Completed <==> ValidConfiguration(a)
  {
    if Validate(a).outcome == Completed {
      CompletedIsValid(a);
    }
    if ValidConfiguration(a) {
      ValidConfigurationCompletes(a);
    }
  }

  /** A supplied template without `{current}` always fails. */
  lemma MissingCurrentFails(a: Args)
    requires || (a.inputArgs.inputTemplate.Some? && !Contains(a.inputArgs.inputTemplate.value, CurrentTag))
             || (a.inputArgs.outputTemplate.Some? && !Contains(a.inputArgs.outputTemplate.value, CurrentTag))
    ensures Validate(a).outcome.Raised?
  {
    if Validate(a).outcome == Completed {
      SuccessGuarantees(a);
    }
  }

  /**
   * The pass changes only the two templates, the contextless text, the two
   * context texts and the two flags.
   */
  lemma OtherFieldsUnchanged(a: Args)
    ensures After(a).methodArgs == a.methodArgs
    ensures After(a).outputArgs == a.outputArgs
    ensures After(a).inputArgs.inputCurrentText == a.inputArgs.inputCurrentText
    ensures After(a).inputArgs.outputCurrentText == a.inputArgs.outputCurrentText
  {
  }

  /**
   * On a completed pass, the suffix warning is logged exactly when the output
   * template does not end with `{current}`; it is the last warning, and the
   * suffix it reports is the non-empty text after the first `{current}`.
   */
  lemma SuffixWarning(a: Args)
    requires Validate(a).outcome == Completed
    ensures SuffixReported(After(a), Validate(a).warnings)
  {
    var c := CompletedStages(a);
    PlaceholderGuarantees(c);
    SuffixWarningLast(c, ClearUnusedContext(WithDefaults(a)).1);
  }

  /** The suffix warning, if any, is the last of `warnings`, and is logged exactly when the output template does not end with `{current}`; the suffix is the non-empty text after the first `{current}`. */
  ghost predicate SuffixReported(c: Args, warnings: seq<Warning>) {
    && c.inputArgs.outputTemplate.Some?
    && var ot := c.inputArgs.outputTemplate.value;
       var k := Find(ot, CurrentTag);
       && 0 <= k
       && (EndsWith(ot, CurrentTag) <==> forall w :: w in warnings ==> !w.OutputTemplateSuffix?)
       && (!EndsWith(ot, CurrentTag) ==>
             && |warnings| > 0
             && warnings[|warnings| - 1] == OutputTemplateSuffix(ot[k + |CurrentTag|..])
             && ot[k + |CurrentTag|..] != "")
  }

  /** The warnings of the final step, appended to warnings that report no suffix. */
  lemma SuffixWarningLast(c: Args, w: seq<Warning>)
    requires Defaulted(c) && Contains(c.inputArgs.outputTemplate.value, CurrentTag)
    requires forall x :: x in w ==> !x.OutputTemplateSuffix?
    ensures SuffixReported(c, w + SuffixWarnings(c))
  {
    var ot := c.inputArgs.outputTemplate.value;
    var k := Find(ot, CurrentTag);
    SuffixAfterFirstCurrent(ot);
    if EndsWith(ot, CurrentTag) {
      assert w + SuffixWarnings(c) == w;
    } else {
      var all := w + SuffixWarnings(c);
      assert all == w + [OutputTemplateSuffix(ot[k + |CurrentTag|..])];
      assert all[|all| - 1] == OutputTemplateSuffix(ot[k + |CurrentTag|..]);
    }
  }

  /** What `partition` reports as the suffix of a template containing `{current}`: the non-empty text after its first occurrence, unless the template ends with it. */
  lemma SuffixAfterFirstCurrent(ot: string)
    requires Contains(ot, CurrentTag)
    ensures var k := Find(ot, CurrentTag);
      && 0 <= k
      && Partition(ot, CurrentTag).2 == ot[k + |CurrentTag|..]
      && (!EndsWith(ot, CurrentTag) ==> ot[k + |CurrentTag|..] != "")
  {
    var k := Find(ot, CurrentTag);
    var p := Partition(ot, CurrentTag);
    assert |p.0| == k by {
      assert OccursAt(ot, CurrentTag, |p.0|) by {
        assert ot[|p.0|..|p.0| + |CurrentTag|] == (p.0 + p.1 + p.2)[|p.0|..|p.0| + |p.1|] == p.1;
      }
    }
    assert p.2 == ot[k + |CurrentTag|..] by {
      assert ot == p.0 + p.1 + p.2;
    }
  }

  /**
   * A defaulted record that passes every check and keeps context text only
   * where its template uses it completes the pass unchanged, logging at most
   * the suffix warning.
   */
  lemma StableRecordCompletes(c: Args)
    requires Defaulted(c) && EarlyError(c).None? && c.inputArgs.inputCurrentText != ""
    requires PlaceholderError(c).None?
    requires Truthy(c.inputArgs.inputContextText) ==> c.hasInputContext == Some(true)
    requires Truthy(c.inputArgs.outputContextText) ==> c.hasOutputContext == Some(true)
    ensures Validate(c) == Run(c, Completed, SuffixWarnings(c))
  {
    assert FillTemplates(c).inputArgs == c.inputArgs;
    assert FillTemplates(c) == c;
    assert AddFlags(c) == c;
    var r := ClearUnusedContext(c);
    assert r.0.inputArgs == c.inputArgs;
    assert r.1 == [];
    assert r.0 == c;
  }

  /** Running the pass again on a completed record completes, changes nothing and logs at most the suffix warning. */
  lemma Idempotent(a: Args)
    requires Validate(a).outcome == Completed
    ensures var b := After(a);
      && Validate(b).outcome == Completed
      && Validate(b).args == b
      && forall w :: w in Validate(b).warnings ==> w.OutputTemplateSuffix?
  {
    var c := CompletedStages(a);
    var ot := c.inputArgs.outputTemplate.value;
    assert In(ContextTag, ot) ==> c.inputArgs.outputContextText == a.inputArgs.outputContextText;
    assert a.inputArgs.outputTemplate.Some? ==> a.inputArgs.outputTemplate == c.inputArgs.outputTemplate;
    if PreWithoutOutputContext(c) && In(ContextTag, ot) {
      assert false;
    }
    assert EarlyError(c).None?;
    StableRecordCompletes(c);
  }

  /**
   * Choosing the `pre` strategy while leaving the output template and the
   * output context text at their defaults fails with a TypeError: `{context}`
   * is searched for in the output template before it is defaulted.
   */
  lemma PreStrategyWithDefaultTemplateIsTypeError()
    ensures var a := Initial(DefaultInputArgs().(inputCurrentText := "Hello"),
                             DefaultMethodArgs().(handleOutputContextStrategy := "pre"), DefaultOutputArgs());
      Validate(a).outcome == Raised(OutputTemplateNotString)
  {
  }

  /** The default record fails: the default current text is empty. */
  lemma DefaultsFail()
    ensures Validate(Initial(DefaultInputArgs(), DefaultMethodArgs(), DefaultOutputArgs())).outcome
         == Raised(EmptyInputCurrentText)
  {
  }

  /** An empty input context text still selects the context template, which the placeholder check then rejects. */
  lemma EmptyInputContextRejected(a: Args)
    requires !PreConflict(a) && !BothNextTokenOverrides(a) && a.inputArgs.inputCurrentText != ""
    requires a.inputArgs.inputContextText == Some("") && a.inputArgs.inputTemplate.None?
    ensures After(a).inputArgs.inputTemplate == Some("{context} {current}")
    ensures Validate(a).outcome == Raised(MissingInputContextText)
  {
    assert OccursAt(ContextCurrentTemplate, ContextTag, 0);
  }

  /** There is no output-side counterpart of the input context check: `{context}` in the output template without output context text is accepted. */
  lemma OutputContextNotRequired()
    ensures var a := Initial(DefaultInputArgs().(inputCurrentText := "Hello", outputTemplate := Some("{context} {current}")),
                             DefaultMethodArgs(), DefaultOutputArgs());
      && Validate(a).outcome == Completed
      && After(a).hasOutputContext == Some(true)
      && After(a).inputArgs.outputContextText == None
  {
    var t := ContextCurrentTemplate;
    assert OccursAt(t, ContextTag, 0);
    assert OccursAt(t, CurrentTag, 10);
    assert OccursAt(CurrentTag, CurrentTag, 0);
    CurrentTagHasNoContext();
  }

  /** With a current text and nothing else, the input template is `{current}` and there is no input context. */
  lemma CurrentTextOnly()
    ensures var a := Initial(DefaultInputArgs().(inputCurrentText := "Hello"), DefaultMethodArgs(), DefaultOutputArgs());
      && Validate(a).outcome == Completed
      && After(a).inputArgs.inputTemplate == Some("{current}")
      && After(a).hasInputContext == Some(false)
  {
    assert OccursAt(CurrentTag, CurrentTag, 0);
    CurrentTagHasNoContext();
  }

  /** With a current text and an input context text, the input template is `{context} {current}` and the context is used. */
  lemma CurrentAndContextText()
    ensures var a := Initial(DefaultInputArgs().(inputCurrentText := "Hello", inputContextText := Some("World")),
                             DefaultMethodArgs(), DefaultOutputArgs());
      && Validate(a).outcome == Completed
      && After(a).inputArgs.inputTemplate == Some("{context} {current}")
      && After(a).hasInputContext == Some(true)
      && After(a).inputArgs.inputContextText == Some("World")
  {
    var t := ContextCurrentTemplate;
    assert OccursAt(t, ContextTag, 0);
    assert OccursAt(t, CurrentTag, 10);
    assert OccursAt(CurrentTag, CurrentTag, 0);
    CurrentTagHasNoContext();
  }
}
