/**
 * Properties of the planner as a whole: which model is used, that a response
 * is passed on unchanged, how failures are reported, and two worked scenarios.
 */
module PlanProperties {
  import opened Wrappers
  import opened Text
  import opened AiPlanner

  // ---------------------------------------------------------------------------
  // Model choice and the response
  // ---------------------------------------------------------------------------

  /** When the primary model can be constructed it is the one asked; a failure of
      that request is reported and the fallback is never tried. */
  lemma PrimaryModelUsed(t: Template, p: Profile, summary: string, env: Provider)
    requires KeyIsSet(env.apiKey) && env.construct(PrimaryModel).Ok?
    ensures var r := GeneratePlan(t, p, summary, env);
      var prompt := PromptFor(t, p, summary);
      && r.calls == [Construct(PrimaryModel), Invoke(PrimaryModel, prompt)]
      && r.text == Normalise(env.generate(PrimaryModel, prompt))
  {
  }

  /** When constructing the primary raises, the fallback is constructed and asked. */
  lemma FallbackModelUsed(t: Template, p: Profile, summary: string, env: Provider)
    requires KeyIsSet(env.apiKey) && env.construct(PrimaryModel).Raised?
    requires env.construct(FallbackModel).Ok?
    ensures var r := GeneratePlan(t, p, summary, env);
      var prompt := PromptFor(t, p, summary);
      && r.calls == [Construct(PrimaryModel), Construct(FallbackModel), Invoke(FallbackModel, prompt)]
      && r.text == Normalise(env.generate(FallbackModel, prompt))
  {
  }

  /** When neither model can be constructed, nothing is asked and the fallback's
      exception goes to the outer handlers. */
  lemma NoModelAvailable(t: Template, p: Profile, summary: string, env: Provider)
    requires KeyIsSet(env.apiKey) && env.construct(PrimaryModel).Raised?
    requires env.construct(FallbackModel).Raised?
    ensures var r := GeneratePlan(t, p, summary, env);
      && r.calls == [Construct(PrimaryModel), Construct(FallbackModel)]
      && r.text == Normalise(Raised(env.construct(FallbackModel).failure))
  {
  }

  /** Exactly one model is asked, once, whenever a key is set and some model
      can be constructed. */
  lemma AtMostOneRequest(t: Template, p: Profile, summary: string, env: Provider)
    ensures var r := GeneratePlan(t, p, summary, env);
      forall i, j :: 0 <= i < j < |r.calls| ==> !(r.calls[i].Invoke? && r.calls[j].Invoke?)
    ensures var r := GeneratePlan(t, p, summary, env);
      (exists i :: 0 <= i < |r.calls| && r.calls[i].Invoke?) <==>
        KeyIsSet(env.apiKey) && (env.construct(PrimaryModel).Ok? || env.construct(FallbackModel).Ok?)
  {
    var r := GeneratePlan(t, p, summary, env);
    if KeyIsSet(env.apiKey) && (env.construct(PrimaryModel).Ok? || env.construct(FallbackModel).Ok?) {
      assert r.calls[|r.calls| - 1].Invoke?;
    }
  }

  /** A successful response reaches the caller unchanged. */
  lemma ResponsePassedThrough(t: Template, p: Profile, summary: string, env: Provider, model: string, prompt: string, text: string)
    requires Invoke(model, prompt) in GeneratePlan(t, p, summary, env).calls
    requires env.generate(model, prompt) == Ok(text)
    ensures GeneratePlan(t, p, summary, env).text == text
  {
  }

  // ---------------------------------------------------------------------------
  // Reading the returned text back
  // ---------------------------------------------------------------------------

  /** What a caller can tell from the returned text alone. */
  datatype Reading =
    | ConfigurationError(message: string)
    | GenerationError(typeName: string, message: string)
    | PlanText(text: string)

  /** `text` starts with `prefix` and ends with `suffix`, the two not overlapping. */
  predicate Framed(text: string, prefix: string, suffix: string) {
    |prefix| + |suffix| <= |text|
    && text[..|prefix|] == prefix
    && text[|text| - |suffix|..] == suffix
  }

  /** Recognises the two error formats and takes them apart; any other text is a plan. */
  function Read(text: string): Reading {
    if Framed(text, ConfigErrorPrefix, ConfigErrorSuffix) then
      ConfigurationError(text[|ConfigErrorPrefix|..|text| - |ConfigErrorSuffix|])
    else if Framed(text, GenerationErrorPrefix, GenerationErrorSuffix) then
      var inner := text[|GenerationErrorPrefix|..|text| - |GenerationErrorSuffix|];
      var k := IndexOf(inner, ')');
      if k + |GenerationErrorSeparator| <= |inner| && inner[k..k + |GenerationErrorSeparator|] == GenerationErrorSeparator
      then GenerationError(inner[..k], inner[k + |GenerationErrorSeparator|..])
      else PlanText(text)
    else PlanText(text)
  }

  lemma ConfigErrorFramed(message: string)
    ensures Framed(ConfigErrorText(message), ConfigErrorPrefix, ConfigErrorSuffix)
    ensures var text := ConfigErrorText(message);
      text[|ConfigErrorPrefix|..|text| - |ConfigErrorSuffix|] == message
  {
  }

  lemma GenerationErrorFramed(typeName: string, message: string)
    ensures Framed(GenerationErrorText(typeName, message), GenerationErrorPrefix, GenerationErrorSuffix)
    ensures !Framed(GenerationErrorText(typeName, message), ConfigErrorPrefix, ConfigErrorSuffix)
    ensures var text := GenerationErrorText(typeName, message);
      text[|GenerationErrorPrefix|..|text| - |GenerationErrorSuffix|]
        == typeName + GenerationErrorSeparator + message
  {
    var text := GenerationErrorText(typeName, message);
    assert text == GenerationErrorPrefix + (typeName + GenerationErrorSeparator + message) + GenerationErrorSuffix;
    assert text[..|GenerationErrorPrefix|] == GenerationErrorPrefix;
    assert text[|text| - |GenerationErrorSuffix|..] == GenerationErrorSuffix;
    assert text[0] == 'E' && ConfigErrorPrefix[0] == 'C';
  }

  /**
   * The two error formats can be told apart and taken apart again: the class name
   * and message of an exception are recovered from the text it was turned into,
   * provided the class name holds no `)` (a Python class name never does).
   */
  lemma ReadFailureText(f: Failure)
    requires forall i :: 0 <= i < |f.typeName| ==> f.typeName[i] != ')'
    ensures Read(Normalise(Raised(f))) ==
      if f.isValueError then ConfigurationError(f.message) else GenerationError(f.typeName, f.message)
  {
    if f.isValueError {
      ConfigErrorFramed(f.message);
    } else {
      GenerationErrorFramed(f.typeName, f.message);
      var inner := f.typeName + GenerationErrorSeparator + f.message;
      assert inner[|f.typeName|] == ')';
      assert IndexOf(inner, ')') == |f.typeName|;
      assert inner[..|f.typeName|] == f.typeName;
      assert inner[|f.typeName|..|f.typeName| + |GenerationErrorSeparator|] == GenerationErrorSeparator;
      assert inner[|f.typeName| + |GenerationErrorSeparator|..] == f.message;
    }
  }

  /** The missing key is reported as a configuration error naming the key's absence. */
  lemma MissingKeyReported(t: Template, p: Profile, summary: string, env: Provider)
    requires !KeyIsSet(env.apiKey)
    ensures Read(GeneratePlan(t, p, summary, env).text) == ConfigurationError(MissingKeyMessage)
  {
    ReadFailureText(Failure("ValueError", MissingKeyMessage, true));
  }

  /**
   * The text channel is shared: a model whose response has the shape of a
   * configuration error is indistinguishable from one.
   */
  lemma ResponseCanLookLikeError(message: string)
    ensures Normalise(Ok(ConfigErrorText(message))) == Normalise(Raised(Failure("ValueError", message, true)))
    ensures Read(Normalise(Ok(ConfigErrorText(message)))) == ConfigurationError(message)
  {
    ConfigErrorFramed(message);
  }

  // ---------------------------------------------------------------------------
  // Scenarios
  // ---------------------------------------------------------------------------

  /** A complete profile aiming at fat loss, with no history summary. */
  const FatLossProfile := Profile(
    Some(Choice("M", "Male")), Some(30), Some(180), Some(80),
    Some(Choice("intermediate", "Intermediate")), Some(Choice("fat_loss", "Fat Loss")))

  /** The values that profile shows, and the prompt it gives. */
  lemma FatLossPrompt(t: Template)
    ensures Derive(FatLossProfile) == Derived("Male", 30, 180, 80, "Intermediate", "Fat Loss")
    ensures PromptFor(t, FatLossProfile, "")
      == BuildPrompt(t, Derived("Male", 30, 180, 80, "Intermediate", "Fat Loss"), DefaultHistory)
  {
  }

  lemma FatLossLines()
    ensures GenderLine("Male") == "* **Gender:** Male\n"
    ensures AgeLine(30) == "* **Age:** 30\n"
    ensures HeightLine(180) == "* **Height:** 180 cm\n"
    ensures WeightLine(80) == "* **Weight:** 80 kg\n"
    ensures LevelLine("Intermediate") == "* **Fitness Level:** Intermediate\n"
  {
    assert Decimal(30) == "30" && Decimal(180) == "180" && Decimal(80) == "80";
  }

  /**
   * The prompt for that profile shows its values, the fat-loss sentence and the
   * default history block.
   */
  lemma FatLossScenario(t: Template)
    ensures var prompt := PromptFor(t, FatLossProfile, "");
      && Occurs("* **Gender:** Male\n", prompt)
      && Occurs("* **Age:** 30\n", prompt)
      && Occurs("* **Height:** 180 cm\n", prompt)
      && Occurs("* **Weight:** 80 kg\n", prompt)
      && Occurs("* **Fitness Level:** Intermediate\n", prompt)
      && Occurs("* **Primary Goal:** " + FatLossSentence + "\n", prompt)
      && Occurs(DefaultHistory, prompt)
  {
    var d := Derived("Male", 30, 180, 80, "Intermediate", "Fat Loss");
    FatLossPrompt(t);
    FatLossLines();
    assert Classify("Fat Loss") == FatLoss;
    PromptShowsDerived(t, d, DefaultHistory);
  }

  /** A profile with nothing set, or with zeros, shows every default. */
  lemma DefaultsPrompt(t: Template, p: Profile)
    requires p.gender == None && p.fitnessLevel == None && p.primaryGoalChoice == None
    requires p.age in {None, Some(0)} && p.heightCm in {None, Some(0)} && p.weightKg in {None, Some(0)}
    ensures Derive(p) == Derived(DefaultGender, 25, 170, 70, DefaultFitnessLevel, DefaultGoalLabel)
    ensures PromptFor(t, p, "")
      == BuildPrompt(t, Derived(DefaultGender, 25, 170, 70, DefaultFitnessLevel, DefaultGoalLabel), DefaultHistory)
  {
  }

  lemma DefaultLines()
    ensures GenderLine(DefaultGender) == "* **Gender:** Not specified\n"
    ensures AgeLine(25) == "* **Age:** 25\n"
    ensures HeightLine(170) == "* **Height:** 170 cm\n"
    ensures WeightLine(70) == "* **Weight:** 70 kg\n"
    ensures LevelLine(DefaultFitnessLevel) == "* **Fitness Level:** Beginner\n"
  {
    assert Decimal(25) == "25" && Decimal(170) == "170" && Decimal(70) == "70";
  }

  lemma DefaultsScenario(t: Template, p: Profile)
    requires p.gender == None && p.fitnessLevel == None && p.primaryGoalChoice == None
    requires p.age in {None, Some(0)} && p.heightCm in {None, Some(0)} && p.weightKg in {None, Some(0)}
    ensures var prompt := PromptFor(t, p, "");
      && Occurs("* **Gender:** Not specified\n", prompt)
      && Occurs("* **Age:** 25\n", prompt)
      && Occurs("* **Height:** 170 cm\n", prompt)
      && Occurs("* **Weight:** 70 kg\n", prompt)
      && Occurs("* **Fitness Level:** Beginner\n", prompt)
      && Occurs("* **Primary Goal:** " + GeneralSentence + "\n", prompt)
  {
    var d := Derived(DefaultGender, 25, 170, 70, DefaultFitnessLevel, DefaultGoalLabel);
    DefaultsPrompt(t, p);
    DefaultLines();
    DefaultGoalIsGeneral();
    PromptShowsDerived(t, d, DefaultHistory);
  }
}
