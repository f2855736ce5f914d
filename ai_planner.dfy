/**
 * The plan generator of core/ai_planner.py: `generate_fitness_plan_from_profile`.
 *
 * It reads an API key, derives six display values from the user's profile
 * (falling back to fixed defaults for anything Python treats as false), turns
 * the goal label into one of three goal sentences, fills a fixed prompt
 * template, asks a hosted model for a plan (a primary model, and a second one
 * only when the first cannot be constructed), and turns every failure into a
 * returned message instead of an exception.
 *
 * The generation library and the process environment are inputs: a
 * `Provider` carries the key as the environment holds it and the outcome of
 * each library call. The function returns the text the caller sees together
 * with the library calls it made, in order.
 */
module AiPlanner {
  import opened Wrappers
  import opened Text

  // ---------------------------------------------------------------------------
  // The profile as the planner reads it
  // ---------------------------------------------------------------------------

  /** A choice field: the stored code (tested for truth) and its display label. */
  datatype Choice = Choice(code: string, display: string)

  /** The six profile attributes; each may be unset (`None`). */
  datatype Profile = Profile(
    gender: Option<Choice>,
    age: Option<nat>,
    heightCm: Option<nat>,
    weightKg: Option<nat>,
    fitnessLevel: Option<Choice>,
    primaryGoalChoice: Option<Choice>)

  /** Python truth of a stored choice code: neither `None` nor the empty string. */
  predicate ChoiceIsSet(c: Option<Choice>) {
    c.Some? && c.value.code != ""
  }

  /** Python truth of a stored number: neither `None` nor zero. */
  predicate NumberIsSet(n: Option<nat>) {
    n.Some? && n.value != 0
  }

  const DefaultGender := "Not specified"
  const DefaultAge: nat := 25
  const DefaultHeightCm: nat := 170
  const DefaultWeightKg: nat := 70
  const DefaultFitnessLevel := "Beginner"
  const DefaultGoalLabel := "General Fitness"

  /** The values the prompt shows for the profile. */
  datatype Derived = Derived(
    gender: string,
    age: nat,
    heightCm: nat,
    weightKg: nat,
    fitnessLevel: string,
    goalLabel: string)

  function LabelOr(c: Option<Choice>, default: string): string {
    if ChoiceIsSet(c) then c.value.display else default
  }

  function NumberOr(n: Option<nat>, default: nat): nat {
    if NumberIsSet(n) then n.value else default
  }

  /**
   * Each attribute shows its stored display value when Python finds it true,
   * and its fixed default otherwise: an unset field, an empty code, an age of 0
   * or a height or weight of 0 all read as absent. So the prompt never shows a
   * measurement of 0.
   */
  function Derive(p: Profile): (d: Derived)
    ensures d.gender == (if ChoiceIsSet(p.gender) then p.gender.value.display else DefaultGender)
    ensures d.age == (if NumberIsSet(p.age) then p.age.value else DefaultAge)
    ensures d.heightCm == (if NumberIsSet(p.heightCm) then p.heightCm.value else DefaultHeightCm)
    ensures d.weightKg == (if NumberIsSet(p.weightKg) then p.weightKg.value else DefaultWeightKg)
    ensures d.fitnessLevel == (if ChoiceIsSet(p.fitnessLevel) then p.fitnessLevel.value.display else DefaultFitnessLevel)
    ensures d.goalLabel == (if ChoiceIsSet(p.primaryGoalChoice) then p.primaryGoalChoice.value.display else DefaultGoalLabel)
    ensures d.age != 0 && d.heightCm != 0 && d.weightKg != 0
  {
    Derived(
      LabelOr(p.gender, DefaultGender),
      NumberOr(p.age, DefaultAge),
      NumberOr(p.heightCm, DefaultHeightCm),
      NumberOr(p.weightKg, DefaultWeightKg),
      LabelOr(p.fitnessLevel, DefaultFitnessLevel),
      LabelOr(p.primaryGoalChoice, DefaultGoalLabel))
  }

  // ---------------------------------------------------------------------------
  // Goal classification
  // ---------------------------------------------------------------------------

  datatype GoalKind = Hypertrophy | FatLoss | General

  const HypertrophySentence := "Build lean muscle mass with a focus on hypertrophy, aiming to gain 1-2 kg of muscle."
  const FatLossSentence := "Lose body fat while preserving as much muscle as possible, aiming to lose 2-3 kg of fat."
  const GeneralSentence := "Improve overall fitness and health."

  /** Case-sensitive substring tests, muscle-gain words first, then fat-loss words. */
  function Classify(goal: string): GoalKind {
    if Contains(goal, "Muscle") || Contains(goal, "Gain") then Hypertrophy
    else if Contains(goal, "Fat") || Contains(goal, "Loss") then FatLoss
    else General
  }

  function GoalSentence(k: GoalKind): string {
    match k
    case Hypertrophy => HypertrophySentence
    case FatLoss => FatLossSentence
    case General => GeneralSentence
  }

  /** The kind each goal label selects, stated through occurrence of the key words. */
  lemma ClassifySpec(goal: string)
    ensures Classify(goal) == Hypertrophy <==> Occurs("Muscle", goal) || Occurs("Gain", goal)
    ensures Classify(goal) == FatLoss <==>
      !Occurs("Muscle", goal) && !Occurs("Gain", goal) && (Occurs("Fat", goal) || Occurs("Loss", goal))
    ensures Classify(goal) == General <==>
      !Occurs("Muscle", goal) && !Occurs("Gain", goal) && !Occurs("Fat", goal) && !Occurs("Loss", goal)
  {
    ContainsIff(goal, "Muscle");
    ContainsIff(goal, "Gain");
    ContainsIff(goal, "Fat");
    ContainsIff(goal, "Loss");
  }

  // ---------------------------------------------------------------------------
  // Training history
  // ---------------------------------------------------------------------------

  const DefaultHistory :=
    "\n* **Workout Frequency:** Based on your fitness level, we recommend starting with 3-4 times per week.\n"
    + "* **Workout Types:** A balanced mix of strength training and cardio.\n"

  /** An empty summary is replaced by the fixed recommendation block. */
  function HistoryText(summary: string): string {
    if summary == "" then DefaultHistory else summary
  }

  // ---------------------------------------------------------------------------
  // The prompt
  // ---------------------------------------------------------------------------

  const RoleIntro :=
    "\nYou are an expert AI personal trainer and nutritionist named FitTrack AI. Your task is to create a "
    + "comprehensive, personalized, and actionable 4-week training and diet plan based on the user's detailed "
    + "profile and recent activity. The plan should be scientific, safe, and tailored to help the user achieve "
    + "their goals.\n\n### User Profile\n"

  const HistoryHeading := "\n### Recent Training History (Summary of the last month)\n"

  const TaskSection :=
    "\n\n### Your Task: Generate the 4-Week Plan\n\n"
    + "Based on all the information provided, generate a detailed 4-week plan.\n\n"
    + "**1. The 4-Week Training Plan:**\n"
    + "* **Structure:** Create a weekly split that balances intensity and recovery, for example, a Push/Pull/Legs "
    + "or an Upper/Lower split.\n"
    + "* **Progressive Overload:** The plan must incorporate the principle of progressive overload. Show how the "
    + "user can increase weight, reps, or intensity from Week 1 to Week 4.\n"
    + "* **Clarity:** For each training day, provide specific exercises (e.g., Bench Press, Barbell Squats, Lat "
    + "Pulldowns), including the number of sets and repetitions (e.g., 3 sets of 8-12 reps).\n"
    + "* **Cardio:** Integrate 1-2 cardio sessions per week, specifying the type (e.g., LISS - Low-Intensity "
    + "Steady State, or HIIT) and duration.\n"
    + "* **Rest:** Explicitly schedule at least two rest days per week.\n"
    + "* **Format:** Present the weekly schedule in a clear, easy-to-read table format for each of the 4 weeks.\n\n"
    + "**2. The 4-Week Diet Plan:**\n"
    + "* **Caloric & Macro Targets:** First, calculate and state the recommended daily calorie intake and "
    + "macronutrient split (Protein, Carbs, Fat in grams) for the user's goal.\n"
    + "* **Nutritional Principles:** Provide 3-5 key nutritional guidelines for the user to follow (e.g., "
    + "prioritize protein, choose complex carbs, stay hydrated).\n"
    + "* **Sample Meal Ideas:** Do not create a rigid daily meal plan. Instead, provide a list of healthy and "
    + "easy-to-prepare sample meal ideas for Breakfast, Lunch, Dinner, and Snacks. This gives the user flexibility.\n"
    + "* **Integration:** The diet plan should directly support the energy demands of the training plan.\n\n"
    + "Please generate the complete, detailed plan now.\n"

  function GenderLine(gender: string): string { "* **Gender:** " + gender + "\n" }
  function AgeLine(age: nat): string { "* **Age:** " + Decimal(age) + "\n" }
  function HeightLine(heightCm: nat): string { "* **Height:** " + Decimal(heightCm) + " cm\n" }
  function WeightLine(weightKg: nat): string { "* **Weight:** " + Decimal(weightKg) + " kg\n" }
  function LevelLine(level: string): string { "* **Fitness Level:** " + level + "\n" }
  function GoalLine(sentence: string): string { "* **Primary Goal:** " + sentence + "\n" }

  /** The fixed prose of a prompt template, around its slots. */
  datatype Template = Template(intro: string, historyHeading: string, task: string)

  /** The planner's own template. */
  const PlanTemplate := Template(RoleIntro, HistoryHeading, TaskSection)

  /** Indices of the pieces of a filled template. */
  const IntroPiece := 0
  const GenderPiece := 1
  const AgePiece := 2
  const HeightPiece := 3
  const WeightPiece := 4
  const LevelPiece := 5
  const GoalPiece := 6
  const HeadingPiece := 7
  const HistoryPiece := 8
  const TaskPiece := 9

  /** The pieces of a filled template, in the order the f-string writes them. */
  function PromptPieces(t: Template, d: Derived, history: string): seq<string> {
    [t.intro,
     GenderLine(d.gender),
     AgeLine(d.age),
     HeightLine(d.heightCm),
     WeightLine(d.weightKg),
     LevelLine(d.fitnessLevel),
     GoalLine(GoalSentence(Classify(d.goalLabel))),
     t.historyHeading,
     history,
     t.task]
  }

  /** A template with its slots filled. */
  function BuildPrompt(t: Template, d: Derived, history: string): string {
    Concat(PromptPieces(t, d, history))
  }

  /** The prompt sent for a profile and a history summary. */
  function PromptFor(t: Template, p: Profile, summary: string): string {
    BuildPrompt(t, Derive(p), HistoryText(summary))
  }

  /**
   * Every piece is in the prompt, unchanged, at its offset; the offsets follow the
   * template's order, so the prompt starts with the fixed introduction, then shows
   * the six profile lines in order, the history under its heading, and ends with
   * the fixed task text.
   */
  lemma PromptLayout(t: Template, d: Derived, history: string)
    ensures var pieces := PromptPieces(t, d, history);
      && (forall k :: 0 <= k < |pieces| ==> OccursAt(pieces[k], BuildPrompt(t, d, history), Offset(pieces, k)))
      && (forall k :: 0 <= k < |pieces| ==> Offset(pieces, k + 1) == Offset(pieces, k) + |pieces[k]|)
      && Offset(pieces, 0) == 0
      && Offset(pieces, |pieces|) == |BuildPrompt(t, d, history)|
  {
    var pieces := PromptPieces(t, d, history);
    forall k | 0 <= k < |pieces|
      ensures OccursAt(pieces[k], BuildPrompt(t, d, history), Offset(pieces, k))
      ensures Offset(pieces, k + 1) == Offset(pieces, k) + |pieces[k]|
    {
      ConcatPieceAt(pieces, k);
      OffsetNext(pieces, k);
    }
    assert pieces[..|pieces|] == pieces;
  }

  /** Each filled line and the history are found in the prompt. */
  lemma PromptShowsDerived(t: Template, d: Derived, history: string)
    ensures var prompt := BuildPrompt(t, d, history);
      && Occurs(GenderLine(d.gender), prompt)
      && Occurs(AgeLine(d.age), prompt)
      && Occurs(HeightLine(d.heightCm), prompt)
      && Occurs(WeightLine(d.weightKg), prompt)
      && Occurs(LevelLine(d.fitnessLevel), prompt)
      && Occurs(GoalLine(GoalSentence(Classify(d.goalLabel))), prompt)
      && Occurs(history, prompt)
  {
    var pieces := PromptPieces(t, d, history);
    var prompt := BuildPrompt(t, d, history);
    PromptLayout(t, d, history);
    assert OccursAt(pieces[GenderPiece], prompt, Offset(pieces, GenderPiece));
    assert OccursAt(pieces[AgePiece], prompt, Offset(pieces, AgePiece));
    assert OccursAt(pieces[HeightPiece], prompt, Offset(pieces, HeightPiece));
    assert OccursAt(pieces[WeightPiece], prompt, Offset(pieces, WeightPiece));
    assert OccursAt(pieces[LevelPiece], prompt, Offset(pieces, LevelPiece));
    assert OccursAt(pieces[GoalPiece], prompt, Offset(pieces, GoalPiece));
    assert OccursAt(pieces[HistoryPiece], prompt, Offset(pieces, HistoryPiece));
  }

  /**
   * What the prompt shows for a profile: each attribute's display value or its
   * default, the goal sentence the goal label selects (not the label itself), and
   * the summary verbatim, or the default block when the summary is empty.
   */
  lemma PromptShowsProfile(t: Template, p: Profile, summary: string)
    ensures var prompt := PromptFor(t, p, summary);
      && Occurs("* **Gender:** " + (if ChoiceIsSet(p.gender) then p.gender.value.display else DefaultGender) + "\n", prompt)
      && Occurs("* **Age:** " + Decimal(if NumberIsSet(p.age) then p.age.value else DefaultAge) + "\n", prompt)
      && Occurs("* **Height:** " + Decimal(if NumberIsSet(p.heightCm) then p.heightCm.value else DefaultHeightCm) + " cm\n", prompt)
      && Occurs("* **Weight:** " + Decimal(if NumberIsSet(p.weightKg) then p.weightKg.value else DefaultWeightKg) + " kg\n", prompt)
      && Occurs("* **Fitness Level:** " + (if ChoiceIsSet(p.fitnessLevel) then p.fitnessLevel.value.display else DefaultFitnessLevel) + "\n", prompt)
      && Occurs("* **Primary Goal:** " + GoalSentence(Classify(Derive(p).goalLabel)) + "\n", prompt)
      && (summary == "" ==> Occurs(DefaultHistory, prompt))
      && (summary != "" ==> Occurs(summary, prompt))
  {
    PromptShowsDerived(t, Derive(p), HistoryText(summary));
  }

  /** The default goal label selects the generic sentence. */
  lemma DefaultGoalIsGeneral()
    ensures Classify(DefaultGoalLabel) == General
  {
    assert !ContainsFrom(DefaultGoalLabel, "Gain", 6);
    assert !ContainsFrom(DefaultGoalLabel, "Fat", 6);
    assert !ContainsFrom(DefaultGoalLabel, "Loss", 6);
  }

  /** A label with both kinds of key word selects the muscle-gain sentence. */
  lemma MuscleWordsWin()
    ensures Classify("Lose Fat, Gain Muscle") == Hypertrophy
  {
    assert ContainsFrom("Lose Fat, Gain Muscle", "Gain", 10);
  }

  /** Matching respects case: lower-case key words select nothing. */
  lemma MatchingIsCaseSensitive()
    ensures Classify("muscle gain") == General
  {
  }

  // ---------------------------------------------------------------------------
  // Configuration, model choice and the generation call
  // ---------------------------------------------------------------------------

  const PrimaryModel := "gemini-2.5-flash"
  const FallbackModel := "gemini-1.5-flash"

  const MissingKeyMessage := "GEMINI_API_KEY not found in .env file. Please set your Gemini API key."

  /** An exception: its class name, its `str()` and whether it is a `ValueError`. */
  datatype Failure = Failure(typeName: string, message: string, isValueError: bool)

  /** What a library call does: return a value or raise. */
  datatype Outcome<+T> = Ok(value: T) | Raised(failure: Failure)

  /** A call into the generation library, as the planner makes it. */
  datatype Call = Construct(model: string) | Invoke(model: string, prompt: string)

  /**
   * The world outside the planner: the `GEMINI_API_KEY` environment value, what
   * constructing a model of a given name does, and what asking a model for content
   * with a prompt does (the response's text, or an exception).
   */
  datatype Provider = Provider(
    apiKey: Option<string>,
    construct: string -> Outcome<()>,
    generate: (string, string) -> Outcome<string>)

  /** Python truth of the key: neither unset nor empty. */
  predicate KeyIsSet(key: Option<string>) {
    key.Some? && key.value != ""
  }

  /** The primary model, or the fallback when constructing the primary raises;
      an exception from constructing the fallback is not caught here. */
  function SelectModel(construct: string -> Outcome<()>): (Outcome<string>, seq<Call>) {
    match construct(PrimaryModel)
    case Ok(_) => (Ok(PrimaryModel), [Construct(PrimaryModel)])
    case Raised(_) =>
      match construct(FallbackModel)
      case Ok(_) => (Ok(FallbackModel), [Construct(PrimaryModel), Construct(FallbackModel)])
      case Raised(f) => (Raised(f), [Construct(PrimaryModel), Construct(FallbackModel)])
  }

  /** The body of the outer `try`: what it returns or raises, and the calls it makes. */
  function Attempt(t: Template, p: Profile, summary: string, env: Provider): (Outcome<string>, seq<Call>) {
    if !KeyIsSet(env.apiKey) then
      (Raised(Failure("ValueError", MissingKeyMessage, true)), [])
    else
      var prompt := PromptFor(t, p, summary);
      var (model, calls) := SelectModel(env.construct);
      match model
      case Raised(f) => (Raised(f), calls)
      case Ok(name) => (env.generate(name, prompt), calls + [Invoke(name, prompt)])
  }

  // ---------------------------------------------------------------------------
  // Error normalisation
  // ---------------------------------------------------------------------------

  const ConfigErrorPrefix := "Configuration Error: "
  const ConfigErrorSuffix :=
    "\n\nPlease check:\n1. Create a .env file in the project root\n2. Add: GEMINI_API_KEY=your_api_key_here\n"
    + "3. Get your API key from: https://makersuite.google.com/app/apikey"
  const GenerationErrorPrefix := "Error generating plan ("
  const GenerationErrorSeparator := "): "
  const GenerationErrorSuffix :=
    "\n\nPlease check:\n1. Your internet connection\n2. Your Gemini API key is valid\n3. You have API quota remaining"

  function ConfigErrorText(message: string): string {
    ConfigErrorPrefix + message + ConfigErrorSuffix
  }

  function GenerationErrorText(typeName: string, message: string): string {
    GenerationErrorPrefix + typeName + GenerationErrorSeparator + message + GenerationErrorSuffix
  }

  /** The two handlers: `except ValueError` first, then `except Exception`. */
  function Normalise(o: Outcome<string>): string {
    match o
    case Ok(text) => text
    case Raised(f) =>
      if f.isValueError then ConfigErrorText(f.message) else GenerationErrorText(f.typeName, f.message)
  }

  /** What the caller receives, and the library calls made on the way. */
  datatype Run = Run(text: string, calls: seq<Call>)

  /**
   * `generate_fitness_plan_from_profile` with the prose of template `t`: a text in
   * every case, never an exception. Without a key nothing is constructed or
   * invoked and the missing-key configuration error is returned; with one, the
   * primary model is constructed first, the fallback is constructed exactly when
   * that raises, and any invocation is given the assembled prompt.
   */
  function GeneratePlan(t: Template, p: Profile, summary: string, env: Provider): (r: Run)
    ensures r.calls == [] <==> !KeyIsSet(env.apiKey)
    ensures !KeyIsSet(env.apiKey) ==> r.text == ConfigErrorText(MissingKeyMessage)
    ensures KeyIsSet(env.apiKey) ==> r.calls[0] == Construct(PrimaryModel)
    ensures Construct(FallbackModel) in r.calls <==>
      KeyIsSet(env.apiKey) && env.construct(PrimaryModel).Raised?
    ensures forall c :: c in r.calls && c.Invoke? ==> c.prompt == PromptFor(t, p, summary)
  {
    var (o, calls) := Attempt(t, p, summary, env);
    Run(Normalise(o), calls)
  }

  /** The planner as written: its own template. */
  function GenerateFitnessPlan(p: Profile, summary: string, env: Provider): Run {
    GeneratePlan(PlanTemplate, p, summary, env)
  }
}
