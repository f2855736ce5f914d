# FitTrack plan generator — a Dafny model

FitTrack is a fitness-tracking web application. Its one piece of shaped
behaviour is `generate_fitness_plan_from_profile` in `core/ai_planner.py`:
given a user's profile and an optional training-history summary, it

1. reads the `GEMINI_API_KEY` setting and raises a `ValueError` when it is
   unset or empty;
2. derives six display values from the profile, each falling back to a fixed
   default (`"Not specified"`, 25, 170, 70, `"Beginner"`, `"General Fitness"`)
   when Python finds the stored value false — so an age, height or weight of 0
   reads as absent;
3. maps the goal label to one of three goal sentences by case-sensitive
   substring tests (`"Muscle"`/`"Gain"` first, then `"Fat"`/`"Loss"`, else the
   generic sentence);
4. replaces an empty history summary by a fixed two-bullet block;
5. fills a fixed prompt template with these values;
6. constructs the `gemini-2.5-flash` model, or `gemini-1.5-flash` only when
   constructing the first raises, and asks it for content;
7. returns the response text, or turns any exception into a message: a
   `ValueError` into "Configuration Error: …" with three setup steps, anything
   else into "Error generating plan (TypeName): …" with three troubleshooting
   steps.

The model is pure: datatypes, functions and lemmas, as the source is a single
straight-line function of conditional expressions and `try`/`except`.

- `wrappers.dfy` — `Option`, for Python's `None`-or-value attributes.
- `text.dfy` (module `Text`) — Python's `sub in s` as a left-to-right scan
  (`Contains`) proved equal to the substring relation (`Occurs`); the decimal
  rendering an f-string gives an integer (`Decimal`) and its inverse; and
  joining pieces end to end (`Concat`), with the offset of every piece.
- `ai_planner.dfy` (module `AiPlanner`) — the profile, the defaulting, the goal
  classification, the history default, the prompt, model selection, error
  normalisation and the whole call (`GeneratePlan`; `GenerateFitnessPlan` is it
  with the source's own template text).
- `plan_properties.dfy` (module `PlanProperties`) — properties of the whole
  call: which model is used, that a response passes through unchanged, that
  both error formats can be read back, and two worked scenarios.

The environment and the generation library are inputs. A `Provider` holds the
key as the environment has it, what constructing a model of a given name does
and what asking a model with a prompt does (`Ok(text)` or `Raised(failure)`,
where a failure carries the exception's class name, its message and whether it
is a `ValueError`). The result is the text the caller receives together with
the library calls made, in order (`Construct(model)`, `Invoke(model, prompt)`),
so "no model is constructed" is a statement about that list.

The prompt is built from a `Template` (the fixed prose around the slots);
`PlanTemplate` holds the source's prose verbatim. The prompt properties are
proved for every template, so they hold for the source's in particular.

The `except ValueError` handler applies to a `ValueError` from anywhere in the
body outside the inner `try` (constructing the fallback model, the request,
reading the response), not only to the missing key, so all of these are
reported as configuration errors; the model does the same. A `ValueError` from
constructing the primary model is caught by the inner `except Exception` and
leads to the fallback model instead (`FallbackModelUsed`). A failed request on the primary model does not fall back to the
secondary one, only a failed construction does; the model keeps that
asymmetry (`PrimaryModelUsed`). Because every result is a string, a model
response that happens to look like a configuration error cannot be told from
one (`ResponseCanLookLikeError`).

## Model

| member | source | states |
|---|---|---|
| `Text.ContainsIff` | core/ai_planner.py:41-46 | the scan that stands for Python's `in` answers true exactly when the key word occurs as a contiguous piece of the label, in both directions |
| `Text.Decimal` | core/ai_planner.py:61-63 | an integer slot is rendered as at least one digit, digits only, with no leading zero unless the number is 0 |
| `Text.DecimalRoundTrip` | core/ai_planner.py:61-63 | reading the rendered digits back gives the number, so the rendering loses nothing |
| `Text.DecimalInjective` | core/ai_planner.py:61-63 | different numbers are shown as different text |
| `Text.ConcatPieceAt` | core/ai_planner.py:56-89 | every piece of the filled template is found unchanged at the offset just after the pieces before it |
| `AiPlanner.Derive` | core/ai_planner.py:33-38 | each of the six values is the stored display value when Python finds the stored value true and the fixed default otherwise (an age, height or weight of 0 gives the default), so no derived measurement is 0 |
| `AiPlanner.ClassifySpec` | core/ai_planner.py:41-46 | the hypertrophy sentence is chosen exactly when "Muscle" or "Gain" occurs; the fat-loss sentence exactly when neither does and "Fat" or "Loss" does; the generic sentence exactly when none of the four occurs |
| `AiPlanner.DefaultGoalIsGeneral` | core/ai_planner.py:38-46 | the default label "General Fitness" selects the generic sentence |
| `AiPlanner.MuscleWordsWin` | core/ai_planner.py:41-44 | the label "Lose Fat, Gain Muscle", which holds both fat-loss and muscle-gain words, selects the hypertrophy sentence (the general rule is `ClassifySpec`) |
| `AiPlanner.MatchingIsCaseSensitive` | core/ai_planner.py:41-46 | the lower-case label "muscle gain" selects the generic sentence |
| `AiPlanner.PromptLayout` | core/ai_planner.py:56-89 | the prompt is the introduction, the six profile lines, the history heading, the history and the task text, each unchanged at consecutive offsets, starting at 0 and ending at the prompt's length |
| `AiPlanner.PromptShowsDerived` | core/ai_planner.py:56-68 | the gender, age, height (with " cm"), weight (with " kg"), fitness-level and primary-goal lines and the history are all in the prompt |
| `AiPlanner.PromptShowsProfile` | core/ai_planner.py:33-68 | the prompt shows each attribute's display value or its default, the goal sentence selected by the goal label, and the summary verbatim when it is non-empty or the default history block when it is empty |
| `AiPlanner.GeneratePlan` | core/ai_planner.py:24-110 | no library call is made exactly when the key is unset or empty, and then the result is the missing-key configuration error; otherwise the primary model is constructed first; the fallback is constructed exactly when that construction raises; every request carries the assembled prompt |
| `PlanProperties.PrimaryModelUsed` | core/ai_planner.py:93-102 | when the primary model can be constructed it alone is asked, and the result is what that request gives, normalised; a failed request does not bring in the fallback |
| `PlanProperties.FallbackModelUsed` | core/ai_planner.py:93-102 | when constructing the primary raises and the fallback can be constructed, the fallback is asked and its outcome is the result |
| `PlanProperties.NoModelAvailable` | core/ai_planner.py:93-110 | when neither model can be constructed no request is made and the fallback's exception becomes the result text |
| `PlanProperties.AtMostOneRequest` | core/ai_planner.py:93-99 | at most one request is made, and one is made exactly when the key is set and one of the two models can be constructed |
| `PlanProperties.ResponsePassedThrough` | core/ai_planner.py:99-102 | a successful response reaches the caller unchanged |
| `PlanProperties.ReadFailureText` | core/ai_planner.py:104-110 | a `ValueError` becomes a configuration-error text and any other exception a generation-error text, and the message (and the class name) can be read back from the text |
| `PlanProperties.MissingKeyReported` | core/ai_planner.py:26-28 | with no key the returned text reads as a configuration error carrying the missing-key message |
| `PlanProperties.ResponseCanLookLikeError` | core/ai_planner.py:102-106 | a response shaped like a configuration error yields the same text as that error |
| `PlanProperties.FatLossScenario` | core/ai_planner.py:33-68 | a male, 30, 180 cm, 80 kg, intermediate profile aiming at "Fat Loss" with no summary gives a prompt showing those values, the fat-loss sentence and the default history block |
| `PlanProperties.DefaultsScenario` | core/ai_planner.py:33-68 | a profile with nothing set (or zeros for the measurements) gives a prompt showing "Not specified", 25, 170 cm, 70 kg, "Beginner" and the generic goal sentence |

## Left out

- `genai.configure` (core/ai_planner.py:30) is a library side effect; the model assumes it does not raise.
- `load_dotenv` and `os.getenv` are environment I/O; the key is an input (`Provider.apiKey`).
- The generation library (`GenerativeModel`, `generate_content`, `response.text`) is an input: each call's outcome is given, and a request and the reading of its text are one outcome.
- core/models.py is not part of this model, so the profile field types are assumed: choice fields carry a stored code (tested for truth) and its display label; age, height and weight are whole numbers. A height or weight stored as a float or decimal would be rendered with a fractional part ("180.0"); that formatting is not modelled.
- The history summary is a string; a caller passing `None` (also replaced by the default block in the source) is not modelled.
- Exceptions outside Python's `Exception` hierarchy (`KeyboardInterrupt`, `SystemExit`) propagate from the source; the model has none. A failure's `isValueError` flag stands for "is an instance of `ValueError` or a subclass".
- core/views.py (request handling, the profile-completeness gate, the exercise list) and core/urls.py (routing) are web plumbing outside the generator.
