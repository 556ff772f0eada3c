# Career analysis service: a verified model

This project models the service layer of a career-guidance web app, `services/geminiService.ts`.
The service asks a language model for a career analysis of a user and turns its reply into a
`CareerAnalysis` the UI can always render. The model has three parts.

- **`cleanJsonString`**: trims the reply and removes one Markdown code fence (```` ``` ```` or
  ```` ```json ```` at the start, ```` ``` ```` at the end), then trims again
  (module `CleanJson`, on the JavaScript `trim` of module `Strings`).
- **`sanitizeAnalysisData`**: a total function from any parsed JSON value to a `CareerAnalysis`.
  Every field is type-checked, and every missing or wrongly typed field gets a fixed default.
  At most four cards are kept, with a placeholder card when there are none. Blank strengths and
  actions are filtered out, and three fixed actions are used when none remain (module
  `Sanitizer`). Module `SanitizerEncoding` writes an analysis back as JSON. It proves that
  sanitizing gives a well-formed analysis back unchanged, so `Sanitizer.WellFormed` is exactly
  the set of possible results and sanitizing is idempotent.
- **`generateCareerAnalysis`**, its deterministic parts (modules `PromptAssembly` and
  `GeminiService`): the API-key check, the prompt, and the mapping of every failure to one
  error message.
  - The prompt holds the stage, the phase-1 Likert scores one line each, and one
    question/answer block per question of the stage's table.
  - The environment's key, the model call and `JSON.parse` are parameters.
  - The function returns a `Result` and the list of prompts it sent, instead of throwing.

JSON values are the datatype `JsonValues.Json`. A missing property (`undefined`) is
`Option.None`, and `JsonValues.Member` is optional chaining `v?.key`. The output records mirror
`types.ts` (lines 43-80) in module `AnalysisTypes`. The stage question table of `constants.ts`
(lines 84-182) is a parameter of the prompt assembly, and `PromptAssembly.SampleTable` holds its
first two questions per stage.

Two consequences of the code that a reader might not expect:

- `workingNature` is not always non-empty. A blank string is trimmed to `""` and kept
  (`Sanitizer.BlankWorkingNatureKept`).
- The actions equal the three fallback strings when the filtered raw actions are empty. They
  also equal them when the raw actions are exactly those three strings, so the two are not
  equivalent. `Sanitizer.SanitizeGuidance` states the one-way rule plus the rule for the
  non-empty case.

## Model

| member | source | states |
|---|---|---|
| Strings.Trim | services/geminiService.ts:27 | `String.prototype.trim`: the result has no whitespace at either end, and trimmed text is left unchanged |
| Strings.TrimIsInfix | services/geminiService.ts:27 | trimming only removes characters at the two ends: the result is a contiguous piece of the input |
| Strings.TrimPadded | services/geminiService.ts:27 | reference characterisation: trimmed text padded with any whitespace on both sides trims back to itself |
| Strings.IntToString | services/geminiService.ts:27 | `String(n)` for an integral number of at most 2^53 in absolute value: non-empty, trimmed, no line break |
| Strings.IntToStringRoundTrip | services/geminiService.ts:27 | reading back the decimal text of any integer gives that integer |
| Strings.IntToStringInjective | services/geminiService.ts:103 | different scores have different decimal texts |
| Strings.Join | services/geminiService.ts:104 | `Array.prototype.join`: no parts give `""`; otherwise the text starts with the first part and ends with the last |
| Strings.SplitJoin | services/geminiService.ts:104 | splitting a `join` on a separator that occurs in no part gives the parts back |
| Strings.JoinInfix | services/geminiService.ts:113 | every part of a `join` occurs in the joined text |
| CleanJson.StripOpeningFence | services/geminiService.ts:13 | `replace(/^```(json)?/, '')`: a leading ```` ```json ```` is removed, else a leading ```` ``` ````, else nothing: the input is that prefix followed by the result |
| CleanJson.StripClosingFence | services/geminiService.ts:13 | `replace(/```$/, '')`: a trailing ```` ``` ```` is removed and nothing else: the input is the result followed by the fence, or the result itself |
| CleanJson.Unfence | services/geminiService.ts:12-14 | text starting with a fence loses its opening fence (with any `json` tag) and then a closing fence; any other text is returned unchanged; the result is a piece of the input |
| CleanJson.CleanJsonString | services/geminiService.ts:9-16 | never fails; the result is trimmed, is a piece of the trimmed input, and is exactly the trimmed input when that does not start with a fence |
| CleanJson.FencedPayload | services/geminiService.ts:9-16 | a trimmed payload fenced as ```` ``` ```` or ```` ```json ```` with whitespace padding inside the fence comes out exactly |
| CleanJson.FencedExample | services/geminiService.ts:9-16 | ```` ```json\n{"a":1}\n``` ```` becomes `{"a":1}` |
| CleanJson.UnfencedExample | services/geminiService.ts:9-16 | unfenced JSON text is returned as it is |
| JsonValues.Member | services/geminiService.ts:31 | optional chaining `v?.key`: a value exactly when `v` is an object holding `key`, and then that property's value |
| Sanitizer.AsArray | services/geminiService.ts:24 | `asArray`: an array gives its elements, anything else (or nothing) gives none |
| Sanitizer.AsString | services/geminiService.ts:27 | a string becomes its trimmed text (possibly `""`), a number its decimal text, anything else or nothing the fallback; trimmed whenever the fallback is |
| Sanitizer.StringsOf | services/geminiService.ts:31 | `map(asString)`: element i of the result is `asString` of raw element i (trimmed text of a string or number), `""` for elements that are neither |
| Sanitizer.KeepNonEmpty | services/geminiService.ts:31 | `filter(s => s.length > 0)`: keeps exactly the non-empty strings, leaves a list without empty strings unchanged, keeps trimmedness |
| Sanitizer.KeepNonEmptyAppend | services/geminiService.ts:83 | the filter keeps the original order: it distributes over concatenation |
| Sanitizer.ParseDemand | services/geminiService.ts:40 | an exact `High`, `Medium` or `Emerging` string is kept, anything else (other strings, numbers, null, nothing) is `Medium` |
| Sanitizer.FitScore | services/geminiService.ts:41 | a raw number is kept unchanged (no clamping), anything else gives 75 |
| Sanitizer.SanitizeCard | services/geminiService.ts:38-46 | each field is the raw field read with its own default (`Recommended Role`, demand check, `fitScore` or 75, `Market Standard`, `Growth path available`); reasons and gaps are the unfiltered `asString` maps of their raw arrays; all text trimmed; a non-object card gets every default |
| Sanitizer.SanitizeCards | services/geminiService.ts:37-59 | one to four cards; for n ≥ 1 raw elements exactly min(4, n), the i-th built from the i-th raw element; otherwise exactly the placeholder card |
| Sanitizer.SanitizeActivity | services/geminiService.ts:66-70 | task, resources and time are the raw fields read with their defaults (`Explore this topic`, `Online Search / Books`, `Flexible`), trimmed; a non-object activity gets the three defaults |
| Sanitizer.SanitizeLevel | services/geminiService.ts:63-70 | focus is the raw focus or the given default; activity i is raw activity i sanitized, one per raw element; a missing or non-object level is the default focus with no activities |
| Sanitizer.SanitizeRoadmap | services/geminiService.ts:73-77 | each level is `sanitizeLevel` of the raw level of the same name, with `Foundational Knowledge`, `Practical Application` and `Expert Mastery` as default focus; all three well formed |
| Sanitizer.SanitizeTalentProfile | services/geminiService.ts:30-33 | strengths are the raw strengths as strings with the empty ones filtered out, in order; working nature is the raw one or `Balanced Professional`; all trimmed |
| Sanitizer.BestRoleFallback | services/geminiService.ts:81 | `careerCards[0]?.title \|\| "Best Fit Role"`: never empty; the first card's title when it is non-empty, `Best Fit Role` otherwise |
| Sanitizer.SanitizeGuidance | services/geminiService.ts:80-89 | best role is the trimmed raw string or the raw number's text; for anything else, the first sanitized card's title, or `Best Fit Role` when there is no card or its title is empty; reason is the raw reason read as `asString` with `Based on your overall profile analysis.` as default; actions are never empty, contain every non-blank raw action, are the fixed three when none remain and the filtered raw actions otherwise |
| Sanitizer.Sanitize | services/geminiService.ts:22-92 | total, and every result is well formed (trimmed text, one to four cards, non-empty actions) |
| Sanitizer.NonObjectInput | services/geminiService.ts:22-92 | null, a primitive or an array is sanitized exactly like an empty object |
| Sanitizer.EmptyObjectResult | services/geminiService.ts:22-92 | `{}` gives no strengths, `Balanced Professional`, the placeholder card, three empty levels with their default focus, the placeholder's title as best role and the fixed three actions |
| Sanitizer.BlankWorkingNatureKept | services/geminiService.ts:32 | a blank working nature becomes `""`, not the default |
| Sanitizer.BlankFirstTitle | services/geminiService.ts:81 | a first card whose title is blank makes the best role `Best Fit Role` |
| SanitizerEncoding.StringsRoundTrip | services/geminiService.ts:44 | a list of trimmed strings, encoded, survives `asArray(...).map(asString)` unchanged |
| SanitizerEncoding.DemandRoundTrip | services/geminiService.ts:40 | every demand level is read back from its own name |
| SanitizerEncoding.CardRoundTrip | services/geminiService.ts:38-46 | a well-formed card, encoded, sanitizes back to itself |
| SanitizerEncoding.ActivityRoundTrip | services/geminiService.ts:66-70 | a trimmed activity, encoded, sanitizes back to itself |
| SanitizerEncoding.LevelRoundTrip | services/geminiService.ts:63-70 | a well-formed level, encoded, sanitizes back to itself whatever the default focus |
| SanitizerEncoding.CardsRoundTrip | services/geminiService.ts:37-59 | the cards of a well-formed analysis survive encoding and sanitizing |
| SanitizerEncoding.TalentProfileRoundTrip | services/geminiService.ts:30-33 | the talent profile of a well-formed analysis survives encoding and sanitizing |
| SanitizerEncoding.RoadmapRoundTrip | services/geminiService.ts:73-77 | the roadmap of a well-formed analysis survives encoding and sanitizing |
| SanitizerEncoding.GuidanceRoundTrip | services/geminiService.ts:80-89 | the guidance of a well-formed analysis survives encoding and sanitizing |
| SanitizerEncoding.SanitizeEncode | services/geminiService.ts:22-92 | a well-formed analysis, encoded and sanitized, comes back unchanged |
| SanitizerEncoding.SanitizeIdempotent | services/geminiService.ts:22-92 | sanitizing the encoding of a sanitized result gives the same result |
| SanitizerEncoding.WellFormedIsImage | services/geminiService.ts:22-92 | an analysis is well formed exactly when some JSON value sanitizes to it |
| PromptAssembly.FormatPhase1 | services/geminiService.ts:101-104 | no answers give `""`; otherwise the text starts with the `Q1` line and ends with the line of the last answer (its full content: `Phase1Split`) |
| PromptAssembly.Phase1Split | services/geminiService.ts:102-104 | the phase-1 text splits at line breaks into exactly one `Q<i+1> (1-5): <score>/5` line per answer, in input order |
| PromptAssembly.Phase1LineInjective | services/geminiService.ts:103 | on the same line number, equal lines mean equal scores |
| PromptAssembly.Phase1Determines | services/geminiService.ts:102-104 | equal phase-1 texts mean equal score sequences: the text records every score in order |
| PromptAssembly.Phase1SameLines | services/geminiService.ts:102-104 | equal non-empty phase-1 texts have equal scores line by line |
| PromptAssembly.Phase1Example | services/geminiService.ts:102-104 | two answers become `Q1 (1-5): 4/5` and `Q2 (1-5): 5/5`, numbered by position and not by question id |
| PromptAssembly.AnswerFor | services/geminiService.ts:111 | the answer is never empty; it is `Skipped` exactly when the answer is missing, empty or literally `Skipped`, and the stored answer otherwise |
| PromptAssembly.Phase2Blocks | services/geminiService.ts:109-112 | block i is `Q: <text>\nA: <answer>` for question i, one block per question |
| PromptAssembly.FormatPhase2 | services/geminiService.ts:107-114 | no stage gives an empty section; with a stage, the blocks of its table's questions in order joined by a blank line, so every question appears as a `Q: <text>\nA: <answer>` block |
| PromptAssembly.Phase2Example | services/geminiService.ts:107-114 | an answered and an empty answer give two blocks separated by a blank line, the second with `Skipped` |
| PromptAssembly.BuildPrompt | services/geminiService.ts:116-130 | the prompt starts with the fixed `USER PROFILE DATA` lead and ends with the fixed instructions; what lies between is stated by `StageInPrompt`, `Phase1InPrompt` and `Phase2InPrompt` |
| PromptAssembly.StageInPrompt | services/geminiService.ts:116-119 | the prompt contains `CURRENT STAGE: ` followed by the stage name, or `null` when no stage was chosen |
| PromptAssembly.Phase1InPrompt | services/geminiService.ts:116-122 | the prompt contains the whole phase-1 text |
| PromptAssembly.Phase2InPrompt | services/geminiService.ts:116-125 | the prompt contains the whole phase-2 text |
| PromptAssembly.EveryStageQuestionAsked | services/geminiService.ts:107-125 | every question of the chosen stage reaches the prompt with its answer or `Skipped` |
| GeminiService.Message | services/geminiService.ts:166-170 | the error message is never empty; the missing key, empty response and malformed reply each get their fixed message; a service error passes its own message through, and gets the generic message when it has none |
| GeminiService.HasApiKey | services/geminiService.ts:95 | `!process.env.API_KEY` is false: a missing key and the empty string both fail, any other string passes |
| GeminiService.HandleReply | services/geminiService.ts:143-169 | success exactly when the text is non-empty and its cleaned form parses, and then the sanitized, well-formed value; a thrown error, empty text and unparsable text map to their own failures; never a key failure |
| GeminiService.GenerateCareerAnalysis | services/geminiService.ts:94-171 | without a key it fails with the key error and sends nothing; with a key it sends exactly the assembled prompt once and returns what the reply handling gives; the key error occurs exactly when the key is missing; every success is well formed |
| GeminiService.FencedReply | services/geminiService.ts:143-158 | a reply fenced as ```` ```json ```` around a trimmed payload yields the sanitized payload when the payload parses and the malformed-reply failure when it does not |

## Left out

- The Gemini client and the network call (services/geminiService.ts:99, 133-141): a foreign
  asynchronous call. The model call is the parameter `service`, which returns a reply text or a
  thrown error. The model name, temperature, system instruction and response MIME type are not
  modelled.
- `JSON.parse` (services/geminiService.ts:153): a library function. It is the parameter `parse`,
  a `string -> Option<Json>`. Duplicate keys, `__proto__` keys and prototype properties reached
  by optional chaining are not modelled.
- `process.env.API_KEY`: environment access, passed in as an `Option<string>`.
- `console.error` logging (services/geminiService.ts:161-162, 167): it has no functional effect.
- Floating point: JSON numbers are integers here. `String(n)` for fractions, for exponent
  notation (|n| ≥ 1e21) and for `-0` is not modelled, and neither are numbers that `JSON.parse`
  turns into ±Infinity because they overflow (e.g. `1e400`).
- Strings.IntToString: integers above 2^53 in absolute value are out of its scope. A JavaScript
  number is a double, and `String(n)` then prints the shortest digits that read back to the same
  double (2^64 prints as `18446744073709552000`), where the model prints every digit. This reaches
  every `asString` of such a number.
- `Strings.IsSpace` writes out the ECMAScript WhiteSpace and LineTerminator code points that
  `trim` removes. Characters outside the Basic Multilingual Plane are single characters here,
  not UTF-16 surrogate pairs.
- The regular expressions of `cleanJsonString` are modelled as the prefix and suffix checks
  they perform.
- The questions after the first two of each stage in `constants.ts`, and the prompt prose
  (`SYSTEM_INSTRUCTION`): static data. The stage table is a parameter, so every property holds
  for the full table as well.
- Everything in `App.tsx` and `components/`: React rendering and hook state.
- The asynchronous `Promise` and exception control flow: `try`/`catch` becomes the `Failure`
  datatype and `GeminiService.Message`.
