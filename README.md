# NextGen diagnosis scoring, in Dafny

This project models the scoring and gating core of the NextGen "Diagnóstico IA
Profesional" application. It covers two separate parts.

- **The mock diagnosis service** (`backend/mock-server.ts`). `POST /api/diagnosis`
  checks a form in a fixed order and answers with the first error it finds. A form
  that passes gets a Data Quality Score (DQS): a weighted sum of accuracy,
  completeness, consistency, timeliness and validity, rounded to 0-100, with a
  tier and a percentage string. The service then picks processes for the role and
  estimates a monthly return from the weekly hours.
- **The client's own DQS** (`config/webhooks.ts`). It is a different rubric over
  the raw form record, weighted by `DQS_CONFIG`. `selectAIModel` uses it as a gate
  that blocks low scores and otherwise picks the free or the pro model.

The two rubrics are kept apart: `MockServer.CalculateDqs` and
`Webhooks.CalculateDqs`.

Modules:

- `Js` (`js.dfy`): the JavaScript runtime behaviour the code depends on.
  - truthiness (`Truthy`);
  - `trim` (`Trim`) and its whitespace set;
  - `.length` in UTF-16 code units;
  - `Math.round`;
  - `slice(0, end)`;
  - `String(n)`;
  - `Number(v)`.
- `MockServer` (`mock_server.dfy`): the server rubric, the validation chain and the handler.
  - `CountFilledFields`, `WeightedDqs`, `CalculateDqs` and `Diagnose` are methods
    that compute step by step, as the source does.
  - Each is proved against the reference score `DqsPoints`, which goes through the
    abstract `Rubric`.
  - `DqsPoints` scores every form between 20 and 100. The lower bound is 20 because
    `horas` is a number once typed, and `String(horas).trim()` is never empty, so
    completeness is at least 1/5.
  - The validation chain is the list `Checks`, built from `NonBlankText`,
    `TextFieldFailure` (the 400-or-500 outcome of a bad text field) and the
    `problema` length test, and read by `FirstFailure`.
  - `ProcessCount` is the plan-to-count rule (1 for mini, 5 for pro), stated
    through `Diagnose`.
- `Processes` (`processes.dfy`): the role-to-process table, `getProcessesByRole`
  and `estimateROI`.
- `Webhooks` (`webhooks.dfy`): the client rubric, `DQS_CONFIG`, `AI_MODELS` and
  `selectAIModel`.
  - `AccuracyHolds`, `ValidityHolds` and `Unrounded` are the sub-checks and the
    exact weighted sum of `calculateDQS`; `CalculateDqsClosedForm` states their
    combined value.
- `Plans` and `Wrappers`: the plan type, and the `Option`/`Result` wrappers.

Where the code and its comments disagree, the model follows the code.

- **Example response.** The comment above the handler (`backend/mock-server.ts:210-220`)
  shows the Acme Corp body scoring 78 and Silver. The code cannot produce that.
  - Every accepted body fills all five fields and has `horas` in range.
  - It has a `presupuesto` and a `problema` of at least 20 code units.
  - So it scores 85 when `empresa` is shorter than three code units, and 100
    otherwise, always Gold (`MockServer.ValidatedRequestScore`, `MockServer.Diagnose`).
  - The Acme body's `empresa` has nine code units, so it scores 100.
- **Inherited role keys.** A role such as `"constructor"` or `"toString"` is a key
  that the table literal inherits from `Object.prototype`.
  - The lookup finds a function or an object, which is truthy, so the defaults are
    not used.
  - That value has no `slice`, so the handler's `catch` answers 500
    (`Processes.GetProcessesByRole`, `MockServer.Diagnose`).
- **Non-string text fields.** A text field holding a truthy value that is not a
  string (a number, an array, an object) has no `trim`. The handler answers 500,
  not 400 (`MockServer.TextFieldFailure`).

## Model

| member | source | states |
|---|---|---|
| Js.TrimEmptyIffBlank | backend/mock-server.ts:230 | `s.trim()` is empty exactly when every character of `s` is whitespace or a line terminator |
| Js.BlankMeansAllWhitespace | backend/mock-server.ts:230 | the recursive blankness test holds exactly when every character is whitespace |
| Js.Utf16Length | backend/mock-server.ts:67 | `.length` counts UTF-16 code units: at least one and at most two per character |
| Js.Round | backend/mock-server.ts:100 | `Math.round(x)` is the integer within half a unit of `x`, with a half rounded up |
| Js.RoundMonotone | config/webhooks.ts:188 | `Math.round` preserves order |
| Js.SliceTo | backend/mock-server.ts:167 | `slice(0, end)` is a prefix of length `min(end, length)`, and for a negative `end` the length plus `end`, floored at 0 |
| Js.NatToString | backend/mock-server.ts:115 | `String(n)` is a non-empty string of decimal digits, with a leading zero only for 0 |
| Js.DecimalRoundTrip | backend/mock-server.ts:115 | reading back the digits of `String(n)` gives `n` |
| Js.StringToNumber | config/webhooks.ts:178 | a blank string converts to 0, and a converted string is never negative |
| Js.ToNumber | config/webhooks.ts:178 | `Number(v)` keeps a number as it is; `undefined` and plain objects give NaN |
| Js.FalsyIsZeroOrNaN | config/webhooks.ts:178 | every falsy value converts to 0 or NaN |
| MockServer.CountFilled | backend/mock-server.ts:71-76 | the number of filled fields is at most the number of fields examined |
| MockServer.CountFilledAll | backend/mock-server.ts:71-76 | when every field is filled, the count is the number of fields |
| MockServer.CountFilledFields | backend/mock-server.ts:71-76 | the filter loop counts exactly the required fields whose `String(value).trim()` is non-empty |
| MockServer.RubricOf | backend/mock-server.ts:64-90 | the rubric of any form has between 1 and 5 filled fields, because `horas` always counts |
| MockServer.DqsPoints | backend/mock-server.ts:60-117 | every form scores between 20 and 100 |
| MockServer.WeightedSumInPoints | backend/mock-server.ts:92-100 | the weighted sum of the sub-scores, times 100, equals the rubric's whole points (weights 30/25/20/15/10) |
| MockServer.WeightedDqs | backend/mock-server.ts:64-97 | the source's sum of the sub-scores, computed step by step, is the reference score over 100 |
| MockServer.CalculateDqs | backend/mock-server.ts:60-117 | the score is the reference score, lies in [20, 100], is Gold iff ≥ 85, Silver iff in [70, 85), Bronze iff < 70, and `accuracy` is `String(score) + "%"` |
| MockServer.PointsMonotone | backend/mock-server.ts:92-100 | a rubric that passes no fewer sub-checks scores no less, and one that passes one more scores strictly more |
| MockServer.CountFilledMonotone | backend/mock-server.ts:71-76 | filling more fields never lowers the count, and filling one that was empty raises it |
| MockServer.RubricMonotone | backend/mock-server.ts:64-90 | a form that passes no fewer sub-checks has a rubric no worse, and one that passes one more has a strictly better one |
| MockServer.DqsMonotone | backend/mock-server.ts:60-117 | passing more sub-checks or filling more fields never lowers the score, and passing one more raises it |
| MockServer.FirstFailureIsFirst | backend/mock-server.ts:230-284 | the early-return chain reports nothing iff every check passes, and otherwise reports a failing check all of whose predecessors pass |
| MockServer.RequireText | backend/mock-server.ts:230-263 | a text field passes iff it is a non-blank string; otherwise the error is 400 naming the field, or 500 for a truthy non-string |
| MockServer.RequireHoras | backend/mock-server.ts:244-256 | `horas` passes iff it is a number in [1, 40]; a missing or null value gives "Missing field: horas", anything else the range error |
| MockServer.RequirePlan | backend/mock-server.ts:279-284 | `plan` passes iff it is the string "mini" or "pro", and the result is the matching plan |
| MockServer.Validate | backend/mock-server.ts:230-284 | an accepted body has text `empresa`, `rol`, `presupuesto` and `problema`, a numeric `horas`, and `plan` "mini" or "pro", carried into the form data |
| MockServer.ValidationOrder | backend/mock-server.ts:230-284 | a body is refused iff one of the eight checks fails (including `problema` shorter than 20 UTF-16 code units); the error is that of the first failing check in handler order; a body is accepted iff all eight pass |
| MockServer.ValidatedRequestScore | backend/mock-server.ts:230-291 | every accepted body scores 100 when `empresa` has at least three code units, and 85 otherwise |
| MockServer.ProcessingSeconds | backend/mock-server.ts:311-312 | the simulated processing time is the ceiling of `1 + 2 * random`: between 1 and 3 seconds, and 1 only for a draw of 0 |
| MockServer.Diagnose | backend/mock-server.ts:225-340 | a refused body gets the first check's error; an inherited role key gets a 500; otherwise the reply is Gold, scores 85 or 100, has the matching percentage, an ROI in [530, 1700], and a prefix of the role's processes (1 for mini; for pro, 5 for a listed role and 3 otherwise) |
| Processes.GetProcessesByRole | backend/mock-server.ts:122-168 | the call throws iff the role is an inherited key; otherwise it returns a prefix of the role's list (or the defaults) of length `min(limit, list length)` |
| Processes.RoleListLengths | backend/mock-server.ts:123-165 | every listed role has five processes, and the defaults are three |
| Processes.EstimateRoi | backend/mock-server.ts:173-179 | the estimate is 500 plus 30 per hour: subtracting 500 and dividing by 30 gives back the hours, and it lies in [530, 1700] for hours in [1, 40] |
| Processes.RoiStrictlyIncreasing | backend/mock-server.ts:173-179 | more hours give a strictly larger estimate |
| Webhooks.WeightsSumToOne | config/webhooks.ts:66-75 | the five DQS weights are positive and add up to 1 |
| Webhooks.TruthyKeys | config/webhooks.ts:175 | the truthy values come from the record's own keys, so there are never more of them than keys and completeness never exceeds 1 |
| Webhooks.CalculateDqs | config/webhooks.ts:172-189 | the client score is NaN iff the record has no keys, and otherwise lies in [35, 100] |
| Webhooks.UnroundedBounds | config/webhooks.ts:180-188 | the unrounded weighted sum, and its rounding, lie in [35, 100] |
| Webhooks.UnroundedMatchesClosedForm | config/webhooks.ts:174-188 | the rounded weighted sum equals 35 + 30·accuracy + 10·validity + ⌊(50·truthy + keys) / (2·keys)⌋ |
| Webhooks.CalculateDqsClosedForm | config/webhooks.ts:172-189 | the client score of every non-empty record equals that integer formula |
| Webhooks.MoreTruthyNeverLowers | config/webhooks.ts:174-188 | turning a falsy value truthy, or adding a truthy key, never lowers the score and never makes it NaN |
| Webhooks.AllTruthyScoresFull | config/webhooks.ts:172-189 | a record whose every value is truthy, with `empresa` and `rol` present and `horas` in [1, 40], scores 100 |
| Webhooks.SelectAiModel | config/webhooks.ts:194-200 | processing is blocked iff the score is a number below 70; otherwise pro gets openai with 2000 tokens and mini gets perplexity with 1000 |
| Webhooks.AccuracyAndTheGate | config/webhooks.ts:172-200 | without `empresa && rol` a record scores at most 70 and passes the gate iff `horas` is valid and at least 98% of its values are truthy; with them it scores at least 65 |
| Webhooks.EmptyRecordPassesGate | config/webhooks.ts:194-200 | an empty record scores NaN, and NaN passes the gate |
| Webhooks.SelectAiModelChecked | config/webhooks.ts:194-200 | the corrected gate allows processing iff the score is a number of at least 70 |
| Webhooks.CheckedGateBlocksEmptyRecord | config/webhooks.ts:194-200 | the corrected gate blocks the empty record and agrees with the source's gate on every non-empty one |

## Findings

| source | as written | input that shows it | evidently intended | confidence | as-written member | corrected member |
|---|---|---|---|---|---|---|
| config/webhooks.ts:194-200 | `dqsScore < DQS_CONFIG.threshold` is false for NaN, and `calculateDQS({})` is NaN (0 / 0 completeness), so the gate lets an empty record through to a model | `selectAIModel("pro", calculateDQS({}))` returns the pro model | a score that is not a number is blocked like a low one | medium, not executed | Webhooks.EmptyRecordPassesGate | Webhooks.SelectAiModelChecked |

## Left out

- The Express plumbing is not modelled. This covers:
  - CORS and JSON body parsing;
  - `/health`, the 404 handler and the error middleware;
  - the `setTimeout` delay before the reply;
  - the `console` logging;
  - the `timestamp` and `message` fields of the reply.

  The reply's `processingTime` is modelled, with the `Math.random()` draw as a parameter.
- The 500 reply's `message` field (the text of the thrown error) is not modelled. Only
  the status and "Internal server error" are.
- `sendToWebhook` is not modelled: it is network I/O.
- The URL, integration, Notion-mapping and email-template tables are not modelled.
  They are constants that no modelled code reads.
- The client screens that call `calculateDQS` are not part of this model.
- Numbers are exact rationals, not IEEE doubles. Each decoded JSON number is the
  exact rational of its literal. Overflow to ±Infinity, underflow to 0 and rounding
  to the nearest double are not captured. For example, `"horas": 40.0000000000000001`
  is 40 in JavaScript and accepted, but the model refuses it. `"empresa": 1e-400` is
  0 in JavaScript, which is falsy and gets 400; in the model it is a truthy
  non-string and gets 500.
- Strings are sequences of Unicode scalar values. A lone surrogate (JSON `"\ud800"`)
  cannot be expressed, so `Js.Utf16Length` and `Js.Blank` never see one.
- Processes.GetProcessesByRole: the default `limit` of 5 is not modelled. The handler
  always passes a count, so the limit is a required parameter.
- Webhooks.CalculateDqs: the weighted sum is computed exactly. In doubles, a share
  whose exact score ends in .5 may round the other way.
- Js.StringToNumber (and Js.ToNumber through it): a string counts as a number only when, once trimmed, it is empty or
  all decimal digits. Every other string is treated as NaN. This includes signs,
  fractions, exponents, `0x`/`0o`/`0b` prefixes and "Infinity".
- Js.ToNumber: an array is treated as NaN, although JavaScript converts an array
  through its joined elements (`[20]` is 20). The contents of arrays and objects
  are not modelled.
- Webhooks.SelectAiModel: the score is an integer or NaN, which is what
  `calculateDQS` returns. Fractional or infinite scores from other callers are not
  modelled.
- `prepInfo` in the diagnosis body is never read by the handler, and is left out.
