# CRM platform core, modelled in Dafny

This project models the decision logic of a CRM platform's backend and proves properties about it:

- **Workflow automation engine** (`backend/services/workflow.ts`). It evaluates a workflow's conditions against an event payload. It fills `{{path}}` placeholders in action configuration. It runs the actions in order, with a persisted execution record whose `current_step` advances per successful action. It stops at the first failure. It counts completed runs. It also dispatches an event to every matching workflow.
- **Contact service** (`backend/services/contact_service.ts`). It covers the insight heuristics: engagement level, churn risk, next best action and health score. It also covers the per-status deal counts, the timeline buckets, and the builder of the UPDATE statement.
- **E-mail service** (`backend/services/email_service.ts`). It covers HTML composition with open and click tracking, `encodeURIComponent`, and the template override. It covers batched bulk sending with sent/failed accounting. It covers the template listing query and the record built from an incoming e-mail.
- **Demo API** (`backend/src/index.js`). An in-memory contact list with create, find, merge-update, splice-delete and statistics.

JavaScript values are modelled by `Json.Json` (`undefined`, `null`, booleans, integers, strings, arrays, objects). The module also defines their truthiness, `Number()`, `String()`, `==`, `===` and optional-chaining property access. Collaborators are modelled by their answers, which are inputs:

- the database;
- the mailer;
- `fetch`;
- the event bus.

For each workflow step, an `Actions.Reply` says whether the call returned, threw a message, or answered with an HTTP status. For each bulk message, a boolean says whether `sendEmail` returned without throwing. That covers the transport, the INSERT of the sent row and the `email.sent` publish (email_service.ts:124-133). Clock-dependent and generated values are parameters: uuids, "days since last activity" and `API_URL`.

Modules, one per file:

- `Wrappers`: `Option` and `Result`.
- `Json`: the value model.
- `Interpolation`.
- `Conditions`.
- `Actions`.
- `WorkflowEngine`: a class `WorkflowService` holding the workflow table, the execution table and the log of collaborator calls.
- `ContactService`.
- `EmailService`.
- `ContactStore`: a class `Store` over the contact list.

Two behaviours of the code are worth noting:

- The dispatcher's `try` block wraps the whole loop over matching workflows (workflow.ts:533-551). So the first failing run ends dispatch: the workflows after it are not run. There is no per-workflow failure isolation.
- The skipped run (conditions not met) returns status `completed` with step 0, and nothing is stored.

## Model

| member | source | states |
|---|---|---|
| Json.ToNumber | backend/services/workflow.ts:481-483 | `Number(v)`: a number is itself, `undefined` is NaN |
| Json.StringToNumber | backend/services/workflow.ts:481-483 | a string that trims to empty reads as 0 |
| Json.StringToNumberOfIntToString | backend/services/workflow.ts:479-483 | `Number(String(n)) == n` for every integer |
| Json.ToStr | backend/services/workflow.ts:479 | `String(v)` of a string is that string, of a number its decimal numeral |
| Json.Trim | backend/services/workflow.ts:500 | `trim` keeps a contiguous middle `s[i..j]` of the string, everything removed before `i` and from `j` on is JavaScript white space, and the result neither starts nor ends with white space |
| Json.Truthy | backend/services/workflow.ts:500 | `null` and `undefined` are falsy, arrays and objects are always truthy |
| Json.ReadError | backend/services/workflow.ts:387 | the `TypeError` text of a property read on `null`/`undefined` starts with "Cannot read properties of" |
| Json.LooseEquals | backend/services/workflow.ts:475-477 | `null`/`undefined` equal exactly each other; two arrays or objects are never equal; a number equals a string exactly when the string reads as that number; a boolean compares as 0 or 1 |
| Json.StrictEquals | backend/services/workflow.ts:485-487 | `===` implies equal values, never holds for an array or object, and never between a number and a string |
| Json.LooseEqualsSymmetric | backend/services/workflow.ts:475-477 | `==` is symmetric, so `equals`/`not_equals` do not depend on operand order |
| Json.StrictImpliesLoose | backend/services/workflow.ts:475-485 | `===` (used by `includes`) implies `==` |
| Json.GetField | backend/services/workflow.ts:508 | `v?.[key]` is `undefined` on `null`/`undefined`, and an object's member or `undefined` otherwise |
| Json.CanonicalIndex | backend/services/workflow.ts:508 | a key used as an array index is the canonical numeral of that index |
| Json.CanonicalDigits | backend/services/workflow.ts:508 | a digit string without a leading zero is the canonical numeral of its value |
| Json.Split | backend/services/workflow.ts:508 | `split('.')` always yields at least one part |
| Json.SplitJoin | backend/services/workflow.ts:508 | joining the parts of `split` gives the path back, and no part holds the separator |
| Json.SplitWithoutSeparator | backend/services/workflow.ts:508 | a path without a dot is a single key |
| Json.SplitAtFirstSeparator | backend/services/workflow.ts:508 | `a.b…` splits into `a` followed by the parts of `b…` |
| Json.GetPath | backend/services/workflow.ts:508 | the `reduce` over no keys is the value itself, over one key `v?.[key]`, and inside `null`/`undefined` always `undefined` |
| Json.GetNestedValue | backend/services/workflow.ts:507-509 | a lookup inside `null`/`undefined` is `undefined`; a path without a dot is a single `?.[path]` |
| Json.GetPathAppend | backend/services/workflow.ts:508 | the lookup `reduce` over keys `a + b` is the lookup of `b` in the result of `a` |
| Json.GetPathOfUndefined | backend/services/workflow.ts:508 | looking anything up inside `undefined` is `undefined` and never throws |
| Json.MissingIntermediateKey | backend/services/workflow.ts:507-509 | once an intermediate key is missing, the whole nested lookup is `undefined` |
| Interpolation.FirstIndexOf | backend/services/workflow.ts:499 | finds the first occurrence of a character from a position, or reports none |
| Interpolation.PlaceholderEnd | backend/services/workflow.ts:499 | a match of `/\{\{([^}]+)\}\}/` starts with `{{`, ends with `}}`, has at least one character inside and no `}` inside |
| Interpolation.Replacement | backend/services/workflow.ts:499-501 | a placeholder whose trimmed path looks up a falsy value is kept literally |
| Interpolation.Interpolate | backend/services/workflow.ts:499-501 | a string without `{` comes back unchanged; the lemmas below pin each match and the text between matches |
| Interpolation.InterpolateValue | backend/services/workflow.ts:496-502 | a non-string template is returned unchanged, and a string stays a string |
| Interpolation.PlaceholderRecognised | backend/services/workflow.ts:499 | `{{p}}` with non-empty `p` free of `}` is one match of length `|p| + 4` |
| Interpolation.EmptyBracesNotPlaceholder | backend/services/workflow.ts:499 | `{{}}` is not a placeholder |
| Interpolation.InterpolateCopiesChar | backend/services/workflow.ts:499 | text that does not start a match is copied unchanged |
| Interpolation.ResolvedPlaceholderReplaced | backend/services/workflow.ts:499-501 | a placeholder whose lookup is truthy is replaced by the value's `String()` |
| Interpolation.UnresolvedPlaceholderKept | backend/services/workflow.ts:499-501 | a placeholder whose lookup is falsy (missing, 0, "", false, null) is left in the text |
| Interpolation.NoPlaceholderUnchanged | backend/services/workflow.ts:496-502 | a string without `{{` is returned unchanged |
| Interpolation.UnresolvableDataLeavesTextUnchanged | backend/services/workflow.ts:499-501 | when no path resolves to a truthy value, every string is returned unchanged |
| Interpolation.InterpolateAgainstUndefined | backend/services/workflow.ts:499-509 | interpolating against `undefined` data changes nothing and never throws |
| Conditions.EvaluateCondition | backend/services/workflow.ts:472-491 | unknown operator is false; `in`/`not_in` are false without an array; `greater_than`/`less_than` hold exactly when both sides are numbers in strict order |
| Conditions.ConditionsMet | backend/services/workflow.ts:447-466 | an OR condition that holds in first position makes the list met; an AND/unflagged condition that fails in first position makes it unmet |
| Conditions.EvaluateConditions | backend/services/workflow.ts:443-467 | the loop with early returns computes `ConditionsMet`: no AND/unflagged condition fails before any OR condition succeeds |
| Conditions.EmptyConditionsMet | backend/services/workflow.ts:447 | an empty condition list is met |
| Conditions.FailingOrNeverRejects | backend/services/workflow.ts:453-463 | an OR condition never causes false |
| Conditions.AllOrConditionsAlwaysMet | backend/services/workflow.ts:449-466 | a list of OR conditions is always met |
| Conditions.AndOnlyIsConjunction | backend/services/workflow.ts:449-466 | a list of AND/unflagged conditions is met exactly when every condition holds |
| Conditions.StopsAtShift | backend/services/workflow.ts:449-466 | behind a condition that does not return true, the evaluation stops at position k + 1 exactly when the rest stops at k |
| Conditions.PassingConditionIsNeutral | backend/services/workflow.ts:449-466 | a condition that neither returns true nor false is skipped |
| Conditions.InAndNotInBothFalseWithoutArray | backend/services/workflow.ts:484-487 | without an array `in` and `not_in` are both false, so `not_in` is not the negation of `in` |
| Conditions.NotInComplementsInOnArrays | backend/services/workflow.ts:484-487 | with an array, `not_in` is the negation of `in` |
| Conditions.ComparisonsAreStrict | backend/services/workflow.ts:480-483 | no value is greater than or less than itself |
| Conditions.GreaterIsSwappedLess | backend/services/workflow.ts:480-483 | `a > b` exactly when `b < a` |
| Conditions.AmountExample | backend/services/workflow.ts:450-481 | `amount greater_than 1000` holds for 1500 and fails for 500 |
| Conditions.MixedFlagsExample | backend/services/workflow.ts:449-466 | an unflagged condition that holds, followed by an OR condition that fails, is met: neither returns early and the loop ends with true |
| Actions.Recipients | backend/services/workflow.ts:320 | an array of recipients is used as is, any other value is wrapped in a list |
| Actions.HandlerEffect | backend/services/workflow.ts:273-438 | unknown kinds and `send_notification` call nothing; `update_field` calls the store exactly when nothing required is missing |
| Actions.WebhookFailure | backend/services/workflow.ts:428-430 | the message of a non-2xx webhook starts with "Webhook failed with status " |
| Actions.ActionError | backend/services/workflow.ts:278-430 | `wait`, `send_notification` and unknown kinds never fail; `send_email` and `create_task` fail exactly when the call throws, with its message; `update_field` on `null`/`undefined` data fails with the `TypeError` of reading `entity_type`, with missing parts with the fixed message, and otherwise exactly when the store throws; a webhook fails with the thrown message, or with "Webhook failed with status N" on a non-2xx status, and otherwise succeeds |
| Actions.DelayEffects | backend/services/workflow.ts:214-216 | the pause before an action is absent or one sleep of `delay_minutes` |
| Actions.CallEffects | backend/services/workflow.ts:273-303 | an action makes at most one collaborator call |
| Actions.Effects | backend/services/workflow.ts:212-219 | an action starts with a sleep exactly when `delay_minutes` is truthy and positive |
| Actions.UnknownActionIsNoOp | backend/services/workflow.ts:300-301 | an unknown kind or `send_notification` succeeds whatever the reply and does nothing but the delay |
| Actions.UpdateFieldPreconditions | backend/services/workflow.ts:387-394 | `update_field` fails exactly when `entity_type`, `entity_id` or `field_name` is missing, and then calls nothing |
| Actions.UpdateFieldOnNullData | backend/services/workflow.ts:385-392 | `update_field` on `null` data fails with "Cannot read properties of null (reading 'entity_type')" and calls nothing |
| Actions.WebhookFailsUnlessOk | backend/services/workflow.ts:422-430 | a webhook fails exactly when `fetch` throws or the status is not 2xx |
| Actions.EmailRecipientArrayNotInterpolated | backend/services/workflow.ts:314-320 | an array `to` is passed without interpolation |
| Actions.EmailRecipientStringInterpolated | backend/services/workflow.ts:314-326 | a string `to` is interpolated and wrapped; the subject defaults to "CRM Notification" |
| WorkflowEngine.SucceedingSteps | backend/services/workflow.ts:209-237 | the number of leading actions that succeed: all before it succeed, the one at it fails |
| WorkflowEngine.ExtendSuccess | backend/services/workflow.ts:209-237 | a successful step extends the successful prefix by one |
| WorkflowEngine.FirstFailure | backend/services/workflow.ts:209-237 | the succeeding-step count is the first failing position, or the number of actions when none fails |
| WorkflowEngine.RowAfter | backend/services/workflow.ts:191-236 | the run's row after k steps keeps its id, workflow and trigger data, records k steps and the error, and is `failed` exactly when there is an error |
| WorkflowEngine.StepRow | backend/services/workflow.ts:222-236 | a failure marks the row failed with the message at the same step; a success counts one more step and keeps the status |
| WorkflowEngine.RowStep | backend/services/workflow.ts:222-236 | one step on the row after k steps gives the row after k + 1 steps, or the failed row at k |
| WorkflowEngine.EffectsStep | backend/services/workflow.ts:213-219 | one more step's delay and call extend the log of the steps before it |
| WorkflowEngine.TriggerForEvent | backend/services/workflow.ts:514-527 | `lead_created`, `deal_stage_changed` and `contact_updated` are selected exactly by the topics `lead.created`, `deal.stage_changed` and `contact.updated` |
| WorkflowEngine.EventTriggers | backend/services/workflow.ts:514-527 | only the three entity events dispatch, never to `scheduled` or `manual` workflows |
| WorkflowEngine.EventTriggersInjective | backend/services/workflow.ts:514-527 | different events select different trigger types |
| WorkflowEngine.RunWorkflow | backend/services/workflow.ts:159-268 | one `executeWorkflow` call as a function of the state; a success is a row of the workflow asked for |
| WorkflowEngine.RunWorkflowFacts | backend/services/workflow.ts:159-268 | a run fails by an action exactly when the workflow is active; it changes only its own workflow, keeps every active flag, adds at most one row and only extends the log; the counter rises by one exactly with a completed row |
| WorkflowEngine.OutcomeIsRun | backend/services/workflow.ts:159-268 | the case-by-case outcome of `executeWorkflow` (not found, skipped, all steps succeed, a step fails) holds exactly for the result and state `RunWorkflow` gives |
| WorkflowEngine.Dispatch | backend/services/workflow.ts:532-552 | the fold of `executeWorkflow` over the matching rows has at most one result per row |
| WorkflowEngine.DispatchStep | backend/services/workflow.ts:545-547 | the dispatch from row i is the run of row i, then, unless it failed, the dispatch from row i + 1 |
| WorkflowEngine.DispatchResults | backend/services/workflow.ts:533-551 | over active rows only the last result may fail, and only by an action; a dispatch that stops early ends with a failure; each success belongs to its row |
| WorkflowEngine.DispatchGrows | backend/services/workflow.ts:533-551 | a dispatch keeps the workflows and their active flags, adds at most one row per run and only extends the log |
| WorkflowEngine.DispatchUntouched | backend/services/workflow.ts:545-547 | a workflow that no run named is unchanged |
| WorkflowEngine.DispatchCounts | backend/services/workflow.ts:545-547 | each counter rises by exactly the number of completed rows of its workflow the dispatch stored |
| WorkflowEngine.DispatchFacts | backend/services/workflow.ts:532-552 | the results, rows, log, untouched workflows and counters of a dispatch over active rows, together |
| WorkflowEngine.WorkflowService.ExecuteAction | backend/services/workflow.ts:273-303 | logs the handler's call and returns its failure message, if any |
| WorkflowEngine.WorkflowService.RunStep | backend/services/workflow.ts:212-237 | one step: its delay and call are logged; on success `current_step` advances by one, on failure the row becomes `failed` with the message |
| WorkflowEngine.WorkflowService.AdvanceRun | backend/services/workflow.ts:209-237 | one iteration with k steps done: returns action k's error, extends the successful prefix on success, leaves the row after k + 1 steps or the failed row at k, and logs action k's effects |
| WorkflowEngine.WorkflowService.RunActions | backend/services/workflow.ts:207-238 | the loop stops at the first failure; the row's `current_step` equals the successful steps; the status is `failed` only with an error; exactly the actions up to the failing one are executed |
| WorkflowEngine.WorkflowService.ExecuteWorkflow | backend/services/workflow.ts:159-268 | the new state and result satisfy `Outcome`: a missing/inactive workflow is an error with nothing changed; unmet conditions return completed at step 0 with nothing stored; full success stores one completed row, logs every step's effects and increments the counter once; a failure at step k stores one failed row with the message, logs the effects up to step k and leaves the counter |
| WorkflowEngine.WorkflowService.DispatchNext | backend/services/workflow.ts:545-547 | one loop iteration: the run of row i extends the results so far, and either ends the dispatch or leaves the dispatch from row i + 1 |
| WorkflowEngine.WorkflowService.HandleTrigger | backend/services/workflow.ts:532-552 | the results and the new state are exactly `Dispatch`; the matching workflows run in order, only the last run may fail and a failure ends dispatch, no error escapes; the execution table and the log only grow, by at most one row per run; workflows no run named are unchanged; each counter rises by exactly its completed rows |
| ContactService.Where | backend/services/contact_service.ts:275-279 | a `filter` keeps a sub-multiset of the rows, each satisfying the test |
| ContactService.WhereMembers | backend/services/contact_service.ts:275-279 | a row is kept exactly when it is present and satisfies the test |
| ContactService.StatusCount | backend/services/contact_service.ts:208-209 | the won or open deal count is at most the number of deals |
| ContactService.WonAndOpenAtMostDeals | backend/services/contact_service.ts:208-209 | won plus open is at most the number of deals |
| ContactService.BuildTimeline | backend/services/contact_service.ts:274-280 | the three source buckets together are a sub-multiset of the rows |
| ContactService.WhereLast | backend/services/contact_service.ts:275-279 | filtering a list is filtering all but its last row, plus that row when it passes |
| ContactService.WhereCount | backend/services/contact_service.ts:275-279 | the filter keeps every copy of a passing row and none of any other |
| ContactService.FieldIsExclusive | backend/services/contact_service.ts:275-277 | a field strictly equals at most one string |
| ContactService.WhereDisjoint | backend/services/contact_service.ts:275-277 | filters on three different values of one key share no row |
| ContactService.WherePartition | backend/services/contact_service.ts:275-277 | when every row has one of three different values, the three filters partition the rows |
| ContactService.TimelinePartition | backend/services/contact_service.ts:228-277 | rows tagged activity/email/deal are partitioned by the three source buckets |
| ContactService.WhereImplies | backend/services/contact_service.ts:275-279 | a filter whose test implies another's keeps a sub-multiset of it |
| ContactService.CallsAndNotesAreActivities | backend/services/contact_service.ts:228-279 | on rows of the union's shape, calls and notes are sub-multisets of the activities |
| ContactService.CallIsAlsoActivity | backend/services/contact_service.ts:275-278 | a call row appears both among activities and among calls |
| ContactService.LevelOf | backend/services/contact_service.ts:533-535 | `high` exactly above 20, `medium` exactly in 11..20, `low` otherwise |
| ContactService.LevelMonotone | backend/services/contact_service.ts:533-535 | more engagements never lower the level |
| ContactService.CountValueReads | backend/services/contact_service.ts:529-531 | a count that is missing, a number, or its decimal string reads as that count |
| ContactService.EngagementLevel | backend/services/contact_service.ts:526-536 | corrected version (see Findings): whenever each count is missing, a number `n` or the string of `n`, the level is `LevelOf` of the numeric sum, missing counts as 0 |
| ContactService.EngagementLevelAsWritten | backend/services/contact_service.ts:526-536 | the code as written, `+` after `|| 0`; with every count falsy the level is `low` |
| ContactService.NumericCountOperand | backend/services/contact_service.ts:529-531 | a numeric or missing count is the number `n` as an operand of `+` after `|| 0` |
| ContactService.MissingCountsAreZero | backend/services/contact_service.ts:529-531 | with each count missing or a number, in any combination, a missing count adds 0 and both versions give `LevelOf` of the sum |
| ContactService.Plus | backend/services/contact_service.ts:528-531 | JavaScript `+` concatenates the `String()` texts when either side is a string (so `true + "5"` is `"true5"`), and adds numbers otherwise |
| ContactService.AsWrittenAgreesOnNumbers | backend/services/contact_service.ts:526-536 | with numeric counts the code as written computes the intended level |
| ContactService.CountsAsStringsConcatenate | backend/services/contact_service.ts:526-536 | with counts delivered as strings "1","0","0" the code as written says `high`, the intended level is `low` |
| ContactService.ChurnRisk | backend/services/contact_service.ts:552-564 | always in {20, 50, 70, 80, 90}; 80 exactly without activity; each band exactly by its day thresholds |
| ContactService.ChurnRiskMonotone | backend/services/contact_service.ts:560-563 | a longer silence never lowers the risk |
| ContactService.NextAction | backend/services/contact_service.ts:538-550 | first-match order: no activity, over 30 days, over 14 days, open deals, otherwise nurture — each exactly under its condition |
| ContactService.NextActionFollowsChurn | backend/services/contact_service.ts:538-564 | re-engagement exactly when the churn risk is at least 50 with activity; initial outreach exactly at risk 80 |
| ContactService.RawHealthScoreRange | backend/services/contact_service.ts:566-583 | the unclamped score lies in [32, 106], so the clamp at 0 never binds |
| ContactService.CalculateHealthScore | backend/services/contact_service.ts:566-583 | the step-by-step score equals the clamped formula and lies in [32, 100] |
| ContactService.HealthScoreWithStringCounts | backend/services/contact_service.ts:566-583 | with counts "1","0","0", no deals and activity today the source's score is 76, the intended one 46 |
| ContactService.HealthScoreAsWrittenAgrees | backend/services/contact_service.ts:566-583 | with counts missing or numbers the as-written level gives the same score as the intended one |
| ContactService.HealthScoreMonotoneInEngagement | backend/services/contact_service.ts:570-572 | a higher engagement level never lowers the health score |
| ContactService.HealthScoreCapBinds | backend/services/contact_service.ts:566-582 | the best case reaches 106 and is capped at 100 |
| ContactService.Assigned | backend/services/contact_service.ts:296-297 | the entries that become SET clauses are all defined and neither `id` nor `organization_id` |
| ContactService.AssignedMembers | backend/services/contact_service.ts:296-297 | an entry becomes a clause exactly when it is in the updates, defined, and not an identifier |
| ContactService.NullIsCastToJsonb | backend/services/contact_service.ts:299-301 | `null` (`typeof 'object'`) is bound as JSON text with `::jsonb` |
| ContactService.BuildUpdate | backend/services/contact_service.ts:292-323 | fails with "No fields to update" exactly when no entry is assignable; otherwise clause i is `key = $i` (with `::jsonb` for objects/null), the parameters follow the clauses, and the id and organization are `$k+1` and `$k+2` |
| ContactService.IdentifiersAloneAreRefused | backend/services/contact_service.ts:297-311 | an update naming only `id` and `organization_id` has no clauses |
| EmailService.HexDigit | backend/services/email_service.ts:403 | percent-encoding digits are unreserved and never a quote |
| EmailService.PercentByte | backend/services/email_service.ts:403 | a byte becomes `%XX` |
| EmailService.Utf8Bytes | backend/services/email_service.ts:403 | a character encodes to 1 to 4 bytes |
| EmailService.PercentBytes | backend/services/email_service.ts:403 | an encoded byte string is made of `%` and unreserved characters, three per byte |
| EmailService.EncodeChar | backend/services/email_service.ts:403 | unreserved characters stay; nothing else produces a single quote |
| EmailService.EncodeUriComponent | backend/services/email_service.ts:403 | the output consists of `%` and unreserved characters only |
| EmailService.EncodeUnreservedIsIdentity | backend/services/email_service.ts:403 | a string of unreserved characters is its own encoding |
| EmailService.EncodingKeepsQuotesOut | backend/services/email_service.ts:403-404 | the encoding never holds `"`, and holds `'` only if the url does |
| EmailService.Tracked | backend/services/email_service.ts:402-405 | a rewritten link is never empty |
| EmailService.InjectClickTracking | backend/services/email_service.ts:398-406 | text before the first match is kept at the start of the result |
| EmailService.InjectAppend | backend/services/email_service.ts:398-406 | rewriting works piece by piece over the body |
| EmailService.OriginalAppend | backend/services/email_service.ts:400-402 | the pieces of a body spell it in order |
| EmailService.TextAroundLinksUnchanged | backend/services/email_service.ts:398-406 | text outside the matches is copied unchanged |
| EmailService.InjectWithoutLinks | backend/services/email_service.ts:398-406 | a body without matching links is returned unchanged |
| EmailService.InjectKeepsNonEmpty | backend/services/email_service.ts:398-406 | a non-empty body stays non-empty |
| EmailService.UppercaseHrefRewritten | backend/services/email_service.ts:400-405 | the pattern ignores case: `<A HREF="x">` is one well-formed match and is rewritten to the lower-case `<a href="…/track/click?url=x">` |
| EmailService.TrackedLinkIsOneAttribute | backend/services/email_service.ts:400-404 | the rewritten tag keeps the quote character, and the tracking link cannot close the attribute early |
| EmailService.TrackingPixel | backend/services/email_service.ts:68-70 | the pixel is a non-empty string |
| EmailService.ComposeHtml | backend/services/email_service.ts:67-81 | empty body gives ""; click tracking only with `track_clicks` and a non-empty body; the pixel only with `track_opens` and a non-empty body; both off gives the body |
| EmailService.GetTemplate | backend/services/email_service.ts:321-335 | a found template has that id and organization; none is found exactly when no row matches |
| EmailService.BulkBody | backend/services/email_service.ts:242-248 | the template body exactly when a non-empty id is given and the template is found, else `body` |
| EmailService.ForeignTemplateIgnored | backend/services/email_service.ts:243-248 | a template of another organization is never used |
| EmailService.SentCount | backend/services/email_service.ts:255-270 | the number of accepted messages is at most the number sent |
| EmailService.Batches | backend/services/email_service.ts:251-253 | each batch holds 1 to 50 recipients |
| EmailService.BatchesConcatenate | backend/services/email_service.ts:251-253 | the batches concatenated are the recipient list |
| EmailService.BatchesAreSlices | backend/services/email_service.ts:252-253 | batch j is `recipients.slice(50j, 50j + 50)` |
| EmailService.BatchCount | backend/services/email_service.ts:251-253 | there are `ceil(n / 50)` batches |
| EmailService.RoundUp | backend/services/email_service.ts:252 | the loop counter stops at the first multiple of 50 reaching the length |
| EmailService.SendBulkEmails | backend/services/email_service.ts:231-279 | `sent + failed == recipients.length`; sent counts accepted messages; every recipient gets exactly one message, in order, with the chosen body; one pause per batch |
| EmailService.ListTemplates | backend/services/email_service.ts:340-349 | starts with the organization filter and ends with ORDER BY; the category clause and a second parameter appear exactly when a category is given |
| EmailService.ParseIncomingEmail | backend/services/email_service.ts:411-441 | fails exactly on a `null`/`undefined` payload, with the `TypeError` of reading `from`; `to` is always a list; the related type is `contact` exactly when a contact matched, related id and organization are null otherwise |
| EmailService.MissingPartsDefaultToEmpty | backend/services/email_service.ts:418-420 | missing subject, text and html become "" |
| ContactStore.FirstIndex | backend/src/index.js:47 | -1 exactly when nothing matches, else the first match |
| ContactStore.NewContact | backend/src/index.js:32-35 | the new contact has an id, `length + 1` unless the body gives one, and every body field wins |
| ContactStore.Merged | backend/src/index.js:49 | the merge has the keys of both, body values win, others are kept |
| ContactStore.Removed | backend/src/index.js:56 | `splice(index, 1)` removes exactly one entry and keeps the order of the rest |
| ContactStore.CreateKeepsNumbering | backend/src/index.js:31-38 | creating without an id on a list numbered 1..n keeps it numbered |
| ContactStore.CreateAfterDeleteReusesId | backend/src/index.js:31-58 | deleting any contact but the last and creating one reuses the last contact's id |
| ContactStore.Companies | backend/src/index.js:63 | a company key is in the set exactly when some contact gives it |
| ContactStore.CompaniesAtMostContacts | backend/src/index.js:62-63 | there are never more companies than contacts |
| ContactStore.SharedCompanyCountsOnce | backend/src/index.js:63 | contacts naming the same company count once |
| ContactStore.SeedNumbered | backend/src/index.js:9-13 | the seed holds three contacts numbered 1, 2, 3 |
| ContactStore.Store.constructor | backend/src/index.js:9-13 | the list starts as the seed |
| ContactStore.Store.FindIndex | backend/src/index.js:47-48 | the loop returns the first matching index, or -1 exactly when nothing matches |
| ContactStore.Store.Find | backend/src/index.js:40-44 | not found exactly when nothing matches, else the first match |
| ContactStore.Store.Create | backend/src/index.js:31-38 | appends `NewContact` at the end and returns it |
| ContactStore.Store.Update | backend/src/index.js:46-51 | not found leaves the list; a hit replaces the first match by the merge and changes nothing else |
| ContactStore.Store.Delete | backend/src/index.js:53-58 | a miss leaves the list; a hit removes exactly the first match |
| ContactStore.Store.GetStats | backend/src/index.js:60-67 | total is the length, companies the distinct companies (at most the total), recent activity 15 and deadlines 3 |

## Left out

- Postgres, Redis, Kafka, Elasticsearch, nodemailer and `fetch`. Their answers are inputs. Query failures other than those of actions and of messages are not modelled.
- SQL text semantics. For example, `UPDATE ${entityType}s` in `update_field`, and what the timeline union query returns, are not modelled. The timeline lemmas take the union's row shape as a precondition.
- The `setTimeout` delays and waits are logged as a `Sleep` effect. The pause between bulk batches is counted. Timing itself is not modelled.
- Concurrency between runs, and the atomicity of the counter increment. Operations are sequential.
- Floating point: the `parseFloat` deal-value sum, `lifetime_value`, and the e-mail analytics rates. `Number()` yields integers or NaN: decimal fractions, exponents, hexadecimal and `Infinity` are not parsed.
- `Number()` of arrays and objects is treated as NaN, whereas JavaScript converts single-element arrays through their string.
- Prototype properties (`length` apart) in the nested lookup.
- `JSON.stringify` is not computed. The update builder binds the value itself, marked as JSON text. The webhook's `HttpCall` effect records the interpolated body as a value, where the source sends a string body as is and any other body through `JSON.stringify` (workflow.ts:424).
- The link pattern of `injectClickTracking`. The body arrives already split into text and matches (`EmailService.Segment`); the regular expression search itself is not modelled. A match records the `href=` as the body spells it, in any case, because the pattern carries the `i` flag (email_service.ts:400).
- Timestamps (`started_at`, `completed_at`, `updated_at`), uuids, `Date.now` and the `from`/`messageId` addresses. Ids and "days since last activity" are parameters.
- Cache invalidation, search indexing and event publishing in the contact and e-mail services.
- `getContactInsights` assembly: the insight functions are modelled one by one.
- `convertLeadToContact`, `mergeContacts`, `searchContacts`, `createTemplate`, `getEmailAnalytics`, tracking endpoints, subscription wiring beyond the topic-to-trigger map, and the Express server setup. `frontend/contacts.ts` is not part of this model.
- `ContactStore.Store.Find`: `parseInt` is taken as its result (`None` for NaN), not computed from the path parameter.
- `EmailService.ParseIncomingEmail`: the insert and the event of the incoming e-mail are not modelled. The contact lookup result is an input.
- Strings are sequences of Unicode scalar values, while JavaScript strings are sequences of UTF-16 code units. A character outside the Basic Multilingual Plane counts once here and twice in JavaScript, so `length`, index lookups (`GetField` on a string) and `slice` positions differ on such text. A lone surrogate cannot be represented at all, so the `URIError` that `encodeURIComponent` throws on one (email_service.ts:403) is not modelled.
- `create_task`'s `due_date_offset_days` is taken as a day offset only when it is a truthy number, and as 0 otherwise (`Actions.DueOffset`). For an untyped input the source's `getDate() + offset` (workflow.ts:347-348) would concatenate a string offset or add 1 for `true`; the declared type is `number`.
- CalculateHealthScore: it uses the corrected `EngagementLevel`, while the source calls the as-written `calculateEngagementLevel` (contact_service.ts:570). The two differ only when the counts arrive as strings. `HealthScoreWithStringCounts` gives the source's score for the Finding's input (76 against 46), and `HealthScoreAsWrittenAgrees` shows the scores are equal for counts that are numbers or missing.

## Findings

| source | as written | input that shows it | evidently intended | confidence | as-written member | corrected member |
|---|---|---|---|---|---|---|
| backend/services/contact_service.ts:528-533 | the three `COUNT` columns are combined with `+`. node-postgres returns `bigint` counts as strings, so `+` concatenates them | `email_count = "1"`, `call_count = "0"`, `meeting_count = "0"` gives the text "100", read as 100 > 20: `high` | the numeric sum 1: `low` | not executed; depends on the driver's default `bigint` parsing | ContactService.CountsAsStringsConcatenate | ContactService.EngagementLevel |
