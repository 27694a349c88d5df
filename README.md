# postmark-scheduler, modelled in Dafny

postmark-scheduler is a small mail scheduler built from four HTTP routes. Each route runs one fixed pipeline over an Airtable table of email campaigns:

- `testEmails` sends every email marked ready-to-test to a test automation, under a "TEST #n: [date]" subject, then marks it as tested.
- `sendEmails` sends every scheduled email to the active contacts of its own ActiveCampaign automation, through Postmark. It then marks the email as sent and posts a Slack summary.
- `sendWarnings` clears the old warnings at most every two hours. It then posts one Slack warning per email that is behind on review, and one per email that should already have been sent.
- `updateMetadata` copies the automation name and the template name of every changed email back into its row.

All four routes go through `tryAction`, a retry wrapper that walks a table of delays. They also use two paginators: Airtable's, which follows a cursor, and ActiveCampaign's, which steps an offset.

## How the model is built

- Every remote collaborator is an oracle held in `Pipeline.World`. An oracle is a function from a trace position and an attempt number to an `Attempt` (`Returned(v)` or `Threw(message)`). This covers the Airtable listings and updates, the automation, contacts, template and variables lookups, the batch send, `clearWarnings` and the clock. Positions never repeat within one route's trace, so any pattern of answers, failures and recoveries can be expressed.
- Library functions the routes rely on are fields of `Pipeline.Foreign` and stay uninterpreted:
  - `new Date(s)`;
  - the month-day-hour rendering in the America/New_York time zone;
  - `parseInt`;
  - `JSON.parse`;
  - `fillContentVariables`.
- Everything observable is an `Events.Event` appended to a trace:
  - a collaborator invocation;
  - an operator alert (`sendError`);
  - a retry notice;
  - a sleep;
  - a Slack post.
- `tryAction` (`Retry.TryAction`) is a pure recursive function. It returns the settled result together with the events it emitted.
- Each route is a class. It holds the module-level `isPending` latch, `lastWarned` (for `sendWarnings`) and the trace. Its `Get` method is the latch. Its run method follows the source's statements: a listing, an early return, and a `for` loop whose per-email body is its own method. Each method is proved equal to a specification function built from the back (`TestRun`, `SendRun`, `WarnRun`, `UpdateRun`). The lemmas state what each route promises about that function.
- The two send routes share one loop body: look up the automation, then the active contacts; skip an empty audience; fetch the template, then the contact variables; send the batch; mark the email. It is `Pipeline.DeliverFrom`, split into one function per stage. `DeliveryFacts` proves what holds of it for every answer of the collaborators.
- The paginators are imperative methods over a scripted sequence of page responses. The Airtable paginator writes the caller's parameter object in place (`AirtableApi.Params`).
- The record store of domain/actions/airtable.ts is a class over a map from record id to row. Its three updates patch a row in place. The listings are functions over a table of records, one per filter formula.

## Model

| member | source | states |
|---|---|---|
| Common.NatText | app/sendEmails/route.ts:75 | a count renders as a non-empty string of decimal digits |
| Common.NumberText | app/testEmails/route.ts:46 | a failed `parseInt` renders as "NaN", and no parsed number does |
| Retry.TryAction | domain/error.ts:10-28 | every attempt starts by invoking the wrapped call; a thrown result is always "Max retries reached for action: <desc>" |
| Retry.Budget | domain/error.ts:17 | the last slot is always reachable, so at least one attempt is made |
| Retry.ImmediateSuccess | domain/error.ts:11-13 | a first call that returns settles with its value; one invocation, no alert, no sleep |
| Retry.GivesUpAtLastSlot | domain/error.ts:17-21 | a failure at or past slot len-1 raises the "⛔️ Max retries" alert and throws "Max retries reached for action: <desc>"; the call is not made again |
| Retry.RetriesWithSlotDelay | domain/error.ts:23-26 | a failure before the last slot posts a notice naming the error and `delays[tryNumber]`, sleeps that delay, and settles as the attempt with `tryNumber + 1` |
| Retry.OnlyRetryEvents | domain/error.ts:10-28 | the wrapper emits only invocations of its own call, its retry notices and sleeps, and its give-up alert |
| Retry.InvocationsWithinBudget | domain/error.ts:17-26 | the call is invoked at least once and at most `len - tryNumber` times (once past the table) |
| Retry.SettlesOnLastInvocation | domain/error.ts:11-26 | every attempt but the last failed; a returned value is the last attempt's answer, the first that succeeded; a thrown result means the whole budget failed, with the max-retries message |
| Retry.SucceedsIffSomeAttemptSucceeds | domain/error.ts:11-26 | the wrapper returns if and only if some attempt within the budget returns |
| Retry.AllAttemptsFail | domain/error.ts:17-26 | when every attempt fails, the sleeps are `delays[t..len-2]` in order, the last event is the give-up alert, and the max-retries error is thrown |
| Retry.FailsAtLastSlot | domain/error.ts:17-21 | a failure at the last slot sleeps not at all before throwing |
| Retry.OnlyItsOwnCall | domain/error.ts:13 | the wrapper invokes no collaborator other than its own |
| Retry.PostsNothing | domain/error.ts:10-28 | the wrapper adds nothing to a route's own chat posts (warnings, summaries): its retry notices and give-up alert are events of their own kind |
| Retry.ScalarNeverGivesUp | domain/error.ts:17 | with the scalar delay setting as written, an action that always fails never settles, however many attempts are allowed |
| Retry.ScalarTryAction | domain/error.ts:10-28 | tryAction against the scalar setting as written, tracking only whether the call settles within a bound on attempts: once settled it has returned, with the answer of one of the attempts made; it never throws. It leaves out the notices ("Retrying in undefined seconds...") and the NaN-millisecond waits the source also emits |
| Retry.TableGivesUp | domain/error.ts:17-21 | with a delay table, the same action is invoked exactly `Budget` times and the max-retries error is thrown |
| AirtableApi.StopIndex | domain/api/airtable.ts:30-31 | the loop stops at the first response that threw or carried no non-empty cursor |
| AirtableApi.AllRecordsAppend | domain/api/airtable.ts:29 | the records of successive pages concatenate in arrival order |
| AirtableApi.OnlyTheOffsetChanges | domain/api/airtable.ts:26 | the params of request j differ from the caller's only at `offset`; after the first request, `offset` is the previous response's cursor |
| AirtableApi.SetOffset | domain/api/airtable.ts:26 | `if (offset) params.offset = offset` moves the parameters from request j-1 to request j |
| AirtableApi.FetchAllRecords | domain/api/airtable.ts:21-34 | one request per response up to the stopping one (at least one); request j carries the parameters above; the caller's object ends holding the last request's parameters; the result is every page's records in arrival order, or the error of the response that threw |
| AirtableApi.Params.constructor | domain/api/airtable.ts:21 | the parameter object holds the given entries |
| ActiveCampaign.ParseTemplateContent | domain/actions/activecampaign.ts:8-20 | the content's truthy `html` when it parses and carries one; the preview content when parsing throws or `html` is missing or empty; it never throws |
| ActiveCampaign.ContactsStopFrom | domain/actions/activecampaign.ts:90-97 | from a given page on, the loop stops at the first response that threw or whose total is not above the next offset |
| ActiveCampaign.ContactsStop | domain/actions/activecampaign.ts:90-97 | another page is fetched exactly when the incremented offset is below the total the latest page reported |
| ActiveCampaign.GetContactsForAutomation | domain/actions/activecampaign.ts:57-100 | request k uses offset 50·k, limit 50 and the automation as series; requests run up to the stopping response (at least one); the result is every page's emails concatenated in arrival order, or the thrown error; one one-second pause per page received |
| ActiveCampaign.RequestsForTotal | domain/actions/activecampaign.ts:63-97 | a constant total always needs at least one request |
| ActiveCampaign.RequestsForTotalIsFirstCovering | domain/actions/activecampaign.ts:91-97 | `max(1, ceil(T / 50))` is the first request count whose offset reaches the total |
| ActiveCampaign.ConstantTotalRequests | domain/actions/activecampaign.ts:63-97 | with a constant reported total T, the loop makes `max(1, ceil(T / 50))` requests |
| Postmark.FindVariables | domain/actions/postmark.ts:10 | `variables.find`: the index of the first set whose ID is the recipient's, or none when no set matches |
| Postmark.VariableSet | domain/actions/postmark.ts:10-14 | the chosen set always names the recipient; it is one of the listed sets exactly when one of them matches |
| Postmark.CreateBatchEmailArray | domain/actions/postmark.ts:9 | one message per recipient |
| Postmark.BatchMessages | domain/actions/postmark.ts:9-23 | message k goes from FROM_EMAIL to recipient k, with the email's subject, an empty text body, the outbound stream, and the HTML filled with recipient k's variable set |
| Postmark.FirstMatchingSetWins | domain/actions/postmark.ts:10 | the first set whose ID matches is the one used |
| Postmark.NoMatchFallsBack | domain/actions/postmark.ts:11-14 | with no matching set, the fallback built from the recipient's id, email and first name is used |
| AirtableActions.ToEmail | domain/actions/airtable.ts:12-15 | an email is the record's fields plus "Airtable ID" set to the record id; a field of that name would win |
| AirtableActions.ToEmails | domain/actions/airtable.ts:12-15 | records map to emails one to one, in order |
| AirtableActions.Matching | domain/actions/airtable.ts:10-11 | a listing keeps exactly the records whose fields satisfy the formula |
| AirtableActions.MatchingKeepsOrder | domain/actions/airtable.ts:10-11 | a listing keeps the table's order: the matches of a split table are the matches of each part, in turn |
| AirtableActions.Listing | domain/actions/airtable.ts:10-15 | a listed email is exactly the mapping of a matching record |
| AirtableActions.GetScheduledEmails | domain/actions/airtable.ts:9-16 | status Ready, schedule date at most one minute from now, and an empty Sent At |
| AirtableActions.GetTestEmails | domain/actions/airtable.ts:18-25 | status ready-to-test |
| AirtableActions.GetEmailsThatNeedMetadataUpdate | domain/actions/airtable.ts:42-49 | status neither draft nor sent, and either edited after the metadata was populated or never populated |
| AirtableActions.GetEmailsThatAreWaitingOnReview | domain/actions/airtable.ts:58-65 | status tested and schedule date at most one minute from now |
| AirtableActions.Patch | domain/api/airtable.ts:54-63 | an update writes the given fields and keeps every other field |
| AirtableActions.RecordStore.constructor | domain/actions/airtable.ts:5-6 | the store holds the given rows |
| AirtableActions.RecordStore.Update | domain/api/airtable.ts:54-63 | an existing record is patched with the fields; any other id changes nothing |
| AirtableActions.RecordStore.MarkEmailAsTested | domain/actions/airtable.ts:27-31 | only Status changes, to the tested status; other records are untouched |
| AirtableActions.RecordStore.MarkEmailAsSent | domain/actions/airtable.ts:33-38 | only Status (to sent) and Sent At (to the given time) change; other records are untouched |
| AirtableActions.RecordStore.SaveMetadata | domain/actions/airtable.ts:51-56 | only Automation Name and Template Name change; other records are untouched |
| AirtableActions.SentIsNotScheduled | domain/actions/airtable.ts:9-38 | a row marked as sent no longer satisfies the scheduled-emails formula |
| Pipeline.Records | app/sendEmails/route.ts:38-82 | the loop yields one record run per listed email |
| Pipeline.RecordsEach | app/sendEmails/route.ts:38-39 | email i is processed at the trace position where email i-1 stopped, in list order |
| Pipeline.RecordsEventsAreFlatten | app/sendEmails/route.ts:38-82 | the loop's trace is the records' traces in order |
| Pipeline.Deliver | app/sendEmails/route.ts:42-61 | the imperative send body coincides with `DeliverRecord`, early exits included |
| Pipeline.DeliverContent | app/sendEmails/route.ts:53-73 | the rest of the body, from the variables lookup to the mark, coincides with its stage functions |
| Pipeline.Successes | app/sendEmails/route.ts:63 | exactly the results with ErrorCode 0 |
| Pipeline.Errored | app/sendEmails/route.ts:66 | exactly the results with a non-zero ErrorCode |
| Pipeline.PartitionOfResults | app/testEmails/route.ts:90-93 | successes and errors partition the results: the counts add up, and together they are the results as a multiset |
| Pipeline.SuccessesKeepOrder | app/testEmails/route.ts:90 | the successes keep the results' order |
| Pipeline.ErroredKeepOrder | app/testEmails/route.ts:93 | the errors keep the results' order |
| DeliveryFacts.DeliveryCallsFrom | app/sendEmails/route.ts:42-73 | from any stage, the body only adds calls to the email's automation, contacts, template, variables, batch send and mark |
| DeliveryFacts.BatchIsFor | domain/actions/postmark.ts:8-25 | the built batch is addressed to the audience, one message per contact, with the email's subject |
| DeliveryFacts.SettledFrom | app/sendEmails/route.ts:42-73 | how a record ended agrees with what it obtained, from any stage |
| DeliveryFacts.InOrderFrom | app/sendEmails/route.ts:42-73 | from any stage: the mark comes only after a batch send, and every batch is built for the fetched audience |
| DeliveryFacts.DeliveryCallsOnly | app/sendEmails/route.ts:42-73 | one email's body calls only its own automation, contacts, template, variables, batch send and mark |
| DeliveryFacts.RecordSettles | app/sendEmails/route.ts:42-73 | a record keeps its email; an empty audience is exactly the skip and ends with its alert; there are send results exactly when the body got past the send |
| DeliveryFacts.EmptyAudienceSkips | app/sendEmails/route.ts:46-49 | an empty audience raises "No active contacts found in automation '<name>'." and calls nothing but the two lookups: no template, no send, no mark |
| DeliveryFacts.MarkedOnlyAfterSend | app/sendEmails/route.ts:61-73 | the email is marked exactly when the body completes or the mark itself fails, and the first mark follows a batch send |
| DeliveryFacts.BatchesForAudience | app/sendEmails/route.ts:59-61 | every batch sent is for the fetched audience, with the email's subject |
| TestEmails.TestRun | app/testEmails/route.ts:26-108 | a run starts by listing the ready-to-test emails, and throws only the max-retries error of that listing or of the fields listing |
| TestEmails.TestEmailsRoute.constructor | app/testEmails/route.ts:9 | the route starts idle with an empty trace |
| TestEmails.TestEmailsRoute.Get | app/testEmails/route.ts:11-24 | busy: 429, and nothing is done; idle: the latch is set, the run is appended to the trace, a normal end answers 200 and clears the latch, and a throw rejects and leaves it set |
| TestEmails.TestEmailsRoute.TestEmails | app/testEmails/route.ts:26-37 | the run is the listing, the early return on an empty list, then the rest |
| TestEmails.TestEmailsRoute.TestListedEmails | app/testEmails/route.ts:35-38 | the fields listing, then the loop over the listed emails |
| TestEmails.TestEmailsRoute.TestEach | app/testEmails/route.ts:38-107 | the loop appends each email's record events in list order |
| TestEmails.TestEmailsRoute.TestEmail | app/testEmails/route.ts:39-106 | one email's body: retarget, subject, then the shared delivery; a throw is caught |
| TestEmails.TestSubjectKeepsSubject | app/testEmails/route.ts:66 | a test subject starts with "TEST #" and ends with the original subject |
| TestEmails.TestSubjectDate | app/testEmails/route.ts:61-66 | two test subjects of the same email agree exactly when their date parts do |
| TestEmails.PastDatesReadAsap | app/testEmails/route.ts:63-64 | the date part is ASAP exactly when the schedule date is before now |
| TestEmails.TestRecordFacts | app/testEmails/route.ts:39-106 | the automation is retargeted to the test automation and nothing else but the subject changes; an invalid date throws before any call; a valid one gives "TEST #n: [d] <original>"; only test calls are made; the mark as tested happens exactly after a returned send; every batch is for the audience |
| TestEmails.TestBodyCalls | app/testEmails/route.ts:39-106 | every email's body stays within the test route's calls |
| TestEmails.TestLoopCalls | app/testEmails/route.ts:38-107 | so does the whole loop |
| TestEmails.TestListedCalls | app/testEmails/route.ts:35-107 | after the listing, only the fields listing can throw, and then nothing else is called |
| TestEmails.TestRunCalls | app/testEmails/route.ts:26-108 | a run calls only the test route's collaborators |
| TestEmails.TestRunEmptyListing | app/testEmails/route.ts:30-33 | an empty list ends the run normally, with no fields listing and no sends |
| TestEmails.TestRunCrashCalls | app/testEmails/route.ts:28-35 | a run that throws only listed emails and fields |
| SendEmails.SendRun | app/sendEmails/route.ts:26-83 | a run starts by listing the scheduled emails, and throws only the max-retries error of that listing or of the fields listing |
| SendEmails.SendEmailsRoute.constructor | app/sendEmails/route.ts:9 | the route starts idle with an empty trace |
| SendEmails.SendEmailsRoute.Get | app/sendEmails/route.ts:11-24 | busy: 429, and nothing is done; idle: set, run, and clear after a normal end; a throw rejects and leaves the latch set |
| SendEmails.SendEmailsRoute.SendEmails | app/sendEmails/route.ts:26-37 | the run is the listing, the early return on an empty list, then the rest |
| SendEmails.SendEmailsRoute.SendListedEmails | app/sendEmails/route.ts:35-38 | the fields listing, then the loop over the listed emails |
| SendEmails.SendEmailsRoute.SendEach | app/sendEmails/route.ts:38-82 | the loop appends each email's record events in list order |
| SendEmails.SendEmailsRoute.SendEmail | app/sendEmails/route.ts:39-81 | one email's body: the shared delivery, then the summary or the failure alert |
| SendEmails.OutcomeInvokesNothing | app/sendEmails/route.ts:75-80 | the summary and the failure alert call no collaborator |
| SendEmails.SendRecordCallsAreDeliveries | app/sendEmails/route.ts:39-81 | the send body calls exactly what the shared delivery calls |
| SendEmails.SendRecordCalls | app/sendEmails/route.ts:39-81 | the email is not changed; only its own collaborators are called; the mark as sent happens exactly after a returned send; every batch is for the audience |
| SendEmails.SendRecordOutcome | app/sendEmails/route.ts:46-81 | a completed email ends with the summary, reporting results and audience counts, the automation name and the error count; a failure ends with "Failed to send email ..." naming the error; an empty audience ends with its alert after the two lookups; a Slack post ends the record exactly when it completed |
| SendEmails.SentNoticeFlagsErrors | app/sendEmails/route.ts:75 | the summary ends with " sends had errors." exactly when some sends errored |
| SendEmails.SendBodyCalls | app/sendEmails/route.ts:39-81 | every email's body stays within the send route's calls |
| SendEmails.SendListedCalls | app/sendEmails/route.ts:35-82 | after the listing, only the fields listing can throw, and then nothing else is called |
| SendEmails.SendRunCalls | app/sendEmails/route.ts:26-83 | a run calls only the send route's collaborators |
| SendEmails.SendRunEmptyListing | app/sendEmails/route.ts:30-33 | an empty list ends the run normally, with no fields listing and no sends |
| SendEmails.SendRunCrashCalls | app/sendEmails/route.ts:28-35 | a run that throws only listed emails and fields |
| SendWarnings.WarnRun | app/sendWarnings/route.ts:26-68 | a run starts with the clearing when it is due, and with the review listing otherwise |
| SendWarnings.SendWarningsRoute.constructor | app/sendWarnings/route.ts:7-9 | the route starts idle, never warned, with an empty trace |
| SendWarnings.SendWarningsRoute.Get | app/sendWarnings/route.ts:11-24 | busy: 429, nothing done and `lastWarned` kept; idle: set, run (which may stamp `lastWarned`), and clear after a normal end; a throw rejects and leaves the latch set |
| SendWarnings.SendWarningsRoute.SendWarnings | app/sendWarnings/route.ts:26-68 | the run is the clearing rule, then the two listings and their warnings |
| SendWarnings.SendWarningsRoute.WarnOverdue | app/sendWarnings/route.ts:34-68 | the review listing, its warnings, the early return, then the second listing |
| SendWarnings.SendWarningsRoute.WarnSendOverdue | app/sendWarnings/route.ts:52-67 | the send-overdue listing and its warnings |
| SendWarnings.SendWarningsRoute.Warn | app/sendWarnings/route.ts:41-49 | the loop posts one warning per email, in order |
| SendWarnings.WarningsPerEmail | app/sendWarnings/route.ts:41-49 | exactly one post per email, the i-th about email i, and no calls |
| SendWarnings.WarnSendsCalls | app/sendWarnings/route.ts:52-67 | the second half calls only its listing |
| SendWarnings.WarnListsCalls | app/sendWarnings/route.ts:34-52 | the listings are the only calls; an empty or failed review listing returns before the second listing |
| SendWarnings.ClearsExactlyWhenDue | app/sendWarnings/route.ts:29-32 | `clearWarnings` is called exactly when never warned or at least 7,200,000 ms have passed, and then first |
| SendWarnings.StampsAfterClearing | app/sendWarnings/route.ts:29-32 | a clearing that returns sets `lastWarned` to the clock read after it; otherwise `lastWarned` is kept; after a run that got past the clearing it is set |
| SendWarnings.PostsEachOverdueEmail | app/sendWarnings/route.ts:34-67 | the posts are one warning per review-overdue email in order, then those of the second half; none when the review list is empty or failed |
| SendWarnings.WarnSendsPosts | app/sendWarnings/route.ts:52-67 | one warning per send-overdue email, in order, when the listing returned; none otherwise |
| SendWarnings.CrashesOnlyFromListingsOrClearing | app/sendWarnings/route.ts:29-67 | a run throws only a listing's max-retries error or the clearing's own error |
| UpdateMetadata.UpdateRun | app/updateMetadata/route.ts:25-49 | a run starts by listing the candidates, and throws only that listing's max-retries error |
| UpdateMetadata.UpdateMetadataRoute.constructor | app/updateMetadata/route.ts:8 | the route starts idle with an empty trace |
| UpdateMetadata.UpdateMetadataRoute.Get | app/updateMetadata/route.ts:10-23 | busy: 429, and nothing is done; idle: set, run, and clear after a normal end; a throw rejects and leaves the latch set |
| UpdateMetadata.UpdateMetadataRoute.UpdateDisplayMetadata | app/updateMetadata/route.ts:25-49 | the listing, the early return on an empty list, then the loop |
| UpdateMetadata.UpdateMetadataRoute.UpdateEach | app/updateMetadata/route.ts:32-48 | the loop appends each email's record events in list order |
| UpdateMetadata.UpdateMetadataRoute.UpdateEmail | app/updateMetadata/route.ts:33-47 | one email's body: two lookups, one save, with any throw caught |
| UpdateMetadata.MetadataRecordCalls | app/updateMetadata/route.ts:36-43 | one email's body calls only its automation, its template and the save for its own row |
| UpdateMetadata.SavesFetchedNames | app/updateMetadata/route.ts:36-43 | the save happens exactly when both lookups returned; it is the last call and passes the fetched automation's and template's names |
| UpdateMetadata.MetadataTemplateFetched | app/updateMetadata/route.ts:38 | a template is recorded only when the automation lookup returned and the template lookup returned it |
| UpdateMetadata.SaveFailureIsRecorded | app/updateMetadata/route.ts:43-47 | the save is made once, without retry; a failed save is recorded with its own error and the run goes on; the body completes exactly when both lookups and the save returned |
| UpdateMetadata.MetadataBodyCalls | app/updateMetadata/route.ts:33-47 | every email's body stays within the route's calls |
| UpdateMetadata.UpdateRunCalls | app/updateMetadata/route.ts:25-49 | only the route's calls; an empty or failed listing calls nothing else; the run throws exactly when the listing does |
| UpdateMetadata.EveryCandidateVisited | app/updateMetadata/route.ts:32-48 | a non-empty listing runs one record per candidate, in list order, and ends normally |
| UpdateMetadata.VisitsInOrder | app/updateMetadata/route.ts:32 | record i is about candidate i |
| UpdateMetadata.KeepsEmail | app/updateMetadata/route.ts:33-47 | the body does not change the email |

## Left out

- Wire-level HTTP is left out: `fetch`, URLs, headers and `.json()` decoding. Every collaborator is an oracle that returns a value or throws. This covers fetchAirtableRecords, getTemplateDetails, getAutomationDetails, sendBatchEmail, and the create, get-by-id and delete helpers.
- getEmailsThatAreWaitingOnSend, clearWarnings, listFields, getActiveContactsInAutomation, getAllContactVariables and fillContentVariables are not part of this model. Their source is not shown, so they are oracles or uninterpreted functions. TEST_AUTOMATION and the draft, tested, ready-to-test and sent status constants are parameters in `Types.Config`.
- The Slack transport is left out. A Slack post is an event, and the notifier is taken never to throw. The catch blocks around the warnings (app/sendWarnings/route.ts:45-48 and 63-66) are therefore unreachable in the model. The same holds for the unawaited posts.
- Console logging is left out. Response bodies are left out: only the status is modelled.
- Sleeping records only its duration.
- The clock, `new Date(s)`, the America/New_York rendering, `parseInt`, `JSON.parse` and `toISOString` are inputs (`World.clock`, `Foreign`). The Sent At written by the store's `MarkEmailAsSent` is a parameter.
- Airtable formulas are given only as the predicate each filter expresses, over a parsed date. The route listings are oracles over emails. `AirtableActions` states the store and the formulas, but the listings are not tied to a store state.
- Concurrency is left out. The latch is a sequential check-and-set on one route object.
- The tryAction wrappers around parseTemplateContent and createBatchEmailArray are left out. parseTemplateContent catches everything its `try` can throw. createBatchEmailArray is taken not to throw: fillContentVariables is assumed total and the contact variables well formed, though neither source is shown. Under that assumption both wrappers settle on the first attempt, so the model calls the two functions directly and emits no event for them. A throwing fillContentVariables, which the source would retry as "Formatting batch email array" and could give up on, is not captured.
- Retry.TryAction: the delay table is a `seq<nat>` parameter (`Types.Config.delays`); the setting as written is a scalar, see Findings. The routes pass `true` or `false` as tryNumber. The model reads it as the slot 1 or 0 everywhere, which matches the source in the give-up test and in `tryNumber + 1` (domain/error.ts:17,26). It does not match the index `ERROR_DELAY_SEC[tryNumber]` (domain/error.ts:23): with a boolean that is `undefined` even for a table, so the first retry of every route call posts "Retrying in undefined seconds..." and waits NaN ms, that is, not at all. The model posts and sleeps `delays[slot]` there instead. Later retries use a number and index as modelled.
- AirtableApi.FetchAllRecords: requires the scripted responses to end with one that stops the loop. A table whose cursor never runs out would make the source loop for ever.
- ActiveCampaign.GetContactsForAutomation: requires the scripted responses to end with one that stops the loop. `ConstantTotalRequests` covers the constant-total case. A growing total can make the loop run for ever.
- AirtableActions.RecordStore.MarkEmailAsTested: the second argument the test route passes (the test number at app/testEmails/route.ts:100) is ignored, as the one-argument signature at domain/actions/airtable.ts:27 does. No test-counter increment is invented.
- SendEmails.SendRecordCalls: "at most one batch send per email" holds per returned send only. tryAction retries a failed send, so the same batch can be invoked up to the retry budget (as written).
- SendEmails.SentNotice: the summary reports `sendResult.length`, the number of results, as sent, not the count of successes (as written).
- SendWarnings.CrashesOnlyFromListingsOrClearing: the second listing reuses the description "Getting emails that are behind on review" (as written). A give-up there raises the same message as the review listing, so the two cannot be told apart.
- The route's `lastWarned` is a millisecond clock reading, not a `Date`.

## Findings

| source | as written | input that shows it | evidently intended | confidence | as-written member | corrected member |
|---|---|---|---|---|---|---|
| domain/error.ts:17-23 | `ERROR_DELAY_SEC` is the number 30 (domain/settings.ts:3), so `ERROR_DELAY_SEC.length - 1` is NaN and `tryNumber >= NaN` is false; every failure is retried, with an undefined delay | any action that always throws; the wrapper never gives up | a table of delays indexed by attempt, with a give-up at the last slot | not executed; medium (the declared type also fails type-checking) | Retry.ScalarNeverGivesUp | Retry.TableGivesUp |
