# Verified model of the job-search assistant's backend

The backend stores resumes, has a language model read them, and pays for every
reply. This project models the three parts in which its promises are hardest to
keep, and proves them for every input, every interleaving and every fault the
model admits.

**Metered model calls.** `LlmService.run` checks a conversation's turn cap, then
makes at most two attempts; each reads the month's committed spending, prices
the worst case, calls the provider, and commits a usage row of its own. Nothing
makes these steps one transaction, so they are the steps of a state machine
(`Metering`) in which any number of calls interleave, and the month may change or
an account be erased between any two. `MeteringProperties`, `TurnCap`,
`ConversationUsage` and `CallOutcomes` prove what every run keeps, `TightBound` and
`TightTurns` that the bounds on overshoot and turns are reached; `LlmService` is the loop as the
source writes it, proved to be a run of the machine, with each usage row
(`UsageLog`) inserted through the pool of the account store.
`MeteringStatements` proves that the whole machine is a run of scoped transactions
on the usage rows of that store, which `UsageSums` adds up as the guards do. Costs
are exact dollars (`Budget`).

**The account store.** `Schema` holds the eleven tables, their foreign keys and
the cascade; `RowSecurity` the row policies and the statements; `Tenancy` the
pool of reused connections, each with a private overlay over committed rows
(READ COMMITTED). `UserContext` is the transaction wrapper, on the facts about
single transactions in `Transactions`; `SingleInsert` and `ReadById` are the two
smallest uses of it, and `Durability` says how long a committed row stays.
`Uploads` and `UploadProperties` are the statements of resume uploads, the blob
written in the midst of them, and erasure, in any order; `UploadStatements` proves
that every such run is a run of scoped transactions under the policies. `Resumes`,
`ResumeContent`, `ResumeList` and `ResumeExtraction` are the resume service;
`BlobStorage` the container; `AccountDeletion` the erasure request and
`AccountExport` the export; `Admission`, `SignIn` and `IdentityService` the way in.

**Text at the boundary.** `Regex` gives the fragment of JavaScript regular
expressions in use, with the order in which backtracking tries the ways to
match; `Rewriting` is leftmost-match replacement and the conditions under which
one pass leaves no match. On them stand `Scrub` (contact redaction) and
`PromptRender` (the frame around untrusted text); `StripContacts` is the
recursive removal of the contacts field, and `UntrustedInput` puts the two
together as a request does.

An object whose methods change it is a class whose methods carry the new state in
their contracts; code that computes a value is a function. Where calls interleave
in the source, a method takes what others do in the meantime as a parameter, so
that its contract holds for every interleaving.

## Where the code and its words differ

- `assertWithinConversationLimit` is meant to bound every conversation
  (`src/llm/budget.guard.ts:103-108`), but the call site tests the id for truth
  (`src/llm/llm.service.ts:110`), so the empty string counts as no id while its
  rows are logged under it. `TurnCap.TurnCapHoldsIffIdIsNotEmpty` gives the
  exact condition.
- The note on `PHONE` says that eight digits are required and that years survive
  (`src/llm/scrub.ts:18-19`). The expression asks for nine characters of which only
  the first and last need be digits: `Scrub.TwoDigitsSuffice`, and
  `Scrub.YearsAreRedacted` for a range of years. Which texts survive, exactly, is
  `Scrub.UnchangedIffNoContact`, with `Scrub.PhoneEnds` for what counts as a number.
- `upload` says that exactly one resume is active per user
  (`src/resumes/resumes.service.ts:34`). Overlapping uploads of one user can leave
  several: `UploadProperties.OverlappingUploadsLeaveTwoActive` shows two, and
  `UploadProperties.OneActiveIffNoCommitBetween` says exactly when there is one.
- Nothing in the renderer keeps a label from ending its own attribute
  (`src/llm/prompt-render.ts:22`). Quotes alone do no harm: with labels that hold no
  delimiter, messages are ambiguous exactly if some label begins with another one
  and its separator (`PromptRender.UnambiguousIffApart`). The labels the templates
  declare do not.

## Model

| member | source | states |
|---|---|---|
| `Rewriting.RewriteReplacesMatches` | src/llm/scrub.ts:48-50 | a global replacement splits the text into gaps and matches, keeps every gap and replaces every match in place |
| `Rewriting.RewriteSettles` | src/llm/scrub.ts:48-50 | one leftmost-match pass of a settling rule leaves no match, word boundaries created by the replacement included |
| `Rewriting.BothPassesSettle` | src/llm/scrub.ts:48-50 | after two settling passes in sequence neither expression matches, if the first cannot use what the second inserts |
| `Scrub.EmailEnds` | src/llm/scrub.ts:17 | the EMAIL expression matches exactly the texts of the form local@label.tail |
| `Scrub.PhoneEnds` | src/llm/scrub.ts:18-20 | the PHONE expression matches exactly a plus sign and nine or more number characters, or such characters as a whole word |
| `Scrub.NoDigitAfterPhone` | src/llm/scrub.ts:20 | the character after a reported phone match is never a digit |
| `Scrub.NoContactSurvives` | src/llm/scrub.ts:48-50 | nowhere in the redacted text is there an address or a phone number |
| `Scrub.RedactIsIdempotent` | src/llm/scrub.ts:48-50 | redacting twice is redacting once |
| `Scrub.OnlyContactsAreReplaced` | src/llm/scrub.ts:48-50 | each pass changes the text exactly at the addresses, then at the numbers, it reports, and puts `[redacted]` for each |
| `Scrub.UnchangedIffNoContact` | src/llm/scrub.ts:48-50 | a text comes back as it was if and only if it holds no contact |
| `Scrub.TwoDigitsSuffice` | src/llm/scrub.ts:18-20 | nine number characters with digits only at both ends are redacted, against the comment |
| `Scrub.YearsAreRedacted` | src/llm/scrub.ts:18-20 | a range of two years does not survive, against the comment |
| `StripContacts.StripValue` | src/llm/scrub.ts:28-41 | the recursive copy with its loops computes the specification `Strip` |
| `StripContacts.StripLeavesNoContacts` | src/llm/scrub.ts:28-41 | no contacts key remains at any depth |
| `StripContacts.StripOfContactFree` | src/llm/scrub.ts:28-41 | a value without the key comes back unchanged |
| `StripContacts.StripIsIdempotent` | src/llm/scrub.ts:28-41 | stripping twice is stripping once |
| `StripContacts.LookupInStripped` | src/llm/scrub.ts:28-41 | a path through contacts leads nowhere; along every other path the result holds the stripped original, present exactly when that was |
| `StripContacts.StripKeepsKeyOrder` | src/llm/scrub.ts:34-37 | the other keys stay, in their order |
| `PromptRender.DelimiterMatch` | src/llm/prompt-render.ts:48-50 | the escaping expression matches exactly `<data` and `</data` in any case before a word boundary |
| `PromptRender.EscapedHasNoDelimiter` | src/llm/prompt-render.ts:46-50 | escaped text holds no delimiter |
| `PromptRender.EscapeKeepsDelimiterFree` | src/llm/prompt-render.ts:48-50 | text without delimiters is untouched |
| `PromptRender.EscapeIsIdempotent` | src/llm/prompt-render.ts:48-50 | escaping twice is escaping once |
| `PromptRender.OnlyDelimitersAreReplaced` | src/llm/prompt-render.ts:48-50 | escaping changes the text exactly at its delimiters, each of which keeps its slash and loses its bracket and its case |
| `PromptRender.UnchangedIffNoDelimiter` | src/llm/prompt-render.ts:48-50 | a text is left as it is if and only if it holds no delimiter |
| `PromptRender.EscapeGrowth` | src/llm/prompt-render.ts:48-50 | every delimiter costs exactly three characters and nothing else does |
| `PromptRender.RenderedDelimiterCount` | src/llm/prompt-render.ts:18-25 | a message of n blocks holds exactly 2n delimiters if and only if no label holds one, whatever the texts are |
| `PromptRender.RenderedDelimitersAlternate` | src/llm/prompt-render.ts:18-25 | they alternate opening and closing, each at the place the renderer wrote it |
| `PromptRender.RenderThenSplit` | src/llm/prompt-render.ts:18-25 | a message splits back into its labels and escaped texts in order, whatever the texts say, if and only if no label holds a separator (quote, bracket, line break) |
| `PromptRender.RenderingIsUnambiguous` | src/llm/prompt-render.ts:18-25 | equal messages come from the same labels and the same escaped texts, if no label begins with another and its separator |
| `PromptRender.UnambiguousIffApart` | src/llm/prompt-render.ts:18-25 | for labels without delimiters that condition is exact: every message is unambiguous if and only if no label begins with another and its separator |
| `PromptRender.QuotedNameForgesABlock` | src/llm/prompt-render.ts:22 | a label that spells out the end of one block and the start of the next makes one block render like two |
| `PromptRender.CorrectionAddsNoDelimiter` | src/llm/prompt-render.ts:37-44 | the retry correction adds no delimiter to the system prompt, whatever the issues quote |
| `PromptRender.CorrectionListsEveryIssue` | src/llm/prompt-render.ts:37-44 | cut at its line breaks, the list in a correction is the lines of every issue's item in order; with issues of one line each, exactly one line per issue |
| `PromptRender.CorrectionIsUnambiguous` | src/llm/prompt-render.ts:37-44 | equal corrections come from the same escaped issues, if each issue is one line |
| `PromptRender.LineBreakForgesAnIssue` | src/llm/prompt-render.ts:38 | an issue with a line break can look like two, so the condition is needed |
| `UntrustedInput.AcceptedIffAsDeclared` | src/llm/llm.service.ts:188-209 | inputs are accepted if and only if they are the declared ones, each with a value; which error is reported for which inputs; blocks in declared order |
| `UntrustedInput.MessageHoldsDeclaredBlocks` | src/llm/llm.service.ts:188-209 | whatever the inputs hold, the message splits back into the declared labels if and only if none of those holds a separator; each text is that of the input supplied under its label, a structured one written without contacts |
| `Budget.EstimateTokens` | src/llm/pricing.ts:29-31 | the estimate is the least number of tokens that covers the text at four characters each |
| `Budget.PositiveEnvNumber` | src/llm/budget.guard.ts:11-15 | a configured limit is the value set if that is a positive finite number, and otherwise the fallback; so it is positive |
| `Budget.CostInMicroDollars` | src/llm/pricing.ts:13-22 | a cost is a whole number of micro-dollars, one per input and five per output token |
| `Budget.StoredCostIsExact` | src/llm/llm.service.ts:240 | storing eight decimals loses nothing of a cost |
| `Budget.WithinWorstCase` | src/llm/pricing.ts:37-43 | a reply within its estimates costs at most the worst case priced before it |
| `Budget.SpentIsMonthSpend` | src/llm/budget.guard.ts:41-51 | what the guard sums is the current month's spending while no row lies in the future |
| `MeteringProperties.OvershootIsBounded` | src/llm/llm.service.ts:125-140 | with at most n attempts in flight a user's logged spending in any month stays strictly below cap plus n attempt ceilings |
| `MeteringProperties.ConfiguredOvershootIsBounded` | src/llm/budget.guard.ts:8-23 | the bound holds with the cap and the ceiling read from the environment, whatever it says |
| `MeteringStatements.StepIsItsStatements` | src/llm/llm.service.ts:110-140 | each step of the metered calls is what its scoped transaction does to the database; and a guard ends its call if and only if the rows its query was answered with add up to its limit or more, and then reports that sum |
| `MeteringStatements.StoredSpendIsBounded` | src/llm/budget.guard.ts:38-56 | every run of calls and erasures is a run of such transactions, and the usage rows a user then has in the database for any month cost less than the cap plus the ceilings of the attempts in flight |
| `TightBound.OvershootIsReached` | src/llm/budget.guard.ts:25-31 | the bound is tight: for every cap, every ceiling from one micro-dollar up and every n, a run with n attempts in flight ends within n + 1 micro-dollars of it |
| `TightBound.CapAloneIsOvershot` | src/llm/budget.guard.ts:25-31 | no cap is kept on its own, not even by one call at a time, whatever the ceiling from two micro-dollars up |
| `MeteringProperties.MoneyIsConserved` | src/llm/llm.service.ts:125-180 | in every run, erasures included, the charge of a call's replies is its logged cost plus the cost of its lost rows plus what went with an erased account plus the reply about to be logged; as long as the account exists nothing of it has gone |
| `MeteringProperties.RowsStayUntilErased` | src/db/schema.ts:247-253 | in every run a usage row is in the log exactly as long as its owner's account is not erased, in order and in front of what is added; reports of lost rows stay in any case |
| `MeteringProperties.TurnsAreBounded` | src/llm/llm.service.ts:110-119 | a conversation with a nonempty id whose calls pass cap m and overlap at most k at a time records at most m + k - 1 turns |
| `TightTurns.TurnsAreReached` | src/llm/budget.guard.ts:103-118 | that bound is exact: for every cap m and overlap k from one up some run records m + k - 1 turns, so no call below its cap is refused |
| `TurnCap.TurnCapHoldsIffIdIsNotEmpty` | src/llm/llm.service.ts:110-119 | that bound holds in every run if and only if the conversation id is not the empty string |
| `MeteringProperties.OneTurnPerCall` | src/llm/budget.guard.ts:82-101 | a call adds at most one turn however many attempts it makes |
| `ConversationUsage.ConversationIsItsCalls` | src/llm/budget.guard.ts:82-101 | in every run a conversation's cost is that of all logged attempts of its calls, retries included, and its turns are at most its calls |
| `CallOutcomes.EveryOutcomeHolds` | src/llm/llm.service.ts:121-180 | in every interleaving a call's result and the exchanges paid for fit each other: which reply, how many attempts, which validity, and that a second attempt follows only an invalid, uncut first one and both guards again |
| `CallOutcomes.FailuresHaveCauses` | src/llm/llm.service.ts:110-140 | in every run a call ends with a provider's failure only if the provider failed it, and with the database's only if one of its reads failed |
| `CallOutcomes.PriceDecides` | src/llm/budget.guard.ts:58-69 | an attempt is refused for its price if and only if there is none or its estimated input and allowed output come to more than the ceiling at one and five micro-dollars a token |
| `CallOutcomes.RetriedIff` | src/llm/llm.service.ts:153-174 | a judged reply is retried if and only if structured output was asked for, the schema rejects it, it was not cut off and it was the first attempt |
| `CallOutcomes.CallsTerminate` | src/llm/llm.service.ts:121-180 | each step of a call leaves it strictly fewer |
| `LlmService.LlmService.Run` | src/llm/llm.service.ts:94-181 | the loop is a run of the machine that ends with the returned outcome, and the outcome is what the provider and the database made of an attempt; unless the account is erased, the call's rows in the log are those its own transactions committed, each still in the database whatever was rolled back, and nothing else of the user's rows has changed if no other transaction of the user was about |
| `LlmService.LlmService.Loop` | src/llm/llm.service.ts:110-180 | the call's steps in source order lead its flight to the returned outcome |
| `LlmService.LlmService.Attempt` | src/llm/llm.service.ts:125-173 | one pass finishes the call, or rejects the reply and sets up the corrected prompt of the next pass |
| `LlmService.LlmService.Guards` | src/llm/budget.guard.ts:38-69 | an attempt that goes on found spending below the cap and its worst case within the ceiling; a refusal names the limit that was passed and ends the call |
| `LlmService.LlmService.PaidExchange` | src/llm/llm.service.ts:132-140 | after a reply its row is the last of the log or the last of the lost ones, and the reply is judged; a provider failure ends the call and logs nothing |
| `LlmService.LlmService.LogUsage` | src/llm/llm.service.ts:216-251 | the row is committed in a transaction of the user's own and accounted for, or the failure is reported and nothing changes; it fails only if the database does, the user is gone or another has used the row's id |
| `UsageLog.RowReadsBack` | src/llm/llm.service.ts:225-240 | a reply's row read back column by column has the reply's own token counts, the call's model, attempt and conversation, and a cost that is the price of exactly these tokens |
| `Schema.DoomedIsLeastClosed` | src/db/schema.ts:68-282 | the cascade removes the least set that holds the given rows and with any row every row referring to it |
| `Schema.CascadeRemovesExactlyOwned` | src/db/user-data.ts:12-14 | deleting a user removes exactly the user's rows, two-step chains included |
| `Schema.CascadeIsExactIffOwnersAgree` | src/db/schema.ts:68-282 | it does so for every user if and only if children and parents agree on their owner |
| `Schema.DeletionIsClean` | src/db/user-data.ts:12-14 | deletion keeps foreign keys and owners sound and other users' rows as they were |
| `Schema.ExportIsWhatDeletionRemoves` | src/db/user-data.ts:12-86 | the export of a database exists exactly for a user there is, and holds row for row what deletion then removes, no table forgotten |
| `AccountExport.ExportUser` | src/db/user-data.ts:22-86 | the eleven reads in one scoped transaction: only own rows whatever goes on beside; with no other transaction of the user about exactly the user's rows, which stay, and an error only for a user who is not there or a fault |
| `RowSecurity.NoUserNoRows` | drizzle/0003_rls_null_guard.sql:15-73 | a connection whose variable is unset or left empty sees and changes nothing |
| `RowSecurity.ByIdFindsOnlyOwn` | src/resumes/resumes.service.ts:138-150 | a lookup by id alone finds the user's own row or, for another's as for none, nothing |
| `Tenancy.StepKeepsInv` | drizzle/0006_rls_direct_user_id_policies.sql:13-27 | every step keeps each row, overlay and result within its user, and idle connections without one |
| `Tenancy.StepTouchesOnlyOwn` | src/db/user-context.ts:20-39 | a step changes committed rows, and shows results, of its own user only |
| `Tenancy.ExecuteIsLocal` | drizzle/0003_rls_null_guard.sql:15-73 | a statement's effect depends only on its user's part of the database |
| `Tenancy.VisibleStep` | src/db/user-context.ts:20-39 | a step of one user is possible, and comes to the same, without another user |
| `Tenancy.NonInterference` | src/db/user-context.ts:20-39 | strike all steps of one user out of any schedule and every other user's rows and results are the same |
| `Tenancy.RunsStayHome` | src/resumes/resumes.service.ts:138-216 | every result ever shown to a user holds the user's own rows, and in every reached state owners agree |
| `UserContext.Pool.WithUserContext` | src/db/user-context.ts:20-39 | a result is returned exactly when the transaction committed, once and last, and the connection goes back without a user; with no other transaction of the user about, the user's rows change as if the statements ran on them alone, and a statement fails only for a fault, a used id or a row that does not fit |
| `UserContext.Pool.RunCallback` | src/db/user-context.ts:30 | the callback sees one answer per statement it asked for, on its own connection |
| `Durability.CommittedRowStays` | src/llm/llm.service.ts:211-218 | a committed row stays as it is in every run in which no transaction that wrote it commits |
| `Durability.RollbackTakesNothingBack` | src/llm/llm.service.ts:211-218 | whatever another transaction, of the same user or not, had read, changed or deleted, if it throws, fails to commit or is rolled back every row committed meanwhile is there |
| `SingleInsert.InsertRow` | src/llm/llm.service.ts:225-240 | the row is committed under a new id or nothing is; with no other transaction of the user about it is all that changes of the user's rows, and it is refused only if the database fails, something it refers to is missing or another has used its id |
| `ReadById.Read` | src/resumes/resumes.service.ts:138-150 | a row read by its id alone is found only by its owner, whatever goes on beside, and with no other transaction of the user about exactly by its owner |
| `Transactions.OwnPartSuffices` | src/db/user-context.ts:28-30 | a scoped statement has the effect it would have if its user's rows were all there is |
| `BlobStorage.KeyForms` | src/storage/blob-storage.service.ts:46-49 | for every extension: capitals make no difference, nor does a leading dot before an extension without one, and the key holds a dot exactly if the extension is neither empty nor a lone dot |
| `BlobStorage.KeySpelled` | src/storage/blob-storage.service.ts:46-49 | spelled out: user, slash, id, and before an extension a dot |
| `BlobStorage.KeysAreInjective` | src/storage/blob-storage.service.ts:46-49 | keys are equal if and only if user, id and normalised extension are |
| `BlobStorage.PrefixIsOwn` | src/storage/blob-storage.service.ts:46-49 | a key lies under the prefix of its own user and of no other |
| `BlobStorage.KeyIsNotPending` | src/resumes/resumes.service.ts:65-68 | no key is the placeholder path |
| `BlobStorage.ClearingErasesExactlyOneUser` | src/storage/blob-storage.service.ts:75-84 | clearing a user's prefix takes exactly that user's blobs |
| `BlobStorage.BlobStore.DeleteByPrefix` | src/storage/blob-storage.service.ts:75-84 | completed, exactly what is under the prefix is gone and counted; cut short after n deletions, exactly n of those are, or one more if the request that failed had arrived |
| `Uploads.StepKeepsInv` | src/resumes/resumes.service.ts:60-88 | every step of every upload and erasure keeps rows, files, deactivations and latest uploads consistent |
| `UploadProperties.NoRowWithoutItsFile` | src/resumes/resumes.service.ts:38-44 | in every reached state a row's path is its own key, never the placeholder, and its file is there unless its owner's erasure has begun |
| `UploadProperties.FailedUploadLeavesAtMostItsBlob` | src/resumes/resumes.service.ts:38-44 | a run with an uncommitted upload differs from the run without it at most in one blob under its user's prefix |
| `UploadProperties.LastUploadIsActive` | src/resumes/resumes.service.ts:82-85 | in every interleaving the row of a user's last committed upload is active while the account exists |
| `UploadProperties.OneActiveIffNoCommitBetween` | src/resumes/resumes.service.ts:82-85 | a commit leaves exactly one active resume if and only if no upload of the same user committed since this one's deactivation |
| `UploadProperties.OneActiveIffNoneMissed` | src/resumes/resumes.service.ts:82-85 | the same, said of the rows an upload missed |
| `UploadProperties.ExactlyTheNewestIsActive` | src/resumes/resumes.service.ts:31-36 | when one user's uploads do not overlap, however other users' do, exactly the newest resume of that user is active |
| `UploadProperties.OverlappingUploadsLeaveTwoActive` | src/resumes/resumes.service.ts:60-88 | two overlapping uploads can both end active |
| `UploadProperties.RunsLeaveOthers` | src/resumes/resumes.service.ts:82-85 | in every run in which no upload of a user commits and no erasure of the user's rows happens, the user's resume rows stay as they are |
| `UploadStatements.StepIsItsStatements` | src/resumes/resumes.service.ts:60-88 | each step of an upload or erasure is what its statements do, executed under the row policies on a scoped connection |
| `UploadStatements.UploadsAreScopedTransactions` | src/resumes/resumes.service.ts:60-88 | every run of uploads and erasures is a run of scoped transactions from an empty store that commits exactly the same resume rows and users |
| `Resumes.AcceptsExactly` | src/resumes/resumes.service.ts:50-58 | which files are taken, with which extension, and, of the refused ones, which is told what |
| `Resumes.ResumesService.Upload` | src/resumes/resumes.service.ts:46-89 | a refused file changes nothing; an accepted one is stored if and only if none of the five actions fails, the id is new and the account is there at the insert; a result means the row is committed, active, latest and at its own key; an error means all is as without the upload but for one blob |
| `Resumes.ResumesService.AfterInsert` | src/resumes/resumes.service.ts:74-87 | the steps after the insert, in source order: a result if and only if none of them fails, and otherwise a rollback |
| `Resumes.ResumesService.PutBlob` | src/resumes/resumes.service.ts:74-75 | the file is put under the row's own key in the midst of the transaction; a failed request may have arrived |
| `ResumeContent.ResumeReader.Content` | src/resumes/resumes.service.ts:137-153 | the row is looked up by id alone; another user's resume is answered like none at all, whatever goes on beside, and with no other transaction of the user about the answer is the user's own file exactly if there is one |
| `UploadStatements.UploadedFileComesBack` | src/resumes/resumes.service.ts:137-153 | after every run of uploads and erasures the owner of an uploaded resume gets its file byte for byte unless the owner's erasure has begun, and anyone else, or anyone asking for a resume that is not there, the answer for none |
| `ResumeList.IndexHoldsNewest` | src/resumes/resumes.service.ts:105-120 | the map built in ascending order holds for each resume an extraction none of its own is newer than, and only for resumes with one |
| `ResumeList.ListReportsNewest` | src/resumes/resumes.service.ts:121-132 | the list keeps the resumes and reports the newest extraction of each, `not extracted` exactly if it has none |
| `ResumeList.UnorderedHistoryReportsStale` | src/resumes/resumes.service.ts:113-118 | without the order the oldest extraction would be reported |
| `ResumeExtraction.ResumeExtraction.ExtractResume` | src/resumes/resumes.service.ts:163-216 | what is sent is the template's instructions and, as one data block of the user's own request, the escaped text of the user's own stored file; every error has its own reason and without one the validated data is saved; on every exit, a rolled-back save included, the charge equals logged plus lost plus erased cost, and each usage row the call logged is in the database; those rows, and the extraction on success, are all that changes of the user's rows if no other transaction of the user is about |
| `AccountDeletion.MeController.DeleteAccount` | src/auth/me.controller.ts:71-96 | however it ends: rows go only after all files, nothing without confirmation, a faultless request completes, completed it takes all of the user's files and rows and nothing else, and every exit leaves what a further request starts from |
| `AccountDeletion.MeController.DeleteAccountAgain` | src/auth/me.controller.ts:71-96 | a request aborted anywhere, then any work of other users, then a faultless request: no row and no file of the user is left |
| `AccountDeletion.MeController.DeleteRows` | src/db/user-data.ts:12-14 | all of the user's rows go in one transaction or none does, and other users' rows are as if it had not run |
| `AccountDeletion.DeletionEmptiesPart` | src/db/user-data.ts:12-14 | the one delete statement with its cascade leaves nothing of the user's rows |
| `Admission.ListRoundTrip` | src/auth/admission.ts:27-36 | entries joined by commas, with any blanks around them, are read back as those entries and exactly they are admitted; an unset list admits nobody |
| `Admission.BlankListAdmitsNobody` | src/auth/admission.ts:15-19 | a setting of blanks and commas admits nobody |
| `Admission.EntriesAreUnambiguous` | src/auth/admission.ts:34-36 | an entry names one subject of one provider |
| `Admission.AdmissibleIff` | src/auth/admission.ts:27-36 | a subject can be admitted by some list if and only if its id has no comma and does not end in a blank |
| `SignIn.StepKeepsInv` | drizzle/0008_auth_bootstrap_function.sql:37-50 | every step of every sign-in and deletion keeps users, identities and returned ids consistent |
| `SignIn.OneUserPerSubject` | src/db/schema.ts:84-91 | in every reached state a subject has at most one identity, no user is without one, and subjects never share a user |
| `SignIn.EveryIdentityWasAdmitted` | src/auth/identity.service.ts:38-58 | every identity was on the allow-list its sign-in checked |
| `SignIn.SameSubjectSameUser` | drizzle/0008_auth_bootstrap_function.sql:37-50 | successful sign-ins of one subject return the same user until that account is deleted, and of different subjects different users |
| `IdentityService.IdentityService.FindOrCreateUser` | src/auth/identity.service.ts:38-58 | refused exactly if not on the list, and then nothing is created; a subject found gets its own user and nothing is created; one not found gets the new user, with its subject and email, if and only if the creation goes through, and a conflict if and only if another sign-in of the subject has won |
| `IdentityService.IdentityService.AuthFindOrCreateUser` | drizzle/0008_auth_bootstrap_function.sql:36-51 | select, early return with the user found, then the two inserts, as a run of the machine; which of these happens is decided by what is there when the call looks |
| `IdentityService.IdentityService.Create` | drizzle/0008_auth_bootstrap_function.sql:45-50 | the two inserts commit together or not at all; one that meets another call's key gives up with an error |

## Left out

- The provider, template texts, zod schemas, `extractJsonObject`, `JSON.stringify` and the PDF and DOCX readers are parameters; a schema is a function from text to data or issues.
- Money is exact: floating-point rounding and the `numeric` column are not modelled, and a month is a counter that only advances.
- `MeteringProperties.OvershootIsBounded`: assumes of the provider what `src/llm/pricing.ts:24-26` assumes, that a reply has no more input tokens than estimated and no more output tokens than allowed.
- `BlobStorage.KeysAreInjective`: for slash-free user ids and dot-free resume ids (both are UUIDs); `toLowerCase` is modelled on ASCII letters.
- `StripContacts.StripValue`: for objects with ordinary keys, so not for an own `__proto__` key or integer-like keys that JavaScript moves to the front.
- Characters are Unicode scalar values, not UTF-16 units.
- `Tenancy.NonInterference`: locks are not modelled, so statements may run on states a lock would have made them wait for; that adds runs. Updates set columns that are no key, new rows name parents the same user has seen, and transaction timing is not observed.
- `UserContext.Pool.WithUserContext`: a failing ROLLBACK, which would mean a broken connection, is not modelled, and a refused COMMIT is taken to have had no effect.
- `UploadProperties.NoRowWithoutItsFile`: says nothing of a user's files once the user's erasure has begun; an upload that overlaps its user's erasure can leave a blob behind.
- `AccountDeletion.MeController.DeleteAccount`: with no other work of the same user about, on rows whose references are intact among the user's own; the listing of blobs is one snapshot, without paging.
- `ResumeExtraction.ResumeExtraction.ExtractResume`: the mapping of errors to HTTP answers, the prompt version stored with an extraction, and the type of task, prompt version and provider of a usage row are left out.
- `LlmService.LlmService.Run`: its guards read the log of the metering machine, and only the call's own rows are tied to those in its pool; that the log is the usage rows of the database, and the guards' sums those of scoped queries, is proved of the machine in `MeteringStatements`.
- `LlmService.LlmService.Guards`: as for `Run`, the sum is that of the machine's log.
- `MeteringStatements.StoredSpendIsBounded`: each transaction is played as a whole, as each step of the machine is; the sums are taken over the rows a query returns, not by the database.
- `UploadStatements.UploadsAreScopedTransactions`: says this of uploads and erasures; the sign-in functions run outside the policies and are modelled on their own in `SignIn`.
- The blob container's `exists` and its content types.
- Usage rows carry the number of the call that wrote them, identities the list that admitted them, and uploads the rows they missed; these exist in the model only.
- `saveProfile`, parameter validation, the market and time validators, error classification, secret and template caches, OAuth, sessions, rate limiting, controllers and modules: easy members, or configuration of libraries that are not part of this model.
