# A verified model of LexNebulis services

LexNebulis is a practice-management system for law firms. This project models the services whose
behaviour is more than storing and fetching rows, and proves what they are relied on for. Tables are
finite maps or sequences inside a class; one request is one atomic step that commits on a normal
return and restores every table when it raises, as the database session does. Each service method is
proved equal to a step of a specification, and the lemmas are about all runs of those steps.

Verify with `dafny verify dfyconfig.toml`.

| file | what it models |
|---|---|
| `Database.dfy` | keys, optional columns, commit or rollback |
| `Graph.dfy`, `Tasks.dfy` | reachability and cycles; task dependencies, the breadth-first cycle check, workflow templates |
| `Text.dfy` | joining, splitting, decimal digits and printed money |
| `AuditChain.dfy` | the hash-chained audit log: payload, append, verifier, tamper evidence |
| `Esign.dfy` | signature requests, signers and the audit trail |
| `RateLimit.dfy` | the sliding-window limiter |
| `BusinessDays.dfy`, `Deadlines.dfy` | deadline dates; regeneration of deadlines and their calendar events |
| `Billing.dfy`, `Payments.dfy` | invoice totals; payment links, webhooks and payments |
| `Iif.dfy`, `Ledes.dfy` | the two text exports and their readers |
| `Calendar.dfy`, `Receivables.dfy`, `Emails.dfy`, `Conflicts.dfy` | double booking, aged receivables, matter suggestions, conflict search |

## What the proofs brought out

- Payments are counted twice when an invoice is compared with its total: the new row is flushed
  before the SUM that is then increased by the same amount (`backend/app/billing/service.py:196-200`,
  `backend/app/payments/service.py:382-386`; autoflush is the session's default,
  `backend/app/database.py:16`). A payment therefore marks an invoice as paid exactly when the earlier
  payments plus twice its amount reach the total; half of the total is enough, less never is.
- Applying a workflow template makes no cycle check, so one template can close a cycle: a single step
  that depends on its own sort order does. A template keeps every run over it acyclic exactly when its
  own steps form no cycle, or when two of its steps ask for the same dependency and the unique
  constraint refuses every application; both can be read off the template before it is stored.
- Nothing keeps a time entry from being billed twice (`backend/app/billing/service.py:163-179`). Entries
  stay on one invoice each exactly when every invoice is made over entries that carry no stamp yet,
  which a caller can check beforehand; over a run this is so whenever no entry is requested twice.
- The rules of a trigger are selected by a join without DISTINCT, and no constraint forbids linking a
  rule set to a matter twice. A rule is generated once only because `apply_rule_set_to_matter` never
  adds a second link row.
- The calendar check in front of an update ignores the status and takes a null for an absent field. An
  update is refused without need exactly when the event it is checked as clashes and the stored one
  would be off the schedule or without assignee or end: an event that was called off cannot be marked
  as done once its slot is taken.
- Deleting a deadline rule takes its generated rows along and leaves exactly their events in the
  calendar, where no regeneration reaches them.
- The `expired` status of a signature request is never committed: both branches that set it raise.
  Without that rollback they would overwrite completed requests. For payment links a direct
  completion rolls the expiry back too, but the webhook handler catches the exception and keeps it.
- The matter-party branch of the conflict search never adds a row while foreign keys hold.
- The audit hash does not cover the user's e-mail, IP address, user agent, outcome or severity. The log
  of a run verifies exactly when its timestamps never step back; no later append repairs a step back.
- `compute_deadline_date` rolls forward for negative offsets too, as its documentation says, although
  Rule 6(a)(5) of the Federal Rules of Civil Procedure counts backward there; the model follows the code.

## Assumptions

SHA-256 and ISO formatting are function parameters. Digests are non-empty and, like ISO texts, free of
`|`; tamper evidence assumes no collision among the payloads of the two logs compared. Keys drawn with
uuid4, clock readings, foreign calls (certificate upload, document download) and text functions
(strip, lower, soundex, metaphone, strftime) are parameters; a taken key raises. Requests are serial.

## Model

| member | source | states |
|---|---|---|
| `Tasks.TaskService.HasCircularDependency` | backend/app/tasks/service.py:120-142 | the breadth-first search answers true exactly when task_id is reachable from depends_on_id (or equal to it), over any finite edge set, cyclic or not; it terminates |
| `Tasks.AddRefusesExactlyCycles` | backend/app/tasks/service.py:154-159 | on an acyclic graph with both tasks present, the circular-reference refusal is given exactly for edges that would close a cycle |
| `Tasks.AddRefusals` | backend/app/tasks/service.py:145-178 | which of the five outcomes an addition meets, told on the tables: both tasks exist, to_id does not reach from_id, no row holds the pair, the key is new; a refusal changes nothing |
| `Tasks.AddEffect` | backend/app/tasks/service.py:170-178 | a committed addition stores exactly that row, so the edge set grows by (from_id, to_id) and tasks and templates stay |
| `Tasks.RemoveOutcome` | backend/app/tasks/service.py:186-191 | exactly the row with this id goes, and nothing without one |
| `Tasks.DeleteOutcome` | backend/app/tasks/service.py:112-114 | exactly the task goes, with the rows that mention it on either side |
| `Tasks.CreateOutcome` | backend/app/tasks/service.py:27-53 | a task is stored under a new key, and nothing else changes |
| `Tasks.CreateTemplateOutcome` | backend/app/tasks/service.py:241-267 | a template is stored under a new key, and nothing else changes |
| `Tasks.TaskService.AddDependency` | backend/app/tasks/service.py:145-178 | the outcome and the new tables are those of the specification: 404, 404, 400 circular, 409 duplicate, or one new row |
| `Tasks.TaskService.RemoveDependency` | backend/app/tasks/service.py:186-191 | the row disappears, or 404 |
| `Tasks.TaskService.DeleteTask` | backend/app/tasks/service.py:112-114 | the task goes and every dependency row that mentions it on either side |
| `Tasks.TaskService.CreateTask` | backend/app/tasks/service.py:27-53 | one new task row |
| `Tasks.TaskService.CreateTemplate` | backend/app/tasks/service.py:241-267 | one new template with its steps |
| `Tasks.TaskService.ApplyWorkflowTemplate` | backend/app/tasks/service.py:289-340 | tasks in sort order, then one dependency row for each step whose depends_on_step_order names a step; everything rolls back on a constraint violation |
| `Tasks.ApplyCommitsIff` | backend/app/tasks/service.py:289-340 | with new keys an application commits exactly when the template exists and no two of its steps ask for the same dependency |
| `Tasks.ApplyEffect` | backend/app/tasks/service.py:305-323 | a committed application adds one task for each step, in sort order, with its title, matter, due date and sort order, and changes no other task or template |
| `Tasks.ApplyLinks` | backend/app/tasks/service.py:300-335 | afterwards there is an edge exactly where there was one, or from the task of a step to the task of the sort order it names, the last of equal orders counting for both |
| `Tasks.SortedIsStable` | backend/app/tasks/service.py:305 | the sort ascends and keeps, for every sort order, the sequence of its steps |
| `Tasks.StepToTaskCovers` | backend/app/tasks/service.py:300-323 | the step-to-task map has exactly the sort orders of the template as keys, so the second loop never misses |
| `Tasks.ApplyAcyclicIff` | backend/app/tasks/service.py:326-332 | a committed template application keeps an acyclic board acyclic exactly when the template's own step graph has no cycle |
| `Tasks.LookingBackIsAcyclic` | backend/app/tasks/service.py:326-332 | templates whose steps depend only on lower sort orders have no cycle |
| `Tasks.RepeatingIsRefused` | backend/app/tasks/service.py:317-340 | a template two of whose steps ask for the same dependency is never applied: the unique constraint rolls it back |
| `Tasks.StepValid` | backend/app/tasks/models.py:64-71 | every request keeps the foreign keys and the uniqueness of (task_id, depends_on_id) |
| `Tasks.StepAcyclicIff` | backend/app/tasks/service.py:112-340 | one request keeps the graph acyclic exactly when it does not commit a template with a cycle |
| `Tasks.RunAcyclicIff` | backend/app/tasks/service.py:112-340 | over every run, all states are acyclic exactly when no request commits a template with a cycle |
| `Tasks.RunIsSchedulable` | backend/app/tasks/service.py:112-340 | after every such run from an empty board a topological order of the tasks exists |
| `Tasks.TemplateSafeIff` | backend/app/tasks/service.py:289-340 | told from the template alone: every run over it keeps the graph acyclic exactly when its steps form no cycle or repeat a link |
| `Tasks.SelfStepIsHarmful` | backend/app/tasks/service.py:326-332 | the failing input: a one-step template that names itself, created and applied, closes a cycle |
| `Tasks.HarmlessRunIsSchedulable` | backend/app/tasks/service.py:112-340 | every run whose created templates are harmless stays acyclic throughout and ends with a topological order |
| `Tasks.LookingBackRunIsSchedulable` | backend/app/tasks/service.py:112-340 | in particular every run whose templates depend only on lower sort orders |
| `Tasks.AcyclicIsSchedulable` | backend/app/tasks/service.py:120-142 | a board has a topological order exactly when its graph is acyclic |
| `Graph.AcyclicAfterAdding` | backend/app/tasks/service.py:120-142 | in an acyclic graph, adding (u, v) closes a cycle exactly when v reaches u |
| `Graph.AcyclicIffOrdered` | backend/app/tasks/service.py:120-142 | a finite graph is acyclic exactly when a topological order exists |
| `AuditChain.PayloadInjective` | backend/app/common/audit.py:141-145 | with no separator outside changes_json, the payload determines all eight fields (None and the empty text coincide) |
| `AuditChain.PayloadUnambiguousIff` | backend/app/common/audit.py:141-145 | among all eight-field inputs a payload has a single reading exactly when no field holds the separator |
| `AuditChain.IntegrityHashIs` | backend/app/common/audit.py:130-146 | the digest is taken over the eight columns, spelled out one by one with separators between them |
| `AuditChain.SameHashIffSameColumns` | backend/app/common/audit.py:130-146 | without collisions and separators outside changes_json, two entries have the same hash exactly when id, instant, user, action, entity type, entity id, changes_json and previous hash agree |
| `AuditChain.AppendOutcome` | backend/app/auth/service.py:460-519 | an append adds exactly one row, with the entry's columns, the digest of them and the hash of the newest row, when the request commits under a new id, and changes nothing otherwise |
| `AuditChain.AuditLogTable.CreateAuditLog` | backend/app/auth/service.py:460-519 | the new row links to the row with the newest timestamp and carries its own hash; a request that raises leaves the table as it was |
| `AuditChain.AuditLogTable.VerifyAuditChain` | backend/app/admin/router.py:97-162 | the report is empty, or says valid exactly when the first `limit` rows are linked and every hash recomputes, with the exact error list |
| `AuditChain.NoErrorsIffChained` | backend/app/admin/router.py:117-156 | the error list is empty exactly when the list is linked and every stored hash recomputes |
| `AuditChain.ErrorsAre` | backend/app/admin/router.py:117-156 | an error is reported exactly when it names an entry and truly states its expected and actual link or hash |
| `AuditChain.ErrorsInOrder` | backend/app/admin/router.py:117-156 | errors come entry by entry, each of the two kinds at most once, the link first |
| `AuditChain.StepChained` | backend/app/auth/service.py:475-515 | an append whose timestamp is not older keeps the table ordered and chained; a rolled-back one too |
| `AuditChain.RunVerifies` | backend/app/admin/router.py:110-162 | every log built by committed and rolled-back appends with timestamps that never step back verifies without errors for every limit |
| `AuditChain.SamePast` | backend/app/admin/router.py:117-156 | entries with equal hashes in two chains stand at the same position and have equal predecessors all the way back |
| `AuditChain.TamperEvidence` | backend/app/admin/router.py:116-162 | two logs that both verify and end in the same hash have equal length and agree, entry by entry, in id, instant, user, action, entity type, entity id, changes_json and previous hash |
| `AuditChain.TamperingReported` | backend/app/admin/router.py:116-162 | any edit of one of these columns, insertion, deletion or swap that keeps the last hash is reported |
| `AuditChain.PassesIffSameEntries` | backend/app/admin/router.py:116-162 | a log ending in the hash of a verifying one passes exactly when both agree in length, in these columns and in both stored hashes everywhere |
| `AuditChain.UnhashedEditsPass` | backend/app/common/audit.py:130-146 | changes to e-mail, address, agent, outcome and severity are never reported: the hash does not cover them |
| `AuditChain.AppendKeepsChainIff` | backend/app/auth/service.py:475-499 | if the clock may step back, an append leaves a verifiable log exactly when no stored timestamp is newer |
| `AuditChain.RunVerifiesIff` | backend/app/admin/router.py:110-162 | the log of any run verifies exactly when its timestamps never step back; a step back is never repaired |
| `AuditChain.StepBackIsReported` | backend/app/auth/service.py:475-499 | the failing input: any two entries, the second with the earlier reading |
| `Esign.SignatureService.CreateSignatureRequest` | backend/app/esign/service.py:33-72 | draft request, pending signers, one created entry |
| `Esign.CreateOutcome` | backend/app/esign/service.py:33-72 | a request is created exactly with at least one signer and new, distinct tokens: a draft, waiting signers, one entry; nothing else changes |
| `Esign.SignatureService.SendSignatureRequest` | backend/app/esign/service.py:75-102 | only drafts become pending, with one sent entry for each signer |
| `Esign.SendOutcome` | backend/app/esign/service.py:75-102 | exactly drafts are sent; the request is pending, signers stay, and each has a sent entry in order |
| `Esign.SignatureService.GetSigningPageInfo` | backend/app/esign/service.py:105-160 | expiry, status check, first view; the state at an exception is the uncommitted one |
| `Esign.ViewOutcome` | backend/app/esign/service.py:105-160 | the page opens exactly for an open request that has not expired and whose document is found; then a waiting signer has viewed, with one entry, and nothing else changes |
| `Esign.SignatureService.SignDocument` | backend/app/esign/service.py:163-234 | signature, completion when all others have signed, certificate; the state at an exception is the uncommitted one |
| `Esign.SignCommitsIff` | backend/app/esign/service.py:163-234 | a signature is taken exactly when token and request exist, the expiry is absent or not before now, the request is pending or partially signed, the signer waits or has viewed, and the certificate is stored if it is the last one |
| `Esign.SignEffect` | backend/app/esign/service.py:187-234 | the signer is signed at now; the request is completed at now, with its certificate, exactly when all others had signed, and partially signed otherwise; one signed entry, and one completed entry then |
| `Esign.SignatureService.DeclineDocument` | backend/app/esign/service.py:237-287 | the signer declines and the request is cancelled |
| `Esign.DeclineOutcome` | backend/app/esign/service.py:237-287 | exactly waiting or viewed signers of pending or partially signed requests decline, expired or not: signer and reason, the cancelled request and two entries |
| `Esign.SignatureService.CancelSignatureRequest` | backend/app/esign/service.py:290-314 | anything but completed and cancelled requests can be cancelled |
| `Esign.CancelOutcome` | backend/app/esign/service.py:290-314 | exactly requests that are neither completed nor cancelled are cancelled; signers stay and one entry is added |
| `Esign.SignatureService.Handle` | backend/app/database.py:23-30 | one request commits on normal return and restores every table when the service function raises; the invariant survives |
| `Esign.StepKeeps` | backend/app/esign/service.py:33-314 | every request, committed or rolled back, keeps status coupling, the event log and the foreign keys |
| `Esign.ReachableStates` | backend/app/esign/service.py:62-314 | in every reachable state: status coupling; a fold over the trail rebuilds request and signer statuses; one signed entry exactly for signed signers; one completed entry exactly for completed requests; no expired entry |
| `Esign.StepAdvances` | backend/app/esign/service.py:75-314 | a request leaves a signature request unchanged or strictly lowers its measure |
| `Esign.ChangesAreBounded` | backend/app/esign/service.py:75-314 | in any run a signature request changes at most twice plus twice for each signer |
| `Esign.FinalForever` | backend/app/esign/service.py:133-134 | completed and cancelled requests and their signers never change again |
| `Esign.RollbackIsEssential` | backend/app/esign/service.py:121-131 | the expiry branches would turn a completed request into an expired one; the rollback restores it |
| `RateLimit.RateLimiter.CleanupWindow` | backend/app/common/rate_limit.py:19-24 | exactly the instants after the cutoff stay; an emptied key is deleted |
| `RateLimit.RateLimiter.CheckRateLimit` | backend/app/common/rate_limit.py:27-46 | prune, refuse when the limit is reached, else record the second clock reading |
| `RateLimit.RateLimiter.ResetRateLimit` | backend/app/common/rate_limit.py:61-64 | the key is forgotten and no other |
| `RateLimit.DecidesAsFullHistory` | backend/app/common/rate_limit.py:19-46 | at every point of every run the pruned list decides as the complete accepted history since the last reset would |
| `RateLimit.AcceptedIsFullRun` | backend/app/common/rate_limit.py:27-64 | that history is what the checks which answered yes recorded since the last reset of the key |
| `RateLimit.RunWithinLimit` | backend/app/common/rate_limit.py:39-46 | of what the checks of a key that answered yes recorded since its last reset, no half-open interval of window length, of either kind and at any position, holds more than the limit |
| `RateLimit.RefusedIffWindowFull` | backend/app/common/rate_limit.py:40-45 | a check is refused exactly when the limit's worth of such instants lies in its own window |
| `RateLimit.KeysAreIndependent` | backend/app/common/rate_limit.py:15-46 | the list of a key depends only on the calls for that key |
| `BusinessDays.ComputeDeadlineDate` | backend/app/deadlines/service.py:117-144 | the loop and the weekend roll compute the closed form by week and remainder, for offsets of either sign; it terminates |
| `BusinessDays.AddCountsWeekdays` | backend/app/deadlines/service.py:127-136 | the result is the weekday with exactly n (or -n) weekdays between it and the start, on the side of the sign |
| `BusinessDays.OffsetsAdd` | backend/app/deadlines/service.py:127-136 | on weekdays, applying a then b equals a + b for any signs |
| `BusinessDays.OffsetsCancel` | backend/app/deadlines/service.py:127-136 | on weekdays, n then -n is the identity |
| `BusinessDays.RollIsFirstWeekday` | backend/app/deadlines/service.py:138-142 | the roll goes to the first weekday that is not earlier |
| `BusinessDays.DeadlineIsWeekday` | backend/app/deadlines/service.py:138-144 | a deadline never falls on a weekend |
| `BusinessDays.DeadlineMonotone` | backend/app/deadlines/service.py:117-144 | deadlines are monotone in trigger date and offset, for both offset types |
| `BusinessDays.DeadlineIff` | backend/app/deadlines/service.py:117-144 | told by weekdays alone, a deadline is the one date that is the first weekday from trigger date plus offset on (calendar days, and offset 0), or the weekday with exactly n weekdays after the trigger date up to it (-n before it) |
| `BusinessDays.WeekendIs` | backend/app/deadlines/service.py:130-142 | which days are weekends: the two after Friday, 1 March 2024, and every seventh day from them |
| `Deadlines.DeadlineService.ApplyRuleSetToMatter` | backend/app/deadlines/service.py:224-259 | the link exists once afterwards, whether or not it did before |
| `Deadlines.DeadlineService.CreateRuleSet` | backend/app/deadlines/service.py:152-161 | one new rule set |
| `Deadlines.DeadlineService.CreateDeadlineRule` | backend/app/deadlines/service.py:193-198 | one new rule of an existing rule set |
| `Deadlines.DeadlineService.UpdateDeadlineRule` | backend/app/deadlines/service.py:206-211 | the rule row changes and no deadline does |
| `Deadlines.DeadlineService.DeleteDeadlineRule` | backend/app/deadlines/service.py:214-216 | the rule and, by cascade, its generated rows go; their events stay |
| `Deadlines.RuleDeletedOutcome` | backend/app/deadlines/service.py:214-216 | exactly the rule and its rows go; no event and no trigger does |
| `Deadlines.DeadlineService.GetRulesForTrigger` | backend/app/deadlines/service.py:267-284 | one row for each pair of a link row of the matter and an active rule of that trigger name in the linked active rule set, by sort order; a rule comes once for each link row that leads to it |
| `Deadlines.RowsDistinctIff` | backend/app/deadlines/service.py:267-284 | the query returns each rule once exactly when no two matching link rows lead to the same rule |
| `Deadlines.UniqueLinksDistinctRows` | backend/app/deadlines/service.py:231-259 | so it does while no rule set is linked twice to a matter, which apply_rule_set_to_matter maintains |
| `Deadlines.DeadlineService.DeleteGeneratedDeadlines` | backend/app/deadlines/service.py:298-311 | the trigger's rows and their events go, and nothing else |
| `Deadlines.DeadlineService.GenerateDeadlines` | backend/app/deadlines/service.py:314-366 | with unique links, beyond what was there: exactly one row for each matching rule, with a fresh all-day event on the computed date carrying the rule's title, description and event type |
| `Deadlines.DeadlineService.SetTriggerEvent` | backend/app/deadlines/service.py:369-412 | one trigger for the matter and name, regenerated; tables restored if the request raises; it succeeds whenever the drawn keys are new |
| `Deadlines.DeadlineService.UpdateTriggerEvent` | backend/app/deadlines/service.py:415-436 | a given date or note replaces, a missing one stays, and the deadlines are regenerated |
| `Deadlines.DeadlineService.DeleteTriggerEvent` | backend/app/deadlines/service.py:451-458 | the trigger, its rows and their events go |
| `Deadlines.TriggerDeletedOutcome` | backend/app/deadlines/service.py:451-458 | exactly the trigger, its rows and the events of these go; everything else stays as it was |
| `Deadlines.DeadlineService.DeleteCalendarEvent` | backend/app/calendar/service.py:97-99 | deleting an event takes its deadline row along and keeps the tables consistent |
| `Deadlines.EventDeletedOutcome` | backend/app/calendar/service.py:97-99 | exactly the event and its row go |
| `Deadlines.RegeneratedContents` | backend/app/deadlines/service.py:314-436 | the trigger's deadlines are exactly one for each active rule of its name in an active, linked rule set, on the date told by weekdays alone, with the event announcing it |
| `Deadlines.MatchesIffApplies` | backend/app/deadlines/service.py:267-284 | the joined query finds exactly the active rules of this trigger name whose rule set is active and linked to the matter |
| `Deadlines.RegeneratedRow` | backend/app/deadlines/service.py:314-366 | every row of the trigger is one of such a rule, falls on its date as told by weekdays alone, and resolves to an all-day event of the matter on that date with the texts and the type of the rule |
| `Deadlines.RegeneratedRules` | backend/app/deadlines/service.py:314-366 | and every such rule has a row |
| `Deadlines.OneDeadlinePerRule` | backend/app/deadlines/service.py:336-366 | no rule has two deadlines for the trigger, and no two share an event |
| `Deadlines.RegeneratedElsewhere` | backend/app/deadlines/service.py:298-436 | other triggers, their rows and other events are untouched |
| `Deadlines.RegeneratedNothingElse` | backend/app/deadlines/service.py:298-366 | the trigger's earlier events are gone: an event afterwards is an earlier one that was not the trigger's or belongs to one of its new rows, never both |
| `Deadlines.RepeatingChangesOnlyIds` | backend/app/deadlines/service.py:369-412 | setting the same trigger again changes nothing but keys |
| `Deadlines.RegenerationConsistent` | backend/app/deadlines/service.py:369-436 | rows resolve, events are not shared, and there is one trigger for each matter and name |
| `Deadlines.StepSound` | backend/app/deadlines/service.py:152-458 | every call on rule sets, rules, links, triggers and events keeps the tables consistent, deadlines in the matter of their trigger, and one deadline for each trigger and rule |
| `Deadlines.RunSound` | backend/app/deadlines/service.py:152-458 | so do all runs from the empty tables |
| `Deadlines.UnaddressedSame` | backend/app/deadlines/service.py:193-458 | a call that is not about a trigger, its events or a deleted rule of its deadlines leaves the trigger and its deadlines alone; rule edits do not regenerate |
| `Deadlines.ShowsLastRegeneration` | backend/app/deadlines/service.py:369-436 | at any point of a run a trigger shows exactly the deadlines (rule, date by weekdays, event) due at its last regeneration, unless a later call addressed it |
| `Deadlines.RuleDeletionOrphans` | backend/app/deadlines/service.py:214-216 | deleting a rule leaves exactly the events of its deadlines in the calendar without a row that leads to them |
| `Billing.BillingService.CreateInvoice` | backend/app/billing/service.py:145-186 | the next number, one line item for each requested entry that exists, those entries stamped and no others, subtotal the sum of the lines and total the subtotal (tax is zero) |
| `Billing.CreatedLines` | backend/app/billing/service.py:161-181 | line k names entry k with its description, minutes and rate, and its amount is the whole number of cents in minutes times the hourly rate |
| `Billing.CreatedStamps` | backend/app/billing/service.py:163-179 | exactly the requested entries carry the new stamp; every other entry is as it was |
| `Billing.RunConsecutive` | backend/app/billing/service.py:156-158 | over every run the invoice numbers are 1001, 1002 and so on without a gap |
| `Billing.BillingService.CreateTimeEntry` | backend/app/billing/service.py:55-60 | one new entry without a stamp |
| `Billing.BillingService.UpdateTimeEntry` | backend/app/billing/service.py:63-68 | the fields of an entry change and its stamp does not |
| `Billing.CreatedKeeps` | backend/app/billing/service.py:156-182 | numbers stay distinct, stored totals stay those of the line items, and an entry's stamp is the latest invoice that bills it |
| `Billing.BilledOnceIff` | backend/app/billing/service.py:163-179 | a new invoice keeps every entry on at most one invoice exactly when all requested entries that exist are unstamped |
| `Billing.RunBilledOnceIff` | backend/app/billing/service.py:55-182 | over every run of new and edited entries and new invoices, no entry is on two invoices exactly when no invoice was made over a stamped entry |
| `Billing.DisjointRunBillsOnce` | backend/app/billing/service.py:55-182 | runs that request no entry for two invoices bill every entry at most once |
| `Billing.BilledTwice` | backend/app/billing/service.py:163-179 | the failing input: from a legal state with every entry billed once, a second invoice over one of them |
| `Billing.SumOfPermutation` | backend/app/billing/service.py:161-182 | the sum of the line amounts does not depend on the order the query returns them in |
| `Payments.PaymentService.CreatePaymentLink` | backend/app/payments/service.py:129-181 | an active link over the invoice total, with processor and surcharge from the settings and the expiry from the requested days; refused for missing, paid and void invoices |
| `Payments.NewLinkOutcome` | backend/app/payments/service.py:129-181 | a link is made exactly for a stored invoice that is neither paid nor void, under a new token: active, over the total, with the whole cents of the surcharge, the processor of active settings and the expiry counted in days |
| `Payments.SurchargeWithinAmount` | backend/app/payments/service.py:154-157 | for rates between 0 and 1 a link's surcharge is between zero and its amount |
| `Payments.PaymentService.CancelPaymentLink` | backend/app/payments/service.py:267-274 | only active links are cancelled |
| `Payments.CancelLinkOutcome` | backend/app/payments/service.py:267-274 | exactly an active link is cancelled, and nothing else changes |
| `Payments.PaymentService.GetPublicPaymentInfo` | backend/app/payments/service.py:280-294 | viewing expires an overdue active link and nothing else |
| `Payments.ViewPageOutcome` | backend/app/payments/service.py:280-294 | the page exists for every link; exactly an active link whose expiry is before now expires |
| `Payments.PaymentService.MarkPaymentLinkPaid` | backend/app/payments/service.py:326-391 | an active unexpired link becomes paid, with one payment row over the link's amount; the state at an exception is the uncommitted one |
| `Payments.CompleteOutcome` | backend/app/payments/service.py:326-391 | a completion commits exactly for an active link whose expiry is absent or not before now; the link is then paid at now with the reported amount (or amount plus surcharge), one payment row carries its invoice, amount, method and token, and the invoice is marked exactly when the earlier payments plus twice the amount reach its total |
| `Payments.PaymentService.ProcessPaymentWebhook` | backend/app/payments/service.py:441-467 | the single active link of the session is paid; none is fine, several raise |
| `Payments.PaymentService.ProcessWebhook` | backend/app/payments/service.py:397-438 | known event ids raise; otherwise the event is recorded, with the failure of its processing if any |
| `Payments.WebhookCommitsIff` | backend/app/payments/service.py:404-438 | a delivery is accepted exactly when its processor and event id were not recorded before, and adds one row to the log |
| `Payments.WebhookPays` | backend/app/payments/service.py:413-467 | for each of the four payment event types, a session with exactly one active link pays that link as a completion does if it has not expired, and expires it otherwise, logged as failed |
| `Payments.WebhookIdles` | backend/app/payments/service.py:413-467 | every other new delivery changes the log alone; it is logged as failed exactly for a payment event whose session has several active links |
| `Payments.PaymentService.CreatePayment` | backend/app/billing/service.py:189-205 | one payment row and the comparison that may mark the invoice |
| `Payments.RecordPaymentOutcome` | backend/app/billing/service.py:189-205 | exactly a payment of at least one cent on a stored invoice is recorded, as one row |
| `Payments.PaymentService.AddPayment` | backend/app/payments/service.py:367-387 | the row is added, then SUM (which already includes it) plus its amount is compared with the total |
| `Payments.PaymentService.Handle` | backend/app/database.py:23-30 | commit or rollback around the service function; the invariant survives |
| `Payments.ReachableStates` | backend/app/payments/service.py:350-387 | in every reachable state a paid link has exactly one payment row and any other none, that row has the link's invoice and amount, covered invoices are paid, and paid invoices have received at least half |
| `Payments.StepFreezes` | backend/app/payments/service.py:267-387 | paid, cancelled and expired links and paid invoices are left alone by every call |
| `Payments.RunFreezes` | backend/app/payments/service.py:267-467 | the same over every run |
| `Payments.RedeliveryIsIdle` | backend/app/payments/service.py:406-411 | once an event id was delivered, delivering it again at any later time changes nothing |
| `Payments.ExpiryPersistsOnlyThroughWebhook` | backend/app/payments/service.py:429-434 | the handler's except keeps the expiry that a direct completion rolls back |
| `Payments.MarkedPaidIff` | backend/app/billing/service.py:196-201 | a payment marks an open invoice exactly when the earlier payments plus twice its amount reach the total |
| `Payments.PaidIsCoveredIff` | backend/app/billing/service.py:196-201 | 'paid' and 'covered' agree after a payment exactly unless it falls short by at most its own amount |
| `Payments.HalfPaymentMarksPaid` | backend/app/billing/service.py:196-201 | an input on which the invoice is marked paid by half of its total |
| `Text.MoneyRoundTrip` | backend/app/accounting/service.py:263-265 | printed money parses back to the same cents for every integer |
| `Text.MoneyReads` | backend/app/accounting/service.py:263-265 | printed money is a sign for negative amounts, the units without leading zeros, a point and two decimals, worth exactly these cents |
| `Text.SplitOfJoinIff` | backend/app/ledes/service.py:589-591 | splitting gives joined pieces back exactly when none holds the separator |
| `Text.FieldsOfJoin` | backend/app/common/audit.py:141-145 | joined text has a field for each piece, and no more exactly when no piece holds the separator |
| `Iif.GenerateIifExport` | backend/app/accounting/service.py:422-521 | the file and the recorded count of every export type |
| `Iif.ExportReadsBackIff` | backend/app/accounting/service.py:424-521 | the exported file reads back as exactly its transactions precisely when no text in it holds a tab or a newline |
| `Iif.ExportBalances` | backend/app/accounting/service.py:424-521 | a plain exported file has as many groups as recorded and sums to zero |
| `Iif.ExportGroup` | backend/app/accounting/service.py:442-519 | group i of the exported file is numbered i, carries the amount of record i, and its two amounts cancel |
| `Iif.ExportSays` | backend/app/accounting/service.py:433-519 | group i of the file says what record i says: kind, date, name, the accounts of its type (a disbursement moves from trust liability what deposits and transfers put there), number or label, and the amount, which for time is the whole number of cents in minutes times the hourly rate |
| `Ledes.ExportLedes` | backend/app/ledes/service.py:506-591 | the mark, the header and one 23-column row for each line item, joined by newlines |
| `Ledes.TableRoundTripIff` | backend/app/ledes/service.py:506-591 | a file reads back as exactly its table precisely when no field holds a pipe or a newline |
| `Ledes.ExportReadsBack` | backend/app/ledes/service.py:479-591 | with clean names and codes and any descriptions, the export reads back as the header and its rows |
| `Ledes.ExportSays` | backend/app/ledes/service.py:518-588 | row i + 1 of the file says column by column what line item i, its time entry, its timekeeper and the last code of each kind say, with the item's own values without an entry |
| `Ledes.SanitisedIsClean` | backend/app/ledes/service.py:583 | the sanitised description has no pipe and no newline and is unchanged elsewhere |
| `Ledes.ExportAdds` | backend/app/ledes/service.py:518-591 | in the table read back from the file of any balanced invoice, the line totals plus the tax give the invoice total every row prints |
| `Ledes.CreatedInvoiceAdds` | backend/app/billing/service.py:161-182 | for an invoice just made by create_invoice the line totals read back give its total with no tax to add |
| `Calendar.CalendarService.CheckConflicts` | backend/app/calendar/service.py:56-78 | the scheduled events of the assignee with an end that overlap, without the excluded one |
| `Calendar.ConflictsShare` | backend/app/calendar/service.py:56-78 | for a slot and events that end after they start: exactly the scheduled events of the assignee that share an instant with it |
| `Calendar.CalendarService.CreateNewEvent` | backend/app/calendar/router.py:60-69 | 409 on a conflict, else the event is stored; nobody is double-booked |
| `Calendar.CreateOutcome` | backend/app/calendar/router.py:60-69 | a creation is refused exactly when some scheduled event of the assignee overlaps the slot, whatever the new status, and otherwise stores the event |
| `Calendar.CalendarService.UpdateExistingEvent` | backend/app/calendar/router.py:90-106 | 404, 409, or the fields given (null included) are stored; nobody is double-booked |
| `Calendar.UpdateOutcome` | backend/app/calendar/service.py:89-94 | a committed update keeps absent columns, empties null ones, stores given ones, and touches no other event |
| `Calendar.CalendarService.DeleteExistingEvent` | backend/app/calendar/router.py:126-130 | 404, or the event goes |
| `Calendar.DeleteOutcome` | backend/app/calendar/service.py:97-99 | exactly this event goes |
| `Calendar.StepKeeps` | backend/app/calendar/router.py:60-106 | no request creates two overlapping scheduled events of one assignee |
| `Calendar.RunKeeps` | backend/app/calendar/service.py:56-99 | over every run of creations, partial updates, deletions and generated deadlines nobody is double-booked |
| `Calendar.NobodyTwiceIff` | backend/app/calendar/service.py:56-78 | nobody is double-booked means: no instant lies inside two scheduled events of one assignee; the converse holds for events that end after they start |
| `Calendar.RunNobodyTwice` | backend/app/calendar/service.py:56-99 | over every run no instant lies inside two scheduled events of one assignee |
| `Calendar.RefusedIffDoubleBooked` | backend/app/calendar/router.py:61-67 | a scheduled event with assignee and end is refused exactly when storing it would double-book |
| `Calendar.UpdateRefusedIff` | backend/app/calendar/router.py:94-104 | an update is refused exactly when the event it is checked as (scheduled, nulls replaced by stored values) overlaps another one of the assignee |
| `Calendar.RefusedNeedlesslyIff` | backend/app/calendar/router.py:94-106 | an update is refused although storing it would not double-book exactly when the event it is checked as clashes and the stored one would be unscheduled or without assignee or end |
| `Calendar.InPlaceRefusedIff` | backend/app/calendar/router.py:94-104 | a change of status alone is refused exactly for an event that is off the schedule while its slot is taken |
| `Calendar.DoneIsRefusedNeedlessly` | backend/app/calendar/router.py:94-104 | the failing input: marking a called-off event as done after its slot was given away |
| `Receivables.GetAgedReceivables` | backend/app/reports/service.py:292-368 | one line for each client with a positive total, sorted by non-increasing total; totals sum to all positive remainders of open invoices |
| `Receivables.OpenKeeps` | backend/app/reports/service.py:296-301 | the rows are exactly the sent and the overdue invoices, with their multiplicity |
| `Receivables.BucketsAreSums` | backend/app/reports/service.py:328-342 | each bucket of a client is the sum of total less payments, where positive, over the client's invoices of that age, counted from the due date, else the issue date, else today |
| `Receivables.OmittedIffNothingOwed` | backend/app/reports/service.py:344-353 | a client is omitted exactly when no open invoice has a positive remainder |
| `Receivables.SortedKeeps` | backend/app/reports/service.py:367 | sorting loses no cents and repeats no client |
| `Emails.SuggestionService.UpdateMatterSuggestions` | backend/app/emails/service.py:13-42 | every non-blank address increments its row or adds one |
| `Emails.SuggestionService.FileEmail` | backend/app/emails/service.py:74-85 | the addresses of all four fields are counted for the matter |
| `Emails.EveryFieldCounts` | backend/app/emails/service.py:74-85 | an e-mail counts its sender, if it has one, and everyone in to, cc and bcc |
| `Emails.SuggestionService.SuggestMatters` | backend/app/emails/service.py:182-217 | the limit-many matters with the largest totals, in order |
| `Emails.QueryHas` | backend/app/emails/service.py:190-192 | the query is for the stripped and lower-cased forms of the addresses that are not blank |
| `Emails.RunRows` | backend/app/emails/service.py:19-41 | one row for each address and matter, each used at least once |
| `Emails.TableIsIndex` | backend/app/emails/service.py:19-41 | a row's use count is the number of non-blank occurrences of its address in e-mails filed to the matter |
| `Emails.OccurringHasRow` | backend/app/emails/service.py:19-41 | an address has a row for a matter exactly when it occurs in an e-mail filed there |
| `Emails.SuggestionsCountOccurrences` | backend/app/emails/service.py:195-207 | the totals that order suggestions are occurrences of the queried addresses, and matters without one are not listed |
| `Conflicts.RunConflictCheck` | backend/app/conflicts/service.py:72-236 | the matches of the three passes; clear exactly for none, confirmed exactly when some score is at least 0.9, that is, while foreign keys hold, when some client or contact has the searched name, organization or e-mail address |
| `Conflicts.BestIsFirstLargest` | backend/app/conflicts/service.py:88-118 | what the search keeps of a person is the first of the largest scores among everything it compares, and nothing when no score is positive |
| `Conflicts.NameScoreIs` | backend/app/conflicts/service.py:28-60 | 1.0 for equal normal forms, 0.7 for one inside the other, 0.6 for two that sound alike, in this order and only for forms that are not empty, else 0 |
| `Conflicts.ScoreMeans` | backend/app/conflicts/service.py:88-118 | the best score exceeds 0.4 exactly when full name or organization is alike the searched name, the organization is alike the searched one, or the e-mail address is the searched text; it reaches 0.9 exactly for equal forms |
| `Conflicts.ThreePassesAreTwo` | backend/app/conflicts/service.py:178-226 | when linked contacts are in the contact table the third pass adds no row and only rewrites contexts, the last link winning |
| `Conflicts.ContactMatchesAre` | backend/app/conflicts/service.py:132-226 | contact matches are exactly the contacts whose best score exceeds 0.4, each once, with the context of their last link |
| `Conflicts.ClientMatchesAre` | backend/app/conflicts/service.py:83-130 | client matches are exactly the clients whose best score exceeds 0.4, each once |
| `Conflicts.CheckFinds` | backend/app/conflicts/service.py:72-236 | what the whole check returns: exactly the clients and contacts whose best score exceeds 0.4, each once, contacts with the context of their last link |
| `Conflicts.WhoIsFound` | backend/app/conflicts/service.py:72-236 | a client or contact is found exactly when it resembles the search in one of these ways |
| `Conflicts.ConfirmedIff` | backend/app/conflicts/service.py:228-236 | a match reaches 0.9, and the check is confirmed, exactly when some client or contact coincides with the search |
| `Conflicts.LastContextIs` | backend/app/conflicts/service.py:178-205 | the context of a contact is that of its last link, and its own without one |

## Left out

- Routers other than those cited, request schemas, pagination, list filters, migrations and the frontend: plumbing.
- Sign-on, WebAuthn, tokens, password and field encryption, object storage, Celery and syslog: foreign calls.
- The trust ledger service, SCIM, UTBMS compliance checks and document templates.
- CSV and JSON exports and the payment summary: they would add easy members.
- Columns that no modelled decision reads (notes, payer names, user agents) and checklist items.
- Concurrent transactions that read the same chain tail, calendar or counts: steps are serial.
- Binary floating point: money is integer cents, hours times rate is divided exactly, scores are tenths.
- Dates beyond year 9999, where Python raises: ordinals are unbounded.
- RateLimit.RunWithinLimit: one limit and window for each key, as every caller in the program uses.
- Payments.PaymentService.AttachProcessorSession: the repository never writes processor_session_id; the step stands for an outside integration.
- Payments.PaymentService.CreatePaymentLink: the surcharge product is exact, where the program multiplies floats; the settings row is an argument.
- Ledes.ExportLedes: the billing period, and the maps of time entries and codes the queries fill, are inputs.
- Iif.GenerateIifExport: the date-range queries and the history row's file name are left to the caller; the record count is modelled.
- Deadlines.DeadlineService.GenerateDeadlines: the wording of titles and descriptions and the table of event type names are parameters; the event's creator is not modelled.
- Billing.BillingService.CreateInvoice: client, matter, dates and notes are not modelled; entries are not deleted once stored.
- Receivables.GetAgedReceivables: client names are not modelled, and each invoice carries its sum of payments.
- Emails.SuggestionService.SuggestMatters: the join with matters is left out, since the foreign key makes it keep every row; confidence is always 1.
- Conflicts.RunConflictCheck: soundex and metaphone are one uninterpreted comparison; persisting the result is left out.
- Calendar.CalendarService.UpdateExistingEvent: of the columns that refuse null only start and status are modelled.
