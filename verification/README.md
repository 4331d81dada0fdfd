# Evidence machinery of the Norinth platform and SDK

A Dafny model of the parts of Norinth that must stay right under retries, crashes, tampering and
concurrent callers, with proofs about every run of them.

| modules | what they model |
|---|---|
| `Inventory`, `Ledger`, `Fold`, `FoldRuns`, `Counters` | the recoverable fold: a durable ledger of raw events projected into inventory counters by request passes and sweeps that race and fail, and every counter in the events' own columns |
| `Samples`, `Assessment`, `AssessmentRuns`, `Coverage` | control assessment, full and incremental, with human decisions and lapsing waivers; evidence coverage |
| `WholeWords`, `RiskRules` | the scanning and the column-based risk-rule evaluators |
| `PortableRecords`, `PortableEvaluate`, `PortableOutcomes`, `PortableSteps`, `PortableProtocol`, `PortableRuns`, `PortableEffects`, `PortableRefusals`, `PortableStore`, `PortableWitness` | portable authorization: systems, revisions, policies, evaluation and its outcomes, permits, receipts, verification, decisions and audit anchoring; when each call goes through, what it leaves and why it is refused |
| `AuditChain`, `AuditJournal`, `AuditRuns` | the hash-chained audit log and its sealed checkpoint journal |
| `Transport`, `Spool` | SDK delivery: queue, retry, disk spool, and the spool shared by processes |
| `Savepoints` | statement-level atomicity on Postgres |
| `ReleaseGate` | deployment approval gates |
| `Secrets`, `Privacy` | the stored-secret format under key rotation; the content boundary |
| `Common` | what several modules share |

The imperative parts are classes and loops (`Fold.Database`, `Assessment.Store`,
`RiskRules.FindingStore`, `PortableStore.Connection`, `AuditRuns.AuditStore`,
`Transport.EventTransport`, `Savepoints.PostgresConnection`, `ReleaseGate.GateStore`, and the loop
methods), each tied to a specification function; the theorems are about those functions and about
runs of them. A transaction is one step; failures and process deaths may fall between steps.

SHA-256, HMAC and AES-GCM are free constructors: what went in can be read back, and nothing else
yields the same value. Regular expressions for redaction, lower-casing, base64url, JSON text and
byte sizes are parameters. Clocks are arguments and need not advance, except where a statement
says so.

Where the code and its documentation part, the code is modelled:

- A request pass is documented to fail a bounded number of times. The bound grows with the passes of one
  tenant that overlap, and the documented one holds exactly when none do (`FoldRuns.FailuresAreBounded`,
  `FoldRuns.BudgetNeedsNoOverlap`).
- The batch fold is documented to leave what a full recompute leaves. It does, except after a waiver
  lapses over existing evidence (`AssessmentRuns.IncrementalRefinesFull`), in the evidence count of
  events folded twice (`AssessmentRuns.CountAgreesExactly`), and where the recompute reads qualifying
  sdk.health events of other applications (`AssessmentRuns.ForeignHealthExactly`).
- The column evaluator is documented to reproduce the scan. Empty provider texts, sdk.health events of
  other applications, which only the scan reads, and batched delivery reports part them, exactly as
  `RiskRules.SignalsAgree` and `RiskRules.DeliveryFromBatches` say.
- A coverage of 100.0 can miss a trace, since it is rounded (`Coverage.FullReadingMissesATrace`).
- A checkpoint of count zero, which only a reconciliation onto an empty log writes, makes verification
  compare the wrong row (`AuditRuns.HonestVerifies`, `AuditRuns.EmptyRestoreRaisesFalseAlarm`).
- A spool claim is documented to keep two workers off one file; a late reclaim undoes that
  (`Spool.ExclusiveExactlyWithoutLateReclaims`, `Spool.ReclaimCanSendTwice`).
- One event that cannot be encoded is documented to be dropped alone; its whole batch is
  (`Transport.EventTransport.SendBatch`).
- Savepoint emulation does not cover `executemany` or failing control statements
  (`Savepoints.AgreementNeedsGuards`).

## Model

| member | source | states |
|---|---|---|
| Inventory.LookupProject | apps/platform/app/storage/entities.py:269-310 | projecting one event adds to each inventory row exactly that event's contribution, which Counters.ColumnsAreTrue states column by column |
| Inventory.ProjectKeys | apps/platform/app/storage/entities.py:269-310 | an event creates exactly the accumulating inventory rows it touches and removes none |
| Ledger.ClaimIsOldest | apps/platform/app/storage/raw_events.py:222-239 | a claim is the oldest unfolded rows of the tenant with attempts left: ascending, at most the limit, and nothing older left out unless the limit is reached |
| Ledger.CountKeeps | apps/platform/app/storage/entities.py:233-265 | one counting transaction over claimed rows, stamped or not, keeps every inventory row equal to the sum over exactly the stamped rows |
| Ledger.PassedKeeps | apps/platform/app/storage/fold.py:88-109 | running any prefix of the eleven projections keeps the ledger sound |
| Ledger.MarkKeeps | apps/platform/app/storage/raw_events.py:242-254 | marking rows folded after every projection completed keeps the ledger sound |
| Ledger.AttemptKeeps | apps/platform/app/storage/raw_events.py:257-274 | recording a failed attempt keeps the ledger sound |
| Ledger.InsertKeeps | apps/platform/app/storage/raw_events.py:158-208 | a delivered span adds one pending row unless its tenant, trace and span are known, and either way the ledger stays sound |
| Ledger.RedeliveryChangesNothing | apps/platform/app/storage/raw_events.py:158-186 | a retried batch inserts nothing and reports nothing inserted |
| Ledger.AllFoldedEqualsOnePass | apps/platform/app/storage/entities.py:233-265 | a sound ledger whose rows are all folded has the inventory of one pass over its rows |
| Fold.Database.ProcessEvent | apps/platform/app/storage/entities.py:269-310 | the row-by-row upserts of accumulating rows leave the inventory of projecting the event, whose columns Counters.ColumnsAreTrue states |
| Fold.Database.ProcessEvents | apps/platform/app/storage/entities.py:233-265 | the locked loop counts each unstamped row once and stamps it in the same transaction; when it raises, nothing changes |
| Fold.Database.InsertEvents | apps/platform/app/storage/raw_events.py:158-194 | the insert loop stores the first span under each new key and returns exactly those events |
| Fold.Database.FoldRows | apps/platform/app/storage/fold.py:88-109 | the projections run in order up to the failing one; completed means all eleven |
| Fold.Database.FoldPending | apps/platform/app/storage/fold.py:112-140 | the request pass leaves the specified database, marks on completion, counts an attempt on every claimed row otherwise |
| Fold.Database.SweepTenant | apps/platform/app/storage/fold.py:143-183 | the sweep leaves the specified database, falls back to row by row, and folded plus failed is the number of rows claimed |
| Fold.RequestMarksExactly | apps/platform/app/storage/fold.py:112-140 | a request pass marks folded exactly the rows it claimed, and only when every projection completed |
| Fold.SweepMarksExactly | apps/platform/app/storage/fold.py:143-183 | a sweep marks folded exactly the claimed rows whose projections all completed, as a set or alone |
| FoldRuns.StepKeeps | apps/platform/app/storage/fold.py:88-183 | every step of every interleaving of request passes, set sweeps, row sweeps, failures and deaths keeps the invariant |
| FoldRuns.RunKeeps | apps/platform/app/storage/fold.py:88-183 | so does every run |
| FoldRuns.ExactlyOnceCounting | apps/platform/app/storage/fold.py:13-21 | at any moment of any run the ledger holds every delivered span once, each inventory row is the sum over exactly the counted rows, and no folded row is uncounted; Counters.RunsCountTruly states the sums in the events' columns |
| Counters.ColumnsAreTrue | apps/platform/app/storage/entities.py:313-519 | in a sound ledger every column of every inventory row is, in the events' own columns, a count or sum over the counted events about it: calls the model calls, errors the failed ones, input tokens the sum of input tokens and output tokens that of output tokens, evidence the events, and each label set the texts they carry |
| Counters.RunsCountTruly | apps/platform/app/storage/entities.py:233-519 | so after every run of racing request passes and sweeps |
| Counters.AllAreCounted | apps/platform/app/storage/entities.py:233-265 | once every row is folded, those are all the events stored |
| Counters.KeysNameTheirParts | apps/platform/app/storage/entities.py:20-22 | two keys are equal exactly when their parts are, when the parts are free of the separator |
| Counters.OneScopeARow | apps/platform/app/storage/entities.py:20-22 | then the events of a row are those of one tenant, project and environment and one name, so tenants share no row |
| FoldRuns.RequestPassIsARun | apps/platform/app/storage/fold.py:112-140 | a whole request pass is one of those runs, so the interleaved model covers the sequential one |
| FoldRuns.SweepPassIsARun | apps/platform/app/storage/fold.py:143-183 | so is a whole sweep, set first and then row by row |
| FoldRuns.SweepKeepsSound | apps/platform/app/storage/fold.py:143-183 | hence a whole sweep keeps the ledger sound whatever fails |
| FoldRuns.FailingPassSpends | apps/platform/app/storage/fold.py:112-138 | a failing request pass strictly spends the remaining retry budget even when other workers run in between |
| FoldRuns.FailuresAreBounded | apps/platform/app/storage/fold.py:115-118 | over any run in which no tenant has more than k request passes in flight, the request path fails at most rows times (max_attempts + k - 1) times, whatever sweeps, deaths and other tenants do meanwhile |
| FoldRuns.RunPays | apps/platform/app/storage/fold.py:112-138 | the invariant behind it: each failure spends one of what the stored rows still allow |
| FoldRuns.BoundIsReached | apps/platform/app/storage/fold.py:120-138 | the bound is the least: for every budget and every k there is a run over one row that fails exactly so often |
| FoldRuns.BudgetNeedsNoOverlap | apps/platform/app/storage/fold.py:115-118 | the documented bound of rows times max_attempts holds of every run if and only if one tenant's passes never overlap |
| Assessment.Evidence | apps/platform/app/storage/governance_policy.py:834-840 | the qualifying events of a batch and no other |
| Assessment.EvidenceIsExact | apps/platform/app/storage/governance_policy.py:834-840 | an event counts exactly when it is of an evidence type of the control and every required field is there and not null, an empty text or an empty list |
| AssessmentRuns.EvidenceKeepsOccurrences | apps/platform/app/storage/governance_policy.py:834-840 | each qualifying event is evidence as often as it occurs |
| Assessment.Store.WriteAssessment | apps/platform/app/storage/governance_policy.py:472-512 | the written row carries the new evidence, and the old status where a person decided it |
| Assessment.Store.RecordControlEvidence | apps/platform/app/storage/governance_policy.py:1149-1186 | every trace with evidence gets the later of its stored and its new evidence time; no other trace changes |
| Assessment.Store.AssessControls | apps/platform/app/storage/governance_policy.py:450-469 | the full recompute writes for each control the row of its whole evidence |
| Assessment.Store.FoldControls | apps/platform/app/storage/governance_policy.py:821-853 | the batch fold writes for each control the merged row |
| Samples.BottomOfUnion | apps/platform/app/storage/governance_policy.py:850-853 | the capped sample of a union needs only the capped sample of the older part |
| Samples.LessIsLexicographic | apps/platform/app/storage/governance_policy.py:850-853 | the order of trace ids is that of their first differing character, a proper prefix first |
| Samples.BottomIs | apps/platform/app/storage/governance_policy.py:490-508 | the sample holds the smallest trace ids, as many as the cap allows, in sorted order |
| Samples.BottomUnchanged | apps/platform/app/storage/governance_policy.py:490-508 | further trace ids leave the sample alone if and only if each lies above a full sample |
| AssessmentRuns.ReplayIsExpected | apps/platform/app/storage/governance_policy.py:821-853 | after any split into batches, replayed and interleaved with recomputes and decisions, the row depends only on the events behind it, the standing decision and whether a waiver lapsed |
| AssessmentRuns.IncrementalRefinesFull | apps/platform/app/storage/governance_policy.py:824-833 | a full recompute finds the same sample, keeps every decision, and changes the status if and only if a lapsed waiver left missing over existing evidence |
| AssessmentRuns.BatchingIsIrrelevant | apps/platform/app/storage/governance_policy.py:821-853 | without decisions, two ways of folding and recomputing the same events leave the same status and sample |
| AssessmentRuns.LapsedWaiverDisagrees | apps/platform/app/storage/workflow.py:1339-1366 | the concrete case in which the two forms part: a waiver lapses over existing evidence |
| AssessmentRuns.CountAgreesExactly | apps/platform/app/storage/governance_policy.py:852-853 | when every stored event was folded at least once the incremental count is never below that of a recompute, and equal if and only if each qualifying event was folded as often as it is stored |
| AssessmentRuns.CountAgreesWithoutReplay | apps/platform/app/storage/governance_policy.py:852-853 | where the ledger stores no event twice, the incremental count is that of a recompute if and only if no qualifying event was folded twice |
| AssessmentRuns.ReplayInflatesCount | apps/platform/app/storage/governance_policy.py:852-853 | one replayed batch inflates it |
| AssessmentRuns.ForeignHealthExactly | apps/platform/app/storage/governance_policy.py:404-422 | a recompute that also reads other applications' sdk.health events keeps the status if and only if a decision stands, there is no evidence, or the application's own evidence counts; and the sample if and only if every new trace id lies above a full sample |
| AssessmentRuns.ForeignHealthIsInvisible | apps/platform/app/storage/governance_policy.py:404-422 | sdk.health events of other applications do not matter to a control that does not list them |
| AssessmentRuns.ForeignHealthDisagrees | apps/platform/app/storage/governance_policy.py:404-422 | and they part the two forms for a control that does |
| Coverage.RecordingFollowsTheRun | apps/platform/app/storage/governance_policy.py:1149-1186 | recording one more batch or recompute keeps the evidence table to the run |
| Coverage.TablesFollowTheRun | apps/platform/app/storage/governance_policy.py:1149-1186 | so after every act of any run from an empty table |
| Coverage.CoverageIsReplaySafe | apps/platform/app/storage/governance_policy.py:1149-1186 | after batches in any order and repeated, last_seen is the greatest time of the qualifying events of the trace |
| Coverage.EvidencedExactly | apps/platform/app/storage/governance_policy.py:1149-1186 | a trace has an evidence row exactly when a qualifying event of it has a time |
| Coverage.JoinIsTraffic | apps/platform/app/storage/governance_policy.py:1217-1234 | the two distinct counts of the left join are those of the window's traces and of the evidenced ones among them |
| Coverage.CoverageIsAShare | apps/platform/app/storage/governance_policy.py:1217-1257 | coverage is missing exactly when no row of the basis types lies in the window; covered traces are the basis traces with an evidence row; the percentage is the nearest tenth, and reads 100.0 if and only if at least 1999 of 2000 are covered, which below 2000 traces means all |
| Coverage.FullReadingMissesATrace | apps/platform/app/storage/governance_policy.py:1253 | 2000 of 2001 covered traces read as 100.0 |
| Coverage.ReportIsReplaySafe | apps/platform/app/storage/governance_policy.py:1189-1257 | two runs over the same events report the same coverage and freshness on any traffic |
| Coverage.LatestIsTrue | apps/platform/app/storage/governance_policy.py:1235-1242 | last_evidence_at is the greatest time of a qualifying event with a trace, missing exactly when there is none |
| Coverage.StaleIsTrue | apps/platform/app/storage/governance_policy.py:1235-1257 | a control is stale exactly when no qualifying event with a trace is as recent as the limit |
| WholeWords.FoundInJoin | apps/platform/app/storage/governance_policy.py:22 | a whole-word match cannot straddle the joining space |
| WholeWords.FoundInJoined | apps/platform/app/storage/governance_policy.py:601 | a search over joined texts finds what any of them holds |
| WholeWords.SameTextsSameFindingInLowerCase | apps/platform/app/storage/governance_policy.py:870 | so it ignores order, duplicates and empty texts, in lower case too |
| WholeWords.FoundInMoreTexts | apps/platform/app/storage/governance_policy.py:596-601 | further texts add only their own matches |
| RiskRules.GroupsTotal | apps/platform/app/storage/governance_policy.py:868 | summing the error groups counts each runtime error once |
| RiskRules.VisibleSplits | apps/platform/app/storage/governance_policy.py:404-422 | the scan's counts are those of the application's own events and of other applications' sdk.health events |
| RiskRules.ScanSpeaksOfTheEvents | apps/platform/app/storage/governance_policy.py:570-630 | for which events each signal on providers, guardrails, evals and agent runs is raised, and with which summary |
| RiskRules.ScanSpeaksOfFailures | apps/platform/app/storage/governance_policy.py:570-630 | operational and eval failures are raised with their number when there are any, delivery when a health event dropped events or has no spool |
| RiskRules.MostDroppedIsMost | apps/platform/app/storage/governance_policy.py:653-657 | the number in a delivery finding is the most any report dropped |
| RiskRules.SignalsAgree | apps/platform/app/storage/governance_policy.py:856-922 | for every signal but that of retired systems, both evaluators say the same if and only if a stated condition on own and foreign events holds: always for guardrails, evals and failed evals; no empty provider; no foreign error; an own run, tool call or agentic text, or no foreign one; the same largest drop |
| RiskRules.ForeignHealthParts | apps/platform/app/storage/governance_policy.py:404-422 | one sdk.health event of another application parts the two evaluators on three signals |
| RiskRules.ProvidersAgreeUnlessEmpty | apps/platform/app/storage/governance_policy.py:576-580 | over one event list they name the same providers if and only if no model call carries an empty provider text |
| RiskRules.EvaluatorsAgree | apps/platform/app/storage/governance_policy.py:859-866 | for any rules the column evaluator leaves the findings of the scan when every rule's signal has the same verdict, and where the findings are new, only then |
| RiskRules.DecisionsSurvive | apps/platform/app/storage/governance_policy.py:992-997 | a decided finding keeps its status and no finding is withdrawn |
| RiskRules.FindingsAreAsRaised | apps/platform/app/storage/governance_policy.py:976-1010 | each rule's finding is as its signal says: not written where it says nothing, otherwise with that summary and the status a person gave it, or observed or open as the rule has it |
| RiskRules.FindingStore.AssessByScan | apps/platform/app/storage/governance_policy.py:548-630 | the scanning loop leaves the specified findings |
| RiskRules.FindingStore.AssessByColumns | apps/platform/app/storage/governance_policy.py:856-938 | the column loop does too, and leaves those of the scan whenever every rule's signal has the same verdict |
| RiskRules.DeliveryFromBatches | apps/platform/app/storage/governance_policy.py:935-938 | read from batches, the delivery finding is raised when a scan raises it if and only if an own event is flagged or no foreign one is, and says the same if and only if, besides, the last flagged batch holds the largest drop |
| PortableRecords.Newest | apps/platform/app/storage/portable.py:82-128 | the first record by creation time and id, none exactly when there is none |
| PortableRecords.DecisiveIsLatestAndWorst | apps/platform/app/services/portable.py:212-222 | the decisive observation is at the latest instant; there a failed one beats an unknown one and that a passing one, and of equals the later created, then the smaller id |
| PortableRecords.InsertionOrderIsIrrelevant | apps/platform/app/services/portable.py:219-220 | the same observations stored in another order under other ids decide with the same instant and result |
| PortableEvaluate.ActionBlockersEmpty | apps/platform/app/services/portable.py:298-321 | an action has no blocker exactly when it is listed, its resource is allowed and declared, and its parameters are exactly those of the capability, each of its type |
| PortableEvaluate.GatherIsClear | apps/platform/app/services/portable.py:204-236 | no required check leaves a gap exactly when each is established, and the references are the decisive observations in order |
| PortableEvaluate.JudgeAllowsOnMerits | apps/platform/app/services/portable.py:276-372 | the rule part allows exactly on the declared merits |
| PortableEvaluate.AllowsExactlyEligible | apps/platform/app/services/portable.py:246-372 | evaluate allows a request if and only if it is eligible under some policy, which is the one it names |
| PortableOutcomes.OutcomesAreExact | apps/platform/app/services/portable.py:246-372 | evaluate denies, asks for review, cannot tell or allows if and only if the executor, system, anchors, policy, manifest, action, legacy work, evidence and review state say so, and answers not found, forbidden or unprocessable if and only if the records, scopes or the form of the request do |
| PortableOutcomes.ReasonsAreExact | apps/platform/app/services/portable.py:262-372 | each of the reasons is listed if and only if its ground holds: 24 kinds, in terms of states, anchors, sets of the policy and manifest, the action's parameters, legacy counts and each check's deciding observation |
| PortableOutcomes.VoiceIsLatestAndWorst | apps/platform/app/services/portable.py:204-222 | the deciding observation of a check is about the revision, from a trusted active source, the latest, and at its instant none is worse; there is none exactly when nobody speaks of the check |
| PortableOutcomes.VerdictNamesItsGrounds | apps/platform/app/services/portable.py:246-372 | a verdict names the policy in force and, exactly once everything passes, the deciding observation of each check in order |
| PortableOutcomes.NormalIsAlike | apps/platform/app/services/portable.py:307-308 | preapproved parameters are compared as Python compares: true, 1 and 1.0 are one value, at any depth |
| PortableOutcomes.LastCapability | apps/platform/app/services/portable.py:300-301 | of capabilities of one name the last registered counts |
| PortableOutcomes.LastReleaseIsNewest | apps/platform/app/services/portable.py:355-368 | a routine revision counts as released when its newest release receipt under the policy is anchored and reports the release executed |
| PortableOutcomes.ReviewReason | apps/platform/app/services/portable.py:457-465 | what an approval of a revision asks of evaluate: an allow, or a call for nothing but that approval |
| PortableEvaluate.StricterNeverAllowsMore | apps/platform/app/services/portable.py:276-372 | tightening a policy never turns a refusal into an allow, for every store and request |
| PortableWitness.FewerSourcesCanAllow | apps/platform/app/services/portable.py:204-222 | trusting fewer sources is not a tightening: a store in which it turns a refusal into an allow |
| PortableStore.Connection.CheckManifest | apps/platform/app/services/portable.py:278-290 | the manifest blockers in order, none exactly when the manifest is within the policy |
| PortableStore.Connection.CheckAction | apps/platform/app/services/portable.py:298-321 | the action blockers in order, none exactly when the action is permitted |
| PortableStore.Connection.Evidence | apps/platform/app/services/portable.py:204-236 | the evidence loop: its gaps and references, none missing exactly when every check is established |
| PortableStore.Connection.EvaluateRequest | apps/platform/app/services/portable.py:246-372 | the early returns of evaluate; it allows exactly eligible requests, denies, asks for review and cannot tell exactly on their conditions, and lists exactly the reasons that hold |
| PortableStore.Connection.RegisterSystem | apps/platform/app/services/portable.py:95-125 | another purpose or legacy binding sends an approved system back to planned |
| PortableStore.Connection.RegisterRevision | apps/platform/app/services/portable.py:136-169 | a revision name is filed once; another body under it is refused |
| PortableStore.Connection.RegisterObservation | apps/platform/app/services/portable.py:172-201 | future and changed observations are refused |
| PortableStore.Connection.DecideTarget | apps/platform/app/services/portable.py:433-506 | the checks of a decision in order and its writes |
| PortableStore.Connection.SupersedePriors | apps/platform/app/services/portable.py:471-483 | the loop supersedes exactly the active policies it was given |
| PortableStore.Connection.IssueAuthorization | apps/platform/app/services/portable.py:375-401 | a grant holding the verdict and, for an allow, a permit |
| PortableStore.Connection.ConsumeAuthorization | apps/platform/app/services/portable.py:404-430 | the checks of a consumption in order and its two writes |
| PortableStore.Connection.FileReceipt | apps/platform/app/services/portable.py:509-544 | at most one receipt per grant, another body is refused, and the receipt's state is that of what it reports (PortableEffects.CallsTakeEffect, PortableRuns.ReceiptStatesAreTrue) |
| PortableStore.Connection.Verify | apps/platform/app/services/portable.py:547-596 | the checks of a verification in order and its two writes |
| PortableStore.Connection.Audit | apps/platform/app/api/portable.py:73-108 | append, then compare-and-set: only the very state that was logged is marked anchored |
| PortableProtocol.RecordOkKept | apps/platform/app/services/portable.py:95-596 | a record that is not rewritten stays well-founded while the store moves on |
| PortableProtocol.DecideKeeps | apps/platform/app/services/portable.py:433-506 | a decision keeps the store sound: one active policy, a decider other than the creator, a current snapshot |
| PortableProtocol.IssueKeeps | apps/platform/app/services/portable.py:375-401 | issuing keeps it sound: an allowing grant has exactly one permit, a policy and a capability |
| PortableProtocol.ConsumeKeeps | apps/platform/app/services/portable.py:404-430 | consuming keeps it sound |
| PortableRuns.VerifyKeeps | apps/platform/app/services/portable.py:547-596 | verifying keeps it sound |
| PortableRuns.AnchorKeeps | apps/platform/app/api/portable.py:91-108 | anchoring keeps it sound: nothing carries an anchor whose state is not in the log |
| PortableRuns.StepKeeps | apps/platform/app/services/portable.py:72-596 | every call keeps the store sound and moves records only along their lifecycle |
| PortableRuns.RunKeeps | apps/platform/app/services/portable.py:72-596 | over any run: sound, bodies other than those of systems immutable, authorship fixed, states forward only, the log only growing |
| PortableRuns.HistoryIsFixed | apps/platform/app/services/portable.py:136-169 | no run changes a submitted body other than a system's, who made a record or where it belongs, or undoes retirement, revocation, supersession, consumption or the outcome of a receipt |
| PortableRuns.EveryReachableStoreIsSound | apps/platform/app/services/portable.py:72-596 | every store reachable from the empty one is sound |
| PortableRuns.ConsumptionIsAuthorized | apps/platform/app/services/portable.py:404-430 | a consumption is by the integration the permit was issued to, before expiry, for the issued request, with the issued state in the audit log, and while the request is still eligible under the same policy; it changes nothing else |
| PortableRuns.PermitIsConsumedAtMostOnce | apps/platform/app/services/portable.py:419-430 | no run consumes a permit twice |
| PortableRuns.OneReceiptPerGrant | apps/platform/app/services/portable.py:514-530 | an authorization has at most one receipt |
| PortableRuns.ReceiptTracesToConsumption | apps/platform/app/services/portable.py:509-544 | behind a receipt stands an anchored consumption, before expiry, of a grant whose issued state was anchored |
| PortableRuns.VerifiedReceiptIsEstablished | apps/platform/app/services/portable.py:547-596 | a verified receipt rests on an anchored passing observation of exactly the authorized action, by someone other than the executor whom the authorizing policy trusts, no earlier than the report and not stale |
| PortableRuns.ReceiptStatesAreTrue | apps/platform/app/services/portable.py:509-596 | in every reachable store a receipt is reported-executed exactly when it reports an executed release, failed when it reports nothing executed, and otherwise pending until a verification by a passing observation makes it verified or by another one failed |
| PortableRuns.ApprovalsAreCurrent | apps/platform/app/services/portable.py:105-112 | what is approved or in force was decided by a person other than its creator, about the purpose and binding, manifest or policy it still has |
| PortableRuns.ActivePolicyIsTheOnlyOne | apps/platform/app/services/portable.py:239-243 | the query for the policy in force finds the only active one |
| PortableRuns.NothingCrashes | apps/platform/app/services/portable.py:568-595 | no reachable call dies on the unique index or on a missing capability |
| PortableEffects.GoesThroughExactly | apps/platform/app/services/portable.py:72-596 | each of the fifteen calls goes through if and only if a condition on the caller, the call and the records holds, stated for each |
| PortableEffects.CallsTakeEffect | apps/platform/app/services/portable.py:72-596 | what each call that goes through leaves on record, and that nothing else changes: states, bodies, authorship, permits and their expiry, superseded policies, the outcome of a grant |
| PortableEffects.DecidesExactly | apps/platform/app/services/portable.py:433-506 | a decision goes through exactly for a pending target unchanged since it was read, by someone who did not create it, with live sources for a policy and a clear evaluation for a revision |
| PortableEffects.RevokedIsShutOut | apps/platform/app/api/portable.py:160-186 | after a revocation no call by or for the integration goes through, over any run |
| PortableRefusals.RefusalsSayWhy | apps/platform/app/services/portable.py:39-596 | each refusal's error stands for what is wrong: something missing, a right the caller lacks, a call that contradicts itself, or a record that stands against it, stated for each call |
| PortableWitness.ConsumptionHappens | apps/platform/app/services/portable.py:404-430 | the conditions can be met: calls from the empty store lead to a sound one in which a consumption goes through |
| PortableWitness.VerificationHappens | apps/platform/app/services/portable.py:404-596 | and from there calls lead to a receipt verified by another trusted source |
| AuditChain.CheckRow | apps/platform/app/storage/audit.py:342-370 | the checks on one row in order |
| AuditChain.FlawsAreExact | apps/platform/app/storage/audit.py:341-371 | each flaw is reported exactly when version, link, hash or signature of the row fails, in that order, with the signer the row names or the legacy key |
| AuditChain.VerifyRows | apps/platform/app/storage/audit.py:340-371 | the loop accepts exactly the intact chains and otherwise reports the first flawed row |
| AuditChain.HeadIsInjective | apps/platform/app/storage/audit.py:124-141 | a head hash determines every entry under it |
| AuditChain.HashPinsPrefix | apps/platform/app/storage/audit.py:124-141 | two intact chains that agree on the hash at one position agree on every entry up to it |
| AuditChain.AppendKeepsChain | apps/platform/app/storage/audit.py:225-286 | an appended row leaves the chain intact |
| AuditRuns.AppendAllRecords | apps/platform/app/storage/audit.py:227-286 | the rows of a unit hold its entries, whole and in order, after all there were |
| AuditRuns.LogHoldsWhatWasRecorded | apps/platform/app/storage/audit.py:172-286 | after any run the log holds the entries of the backup last restored followed by those of all units committed since, whole and in order |
| AuditRuns.PassingLogHoldsWhatWasRecorded | apps/platform/app/storage/audit.py:341-438 | a database that verifies against the journal of an honest run holds, as far as the last mark reaches, exactly what was recorded, and all of it when nothing is unanchored |
| AuditJournal.LoadIsSound | apps/platform/app/storage/audit_checkpoint.py:51-82 | what the full reader accepts is linked, authentic and in order, and returned whole |
| AuditJournal.SoundJournalsLoad | apps/platform/app/storage/audit_checkpoint.py:51-82 | and it accepts every such journal |
| AuditJournal.CountsIncrease | apps/platform/app/storage/audit_checkpoint.py:71-76 | between reconciliations counts strictly increase within one epoch |
| AuditJournal.ReadCheckpoints | apps/platform/app/storage/audit_checkpoint.py:51-82 | the line loop returns the first fault or all records |
| AuditJournal.LatestCheckpoint | apps/platform/app/storage/audit_checkpoint.py:85-111 | the backward byte scan returns the authenticated last line, or raises |
| AuditJournal.LatestIsTheLastRecord | apps/platform/app/storage/audit_checkpoint.py:85-111 | on a journal the full reader accepts, the backward scan returns its last record if and only if the text ends in a newline, and raises otherwise |
| AuditJournal.RenderedJournalLoads | apps/platform/app/storage/audit_checkpoint.py:114-135 | on a journal of the system's own writing both readers return what was written |
| AuditRuns.AuditStore.Verify | apps/platform/app/storage/audit.py:324-438 | the whole verification against the journal; a broken chain is reported at its first flawed row with that flaw |
| AuditRuns.AuditStore.AppendRow | apps/platform/app/storage/audit.py:225-286 | the guards against the last checkpoint and the chained row |
| AuditRuns.AuditStore.AppendMark | apps/platform/app/storage/audit_checkpoint.py:114-135 | the next signed line, refused unless the count advances |
| AuditRuns.AuditStore.RecordUnit | apps/platform/app/storage/audit.py:172-222 | a unit of any size, dying after any number of its marks, leaves the specified log |
| AuditRuns.AuditStore.ReconcileAfterRestore | apps/platform/app/storage/audit.py:452-472 | refused exactly without an intact chain, a record, the observed seal and a reason |
| AuditRuns.PassingPinsTheAnchoredPrefix | apps/platform/app/storage/audit.py:395-420 | if verification passes against a record taken from an honest log, the anchored prefix is that log, entry for entry |
| AuditRuns.HonestNeverBlocks | apps/platform/app/storage/audit.py:239-249 | an honest log never refuses the next append |
| AuditRuns.HonestVerifies | apps/platform/app/storage/audit.py:395-438 | verification of an honest log passes, with unanchored exactly the rows since the last mark, if and only if that mark counts a row or the log is empty |
| AuditRuns.CurrentExactly | apps/platform/app/storage/audit.py:423-438 | an honest log is reported current exactly when every committed row is marked, by a mark of the last day, the first mark was that of the first row and nothing was restored; partial exactly when one of the last two fails |
| AuditRuns.StepKeepsHonest | apps/platform/app/storage/audit.py:172-222 | a commit that dies before any of its marks, and a restore, keep the log honest |
| AuditRuns.RunStaysHonest | apps/platform/app/storage/audit.py:172-286 | over any honest run with crashes, units, key rotation and restores the log stays honest and its unanchored rows are those since the last mark |
| AuditRuns.HonestRunsVerify | apps/platform/app/storage/audit.py:324-438 | a run that never reconciles onto an empty log always verifies |
| AuditRuns.EmptyRestoreRaisesFalseAlarm | apps/platform/app/storage/audit.py:409-420 | from any honest log, reconciling onto an empty one and dying before the next mark makes verification report a mismatch |
| Transport.BagWithout | packages/python-sdk/norinth_logger/transport.py:297-305 | the events on disk are those of any one file and of the rest |
| Transport.SizeWithout | packages/python-sdk/norinth_logger/transport.py:298-305 | the spool's size is the sum over its files |
| Transport.EventTransport.SpoolBatch | packages/python-sdk/norinth_logger/transport.py:277-295 | a batch becomes a new file exactly when spooling is on, it fits and the write succeeds; otherwise the caller still owns it |
| Transport.EventTransport.Deliver | packages/python-sdk/norinth_logger/transport.py:246-273 | a batch answered only by 408, 429, 500, 502, 503, 504 or nothing and then accepted within the retries is delivered, any other answer drops it at that post, and without any it is spooled or dropped for want of room; posts and doubling sleeps are counted |
| Transport.FateIsDecided | packages/python-sdk/norinth_logger/transport.py:246-275 | a batch is delivered if and only if an acceptance comes within the retries before any other final answer, dropped if and only if a rejection does or nothing final comes and the spool has no room, spooled otherwise |
| Transport.EventTransport.SendBatch | packages/python-sdk/norinth_logger/transport.py:199-216 | one event that does not encode drops its whole batch, without a post |
| Transport.EventTransport.DrainSpool | packages/python-sdk/norinth_logger/transport.py:307-339 | the drain is the specified one; it takes nothing back, posts each file at most once, and accounts for every event |
| Transport.EventTransport.DrainOne | packages/python-sdk/norinth_logger/transport.py:312-339 | a spooled file answered by one of those statuses or by nothing stays on disk and ends the drain; an acceptance counts it as sent, any other answer as dropped, and the file goes if it can be removed |
| Transport.DrainStopsAtTransientFailure | packages/python-sdk/norinth_logger/transport.py:323-339 | a file ends the drain exactly after a transient answer, and its batch is counted as delivered or dropped exactly by a final one |
| Transport.DrainIsInOrder | packages/python-sdk/norinth_logger/transport.py:312-339 | with a working disk a file leaves the spool if and only if its answer and those of all older files are final |
| Transport.EventTransport.ReclaimStaleClaims | packages/python-sdk/norinth_logger/transport.py:356-363 | the claims go back as specified and none is lost |
| Transport.ReclaimMovesTheStale | packages/python-sdk/norinth_logger/transport.py:356-363 | with a working disk exactly the claims older than the limit move |
| Transport.EventTransport.Enqueue | packages/python-sdk/norinth_logger/transport.py:138-151 | an event is queued, sent, or counted as dropped; never blocks when asynchronous |
| Transport.EventTransport.Flush | packages/python-sdk/norinth_logger/transport.py:153-172 | afterwards the queue is empty and every event is accounted for; the last flush posts at most once and never sleeps |
| Transport.SleepsClosedForm | packages/python-sdk/norinth_logger/transport.py:264-267 | the sleeps of a batch add up to the backoff times one less than a power of two |
| Spool.NoSilentLoss | packages/python-sdk/norinth_logger/transport.py:277-363 | over any interleaving of processes, crashes and reclaims, a batch ever spooled is on disk, delivered, or counted as dropped |
| Spool.SpooledIsAccountedFor | packages/python-sdk/norinth_logger/transport.py:277-363 | in every run from an empty spool |
| Spool.ExclusiveExactlyWithoutLateReclaims | packages/python-sdk/norinth_logger/transport.py:28-32 | at every moment of a run each claim has one owner if and only if no claim is reclaimed from a process that still holds it |
| Spool.ReclaimCanSendTwice | packages/python-sdk/norinth_logger/transport.py:356-363 | a run from the empty spool in which a late reclaim lets two processes post the same batch |
| Spool.DrainIsARun | packages/python-sdk/norinth_logger/transport.py:307-339 | one transport's handling of a file is a run of the shared spool, with the same files and the same outcome |
| Savepoints.PostgresConnection.Execute | apps/platform/app/storage/db.py:176-202 | savepoint, statement, rollback on failure, release while healthy: inside a transaction a statement is atomic |
| Savepoints.StatementIsAtomic | apps/platform/app/storage/db.py:186-202 | a failing statement leaves tables and savepoints as they were, even with a caller's savepoint of the same name |
| Savepoints.EmulationRefinesAtomicity | apps/platform/app/storage/db.py:176-202 | every program whose control statements succeed ends as the run of its successful statements alone |
| Savepoints.AgreementNeedsGuards | apps/platform/app/storage/db.py:176-210 | a run agrees with the atomic one after every request if and only if no control statement and no executemany fails inside a transaction |
| ReleaseGate.CountPassing | apps/platform/app/storage/deployments.py:396-442 | the loop counts exactly the evals that passed, are attested where required, and are about this release |
| ReleaseGate.ReasonText | apps/platform/app/storage/deployments.py:218-238 | the reasons in order, none exactly when approval is not blocked |
| ReleaseGate.AnswersAgree | apps/platform/app/storage/deployments.py:481-506 | reason text, approval check and CI blockers agree on every evidence vector |
| ReleaseGate.CiNamesTheReasons | apps/platform/app/storage/deployments.py:653-674 | CI names the pending work and then the same reasons, one for one |
| ReleaseGate.EligibleExactlyWhenClear | apps/platform/app/storage/deployments.py:675-689 | CI reports eligible exactly when approved, clear and nothing is unfolded; otherwise it names a blocker and a reason |
| ReleaseGate.GateStore.Refresh | apps/platform/app/storage/deployments.py:267-323 | a refresh replaces the evidence and never a decided status |
| ReleaseGate.GateStore.Decide | apps/platform/app/storage/deployments.py:461-545 | the checks of a decision in order and its writes |
| ReleaseGate.DecisionLeaves | apps/platform/app/storage/deployments.py:461-545 | a decision goes through exactly for a pending gate, with a rationale, and for an approval on clear evidence; it leaves the gate approved on that evidence, or rejected with the evidence it had, and nothing else changed |
| ReleaseGate.GateShowsTheLatestEvidence | apps/platform/app/storage/deployments.py:267-323 | over any run a gate shows the evidence of its latest refresh, or of an approval given after it |
| ReleaseGate.DecisionIsTerminal | apps/platform/app/storage/deployments.py:467-473 | across any run a decided status, its person and its rationale stay |
| ReleaseGate.ApprovalWasEarned | apps/platform/app/storage/deployments.py:272-277 | an approved gate of any run was approved by a person on clear evidence with a rationale |
| Secrets.Keyring | apps/platform/app/services/secrets.py:58-80 | the ring is built exactly from well-formed entries, or refused |
| Secrets.RingHoldsLastEntries | apps/platform/app/services/secrets.py:64-80 | its ids exclude the separator, and each names the key of its last entry |
| Secrets.EncryptsUnderThePrimary | apps/platform/app/services/secrets.py:83-162 | a value is stored under the named primary key, or the legacy key when nothing else is configured, and reads back under that key alone; a missing or unnamed primary is refused |
| Secrets.FormatRoundTrips | apps/platform/app/services/secrets.py:157-171 | the parser undoes the printer |
| Secrets.Decrypt | apps/platform/app/services/secrets.py:165-194 | a named value is opened by its key, a nameless one exactly when some ring key authenticates it, anything else passes through |
| Secrets.RoundTripUnderRotation | apps/platform/app/services/secrets.py:134-180 | under any later ring a value reads back if and only if its id still maps to its key and the context is the one it was bound to |
| Secrets.StoreAndLoadPlaintext | apps/platform/app/services/secrets.py:141-148 | a value stored without a key reads back if and only if it does not look encrypted |
| Privacy.SanitizeMappingLoop | packages/python-sdk/norinth_logger/privacy.py:197-224 | the loop; texts appear only under safe names |
| Privacy.SanitizeUsageLoop | packages/python-sdk/norinth_logger/privacy.py:304-331 | the loop and its nesting; nothing but numbers and fingerprints |
| Privacy.UsageHasNoLabels | packages/python-sdk/norinth_logger/privacy.py:310-316 | no text rides out with usage accounting, however nested |
| Privacy.AmountsLeave | packages/python-sdk/norinth_logger/privacy.py:304-331 | a number leaves usage as the same number, a dictionary is entered to depth two, the rest leaves as type, fingerprint and size |
| Privacy.EntriesLeave | packages/python-sdk/norinth_logger/privacy.py:197-224 | under a safe name a scalar leaves as its redacted text of at most 256 characters, everything else as type, fingerprint and size |
| Privacy.MappingsDoNotInterfere | packages/python-sdk/norinth_logger/privacy.py:203-209 | mappings that agree on redacted names, safe labels and the type, fingerprint and size of the rest leave as one |
| Privacy.StepsDoNotInterfere | packages/python-sdk/norinth_logger/privacy.py:252-264 | so do lists of steps |
| Privacy.UsageDoesNotInterfere | packages/python-sdk/norinth_logger/privacy.py:304-331 | and nested usage to its depth limit |

## Left out

- Inventory.ProjectKeys: risk and observed-event rows, which hold no counter, are not modelled; a risk row's capped sample depends on the order of events.
- Fold.Database.ProcessEvent: the same rows, and first-seen and last-seen times, are left out.
- Fold.Database.FoldRows: the content of the ten projections after counting is left out; each is a step that may fail, recorded as passed for a row once it completes.
- Fold: retention deletes, and reading limits from the environment.
- Assessment: time text normalization before comparison, and framework and rationale columns.
- Coverage: the percentage is rounded from the exact quotient, a tie to the even tenth, without floating-point error.
- RiskRules.FindingStore.AssessByScan: the evidence trace ids of a finding are left out; the two evaluators sample them differently.
- RiskRules.FindingStore.AssessByColumns: the same.
- RiskRules: the retired_system_telemetry signal, whose two evaluators compare timestamps in different textual forms; provider values that are not text.
- WholeWords: lower-casing is per character; Unicode rules that depend on context are outside it.
- Portable: control packs and their assessment, delegations, integration tokens and their rotation of secrets, workspace listings.
- Portable: one clock reading serves a whole transaction; record ids and tokens are assumed not to collide; role permissions and the organization's activity are inputs.
- Portable: request contracts are taken after validation and whitespace stripping.
- PortableStore.Connection.CheckAction: the blockers of single parameters are one blocker naming them all, since a map has no order.
- PortableStore.Connection.DecideTarget: activating a control pack is left out with the packs.
- Portable: the digest, timestamp and enforcement fields echoed in a verdict, and rationale texts of decisions.
- Portable: the 500-row limit when superseding policies, which one active policy per system never meets.
- PortableRuns.NothingCrashes: storage failures other than the unique index, which roll a transaction back whole, are not modelled.
- AuditChain: hash versions other than the current one, whose rows verification rejects; row ids, which no hash covers.
- AuditJournal: carriage returns and blank padding in the journal file, and records lacking a field, which count as unreadable lines.
- AuditRuns: a line torn by a death inside one write, which LatestIsTheLastRecord shows the append refuses; an unset journal path; the streamed copy of entries.
- Transport: threads of one process, which take events from the queue one at a time; fork handlers; worker restarts; partially written temporary files.
- Spool: modification times; any claim may be reclaimed at any time.
- Savepoints: SQL translation and pooling of connections.
- ReleaseGate: how evidence counts are queried, policy resolution, maker-checker on the deployer, lookup by release and its ambiguity error.
- Secrets: decoding of key material beyond success or failure, and the checks at startup.
- Privacy: capture on, exceptions, inferred governance context and rule labels.
- HTTP routes, sessions, mail, webhooks, single sign-on, schema migrations and dashboards.
