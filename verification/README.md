# A verified model of the fraud-alert platform's core

The platform scores fraud alerts with per-channel model bundles, queues them for analysts, derives
training labels from their dispositions, and evaluates and promotes the models that do the scoring.
This project models its decision logic in Dafny and proves what the platform promises about it. It
covers whole runs, arbitrary interleavings and every input, not single calls.

Run `dafny verify dfyconfig.toml` here to check everything.

## How the pieces fit

| modules | component |
|---|---|
| `EntityGraph`, `GraphShape`, `GraphSearch`, `GraphRisk` | the bounded clique-per-event entity graph, breadth-first search, and the weighted risk score |
| `ColdStart`, `Bundles`, `Promotion`, `PromotionProtocol` | bundle registration, the cold-start gate, and concurrent promoters |
| `Runs`, `RunProtocol` | the run lifecycle over compare-and-set, and concurrent finalisers |
| `AlertQueue`, `AlertRuns` | alerts, evidence and dispositions in their paired indexes |
| `Labels`, `LabelRuns`, `LabelOverlap` | label eligibility and the append-only assessment log, under overlapping assessment runs |
| `Dispatch`, `DispatchOverlap` | the pending set, the runs that drain it, and runs that overlap |
| `Splits`, `SplitFacts`, `Calibration` | the chronological split with purge gap, the split manifest and the calibration guard |
| `History` | history selection shared by training and scoring, and the feature context's validator |
| `Velocity`, `VelocityParity` | velocity counts: online store against batch enrichment, for any order of arrival |
| `Ranking`, `Evaluation`, `Shadow`, `Drift` | ranked review, channel evaluation, shadow comparison, score drift |
| `Consumer`, `Redelivery`, `RawUploads` | the streaming consumer, its sessions under crashes, lost commits, lost dead letters and redelivery, and the raw rows they upload |
| `Common`, `Sorting`, `Events` | shared values, Python's `sorted`, and the events everything reads |

Stores and loops that update state are classes and methods. Each method's contract equates the new
state with a function of the old one, and the lemmas are about those functions. Concurrency is a
state machine whose actions are the source's separate store calls; one store call, which the source
wraps in a row lock or an advisory lock, is one action. Every protocol theorem ranges over all
finite sequences of actions.

Times are integers, scores and fractions are reals, and a UUID is its 128-bit number, which orders
exactly as its canonical text does. Clocks, minted ids, the outcome of a scoring call, and what the
artifact verifier answers are parameters.

## Where the code and its documentation differ

The model follows the code. Each entry names an input at which the promise fails and the exact condition.

- `src/common/splits.py:115-116` says a split fails with fewer than two distinct timestamp groups, and the message
  at lines 145-149 asks for three. Three are not enough: when the first boundary snaps to the last inner group
  start there is no second one. Input `SplitFacts.ThreeGroupsRefused`, condition `SplitFacts.NoSecondBoundaryIff`.
- `src/control_plane/runs.py:388-402` answers a missed compare-and-set from a separate read. A run created between
  the two makes a finaliser be refused a legal move (`RunProtocol.RefusedLegalMove`) and a heartbeat be reported as
  done although nothing was written (`RunProtocol.UnwrittenHeartbeat`). Condition, for every call in every
  interleaving: `RunProtocol.ReadAgreesIff`.
- Training and scoring promise the same history, but scoring looks an alert's event up only among strictly earlier
  events, so an alert created before its event is selected by one and not the other. Input
  `History.EarlyAlertDisagrees`, condition on the pool `History.AlertSelectionsAgreeIff`.
- Real-time and batch features are to differ only in how their inputs are fetched (`src/common/feature_store.py:3-9`),
  but the inputs differ too. Batch also counts rows that share the current timestamp, rows that are earlier in time
  but arrive later, and the failed attempts of a file; the one write path of the online store
  (`src/common/scoring.py:100-109`) never stores a failed attempt, so the online failed count is always zero
  (`VelocityParity.NoFailureOnline`). Inputs `VelocityParity.TieCountedOnce`, `VelocityParity.LateArrivalMissed`,
  `VelocityParity.FailureMissed`. Exact difference, in any order of arrival and whatever the store held at first:
  `VelocityParity.BatchAgainstOnline`. Condition `VelocityParity.ParityAsRunIff` for the store the code leaves, and
  `VelocityParity.ParityIff` for a store with any failed attempts. Likewise scoring a transaction again after a late
  arrival changes its counts: input `VelocityParity.LateArrivalChangesRescoring`, condition
  `VelocityParity.RescoringAdds`.
- `src/fraud_intel/alerts/queue.py:319-323` says nothing is persisted for a malformed call. Whatever exception the
  scoring call raises, lines 353-385 create the fallback alert and its evidence row. Input
  `AlertRuns.RaisingCallPersists`; nothing is persisted exactly on a retry, `AlertRuns.PersistsNothingIff`.
- `src/fraud_intel/labels/eligibility.py:376-402` reads the clock and loads every basis before appending row by row.
  Runs that overlap can append behind the log: an alert with one disposition gets four rows
  (`LabelOverlap.OverlapRepeatsRows`), and eligibility on one disposition is lost
  (`LabelOverlap.OverlapLosesEligibility`).
  An append is stale when it rests on an older disposition than the alert's latest row, or on the same one before it
  matured. The log moves forward exactly when none is stale (`LabelRuns.ForwardIff`), eligibility is kept exactly when
  no append judges too early a disposition already found eligible (`LabelRuns.EligibilityKeptIff`), and with s stale
  appends the bound of 1 + 2d rows becomes (1 + 2d)(1 + s) (`LabelRuns.RowsBounded`). Runs that do not overlap have
  no stale append.
- `src/fraud_intel/scoring/dispatch.py:314-321` excludes an alert with evidence of the current bundle from being
  scored again. The query runs once, before the batch is scored, so runs that overlap score an alert twice. Input
  `DispatchOverlap.OverlapScoresTwice`. An alert gets at most one evidence row of the bundle as long as no run lists
  one that another has listed and not yet scored, and once all batches are done exactly then:
  `DispatchOverlap.OneRowIff`.
- `src/ingestion/consumer.py:7-13` promises that no message is silently lost. Two things lose one. Under the default
  reset policy "latest" (line 180) a process that dies before its first commit has landed lets the next one start past
  its message: `Redelivery.LatestSkipsMessage`. And `send` only queues a dead letter (lines 75-76), so the commit on
  the next lines can land while the letter never leaves the process: `Redelivery.LostDeadLetter`. An offset is
  dealt with when its dead letter reached the broker or an attempt of its own committed. Exact conditions: read from
  the beginning, or from where the session of the first landed commit started, every offset up to the committed one is
  dealt with exactly when every dead letter that is an offset's only trace reached the broker
  (`Redelivery.NoMessageLost`, `Redelivery.NothingLostOnceCommitted`); with any mix of policies that session must also
  not have started past an unhandled message (`Redelivery.NothingLostIff`).
- The same lines send malformed messages to the dead-letter topic. That holds exactly when `json.loads` raises nothing
  but a JSONDecodeError and returns an object, and the dead letter fits the producer's size limit
  (`Redelivery.MalformedDeadLetteredIff`). Any other error from it - a null message's TypeError, a UnicodeDecodeError,
  the plain ValueError of an integer with too many digits, a RecursionError - and the TypeError of unpacking what is
  not an object pass both `except` clauses; a letter too large, which escaping every non-ASCII character can make it,
  raises outside them. Each kills the process uncommitted. Inputs of all three kinds `Redelivery.FatalBlocksTopic`;
  such a message is never passed, `Redelivery.FatalNeverPassed`.
- `src/ingestion/consumer.py:80-83` describes the raw bucket as the raw layer of the stream. Commits run ahead of the
  micro-batches, so a killed session leaves committed events in no upload. Input `RawUploads.KillLosesRow`; each
  session without its last upload loses at most nine (`RawUploads.MissingBounded`), and none is missing exactly when
  every committed row a session left had been uploaded by an earlier one (`RawUploads.NoneMissingIff`).

## Model

| member | source | states |
|---|---|---|
| EntityGraph.RegisteredExtractorsYieldCliques | src/fraud_intel/graph/entity_graph.py:183-198 | the shape shared by the channel extractors always gives at least two entities and never one twice, so every event is a clique |
| EntityGraph.EntitiesCarried | src/fraud_intel/graph/entity_graph.py:183-198 | an event carries exactly its customer, its account, and its device, address and counterparty where the field is there and not empty |
| EntityGraph.PolicyLoadsIff | src/fraud_intel/graph/entity_graph.py:118-151 | which policies load: positive caps and limits, no negative weight, weights that sum to at most 1.000001 |
| EntityGraph.BuildEntityGraph | src/fraud_intel/graph/entity_graph.py:201-259 | future or boundary history is refused, naming its first event in (timestamp, id) order, and nothing else is; otherwise the nested loops build exactly the cliques of the greedy most-recent cut, and the reported counts are the adjacency's keys and records |
| EntityGraph.AccumulateRecent | src/fraud_intel/graph/entity_graph.py:231-250 | the accumulation loop keeps precisely the prefix the greedy cut describes, and its running edge total is the adjacency's |
| EntityGraph.AddClique | src/fraud_intel/graph/entity_graph.py:243-249 | the two index loops extend each entity's list by its clique records, touch no other list, and add n(n-1) records |
| GraphShape.EdgeIffSharedEvent | src/fraud_intel/graph/entity_graph.py:243-249 | a record is in the graph exactly when one kept event carries both of its ends |
| GraphShape.AdjacencySymmetric | src/fraud_intel/graph/entity_graph.py:243-249 | every record has its mirror image |
| GraphShape.KeepsLongestRecentSuffix | src/fraud_intel/graph/entity_graph.py:213-252 | the kept events are the longest most-recent run within the history, node and edge caps; `truncated` holds exactly when some event was left out |
| GraphShape.KeptAreNewest | src/fraud_intel/graph/entity_graph.py:220-242 | whatever is left out is older than everything kept, at one instant of a lower id |
| GraphShape.CapsRespected | src/fraud_intel/graph/entity_graph.py:238-242 | node and edge counts never exceed the policy's caps |
| GraphShape.GraphIgnoresInputOrder | src/fraud_intel/graph/entity_graph.py:220-220 | the graph does not depend on the order the history is handed in |
| GraphShape.UntruncatedKeepsAll | src/fraud_intel/graph/entity_graph.py:252-256 | an untruncated graph has lost no event |
| GraphSearch.ShortestPathToFraudLinked | src/fraud_intel/graph/entity_graph.py:277-301 | the search ends and returns the least number of hops of any walk to a linked entity, None exactly when there is no walk |
| GraphSearch.SearchLevels | src/fraud_intel/graph/entity_graph.py:285-301 | the level loop alone, for an unlinked start; visiting order within a level is arbitrary, so the result cannot depend on it |
| GraphSearch.StartLinked | src/fraud_intel/graph/entity_graph.py:283-284 | the distance is 0 exactly when the start is itself linked |
| GraphSearch.DistanceUnique | src/fraud_intel/graph/entity_graph.py:280-282 | there is only one right answer: the distance is determined by graph, start and linked set |
| GraphRisk.ValidateResolvedFraudEvidence | src/fraud_intel/graph/entity_graph.py:100-115 | refuses exactly when some evidence is not strictly earlier, naming the first such item; otherwise returns exactly the evidenced entities |
| GraphRisk.ComputeGraphRiskScore | src/fraud_intel/graph/entity_graph.py:304-324 | in any graph the score is the clipped sum of the four named weights, each times its own signal: the customers around the device, those around the recipient, the counterparties around the customer, each over its own cap and at most 1, and 1/(1 + d) at the true shortest distance |
| GraphRisk.RiskOfSharedEvents | src/fraud_intel/graph/entity_graph.py:262-324 | over the kept events, written out: the three counts are the customers and counterparties that share a kept event with the device, the recipient and the customer |
| GraphRisk.RawScoreBounds | src/fraud_intel/graph/entity_graph.py:145-150 | before clipping the score exceeds neither the sum of the weights nor 1.000001, and is never negative |
| GraphRisk.CountsReadSharedEvents | src/fraud_intel/graph/entity_graph.py:262-274 | the customers counted at a device or recipient, and the counterparties counted at a customer, are exactly those that share a kept event with it |
| GraphRisk.ScoreGrows | src/fraud_intel/graph/entity_graph.py:262-324 | more neighbours and more linked entities never lower the score |
| GraphRisk.ScoreGrowsWithHistory | src/fraud_intel/graph/entity_graph.py:201-324 | more history, with both graphs untruncated, never lowers the score |
| ColdStart.LoadAndValidateReport | src/fraud_intel/evaluation/cold_start.py:90-128 | accepts exactly the rows whose report parses, agrees with the row on eight written-out equalities and has the three splits; a mismatch lists each field exactly when its own equality fails, a missing split is named exactly when it is missing |
| ColdStart.EvaluateGate | src/fraud_intel/evaluation/cold_start.py:131-166 | passes exactly when train, calibration and test each list five rows of each class and the PR-AUC is above the test prevalence, and lists exactly the reasons that hold |
| ColdStart.GateReadsNoPromotionField | src/fraud_intel/evaluation/cold_start.py:77-128 | promoting a bundle cannot change its gate verdict |
| Bundles.BundleStore.RegisterCandidate | src/fraud_intel/models/bundle.py:221-237 | never raises the duplicate-version error; the new version is one more than the channel's number of bundles |
| Bundles.RegisterKeepsNumbering | src/fraud_intel/models/bundle.py:221-237 | ids count all rows and versions count their channel's rows, 1, 2, 3, ... without a gap |
| Bundles.VersionsDistinct | src/fraud_intel/models/bundle.py:210-237 | two rows never share a channel and a version; later rows have later versions |
| Bundles.BundleStore.PromoteLockedRows | src/fraud_intel/models/promotion.py:392-414 | re-reads under the lock; refuses and changes nothing, or swaps and returns the promoted row |
| Bundles.PromotedRecord | src/fraud_intel/models/promotion.py:392-414 | a successful swap turns exactly the expected CANDIDATE row OPERATIONAL, retires the channel's OPERATIONAL row, and leaves every other row alone |
| Promotion.FreshReadIsCurrent | src/fraud_intel/models/promotion.py:380-400 | uninterrupted, the record-equality check always holds: the lock succeeds exactly on a CANDIDATE |
| Promotion.PromotableMeans | src/fraud_intel/models/promotion.py:205-241 | in terms of the rows: the bundle of that channel and version is promotable exactly when its nine components are there, it verifies, is a CANDIDATE, and clears the gate unless a bundle of its channel is OPERATIONAL |
| Promotion.CheckAndPromote | src/fraud_intel/models/promotion.py:205-241 | uninterrupted, succeeds exactly for a complete, verified CANDIDATE that has cleared the gate or follows an OPERATIONAL bundle; otherwise refused with the first reason that applies |
| Promotion.PromoteBundle | src/fraud_intel/models/promotion.py:151-270 | one audit run is opened and ends SUCCESS exactly when the bundle was promoted, FAILED otherwise; blank arguments touch nothing |
| PromotionProtocol.AtMostOneOperational | src/fraud_intel/models/promotion.py:392-414 | after any interleaving of promoters and registrations each channel has at most one OPERATIONAL bundle |
| PromotionProtocol.FirstPromotionCleared | src/fraud_intel/models/promotion.py:205-241 | the first bundle ever made OPERATIONAL in a channel has, on the very record promoted, a report that agrees with its row field by field, five rows of each class in each split, and a PR-AUC above the base rate, although the look is outside the lock |
| PromotionProtocol.OperationalIsStable | src/fraud_intel/models/promotion.py:386-414 | a channel with an OPERATIONAL bundle never loses having one |
| PromotionProtocol.LockMeans | src/fraud_intel/models/promotion.py:386-414 | in every interleaving a successful lock makes its bundle OPERATIONAL with the promoter and time, retires whatever else was OPERATIONAL in the channel, and changes no other row; a refused one changes none |
| PromotionProtocol.LooksMean | src/fraud_intel/models/promotion.py:205-241 | what the two unlocked steps make of a promoter, and why they refuse it; neither touches a row |
| PromotionProtocol.OperationalIsLatest | src/fraud_intel/models/promotion.py:386-391 | the OPERATIONAL row is exactly the channel's latest promotion |
| PromotionProtocol.PromotedBundlesComplete | src/fraud_intel/models/promotion.py:205-211 | whatever ever left CANDIDATE has each of the nine components |
| PromotionProtocol.NoDoublePromotion | src/fraud_intel/models/promotion.py:392-414 | two promoters never both succeed with one bundle |
| PromotionProtocol.StepAdvancesRows | src/fraud_intel/models/promotion.py:392-414 | rows are only appended, statuses only move CANDIDATE to OPERATIONAL to RETIRED, and a row's evidence never changes |
| PromotionProtocol.Reachable | src/fraud_intel/models/promotion.py:205-241 | the protocol invariant holds after every sequence of actions |
| Runs.RunStore.CompareAndSet | src/control_plane/runs.py:150-171 | updates exactly when the row exists with an allowed status, and returns the row as written |
| Runs.RunLifecycle.Begin | src/control_plane/runs.py:227-258 | accepts exactly known names, the two starting statuses and known triggers, and adds one fresh row |
| Runs.RunLifecycle.Transition | src/control_plane/runs.py:388-402 | the new rows and the answer of an uninterrupted call, for each of the four lifecycle methods |
| Runs.CallMeans | src/control_plane/runs.py:263-402 | each call writes exactly when the run is there in a status it may leave, its own columns and no others; otherwise nothing changes, and the answer is the row if it has the target status, else the refusal |
| Runs.TableMeans | src/control_plane/runs.py:54-57 | the transition table pair by pair, and that each finaliser may leave exactly the statuses the table allows |
| Runs.FinaliseIsIdempotent | src/control_plane/runs.py:210-216 | repeating a finaliser with any arguments returns the first record and writes nothing |
| Runs.LoserIsRefused | src/control_plane/runs.py:388-402 | a finaliser that comes after a different one is refused and changes nothing |
| RunProtocol.TerminalRowsFrozen | src/control_plane/runs.py:54-57 | in every interleaving no field of a terminal row ever changes |
| RunProtocol.TerminalCallersAgree | src/control_plane/runs.py:263-313 | all callers that get a terminal record of one run get the same record, the stored one |
| RunProtocol.OneTerminalWrite | src/control_plane/runs.py:54-57 | a run receives exactly one terminal update once terminal and none before; every status write is in the table or is the heartbeat |
| RunProtocol.CompletedIffTerminal | src/control_plane/runs.py:263-373 | in every interleaving a run has a completion time exactly when its row is terminal |
| RunProtocol.StepAdvances | src/control_plane/runs.py:54-57 | one step moves a row only along the transition table and leaves its identity alone |
| RunProtocol.BeginMeans | src/control_plane/runs.py:227-258 | a begun run is one fresh row, PENDING or RUNNING as asked, with its arguments and nothing else |
| RunProtocol.ReadActsAtomically | src/control_plane/runs.py:388-402 | when the run existed at the missed update, the later read answers as the whole call would have at that moment |
| RunProtocol.ReadAgreesIff | src/control_plane/runs.py:388-402 | in every interleaving and for every call, the later read gives the uninterrupted call's answer exactly when the run existed at the miss, or the update would still miss, or it would rewrite the same heartbeat |
| RunProtocol.RefusedLegalMove | src/control_plane/runs.py:388-402 | a run created between the two steps makes the caller be refused a legal move |
| RunProtocol.UnwrittenHeartbeat | src/control_plane/runs.py:260-262 | a heartbeat for a run created between the two steps is reported as done with nothing written |
| AlertQueue.AlertQueueStore.CreateAlertIfNew | src/fraud_intel/alerts/queue.py:641-666 | one alert a source key, in both indexes; an existing alert is returned untouched |
| AlertQueue.AlertQueueStore.RecordEvidenceRow | src/fraud_intel/alerts/queue.py:668-678 | one evidence row an execution, in both indexes; an existing row is returned untouched |
| AlertQueue.AlertQueueStore.RecordDisposition | src/fraud_intel/alerts/queue.py:398-410 | refused exactly for an unknown or CLOSED alert; otherwise appends and moves the status in both indexes |
| AlertQueue.AlertQueueStore.GetLatestEvidence | src/fraud_intel/alerts/queue.py:683-687 | no row of the alert is later by (scored_at, evidence_id) |
| AlertQueue.ScoreAndRecordAlert | src/fraud_intel/alerts/queue.py:301-395 | alert and evidence are both stored whether scoring returns or raises, and the exception is re-raised |
| AlertQueue.CreateKeepsInv | src/fraud_intel/alerts/queue.py:641-666 | creating keeps both index pairs in agreement and every status equal to its disposition history |
| AlertQueue.RecordKeepsInv | src/fraud_intel/alerts/queue.py:668-678 | recording evidence keeps the same invariant |
| AlertQueue.DisposeKeepsInv | src/fraud_intel/alerts/queue.py:731-748 | disposing keeps the same invariant, including that a confirmed disposition is an alert's last |
| AlertRuns.OneAlertOneEvidence | src/fraud_intel/alerts/queue.py:301-395 | after an attempt, however it ends, its source key has exactly one alert and its execution exactly one evidence row |
| AlertRuns.FirstAttemptRecordsOutcome | src/fraud_intel/alerts/queue.py:333-395 | a source's first attempt opens its alert with the scored values, or with 1.0 and HIGH when scoring raised, and the evidence has a band and score exactly when scoring returned |
| AlertRuns.LaterAttemptAddsEvidence | src/fraud_intel/alerts/queue.py:325-395 | a later execution leaves every alert as it was and adds exactly its own evidence row |
| AlertRuns.OneAlertPerSource | src/fraud_intel/alerts/queue.py:641-666 | in every reachable queue alerts of one source system and source alert id are one alert |
| AlertRuns.RetryChangesNothing | src/fraud_intel/alerts/queue.py:324-332 | retrying an execution, whatever the second scoring says, leaves the store as it was |
| AlertRuns.PersistsNothingIff | src/fraud_intel/alerts/queue.py:319-385 | an attempt persists nothing exactly when its source has an alert and that alert this execution's evidence |
| AlertRuns.RaisingCallPersists | src/fraud_intel/alerts/queue.py:353-385 | into an empty queue a raising call persists one alert and one evidence row |
| AlertRuns.AlertsPersist | src/fraud_intel/alerts/queue.py:641-748 | first-scoring facts never change and CLOSED is never left |
| AlertRuns.EvidencePersists | src/fraud_intel/alerts/queue.py:668-678 | an evidence row is never changed or removed |
| AlertRuns.StatusIsLastDisposition | src/fraud_intel/alerts/queue.py:60-65 | status is OPEN or the image of the last disposition; CLOSED exactly when that one resolves the label |
| AlertRuns.StatusMeans | src/fraud_intel/alerts/queue.py:398-418 | written out: OPEN without a disposition, CLOSED exactly when the last one is CONFIRMED_FRAUD or CONFIRMED_LEGITIMATE, IN_REVIEW exactly when it is NEEDS_MORE_INFO or ESCALATED |
| AlertRuns.NothingAfterConfirmed | src/fraud_intel/alerts/queue.py:731-735 | no disposition ever follows a confirmed one |
| AlertRuns.IndexesAgree | src/fraud_intel/alerts/queue.py:631-678 | in every reachable queue both alert indexes hold the same alerts one-to-one, and both evidence indexes the same rows |
| Labels.AssessmentMeans | src/fraud_intel/labels/eligibility.py:86-145 | refused exactly when source and disposition do not go together; otherwise due at once or after fourteen days, mature exactly when due, eligible exactly when mature and resolved either way, with the reason that applies |
| Labels.AssessmentStore.Append | src/fraud_intel/labels/eligibility.py:310-320 | inserts exactly when the latest row says something different, and returns the row that now says it |
| Labels.LatestRowMeans | src/fraud_intel/labels/eligibility.py:322-326 | no row of the alert is later than its latest one, by time and then by id |
| Labels.AssessChannelLabels | src/fraud_intel/labels/eligibility.py:335-440 | a run succeeds exactly when every basis is well formed, its log is the fold of all assessments, and each counter counts the bases it is named after |
| LabelRuns.Reachable | src/fraud_intel/cli_data_access.py:826-848 | with the loader's choice of basis and a clock that does not run backwards, every row rests on a disposition of its alert or the synthetic label, in every interleaving of loads, appends and dispositions |
| LabelRuns.RowsSayLabels | src/fraud_intel/cli_data_access.py:826-848 | in every interleaving a row on disposition x says RESOLVED_FRAUD exactly when x is CONFIRMED_FRAUD, RESOLVED_LEGITIMATE exactly when x is CONFIRMED_LEGITIMATE, UNRESOLVED otherwise; a synthetic row says fraud exactly when the event is |
| LabelRuns.LatestDispositionMeans | src/fraud_intel/cli_data_access.py:800-848 | no disposition of the alert is later than the one the loader picks, by time and then by id |
| LabelRuns.NeverMatureEarly | src/fraud_intel/labels/eligibility.py:112-128 | in every interleaving no analyst row is mature before fourteen days after its disposition |
| LabelRuns.RowsBounded | src/fraud_intel/labels/eligibility.py:310-326 | in every interleaving, overlapping runs included, an alert with d dispositions and s stale appends has at most (1 + 2d)(1 + s) rows, counted as the allowance that `LabelRuns.AllowanceIsProduct` equates with that product |
| LabelRuns.ForwardIff | src/fraud_intel/labels/eligibility.py:376-402 | an alert's log moves forward exactly when none of its appends was behind its latest row |
| LabelRuns.SerialNeverStale | src/fraud_intel/labels/eligibility.py:376-402 | runs that do not overlap never append behind the log, wherever dispositions land in them |
| LabelRuns.SerialRowsBounded | src/fraud_intel/labels/eligibility.py:310-326 | however often assessment is rerun, one run after the other, an alert with d dispositions has at most 1 + 2d rows |
| LabelRuns.EligibilityStays | src/fraud_intel/labels/eligibility.py:86-145 | without stale appends only a newer disposition can follow an eligible row: for a fixed basis eligibility is never lost |
| LabelRuns.EligibleIsFinal | src/fraud_intel/labels/eligibility.py:353-402 | dispositions being refused for a closed alert, without stale appends a row that is eligible on an analyst's disposition is its alert's last row for good |
| LabelRuns.EligibilityKeptIff | src/fraud_intel/labels/eligibility.py:86-145 | in every interleaving eligibility is kept for a fixed basis exactly when no run appends, with a `now` before maturity, on a disposition the log holds an eligible row on |
| LabelRuns.NeighboursDiffer | src/fraud_intel/labels/eligibility.py:310-320 | consecutive rows of one alert never say the same thing, overlapping runs or not |
| LabelRuns.LogOnlyGrows | src/fraud_intel/labels/eligibility.py:304-308 | the log is append-only |
| LabelRuns.UninterruptedRun | src/fraud_intel/labels/eligibility.py:376-402 | a loaded run's appends one after the other are exactly what `Labels.AssessChannelLabels` appends for its bases |
| LabelOverlap.OverlapRepeatsRows | src/fraud_intel/labels/eligibility.py:376-402 | overlapping runs give an alert with one disposition four rows |
| LabelOverlap.OverlapLosesEligibility | src/fraud_intel/labels/eligibility.py:376-402 | overlapping runs append a row that is not eligible after an eligible one on the same disposition |
| Dispatch.OneScored | src/fraud_intel/scoring/dispatch.py:342-347 | an attempt takes exactly its own alert off the pending set, degraded or not |
| Dispatch.PendingMeans | src/fraud_intel/scoring/dispatch.py:342-347 | an item is pending exactly when no evidence row of an alert of its source system and id carries the bundle |
| Dispatch.BatchIsOldest | src/fraud_intel/scoring/dispatch.py:348-351 | a batch lists the oldest pending items, each once, up to 500 |
| Dispatch.ScoringRecords | src/fraud_intel/scoring/dispatch.py:520-559 | scoring an item records, for its own alert and execution, the bundle and what scoring found |
| Dispatch.BatchScored | src/fraud_intel/scoring/dispatch.py:520-559 | a run takes exactly its batch off the pending set |
| Dispatch.BatchShrinks | src/fraud_intel/scoring/dispatch.py:342-351 | a run leaves max(0, n - 500) of n pending alerts |
| Dispatch.RunsDrainPending | src/fraud_intel/scoring/dispatch.py:342-351 | k runs leave max(0, n - 500k): the set is empty after n/500 runs, rounded up |
| Dispatch.NeverRescored | src/fraud_intel/scoring/dispatch.py:342-351 | with one bundle no later run picks an alert an earlier run scored |
| DispatchOverlap.OneRowIff | src/fraud_intel/scoring/dispatch.py:311-351 | over every interleaving of overlapping runs: if no run lists an alert that another has listed and not yet scored, each pending alert gets at most one evidence row of the bundle; with nothing left in flight, exactly then |
| DispatchOverlap.ListedOnceIff | src/fraud_intel/scoring/dispatch.py:311-351 | at every moment no alert has been put into two batches exactly when every list so far was of that kind |
| DispatchOverlap.RowPerScoring | src/fraud_intel/scoring/dispatch.py:520-559 | a pending alert has exactly as many evidence rows of the bundle as it was scored times, by whichever runs |
| DispatchOverlap.RescoredInOpenWindow | src/fraud_intel/scoring/dispatch.py:520-559 | two scorings of one alert are by different runs, and the later run had listed it before the earlier one scored it |
| DispatchOverlap.OverlapScoresTwice | src/fraud_intel/scoring/dispatch.py:520-559 | two runs list one pending alert before either scores it: it gets two evidence rows of one bundle |
| Dispatch.ScoreItems | src/fraud_intel/scoring/dispatch.py:520-559 | the loop stores every attempt, counts the scored ones, processed + rejected is the number pending, and each summary reports the band of this run's own evidence, not the alert's first band |
| Dispatch.ScoreChannel | src/fraud_intel/scoring/dispatch.py:480-594 | a structural failure touches no alert and fails the run; otherwise exactly the batch the pending query may return leaves the pending set, and the run records the loop's counts |
| Splits.GroupStartIndices | src/common/splits.py:63-73 | 0, every position where a new timestamp begins, and the length |
| Splits.AssignChronologicalSplit | src/common/splits.py:94-178 | the labelled frame, or the first of the source's errors that applies |
| Splits.SucceedsIff | src/common/splits.py:120-178 | the split succeeds exactly with the rows outside the gaps around two group starts, no partition empty |
| SplitFacts.SortedIsTimeOrdered | src/common/splits.py:127-129 | the sorted frame is in time order and has the same rows |
| SplitFacts.PartitionsSeparated | src/common/splits.py:151-172 | neighbouring partitions are more than 2 gaps apart, training and test more than 4 |
| SplitFacts.SurvivesIffNotNear | src/common/splits.py:155-170 | a row survives exactly when it is outside the gap of both boundaries, from one gap before up to but not including one gap after |
| SplitFacts.GroupsStayTogether | src/common/splits.py:104-107 | rows that share a survivor's timestamp survive with its label |
| SplitFacts.NothingLost | src/common/splits.py:155-172 | every row occurs among survivors and purged rows exactly as often as in the input |
| SplitFacts.CutsAreRounded | src/common/splits.py:140-150 | the raw cuts are n times the training fraction, and n times the first two fractions, each rounded to within a half, halves to even |
| SplitFacts.SplitMeans | src/common/splits.py:139-170 | a successful split cuts at the group start nearest to the first raw cut and at the later one nearest to the second, and each row is where its time puts it: purged from a gap before to a gap after a boundary, else before, between or after |
| SplitFacts.BoundariesNearFractions | src/common/splits.py:76-80 | the first boundary is within the largest group and a half of n times the training fraction, the second within two largest groups and a half of n times the first two, plus what a cut overshoots n |
| SplitFacts.BoundariesNearCuts | src/common/splits.py:76-80 | with no timestamp occurring more than G times, the boundaries are within G and 2G positions of the raw cuts, plus any overshoot |
| SplitFacts.ErrorsMean | src/common/splits.py:112-149 | which error, in the order the code looks: empty frame, fractions off by more than a millionth, a negative one, a single timestamp group |
| SplitFacts.PartitionErrorsMean | src/common/splits.py:172-178 | with both boundaries placed, refused exactly for purging every row or for an empty partition, naming the first one |
| SplitFacts.NoSecondBoundaryIff | src/common/splits.py:142-149 | the split is refused for want of a second boundary exactly when there are two groups or twice the first raw cut exceeds the sum of the last two inner group starts |
| SplitFacts.ThreeGroupsRefused | src/common/splits.py:142-149 | a frame with three timestamp groups that is refused |
| Calibration.GuardIsExact | src/fraud_intel/models/calibration.py:49-81 | fitting runs exactly on calibration rows, and its second check can never fire |
| Calibration.SplitManifestIsSound | src/fraud_intel/models/training.py:291-296 | the manifest built from a split always passes its own disjointness validation and covers every id |
| Calibration.ManifestMeans | src/fraud_intel/models/training.py:291-296 | train, calibration and test hold the ids with that label, purge the input ids without any |
| Calibration.GuardMeans | src/fraud_intel/models/calibration.py:49-81 | for any manifest: the length check, exactly which supplied ids are reported as outside calibration, and exactly which as forbidden |
| Calibration.FractionsAddUp | src/common/splits.py:83-91 | the realised fractions of a split sum to one |
| Calibration.FractionMeans | src/common/splits.py:83-91 | a realised fraction is the share of the rows with that label |
| History.SelectHistoricalEvents | src/fraud_intel/features/history.py:52-87 | the result is the `limit` greatest qualifying events, greatest first |
| History.SelectHistoricalAlerts | src/fraud_intel/features/history.py:90-115 | the same for source alerts, owned through their events |
| History.EventSelectionMeans | src/fraud_intel/features/history.py:52-87 | written out: the newest of the customer's strictly earlier events other than the excluded one, newest first, ties by the higher id |
| History.AlertSelectionMeans | src/fraud_intel/features/history.py:90-115 | the same for alerts whose event is known as the customer's |
| History.ScoringPoolsMean | src/fraud_intel/scoring/dispatch.py:365-432 | what scoring's own queries let through |
| History.SelectionReadsQualifyingOnly | src/fraud_intel/features/history.py:52-87 | pools with the same qualifying rows, in any order and with any extra rows, select the same events |
| History.SelectionIsMostRecent | src/fraud_intel/features/history.py:52-87 | a qualifying event is left out only when the limit is full of events at least as recent |
| History.SmallerLimitIsPrefix | src/fraud_intel/features/history.py:52-87 | a smaller limit selects a prefix |
| History.TrainingAndScoringSelectSameEvents | src/fraud_intel/models/training.py:127-150 | the whole training pool and the pre-filtered scoring pool select identical events |
| History.AlertSelectionsAgreeIff | src/fraud_intel/scoring/dispatch.py:390-432 | they select identical alerts exactly when every qualifying alert that precedes its own event has at least `limit` qualifying alerts above it |
| History.EarlyAlertDisagrees | src/fraud_intel/scoring/dispatch.py:390-432 | one event and one alert raised before it, with another event scored in between: training selects the alert, scoring nothing |
| History.TimelyAlertsAgree | src/fraud_intel/scoring/dispatch.py:390-432 | in particular whenever every alert is created at or after its event |
| History.SelectionsValidate | src/fraud_intel/features/core.py:101-133 | what is selected always passes the feature context's validator |
| History.ContextMeans | src/fraud_intel/features/core.py:101-133 | a context is built exactly as of its event, from strictly earlier other events and strictly earlier alerts, and unchanged; an error names an offender |
| Velocity.OnlineStore.RecordEvent | src/common/feature_store.py:82-107 | appends unless the transaction id is already stored |
| Velocity.OnlineStore.FetchRecentEvents | src/common/feature_store.py:53-79 | the customer's rows of the lookback, strictly earlier, in time order |
| Velocity.ScoreStream | src/common/scoring.py:46-109 | each delivery is counted against the store as it then is and recorded after |
| Velocity.EnrichCustomer | src/processing/enrich.py:65-93 | each row is counted against all its customer's earlier rows and strictly earlier failures |
| Velocity.SortKeepsCount | src/common/features.py:136-144 | the counts do not depend on the order rows are fetched in |
| Velocity.CountsNest | src/common/features.py:139-141 | counts over nested windows nest |
| VelocityParity.BatchAgainstOnline | src/common/features.py:136-144 | in any order of arrival, for any windows up to the lookback and whatever rows the store held before the stream: each success count of batch plus what the store held equals the online count plus the ties before the row plus the earlier rows in that window that arrived after it; for the failed count, plus the file's failed attempts in the window |
| VelocityParity.ParityIff | src/common/feature_store.py:24-68 | with any failed attempts in the store, batch and online agree on a row exactly when no tie precedes it in the batch, no earlier row of its customer within a window arrives after it, and file and store hold equally many failed attempts of the customer in the window |
| VelocityParity.ParityAsRunIff | src/common/feature_store.py:24-68 | with the store the code leaves: exactly when there is no such tie, no such late row, and no failed attempt of the customer in the window |
| VelocityParity.NoFailureOnline | src/common/scoring.py:100-109 | whatever is delivered, in any order and however often, the online failed count is zero |
| VelocityParity.OnlineCountsMean | src/common/feature_store.py:53-79 | after any distinct deliveries the online counts are the strictly earlier ones of the customer in each window |
| VelocityParity.WindowEdges | src/common/features.py:136-144 | one earlier transaction counts up to exactly ten minutes, an hour and a day back |
| VelocityParity.FailuresCountedInBatchOnly | src/processing/enrich.py:77-79 | the batch failed count is the file's number of failed attempts in the window, where the online one is zero |
| VelocityParity.FailureMissed | src/processing/enrich.py:77-79 | one failed attempt ten minutes before the only transaction, without tie or late row: batch counts it, online does not |
| VelocityParity.TieCountedOnce | src/processing/enrich.py:65-93 | two rows of one customer at one instant: batch counts one, online none |
| VelocityParity.LateArrivalMissed | src/processing/enrich.py:65-93 | a row that arrives a minute late: batch counts it for the row it should have preceded, online does not |
| VelocityParity.EnrichedRowMatchesIff | src/processing/enrich.py:65-93 | an enriched row carries the counts the online stream computed for it exactly when it has no tie before it, no late arrival after it, and file and store hold equally many failed attempts in the window |
| VelocityParity.OrderedStreamAgreesIff | src/processing/enrich.py:65-93 | in particular on a stream delivered in time order with distinct timestamps per customer, exactly where file and store hold equally many failed attempts in the window |
| VelocityParity.RescoringAdds | src/common/feature_store.py:53-68 | scoring a transaction again after any later deliveries, in any order and with redeliveries, adds exactly the counts over the rows recorded since, so it gives the first counts exactly when those are zero |
| VelocityParity.LateArrivalChangesRescoring | src/common/feature_store.py:53-68 | one late arrival changes what scoring the earlier arrival again counts |
| VelocityParity.RescoringIsStable | src/common/feature_store.py:53-68 | in a stream delivered in time order, scoring a transaction again gives its first counts |
| Ranking.ResolvesToReviewSize | src/fraud_intel/evaluation/capacity.py:39-48 | a count reviews that many or all there are, a fraction the least number that covers it, at least one and at most all |
| Ranking.ReviewSizeUnique | src/fraud_intel/evaluation/capacity.py:39-48 | a capacity and a population have only one review size |
| Ranking.FractionIsCovered | src/fraud_intel/evaluation/capacity.py:48-48 | the count is the least that covers the fraction |
| Ranking.RankIgnoresOrder | src/fraud_intel/evaluation/cross_channel.py:157-163 | two listings of the same alerts rank the same |
| Ranking.RankedByScore | src/fraud_intel/evaluation/cross_channel.py:157-163 | scores descend along the ranking, ties by event time and then by id |
| Ranking.ReviewedAreTop | src/fraud_intel/evaluation/cross_channel.py:157-163 | whoever a review of the first k leaves out scores less than each reviewed alert, or as much but later |
| Ranking.RankKeepsFraud | src/fraud_intel/evaluation/cross_channel.py:157-163 | ranking keeps the number of fraud rows |
| Ranking.MinimumAlertsForRecallTarget | src/fraud_intel/evaluation/shadow_candidate.py:193-200 | the least ranked prefix meeting the target, None exactly when no prefix does |
| Ranking.TargetIsReachable | src/fraud_intel/evaluation/cross_channel.py:264-284 | with some fraud and a target of at most 1 the unreachable branch never runs |
| Ranking.ReachesTargetIff | src/fraud_intel/evaluation/cross_channel.py:238-278 | reviewing k alerts reaches the target exactly when k is at least the minimum |
| Evaluation.PerBandCounts | src/fraud_intel/evaluation/cross_channel.py:229-236 | alerts and fraud of each of the three bands |
| Evaluation.CellsAgreeWithBands | src/fraud_intel/evaluation/cross_channel.py:200-236 | the four cells partition the outcomes and equal the sums of the per-band counts |
| Evaluation.EvaluateChannel | src/fraud_intel/evaluation/cross_channel.py:172-354 | every count and rate of the result, with the reason wherever a rate cannot be computed; refused exactly for a bad recall target |
| Evaluation.RatesMean | src/fraud_intel/evaluation/cross_channel.py:200-330 | on two-class input precision, recall, accuracy, both rates at capacity, the baseline's, the workload and false-positive reductions are the quotients their names say |
| Evaluation.OneClassMeans | src/fraud_intel/evaluation/cross_channel.py:192-330 | on empty or one-class input, which values there are and why the others cannot be computed |
| Evaluation.ReviewTakesBest | src/fraud_intel/evaluation/cross_channel.py:157-163 | the model's review takes the best scores, the baseline's the best rules-only scores |
| Evaluation.RankedAreOutcomes | src/fraud_intel/evaluation/cross_channel.py:187-190 | what is ranked are the outcomes, each by its own score |
| Evaluation.ConfusionMatchesBands | src/fraud_intel/evaluation/cross_channel.py:200-236 | on two-class input the reported cells add up to the totals and can be read off the reported per-band counts |
| Evaluation.CapacitySufficesIff | src/fraud_intel/evaluation/cross_channel.py:238-278 | `alerts_reviewed` is at least the minimum exactly when recall@capacity meets the target |
| Evaluation.ReviewIgnoresOrder | src/fraud_intel/evaluation/cross_channel.py:187-190 | the review's results do not depend on the order of the outcomes |
| Shadow.MatchedPairs | src/fraud_intel/evaluation/shadow_candidate.py:296-303 | every alert both sides scored, once, in an arbitrary order |
| Shadow.ScalarMetrics | src/fraud_intel/evaluation/shadow_candidate.py:203-262 | one side's review and rates |
| Shadow.MigrationCounts | src/fraud_intel/evaluation/shadow_candidate.py:334-337 | the nested counters hold each band-to-band count |
| Shadow.CompareOperationalVsCandidate | src/fraud_intel/evaluation/shadow_candidate.py:275-379 | the whole comparison over the matched alerts; refused exactly for a bad target or a wrong channel |
| Shadow.SidesReviewSize | src/fraud_intel/evaluation/shadow_candidate.py:229-235 | each side reviews as many alerts as the capacity says |
| Shadow.SidesReviewBest | src/fraud_intel/evaluation/shadow_candidate.py:229-235 | each side reviews the matched alerts its own score ranks highest |
| Shadow.GainedLessLost | src/fraud_intel/evaluation/shadow_candidate.py:360-365 | gained - lost = captured by the candidate - captured by the operational bundle |
| Shadow.DisagreementFromOverlap | src/fraud_intel/evaluation/shadow_candidate.py:350-358 | both sides review the same k, between 1 and all, and with overlap i the disagreement is 1 - i/(2k - i) |
| Shadow.MigrationCoversMatched | src/fraud_intel/evaluation/shadow_candidate.py:334-337 | the migration cells add up to the matched alerts |
| Shadow.ComparisonIgnoresOrder | src/fraud_intel/evaluation/shadow_candidate.py:298-303 | iterating the id set in another order changes no count, reviewed set or delta |
| Shadow.DeltasComputableIff | src/fraud_intel/evaluation/shadow_candidate.py:265-272 | the deltas are computable exactly when the matched alerts hold both classes |
| Shadow.DeltasAreNetGain | src/fraud_intel/evaluation/shadow_candidate.py:237-272 | on two-class input the precision and recall deltas are (gained - lost) over the reviews and over all fraud |
| Shadow.WorkloadDeltaMeans | src/fraud_intel/evaluation/shadow_candidate.py:244-272 | the workload delta is the difference of the two minimum review volumes over the population |
| Shadow.SelfComparisonIsNeutral | src/fraud_intel/evaluation/shadow_candidate.py:275-365 | a population compared with itself has zero deltas wherever computable, nothing gained or lost, and no disagreement |
| Drift.BucketProportions | src/fraud_intel/monitoring/drift.py:104-113 | the nested loops count each score in the first bucket that takes it |
| Drift.LandsSomewhere | src/fraud_intel/monitoring/drift.py:106-111 | between ascending edges a score is in exactly one bucket |
| Drift.EveryScoreCounted | src/fraud_intel/monitoring/drift.py:104-113 | the bucket counts add up to the number of scores |
| Drift.ProportionsAreDistribution | src/fraud_intel/monitoring/drift.py:112-113 | the proportions of a non-empty window are non-negative and sum to one |
| Drift.ProportionMeans | src/fraud_intel/monitoring/drift.py:104-113 | the i-th of n proportions is the share of the scores from i/n up to (i + 1)/n, the last bucket including 1 |
| Drift.ComputeScoreDistributionDrift | src/fraud_intel/monitoring/drift.py:116-145 | refused exactly below one bucket, not computable exactly for an empty window, otherwise the distance of two distributions |
| Drift.DistanceBounds | src/fraud_intel/monitoring/drift.py:133-136 | the distance lies in [0, 1] and is 0 exactly for equal proportions |
| Drift.DistanceSymmetric | src/fraud_intel/monitoring/drift.py:133-136 | the distance is symmetric |
| Drift.DistanceTriangle | src/fraud_intel/monitoring/drift.py:133-136 | the distance obeys the triangle inequality |
| Drift.DistanceIsLargestGap | src/fraud_intel/monitoring/drift.py:133-136 | the distance bounds the probability gap on every set of buckets, and one set attains it |
| Consumer.Database.ScoreAndPersist | src/common/scoring.py:68-109 | the four inserts of one transaction, each skipped when the id is there |
| Consumer.ScoreWithRetry | src/ingestion/consumer.py:51-60 | at most five attempts, stopping at the first success; what failed attempts committed stays |
| Consumer.CommittedMeans | src/ingestion/consumer.py:51-60 | the writes are exactly those of the attempts that commit, up to the first success |
| Consumer.DeliveryMeans | src/ingestion/consumer.py:206-251 | from what loading and the schema say and the first five attempts: which deliveries are buffered, dead-lettered, survived, and which messages are fatal |
| Consumer.RawEventBuffer.Add | src/ingestion/consumer.py:90-93 | uploaded plus buffered rows grow by exactly the event; a full batch is uploaded and a failed upload keeps it |
| Consumer.RawEventBuffer.Flush | src/ingestion/consumer.py:95-105 | uploaded plus buffered rows stay the same, and success empties the buffer |
| Consumer.StreamConsumer.HandleMessage | src/ingestion/consumer.py:206-269 | one turn restores the loop-head state exactly when nothing kills the process; killed, it has committed nothing and left exactly the writes, rows and dead letters of the deliveries so far |
| Consumer.StreamConsumer.Poll | src/ingestion/consumer.py:196-269 | at every loop head commits = processed + rejected, dead letters = rejected, and uploaded plus buffered rows are the processed payloads in order, fewer than ten buffered |
| Consumer.StreamConsumer.Conclude | src/ingestion/consumer.py:276-301 | an error records FAILED before the last upload; otherwise SUCCESS is recorded exactly when no raw row is left, and a failed last upload leaves the run RUNNING with its rows |
| Consumer.StreamConsumer.RunSession | src/ingestion/consumer.py:130-305 | a whole session with its run record, however it ends: an error while the model loads, in a delivery or at the poll gives FAILED; the duration, or Ctrl+C in the poll loop, even in the middle of a delivery, gives SUCCESS exactly when no raw row is left behind; a kill, or Ctrl+C while the model loads, leaves it RUNNING; and how many raw rows stay buffered |
| Consumer.IdsStayTogether | src/common/scoring.py:68-109 | the four tables always hold the same transaction ids |
| Consumer.FirstWriteWins | src/common/scoring.py:66-109 | over any history of deliveries all four rows of an id come from its first committed attempt |
| Consumer.RedeliveryChangesNothing | src/common/scoring.py:66-67 | redelivering persisted transactions changes no table |
| Redelivery.SessionLeaves | src/ingestion/consumer.py:196-269 | a finished session call is one session of the crash and redelivery machine: the same handled deliveries, the same tables, and its dead letters are, in order, the messages at the offsets the machine records as sent |
| Redelivery.LostOnlyByLetter | src/ingestion/consumer.py:206-251 | under either reset policy, whatever crashes, lost commits and redeliveries happen: an offset from the start of the session that first landed a commit up to the committed one has a stored attempt or an arrived dead letter, unless a dead letter was its only trace and got lost |
| Redelivery.NothingLostOnceCommitted | src/ingestion/consumer.py:206-251 | so every offset there is dealt with exactly when every dead letter that is an offset's only trace reached the broker |
| Redelivery.NoMessageLost | src/ingestion/consumer.py:175-184 | read from the beginning, every offset up to the committed one is dealt with exactly when every dead letter that is an offset's only trace reached the broker |
| Redelivery.DealtIsSettled | src/ingestion/consumer.py:206-251 | what is dealt with is in the dead-letter topic or its transaction is in the tables, for good |
| Redelivery.NothingLostIff | src/ingestion/consumer.py:175-184 | with any mix of policies, every message from a given start on is dealt with exactly when the session that first landed a commit did not start past the first message not yet dealt with, and every dead letter that is the only trace of an offset from there to the committed one reached the broker |
| Redelivery.LatestSkipsMessage | src/ingestion/consumer.py:175-184 | under "latest", a process that dies before its first commit: the next one commits past a message that was never stored or dead-lettered |
| Redelivery.LostDeadLetter | src/ingestion/consumer.py:75-76 | read from the beginning, one rejected message whose commit lands and whose queued dead letter does not leave the process: it is neither stored nor dead-lettered |
| Redelivery.MalformedDeadLetteredIff | src/ingestion/consumer.py:69-76 | a malformed message that nothing interrupts is sent to the dead-letter topic exactly when loading it raises nothing but a JSONDecodeError and returns an object, and its dead letter fits |
| Redelivery.FatalBlocksTopic | src/ingestion/consumer.py:206-224 | a malformed message of any of the three other kinds: the process dies, nothing is dead-lettered or committed, and the next process meets it again |
| Redelivery.FatalNeverPassed | src/ingestion/consumer.py:206-224 | a fatal message is never dealt with, and a committed offset that rests at or before it never passes it |
| Redelivery.DeadLettersAreRejects | src/ingestion/consumer.py:209-248 | only malformed messages and exhausted retries are dead-lettered |
| RawUploads.SessionUploads | src/ingestion/consumer.py:84-105 | a finished session call has uploaded exactly the transactions at the offsets recorded as uploaded, in order |
| RawUploads.MissingBounded | src/ingestion/consumer.py:250-252 | over all sessions, the committed events that no upload holds number at most nine for each session that ended without its last upload |
| RawUploads.NoneMissingIff | src/ingestion/consumer.py:250-293 | no committed event is missing exactly when every committed row that a session left buffered had been uploaded by an earlier session |
| RawUploads.KillLosesRow | src/ingestion/consumer.py:250-252 | one event processed and committed by a session that is then killed: no upload ever holds it |

## Left out

- Postgres, MLflow, Kafka, MinIO, YAML, the command line, the API, the dashboard and logging: I/O and wrappers. A store call under a row lock or advisory lock is one atomic action.
- scikit-learn and XGBoost results (PR-AUC, ROC-AUC, Brier, isotonic fitting, anomaly scores): not computed here. The PR-AUC the gate reads is a field of the report.
- Float rounding: scores, weights, fractions and edges are reals. The raw split cuts use Python's round-half-even on reals.
- Text handling: redaction, truncation and report parsing. A report reference either parses to a report or does not.
- Component verification at promotion (`src/fraud_intel/models/promotion.py:50-138`): a parameter that answers yes or no.
- The scoring orchestrator and ensemble policy: a scoring call either returns a score and band or raises.
- Per-channel event payloads and feature adapters: the extractors share one shape with a counterparty kind; device, address and counterparty fields are optional strings.
- The Postgres `register_candidate`: its return value omits four policy columns; the in-memory store is modelled.
- Listing operations (`list_alerts_with_current_state`, `list_dispositions`, run listing): filters and sorts that would only add easy members.
- Dispositions outside the four known ones and statuses chosen by a direct store call: the type rules the first out, and only `record_disposition` is modelled.
- A store that fails midway through `score_and_record_alert`: the store does not fail here.
- Deferred labels: EXTERNAL_CONFIRMATION bases come from no loader in the repository, so runs have only synthetic and analyst bases; the assessment itself covers all three.
- `compute_alert_volume_drift`, score means, score-difference mean and deviation, channel summaries, the amount, device, country and night features: single expressions that would only add easy members.
- Sorting the failed-attempt list in batch enrichment: the counts do not depend on its order.
- Several partitions of one topic, consumer-group rebalancing and log retention: one partition that keeps everything.
- Stamps that Postgres takes at a transaction's start, before the lock (`infrastructure/postgres/migrations/004_fraud_alerts_evidence_and_lifecycle.sql:121-131`): the label theorems are about stamps taken under the lock, as the in-memory stores take them, so in the order of the appends.
- The last flush of the dead-letter producer (`src/ingestion/consumer.py:292-293`): its result is ignored and it can be skipped, so it promises nothing; which letters arrive is a parameter of each session.
- The bytes of a message: what `json.loads` and the schema make of them is a parameter, step by step.
- The audit run that `assess_channel_labels` opens and closes: only its log and counters are modelled.
- Heartbeats inside the consumer loop: best effort by design, and they affect no message.
- Shadow.ComparisonIgnoresOrder: does not cover PR-AUC, Brier, or the score-difference statistics, which are not modelled.
- GraphSearch.SearchLevels: does not fix the sorted visiting order of the source; it proves the result for every order.
- Ranking.ResolveCapacityCount: takes a population size, so the source's branch for a negative size is not reachable here.
