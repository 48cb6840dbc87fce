# Verified models of the runtime experiments

This project models the experiment code of the repository in Dafny and proves what
its documentation and tests rely on, for every input, every run or every reachable
state. It has six parts.

**Statistics and populations.** The nearest-rank statistic is characterised by counts
(`OrderStatistics`), which carries permutation invariance and pointwise dominance
through sorting. On it rests the block bootstrap (`Bootstrap`): the histogram scan is
proved equal to sorting the concatenated resample and indexing. `Population` models the
validator of recorded samples; `Batches`, `Comparisons` and `PopulationBatches` model the
grouping code and prove it total on every accepted population, and `BatchMeaning` says what
each number is in terms of the samples' own fields.

**Bounded-concurrency runtime.** `LaneProtocol` is an interleaved step system of N lane
threads, their queues and the release barrier; `LaneTheorems` holds what every
interleaving guarantees, and `LaneBatches` carries it over to the executor's batches. `FixedSchedule`, `RunRecords`, `RecordedExecutor`,
`RunValidation`, `RunVerdict`, `RunTheorems` and `RunConservation` model the schedule
generator, the executor that numbers records as it goes and the independent validator
that derives the numbering again; the two are proved to agree for every level order and
every behaviour of the lanes. `Reconciliation` is the comparison of observed records with
a plan that both validators share. `InvocationIdentities` and `SmokeRun` model the smoke
executor. `CohortAggregation`, `BatchRates` and `DescriptiveStatistics` model aggregation.
`RunMeaning` and `AggregateMeaning` say what the records of a run and its aggregates mean
without naming the functions that build them.

**Strategy comparison.** `StrategySchedule`, `StrategyRun`, `StrategyValidation`,
`StrategyPairs` and `StrategyTheorems` model the parameterised schedule, the walk that
takes one or two plans at a time, the validator and the matched-pair report.

**Publication.** `Publication` is a step system of any number of writers, each of whose
calls may fail and whose process may stop anywhere. `EvidenceJson`, `EvidenceFiles` and
`CanonicalEvidence` model the files: closed JSON objects, newline framing, and a reader
that validates and recomputes everything. `EvidenceDecoding` and `EvidenceReading` say what the
reader accepts of any files whatever. `CanonicalAcceptance` says exactly what the writer
accepts, and `ExecutedEvidence` carries that back to what the executor's lanes delivered. The
reading back is proved for every printer and parser that invert on values whose numbers are
quotients of integers; `EvidencePrinting` proves that every emitted value is one, and
`JsonFields`, `JsonText` and `JsonPrinter` prove that JSON text is such a printing.

**Counterbalanced and stop-at-first-invalid schedules.** `Counterbalancing` proves the
rotation schedule a Latin square; `ReadLifecycle` proves that stopping at the first
invalid sample agrees with validating the whole run.

**Authority composition.** `AuthorityModel`, `AuthoritySystem`, `AuthorityReceipts` and
`AuthoritySimulation` model the append-only inventory store, the promotion paths and the
evidence, with safety over whole runs, inventory against receipts, and a simulation between
the governed and the unchecked path.

Shared helpers are in `Wrappers`, `Sequences`, `Ordering`, `Grouping` and `Rationals`. All files are
verified together: `dafny verify dfyconfig.toml`.

Where a fixed constant of the code does not matter to a property it is a parameter: worker
levels and their order, batch counts, rounds, repetitions, blocks, cells. Random shuffles
and draws are arbitrary permutations or choices, the clock an arbitrary sequence of
readings, a writer call an arbitrary outcome of its typed result space.

Four properties turned out narrower than a reader might expect, and are stated exactly:

- The closed-form sample count is the number of coordinates only when scenario names are
  distinct and counts positive, or the schedule is degenerate (`ClosedFormIsUniverseSize`).
- A writer that reports failure may nevertheless leave its directory published, exactly
  when it raised while renaming back, while unlocking or closing after publishing, or while
  reading back (`FailureLeavesNothing`, `FailurePublishedIffRaised`); such executions exist from every initial state
  (`FailureCanStayPublished`).
- A completed run with no levels or no recorded batches is not VALID: there is no record to
  take a run id from (`CompletedRunVerdict`).
- A confirmation is never consumed: submitting the same candidate and evidence again is
  accepted again (`ResubmissionIsAccepted`), so inventory can exceed what was received
  (`ReuseOverstates`, `TenBecomeTwenty`). Each confirmation, or receipt, backs at most one
  accepted fact exactly when no submission is made that would be accepted on one relied on
  before, which can be checked against the history beforehand (`DistinctIffNeverReused`);
  then inventory never exceeds receipts (`InventoryWithinObservations`,
  `InventoryWithinReceipts`).

## Model

| member | source | states |
|---|---|---|
| `OrderStatistics.NearestRankIsKth` | experiments/stage4b5/runtime_governance_overhead.py:674-683 | the value returned is the k-th smallest for the rank the percentile gives: fewer than k values lie below it and at least k do not exceed it |
| `OrderStatistics.NearestRankIsQuantile` | experiments/stage4b5/runtime_governance_overhead.py:674-683 | for any percentile the value returned is the least of the values that at least that share of the list does not exceed, and each refusal happens exactly for an empty list or a percentile outside (0, 100] |
| `OrderStatistics.NearestRankMedian` | experiments/stage4b5/runtime_governance_overhead.py:674-683 | at the 50th percentile it is the value with fewer than (n + 1) / 2 values below and at least as many not above |
| `OrderStatistics.RankInRange` | experiments/stage4b5/runtime_governance_overhead.py:674-683 | every percentile in (0, 100] of a non-empty list gives a rank between 1 and the length, so indexing never fails |
| `OrderStatistics.MedianRank` | experiments/stage4b5/runtime_governance_overhead.py:674-683 | the rank of the 50th percentile of n values is (n + 1) / 2, rounded down |
| `OrderStatistics.NearestRankPermutation` | experiments/stage4b5/runtime_governance_overhead.py:674-683 | the order of the values is irrelevant |
| `OrderStatistics.NearestRankDominance` | experiments/stage4b5/runtime_governance_overhead.py:674-683 | if one list is pointwise at most another, so is its nearest-rank value at every percentile |
| `OrderStatistics.NearestRankMember` | experiments/stage4b5/runtime_governance_overhead.py:674-683 | the result is one of the values |
| `OrderStatistics.NearestRankMonotone` | experiments/stage4b5/runtime_governance_overhead.py:674-683 | a higher percentile never gives a smaller value |
| `Bootstrap.ScanForRank` | experiments/stage4b5/runtime_governance_overhead.py:784-796 | the cumulative scan over the sorted distinct values finds the value of the wanted rank, never falling off the end when the counts cover the rank |
| `Bootstrap.ResampleAt` | experiments/stage4b5/runtime_governance_overhead.py:775-783 | a resample is the drawn blocks end to end: each of its values is the one at that place of the block drawn there |
| `Bootstrap.SelectMultiplicities` | experiments/stage4b5/runtime_governance_overhead.py:775-783 | each block's multiplicity is the number of times it was drawn, and so weighted the blocks hold every value as often as the resample does |
| `Bootstrap.ResampledCounts` | experiments/stage4b5/runtime_governance_overhead.py:775-790 | adding the drawn blocks' histograms counts every distinct value as often as it occurs in the concatenated resample |
| `Bootstrap.Replicate` | experiments/stage4b5/runtime_governance_overhead.py:775-796 | for any draw the histogram scan equals the nearest-rank median of the concatenated drawn blocks; the incomplete-population branch is unreachable |
| `Bootstrap.BlockBootstrapMedianCi` | experiments/stage4b5/runtime_governance_overhead.py:731-810 | exact error conditions; on success the bounds are the least values that 2.5 and 97.5 per cent of the medians do not exceed, one median of middle rank for each draw's resample, lower at most upper, both observed values |
| `Bootstrap.IntervalFacts` | experiments/stage4b5/runtime_governance_overhead.py:797-810 | both interval ends are values of the original blocks, in order |
| `Population.ClosedFormIsUniverseSize` | experiments/stage4b5/runtime_governance_overhead.py:332-345 | the closed-form count equals the number of coordinates exactly for degenerate schedules or positive counts with distinct scenario names |
| `Population.CheckSample` | experiments/stage4b5/runtime_governance_overhead.py:1281-1336 | one sample passes exactly when its identity, timing and outcome are valid |
| `Population.ValidSampleIff` | experiments/stage4b5/runtime_governance_overhead.py:1241-1336 | a sample is valid exactly when it fits the last scenario of its name: run, layer, coordinates in range, the outcome of that scenario, and laps as its surface has them |
| `Population.SetFormIsBijection` | experiments/stage4b5/runtime_governance_overhead.py:1258-1280 | comparing list length, set size and set equality is a bijection onto the coordinate universe |
| `Population.ValidateRecordedPopulation` | experiments/stage4b5/runtime_governance_overhead.py:1241-1336 | accepted exactly when the samples are a bijection onto scenarios, blocks, permutations, repetitions and surfaces, and each is valid; a refusal names a check that fails, and of the samples the first invalid one |
| `Grouping.Collect` | experiments/stage4b5/runtime_governance_overhead.py:813-840 | the dictionary of lists holds, under each key, exactly that key's records in order, and the keys are those that occur |
| `Batches.ComputeBatchSummaries` | experiments/stage4b5/runtime_governance_overhead.py:813-887 | the grouping loops compute the summaries of the simple specification, or the same first error |
| `Batches.BatchSummariesPermutation` | experiments/stage4b5/runtime_governance_overhead.py:813-887 | any permutation of the samples gives the identical result |
| `Comparisons.ComputeBatchComparisons` | experiments/stage4b5/runtime_governance_overhead.py:890-984 | the grouping loops compute the comparisons of the simple specification, or the same first error |
| `PopulationBatches.BatchComparisonsPermutation` | experiments/stage4b5/runtime_governance_overhead.py:890-984 | any permutation of the summaries is refused together with the original or gives the identical comparisons |
| `PopulationBatches.BatchIsFull` | experiments/stage4b5/runtime_governance_overhead.py:825-852 | every batch of an accepted population holds each repetition exactly once |
| `PopulationBatches.SummaryOfBatch` | experiments/stage4b5/runtime_governance_overhead.py:841-887 | no check of the summary of an accepted population's batch can fail |
| `PopulationBatches.TotalLaps` | experiments/stage4b5/runtime_governance_overhead.py:853-884 | the producer median is positive and at most the total median, and equal to it outside surface C |
| `PopulationBatches.CompositionLapsOfC` | experiments/stage4b5/runtime_governance_overhead.py:853-884 | surface C's composition median lies between zero and its total median |
| `PopulationBatches.SummariesOfPopulation` | experiments/stage4b5/runtime_governance_overhead.py:813-887 | summaries of an accepted population never fail, one for every planned batch, with medians in order |
| `PopulationBatches.ComparisonsOfPopulation` | experiments/stage4b5/runtime_governance_overhead.py:890-984 | comparisons of an accepted population never fail: four per unit, each the stated difference of medians over the A total |
| `PopulationBatches.PopulationCounts` | experiments/stage4b5/runtime_governance_overhead.py:813-984 | eighteen summaries and twenty-four comparisons per scenario and recorded block |
| `BatchMeaning.SummariesMean` | experiments/stage4b5/runtime_governance_overhead.py:813-887 | for any samples: summaries are computed exactly when every batch holds each repetition once, is of a known surface and has composition laps exactly on surface C; each summary is then the values of middle rank of its own batch's producer, total and composition laps, in key order, one per batch |
| `BatchMeaning.ComparisonsMean` | experiments/stage4b5/runtime_governance_overhead.py:890-984 | for any summaries: comparisons are computed exactly when surfaces are known and not repeated and every unit has all three, a composition median for C and a positive total for A; each estimate is then the stated difference of its own unit's medians and its percentage of A's total |
| `BatchMeaning.PopulationMeans` | experiments/stage4b5/runtime_governance_overhead.py:813-984 | so both hold of every accepted population |
| `LaneProtocol.StepInv` | experiments/stage4b2/postgres_bounded_concurrency_runtime.py:833-930 | every step of every thread keeps the lane, queue and barrier invariant |
| `LaneProtocol.FullSet` | experiments/stage4b2/postgres_bounded_concurrency_runtime.py:1222-1250 | when as many lanes as there are have been counted at the barrier, all of them have arrived |
| `LaneTheorems.LogInvStep` | experiments/stage4b2/postgres_bounded_concurrency_runtime.py:833-930 | every step keeps what the observed log says about the state |
| `LaneTheorems.RunsAreSynchronised` | experiments/stage4b2/postgres_bounded_concurrency_runtime.py:1554-1594 | in every interleaving nothing happens twice, no start precedes the release or any lane's arrival, finished batches are complete, and under a monotone clock offsets are non-negative |
| `LaneTheorems.QueuesEmptyBetweenBatches` | experiments/stage4b2/postgres_bounded_concurrency_runtime.py:866-917 | between batches every queue is empty and every lane waits |
| `LaneTheorems.CollectSpec` | experiments/stage4b2/postgres_bounded_concurrency_runtime.py:882-890 | results are returned in lane order, or the lowest failing lane is raised |
| `LaneTheorems.BatchReturnsInLaneOrder` | experiments/stage4b2/postgres_bounded_concurrency_runtime.py:866-890 | whatever the completion order, a returned batch lists for each lane exactly the start and stop readings and the raised flag of that lane's own steps in this batch, against the release reading, none before it under a monotone clock; otherwise the lane named is one whose own steps went wrong |
| `LaneBatches.BatchOfReadings` | experiments/stage4b2/postgres_bounded_concurrency_runtime.py:1222-1290 | the batch handed to the executor holds the release reading and, lane by lane, that lane's own start reading, stop minus start, and flag |
| `LaneBatches.ReturnedBatchRuns` | experiments/stage4b2/postgres_bounded_concurrency_runtime.py:1222-1290 | a batch that any interleaving of its level's lanes returned under a monotone clock is one the executor can record: one observation per lane, none before the release |
| `LaneBatches.CompletesOverLanes` | experiments/stage4b2/postgres_bounded_concurrency_runtime.py:1123-1302 | over lanes, however they interleave, the whole schedule completes exactly when no batch raised and every warmup is sound |
| `LaneBatches.BatchCanReturn` | experiments/stage4b2/postgres_bounded_concurrency_runtime.py:866-890 | every clean batch in flight, whatever ran on the lanes before, has a continuation in which it returns |
| `LaneTheorems.NoDeadlock` | experiments/stage4b2/postgres_bounded_concurrency_runtime.py:833-930 | while a batch is under way some thread can move |
| `LaneTheorems.RankDecreases` | experiments/stage4b2/postgres_bounded_concurrency_runtime.py:833-930 | every step of a batch decreases a rank |
| `LaneTheorems.BatchTerminates` | experiments/stage4b2/postgres_bounded_concurrency_runtime.py:833-930 | every batch ends within a number of steps bounded at its start |
| `FixedSchedule.GenerateFixedSchedule` | experiments/stage4b2/postgres_bounded_concurrency_runtime.py:933-1014 | the nested loops build the closed-form schedule for every level order and batch count |
| `FixedSchedule.PlanIndexIsPosition` | experiments/stage4b2/postgres_bounded_concurrency_runtime.py:985-1002 | the running plan index is the position in the schedule |
| `FixedSchedule.RecordedOfPlans` | experiments/stage4b2/postgres_bounded_concurrency_runtime.py:985-1002 | dropping warmups leaves each cell's recorded batches, cell by cell |
| `FixedSchedule.Counterbalanced` | experiments/stage4b2/postgres_bounded_concurrency_runtime.py:939-974 | each workload starts with each composition in half of its pairs, rounded by the parity of the number of levels |
| `FixedSchedule.LaneIdentitiesPermute` | experiments/stage4b2/postgres_bounded_concurrency_runtime.py:1069-1071 | the rotation gives every identity position to some lane |
| `InvocationIdentities.PrepareInvocationSpecs` | experiments/stage4b2/postgres_bounded_concurrency_runtime.py:1053-1097 | one specification per lane, on its own connection slot, with the rotated identity |
| `InvocationIdentities.IdentitiesOfBurst` | experiments/stage4b2/postgres_bounded_concurrency_runtime.py:1053-1097 | requests of a burst are pairwise distinct; orders are one for the hot stream and pairwise distinct otherwise |
| `RunRecords.ClassifiedIffTerminal` | experiments/stage4b2/postgres_bounded_concurrency_runtime.py:1597-1629 | a delivery is classified into a cohort exactly when outcome and verdicts are that cohort's |
| `RunRecords.SoundDeliveryListed` | experiments/stage4b2/postgres_bounded_concurrency_runtime.py:2526-2608 | a delivery is sound exactly when outcome and verdicts are one cohort's and its thirteen phase states are, in order, the list written out for that composition and cohort |
| `RunRecords.SoundPhases` | experiments/stage4b2/postgres_bounded_concurrency_runtime.py:2526-2608 | a sound delivery measured exactly one of commit and rollback, commit exactly when accepted, the try-lock exactly under the pessimistic composition and the preliminary check exactly under the optimistic one |
| `RunRecords.EvidenceIssuesIff` | experiments/stage4b2/postgres_bounded_concurrency_runtime.py:2613-2676 | no evidence issue exactly when slot, cohort, workload, availability and all thirteen phase states are as expected |
| `RunRecords.RecordSoundIff` | experiments/stage4b2/postgres_bounded_concurrency_runtime.py:1632-1720 | the record of a lane's observation has no issue exactly when the raw delivery is sound |
| `RunRecords.TypedCountsConserve` | experiments/stage4b2/postgres_bounded_concurrency_runtime.py:2930-2935 | typed counts are positive and add up to the number of records |
| `RunRecords.BuiltBatchIsWellFormed` | experiments/stage4b2/postgres_bounded_concurrency_runtime.py:2899-2927 | the batch record of any non-empty burst passes every check its constructor makes |
| `RecordedExecutor.ExecuteBatch` | experiments/stage4b2/postgres_bounded_concurrency_runtime.py:1222-1302 | a batch comes back exactly when it ran, with one observation per lane and none before the release; then its records are numbered from the given index |
| `RecordedExecutor.GroupByLevel` | experiments/stage4b2/postgres_bounded_concurrency_runtime.py:1143-1146 | cells filed by level keep schedule order, and levels come in order of first appearance |
| `RecordedExecutor.LevelsUpTo` | experiments/stage4b2/postgres_bounded_concurrency_runtime.py:1143-1146 | the levels in order of first appearance are the shuffled order |
| `RecordedExecutor.CellsOfOrderedLevel` | experiments/stage4b2/postgres_bounded_concurrency_runtime.py:1143-1146 | the cells filed under a level are the four generated for it |
| `RecordedExecutor.PlansOfScheduledCell` | experiments/stage4b2/postgres_bounded_concurrency_runtime.py:1166-1175 | selecting a cell's batches from the whole schedule gives those generated for it |
| `RecordedExecutor.Execute` | experiments/stage4b2/postgres_bounded_concurrency_runtime.py:1123-1220 | walking level, cell and plan by plan equals running the flat schedule in order |
| `Reconciliation.Reconcile` | experiments/stage4b2/postgres_bounded_concurrency_runtime.py:1750-1829 | no finding exactly when keys and indexes are unique, the keys are the planned ones, and every record agrees with its plan and passes inspection |
| `Reconciliation.ReconciledEnumerates` | experiments/stage4b2/postgres_bounded_concurrency_runtime.py:1750-1812 | passing the dictionary checks means the records, by index, are the plan |
| `Reconciliation.EnumeratesReconciled` | experiments/stage4b2/postgres_bounded_concurrency_runtime.py:1750-1812 | records that are the plan by index pass the dictionary checks |
| `RunValidation.NumberPlans` | experiments/stage4b2/postgres_bounded_concurrency_runtime.py:1740-1762 | the validator numbers recorded plans and lanes by position in the schedule |
| `RunValidation.PlannedKeysDistinct` | experiments/stage4b2/postgres_bounded_concurrency_runtime.py:1740-1762 | planned cell, batch and lane coordinates are pairwise distinct |
| `RunValidation.BatchRecordsAreLanes` | experiments/stage4b2/postgres_bounded_concurrency_runtime.py:1862-1866 | the records found for a batch by sorted key are its lanes in order |
| `RunValidation.CheckInvocations` | experiments/stage4b2/postgres_bounded_concurrency_runtime.py:1764-1829 | no invocation finding exactly when the invocations enumerate the plan with acceptable evidence |
| `RunValidation.CheckBatches` | experiments/stage4b2/postgres_bounded_concurrency_runtime.py:1831-1902 | no batch finding exactly when the batches enumerate the plan and each agrees with its invocations |
| `RunVerdict.CheckOwnership` | experiments/stage4b2/postgres_bounded_concurrency_runtime.py:1904-1938 | no ownership finding exactly when every retained lane is recorded once on its own slot and each level has as many threads as lanes |
| `RunVerdict.ExecutorOwns` | experiments/stage4b2/postgres_bounded_concurrency_runtime.py:1155-1163 | the executor's ownership is accepted exactly when no level's lanes share a thread |
| `RunVerdict.ValidateRecordedRun` | experiments/stage4b2/postgres_bounded_concurrency_runtime.py:1723-1953 | VALID exactly when the run is the schedule's own numbering with acceptable evidence, faithful batches, exact ownership and one run id |
| `RunTheorems.CompletesIff` | experiments/stage4b2/postgres_bounded_concurrency_runtime.py:1150-1200 | the run completes exactly when every batch comes back and every warmup is clean |
| `RunTheorems.RunTracks` | experiments/stage4b2/postgres_bounded_concurrency_runtime.py:1123-1220 | the executor's running indexes are those the validator derives, and every batch record condenses its own slice of the run |
| `RunTheorems.CompletedRunVerdict` | experiments/stage4b2/postgres_bounded_concurrency_runtime.py:1123-1220 | a completed run is valid exactly when no invocation has an evidence issue, threads are distinct per level and something was recorded |
| `RunTheorems.ExecuteAndValidate` | experiments/stage4b2/postgres_bounded_concurrency_runtime.py:1123-1220 | end to end: completion and verdict in terms of the raw lane deliveries |
| `RunConservation.ValidRunConserves` | experiments/stage4b2/postgres_bounded_concurrency_runtime.py:1723-1953 | in every valid run, in any order, completed counts add up to the invocations and accepted counts to the accepted ones |
| `RunMeaning.RecordIsPlaced` | experiments/stage4b2/postgres_bounded_concurrency_runtime.py:1723-1902 | every record of a valid run stands at one cell, batch and lane of the design, with the level, workload and composition written out for that cell |
| `RunMeaning.PlaceIsRecorded` | experiments/stage4b2/postgres_bounded_concurrency_runtime.py:1723-1902 | and every such place has exactly one record |
| `RunMeaning.BatchCondenses` | experiments/stage4b2/postgres_bounded_concurrency_runtime.py:1831-1902 | every batch record of a valid run counts and times exactly the records of its own lanes |
| `RunMeaning.ExecutedCarries` | experiments/stage4b2/postgres_bounded_concurrency_runtime.py:1123-1302 | in every completed execution the record of each place carries what its own lane observed: elapsed time, start against the release, and the evidence delivered |
| `CohortAggregation.ComputeAggregates` | experiments/stage4b2/postgres_bounded_concurrency_runtime.py:1956-2016 | the grouping loop computes the aggregates of the simple specification, refusing any record with an evidence issue |
| `CohortAggregation.CohortKeyExact` | experiments/stage4b2/postgres_bounded_concurrency_runtime.py:1966-1987 | sort keys by text tell cohorts apart exactly: no two are pooled |
| `CohortAggregation.AggregatesConserve` | experiments/stage4b2/postgres_bounded_concurrency_runtime.py:1956-2016 | cohort counts add up to the number of records |
| `CohortAggregation.AggregatesPartition` | experiments/stage4b2/postgres_bounded_concurrency_runtime.py:1956-2016 | each record is described by exactly one aggregate |
| `AggregateMeaning.AggregatesMean` | experiments/stage4b2/postgres_bounded_concurrency_runtime.py:1956-2016 | aggregates come in ascending order; each counts its own cohort's records, and each of its statistics is the minimum, maximum, mean and middle of exactly those records' times |
| `CohortAggregation.AggregatePhases` | experiments/stage4b2/postgres_bounded_concurrency_runtime.py:1990-2003 | each cohort lists exactly the phases its matrix marks as measured, each with the cohort's own count |
| `CohortAggregation.AggregatesPermutation` | experiments/stage4b2/postgres_bounded_concurrency_runtime.py:1956-2016 | the order of the records is irrelevant |
| `DescriptiveStatistics.DescribeOrdered` | experiments/stage4b2/postgres_bounded_concurrency_runtime.py:3019-3028 | mean and median lie between minimum and maximum |
| `DescriptiveStatistics.DescribeIs` | experiments/stage4b2/postgres_bounded_concurrency_runtime.py:3019-3028 | the statistics are the count, the least and the greatest value, the sum over the count, and the middle value or the half sum of the two middle values |
| `DescriptiveStatistics.DescribePermutation` | experiments/stage4b2/postgres_bounded_concurrency_runtime.py:3019-3028 | the order of the values is irrelevant |
| `DescriptiveStatistics.DescribeRational` | experiments/stage4b2/postgres_bounded_concurrency_runtime.py:3019-3028 | statistics of quotients of integers are quotients of integers, hence printable |
| `BatchRates.RatesDescribed` | experiments/stage4b2/postgres_bounded_concurrency_runtime.py:2019-2072 | every cell's rates are counted once per burst and lie within their own extremes |
| `AggregateMeaning.RatesMean` | experiments/stage4b2/postgres_bounded_concurrency_runtime.py:2019-2072 | each rate line describes, for exactly its own cell's bursts, completed and accepted invocations per second |
| `BatchRates.BatchRatesPermutation` | experiments/stage4b2/postgres_bounded_concurrency_runtime.py:2033-2072 | the order of the batches is irrelevant |
| `SmokeRun.CellIssuesIff` | experiments/stage4b2/postgres_bounded_concurrency_runtime.py:2679-2855 | a cell the executor ran itself has no issue exactly when every lane's evidence is sound and, with one worker, everything was accepted |
| `SmokeRun.CellIssuesAre` | experiments/stage4b2/postgres_bounded_concurrency_runtime.py:2679-2855 | the issues found of such a cell are exactly those of its lanes' evidence, and contention where there is none: accounting, identity and content issues never arise |
| `SmokeRun.RunCell` | experiments/stage4b2/postgres_bounded_concurrency_runtime.py:1417-1525 | a cell's invocations and batch are added exactly when its burst came back, and its issues are those found of it |
| `SmokeRun.ExecuteSmoke` | experiments/stage4b2/postgres_bounded_concurrency_runtime.py:1327-1551 | under any failures: structurally valid exactly when everything went well, keeping what every cell and level left; otherwise it ends at the one cell where something went wrong, with exactly what the cells and levels up to there left and the issues found there |
| `SmokeRun.StopIsUnique` | experiments/stage4b2/postgres_bounded_concurrency_runtime.py:1351-1541 | a smoke can end at one cell only, and at none when everything goes well |
| `SmokeRun.KeptAt` | experiments/stage4b2/postgres_bounded_concurrency_runtime.py:1462-1496 | every lane of every cell kept stands at the position its cell and lane give it, with its own identities and what that lane observed |
| `SmokeRun.PlannedIsFourTimes` | experiments/stage4b2/postgres_bounded_concurrency_runtime.py:525-528 | the planned invocations are four times the sum of the levels |
| `StrategySchedule.GenerateSequential` | experiments/stage4b2/postgres_strategy_comparison.py:646-686 | the nested loops build the closed form of the observer rounds for every shuffle |
| `StrategySchedule.GenerateConcurrent` | experiments/stage4b2/postgres_strategy_comparison.py:689-727 | the nested loops build the closed form of the two-lane batches |
| `StrategySchedule.GenerateRecordedSchedule` | experiments/stage4b2/postgres_strategy_comparison.py:754-783 | the four parts are generated one after another |
| `StrategySchedule.IndexIsPosition` | experiments/stage4b2/postgres_strategy_comparison.py:646-783 | sample indexes are 0 to n-1 in order |
| `StrategySchedule.ScheduleIsBalanced` | experiments/stage4b2/postgres_strategy_comparison.py:2105-2154 | every legal configuration and shuffle meets every count the balance check asks for |
| `StrategyValidation.CheckBalance` | experiments/stage4b2/postgres_strategy_comparison.py:2105-2154 | no issue exactly when every scenario, surface and composition has its configured count |
| `StrategyValidation.SampleIssuesIff` | experiments/stage4b2/postgres_strategy_comparison.py:2005-2060 | a sample has no issue exactly when it has its plan's coordinate, one of the cohorts written out for its scenario, and every phase that cohort must have collected |
| `StrategyValidation.SufficientIff` | experiments/stage4b2/postgres_strategy_comparison.py:2070-2092 | evidence suffices exactly when each of the four core pairs of composition and cohort has the configured number of same-order samples |
| `StrategyRun.ExecuteConcurrentBatch` | experiments/stage4b2/postgres_strategy_comparison_runtime.py:503-557 | the two observations, returned by slot, come out in sample order |
| `StrategyRun.ExecutePlans` | experiments/stage4b2/postgres_strategy_comparison_runtime.py:431-464 | on every generated schedule the pair check never fails and each plan is executed exactly once, in order |
| `StrategyRun.PairOkIff` | experiments/stage4b2/postgres_strategy_comparison_runtime.py:431-464 | two plans make a pair exactly when they agree in scenario, composition and batch and take one lane and one connection each |
| `StrategyRun.ExecutedIff` | experiments/stage4b2/postgres_strategy_comparison_runtime.py:431-557 | a plan is executed exactly when its writer call came back, with a start offset where it ran in a pair, and with evidence its surface can read |
| `StrategyRun.ExecutedTells` | experiments/stage4b2/postgres_strategy_comparison_runtime.py:431-557 | the sample of an executed plan has the plan's own coordinates and the time, offset and evidence of its own call |
| `StrategyValidation.ValidateRecordedRun` | experiments/stage4b2/postgres_strategy_comparison.py:1931-2102 | invalid exactly when a structural check fails; valid exactly when none does and every core cohort is large enough |
| `StrategyTheorems.BlocksFollow` | experiments/stage4b2/postgres_strategy_comparison.py:2157-2206 | a run that matches a generated schedule has no incomplete matched block |
| `StrategyTheorems.StructuralIff` | experiments/stage4b2/postgres_strategy_comparison.py:1931-2102 | on a generated schedule the structural checks amount to: the samples by index are the plans, and each is sound |
| `StrategyTheorems.SampleStands` | experiments/stage4b2/postgres_strategy_comparison.py:646-783 | in a run that matches its schedule each index has exactly one sample, standing at the part, round and position written out for that index |
| `StrategyPairs.CollectPairs` | experiments/stage4b2/postgres_strategy_comparison.py:1779-1800 | samples are filed by run, surface, cohort and batch; unusable samples and repeated compositions are refused |
| `StrategyPairs.AggregatePairedDifferences` | experiments/stage4b2/postgres_strategy_comparison.py:1774-1841 | succeeds exactly when every pair is complete, with one line per group in sorted order that gives count, mean and median of all its IN-minus-PRE differences; otherwise the first reason is raised |
| `StrategyPairs.DifferencesConserve` | experiments/stage4b2/postgres_strategy_comparison.py:1774-1841 | whenever it succeeds a group's differences add up to its IN total minus its PRE total, one per sample of either composition |
| `StrategyPairs.ReportConserves` | experiments/stage4b2/postgres_strategy_comparison.py:1774-1841 | every reported mean is the group's IN total minus its PRE total over the reported number of pairs, the number of its samples of either composition |
| `StrategyPairs.DescribedBetween` | experiments/stage4b2/postgres_strategy_comparison.py:1826-1841 | reported mean and median lie between two of the group's differences |
| `StrategyPairs.DescribedMedian` | experiments/stage4b2/postgres_strategy_comparison.py:1826-1841 | the reported median is the middle difference, or the half sum of the two middle ones |
| `StrategyTheorems.PairValidRun` | experiments/stage4b2/postgres_strategy_comparison.py:1774-1841 | on every valid run the pairing succeeds with one line for each surface and no other, each with the configured number of pairs and a mean that conserves the raw totals |
| `StrategyTheorems.ExecuteAndValidate` | experiments/stage4b2/postgres_strategy_comparison_runtime.py:322-359 | the walk completes exactly when every plan can be executed, giving each plan's own sample in order; a completed walk always matches its schedule, so only evidence decides the verdict |
| `Publication.StepInv` | experiments/stage4b2/postgres_bounded_concurrency_evidence.py:426-486 | every step, failure or stop of any writer keeps the invariant |
| `Publication.StepChange` | experiments/stage4b2/postgres_bounded_concurrency_evidence.py:440-470 | the published directories change only by a rename under the lock or its own undoing, and no other writer's state is touched |
| `Publication.PublishedIsComplete` | experiments/stage4b2/postgres_bounded_concurrency_evidence.py:426-486 | in every reachable state a final directory is an untouched earlier one or exactly one writer's six payloads |
| `Publication.AtMostOneSuccess` | experiments/stage4b2/postgres_bounded_concurrency_evidence.py:426-486 | two writers of one run id never both succeed |
| `Publication.LockIsHeld` | experiments/stage4b2/postgres_bounded_concurrency_evidence.py:437-466 | over the moves of any run: whoever has the lock stands between the check and the unlock, or raised in unlocking |
| `Publication.FailedHoldsNoLock` | experiments/stage4b2/postgres_bounded_concurrency_evidence.py:461-486 | a writer that failed without raising in unlocking holds no lock |
| `Publication.WaitingCanLock` | experiments/stage4b2/postgres_bounded_concurrency_evidence.py:437-444 | when no writer stands between check and unlock, or has kept the lock so, every writer waiting for it can take it |
| `Publication.HolderCanMove` | experiments/stage4b2/postgres_bounded_concurrency_evidence.py:444-466 | whoever stands between check and unlock can always go on |
| `Publication.CleanerCanMove` | experiments/stage4b2/postgres_bounded_concurrency_evidence.py:1292-1304 | a writer cleaning up can always go on, and in the end its staging directory is empty and removed |
| `Publication.ExistingIsRefused` | experiments/stage4b2/postgres_bounded_concurrency_evidence.py:426-436 | a writer of an already published run is refused before it writes anything |
| `Publication.SuccessIsImmutable` | experiments/stage4b2/postgres_bounded_concurrency_evidence.py:426-486 | no later step changes a successfully published directory |
| `Publication.EarlierRunsAreImmutable` | experiments/stage4b2/postgres_bounded_concurrency_evidence.py:426-486 | directories published before are never touched |
| `Publication.FailureLeavesNothing` | experiments/stage4b2/postgres_bounded_concurrency_evidence.py:453-486 | a failing writer left its directory published exactly when its failure is that of the rollback, the unlock, the close or the read-back, and its staging directory exactly when cleanup failed |
| `Publication.FailurePublishedIffRaised` | experiments/stage4b2/postgres_bounded_concurrency_evidence.py:453-486 | over the moves of any run: a failing writer left its directory published exactly when it raised while renaming back, while unlocking or closing after publishing, or while reading back |
| `Publication.FailureHasCause` | experiments/stage4b2/postgres_bounded_concurrency_evidence.py:426-486 | every failure reported was caused by a move of that writer of the kind the failure names |
| `Publication.FailedRollbackStaysPublished` | experiments/stage4b2/postgres_bounded_concurrency_evidence.py:455-470 | from every state syncing the root, a failing sync followed by a failing rollback reports failure with the directory published |
| `Publication.FailureCanStayPublished` | experiments/stage4b2/postgres_bounded_concurrency_evidence.py:426-486 | from every initial state every writer of an unpublished run has an execution that reports failure with its complete directory published |
| `Publication.AloneItSucceeds` | experiments/stage4b2/postgres_bounded_concurrency_evidence.py:426-486 | an undisturbed writer of an unpublished run, from its first step through staging, all six files, the lock and the rename, succeeds and releases the lock |
| `Publication.SuccessIsReachable` | experiments/stage4b2/postgres_bounded_concurrency_evidence.py:426-486 | from every initial state every writer of an unpublished run has an execution in which it succeeds |
| `EvidenceFiles.JsonlRoundTrip` | experiments/stage4b2/postgres_bounded_concurrency_evidence.py:1145-1177 | newline framing gives back every non-empty list of printable values |
| `EvidenceFiles.LinesOf` | experiments/stage4b2/postgres_bounded_concurrency_evidence.py:1173-1177 | the lines of any text: what precedes its first break, each of the ten break characters or a carriage return with its line feed counting once, and the lines of what follows |
| `EvidenceJson.InvocationRoundTrip` | experiments/stage4b2/postgres_bounded_concurrency_evidence.py:821-861 | every invocation record comes back from its closed object, with enumerations and absent parts |
| `EvidenceDecoding.InvocationExact` | experiments/stage4b2/postgres_bounded_concurrency_evidence.py:821-861 | a JSON value decodes to an invocation record exactly when its constructor accepts the record and the value is that record's own object |
| `EvidenceDecoding.BatchExact` | experiments/stage4b2/postgres_bounded_concurrency_evidence.py:880-909 | likewise for batch records |
| `EvidenceDecoding.OwnershipExact` | experiments/stage4b2/postgres_bounded_concurrency_evidence.py:912-953 | likewise for lane ownership |
| `EvidenceDecoding.StatisticsExact` | experiments/stage4b2/postgres_bounded_concurrency_evidence.py:956-989 | statistics decode exactly from a closed object of five numbers that is counted and in order |
| `EvidenceJson.BatchRoundTrip` | experiments/stage4b2/postgres_bounded_concurrency_evidence.py:880-909 | every batch record comes back from its closed object |
| `EvidenceJson.StatisticsRoundTrip` | experiments/stage4b2/postgres_bounded_concurrency_evidence.py:956-989 | statistics that are counted and within their own extremes come back |
| `EvidenceJson.AggregateRoundTrip` | experiments/stage4b2/postgres_bounded_concurrency_evidence.py:992-1069 | invocation aggregates come back, phases in order |
| `EvidenceJson.RateRoundTrip` | experiments/stage4b2/postgres_bounded_concurrency_evidence.py:1072-1130 | batch-rate aggregates come back |
| `CanonicalEvidence.ValidRearranged` | experiments/stage4b2/postgres_bounded_concurrency_runtime.py:1723-1953 | any rearrangement of a valid run is valid |
| `CanonicalEvidence.CanonicalRearranged` | experiments/stage4b2/postgres_bounded_concurrency_evidence.py:637-752 | publishability and both aggregates are independent of record order |
| `CanonicalAcceptance.CanonicalIff` | experiments/stage4b2/postgres_bounded_concurrency_evidence.py:637-752 | the writer accepts a run exactly when it is valid, publishable under the manifest's run id and every batch took some time: the rate and aggregate checks never decide |
| `EvidencePrinting.AggregatesPrintable` | experiments/stage4b2/postgres_bounded_concurrency_runtime.py:1956-2016 | every number in an invocation aggregate is a quotient of integers |
| `EvidencePrinting.RateAtPrintable` | experiments/stage4b2/postgres_bounded_concurrency_runtime.py:2019-2072 | so is every number in a rate aggregate |
| `CanonicalEvidence.PublishedReadsBack` | experiments/stage4b2/postgres_bounded_concurrency_evidence.py:489-632 | whatever the writer accepts is read back from its run's directory, and from no other name: the same manifest, index-ordered records, and published aggregates equal to the recomputed ones |
| `EvidenceReading.ReadIsFaithful` | experiments/stage4b2/postgres_bounded_concurrency_evidence.py:489-632 | for any payloads at all: whatever the reader returns is what the files decode to, in index order, a valid run named like the directory whose aggregates, recomputed, equal the published ones |
| `JsonPrinter.PrinterInverts` | experiments/stage4b2/postgres_bounded_concurrency_evidence.py:1145-1177 | the JSON text of a printable value, on one line with fields by name and everything outside printable ASCII escaped, determines the value, with or without a final newline, so parsing by its inverse meets the hypothesis of the reading theorems |
| `JsonText.EscapeReads` | experiments/stage4b2/postgres_bounded_concurrency_evidence.py:1145-1158 | escapes as ASCII-only JSON writes them, surrogate pairs included, can be read off the front of any text |
| `JsonFields.FieldTextExact` | experiments/stage4b2/postgres_bounded_concurrency_evidence.py:755-1130 | no two fields of the evidence files have the same name |
| `JsonPrinter.PrintedEvidenceReadsBack` | experiments/stage4b2/postgres_bounded_concurrency_evidence.py:489-632 | with that text and its inverse, everything the writer accepts is read back |
| `ExecutedEvidence.ExecutedAcceptedIff` | experiments/stage4b2/postgres_bounded_concurrency_evidence.py:637-752 | the writer accepts an executed run exactly when every recorded lane delivered sound evidence on threads of its own, something was recorded, some lane of every recorded batch ended after the release, and the manifest names the run |
| `ExecutedEvidence.ExecutedReadsBack` | experiments/stage4b2/postgres_bounded_concurrency_evidence.py:426-632 | end to end: what the lanes delivered is executed, accepted, written and read back with the executed records in their order and aggregates that recompute |
| `Counterbalancing.ExpectedScheduleCells` | experiments/stage4b2/postgres_idempotency_check_characterization.py:463-484 | the loops build the cycles of all rotations and then the extra rotations |
| `Counterbalancing.CycleIsLatin` | experiments/stage4b2/postgres_idempotency_check_characterization.py:471-478 | one full cycle of rotations is a Latin square |
| `Counterbalancing.CyclesBalance` | experiments/stage4b2/postgres_idempotency_check_characterization.py:471-478 | after any number of independently shuffled cycles every cell has held every position that often |
| `Counterbalancing.ScheduleBalance` | experiments/stage4b2/postgres_idempotency_check_characterization.py:463-484 | distinct extra rotations add one appearance at exactly the positions they bring the cell to |
| `Counterbalancing.ScheduleAppearances` | experiments/stage4b2/postgres_idempotency_check_characterization.py:463-484 | each cell appears once per round |
| `Counterbalancing.RecordedScheduleBalance` | experiments/stage4b2/postgres_idempotency_check_characterization.py:463-484 | with nine cells, three cycles and three extra rotations: thirty appearances, three at every position after 27 rounds and three or four in the end |
| `ReadLifecycle.SampleIssuesIff` | experiments/stage4b2/postgres_idempotency_read_lifecycle_characterization.py:449-585 | no issue exactly when the sample has its plan's coordinate and sound lifecycle evidence |
| `ReadLifecycle.ValidateRun` | experiments/stage4b2/postgres_idempotency_read_lifecycle_characterization.py:312-382 | VALID exactly when the lengths match and every sample fits the plan at its position |
| `ReadLifecycle.ExecuteUntilInvalid` | experiments/stage4b2/postgres_idempotency_read_lifecycle_runtime.py:203-220 | executes each plan once up to and including the first invalid sample; an exception ends it there |
| `ReadLifecycle.ExecuteAndValidate` | experiments/stage4b2/postgres_idempotency_read_lifecycle_runtime.py:203-220 | the run is VALID exactly when no invalid sample was met |
| `ReadLifecycle.ValidRunAccounts` | experiments/stage4b2/postgres_idempotency_read_lifecycle_characterization.py:385-434 | a valid run has one sound sample of each control per round, so aggregation is total |
| `ReadLifecycle.TimePreliminaryRead` | experiments/stage4b2/postgres_idempotency_read_lifecycle_runtime.py:133-200 | on a clock that never goes back no timing is refused and the three parts never exceed the lifecycle; the first failure is kept |
| `AuthorityModel.CapabilityFailsClosed` | experiments/indirect_authority_escalation/model.py:151-185 | each operation is allowed for one caller and one target only |
| `AuthorityModel.CandidateForValid` | experiments/indirect_authority_escalation/model.py:222-290 | an accepted request gives an accepted candidate and fact of its own product and quantity, and candidate ids are equal exactly when request ids are |
| `AuthorityModel.ProductErrorIff` | experiments/indirect_authority_escalation/model.py:206-212 | a product is refused exactly when blank, a quantity exactly when below one, the product first |
| `AuthorityModel.IssueIff` | experiments/indirect_authority_escalation/model.py:300-358 | evidence can be constructed exactly by an issuing API, with non-blank names, a positive quantity, and a receipt exactly for a warehouse confirmation |
| `AuthorityModel.IssuersSucceed` | experiments/indirect_authority_escalation/model.py:989-1040 | both issuing APIs succeed on every accepted candidate and receipt, the agent's naming the candidate's product and quantity and the warehouse's the receipt's |
| `AuthorityModel.QualifiesIff` | experiments/indirect_authority_escalation/model.py:361-394 | evidence qualifies exactly when it is an issued warehouse confirmation of this very candidate |
| `AuthorityModel.EvaluateConsistent` | experiments/indirect_authority_escalation/model.py:397-421 | the admission result's constructor never rejects |
| `AuthorityModel.AcceptIff` | experiments/indirect_authority_escalation/model.py:427-489 | accepted exactly when some submitted evidence qualifies, and the one exposed is among those submitted |
| `AuthorityModel.DecisionIgnoresOrder` | experiments/indirect_authority_escalation/model.py:427-489 | the order of evidence is irrelevant |
| `AuthorityModel.QualifiedMonotone` | experiments/indirect_authority_escalation/model.py:427-489 | added evidence never turns acceptance into rejection |
| `AuthorityModel.DecisionIgnoresAgentEvidence` | experiments/indirect_authority_escalation/model.py:427-489 | agent-issued evidence carries no weight |
| `AuthoritySystem.AuthoritativeInventoryStore.AppendAcceptedReplenishment` | experiments/indirect_authority_escalation/model.py:632-675 | history grows by the fact exactly for the authority service |
| `AuthoritySystem.AuthoritativeInventoryStore.GetInventory` | experiments/indirect_authority_escalation/model.py:682-691 | inventory is the sum of the product's accepted quantities; a blank product is refused |
| `AuthoritySystem.InventoryAuthorityService.PromoteWithoutAdmission` | experiments/indirect_authority_escalation/model.py:716-766 | every candidate from the workflow is promoted, and no result constructor rejects |
| `AuthoritySystem.InventoryAuthorityService.PromoteWithAdmission` | experiments/indirect_authority_escalation/model.py:768-830 | a candidate from the workflow is promoted exactly when qualified, and no result constructor rejects |
| `AuthoritySystem.RestockWorkflow.HandleRestockRequest` | experiments/indirect_authority_escalation/model.py:841-889 | the agent's request is turned into its candidate and promoted unchecked |
| `AuthoritySystem.RestockWorkflow.SubmitCandidateWithAdmission` | experiments/indirect_authority_escalation/model.py:927-942 | candidate and evidence reach the governed path unchanged |
| `AuthoritySystem.EveryFactIsBacked` | experiments/indirect_authority_escalation/model.py:632-830 | in every run each accepted fact was appended on a warehouse confirmation from an observed receipt of its own product and quantity |
| `AuthoritySystem.InventoryIsPromoted` | experiments/indirect_authority_escalation/model.py:682-691 | inventory is the sum of the accepted promotions of the product |
| `AuthoritySystem.NoReceiptNoFact` | experiments/indirect_authority_escalation/model.py:950-1040 | without a warehouse observation nothing is ever accepted |
| `AuthoritySystem.HistoryGrows` | experiments/indirect_authority_escalation/model.py:632-675 | accepted history is append-only over every continuation |
| `AuthoritySystem.ResubmissionIsAccepted` | experiments/indirect_authority_escalation/model.py:768-830 | resubmitting an accepted candidate with the same evidence is accepted again: nothing consumes a confirmation |
| `AuthorityReceipts.DistinctIffNeverReused` | experiments/indirect_authority_escalation/model.py:768-830 | accepted promotions rest on pairwise distinct confirmations, or receipts, exactly when no accepted submission relies on one relied on before |
| `AuthorityReceipts.InventoryWithinObservations` | experiments/indirect_authority_escalation/model.py:682-830 | on runs that reuse no confirmation, inventory never exceeds what was observed of the product |
| `AuthorityReceipts.InventoryWithinReceipts` | experiments/indirect_authority_escalation/model.py:682-830 | on runs that reuse no receipt, inventory never exceeds the receipts of the product, each counted once |
| `AuthorityReceipts.ReuseOverstates` | experiments/indirect_authority_escalation/model.py:768-830 | whatever was received, submitting its candidate twice makes an inventory of twice the quantity |
| `AuthorityReceipts.TenBecomeTwenty` | experiments/indirect_authority_escalation/model.py:768-830 | one receipt of ten units, submitted twice from a fresh system, makes an inventory of twenty |
| `AuthoritySystem.Perform` | experiments/indirect_authority_escalation/model.py:950-1040 | the components execute every run of actions as its history describes |
| `AuthoritySimulation.RunUnchecked` | experiments/indirect_authority_escalation/model.py:841-890 | the unchecked store ends with every request's fact, in order |
| `AuthoritySimulation.RunGoverned` | experiments/indirect_authority_escalation/model.py:891-942 | the governed store ends with the facts of the admitted cases, in order |
| `AuthoritySimulation.GovernedIsSubsequence` | experiments/indirect_authority_escalation/model.py:716-942 | the governed history is a subsequence of the unchecked one |
| `AuthoritySimulation.GovernedInventory` | experiments/indirect_authority_escalation/model.py:716-942 | governed inventory never exceeds unchecked inventory, with equality for a product exactly when all its candidates were qualified |
| `AuthoritySimulation.AgentAloneChangesNothing` | experiments/indirect_authority_escalation/model.py:427-489 | with agent evidence alone the governed store stays empty |

## Left out

- PostgreSQL connections, SQL, table resets, writer construction and the post-timing
  verification hooks: a batch or invocation that any of them spoils is an arbitrary failure.
- IEEE rounding: means, rates, percentages and ranks are exact; a rank is the exact ceiling.
- SHA-256 identity tokens are the tuples they are computed from, so equal tokens mean equal inputs.
- JSON text: a number that need not be whole is written as its exact quotient, where the source
  writes a decimal float, and the parser is the inverse of the printer, not a scanner. The manifest
  keeps only the fields that differ between runs; its constant fields, and the decoder's treatment
  of foreign JSON types in fields the records do not check, are not modelled.
- Secret-marker scanning, path and symlink checks, and the regular expressions for run ids.
- Power loss: a sync makes nothing durable in the publication model; a stopped process leaves
  the directories as they were.
- Handing `run_batch` a wrong set of lanes: the executor never does.
- The bootstrap's blocks arrive in block-index order, and its generator's draws as a parameter.
- `distribution_summary`, `aggregate_evidence` and the text labels of comparisons.
- Schema name and version fields of run records outside the codec: their constructors fix them.
- In `StrategyValidation` the block check reports one issue per plan rather than per block, and
  required phases are listed in phase order; whether there is an issue is as in the source.
- `SmokeRun.ExecuteSmoke`: walks the levels and cells in schedule order directly; that filing the cells by
  level gives this order is proved once, for the recorded executor.
- `command`, `history_depth` and `expected_sequence` of strategy-comparison samples are constants
  there and left out of the pairing key; `aggregate_samples` repeats the cohort aggregation.
- The aggregation of the check-characterization experiment and its sample validators, the budget
  arithmetic, checkpoint store, command-line entry points and Git provenance: single branches or plumbing.
