# Verified model of the plant energy and carbon system

This project models the parts of the system whose guarantees span several functions or whole
runs, and proves them for all inputs: the setpoint advisor with its physics, the reporting
calendar and the carbon report store, the recommendation workflow with its setpoint writes, the
in-memory fallback store, the real-time optimization (RTO) scheduler, the particle swarm sample
generators, stream alerts, the OPC subscription cache, temporal windows and the holdout, drift
histograms, HTML escaping and carbon accounting. `dafny verify dfyconfig.toml` checks all of it.

## How things are modelled

- Floats are exact reals; Python's `round(x, n)` is written out as round-half-even (`Rounding`).
- Each committed database operation, and connecting to OPC with its seeding reads, is one atomic
  step. Objects the code updates in place (report table, recommendation table, memory store,
  scheduler, alert table, OPC session, swarm arrays) are classes or arrays whose methods are
  proved equal to a function of the old state; the properties of runs are proved about those
  functions.
- Clocks, random draws, sensor aggregates, the registry's answer and the behaviour of the OPC
  link are inputs, so every result holds for all of them. Database queries that leave an order
  open are answered by any result the query allows.
- `Calendar` builds Python's proleptic Gregorian `datetime` from scratch: an odometer of dates, day
  numbers, their one-to-one correspondence, instants, and the range in which dates exist.
- Time zones are fixed offsets. In a zone with daylight saving a reference and the start of its
  window can differ in offset; such references are not modelled.
- The lemmas prove their inductions explicitly and switch the automatic one off.
- Modules follow the source files. `Options`, `Seqs`, `Trails`, `Sums`, `Spacing` and `Rounding` are shared.

## Where the code falls short of what one would expect

Each of these is proved: where a property can fail, with the exact condition and an input or a run
that fails; otherwise as a statement about all inputs.

- A unit that shares the best unit's plant code can become the benchmark in its place
  (`AdvisorConvergence.SameBenchmarkIff`, `DuplicateCodesMislead`); a unit below the envelope is
  told to heat up (`AdvisorHarm.GivenNeverHurtsIff`, `ColdUnitIsHeated`); off the 0.01 grid advice can
  cost up to 0.009 of intensity (`OffGridAdviceCanHurt`).
- The saving is promised at the current feed and measured at the proposed one
  (`AdvisorEstimates.PromiseKeptIff`, `PromiseMissed`).
- A unit without a carbon reading counts as zero before the advice, so its advice always looks
  harmful (`AdvisorSimulation.MissingCarbonLooksWorse`).
- The two window calculators agree only for references in UTC: `period_window` keeps the
  reference's own midnight (`PeriodWindows.CalculatorsAgreeIffUtc`). References on different wall
  clocks give overlapping windows, and overlapping stored reports, unless the offsets agree
  (`PeriodWindows.NeverPartlyIff`, `ReportTiling.DoubleCounting`).
- Approving a report does not fix its figures; only locking does (`ReportRuns.FiguresChangeIff`,
  `ApprovedFiguresCanChange`).
- If the OPC link breaks after some writes, those values are out but nothing is logged and the
  recommendation stays approved, to be sent again (`WorkflowRuns.UnloggedWritesIff`, `SentTwice`).
- A recommendation whose apply was refused is failed but never marked resolved
  (`WorkflowSigners.SignersMatchLog`).
- Writing replaces a zero tag scale by one, reading does not (`SetpointWrites.ReadBackIff`,
  `ZeroScaleMisreads`).
- The memory store sets a status and then fails to write its audit event when an extra is a
  timestamp, which `json.dumps` refuses: rejections, approvals and applications leave no event and
  end in an error (`MemoryRecs.ToldAfterStep`, `ApprovalIsUntold`, `OutcomesAgreeIff`). The memory
  branch also applies without the simulation gate, the tag map or the write gates
  (`MemoryFollowsDatabaseIff`), measures impact at any status and realizes 85% of the estimate
  (`StepAgreesIff`).
- A database attempt that fails after its commit makes the scheduler queue the batch in memory as
  well, and rows go unreported (`Rto.QueuedTwiceIff`, `QueuedTwice`, `RowsAreReported`).
- The shuffled split tests on training rows when its cut leaves nothing over
  (`TemporalWindows.ShuffledSplitIsDisjointIff`, `OnlyRowLeaks`).
- One feature without usable statistics cuts all reference columns to 50 rows, of which only the
  lowest values are left (`Drift.MatrixKeepsAllIff`, `MissingStatsCut`).
- Fields that share an OPC node go stale, all but the first (`OpcCache.ReadsLastIff`, `UnownedGoesStale`,
  `SharedNodeGoesStale`).

## Model

| member | source | states |
|---|---|---|
| Advisor.ClassifyUnits | app/optimization/engine.py:54-72 | one benchmark per unit, in order: its own readings, low exactly when more than half of the fleet is above it, the first most efficient unit by name, and the rounded distance to the greatest efficiency, whichever unit has it |
| Advisor.GapIsExact | app/optimization/engine.py:67-68 | on the 0.01 grid the gap is that distance exactly |
| Advisor.MedianSplitsFleet | app/optimization/engine.py:57-61 | at most half of the fleet, rounded down, is low; the median is exactly the threshold above which more than half lies below |
| Advisor.BestUnitIsHigh | app/optimization/engine.py:57-68 | the best unit is high, gaps are never negative, and a low unit is strictly less efficient than the best |
| Advisor.BuildStructuredAdvice | app/optimization/engine.py:79-187 | the advice of every low unit that would move, in order, aligned to the first most efficient unit; fails exactly at the first unit without a benchmark, or on an empty fleet |
| Advisor.AdviceTells | app/optimization/engine.py:136-187 | what given advice tells: the unit and its readings, the benchmark by code, high priority exactly from a gap of 3 on, gain and savings within rounding, and by its tags which setpoints move |
| AdvisorConvergence.AdviceListed | app/optimization/engine.py:87-96 | advising a classified fleet never fails, and lists exactly the advice of its units |
| AdvisorConvergence.AdviceUrgency | app/optimization/engine.py:145-187 | over a whole fleet: advice is high priority exactly when the rounded distance from the last unit with its code to the greatest efficiency is at least 3, and promises a gain of that distance, up to 8 |
| AdvisorConvergence.SameBenchmarkIff | app/optimization/engine.py:87-90 | both functions choose the same best unit, ties included, exactly when the last unit with the best code is that unit again |
| AdvisorConvergence.BestIsNeverAdvised | app/optimization/engine.py:87-96 | and then that unit gets no advice |
| AdvisorConvergence.DuplicateCodesMislead | app/optimization/engine.py:87-90 | two units with a shared code: the worst one is the benchmark, and the best one is advised to follow it |
| AdvisorConvergence.ProposalInEnvelope | app/optimization/engine.py:127-135 | every proposal is in the operating envelope, also after rounding |
| AdvisorConvergence.ProposalDirection | app/optimization/engine.py:106-135 | on the 0.01 grid a setpoint moves the saving way exactly when it is on the good side of its bound |
| AdvisorConvergence.DeltasExplainProposal | app/optimization/engine.py:136-140 | on the grid current plus deltas is the proposal exactly, and what is not listed moves by at most 0.05 |
| AdvisorConvergence.DeltaAt | app/optimization/engine.py:136-140 | for any readings, a setpoint is listed exactly when it moves by more than 0.05, with its rounded move |
| AdvisorConvergence.GapAfterAdoption | app/optimization/engine.py:106-133 | what one adoption does to each gap beyond its dead band: closed, shorter by the greatest step, or overshot by what the least step exceeds it, as far as the envelope goes; and what moves within the dead band |
| AdvisorConvergence.GapShrinks | app/optimization/engine.py:106-125 | so a gap beyond the dead band strictly shrinks, its excess by the whole greatest step or to nothing, and overshoots by less than the least step less the dead band |
| AdvisorHarm.NeverHurtsIff | app/optimization/engine.py:106-135 | whatever the benchmark, adopting the proposal never raises energy or carbon intensity and never lowers efficiency, exactly when the least move of the unit does not, a condition on its own readings |
| AdvisorHarm.GivenNeverHurtsIff | app/optimization/engine.py:106-142 | the same for advice that is given: exactly when none of the six least moves does that moves anything by more than 0.05 |
| AdvisorHarm.AdviceNeverHurts | app/services/physics.py:11-43 | so on the 0.01 grid and the good side of the envelope no proposal hurts |
| AdvisorHarm.HarmlessOffTheGoodSide | app/optimization/engine.py:106-135 | a unit just below the envelope that no proposal hurts |
| AdvisorHarm.AdviceHardlyHurtsOffGrid | app/optimization/engine.py:127-135 | off the grid rounding a proposal costs at most 0.0145 of intensity |
| AdvisorHarm.RoundingCostAttained | app/optimization/engine.py:127-141 | a proposal that costs all of it, and is therefore no advice |
| AdvisorHarm.GivenAdviceHardlyHurts | app/optimization/engine.py:127-142 | advice that is given costs less than 0.009 |
| AdvisorHarm.OffGridAdviceCanHurt | app/optimization/engine.py:127-142 | and no smaller bound holds: advice that costs 0.009 - e / 10, for every small e |
| AdvisorHarm.ColdUnitIsHeated | app/optimization/engine.py:127-142 | a cold unit that is advised to heat up whenever it is low, and whose intensity then rises, whatever the benchmark |
| AdvisorConvergence.NoAdviceIffSettled | app/optimization/engine.py:94-142 | a low unit gets no advice exactly when it is inside every dead band, and cool and fully fed if above 650 |
| AdvisorConvergence.PhysicsAlwaysAbove650 | app/services/physics.py:11-24 | inside the envelope intensity is at least 747, so settled units sit at the cool, full-feed corner |
| Physics.IntensityIsAffine | app/services/physics.py:11-24 | what one more unit of fuel, steam, feed or heat costs between the clips, and where the clips are |
| Physics.CarbonRange | app/services/physics.py:27-38 | inside the feature bounds carbon intensity runs from its floor of 20, met exactly by clean readings, to 46.25, and never meets its ceiling |
| Physics.EfficiencyRange | app/services/physics.py:41-43 | efficiency falls in a straight line from 85 to 77.5 over every intensity, so its own clips never act |
| AdvisorConvergence.AdoptionUsesSlack | app/optimization/engine.py:106-142 | each adoption lowers temperature + fuel + steam - feed by at least 0.06 on the grid (0.035 off it) |
| AdvisorConvergence.AdoptionsAreBounded | app/optimization/engine.py:93-142 | in any run of advise, adopt and re-measure the adoptions are paid for by the slack at the start |
| AdvisorConvergence.AdoptionLowersRank | app/optimization/engine.py:106-142 | each adoption takes a unit at least one whole least step on, from anywhere, on or off the grid |
| AdvisorConvergence.EveryRunSettles | app/optimization/engine.py:93-142 | at most 125 adoptions per unit over any run from anywhere, 124 from inside the envelope |
| AdvisorConvergence.QuietIffSettled | app/optimization/engine.py:93-142 | a fleet gets no advice exactly when all its units that are taken for low are settled; with distinct codes these are the low units |
| AdvisorConvergence.FleetSettles | app/optimization/engine.py:93-142 | adopting everything for more than 124 rounds per unit reaches a fleet whose units taken for low are all settled |
| AdvisorSimulation.SimulationNeverWorse | app/optimization/simulate.py:27-62 | through the physics fallback no advice is reported as raising intensity or carbon or as lowering efficiency, despite three roundings |
| AdvisorSimulation.EfficiencyNotLowered | app/ml/serve.py:240-245 | efficiency taken from the rounded intensity still does not fall below the one taken from the unrounded intensity before |
| AdvisorSimulation.DeltasAreDifferences | app/optimization/simulate.py:27-62 | the report states the readings before and the model's answer after, which differ by its deltas exactly, for readings on the grid |
| AdvisorSimulation.HotUnitIsCooled | app/optimization/engine.py:106-139 | a unit that meets all these premises and is advised down to its benchmark's temperature |
| AdvisorSimulation.MissingCarbonLooksWorse | app/optimization/simulate.py:45-59 | without a carbon reading the carbon delta is at least +20 |
| AdvisorEstimates.ReductionInRange | app/optimization/engine.py:145-146 | the promised reduction is between 0 and 12 percent, and positive exactly above the benchmark |
| AdvisorEstimates.SavingIsCappedGap | app/optimization/engine.py:145-153 | the promised saving is the energy of the intensity gap, capped at 12 percent |
| AdvisorEstimates.MeasuredScalesPromise | app/optimization/apply.py:236-245 | within the cap, the measured saving times the current feed is the promised one times the proposed feed |
| AdvisorEstimates.PromiseKeptIff | app/optimization/apply.py:236-245 | a unit that comes down to the benchmark is measured to have saved what was promised exactly when there is no gap, or one within the cap and an unchanged feed, or the cap and the change of feed cancel out |
| AdvisorEstimates.PromiseKeptInside | app/optimization/engine.py:113-153 | inside the envelope: exactly when there is no gap, or one within the cap and a unit fully fed, or near the benchmark's feed at an intensity of at most 650 |
| AdvisorEstimates.PromiseKept | app/optimization/apply.py:236-245 | the rounded figures agree whenever the unrounded ones do |
| AdvisorEstimates.PromiseMissed | app/optimization/apply.py:236-245 | a unit promised 11630 kWh/h and measured to save 12211.5 |
| WorkflowImpact.ImpactStores | app/optimization/apply.py:236-262 | with a baseline and a recent mean the row realizes the drop in intensity at the feed it asked for, in kWh, rounded: positive only if the intensity fell |
| WorkflowImpact.ImpactWithoutSamples | app/optimization/apply.py:229-277 | without them an applied row realizes its estimate, and any other row is left alone |
| WorkflowImpact.CanBeApplied | app/optimization/apply.py:57-191 | every pending or accepted recommendation of a mapped plant can be carried to applied, whatever the configuration; what its row then states, and that nothing else changed |
| WorkflowImpact.CanBeRejected | app/optimization/store.py:164-203 | and can be rejected instead |
| WorkflowImpact.PromiseInRow | app/optimization/apply.py:88-277 | carried through and measured at its benchmark's intensity, a row realizes the measured saving beside the promised one, and both columns agree whenever the promise is kept |
| WorkflowImpact.PromiseMissedInRow | app/optimization/apply.py:88-277 | a run from an empty table whose row states 11630 promised and 12211.5 realized |
| Calendar.DaysBeforeYearClosedForm | app/carbon/reports.py:49-52 | the calendar behind `datetime`: year lengths with leap years add up to the closed form Python counts days by |
| Calendar.DaysBeforeMonthClosedForm | app/carbon/reports.py:49-52 | month lengths add up to a closed form that knows no month by name |
| Calendar.DayNumberClosedForm | app/carbon/reports.py:49-52 | so the day number of every date is Python's ordinal, less one, in closed form |
| Calendar.DateRoundTrip | app/carbon/reports.py:49-52 | dates and day numbers are in one-to-one correspondence, so adding days is the odometer |
| Calendar.AddMonthsAdds | app/carbon/reports.py:68-72 | adding months is addition on month indices to the first of the month, keeps time of day and zone, composes additively, and fails exactly out of range |
| PeriodWindows.TilesPartition | app/carbon/reports.py:40-43 | the periods of a kind cover every day exactly once |
| PeriodWindows.TilesNest | app/carbon/reports.py:40-43 | twelve months tile each year |
| PeriodWindows.DaysTileAll | app/carbon/reports.py:40-43 | days tile every period |
| PeriodWindows.PeriodWindowIsTile | app/carbon/reports.py:34-65 | `period_window` returns exactly the wanted period of the wall clock, and fails exactly at the two ends of the range of `datetime` |
| PeriodWindows.CurrentContains | app/carbon/reports.py:48-65 | the current window contains the reference instant |
| PeriodWindows.CompletedEndsAtCurrent | app/carbon/reports.py:48-65 | the completed window ends where the current one starts |
| PeriodWindows.WindowsDoNotOverlap | app/carbon/reports.py:34-65 | windows asked for at any two times coincide or do not overlap, completed and current mixed |
| PeriodWindows.NeverPartlyIff | app/carbon/reports.py:44-65 | windows of references with two UTC offsets never partly overlap exactly when the offsets differ by whole days (daily) or are equal (monthly, yearly) |
| PeriodWindows.OffsetsMisalign | app/carbon/reports.py:44-65 | only offsets a whole number of days apart can share a window start |
| PeriodWindows.OverlapAcrossOffsets | app/carbon/reports.py:44-65 | any two offsets that do not agree have references whose current windows start apart and overlap |
| PeriodWindows.WindowForIsTile | app/carbon/periods.py:25-46 | the second calculator returns the previous period of the UTC clock |
| PeriodWindows.WindowToDate | app/carbon/periods.py:49-74 | or, when the previous period is not asked for, the current one from its start up to the reference |
| PeriodWindows.CalculatorsAgreeIffUtc | app/carbon/periods.py:19-46 | the two calculators give the same completed window exactly for references in UTC |
| PeriodWindows.CalculatorsFailTogether | app/carbon/periods.py:25-46 | in UTC they fail for the same references |
| ReportStore.Store.Generate | app/carbon/reports.py:150-255 | new table, id counter and outcome for every input: bad reference, unknown plant, no data, insert, update, locked |
| ReportStore.Store.Upsert | app/carbon/reports.py:191-253 | one row per plant, start and type; a locked one is left alone, else only end and figures change |
| ReportTiling.GenerationFailsIff | app/carbon/reports.py:88-170 | a generation fails exactly for a reference at the end of the range, an unknown plant or missing data, in this order, and then changes nothing |
| ReportTiling.GenerationStores | app/carbon/reports.py:159-253 | otherwise the report of the wanted period of the wall clock has the new figures, a draft if it is new, and no other report changes; unless it is locked |
| ReportStore.Store.Assure | app/carbon/assurance.py:88-168 | guard, new status, signer and one trail event of each transition |
| ReportStore.Store.BuildPayload | app/carbon/market.py:60-81 | one item per row, in order, with its total |
| ReportStore.Store.Sync | app/carbon/market.py:100-170 | one batch of the queried rows with status empty, staged, synced or failed |
| ReportRuns.SyncStates | app/carbon/market.py:43-170 | each item of a batch is a matching report, once, the newest first, all of them if they are few; and what its status says became of it |
| ReportTiling.NoDoubleCounting | app/carbon/reports.py:159-253 | over every run whose references of a type agree in their offsets, stored reports of one plant and type have disjoint, non-empty windows |
| ReportTiling.DoubleCounting | app/carbon/reports.py:159-253 | and only then: any two offsets that do not agree have a run of two generations that stores overlapping reports |
| ReportRuns.StatusMatchesTrail | app/carbon/assurance.py:88-168 | over every run the trail has the shape of exactly one status, the stored one |
| ReportRuns.CanBeLocked | app/carbon/assurance.py:88-168 | every report can be locked by taking the steps that are left, each signed, without touching its figures or any other report |
| ReportRuns.RefusedOutOfTurn | app/carbon/assurance.py:88-168 | and a step is taken exactly when it is in turn; otherwise it is refused and changes nothing |
| ReportRuns.ReplayShape | app/carbon/assurance.py:88-168 | a trail that replays to locked is submitted (once or more), approved, locked |
| ReportRuns.LockedIsFrozen | app/carbon/reports.py:209-221 | no later run changes figures, window, signers or trail of a locked report |
| ReportRuns.ExportsAgree | app/carbon/market.py:58-81 | two locked-only batches of any times state the same of the same report, and the total is the sum of its scopes |
| ReportSigners.SignersMatchTrail | app/carbon/assurance.py:98-165 | over every run the row names the submitter, approver and locker its trail names |
| ReportRuns.FiguresChangeIff | app/carbon/reports.py:209-253 | figures change exactly when a generation hits the key of an unlocked report with other figures |
| ReportRuns.ApprovedFiguresCanChange | app/carbon/reports.py:209-253 | the figures of an approved report can still be replaced |
| SetpointWrites.PlanSetpointWrites | app/ingestion/opcua_write.py:43-90 | the plan of the whole proposal, or refusal of an unknown plant; every planned write goes to the write node of its tag, or without one to its read node, with the proposed value and the raw value the tag's scale makes of it |
| SetpointWrites.PlanPartitions | app/ingestion/opcua_write.py:39-91 | every setpoint is planned, to the right node and with the right values, or skipped with its reason; only allowlisted writable tags are planned, and nothing else appears |
| SetpointWrites.PlanInOrder | app/ingestion/opcua_write.py:53-90 | writes and skips come in the order of the proposal |
| SetpointWrites.ReadBackIff | app/ingestion/opcua_write.py:70-73 | a written setpoint reads back as proposed exactly when the tag has a scale (or the value is its offset) |
| SetpointWrites.ZeroScaleMisreads | app/ingestion/opcua_write.py:70-73 | a setpoint of 5 at a tag of scale zero reads back as 0 |
| SetpointWrites.WriteSetpoints | app/ingestion/opcua_write.py:93-164 | dry run, refusal, full write or break-off, and exactly the values that went out |
| Workflow.Store.Persist | app/optimization/store.py:75-116 | one pending row and one "created" event per piece of advice |
| Workflow.Store.Simulate | app/api/routes/optimization.py:226-233 | stores the delta whatever the status, and logs nothing |
| Workflow.Store.SubmitFeedback | app/optimization/store.py:164-203 | accept or reject from pending or accepted, with its event, else the error and no change |
| Workflow.Store.Approve | app/optimization/apply.py:57-85 | approves accepted recommendations only |
| Workflow.Store.Apply | app/optimization/apply.py:88-191 | gates, values sent, and what is recorded on success, refusal and broken link |
| Workflow.Store.MeasureImpact | app/optimization/apply.py:194-277 | measured or estimated saving and its event, or neither |
| WorkflowRuns.StatusMatchesLog | app/optimization/apply.py:57-191 | over every run each status is the replay of the audit log, which has that status's shape |
| WorkflowRuns.ReplayShape | app/optimization/store.py:175-199 | the shape of the log each status stands for |
| WorkflowRuns.NoActionWithoutApproval | app/optimization/apply.py:100-127 | every value ever sent is the proposed value of an allowlisted field, to the write node of its tag if it has one, of a recommendation whose log then read created, accepted, approved, simulated if the gate is on |
| WorkflowRuns.AppliedSends | app/ingestion/opcua_write.py:108-164 | a dry apply sends nothing; a successful live one sent its whole, non-empty plan; a broken one a first part of it |
| WorkflowRuns.DryRunsSendNothing | app/optimization/apply.py:110-127 | over any run of dry applies nothing is sent |
| WorkflowSigners.SignersMatchLog | app/optimization/apply.py:72-149 | over every run the row names the approver and applier the log names, and is resolved exactly when rejected or applied |
| WorkflowRuns.ClosedStaysClosed | app/optimization/store.py:175-178 | rejected, applied and failed are final over every run |
| WorkflowRuns.TickOnlyAddsPending | app/rto/scheduler.py:69-75 | an RTO tick sends nothing, changes no existing row and adds one pending row per piece of advice |
| WorkflowRuns.UnloggedWritesIff | app/optimization/apply.py:97-139 | values go out unlogged exactly when every gate is passed, there is something to write and the link breaks after the first write |
| WorkflowRuns.SentTwice | app/optimization/apply.py:124-139 | and a second such attempt sends them again under the same approval |
| MemoryRecs.MemoryRecStore.Persist | app/demo/memory_recs.py:68-105 | rows, ids and audit events of every piece of advice |
| MemoryRecs.CreationIsTold | app/demo/memory_recs.py:68-105 | a new row is pending and logged as created by the system, both under the next ids |
| MemoryRecs.MemoryRecStore.SetStatus | app/demo/memory_recs.py:127-168 | status and extras are stored first; an unserializable extra then uses up an audit id and writes no event |
| MemoryRecs.MemoryRecStore.Handle | app/api/routes/optimization.py:259-454 | guards, effects and extras of the memory branches |
| MemoryRecs.RunNumbered | app/demo/memory_recs.py:76-105 | over every run recommendation ids are consecutive from the base and audit ids strictly increase |
| MemoryRecs.ToldAfterStep | app/demo/memory_recs.py:127-168 | exactly when the last audit event of a recommendation tells its status |
| MemoryRecs.ApprovalIsUntold | app/api/routes/optimization.py:328-335 | a run after which a recommendation is approved and its log says accepted |
| MemoryRecs.SignedThoughUntold | app/demo/memory_recs.py:127-168 | what the row of a rejection, approval or application that leaves no event then says: who, when and how; an audit id is used up |
| MemoryRecs.AcceptanceIsTold | app/demo/memory_recs.py:127-168 | accepting is the one decision that is logged, by its operator and under the next audit id |
| MemoryRecs.ImpactRealizesPart | app/api/routes/optimization.py:429-454 | measuring impact realizes 85% of the estimate whatever the status, and logs it |
| MemoryRecs.RunStaysBehind | app/demo/memory_recs.py:127-168 | over every run the log never states more than was reached |
| MemoryRecs.RunReplays | app/api/routes/optimization.py:319-338 | every status sequence of the memory branches is one the database status machine allows |
| MemoryRecs.MemoryFollowsDatabaseIff | app/api/routes/optimization.py:364-382 | plants, proposals, estimates, simulations and statuses stay those of the database workflow exactly unless memory applies what the database would refuse or fail to send |
| MemoryRecs.OutcomesAgreeIff | app/api/routes/optimization.py:259-454 | callers are told the same exactly unless the request is a rejection, approval or application that is carried out, or an impact measurement at a status the database refuses |
| MemoryRecs.StepAgreesIff | app/api/routes/optimization.py:259-454 | a memory step is the database step in all columns and in its outcome exactly when the request does not deviate, in its outcome or in the saving it realizes |
| MemoryRecs.RunFollowsDatabase | app/api/routes/optimization.py:259-382 | whole memory runs in which nothing overreaches are database runs in plants, proposals, estimates, simulations and statuses |
| MemoryRecs.RunAgrees | app/api/routes/optimization.py:259-454 | whole memory runs in which nothing deviates are database runs in all columns |
| MemoryRecs.DryRunsNeverOverreach | app/api/routes/optimization.py:364-382 | nothing overreaches with the gate off, all plants mapped and dry runs only |
| Rto.RTOScheduler.RunOnce | app/rto/scheduler.py:51-89 | when a tick queues, where the rows go, and the count it returns |
| Rto.QueuesIff | app/rto/scheduler.py:59-89 | after any run a tick queues its batch exactly when there is advice and every batch so far is at least the interval old, so no due batch is skipped |
| Rto.QueuedIsStored | app/rto/scheduler.py:69-89 | a queued batch is stored in the database unless that fails before its commit, and in memory exactly when the database fails and memory is allowed and works |
| Rto.BatchRate | app/rto/scheduler.py:59-67 | batches are at least the interval apart, so a span holds at most span / interval + 1 |
| Rto.RowsAreReported | app/rto/scheduler.py:69-89 | rows in both stores are the reported counts plus exactly those of database attempts that failed after their commit and before their count, or whose count is that of the copies in memory |
| Rto.QueuedTwiceIff | app/rto/scheduler.py:71-84 | exactly which batches end up in both stores |
| Rto.QueuedTwice | app/rto/scheduler.py:71-84 | a single tick whose recommendation is queued twice and reported once |
| Alerts.AlertTable.RaiseIfNeeded | app/ingestion/freshness.py:101-146 | the existing young alert or one new alert of the right type |
| Alerts.AlertTable.ResolveAlert | app/ingestion/freshness.py:159-167 | the alert gets its resolution time, or there is none |
| Alerts.RaisesIff | app/ingestion/freshness.py:55-142 | checking and raising adds an alert exactly when the stream is missing, stale or unhealthy and every open alert of that kind is at least the cooldown old |
| Alerts.ResolvedRaisesAgain | app/ingestion/freshness.py:117-167 | resolving an alert closes that one and no other, and the cooldown then no longer holds a new one back |
| Alerts.RunJustified | app/ingestion/freshness.py:55-142 | over every run each alert was raised by a check whose stream called for its kind |
| Alerts.RunSpaced | app/ingestion/freshness.py:117-142 | over every run open alerts of one plant and type are at least the cooldown apart |
| Alerts.AlertRate | app/ingestion/freshness.py:117-167 | a span creates at most span / cooldown + 1 alerts plus the resolved ones |
| Swarm.Remember | app/services/vsg.py:74-81 | the inner loop's effect on personal bests, scores and archive |
| Swarm.Iterate | app/services/vsg.py:65-83 | one turn of the outer loop, in place, is one step of the swarm |
| Swarm.Optimize | app/services/vsg.py:50-83 | the whole run of the two loops |
| Swarm.IterationPulls | app/services/vsg.py:66-73 | in every iteration, for all states and draws, each particle keeps 0.6 of its velocity and is pulled toward its own and the global best in proportion to its distance from each, 1.4 times the factor; at rest it never goes more than 1.8 times the distance past them; and the box only clips that |
| Swarm.FirstIterationPulls | app/services/vsg.py:50-73 | in particular in the first iteration of a run, toward the best start |
| Swarm.FitnessIsIntensity | app/services/vsg.py:54-81 | what is minimized is the rounded intensity of a place read as power, fuel, steam, feed and temperature, and what is archived are its rounded readings |
| Swarm.IterationIsSound | app/services/vsg.py:65-83 | every iteration keeps every particle's memory, the box, and the global best |
| Swarm.PersonalBest | app/services/vsg.py:74-78 | each score is the exact minimum fitness the particle has had, attained by its personal best |
| Swarm.GlobalBest | app/services/vsg.py:82-83 | the global best attains the minimum over all particles and all time |
| Swarm.SwarmFindsTheBest | app/ml/vsg.py:80-102 | both of these for the physics fitness and all draws, after every iteration |
| Swarm.StaysInBox | app/services/vsg.py:73-73 | no particle ever leaves the box |
| Swarm.ArchiveInBox | app/services/vsg.py:79-81 | every archived sample is the shot of a position in the box |
| Swarm.ArchiveLength | app/services/vsg.py:65-81 | the archive holds particles x iterations samples |
| Swarm.ArchiveAt | app/services/vsg.py:65-81 | and is in order: entry n * k + i shows where iteration k put particle i |
| Swarm.FeaturesInBounds | app/services/vsg.py:12-18 | rounding never pushes a generated feature over its bound |
| Swarm.GeneratePso | app/services/vsg.py:39-88 | min(n, particles x iterations) samples of the swarm's archive, all within bounds; fails exactly without particles |
| Swarm.EmpiricalBoxContains | app/ml/vsg.py:15-27 | the empirical box strictly contains every real row |
| Swarm.EmpiricalBoxMargins | app/ml/vsg.py:15-27 | each side is a twentieth of the column's range, and 0.00000005, away from the furthest real value |
| Swarm.SeedsAreNear | app/ml/vsg.py:65-72 | each chosen real row starts a particle, shifted by its noise in units of the box and never further |
| Swarm.GeneratePsoFromReal | app/ml/vsg.py:50-107 | the same from real rows, every sample taken inside the empirical box |
| OpcCache.PlantConnectSession.Connect | app/ingestion/opcua_session.py:46-69 | connecting once, seeding the cache in subscription mode |
| OpcCache.PlantConnectSession.SetupSubscriptions | app/ingestion/opcua_session.py:71-88 | every mapped sensor field of every plant is seeded |
| OpcCache.PlantConnectSession.UpdateCache | app/ingestion/opcua_session.py:160-167 | a notification is stored under the first tag with its node |
| OpcCache.PlantConnectSession.ReadPlant | app/ingestion/opcua_session.py:141-158 | cached answer or polled answer, and the new cache |
| OpcCache.DistinctNodesAreOwned | app/ingestion/opcua_session.py:160-167 | with distinct nodes each notification reaches its own field |
| OpcCache.RunCoherent | app/ingestion/opcua_session.py:71-167 | over every run the cache holds mapped fields only, each with the last delivery of its node |
| OpcCache.RunStaysFull | app/ingestion/opcua_session.py:71-167 | once every mapped field is cached it stays cached over every run, across disconnections as well |
| OpcCache.ReadsLastIff | app/ingestion/opcua_session.py:141-167 | every read of every run returns for every mapped field the last seed or notification, exactly when each mapped field owns its node |
| OpcCache.ReadAfterAnyRun | app/ingestion/opcua_session.py:141-158 | in particular with distinct node ids |
| OpcCache.PollingReadsPresent | app/ingestion/opcua_session.py:141-158 | without subscription a read returns the server's present answer for every mapped field, after any run |
| OpcCache.LengthTestIsExact | app/ingestion/opcua_session.py:147-147 | comparing lengths is comparing the sets of fields |
| OpcCache.NotificationReachesIff | app/ingestion/opcua_session.py:160-167 | with shared nodes, exactly which field a notification refreshes |
| OpcCache.UnownedGoesStale | app/ingestion/opcua_session.py:141-167 | for any mapped field that does not own its node, a run after which a read returns a stale value |
| OpcCache.SharedNodeGoesStale | app/ingestion/opcua_session.py:160-167 | two fields on one node: after a notification a read returns the new value for the first and the old one for the second |
| TemporalWindows.BuildTemporalWindows | app/ml/lstm.py:21-51 | window k is rows k to k + lookback - 1 with its flat form and its last row's target, or one left-padded window |
| TemporalWindows.FlattenAt | app/ml/lstm.py:42-46 | entry c of row r of a flat window is at place width * r + c |
| TemporalWindows.TemporalSplitIsOrdered | app/ml/dataset.py:140-143 | two ordered parts, both non-empty for n > 1, for every ratio |
| TemporalWindows.TestShare | app/ml/dataset.py:140-149 | a proper ratio holds out the least whole number of rows that makes it up, or all but one, in both splits |
| TemporalWindows.ImproperShare | app/ml/dataset.py:140-143 | a ratio of zero or less holds out one row, one of one or more all but one |
| TemporalWindows.NoLeakage | app/ml/dataset.py:138-143 | without virtual samples no training window or target comes from a test row |
| TemporalWindows.ShuffledSplitIsDisjointIff | app/ml/dataset.py:145-152 | training and test rows are disjoint exactly when the cut leaves something over |
| TemporalWindows.ProperRatioIsDisjoint | app/ml/dataset.py:148-149 | which it does exactly for a positive ratio and two rows or more |
| TemporalWindows.OnlyRowLeaks | app/ml/dataset.py:148-152 | a single row is trained on and tested on |
| TemporalWindows.FallbackTests | app/ml/dataset.py:150-151 | when nothing is left over the test rows are the last fifth of the training rows, at least one |
| TemporalWindows.ToFlatWindows | app/ml/lstm.py:75-91 | windows of a long series, one weighted repetition per row of a short one |
| TemporalWindows.WeightsAreEven | app/ml/lstm.py:87-90 | the weights grow evenly from 0.6 to 1 |
| TemporalWindows.TailsAreAligned | app/ml/train.py:172-174 | each prediction is scored against the target of its own window's last row |
| Drift.RebuildColumn | app/ml/train.py:239-242 | each bin's midpoint as often as it counted |
| Drift.MidIsNearest | app/ml/train.py:239-239 | no rebuilt value is further than half the width of its bin from what it stands for, and no other choice does better |
| Drift.HistogramRoundTrip | app/ml/train.py:236-244 | binning the rebuilt column under its increasing edges gives back the counts |
| Drift.EveryValueCounted | app/ml/drift.py:45-46 | covering edges count every value exactly once |
| Drift.LinspaceIsEven | app/ml/drift.py:22-22 | the edges of the index run in even steps from end to end |
| Drift.AutoRangeCovers | app/ml/drift.py:45-46 | stored edges run from the least value to the greatest, or half a unit around a single one |
| Drift.EdgeCountsRight | app/ml/drift.py:23-24 | a value on an inner edge counts to the right of it |
| Drift.ReferenceColumnsKeepLength | app/ml/drift.py:35-48 | a stored column rebuilds to its own length and histogram |
| Drift.ReferenceMatrix | app/ml/train.py:230-252 | rebuilt columns, or random ones where statistics are missing or corrupt, cut to the shortest |
| Drift.MatrixRoundTrip | app/ml/train.py:230-252 | with the statistics of one matrix nothing is cut and every histogram comes back |
| Drift.MatrixKeepsAllIff | app/ml/train.py:234-252 | the cut drops nothing exactly when all stored statistics count equally many values, where missing or corrupt ones stand for 50 |
| Drift.MissingStatsCut | app/ml/train.py:244-252 | a column cut by a shorter one loses its histogram and keeps only its lowest values |
| Drift.PsiIsADivergence | app/ml/drift.py:12-32 | the index is non-negative, symmetric, and zero exactly when the smoothed proportions agree |
| Drift.SmoothedInProportion | app/ml/drift.py:25-31 | the smoothed proportions are those of the shares, where none counts for less than one value in ten thousand |
| Drift.SmoothedAddUp | app/ml/drift.py:25-31 | and add up to one |
| Drift.WellFilledIsExact | app/ml/drift.py:25-31 | and are the shares themselves when every bin holds that much |
| Drift.NothingToCompare | app/ml/drift.py:16-21 | fewer than five values, or a range below 0.000000000001, give an index of zero |
| HtmlEscape.ChainIsCharacterMap | app/carbon/esg_pack.py:92-99 | the four chained replacements are one per-character map |
| HtmlEscape.EscapedIsClean | app/carbon/esg_pack.py:92-99 | no raw `<`, `>` or `"` is left, and every `&` starts one of the four references |
| HtmlEscape.UnescapeEscape | app/carbon/esg_pack.py:92-99 | unescaping gives back every input |
| HtmlEscape.AmpersandFirstMatters | app/carbon/esg_pack.py:95-95 | with the ampersand last the references would be escaped themselves |
| CarbonScopes.RatesAgreeWithIntegrals | app/services/carbon.py:55-99 | scopes from mean rates over a duration equal scopes from the integrated totals, for all inputs |
| CarbonScopes.ScopesPriceTheirOwn | app/services/carbon.py:84-99 | gas and steam are priced in scope 1 and electricity in scope 2, each by its own factor and unit |
| CarbonScopes.ScopesAreProportional | app/services/carbon.py:84-90 | n times the totals make n times the unrounded scopes |
| CarbonScopes.ProductIsFloored | app/services/carbon.py:86-99 | without any product the intensity is that of a millionth of a ton; else the product is stated to the nearest kilogram |
| CarbonScopes.IntensityIgnoresDuration | app/services/carbon.py:55-62 | the intensity of mean rates does not depend on how long they are held |
| CarbonScopes.TotalError | app/carbon/scope3.py:105-114 | the rounded total is within 0.02 of its rounded parts, and exactly when it is 0.02 away |
| CarbonScopes.Scope3TotalWithinBound | app/carbon/scope3.py:96-122 | so for every plant and period |
| CarbonScopes.Scope3BoundAttained | app/carbon/scope3.py:96-122 | and the bound is attained |
| CarbonScopes.CategoriesPriceTheirOwn | app/carbon/scope3.py:103-114 | upstream emissions follow the fuel, purchased goods and waste the product, each by its own factor |
| CarbonScopes.QuantitiesPriceTheirOwn | app/carbon/scope3.py:103-114 | and each in proportion to its quantity |

## Left out

- Floating-point error: values are exact reals, so an off-by-one-ulp effect of a rounding or a
  comparison is not captured; neither are NaN and infinities.
- Concurrency: each operation is one transaction; races between processes on reports or alerts, and the
  moment between committing recommendation rows and writing their "created" events, are not modelled
  inside the workflow (the scheduler's view of such a failure is, in `Rto`).
- Rto.RTOScheduler.RunOnce: a failing computation is one input; the retry without a database inside
  `run_once` is part of it.
- MemoryRecs.MemoryFollowsDatabaseIff: compares the columns a status is decided by;
  MemoryRecs.StepAgreesIff compares all columns.
- MemoryRecs.MemoryRecStore.Handle: listing and the fields that only feed the display (title, rationale,
  benchmark) are not kept; the answer of a memory apply is written in the source but never given,
  because storing the time of application fails first.
- ReportTiling.NoDoubleCounting: per offset for monthly and yearly reports, and per offset modulo whole
  days for daily ones; ReportTiling.DoubleCounting shows that no more holds.
- TemporalWindows.BuildTemporalWindows: a positive lookback, and as many targets as rows.
- Drift.PsiIsADivergence: holds for every function that grows and turns quotients into differences; the
  natural logarithm is one.
- OpcCache.RunCoherent: reads of plants in the tag map; subscriptions delivering during a connect,
  failing connects and the asyncua client are not modelled.
- Workflow.Store.Apply: the fallback to an intensity in the stored current setpoints is left out,
  because the advisor never stores one; baseline efficiency is recorded beside intensity and not used
  further.
- ReportStore.Store.Sync: the staging file, its name and the message texts; a report stored before
  assurance statuses existed (null status).
- `advice_to_text`, titles and rationales, `freshness_to_dict`, exports and the ESG pack around `esc`:
  formatting only.
- `compute_rto_cycle`: it classifies and advises as modelled and appends one tag; the ticks of
  `WorkflowRuns` and `Rto` take its advice as input.
- `generate_monte_carlo`: one uniform draw per row with the same rounding and physics as a swarm sample,
  and no state.
- `classify_units_legacy` and `build_recommendations`: an older path that nothing in the modelled
  workflow calls.
- The demo rescaling in `load_unit_states`: the advisor's theorems start from the engine's inputs.
- `MemoryReportStore.set_assurance` accepts any status in any state, so the lifecycle results are about
  the database path.
- Extreme Learning Machine and LSTM training and calibration: they rest on `pinv`, `lstsq` and torch.
- Authentication, web routes, Kafka, SQL schema code, dashboards and deployment files: no logic to prove here.
