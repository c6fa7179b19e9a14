# Batsim and Batsched: schedules, EASY backfilling and job submission

Batsim simulates a batch system; Batsched takes its scheduling decisions. This project models the parts of both that
rest on invariants no single function shows, and proves those invariants and what follows from them. Each module
describes one component; `dafny verify dfyconfig.toml` checks them all.

- **The availability profile** (`machines`, `profile`, `placement`, `removal`, `first_fit`, `slots`, `runs`, `ends`,
  `open_jobs`, `queries`, `history`, `membership`, `schedule`). The future of a platform is a list of contiguous time
  slices, each with its free and allocated machines, a counter and the jobs that hold machines. The class `Schedule`
  changes that list in place; a pure function describes every operation, and each method is proved equal to its
  function. About the functions it is proved that they keep the profile invariant and the normal form, what they
  change at every instant, that removing undoes adding, that first fit is the earliest possible start over all
  instants, and that after any history of insertions, removals and moves of the present the listing of the allocations
  reads back what first fit granted.
- **EASY backfilling over the profile** (`queue`, `vacancy`, `easy_bf2_model`, `easy_bf2_proofs`, `easy_bf2_accounts`,
  `easy_bf2_guarantee`, `easy_bf2_starts`, `easy_bf2_runs`, `easy_bf2_progress`, `easy_bf2_waits`, `easy_bf2_packs`,
  `rejections`, `tie_run`, `easy_bf2`). One call of `make_decisions` is one step of a state machine, in which a failed
  assertion of the program is the result None. Over whole runs, and for every queue order, the date reserved for the
  head of the queue never slips, and at a call at that date the head starts, once the jobs due by then have ended; no
  job is lost or started twice; in first-come order no job starves, and no job waits that could start; and no call
  aborts unless its caller breaks the rules. The class `EasyBackfilling2` is proved to perform exactly these steps.
- **The rewritten EASY scheduler** (`heap_sort`, `easy_bf3_model`, `easy_bf3_proofs`, `easy_bf3_accounts`, `easy_bf3`,
  `shadow`, `backfills`, `easy_bf3_packs`, `head_delay`, `agreement`, `mirror_runs`). It keeps a heap-sorted list of
  running jobs, a set of free machines, and a shadow time with a count of spare machines for the head. Machines are
  conserved and the head never waits while it fits; the heap sort is right for every length; the shadow time is the
  earliest date by which the head's machines are free, and is the very start that first fit finds on the profile. One
  backfill after a check of the head is safe; for those of a whole call the exact condition is proved, with a run in
  which the program delays the head; and a call refuses no job that its rule would let start.
- **Submission** (`graph`, `workflow`, `submission`). The workflow submitter runs a task graph under a limit on
  concurrent jobs, with completions in any order, and completes exactly the tasks that no cycle leads to. The static
  submitters send jobs and events in batches at their dates.
- **Kill and resubmit** (`checkpoint`, `job_ids`, `job_names`). Each round rewrites the remaining delay, the number of
  dumps and the identifier of the job; conservation laws and bounds hold over any number of rounds.

Time, walltimes and delays are exact `real` numbers, machines are natural numbers, interval sets are sets of them, and
a job is known by its identifier. Logs, clocks, the network and the simulation kernel are left out; dates, completions
and the order in which they come are parameters, over which every statement about runs is quantified.

Where the program departs from what its comments or its design promise, the model follows the program:

- `Workflow::add_edge` looks for the parent among its own children, so it can record an edge twice or by one end only
  (`Graphs.AddEdgeKeepsLinksIff`, `Graphs.BuildLinksIff`, `Graphs.KnownEdgeIsRepeated`). The theorem about the
  submitter's loop assumes consistent links; without them a task can wait for ever (`Workflows.OnlyParentIff`,
  `Workflows.RepeatedEdgeStarves`).
- The rewritten scheduler does not lower the spare count after a backfill (`Shadows.BackfillsAreSafeIff`,
  `Backfills.CallIsSafeIff`, `HeadDelays.BackfillsDelayHead`).
- `add_repair_machine` lowers the counter of slices that have allocated the machine (`Slots.TakeOutKeepsIff`,
  `Slots.BusyTakeOutMiscounts`), and such a machine can be lost for good (`Slots.BusyRepairIsLost`).
- A checkpoint flag that is already in the metadata, set to false, is never turned on
  (`Checkpoints.FirstCheckpointAccountedIff`, `Checkpoints.FalseFlagStays`), and restored run time can make the
  remaining delay negative (`Checkpoints.RestoredRuntimeOvershoots`).
- In a job allocation of a single slice the program leaves `end` at its default (`FirstFits.EndIsReturnedIff`,
  `FirstFits.EndIsLost`).
- `update_first_slice` tolerates a date a little past the first slice, and then leaves a slice that ends before it
  begins (`Slots.AdvanceKeepsIff`, `Slots.TolerancePassesTheEnd`).
- A mark in the name of a workload makes some of its identifiers read back as others (`JobIds.NameRoundTripsIff`,
  `JobIds.MarkInWorkloadMisleads`), and a resubmitted job can get an identifier it had before
  (`JobNames.NeverRepeatsIff`, `JobNames.SameIdentifierTwice`).
- In first-come order a job released at the head's own date can take its place (`EasyBf2Runs.FcfsKeepsHeadIff`,
  `TieRuns.TieTakesThePlace`).

## Model

| member | source | states |
|---|---|---|
| `Machines.FitContract` | batsched4/src/locality.cpp:29-39 | A fit answers exactly when the free machines contain an allocation of the selector's shape (any n machines, or n consecutive ones), and then answers with n machines that are free. |
| `Machines.FitMonotone` | batsched4/src/locality.cpp:29-39 | More free machines never turn a fit into a failure. |
| `Machines.LeftUnique` | batsched4/src/locality.cpp:33 | The n lowest machines are the only n machines of the set that are below all its others. |
| `Machines.FitIsLowest` | batsched4/src/locality.cpp:29-102 | The basic selector grants the lowest free machines, the contiguous one the lowest block of consecutive free machines. |
| `Machines.BasicFit` | batsched4/src/locality.cpp:29-39 | The method computes the basic selector's answer. |
| `Machines.ContiguousFit` | batsched4/src/locality.cpp:86-102 | The upward scan over the stored maximal intervals finds the lowest block of n consecutive free machines, and fails exactly when there is none. |
| `Schedules.Schedule.constructor` | batsched4/src/schedule.cpp:30-49 | A new schedule is one idle slice up to the horizon; it satisfies the profile invariant, the normal form, and has an idle last slice. |
| `Schedules.Schedule.SplitSlice` | batsched4/src/schedule.cpp:1717-1756 | Splits the slice in place exactly when the date lies strictly inside it. |
| `Schedules.Schedule.PlaceJob` | batsched4/src/schedule.cpp:1390-1400 | Allocating the slices in place and splitting the last one gives the placed profile. |
| `Schedules.Schedule.AddJobFirstFitAfterTimeSlice` | batsched4/src/schedule.cpp:1329-1509 | The new profile and the returned allocation are those of first fit from the given slice, for jobs with and without a walltime; the size counters grow exactly when the job was inserted. |
| `Schedules.Schedule.AddJobFirstFit` | batsched4/src/schedule.cpp:748-757 | As above from the first slice; the invariant, the period and the normal form are kept, also when the insertion fails, and the last slice stays idle when the job would end before the horizon from there. |
| `Schedules.Schedule.FindFirstOccurenceOfJob` | batsched4/src/schedule.cpp:1758-1770 | Finds the first slice from the starting point that holds the job, or the end. |
| `Schedules.Schedule.FindLastOccurenceOfJob` | batsched4/src/schedule.cpp:1772-1797 | The backward search stops at the start of the job's only run, or reports the end exactly when no slice holds the job. |
| `Schedules.Schedule.MergeWithPrevious` | batsched4/src/schedule.cpp:2578-2610 | Merges the slice with its predecessor exactly when both hold the same jobs. |
| `Schedules.Schedule.RemoveJobInternal` | batsched4/src/schedule.cpp:2529-2718 | Erases the job from its whole run in place, merging on the way, and lowers the counters by one. |
| `Schedules.Schedule.RemoveJob` | batsched4/src/schedule.cpp:701-737 | Removes a scheduled job; invariant, period, normal form and an idle last slice are kept. |
| `Schedules.Schedule.RemoveJobIfExists` | batsched4/src/schedule.cpp:706-717 | Reports whether the job was there, changes nothing when it was not, and keeps what a removal keeps. |
| `Schedules.Schedule.UpdateFirstSlice` | batsched4/src/schedule.cpp:643-674 | Moves the present to any tolerated date; of the dates in the tolerance, exactly those past the end of the first slice break the invariant. Normal form and an idle last slice are kept. |
| `Schedules.Schedule.AddRepairMachine` | batsched4/src/schedule.cpp:385-424 | Takes the newly broken machines out of every slice; the invariant survives exactly when no slice has allocated one of them. |
| `Schedules.Schedule.RemoveRepairMachines` | batsched4/src/schedule.cpp:450-473 | Puts repaired machines back into every slice that has not allocated them; the invariant is kept. |
| `Placement.SplitValid` | batsched4/src/schedule.cpp:1717-1756 | Splitting keeps the profile invariant. |
| `Placement.PlaceValid` | batsched4/src/schedule.cpp:1381-1400 | Placing a job on machines that are free in all its slices keeps the invariant: tiling, lengths, counters, the partition of the machines, disjoint jobs, one run per job. |
| `Placement.PlaceJobsAt` | batsched4/src/schedule.cpp:1448-1474 | Placing adds the job at exactly the instants of its interval and changes nothing at any other instant. |
| `Placement.PlaceCanonical` | batsched4/src/schedule.cpp:1448-1474 | Placing keeps the normal form: no two neighbouring slices hold the same jobs. |
| `Placement.MergeNeverConflicts` | batsched4/src/schedule.cpp:2598-2601 | The assertion before a merge never fails: neighbours with the same jobs have the same free machines. |
| `Placement.MergeValid` | batsched4/src/schedule.cpp:2603-2609 | Absorbing the previous slice keeps the invariant. |
| `Placement.MergeJobsAt` | batsched4/src/schedule.cpp:2595-2610 | A merge of slices with the same jobs changes nothing at any instant. |
| `Placement.EraseFirstValid` | batsched4/src/schedule.cpp:2565-2576 | Erasing the job from the first slice of its run keeps the invariant, so every intermediate profile of a removal is valid. |
| `Placement.RemoveRunKeeps` | batsched4/src/schedule.cpp:2562-2718 | A removal keeps the invariant and leaves the job in no slice. |
| `Placement.RemoveRunJobsAt` | batsched4/src/schedule.cpp:2562-2718 | At every instant a removal affects at most the removed job. |
| `Removal.RemoveIsRun` | batsched4/src/schedule.cpp:730-737 | Removing a job that is present erases the whole run found by the first-occurrence search, on the machines noted there. |
| `Removal.RemoveKeeps` | batsched4/src/schedule.cpp:701-717 | Removing any job keeps the invariant and the period, and the job is gone. |
| `Removal.RemoveJobsAt` | batsched4/src/schedule.cpp:2529-2718 | At every instant the jobs after a removal are those before, without the removed one. |
| `Removal.RemoveCanonical` | batsched4/src/schedule.cpp:2583-2699 | A removal keeps the normal form, because every slice it can have made equal to its neighbour is merged. |
| `Removal.RemoveUndoesPlace` | batsched4/src/schedule.cpp:2529-2718 | On a profile in normal form, removing a job right after placing it restores the profile exactly. |
| `Removal.RemoveUndoesPlaceAt` | batsched4/src/schedule.cpp:2529-2718 | On any valid profile, removing what was placed restores the jobs and the free machines of every instant. |
| `FirstFits.SpotIsPlaceable` | batsched4/src/schedule.cpp:1354-1498 | The place first fit finds has the requested number of machines, of the selector's shape, free in all its slices, and ends inside the last of them. |
| `FirstFits.AddKeeps` | batsched4/src/schedule.cpp:1329-1509 | An insertion keeps invariant, period and normal form, whether it succeeds or not. |
| `FirstFits.SpotIsFree` | batsched4/src/schedule.cpp:1354-1498 | The chosen machines are free at every instant of the chosen interval. |
| `FirstFits.FirstFitIsEarliest` | batsched4/src/schedule.cpp:1354-1498 | Optimality over all instants, not only slice boundaries: if some machines could serve the request from instant t on for the whole walltime, first fit finds a place that starts at t or before. |
| `FirstFits.FirstFitFailsIff` | batsched4/src/schedule.cpp:1500-1508 | First fit fails exactly when no machine set could serve the request from any instant on, for every request, that for no machine included. |
| `FirstFits.FirstFitIsTotal` | batsched4/src/schedule.cpp:1354-1498 | With an idle last slice, a request that fits the machines in service and ends by the horizon from there always finds a place. |
| `FirstFits.AddKeepsLastIdle` | batsched4/src/schedule.cpp:1390-1400 | Inserting a job that ends before the horizon keeps the last slice idle. |
| `FirstFits.EndIsReturnedIff` | batsched4/src/schedule.cpp:1381-1384 | The end returned with an allocation is the job's end if and only if the job's first slice is too short for it, or that end is the default 0. |
| `FirstFits.EndIsLost` | batsched4/src/schedule.cpp:1381-1417 | A concrete single-slice insertion whose returned end is the default. |
| `OpenJobs.AddAnyKeeps` | batsched4/src/schedule.cpp:1363-1367 | Inserting a job with or without a walltime keeps invariant, period and normal form. |
| `OpenJobs.OpenJobsAt` | batsched4/src/schedule.cpp:1363-1367 | A job without a walltime holds its machines from its begin up to the horizon, and nothing else changes at any instant. |
| `OpenJobs.OpenIsEarliest` | batsched4/src/schedule.cpp:1363-1367 | If some machines could be had from instant t up to the horizon, a job without a walltime begins at t or before. |
| `OpenJobs.OpenFailsIff` | batsched4/src/schedule.cpp:1363-1367 | A job without a walltime finds no place exactly when no machines could be had from any instant up to the horizon. |
| `OpenJobs.AddAnyPresent` | batsched4/src/schedule.cpp:1363-1498 | For jobs with and without a walltime: the answer names the job, and says that it started now if and only if it runs in the first slice afterwards; the other running jobs keep their machines; a failed insertion changes nothing. |
| `OpenJobs.OpenEndIsReturnedIff` | batsched4/src/schedule.cpp:1363-1417 | The end returned for a job without a walltime is the horizon exactly when its first slice is not the last, or the horizon is the default 0. |
| `Ends.RemoveKeepsLastIdle` | batsched4/src/schedule.cpp:2562-2718 | A removal leaves the last slice idle. |
| `Ends.AdvanceKeepsLastIdle` | batsched4/src/schedule.cpp:643-657 | Moving the present leaves the last slice idle. |
| `Ends.RemovedFirst` | batsched4/src/schedule.cpp:2562-2718 | A removal neither empties the first slice nor moves its begin. |
| `Membership.RemoveUndoesAdd` | batsched4/src/schedule.cpp:748-757 | A first-fit insertion followed by a removal restores a profile in normal form exactly, also when the insertion failed. |
| `Membership.AddPresent` | batsched4/src/schedule.cpp:1383 | An inserted job runs in the first slice exactly when the allocation says it started there; the other running jobs keep their machines. |
| `Membership.RemovePresent` | batsched4/src/schedule.cpp:2565-2569 | A removal takes the job out of the first slice and leaves the other running jobs on their machines. |
| `Slots.SlotUnique` | batsched4/src/schedule.cpp:1381-1400 | A job has at most one interval and machine set. |
| `JobRuns.OccupiesUnique` | batsched4/src/schedule.cpp:1381-1400 | A job has at most one run of slices, with one begin, end and machine set, also where the present has reached the end of the first slice. |
| `JobRuns.OccupiesAt` | batsched4/src/schedule.cpp:1381-1400 | At every instant a job holds exactly its granted machines within its grant, and none outside it. |
| `JobRuns.AddOccupies` | batsched4/src/schedule.cpp:1329-1509 | After an insertion the slices of the job run from the chosen begin to begin plus walltime, on the chosen machines. |
| `JobRuns.AddKeepsOccupies` | batsched4/src/schedule.cpp:1329-1509 | An insertion leaves the run of every other job alone, however it splits the slices. |
| `JobRuns.RemoveKeepsOccupies` | batsched4/src/schedule.cpp:2529-2718 | A removal leaves the run of every other job alone, however it merges the slices. |
| `JobRuns.AdvanceOccupies` | batsched4/src/schedule.cpp:643-657 | Moving the present, up to the very end of the first slice, leaves every job the rest of its grant. |
| `Slots.AddedSlot` | batsched4/src/schedule.cpp:1381-1400 | After an insertion the job holds exactly the machines first fit chose, at exactly the instants from its begin to begin plus walltime. |
| `Slots.AddKeepsSlot` | batsched4/src/schedule.cpp:1329-1509 | Inserting a job leaves every other job's interval and machines alone. |
| `Slots.RemoveKeepsSlot` | batsched4/src/schedule.cpp:2529-2718 | Removing a job leaves every other job's interval and machines alone. |
| `Slots.RemoveFreesSlot` | batsched4/src/schedule.cpp:2529-2718 | Once a job is removed its machines are free throughout its interval. |
| `Slots.AdvanceKeeps` | batsched4/src/schedule.cpp:643-657 | Moving the present keeps the invariant, the normal form and the horizon. |
| `Slots.AdvanceKeepsIff` | batsched4/src/schedule.cpp:647-657 | Within the tolerance of the date check, the invariant survives if and only if the present does not pass the end of the first slice. |
| `Slots.TolerancePassesTheEnd` | batsched4/src/schedule.cpp:647-657 | A machine that runs a job until 5, and a present of 5.00005, which the check lets through: the first slice then ends before it begins. |
| `Slots.AdvanceJobsAt` | batsched4/src/schedule.cpp:643-657 | Moving the present changes nothing at any later instant. |
| `Slots.SlotAfterFirst` | batsched4/src/schedule.cpp:643-657 | A job that is not in the first slice starts no earlier than that slice ends, so the present cannot move past it. |
| `Slots.TakeOutKeepsIff` | batsched4/src/schedule.cpp:399-403 | Taking machines out of service keeps the invariant if and only if no slice has allocated any of them. |
| `Slots.BusyTakeOutMiscounts` | batsched4/src/schedule.cpp:399-403 | One machine that runs a job: taking it out of service leaves a counter of -1 and an invalid profile. |
| `Slots.PutBackKeeps` | batsched4/src/schedule.cpp:456-469 | Putting machines back keeps the invariant. |
| `Slots.PutBackUndoesTakeOut` | batsched4/src/schedule.cpp:385-473 | A repair of machines that are free everywhere, once over, restores the profile. |
| `Slots.RemoveKeepsOut` | batsched4/src/schedule.cpp:730-737 | Removing a job makes no machine available that is out of service, whatever profile taking it out left. |
| `Slots.BusyRepairIsLost` | batsched4/src/schedule.cpp:385-473 | A machine that breaks while it runs a job to the end of the profile, loses the job and is repaired: no job holds it, but it is never available again. |
| `Queries.ScanFrom` | batsched4/src/schedule.cpp:1426-1495 | The inner scan finds a place that starts with the slice exactly when there is one; stopping at the first slice with too few machines loses none. |
| `Queries.FindSpot` | batsched4/src/schedule.cpp:1354-1498 | The double loop over the slices computes first fit. |
| `Queries.FindSpotFor` | batsched4/src/schedule.cpp:1354-1498 | The same loop for a job, which sets the walltime of a job without one anew at each slice, computes its first fit. |
| `Queries.QueryWait` | batsched4/src/schedule.cpp:1548-1616 | Returns the begin the insertion of a job of that size and walltime would choose, and -1 exactly when the insertion would fail. |
| `Queries.JobsAllocations` | batsched4/src/schedule.cpp:1645-1710 | Lists exactly one allocation for each job that ends before the last slice, with the begin, end and machines of its run. |
| `Queries.ReportFinished` | batsched4/src/schedule.cpp:1645-1710 | Each job that ends with a slice is reported once, with its first start and last end. |
| `Queries.DescribesHolding` | batsched4/src/schedule.cpp:1645-1710 | What is listed for a job says at every instant of the profile whether the job holds machines, and which. |
| `Queries.AllJobsAreListed` | batsched4/src/schedule.cpp:1660-1710 | With an idle last slice the jobs listed are exactly the jobs of the schedule. |
| `Queries.AddedIsReadBack` | batsched4/src/schedule.cpp:1645-1710 | For a job just placed on any valid profile, wherever the present stands in its first slice, the listed begin, end and machines are the chosen begin, begin plus walltime and the chosen machines. |
| `Histories.HistoryKeeps` | batsched4/src/schedule.cpp:643-757 | Through any sequence of insertions, removals and moves of the present to any date up to and including the end of the first slice, the profile stays valid with an idle last slice and holds exactly the jobs of a ledger of what first fit returned, each from the granted begin (or the present, if later) to the granted end on the granted machines. |
| `Histories.AllocationsReadBack` | batsched4/src/schedule.cpp:1645-1710 | After any such history from a new schedule, the listing has exactly one allocation for each job in the schedule, with the begin (or the present, if later), the end and the machines that first fit granted. |
| `Histories.AlwaysServed` | batsched4/src/schedule.cpp:1354-1498 | After any such history a request that fits the platform and ends by the horizon from the last slice on finds a place. |
| `Queues.BeforeTransitive` | batsched4/src/queue.cpp:48-229 | Each of the comparison orders is transitive. |
| `Queues.BeforeTotal` | batsched4/src/queue.cpp:48-229 | Each order compares any two jobs with different identifiers one way. |
| `Queues.BeforeAsymmetric` | batsched4/src/queue.cpp:48-229 | No order puts two jobs before each other. |
| `Queues.SortPermutes` | batsched4/src/queue.cpp:295-299 | Sorting rearranges the queue. |
| `Queues.SortSorts` | batsched4/src/queue.cpp:295-299 | Sorting distinct jobs puts them in strict order. |
| `Queues.SortIsUnique` | batsched4/src/queue.cpp:295-299 | Two strictly ordered rearrangements of the same jobs are equal, so the result does not depend on the sorting algorithm. |
| `Queues.SortQueueOrders` | batsched4/src/queue.cpp:28-300 | For each of the nine orders, in the fields of the entries: which of two goes first (by release date, first submission, size or walltime, up or down; the entry released earlier for both slowdown orders), equal ones by identifier; every entry keeps its job and release date. |
| `Queues.IdLessIff` | batsched4/src/queue.cpp:53 | Identifiers are compared as texts: by the first character in which they differ, or the shorter first. |
| `Queues.SortQueueKeepsJobs` | batsched4/src/queue.cpp:288-300 | Updating and sorting keeps exactly the jobs of the queue, each once. |
| `Queues.Queue.AppendJob` | batsched4/src/queue.cpp:254-262 | Appends the job with the current date as its release date. |
| `Queues.Queue.RemoveJob` | batsched4/src/queue.cpp:264-274 | Removes the job's first and only entry and keeps the order of the others. |
| `Queues.Queue.RemoveJobAt` | batsched4/src/queue.cpp:276-282 | Removes the entry at the position. |
| `Queues.Queue.SortJobs` | batsched4/src/queue.cpp:288-300 | Ages the entries in place and leaves the sorted queue, in the order its name promises. |
| `Queues.Queue.FirstJobOrNull` | batsched4/src/queue.cpp:308-314 | The head of the queue, or nothing when it is empty. |
| `Queues.Queue.ContainsJob` | batsched4/src/queue.cpp:316-325 | Answers whether the job waits in the queue. |
| `EasyBf2Proofs.ReplacedNoLater` | debug-versions/easy_bf2.cpp:450-465 | Removing the head's reservation and placing the head anew never moves its begin back. |
| `EasyBf2Proofs.ReservationUnique` | debug-versions/easy_bf2.cpp:517-532 | The head has at most one reserved date, so the date the guarantee speaks of is determined by the profile. |
| `EasyBf2Proofs.WaitingIsFirm` | batsched4/src/locality.cpp:86-102 | A head that asks for no machine and does not start finds every machine taken (the contiguous selector grants it nothing while no machine is free). |
| `EasyBf2Proofs.FirmStartsNothing` | debug-versions/easy_bf2.cpp:423-434 | Behind such a head nothing can be backfilled, so it is not delayed either. |
| `EasyBf2Proofs.ArriveKeeps` | debug-versions/easy_bf2.cpp:354-382 | Completions, releases and the new date leave the head's reservation where it is, and never in the past. |
| `EasyBf2Guarantee.StartJob` | debug-versions/easy_bf2.cpp:425-432 | A queued job that starts now joins the running jobs on the decided machines; the other running jobs, the accounts and the order of the queue stay. |
| `EasyBf2Guarantee.SortAndPlaceHeadKeeps` | debug-versions/easy_bf2.cpp:494-538 | After sorting, the head has a reservation, the old one when the head did not change; a former head leaves none behind. |
| `EasyBf2Guarantee.TryBehindHead` | debug-versions/easy_bf2.cpp:423-434 | Trying a job behind the head never touches the head's reservation: the job starts elsewhere, or leaves no trace in the profile. |
| `EasyBf2Guarantee.TraverseReserved` | debug-versions/easy_bf2.cpp:442-486 | The traversal of the whole queue starts the head or leaves it a reservation no later than before. |
| `EasyBf2Guarantee.StepKeepsInv` | debug-versions/easy_bf2.cpp:346-491 | Every call leaves a valid profile in normal form that holds exactly the running jobs and a reservation for the head. |
| `EasyBf2Guarantee.HeadIsNotDelayed` | debug-versions/easy_bf2.cpp:346-538 | One call: the head is not late, and unless the sort puts another job before it, it starts or keeps a reservation no later than before. |
| `EasyBf2Guarantee.RunKeepsInv` | debug-versions/easy_bf2.cpp:346-538 | The invariant holds after every call of every run. |
| `EasyBf2Guarantee.InitialState` | debug-versions/easy_bf2.cpp:346-538 | The empty platform satisfies the invariant. |
| `EasyBf2Guarantee.EasyGuarantee` | debug-versions/easy_bf2.cpp:346-538 | The EASY guarantee over whole runs and every queue order: while a job stays head, each call happens by its reserved date and leaves it started or reserved no later than that. |
| `EasyBf2Starts.CanAdvanceIff` | batsched4/src/schedule.cpp:647-650 | Leaving the tolerance of the date check aside, the present may move to a date exactly when no running job ends and the head does not start before it. |
| `EasyBf2Starts.DateIsFine` | debug-versions/easy_bf2.cpp:354-382 | Seen from before the call, and leaving the tolerance aside: its date passes the check exactly when every running job that it does not end runs until then, by its grant, and the head's reserved date is no earlier. |
| `EasyBf2Starts.HeadMerges` | batsched4/src/schedule.cpp:2583-2610 | With the present at the reserved date, taking the head's reservation out makes one slice of the empty present and the slice after it. |
| `EasyBf2Starts.HeadStartsOnTime` | debug-versions/easy_bf2.cpp:440-466 | A call with completions at the date reserved for the head starts it, once every job that still runs goes on past that date and the sort puts no other job before the head. |
| `EasyBf2Starts.EasyStarts` | debug-versions/easy_bf2.cpp:346-538 | Over whole runs and every queue order: a job that stays the head starts at the latest at such a call at its first reserved date. |
| `EasyBf2Packs.RefusedNow` | batsched4/src/schedule.cpp:1354-1498 | A job that an insertion does not start now had no machines now that stay free for its walltime. |
| `EasyBf2Packs.TraversePacks` | debug-versions/easy_bf2.cpp:442-486 | After a traversal of the queue no waiting job that asks for machines could start now: the head with its own reservation set aside, the others beside it. |
| `EasyBf2Packs.BackfillNewPacks` | debug-versions/easy_bf2.cpp:408-438 | After the loop over the released jobs none of them waits behind the head that could start now, and what was refused before is refused still. |
| `EasyBf2Packs.StepPacks` | debug-versions/easy_bf2.cpp:346-491 | After a call with completions no waiting job could start now; after one without, no new job could, and the head neither. |
| `EasyBf2Packs.StepKeepsPacked` | debug-versions/easy_bf2.cpp:346-491 | When no waiting job could start before a call, none can after it, unless the call has no completions and the sort puts another job before the head. |
| `EasyBf2Packs.RunPacks` | debug-versions/easy_bf2.cpp:346-538 | The same per call over every run from an empty queue, for every order. |
| `EasyBf2Packs.FcfsPacked` | debug-versions/easy_bf2.cpp:346-538 | In first-come order with a later date at each call, no job that could start waits after any call of a run. |
| `EasyBf2Runs.FcfsKeepsHeadIff` | debug-versions/easy_bf2.cpp:494-509 | In first-come order the head keeps its place if and only if no job accepted at its own release date has a smaller identifier. |
| `EasyBf2Runs.FcfsGuarantee` | debug-versions/easy_bf2.cpp:346-538 | In first-come order, with several calls at one date allowed: a head reserved at b has started at a call no later than b, or is still the head with a date no later than b reserved, unless such a tie displaced it. |
| `EasyBf2Runs.FcfsGuaranteeLaterDates` | debug-versions/easy_bf2.cpp:346-538 | With a later date at each call no tie can displace a head, and the guarantee needs no such exception. |
| `EasyBf2Runs.FcfsStarts` | debug-versions/easy_bf2.cpp:346-538 | In first-come order the head starts: once a run has a call after the date b reserved for it, or a call at b with completions after which every running job goes on past b, it has started at a call no later than b, unless a tie displaced it. |
| `EasyBf2Runs.FcfsStartsLaterDates` | debug-versions/easy_bf2.cpp:346-538 | With a later date at each call it has started by then without exception. |
| `EasyBf2Waits.ReservedSoon` | debug-versions/easy_bf2.cpp:517-532 | After every call the head is reserved within the longest walltime from the call's date. |
| `EasyBf2Waits.StepLeaves` | debug-versions/easy_bf2.cpp:346-491 | In first-come order a call leaves a job that was waiting before its date in the queue or starts it, and puts no job before it that was not there. |
| `EasyBf2Waits.NoStarvation` | debug-versions/easy_bf2.cpp:346-538 | In first-come order with a later date at each call, the job at position k of the queue starts within k + 1 times the longest walltime from the last call, whatever is released and backfilled meanwhile, in every run that goes on beyond that time. |
| `TieRuns.TieTakesThePlace` | debug-versions/easy_bf2.cpp:494-509 | A run of three calls from an idle machine that reaches the tie: the job `w!2`, head with the date 10 reserved, loses its place and the machine from 10 on to `w!1`, released by a later call at the same date. |
| `EasyBf2Runs.InitialAccounts` | debug-versions/easy_bf2.cpp:346-352 | The accounts are right on the empty platform, where every run starts. |
| `EasyBf2Runs.StepAccounts` | debug-versions/easy_bf2.cpp:346-491 | A call takes its released jobs into the accounts, loses no other, and leaves the queue in order. |
| `EasyBf2Runs.NoJobIsLost` | debug-versions/easy_bf2.cpp:346-538 | After every call of every run each released job waits or was decided on exactly once, never both, and every running job runs on the machines of its execute decision. |
| `EasyBf2Accounts.StartAccounts` | debug-versions/easy_bf2.cpp:428-429 | Starting a job moves it from the queue to the decisions. |
| `EasyBf2Accounts.ReleaseAllAccounts` | debug-versions/easy_bf2.cpp:359-379 | Each released job is queued or rejected, once. |
| `Rejections.StepRejectsIff` | debug-versions/easy_bf2.cpp:358-379 | Among the decisions a call adds, a released job is rejected if and only if it is larger than the platform or has no walltime; nothing else is, and no earlier decision is taken back. |
| `EasyBf2Progress.QuietFits` | batsched4/src/schedule.cpp:1500-1502 | A request that fits the platform finds a place that begins by the time the profile is idle. |
| `EasyBf2Progress.HeadPlaced` | debug-versions/easy_bf2.cpp:517-532 | Without a reservation the head always finds a place well before the horizon. |
| `EasyBf2Progress.OtherPlaced` | debug-versions/easy_bf2.cpp:468-483 | With the head reserved, any other job finds a place too. |
| `EasyBf2Progress.CallSucceedsIff` | debug-versions/easy_bf2.cpp:346-491 | Leaving the tolerance of the date check aside, a call aborts exactly when it names an ended job that is not in the schedule, or one twice, or its date lies before the present, after the end of a running job that it does not end, or after the head's reserved date; no insertion ever fails. |
| `EasyBf2Progress.CalmThroughout` | debug-versions/easy_bf2.cpp:346-538 | The room this needs before the horizon (three of the longest walltimes after the last call) is kept by every call of a run. |
| `EasyBf2Progress.InitialCalm` | batsched4/src/schedule.cpp:30-49 | The empty platform has that room. |
| `EasyBf2.EasyBackfilling2.constructor` | debug-versions/easy_bf2.cpp:346-352 | The scheduler starts with an empty schedule and queue. |
| `EasyBf2.EasyBackfilling2.InsertJob` | batsched4/src/schedule.cpp:748-757 | An insertion with its assertions: none when the job is already there or finds no place. |
| `EasyBf2.EasyBackfilling2.RemoveEndedJobs` | debug-versions/easy_bf2.cpp:354-356 | Removes the ended jobs one after the other. |
| `EasyBf2.EasyBackfilling2.QueueReleasedJobs` | debug-versions/easy_bf2.cpp:358-379 | Rejects what can never run or has no walltime, queues the rest and lists it. |
| `EasyBf2.EasyBackfilling2.SortQueueWhileHandlingPriorityJob` | debug-versions/easy_bf2.cpp:494-538 | The loop that starts heads and reserves a place for the first that cannot start refines its recursive form. |
| `EasyBf2.EasyBackfilling2.BackfillReleasedJobs` | debug-versions/easy_bf2.cpp:408-438 | The loop over the released jobs refines its recursive form. |
| `EasyBf2.EasyBackfilling2.TraverseQueue` | debug-versions/easy_bf2.cpp:440-486 | The loop over the queue, with entries removed on the way, refines its recursive form. |
| `EasyBf2.EasyBackfilling2.MakeDecisions` | debug-versions/easy_bf2.cpp:346-491 | One call on the objects is one step of the state machine, aborts exactly where that does, and does not delay the head. |
| `HeapSorts.SiftPermutes` | debug-versions/easy_bf3.cpp:348-361 | Sifting down rearranges the heap part and leaves the rest of the list alone. |
| `HeapSorts.SiftRestores` | debug-versions/easy_bf3.cpp:348-361 | Sifting down restores the heap below a root that violates it. |
| `HeapSorts.BuildMakesHeap` | debug-versions/easy_bf3.cpp:365-366 | The first loop makes the whole list a heap. |
| `HeapSorts.ExtractSorts` | debug-versions/easy_bf3.cpp:368-371 | The second loop sorts the list. |
| `HeapSorts.HeapSortSorts` | debug-versions/easy_bf3.cpp:364-372 | For every length, 0 and 1 included, the heap sort leaves the same running jobs in ascending order of estimated finish time. |
| `EasyBf3.EasyBackfilling3.MaxHeap` | debug-versions/easy_bf3.cpp:348-361 | The recursive in-place method computes the sift. |
| `EasyBf3.EasyBackfilling3.ScheduleHeapSort` | debug-versions/easy_bf3.cpp:364-372 | The in-place loops leave a sorted permutation of the list. |
| `EasyBf3.EasyBackfilling3.HandleScheduledJob` | debug-versions/easy_bf3.cpp:293-309 | Appends the job with its finish time on the lowest-numbered free machines, and takes those out of the free set and counter. |
| `EasyBf3.EasyBackfilling3.HandleFinishedJob` | debug-versions/easy_bf3.cpp:312-344 | Gives the machines of the finished job back; an unknown job changes nothing. |
| `EasyBf3.EasyBackfilling3.CheckPriorityJob` | debug-versions/easy_bf3.cpp:233-267 | Starts the head if it fits, otherwise computes its shadow time and spare machines. |
| `EasyBf3.EasyBackfilling3.CheckNextJob` | debug-versions/easy_bf3.cpp:270-290 | Starts the job exactly when it ends by the shadow time and fits, or fits on the spare machines. |
| `EasyBf3.EasyBackfilling3.QueueReleasedJobs` | debug-versions/easy_bf3.cpp:104-125 | Rejects what can never run or has no walltime, queues the rest. |
| `EasyBf3.EasyBackfilling3.SortQueueWhileHandlingPriorityJob` | debug-versions/easy_bf3.cpp:196-230 | Sorts, and starts heads while they fit. |
| `EasyBf3.EasyBackfilling3.BackfillReleasedJobs` | debug-versions/easy_bf3.cpp:132-158 | The branch without ended jobs. |
| `EasyBf3.EasyBackfilling3.TraverseQueue` | debug-versions/easy_bf3.cpp:159-179 | The branch with ended jobs. |
| `EasyBf3.EasyBackfilling3.MakeDecisions` | debug-versions/easy_bf3.cpp:90-193 | One call is one step of the state machine and leaves a head that requests more machines than are free. |
| `EasyBf3Proofs.StartKeeps` | debug-versions/easy_bf3.cpp:293-309 | Starting a job that fits keeps the running jobs apart and sorted, and every machine either free or held. |
| `EasyBf3Proofs.FinishKeeps` | debug-versions/easy_bf3.cpp:312-344 | A completion keeps all that and never lowers the free counter. |
| `EasyBf3Proofs.SettleKeeps` | debug-versions/easy_bf3.cpp:99-129 | After arrivals, sorting and head placement the state is consistent and, where no traversal follows, the head is blocked. |
| `EasyBf3Proofs.FastStepKeepsInv` | debug-versions/easy_bf3.cpp:90-193 | Every call conserves the machines, keeps the list sorted and leaves a head that does not fit, whichever branch ran. |
| `EasyBf3Proofs.FastRunKeepsInv` | debug-versions/easy_bf3.cpp:90-230 | Machine conservation and work conservation after every call of every run. |
| `EasyBf3Packs.FastStepPacks` | debug-versions/easy_bf3.cpp:126-179 | After a call with completions every job behind the head asks for more machines than are free, or would run past the shadow time on more than were noted as spare; after one without, every new job does; the head lacks machines. |
| `EasyBf3Packs.FastStepKeepsNote` | debug-versions/easy_bf3.cpp:196-230 | A call without completions that keeps the head leaves its shadow time and spare machines as they were noted. |
| `EasyBf3Packs.StartRecords` | debug-versions/easy_bf3.cpp:293-309 | A start keeps the other running jobs and adds a record with the job's request, walltime, run time and dates, on as many of the lowest free machines, which the decision names. |
| `EasyBf3Accounts.FastStepAccounts` | debug-versions/easy_bf3.cpp:90-193 | A call takes its released jobs into the accounts and loses no other. |
| `EasyBf3Accounts.NoFastJobIsLost` | debug-versions/easy_bf3.cpp:90-230 | Over whole runs each released job waits or was decided on exactly once, never both, and every running job has the machines of its decision. |
| `Rejections.FastStepRejectsIff` | debug-versions/easy_bf3.cpp:104-125 | The same of the rewritten scheduler: exactly the released jobs that are too large or have no walltime are rejected. |
| `EasyBf3Accounts.FreshRunIsRun` | debug-versions/easy_bf3.cpp:90-230 | All a caller must respect is that released jobs have identifiers none of which was used before; then every state of the run conserves machines and leaves no head waiting that fits. |
| `Shadows.CheckFindsShadow` | debug-versions/easy_bf3.cpp:254-265 | For a blocked head the scan always finds a shadow time: the earliest estimated finish by which enough machines are free; the spare machines are not overstated. |
| `EasyBf3Packs.CheckStops` | debug-versions/easy_bf3.cpp:254-265 | The scan stops at the first running job with which the head has enough machines, and notes its finish and exactly the machines left over of those counted so far. |
| `EasyBf3Packs.SpareIsAllIff` | debug-versions/easy_bf3.cpp:254-265 | The noted number is all that is spare at the shadow time if and only if no job further down the list that holds machines finishes at that same time. |
| `Shadows.AllComeBack` | debug-versions/easy_bf3.cpp:256-258 | The free machines and those of all running jobs are the whole platform, so the scan reaches any accepted request. |
| `Shadows.StartFreeBy` | debug-versions/easy_bf3.cpp:293-309 | Starting a job takes its machines exactly until its estimated finish. |
| `Shadows.OneBackfillIsSafe` | debug-versions/easy_bf3.cpp:270-290 | One backfill admitted right after the shadow time was computed leaves the head enough machines then. |
| `Shadows.BackfillsAreSafeIff` | debug-versions/easy_bf3.cpp:277-288 | Any number of backfills: the head gets its machines at the shadow time if and only if the backfills that run past it together take at most the machines that were spare. |
| `Backfills.CallBackfills` | debug-versions/easy_bf3.cpp:126-179 | All a call does after its last check of a blocked head is to start jobs that passed the admission test, in either branch; the state it leaves is the one after these starts, but for the queue. |
| `Backfills.PlaceHeadFindsShadow` | debug-versions/easy_bf3.cpp:196-265 | Starting heads until one does not fit ends with its shadow time noted, unless the queue runs empty. |
| `Backfills.CallIsSafeIff` | debug-versions/easy_bf3.cpp:90-290 | One call that checks a blocked head: after the jobs it backfills, the head has its machines at the noted shadow time if and only if those of them that run past it together take at most what was spare; in particular when at most one of them does. |
| `EasyBf3Packs.RefusedWouldDelay` | debug-versions/easy_bf3.cpp:270-290 | Where the noted number is all that is spare, a job refused in a call that checked its head does not fit now or would leave the head too few machines at the shadow time. |
| `HeadDelays.BackfillsDelayHead` | debug-versions/easy_bf3.cpp:277-288 | A run of three calls from four idle machines after which the head still waits at its noted shadow time, because two backfills were admitted on its one spare machine. |
| `Agreement.FreeCount` | debug-versions/easy_bf3.cpp:254-265 | At every instant from the present on, the profile of the running jobs has as many free machines as the scan counts, also while a running job is due now. |
| `Agreement.ShadowIsFirstFit` | debug-versions/easy_bf3.cpp:254-265 | For a blocked head, first fit on the profile of the running jobs begins exactly at the shadow time the scan computes. |
| `Agreement.StartAgrees` | debug-versions/easy_bf3.cpp:293-309 | A job that fits starts in both schedulers at once and on the same machines, and the profile goes on mirroring the list. |
| `Agreement.FinishAgrees` | debug-versions/easy_bf3.cpp:312-344 | A completion does the same to both. |
| `Agreement.AdvanceAgrees` | batsched4/src/schedule.cpp:643-657 | Time passing up to the next estimated finish keeps the two in step, also when it reaches that finish before the job's completion is reported. |
| `Agreement.MirroredThroughout` | debug-versions/easy_bf3.cpp:233-344 | Through every sequence of starts, completions and passing time, jobs due and not yet completed included, the profile mirrors the list of running jobs. |
| `MirrorRuns.StepFollows` | debug-versions/easy_bf3.cpp:90-230 | One call keeps a profile that mirrors the running jobs, and at each check of a blocked head in it first fit on that profile begins at the noted shadow time. |
| `MirrorRuns.ShadowIsFirstFitThroughout` | debug-versions/easy_bf3.cpp:90-267 | Along every run in which accepted jobs have their run time as walltime and no call comes later than a running job would have finished that it does not end, every check of a blocked head in every call agrees with first fit on a profile of exactly the running jobs; several calls may share a date, and a job due then may be ended by any of them. |
| `Graphs.AddEdgeKeepsLinksIff` | batsim4/src/workflow.cpp:129-148 | Recording an edge keeps parent and child links consistent exactly when it is new and the parent has no loop on itself, or it is known and the parent has one: the second search looks for the parent among its own children. |
| `Graphs.KnownEdgeIsRepeated` | batsim4/src/workflow.cpp:129-148 | Two tasks with one edge: adding that edge again records the child twice. |
| `Graphs.BuildLinksIff` | batsim4/src/workflow.cpp:62-75 | For every list of edges added to tasks without links: the links end up consistent if and only if each edge repeats an earlier one exactly when its parent had a loop on itself before. |
| `Graphs.BuildLinksIffNoRepeat` | batsim4/src/workflow.cpp:62-75 | For every list of edges without loops: the links end up consistent if and only if no edge repeats. |
| `Graphs.RankedIffAcyclic` | batsim4/src/job_submitter.cpp:214 | Tasks can be ranked below their children if and only if no path of the graph returns to its first task. |
| `Graphs.FreeIfParentsFree` | batsim4/src/job_submitter.cpp:251-258 | No cycle leads to a task when none leads to its parents: one through the task itself would lead to them too. |
| `Graphs.AcyclicIffFree` | batsim4/src/job_submitter.cpp:214 | A graph has no cycle exactly when no cycle leads to any task. |
| `Workflows.SubmitKeeps` | batsim4/src/job_submitter.cpp:216-229 | Submitting the first ready task while the limit leaves room keeps the invariant. |
| `Workflows.CompleteKeeps` | batsim4/src/job_submitter.cpp:231-262 | The completion of any job in flight keeps the invariant and adds exactly its task to the completed ones. |
| `Workflows.SettledDepth` | batsim4/src/job_submitter.cpp:248-258 | When a task becomes ready its depth is the length of the longest path to it, whatever the order of completions and whether or not the graph has cycles elsewhere. |
| `Workflows.LevelIsDepth` | batsim4/src/job_submitter.cpp:29-34 | For a task that no cycle leads to, that level is the number of edges of a longest path to it, and no path to it is longer. |
| `Workflows.AllCompleted` | batsim4/src/job_submitter.cpp:214 | When nothing is ready and nothing in flight, every task that no cycle leads to has completed. |
| `Workflows.SubmitsInTurn` | batsim4/src/job_submitter.cpp:216-258 | Tasks are submitted in the order in which they became ready: a submission takes none out of turn and a completion only adds at the end. |
| `Workflows.SourcesInOrder` | batsim4/src/workflow.cpp:151-162 | The tasks without parents are ready at first, in their order. |
| `Workflows.LoggedIsFree` | batsim4/src/job_submitter.cpp:216-262 | No cycle leads to a task that was submitted. |
| `Workflows.CompletionCounts` | batsim4/src/job_submitter.cpp:248-258 | For any recorded links: a child recorded a number of times by its completed parent counts it as often, and becomes ready exactly when that brings its counter to the number of its parents, and then as often. |
| `Workflows.OnlyParentIff` | batsim4/src/job_submitter.cpp:248-258 | A task with one parent becomes ready with it if and only if the parent records it once; otherwise its counter has passed the number of its parents for good. |
| `Workflows.RepeatedEdgeStarves` | batsim4/src/job_submitter.cpp:214-262 | Two tasks whose edge is given twice: the loop ends with the second never submitted. |
| `Workflows.Submitter.IncrementKids` | batsim4/src/job_submitter.cpp:22-27 | Counts one more completed parent for every child, in place. |
| `Workflows.Submitter.DeepenKids` | batsim4/src/job_submitter.cpp:29-34 | Raises every child's depth to one more than the parent's where it was lower, in place. |
| `Workflows.Submitter.CollectReadyKids` | batsim4/src/job_submitter.cpp:251-258 | Appends the children whose parents have all completed to the ready tasks. |
| `Workflows.Submitter.CompleteJob` | batsim4/src/job_submitter.cpp:231-262 | One completion on the objects is the completion step of the state machine. |
| `Workflows.Submitter.Run` | batsim4/src/job_submitter.cpp:214-263 | For every graph with consistent links, with cycles or without, and every order of completions, the loop ends; each task submitted is submitted once, after its parents completed; the number in flight respects a positive limit throughout, and whenever the loop waits that limit is reached or every task whose parents completed was submitted; exactly the tasks that no cycle leads to complete, and their depths are longest path lengths. |
| `Checkpoints.JobDocuments.GetMetaDataFromDelay` | batsched4/src/decision.cpp:342-467 | Overwrites delay, walltime and metadata in place as one round does. |
| `Checkpoints.RoundKeepsMargin` | batsched4/src/decision.cpp:453-461 | With the walltime reduced by the progress, a round leaves the job as much time beyond its delay as it had, and one read back more after the first checkpoint. |
| `Checkpoints.RoundChangesIff` | batsched4/src/decision.cpp:351-461 | Without a completed checkpoint nothing changes; with one, which takes some progress and a whole span of run time since the read back, the delay shrinks by that many whole spans, and grows by one read the first time. |
| `Checkpoints.WalltimeChangesOnly` | batsched4/src/decision.cpp:451-455 | The walltime changes only when a checkpoint was completed, the reduction is asked for, the documents have a walltime and the scheduler held a positive one; documents without one never get one. |
| `Checkpoints.WalltimeIsKept` | batsched4/src/decision.cpp:451 | Over any number of kills a walltime that is not to be reduced stays what it was. |
| `Checkpoints.WalltimeCoversDelay` | batsched4/src/decision.cpp:453-461 | Over any number of kills a reduced walltime that covered the delay goes on covering what remains of it. |
| `Checkpoints.DelayIsConserved` | batsched4/src/decision.cpp:386-461 | Over any number of kills, with any progress and restored run time: remaining delay plus dumps times (interval + dump time), less the read time once checkpointed, is the original delay; work progress is dumps times interval; the flag says whether there was a dump. |
| `Checkpoints.FirstCheckpointAccountedIff` | batsched4/src/decision.cpp:422-447 | Metadata that already holds one of the members keeps the old value: the first checkpoint is accounted for if and only if the flag is absent and the two numbers are absent or already right. |
| `Checkpoints.FalseFlagStays` | batsched4/src/decision.cpp:422-447 | A concrete job with the flag set to false: two completed checkpoints shorten its delay, but none is recorded for it to read back. |
| `Checkpoints.RoundCountsCheckpoints` | batsched4/src/decision.cpp:390-425 | A round counts n checkpoints exactly when the time run after the read back holds n whole spans and less than one more, which is discarded. |
| `Checkpoints.RoundCoversReadIff` | batsched4/src/decision.cpp:450-461 | A round that completes a checkpoint leaves at least the read time if and only if the time run did not pass the checkpoint due after the end of the delay. |
| `Checkpoints.CheckpointsFitTheDelay` | batsched4/src/decision.cpp:342-467 | With no restored run time and progress up to 1, the delay always covers the read back and the checkpoints never account for more than the original delay. |
| `Checkpoints.RestoredRuntimeOvershoots` | batsched4/src/decision.cpp:360-361 | A concrete restored run time for which the remaining delay becomes negative. |
| `Checkpoints.KillsWasteLittle` | batsched4/src/decision.cpp:342-467 | Over whole histories the time run exceeds what the checkpoints account for by less than one interval, dump and read per kill. |
| `JobIds.StoiUndoesToString` | batsched4/src/batsched_tools.cpp:68-82 | Reading a printed int gives it back, whatever follows that is not a digit. |
| `JobIds.StoiIff` | batsched4/src/batsched_tools.cpp:68-82 | A text of white space, a sign or none, digits and a rest reads as the signed number the digits write if there are digits and it is an int, and reading throws otherwise. |
| `JobIds.ParseUndoesPrint` | batsched4/src/batsched_tools.cpp:63-98 | For a workload name without marks, parsing a printed identifier gives back workload, number, resubmit and checkpoint, present or not. |
| `JobIds.ParseWithoutName` | batsched4/src/batsched_tools.cpp:74-80 | An identifier printed without a workload parses to its numbers, with the workload `null`. |
| `JobIds.NameRoundTripsIff` | batsched4/src/batsched_tools.cpp:63-98 | All identifiers of a workload parse back to what was printed if and only if its name contains none of the marks. |
| `JobIds.NextIdentifiers` | batsched4/src/batsched_tools.cpp:83-95 | The next identifiers are the printed identifier with the resubmit or the checkpoint number raised (to 1 if absent) and all else kept. |
| `JobIds.SeparateIdAgrees` | batsched4/src/batsched_tools.cpp:99-115 | For every identifier, both functions accept the same ones and build the same next identifier, which is the workload, a mark and the next job name. |
| `JobIds.SeparatedParts` | batsched4/src/batsched_tools.cpp:101-108 | The separated parts are the workload, the job number as text, the resubmit number (0 if absent) with the next one, and the text of the checkpoint. |
| `JobIds.ResubmissionRaises` | batsched4/src/batsched_tools.cpp:99-115 | A resubmission raises the resubmit number, keeps workload, number and checkpoint, and gives an identifier that parses again unless its number overflows. |
| `JobIds.ResubmissionsKeepTheJob` | batsched4/src/decision.cpp:143-150 | Any number of resubmissions keep workload, number and checkpoint. |
| `JobIds.ResubmissionNeverRepeats` | batsched4/src/decision.cpp:143-150 | However often a job is resubmitted, no identifier is used twice. |
| `JobIds.ResubmittedJobsStayApart` | batsched4/src/decision.cpp:143-150 | Jobs that differ in workload, number or checkpoint never come to share an identifier. |
| `JobNames.NeverRepeatsIff` | batsched4/src/batsched_tools.cpp:63-115 | The identifiers a job gets, however often it is resubmitted, are all different if and only if its workload's name has no pound sign and, where it has a dollar sign, leaves room for ten characters of the resubmit number. |
| `JobNames.PoundRepeats` | batsched4/src/batsched_tools.cpp:63-115 | With a pound sign in the name, the second resubmission gives the identifier of the first again. |
| `JobNames.SameIdentifierTwice` | batsched4/src/batsched_tools.cpp:63-115 | A concrete one: `a#7!5` becomes `a#7!5#8`, and that becomes `a#7!5#8` again. |
| `JobIds.MarkInWorkloadMisleads` | batsched4/src/batsched_tools.cpp:74-80 | A concrete workload name with a mark, whose number is read as a resubmit number. |
| `Submissions.SubmitEvents` | batsim4/src/event_submitter.cpp:53-80 | The loop over the events sends the specified batches. |
| `Submissions.SubmitJobs` | batsim4/src/job_submitter.cpp:87-153 | The loop that drops jobs from the sorted list sends the specified batches. |
| `Submissions.EachIsSentOnTime` | batsim4/src/job_submitter.cpp:109-152 | Items in order of date are received once each, in that order, at the later of the start and their own date. |
| `Submissions.MessagesAreSparse` | batsim4/src/job_submitter.cpp:38-47 | No batch is empty and each is later than the one before, so items of one date travel together. |
| `Submissions.ReceivedIsDue` | batsim4/src/event_submitter.cpp:61-79 | For items in any order, each is received at its own date or the latest date before it. |
| `Submissions.JobsAreSentOnce` | batsim4/src/job_submitter.cpp:89-152 | Every job of the workload is received exactly once, at its submission date or at the start. |

## Left out

- Schedules.Schedule.AddJobFirstFitAfterTimeSlice: the walltime field of a job without one, which the scan overwrites at every slice it tries, is not kept; nothing modelled reads it later.
- EasyBf2.EasyBackfilling2.MakeDecisions: no failures, repairs or kills happen during a call, and a date outside the first slice is a failed assertion even where the program's tolerance would let it pass.
- EasyBf2Starts.CanAdvanceIff: leaves aside the tolerance of the date check, with which a date up to 0.0001 outside the first slice passes; `Slots.AdvanceKeepsIff` says what becomes of the profile then.
- EasyBf2Starts.DateIsFine: leaves the same tolerance aside.
- EasyBf2Progress.CallSucceedsIff: leaves the same tolerance aside; with it the program goes on where the model has a failed assertion.
- EasyBf2Packs.StepKeepsPacked: nothing is said of older waiting jobs in a call without completions in which the sort puts another job before the head; the program tries only the new jobs then.
- EasyBf3.EasyBackfilling3.MakeDecisions: no failures, repairs or kills happen during a call.
- EasyBf2Guarantee.RunKeepsInv: identifiers are fresh when a job is released, and only jobs that do not wait in the queue end.
- MirrorRuns.ShadowIsFirstFitThroughout: jobs run for exactly their walltime unless they end early; with other estimates the two schedulers plan with different times.
- Agreement.MirroredThroughout: leaves the queue handling to `MirrorRuns.ShadowIsFirstFitThroughout`.
- Checkpoints.JobDocuments.GetMetaDataFromDelay: other members of the documents and the variant for parallel homogeneous profiles are not modelled, and the number of dumps is unbounded.
- Queues.SortQueue: the bounded slowdown divides by a positive length; with 0, which the program never sets, it would fail.
- Reservations (`reserve_time_slice`, `add_reservation`, `add_current_reservation`, `find_least_impactful_fit`) and `incorrect_call_me_later`, which follow other accounting rules.
- `add_job_first_fit_after_time`, the searches for a slice by date and `available_machines_during_period`, which add no new state.
- The map of allocations a job keeps of itself, which no modelled operation reads, and the record of smallest and largest slice lengths.
- Profiles.SameJobs: compares the sets of identifiers, which is what the joined strings compare as long as no identifier contains a comma.
- Schedules.Schedule.RemoveJobInternal: the two nested loops over the slices are one loop; both visit the run slice by slice and merge each slice once.
- Queries.QueryWait: shares one scan with the insertion, where the program repeats the same loops.
- Queries.JobsAllocations: the sets of finished and new jobs of a slice are computed as set differences.
- Queues.SortQueueKeepsJobs: the list's sort is a function; `Queues.SortIsUnique` shows that any correct sort gives its result.
- EasyBf3Proofs.FastRunKeepsInv: says nothing about when the head starts; for several backfills that is false of the program, see `Shadows.BackfillsAreSafeIff`.
- A negative limit of the workflow submitter, with which it submits nothing and waits for ever.
- Start time, makespan and the identifiers and messages of workflow jobs; jobs in flight have numbers.
- Submissions.EachIsSentOnTime: sending takes no time and sleeping is exact; the hello and bye messages, the energy record and the storage of job descriptions are not modelled.
- Logging, JSON, SVG, CSV and Pajé output, Redis, ZeroMQ, command lines, random generators, memory statistics and the Python scripts.
