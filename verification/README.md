# The reactive DAG engine, verified

A model of the engine that recomputes a property's derived facts when an input
changes (`dag/`), with the durable scrape queue (`houses/scrape_queue.py`), the
storage split and its migration (`dag/persistence.py`,
`scripts/split_node_results.py`) and the fare cost groups
(`houses/tfl_client.py`).

`dafny verify dfyconfig.toml` checks everything.

## How the engine is modelled

* A graph (`DagGraph.dfy`) has inputs and derived nodes, a rank (acyclicity), the
  handlers on each signal in connection order, and for every derived node its
  always-active dependencies plus a rule that picks further ones by looking at
  those (nothing for an ordinary node, the live branch for an `IfThenElseNode`).
  `compute` is uninterpreted: a function of the node, the bound attempts and the
  moment of the call, which may answer a value, a failure, pending, or a
  transient failure with or without a Retry-After.
* Times are microseconds of one clock that moves at every reading. A row's stamp
  and a node's persisted-at time come from one reading, so one number is both;
  0 is "never" and the empty stamp.
* `Engine.dfy` states the code as functions on the whole state, branch by branch:
  the staleness test, one refresh, the priority queue with its requeue bound, and
  one pop of a drain. Events of equal time may be popped in either order.
* `Runtime.dfy` is the same code in place: node objects, the queue object and the
  loops of the program, each method proved equal to its function, and the drain
  loop proved to end. `Session.dfy` starts a process from stored rows and pushes
  and drains it.
* The whole-run theorems are about every run of pushes and pops
  (`Honesty`, `Convergence`, `Termination`, `FirstFill`, `Restart`, `Start`) and
  about every interleaving in which a refresh is bound, answered and completed
  in separate steps while pushes assign values and their rows are stored in
  between (`Interleaving`, `LiveCutoff`). All of them hold on graphs with conditional nodes,
  except where a row below names a condition.
* `Lifecycle.dfy` links them: a first start, pushes, a first fill, steady
  operation and restarts each leave the state the theorems about the next phase
  ask for. `Rewired.dfy` adds starts in which nodes get dependencies after they
  were built, `Deployed.dfy` starts with new code over the rows of the old one.
* `Actions`, `Frames`, `Refreshes` and `Pops` say once what each operation does;
  the theorems use only that. `Operations`, `Counters` and `Inputs` say it of the
  attempts, rows, queue entries and counters themselves, by the conditions a caller
  sees, and over whole runs.

## What the proofs found

* A node that holds a result and is popped while a dependency is queued is
  re-stamped and dropped. `Dropped.dfy` exhibits two pushes and a drain, from a settled
  graph to an empty queue, that leave such a node with its old value. It still reports stale
  (`Honesty.IdleIsHonest`), and without that branch the drain is exact
  (`Convergence.CutoffIsExact`), with suspended refreshes too
  (`LiveCutoff.LiveCutoffIsExact`).
* After a deployment that branch loses more: the re-stamped row carries the
  fingerprint of the new code. A node that got its dependencies after it was built, as
  `CurrentHomeNode` does (houses/nodes/current_home_node.py:220,240), is queued before
  them. `OldCode.dfy` exhibits a start and a complete drain that leave it with the
  result of the old code, and neither this process nor the next one reports it stale.
  Drains that drop nothing end in exactly what the new code computes
  (`Deployed.DeployIsExact`).
* A code-stale node that computes its old value from its old inputs is marked current
  in memory only. Its row keeps the old fingerprint, so it is recomputed at every start
  (`Deployed.CutoffKeepsTheOldRow`).
* A value bound before its first row is stored leaves an empty stamp, which the
  staleness test skips. `EmptyStamp.dfy` exhibits two pushes around one binding that
  lead to a state at rest which serves the first value and reports fresh. With non-empty
  stamps nothing is lost (`Interleaving.NoLostUpdate`,
  `Interleaving.VerdictAfterCompletion`, `Interleaving.QuietLiveIsHonest`).
* A conditional node that is suspended can be queued by a push of the branch it did
  not choose. A dependent popped behind that entry is re-stamped and dropped, and the
  entry then finds nothing to do. `Unchosen.dfy` exhibits such an interleaving, from a
  state that satisfies every invariant: at rest no node reports stale and one serves a
  value computed from an old input. `Interleaving.QuietLiveIsHonest` therefore speaks
  of each node whose derived dependencies are unconditional (the node itself may be
  conditional, and so may the rest of the graph); the other interleaving theorems and
  everything without suspension need no such condition.
* A Retry-After does not use up a retry, so such a node can be popped for ever
  (`Limits.RetryAfterNeverHalts`); without it every drain ends
  (`Termination.EveryDrainHalts`). The counter is incremented before it is
  compared, so a node gets two retries, not three (`Retries.TwoRetries`).
* "Re-queued n times in one drain: a pending dependency never enters the queue" is
  not what the requeue error says. The counter survives a drain that ends blocked on
  a parked dependency, so drains that each put a node back once add up:
  `Recounted.CountsAddUp` is a run of an ordinary graph with one input never set, from
  a new process to the error. Two kinds of runs are free of it: a first fill, on every
  graph (`FirstFill.FirstFillNeverRaises`), and every run of a graph with nothing
  pending (`Honesty.RunStaysVouched`). The error drops the popped node's event and
  leaves the node pending, so `Convergence.CutoffIsExact` and `Honesty.IdleIsHonest`
  are about runs that do not raise, and `Convergence.NoStrandedPending` names the
  nodes whose latest pop raised.
* `stop_processor` documents the number of abandoned retries as its result. Its
  drain only leaves at an empty queue, so the number is always zero
  (`Scheduling.NothingIsEverAbandoned`). A failed submission can still be missing
  from the log then, and exactly when its callback was attached late
  (`Shutdown.NoWriteVanishes`, `Shutdown.DrainCanLeaveBeforeTheLog`).
* The accumulator documents that the group costs equal the total exactly. With
  fares for some modes only they do not; `CostGroups.SumEqualsTotalIff` says when
  they do. A walk after the last transit leg joins its group, although walks
  after transit are documented as groups of their own.
* The record split loses a JSON null in an optional key and invents a missing
  status; `Records.SplitRoundTrip` and `Migration.MigrationPreservesExactly` give
  the exact condition.
* `evaluate` is documented to mirror `refresh`, but it looks for pending dependencies
  before failed ones and `refresh` the other way round. The two agree on success and
  value (`WhatIf.WhatIfIsRecomputation`), not on the kind of failure:
  `FailureKinds.KindsDiffer` exhibits the difference, and
  `FailureKinds.WhatIfIsExactIff` says when an evaluation is free of it.

## Model

| member | source | states |
|---|---|---|
| `Honesty.RunStaysHonest` | dag/derived_node.py:552-596 | over every run of pushes and pops, whatever compute answers, each node is its own computation on what its dependencies hold now, or it or one of them reports stale; re-stamped nodes included |
| `Honesty.IdleIsHonest` | dag/derived_node.py:736-809 | with all inputs set and no compute that answers pending, transient failures and retries included, at the empty queue of a run without the requeue error every derived node is its own computation or itself reports stale |
| `Honesty.OkRunStaysVouched` | dag/derived_node.py:736-809 | in such runs every pending derived node stays queued, so nothing is ever blocked, and every node stays its own computation, stale, or behind a queued dependency |
| `Honesty.FreshGraphIsExact` | dag/derived_node.py:565-596 | after any run, if no node reports stale then every attempt equals the from-scratch recursion |
| `Honesty.DeferredIsHonest` | dag/derived_node.py:757-770 | a node re-stamped behind a queued dependency is vouched for by that dependency's own staleness |
| `Honesty.RunStaysVouched` | dag/scheduler.py:211-262 | with all inputs set and nothing pending no run raises the requeue error, and every node stays its own computation, stale, or behind a queued dependency |
| `Convergence.CutoffIsExact` | dag/derived_node.py:791-809 | runs that drop no node end, at an empty queue, in the full recomputation, although identical results announce nothing |
| `Convergence.CleanRunConverges` | dag/scheduler.py:180-209 | in such runs each node is always its own computation, queued, or waiting for a pending dependency |
| `Convergence.NoStrandedPending` | dag/scheduler.py:226-262 | at an empty queue, whatever compute answers, every pending node has a chain of pending active dependencies that ends at an unset input, at a node whose own latest compute, on what its dependencies still hold, answered pending, or at a node whose latest pop raised the requeue error |
| `LiveCutoff.LiveCutoffIsExact` | dag/derived_node.py:708-809 | on every graph: over interleavings of suspended refreshes and pushes in which no pop drops a node or raises, each node equals the from-scratch recursion once nothing is suspended, queued or waiting to be stored and every input is set |
| `LiveCutoff.CleanLiveRunConverges` | dag/scheduler.py:264-292 | at every moment of such an interleaving each node that is not suspended is its own computation, queued and stale, behind a pending dependency, or behind a value still to be stored |
| `Termination.EveryDrainHalts` | dag/scheduler.py:180-209 | on every acyclic graph whose failures carry no Retry-After, every sequence of pops is finite, whichever earliest event each one takes, and also where the loop goes on after the requeue error |
| `Termination.PopDecreases` | dag/scheduler.py:211-262 | each pop, raising ones included, takes upstream-first weighted retry budget off the queue, or keeps it and uses up slack below a fixed horizon |
| `Termination.RefreshCounters` | dag/derived_node.py:614-639 | a refreshed node is queued again only by a retry that used up one of its retries; only its dependents' counters are reset |
| `Termination.RequeueUsesSlack` | dag/scheduler.py:240-260 | putting a node back one microsecond behind its last queued dependency stays under the horizon and strictly reduces the slack |
| `FirstFill.FirstFillIsExact` | dag/scheduler.py:188-209 | on every graph, conditional nodes included: from all inputs set and all derived nodes pending and queued in any order, the drain computes every node exactly once, on attempts its dependencies still hold at the end, and ends in the from-scratch recursion |
| `FirstFill.FirstFillNeverRaises` | dag/scheduler.py:222-262 | in such a fill, on every graph, the requeue error is unreachable and every queued node was put back fewer times than there are registered nodes |
| `FillBound.RequeueBound` | dag/scheduler.py:222-225 | from any moment of a fill on, a node is put back no more often than nodes became final since, plus, while it waits, the queued nodes upstream of it |
| `FillDepth.WaitsLessThanDepth` | dag/scheduler.py:222-225 | on every graph: a node of a first fill with no conditional node among itself and what it depends on is put back fewer times than the longest dependency chain below it is long |
| `FirstFill.FillVerdict` | dag/derived_node.py:757-773 | while filling, a popped node is either behind a queued dependency or ready to compute, never blocked or failed |
| `Interleaving.NoLostUpdate` | dag/derived_node.py:727-735 | on every graph: if the row of a bound dependency moved before a suspended refresh completes, the node is still scheduled afterwards, unless the dependency is a chosen branch and a condition still awaits its row, and it reports stale if it still looks at that dependency and the bound stamp was not empty |
| `Interleaving.VerdictAfterCompletion` | dag/derived_node.py:897-939 | right after a completion wrote a row, the node reports stale if and only if some non-empty bound stamp differs from the dependency's row |
| `Interleaving.StaysWoken` | dag/scheduler.py:264-292 | on every graph a scheduled node stays scheduled over every interleaving until a pop takes it, so the queue cannot empty without it, and an unconditional one stays stale unless it is the suspended one |
| `Interleaving.QuietLiveIsHonest` | dag/derived_node.py:546-596 | once every input has a row, whenever nothing is suspended and no value waits to be stored, each node whose derived dependencies are unconditional is its own computation, or it or a dependency reports stale |
| `Interleaving.LiveRunKeeps` | dag/derived_node.py:708-809 | on every graph the invariant of suspended refreshes holds over every interleaving of assignments, stored rows, bindings, answers and completions |
| `EmptyStamp.EmptyStampLosesUpdate` | dag/derived_node.py:591-595 | two pushes around one binding lead to a state at rest where the node serves the first value and does not report stale |
| `EmptyStamp.BootIsFresh` | dag/derived_node.py:404-431 | the state that run starts from is what a process start on an empty database leaves |
| `Unchosen.UnchosenBranchLosesUpdate` | dag/scheduler.py:264-292 | with a conditional node suspended after a push, two more pushes lead to a state at rest where a node was computed on an old value and no node reports stale |
| `Unchosen.StartKeepsInvariant` | dag/if_then_else_node.py:42-49 | the state that interleaving starts from satisfies every invariant of the interleaving theorems and every node in it is honest; only the stale reader has a conditional dependency |
| `Dropped.DropLosesConvergence` | dag/derived_node.py:757-770 | from a settled graph two pushes and a complete drain leave a stale node with its old value at an empty queue |
| `Dropped.RestKeepsInvariants` | dag/derived_node.py:757-770 | the settled graph satisfies every hypothesis of the cutoff and idle-honesty theorems, so only the drop is to blame |
| `Limits.RetryAfterNeverHalts` | dag/derived_node.py:629-635 | a node whose provider always answers with a Retry-After is popped for ever |
| `Limits.RaisesIff` | dag/scheduler.py:252-257 | a pop raises the requeue error if and only if its node is pending behind a queued dependency and was put back as often as there are registered nodes |
| `Recounted.CountsAddUp` | dag/scheduler.py:222-257 | from a new process, three drains that each put one node back at most once and end at an empty queue, with pushes in between, lead to an idle queue with the counter at the number of registered nodes, and two pushes later a pop raises |
| `Scheduling.RunsStayCovered` | dag/scheduler.py:119-161 | over every sequence of queue operations, unregistering included, every scheduled entry has its event in the queue |
| `Scheduling.OrderlyRunsStayInStep` | dag/scheduler.py:188-202 | without unregistering, the entries and the queued events are in bijection |
| `Scheduling.UnregisterLeavesItsEvent` | dag/scheduler.py:131-134 | unregistering keeps the bijection if and only if the node was not scheduled |
| `Scheduling.NothingIsEverAbandoned` | dag/scheduler.py:394-428 | the number of abandoned retries counted as the shutdown drain leaves is zero |
| `Restart.RestartIsTransparent` | dag/node.py:111-213 | after any run, rebuilding the nodes from their latest rows restores attempts, dependency stamps, code versions and staleness |
| `Start.BootActs` | dag/scheduler.py:119-129 | a start from sound rows, each node with the dependencies it was built with, is steady, mirrors its rows and queues exactly the stale nodes |
| `Start.FirstStart` | dag/derived_node.py:404-431 | on an empty database the start is steady, honest and converging, with everything pending, unstamped and queued |
| `Start.RestartResumes` | dag/node.py:111-173 | a process stopped between two steps and started again, each node with the dependencies it was built with, is honest, converging, and has everything queued that was queued |
| `Rewired.RewiredBoot` | houses/nodes/current_home_node.py:220-240 | where nodes get further dependencies after they were built, a start queues exactly the nodes that are stale against the first ones, and a stale node it misses holds a result of the current code and differs only in dependencies it got later |
| `Rewired.SweepAfterStart` | houses/nodes/property_nodes.py:416-441 | the sweep over the final graph, from roots that reach every node, then queues every stale node and moves no entry |
| `Rewired.RewiredRestartStaysSettled` | houses/nodes/bootstrap.py:42-49 | a restart with rewired nodes followed by that sweep stays vouched for, honest and converged, with everything queued that was queued |
| `Deployed.DeployCatchesUp` | dag/derived_node.py:474-488 | a process stopped between two steps and started with other code has exactly the stale nodes queued, those with another fingerprint among them, and every other node is a computation of the new code or behind a pending dependency |
| `Deployed.DeployIsExact` | dag/derived_node.py:474-488 | after such a start, pushes and pops that drop no node end, at an empty queue with every input set, in exactly the recomputation by the new code, and no node keeps another fingerprint |
| `Deployed.CutoffKeepsTheOldRow` | dag/derived_node.py:800-807 | a code-stale node that repeats its value from the same inputs is current in memory while its row still makes the next start queue it |
| `OldCode.DeployLosesUpdate` | dag/derived_node.py:757-770 | from a settled process, a start with new code, a rewired node queued before its dependency, and a complete drain leave that node with the old code's result under the new fingerprint, reported fresh in this process and the next |
| `Lifecycle.PushedIsUnfilled` | dag/user_input_node.py:216-267 | pushes of every input before the first drain, in any order and number, lead to the start of a first fill, and each input has a value and a row |
| `Lifecycle.FilledIsSettled` | dag/scheduler.py:180-209 | a finished first fill did not raise and leaves every node set, vouched for, honest, converged and equal to the from-scratch recursion |
| `Lifecycle.AnyRunMayInterleave` | dag/derived_node.py:546-596 | after any run from a first start the invariant of the interleaving theorems holds, and the hypothesis of quiet honesty as soon as every input has a value and a row |
| `Lifecycle.RestartStaysSettled` | dag/node.py:111-173 | a restart at any point, each node with the dependencies it was built with, keeps every node set, vouched for, honest and converged, hides no move behind an empty stamp that was not hidden before, and keeps every input given |
| `Lifecycle.ServiceConverges` | dag/derived_node.py:708-809 | a process in service in which no empty stamp hides a move satisfies what the live cutoff theorem starts from |
| `Runtime.Process.Refresh` | dag/derived_node.py:708-809 | the in-place refresh has exactly the effect of the specified one, in all five branches |
| `Operations.FailedDependencyWins` | dag/derived_node.py:736-756 | a stale node with a failed dependency fails with the errors of its dependencies, whatever is queued or pending: compute is not called, its retries are given back, its row written, and it is announced |
| `Operations.QueuedDependencyDefers` | dag/derived_node.py:757-770 | behind a queued dependency, none of them failed, a stale node keeps its attempt and its queue and counter stay; only its row is written, with the stamps its dependencies have now |
| `Operations.PendingDependencyBlocks` | dag/derived_node.py:771-772 | behind a pending dependency, none of them failed or queued, nothing at all is changed |
| `Operations.NewResultIsRecorded` | dag/derived_node.py:773-809 | otherwise compute is called once, on the attempts of the active dependencies; a new value or failure is held, stored and announced, a success gives the retries back and a failure keeps the counter |
| `Operations.SameResultIsCutOff` | dag/derived_node.py:791-808 | a value the node holds already is not announced, and its row is written again only if a dependency's stamp is another |
| `Operations.PendingResultIsQuiet` | dag/derived_node.py:910-915 | an answer of pending is stored and not announced |
| `Operations.TransientFailureIsRetried` | dag/derived_node.py:773-790 | a transient failure with retries left makes the node pending, with its retry queued exactly the delay after the reading of the clock and its row holding that time and the counter |
| `Operations.TransientFailureIsFinal` | dag/derived_node.py:614-622 | a transient failure with no retries left is the node's failure; nothing is queued for it |
| `Runtime.Process.NeedsRefresh` | dag/derived_node.py:565-596 | the loop over the active dependencies answers the staleness test |
| `Operations.StaleForAReason` | dag/derived_node.py:565-596 | on any books a node is stale if and only if its code is another, a retry is to come, it has no result, or an active dependency was stored or computed after it or has another row than the one it was computed from |
| `Runtime.Process.CompleteRefresh` | dag/derived_node.py:897-920 | attempt, clocks, retry state and row are written, and a result that is not pending is announced in handler order |
| `Operations.SignalsInOrder` | dag/signal.py:28-33 | of two nodes that one signal queues, the one connected first is queued for the earlier time |
| `Attempts.CausesInOrder` | dag/derived_node.py:737-755 | each failed dependency contributes its own error to the failure of the node, in the order of the dependencies, and no other one does |
| `Runtime.Process.PersistStatus` | dag/derived_node.py:922-939 | the row carries the stamps captured at the binding and both clocks move |
| `Runtime.Process.RetryDelayFrom` | dag/derived_node.py:627-639 | the method returns the delay and leaves the counter that the lemmas about the delay speak of |
| `Retries.DelayDoubles` | dag/derived_node.py:636-639 | without a Retry-After the delay starts at ten seconds, doubles with each retry until it reaches the five-minute cap, and stays there |
| `Retries.RetryAfterIsHonoured` | dag/derived_node.py:629-635 | a Retry-After is the delay up to a day, is cut to a day beyond, and uses up no retry |
| `Retries.RetriedIff` | dag/derived_node.py:614-639 | a transient failure is retried if and only if the counter is below the limit, minus one without a Retry-After; otherwise neither queue nor node moves |
| `Retries.TwoRetries` | dag/derived_node.py:637-638 | of the failures in a row without a Retry-After exactly the first two are retried |
| `Runtime.Process.ScheduleRetryIn` | dag/derived_node.py:614-625 | a retry is queued at its due time unless the retries are used up |
| `Operations.RetryIsDueAfterItsDelay` | dag/derived_node.py:614-639 | the retry is queued exactly the decided delay after the reading of the clock, that time noted on the node, and below the limit only; otherwise nothing moves but the counter |
| `Runtime.Process.OnDepChanged` | dag/derived_node.py:546-550 | a handler resets the retry counter and queues the node if it is stale |
| `Runtime.Process.ProcessPending` | dag/scheduler.py:180-209 | from every state whose drains halt the drain loop returns, did a run of pops, leaves an empty queue unless it raised, and returns how many pops settled their node |
| `Runtime.DrainedCountsSettled` | dag/scheduler.py:188-209 | the number a drain returns is how many of its pops left their node with a result |
| `Runtime.AsyncRefreshQueue.Enqueue` | dag/scheduler.py:142-161 | a node already scheduled is left where it is, any other is queued and indexed |
| `Runtime.AsyncRefreshQueue.RequeueBehind` | dag/scheduler.py:239-262 | the node goes one microsecond behind the last of its queued dependencies, or the count is forgotten where the error is raised |
| `Counters.PendingGoesBehindItsDependencies` | dag/scheduler.py:222-262 | after a refresh a node that is pending behind a queued dependency is queued one microsecond after the last of them, as often as there are registered nodes, then the error is raised and its count forgotten |
| `Counters.CounterCountsPutBacks` | dag/scheduler.py:211-262 | over every run the counter of the requeue bound is how often the node was put back since it last held a result or raised |
| `Runtime.AsyncRefreshQueue.GetNowait` | dag/scheduler.py:189-196 | the event taken is an earliest one and leaves queue and index together |
| `Runtime.Process.Push` | dag/user_input_node.py:216-290 | a pushed value or failure is stored with its row and announced |
| `Operations.PushIsStored` | dag/user_input_node.py:216-290 | a pushed value or failure is held and stored as it was given, with the time of its row, and every stale dependent is queued |
| `Inputs.InputHoldsLastPush` | dag/user_input_node.py:216-290 | over every run an input holds what was pushed to it last, and so does its row |
| `Inputs.DrainComputesThePushes` | dag/scheduler.py:180-209 | a run that drops no node and ends at an empty queue leaves in every node the recomputation of the last pushes |
| `Inputs.LiveDrainComputesThePushes` | dag/derived_node.py:708-809 | the same for interleavings with suspended refreshes, once they are quiet |
| `Inputs.RowsCatchUp` | dag/user_input_node.py:238-290 | over every interleaving an input shows what was assigned last, and once nothing waits to be stored its row holds that value: a value stored late never replaces a newer one |
| `Runtime.TraceIsRun` | dag/scheduler.py:189-203 | what the drain loop records is a run of the engine, so the run theorems apply to it |
| `Session.StartProcess` | dag/node.py:111-173 | loading every node object from its row and registering the derived ones yields the state the restart theorems speak of |
| `Counters.BootRestoresRetries` | dag/node.py:150-158 | a start gives a node that awaits a retry the counter of its row and any other node a fresh one; a retry time still to come is kept exactly, everything else that is queued is due at once |
| `Counters.RestartRefusesAgain` | dag/derived_node.py:614-639 | after a restart a node is granted a further retry if and only if the counter of its row was below the limit |
| `Counters.VersionlessRowIsStale` | dag/node.py:124-124 | a row from before code versions were stored makes its node stale exactly when the code has a fingerprint |
| `Session.FirstSession` | dag/user_input_node.py:216-267 | start on an empty database, push every input, drain: it does not raise, every input holds the last value pushed to it, every node equals the from-scratch recursion, and the process is what `PushAndDrain` asks for |
| `Session.PushAndDrain` | dag/user_input_node.py:216-267 | after a push and a drain of a running process with nothing pending no error was raised, the input holds the pushed value and the others what they held, every derived node is its own computation or reports stale, and the process is ready for the next push |
| `WhatIf.WhatIfIsRecomputation` | dag/evaluate.py:81-139 | from consistent attempts, evaluation under overrides agrees with recomputing the whole closure on which targets succeed and with what value |
| `FailureKinds.WhatIfIsExactIff` | dag/evaluate.py:81-110 | from attempts that are their own computations, an evaluation shows every node of the closure exactly as recomputing does, the kind of failure included, if and only if no node that it recomputed has both a pending and a failed dependency |
| `FailureKinds.KindsDiffer` | dag/evaluate.py:101-109 | from consistent attempts one override leaves a node pending in the evaluation and impossible in the recomputation |
| `WhatIf.WhatIfIsMinimal` | dag/evaluate.py:81-110 | compute is called at most once per node, only on closure nodes that are not overridden and have an active dependency staged |
| `WhatIf.EvaluateWhatIf` | dag/evaluate.py:117-139 | the loop over the closure returns the staged or real attempt of every target and makes exactly those calls |
| `WhatIf.EvaluationShowsAnswers` | dag/evaluate.py:40-58 | whatever compute does, every node it is called for shows the answer of that call, a raised failure of either kind as impossible |
| `Closure.ClosureIsReachable` | dag/evaluate.py:60-78 | the closure is exactly what the targets reach, each node once, cyclic graphs included |
| `Closure.ClosureIsOrdered` | dag/evaluate.py:69-78 | on an acyclic graph every node of the closure comes after its dependencies |
| `Closure.ComputeClosure` | dag/evaluate.py:60-78 | the shared-state walk returns that closure and terminates on every graph |
| `Conditional.ConditionalActive` | dag/if_then_else_node.py:42-49 | the graph's rule gives a conditional node exactly its conditions and its live branch |
| `Conditional.ConditionalHoldsItsBranch` | dag/if_then_else_node.py:51-58 | a consistent succeeded conditional node holds what its live branch holds, whatever the other branch holds |
| `Conditional.ConditionalAnswers` | dag/if_then_else_node.py:41-58 | once its conditions and its live branch have values a consistent conditional node has the live branch's, or nothing where no branch is live, whatever the other branch does |
| `Regenerate.Sweep` | dag/regenerate.py:79-107 | the worklist returns exactly the reachable derived nodes that need work, each once, on any graph |
| `Regenerate.SweepEngine` | dag/regenerate.py:79-107 | over all declared dependencies, never the narrowed set, the stale reachable nodes and no others are newly scheduled |
| `Wiring.DerivedNode.SetDeps` | dag/derived_node.py:502-524 | the node's handlers end up on exactly the new dependencies' signals, up to a missing one, and no other node's handler moves |
| `Wiring.DerivedNode.Disconnect` | dag/derived_node.py:490-495 | no handler of the node is left on any signal, and every other node stays wired |
| `Wiring.Construct` | dag/derived_node.py:414-429 | a missing dependency refuses the node before any signal is touched; otherwise every dependency carries its handler |
| `Wiring.HearsExactlyItsDependencies` | dag/signal.py:22-38 | a connected node has as many handlers on a signal as its dependencies name it, and hears it if and only if it is one of them |
| `Shutdown.PendingCountsUnfinished` | dag/scheduler.py:437-486 | over every interleaving the counter is the number of submissions handed over and not finished |
| `Shutdown.NoWriteVanishes` | dag/scheduler.py:407-418 | when the drain has left, everything counted before its last check has run; its write is applied if and only if it succeeded, and its failure logged if and only if its callback is over |
| `Shutdown.DrainLeavesAtRest` | dag/scheduler.py:407-418 | over every interleaving the drain may leave exactly when no refresh is queued and every counted submission is finished, so no cascade of a landed write is left behind |
| `Shutdown.DrainCanLeaveBeforeTheLog` | dag/scheduler.py:482-495 | a run in which the drain leaves before a failed submission is logged |
| `Records.SplitRoundTrip` | dag/persistence.py:265-357 | reading the split columns back gives the record without its provenance if and only if it has a status and no optional key holds a null |
| `Records.FreshRoundTrip` | dag/persistence.py:519-563 | on a database without the blob column a saved record reads back under that condition, and its provenance always |
| `Records.MirroredRoundTrip` | dag/persistence.py:234-262 | the same where the blob column is still there, with the exact condition there |
| `Records.ColumnsHoldTheirKeys` | dag/persistence.py:265-312 | each split column holds the value of its own key |
| `Records.MirrorHasNoProvenance` | dag/persistence.py:298-312 | the mirror blob of a save holds the record without its provenance |
| `Migration.MigrationKeepsReads` | scripts/split_node_results.py:68-169 | after any number of interrupted runs, a complete run and the drop, every row's record and provenance read as at the start |
| `Migration.PrefixKeepsReads` | scripts/split_node_results.py:68-98 | at every crash point all rows read as before, broken blobs included, the converted ones no longer need their blob and the others are untouched |
| `Migration.ConversionKeepsReads` | scripts/split_node_results.py:117-153 | converting a legacy, converted or mirrored row changes neither read and never overwrites a provenance tree held only in its column |
| `Migration.ResumedRunIsTheSame` | scripts/split_node_results.py:172-203 | a run after an interrupted one ends in the table an uninterrupted run ends in, also where both stop at a broken row |
| `Migration.MigrationPreservesExactly` | scripts/split_node_results.py:117-169 | for a legacy row of any record, the migration preserves both reads if and only if the stated conditions on the record hold |
| `Migration.Table.ConvertAll` | scripts/split_node_results.py:68-98 | the chunked loop converts a prefix, commits it, and stops at a damaged row; without one it returns how many rows it selected |
| `Migration.Table.ApplyMigration` | scripts/split_node_results.py:172-203 | it succeeds if and only if no blob is broken and drops the column only then; however it ends, every row of the table reads as before |
| `Migration.EnsureColumnsKeepsReads` | dag/persistence.py:147-172 | adding the split columns to a pre-split database changes no read |
| `ScrapeQueue.ClaimsAreBounded` | houses/scrape_queue.py:94-149 | over every run no job is claimed more than the attempt limit, claims are covered by attempts, and a property has at most one active job |
| `ScrapeQueue.FailedIsTerminal` | houses/scrape_queue.py:162-195 | a failed job stays failed until it is deleted and is never claimed again |
| `ScrapeQueue.DeletedKeepsClaims` | houses/scrape_queue.py:222-228 | a deleted job stays deleted and is never claimed again |
| `ScrapeQueue.ClaimRespectsBackoff` | houses/scrape_queue.py:112-149 | a job is claimed no earlier than the backoff after its latest failed attempt, abandoned claims included |
| `ScrapeQueue.BackoffDoubles` | houses/scrape_queue.py:70-72 | the backoff doubles with each attempt until it reaches the cap and stays there |
| `ScrapeQueue.ScrapeTable.EnqueueScrape` | houses/scrape_queue.py:75-91 | a job is added unless the property has an active one |
| `ScrapeQueue.EnqueueAddsAFreshJob` | houses/scrape_queue.py:75-91 | a job is added if and only if every job of the property has failed; it has no attempts and is due at once, and no other row moves |
| `ScrapeQueue.ScrapeTable.ClaimDueScrape` | houses/scrape_queue.py:94-149 | abandoned claims go back one by one as failed attempts, then an oldest due job is claimed, or nothing is due |
| `ScrapeQueue.AbandonedClaimsFail` | houses/scrape_queue.py:112-134 | a claim of 15 minutes ago counts a failed attempt with its own error and backoff and releases the job; every other row stays |
| `ScrapeQueue.ClaimMarksItsJob` | houses/scrape_queue.py:135-149 | the claimed job waited and was due, no due job was created before it, and it is marked as claimed now; every other row stays, and nothing is claimed only if nothing is due |
| `ScrapeQueue.ScrapeTable.ReportScrape` | houses/scrape_queue.py:162-195 | success deletes the job and returns its property, failure counts an attempt, an unknown job changes nothing |
| `ScrapeQueue.ReportTouchesOneJob` | houses/scrape_queue.py:162-195 | a failure puts exactly the reported job one attempt further, with its error and the backoff from now, or fails it for good at the eighth; success deletes it; every other row stays |
| `ScrapeQueue.ScrapeTable.CancelScrape` | houses/scrape_queue.py:222-228 | every job of the property goes, whatever its status |
| `ScrapeQueue.CancelDropsEveryJob` | houses/scrape_queue.py:222-228 | no job of the property is left, failed ones included, every other row stays, and the answer is whether there was one |
| `CostGroups.BuildConserves` | houses/tfl_client.py:1158-1227 | the group legs concatenate to the input legs, the groups are the leading walks and then exactly the same-mode runs, each with the cost of its run, and they cost the return fare of those runs |
| `CostGroups.TotalFareLandsOnce` | houses/tfl_client.py:1209-1214 | with a whole-journey fare only, the groups cost exactly twice it as soon as one leg is transit |
| `CostGroups.EveryModePriced` | houses/tfl_client.py:1206-1208 | with a fare for every transit mode, the groups cost twice the fare of each maximal run |
| `CostGroups.SumEqualsTotalIff` | houses/tfl_client.py:1161-1167 | when the group costs equal twice the whole-journey fare, exactly |
| `CostGroups.PartialFaresAreChargedTwice` | houses/tfl_client.py:1200-1223 | a priced run before an unpriced one costs its own fare and the whole-journey fare |
| `CostGroups.RunsAlternate` | houses/tfl_client.py:1184-1198 | neighbouring runs have different modes, so the runs are maximal |
| `CostGroups.BuildCostGroups` | houses/tfl_client.py:1137-1155 | the groups of the first shortest journey keep its legs and cost its return fare, later fare entries of a mode winning |
| `CostGroups.FareBlockIsRead` | houses/tfl_client.py:1141-1147 | a mode has a single fare if and only if an entry of the fare block prices it, the last such entry deciding; the whole-journey fare is the block's total |
| `CostGroups.SingleFareIsDoubled` | houses/tfl_client.py:1200-1223 | a journey of one transit leg whose mode the block prices costs twice that price, whatever the total |
| `CostGroups.UnnamedLegTakesTheTotal` | houses/tfl_client.py:1150-1154 | a leg without a mode is a transit leg: alone it is one group with the whole-journey return fare |
| `CostGroups.UntimedJourneyLoses` | houses/tfl_client.py:1136-1136 | a journey without a duration is chosen only if no other is shorter than 9999 minutes |
| `CostGroups.DailyCost` | houses/tfl_client.py:1005-1012 | the summing loop returns the total of the group costs |

## Left out

- Interleaving.QuietLiveIsHonest: nodes with a conditional derived dependency, for which
  `Unchosen.UnchosenBranchLosesUpdate` shows it false. One loop pops; a second drain
  beside the background loop, as during shutdown, is not modelled.
- Interleaving.StaysWoken: that a conditional node stays stale while it waits; an
  assigned condition can make it look at other dependencies.
- FillDepth.WaitsLessThanDepth: nodes with a conditional node below them, whose bound is
  the number of registered nodes.
- Termination.EveryDrainHalts: failures without a Retry-After; the other case is
  `Limits.RetryAfterNeverHalts`.
- Runtime.Process.ProcessPending: asks for a state whose drains halt, because the loop
  does not end otherwise (`Termination.EveryDrainHalts` says which states do), and that
  keeps the synchronous invariant, which every start and every run provides. It is
  modelled without respect for time; the waiting of the background loop, the wakeup
  event and the since-flush gauge are left out.
- Runtime.Process.Refresh: a refresh that is not suspended; suspension is modelled on
  the state functions, in Interleaving. A ghost field holds the abstract state of a
  process and `Valid` ties it to the objects.
- Convergence.CutoffIsExact: one direction; runs without a dropped node are exact,
  and a run with one may or may not be. The same holds for `LiveCutoff.LiveCutoffIsExact`
  and `Deployed.DeployIsExact`.
- Session.PushAndDrain: one push per drain; the lemmas it uses cover any run.
- Start.BootActs: registration while the graph is still being built; all nodes are
  loaded first and then registered, each with the dependencies it was built with.
- Rewired.RewiredBoot: `set_deps` calls that take an active dependency away; those at a
  start only add some. A rewiring while the process runs is in `Wiring`, on the signals.
- Deployed.DeployIsExact: new nodes, new dependencies and transient failures after a
  deployment, and honesty of drains that drop nodes, for which
  `OldCode.DeployLosesUpdate` shows it false. Code does not change while a process runs.
- `force=True` refreshes, the after-refresh callback, nodes that drop a failed
  dependency from their active set, and two live nodes with one id.
- Raised and returned retryable failures take the same decision and are one
  outcome. Stored timestamps are well formed and a stored value still validates
  against its node's type.
- Source fingerprinting, provenance trees, formula rendering, value types and JSON,
  zlib and timestamp text: opaque, or injective encodings.
- Weak references: slots are held by live edges, so emitting never sweeps a handler.
- The thread guard, real clocks and float seconds: one clock that moves at every
  reading, microseconds as integers.
- WhatIf.WhatIfIsRecomputation: overrides are values that validate, and a compute that raises answers a
  failure. The context variable that shadows the live attempts is the shadow map.
- Shutdown.NoWriteVanishes: timeouts of the drain and of the join, and a refresh of the background
  loop that is in flight when the drain leaves.
- Migration.Table.ApplyMigration: reporting and the dry run. The bookkeeping of chunks is
  modelled by what a crash falls back to.
- ScrapeQueue.ClaimsAreBounded: the read-only status queries, which add no transition. Claims are one
  atomic step, as the single UPDATE statement makes them.
- CostGroups.DailyCost: parking groups, which `_process_data` appends and adds alike, labels,
  durations and the currency.
- Address, certificate, council-tax and fare-zone matching, measurements and
  expressions, HTTP clients, caches, the server and the download scripts.
