# CHSM: a verified model of the statechart run-time

CHSM compiles hierarchical, concurrent statecharts to C++ and Java. States form a tree of plain states,
clusters (exactly one child active) and sets (all children active); events are broadcast, select transitions
and are queued; the machine then runs micro-steps that exit sources, enter targets and dequeue events. This
project models the C++ run-time in `src/c++/libchsm` and proves what its algorithm keeps over every run, plus
four smaller parts of the repository: the event iterators of both run-times, the compiler's transition check
against the run-time's, the scoped symbol table and name mangling of the compiler, and the argument permutation
of `lib/getopt.c`.

`dafny verify dfyconfig.toml` checks everything.

## How it is organised

The run-time is modelled twice, and the two are proved to agree.

* `Engine.Machine` is the imperative model: one object whose fields are the mutable members of all states,
  events and the machine (`state`, `child`, `last`, `inProgress`, `queue`, `taken`, `target`, `running`), with
  one method per function of the source, mutually recursive in the same way. User code is a `World`: what each
  action broadcasts and what each condition answers, as arbitrary functions of how often user code was called
  before and of every state entered or exited so far, so every callback may broadcast any events at any time,
  re-entrantly. Termination of the two-way recursion is proved by (inactive states, rank) for entering and
  (active states, height) for exiting.
* `Configuration` holds the pure functions `Open` and `Quit` that say what a virtual `enter` or `exit` does to
  the active states and cluster memories. Every method of `Machine` is proved to do exactly that, whatever its
  callbacks broadcast. The theorems about configurations (`Leaving`, `Entering`, `NestedEntry`,
  `EntrySoundness`, `MicroStep`, `DisjointMoves`, `OncePerStep`, `History`, `Runs`) are about these functions, and
  `Sessions.Session` carries them back to the machine.
* `Accounts` keeps the account of broadcasts. Whatever enters, exits or acts goes on record as one `Deed` with every
  broadcast it made, and each broadcast with its outcome and the transitions it marked. The machine's invariant says
  that the record is complete, that each deed broadcast exactly what was due at its moment (`Right`: the state's event,
  then what its action asked for, knowing all that came before), and that queue and marks are exactly what the record
  says. `Machine.Broadcast` and `Sessions.Session` tie every micro-step to the broadcasts of the one before it.
* `Stranding`, `Returns` and `StuckState` say which states a run can leave disabled.

A configuration is *complete* (legal) when the root is active, nothing is active under an inactive parent, every
active cluster has exactly one active child, the one `active_child_` points to, and every active set has all
its children active. It is *sound* when nothing is active under an inactive parent and no active cluster has an
active child other than `active_child_`.

States are numbered from 0, the root; the source keeps the root out of its state table with identifier -1, so
source state i is number i + 1. `rank` and `level` are not in the source: they only record that parent chains
and base-event chains end. `performed`, `hits`, `step`, `entering`, `bait`,
`deeds`, `said` and `since` are ghost fields of `Machine`; `clock` and `log` are what user code has seen.

## What came out

* **Entry has an exact boundary.** `state::enter` ignores whether its parent could be entered, and a set enters
  its children by default even when a particular descendant is the target. `NestedEntry.EntryOk` is a test a
  caller can make before the call; `EntrySoundness.EntryBoundary` proves that a sound configuration stays sound
  if and only if it holds, and that otherwise the damage is never undone by a later entry.
* **Micro-steps and runs inherit it.** For legal transitions a step keeps a configuration complete if and only
  if every entry meets the test at its turn, and so for runs of any length. Legal transitions that leave disjoint
  subtrees and enter cleanly always meet it; `NestedExits.NestedExitsBreak` is a concrete step of two legal
  transitions, the second leaving a set around the first, that does not.
* **Quiescence has an exception, with an exact condition.** When the outermost `algorithm()` ends, the queue is
  empty, every counter is zero and every `taken_` is null, but a state can be left disabled. A transition
  performed in Phase I keeps its mark until Phase II has entered its target; if its source is active again by
  then, another event that can trigger it, and of which no event of the step is derived, disables the source
  and finds the transition already marked. `Stranding.Hazards` computes from the marks and the configuration at the
  start of a micro-step which sources these are. `Machine.MicroStep` proves that no other state is newly
  stuck, whatever user code does; `StuckState.ComesTrue` proves that every one of them is left disabled at rest for
  some user code that agrees with the past; and `Machine.Algorithm`, `Machine.Broadcast` and `Sessions.Session` add it up
  over runs: a run whose turns have no hazard leaves no state newly disabled. Stuck states are released by exiting,
  as when an enclosing state is left later; until then they stay disabled. `StuckState.Strand` is a machine of one
  state that gets there through the engine alone. Charts in which no two events share an external transition have
  no hazards, nor do transitions that leave a child of the root into which no target leads.
* **The compiler's check is narrower than the run-time's.** `check_transitions` reports a pair exactly when
  `is_legal` rejects it, neither state encloses the other, and the two branches below the common set start with
  different characters; `Legality.CheckAgreement` proves it for all pairs.
* **A permuted command line can read differently.** `Getopt.PermutedReadsTheSame` proves that it reads the same
  if and only if no option at its end lacks its argument or there is no operand for it to take instead.
* **Mangling has an exact boundary too.** A component of three-digit length has the third digit overwritten, and
  demangling reads past the end of a last component that starts with a digit. `Mangling.DemangleBoundary` proves, on
  any memory, that a name comes back if and only if each component is read with its own length, or the last, of at
  least 10 characters, with a greater one. `Mangling.ShortNames` says what that means for components of up to 99
  characters.

## Model

| member | source | states |
|---|---|---|
| Leaving.QuitExact | src/c++/libchsm/state.cpp:115-171 | From a sound configuration, exiting an active state deactivates exactly the subtree of the first state upward whose parent is a proper ancestor of the destination (the state itself without one), each state once and only when nothing below it is active; memories are untouched and the result is sound |
| Leaving.DropExact | src/c++/libchsm/cluster.cpp:70-75 | Exiting without a destination deactivates exactly the subtree, leaves first |
| Leaving.DropAllExact | src/c++/libchsm/set.cpp:40-49 | The loop over a set's children removes exactly the subtrees of the children still ahead, without interference |
| Leaving.LeafFirstMeaning | src/c++/libchsm/cluster.cpp:73-74 | In such a run every exited state was active and no state exits after its ancestor |
| Leaving.ExitTopNotRoot | src/c++/libchsm/state.cpp:148-168 | Climbing towards the common ancestor never makes the root exit when neither end of the transition is the root |
| Leaving.ExitTopFirst | src/c++/libchsm/state.cpp:148-168 | Climbing stops at the first chance: no state on the way up before the top of what is left has a parent that is a proper ancestor of the destination |
| Entering.DescendExact | src/c++/libchsm/cluster.cpp:42-68 | Entering an inactive subtree by default activates exactly its default or history closure, parents first; each entered cluster points at the child it picked and no other memory moves |
| Entering.FillAllExact | src/c++/libchsm/set.cpp:33-35 | The loop over a set's children activates exactly the closures of the children still ahead |
| Entering.RootFirstMeaning | src/c++/libchsm/state.cpp:51-86 | In an entry run every entered state was inactive, is active at the end, and is entered once |
| NestedEntry.RouteExact | src/c++/libchsm/state.cpp:56-71 | Walking in to a target activates exactly its inactive proper ancestors, parents first, and leaves each cluster on the way pointing towards the target |
| NestedEntry.EntryExact | src/c++/libchsm/state.cpp:51-113 | When the topmost inactive ancestor is accepted and the defaults lead to the target, entering it activates exactly the inactive ancestors and the default closure below, with the target among them, once each and parents first; says for every cluster which child it points to afterwards |
| EntrySoundness.EntryKeepsSound | src/c++/libchsm/state.cpp:51-113 | Such an entry keeps the configuration sound, leaves every entered state full and every full state full |
| EntrySoundness.ShutOut | src/c++/libchsm/state.cpp:62-78 | If an active cluster refuses the topmost inactive ancestor, the states below it are activated all the same under an inactive parent |
| EntrySoundness.OffDefault | src/c++/libchsm/set.cpp:33-35 | If a default choice under an entered set leads away from the target, some cluster ends with two active children |
| EntrySoundness.BrokenStays | src/c++/libchsm/state.cpp:51-113 | That damage survives every later entry |
| EntrySoundness.EntryBoundary | src/c++/libchsm/state.cpp:51-113 | Entering a target keeps a sound configuration sound if and only if the caller's test EntryOk held before the call |
| EntrySoundness.StartIsComplete | src/c++/libchsm/machine.cpp:261-264 | Entering the root of an inactive machine gives a complete configuration |
| MicroStep.MeetIsDeepest | src/c++/libchsm/transition.cpp:43-48 | Every common ancestor of two states encloses the one found as their nearest |
| MicroStep.LegalReturns | src/c++/libchsm/transition.cpp:34-51 | A legal transition that leaves a child of a set has its destination under that same child |
| MicroStep.EntriesBoundary | src/c++/libchsm/machine.cpp:175-212 | A sequence of entries keeps a sound configuration sound if and only if each is acceptable at its turn |
| MicroStep.StepBoundary | src/c++/libchsm/machine.cpp:92-212 | A micro-step of legal transitions takes a complete configuration to a complete one if and only if every entry is acceptable at its turn |
| DisjointMoves.LeaveAllExact | src/c++/libchsm/machine.cpp:92-161 | Phase I deactivates exactly the union of the subtrees its transitions leave, each state once, leaves first, and stays sound |
| DisjointMoves.LeftWasActive | src/c++/libchsm/machine.cpp:111-119 | Every performed transition had its source, and the top of what it leaves, active at the start of the step |
| DisjointMoves.Dominance | src/c++/libchsm/machine.cpp:112-119 | No performed transition has its source, or the top of what it leaves, in a subtree an earlier one of the step left |
| DisjointMoves.CleanDefault | src/c++/libchsm/set.cpp:29-38 | When no inactive cluster on the way in lies below an inactive set, every default choice leads to the target |
| DisjointMoves.DisjointStepSafe | src/c++/libchsm/machine.cpp:92-212 | Legal transitions that leave pairwise disjoint subtrees and enter on clean paths take a complete configuration to a complete one |
| DisjointMoves.StaticallyClean | src/c++/libchsm/set.cpp:29-38 | A way in with no cluster below a set is clean in every configuration |
| OncePerStep.OpenWent | src/c++/libchsm/state.cpp:51-113 | An entry from any configuration, sound or not, activates inactive states only, each once |
| OncePerStep.QuitWent | src/c++/libchsm/state.cpp:115-171 | An exit from any configuration, sound or not, deactivates active states only, each once |
| OncePerStep.StepOnce | src/c++/libchsm/machine.cpp:92-212 | From any configuration Phase I only deactivates and Phase II only activates; no state exits twice and none is entered twice in one micro-step |
| OncePerStep.FillAllInOrder | src/c++/libchsm/set.cpp:33-35 | A set enters its children in their order, each with all that comes with it before the next |
| OncePerStep.DropAllInOrder | src/c++/libchsm/set.cpp:44-46 | A set exits its children in their order, each with everything below it before the next |
| NestedExits.NestedExitsBreak | src/c++/libchsm/machine.cpp:92-212 | Disjointness matters: two legal transitions that both find their source active, the second leaving a set around the first, end in a configuration that is not complete |
| History.ActiveIsClosure | src/c++/libchsm/cluster.cpp:57-64 | In a full subtree the active states are the default closure if and only if every active cluster would pick its active child |
| History.RoundTripBoundary | src/c++/libchsm/cluster.cpp:42-75 | For every active state, the root included: exiting it and entering it again by default restores the same active states if and only if every active cluster below would pick its active child |
| History.HistoryRoundTrip | src/c++/libchsm/cluster.cpp:42-75 | For every active state, the root included: with histories and nothing cleared while active, the whole configuration comes back, memories included |
| History.ForgottenEntry | src/c++/libchsm/cluster.cpp:57-64 | Entered by its parent with no history, or nothing remembered but first children, a state brings in exactly the first-child configuration |
| History.ClearedForgets | src/c++/libchsm/cluster.cpp:37-40 | When exactly the clusters of a subtree are put back to their first children, none of them would pick anything else, and the memories stay well-formed |
| History.ClearedReentry | src/c++/libchsm/cluster.cpp:37-75 | Exiting a state, clearing it and entering it again through the virtual enter() gives exactly what was left active, and the first-child configuration of the state |
| History.ClearedInside | src/c++/libchsm/cluster.cpp:37-75 | Exiting a state, clearing only a part of it and entering it again brings back exactly the states outside that part, their clusters with the old children, and first children inside it |
| Charts.ChainDistinct | src/c++/chsmc/parser.ypp:857-874 | No transition occurs twice among those an event and its base events can trigger |
| Charts.DerivesClosed | src/c++/libchsm/event.cpp:65-66 | The base chain of an event holds the event and, with any event, its base |
| Charts.DerivesOnly | src/c++/libchsm/event.cpp:65-66 | Whatever else is on it is the base of another event on it |
| Charts.ChainHolds | src/c++/libchsm/event.cpp:242-251 | Every transition of every event on the base chain is among those an event can trigger, however many lists in between are empty |
| Charts.ChainInOrder | src/c++/libchsm/event.cpp:242-251 | The transitions of an event come in order, and before those of its bases |
| Charts.LoadAppend | src/c++/libchsm/event.cpp:65-66 | Making one more event live raises by one the load of exactly the events on its base chain |
| Charts.AgendaMeaning | src/c++/libchsm/machine.cpp:92-110 | The transitions Phase I will look at are exactly those on the chain of a queued event that carry its mark |
| Charts.ExitsPlace | src/c++/libchsm/machine.cpp:111-136 | Place by place, a marked transition, internal or not, is performed if and only if its source is still active once those before it are done with; an external one then exits its source |
| Charts.ExitsAreMoves | src/c++/libchsm/machine.cpp:108-136 | Phase I's pass over the marked transitions is the exits of those that find their source active, in order |
| Charts.EntersAreMoves | src/c++/libchsm/machine.cpp:183-204 | Phase II's pass over the same marks is the entries of those transitions, in order |
| Accounts.ChosenMeaning | src/c++/libchsm/event.cpp:146-233 | The transitions a broadcast marks are exactly the selected ones of its chain that no other event has marked |
| Accounts.ChosenOrder | src/c++/libchsm/event.cpp:146-233 | They are marked in the order of the chain, each once |
| Accounts.MarkedChosen | src/c++/libchsm/machine.cpp:108-110 | Reading the marks back along the chain, as Phase I does, gives those transitions in that order |
| Accounts.ChronicledMore | src/c++/libchsm/state.cpp:86-112 | One more act on record keeps the record right: everything it had to broadcast, at the moment it had to |
| Accounts.LedgerQueued | src/c++/libchsm/event.cpp:104-108 | When a broadcast is queued, queue and marks remain exactly what the broadcasts since the step began have queued and marked |
| Stranding.HitsMeaning | src/c++/libchsm/machine.cpp:183-204 | The performed transitions that count as hit are exactly those whose source is active once the targets up to their own are entered, the moment before their mark is cleared |
| Stranding.LaterTrans | src/c++/libchsm/event.cpp:58-121 | What broadcasts may do to queue, marks and stuck states composes, while states only come on or only go off |
| Stranding.LinkedMore | src/c++/libchsm/machine.cpp:71-237 | One more turn keeps a run connected: its events and marks come from what was broadcast during the turn before, and it performs what on its agenda finds its source active |
| Stranding.ProvokingIs | src/c++/libchsm/event.cpp:172-173 | Whatever user code did so far, there is user code that agrees with it and from now on broadcasts one event from one enter action |
| Stranding.RemainingConcat | src/c++/libchsm/machine.cpp:71-237 | What can be stuck after two runs is what remains of the first after the second |
| Stranding.HarmlessStrandsNothing | src/c++/libchsm/machine.cpp:71-237 | A run none of whose turns has a hazard leaves stuck only what was stuck before |
| Stranding.FlatIsHarmless | src/c++/libchsm/event.cpp:178-210 | When no two events share an external transition, no turn of any run has a hazard |
| Returns.OpenElsewhere | src/c++/libchsm/state.cpp:51-113 | Entering a state elsewhere never activates a child of a state that is active already |
| Returns.HazardReturns | src/c++/libchsm/machine.cpp:92-212 | A state can only be a hazard of a step if a target of the step lies inside it or its parent was left in the same step |
| Returns.LeavingForGood | src/c++/libchsm/machine.cpp:92-212 | A child of the root into which no transition leads is never a hazard, however many events share its transitions |
| Phases.PhaseOneStep | src/c++/libchsm/machine.cpp:92-161 | Phase I handles one more event: what is done is the agenda up to and including it, and the marks of the step's other events are as they were |
| Phases.PhaseTwoStep | src/c++/libchsm/machine.cpp:175-212 | Phase II handles one more event: its marks are gone and those of the events still ahead are as they were |
| Phases.StepEnds | src/c++/libchsm/machine.cpp:204-233 | After Phase II no transition is marked for an event of the step and none waits to be cleared |
| Engine.Machine.constructor | src/c++/libchsm/machine.cpp:40-55 | A new machine is inactive, sound and quiescent |
| Engine.Machine.Raise | src/c++/libchsm/event.cpp:65-66 | Exactly the events on the base chain are counted once more |
| Engine.Machine.Lower | src/c++/libchsm/event.cpp:123-133 | Exactly the events on the base chain are counted once less; no decrement is ever skipped, so the guards never fail |
| Engine.EarliestSelected | src/c++/libchsm/event.cpp:160-166 | Whenever an external transition is enabled, some enabled external one with the same source, at its place or earlier, is selected |
| Engine.Machine.SelectedHere | src/c++/libchsm/event.cpp:156-173 | The engine's test, on states already disabled so far, picks exactly the declaratively selected transitions |
| Engine.Machine.Select | src/c++/libchsm/event.cpp:178-210 | Marks the transition unless it is marked, disables the source of an external one and keeps the bookkeeping invariant |
| Engine.Machine.FindTransition | src/c++/libchsm/event.cpp:146-233 | Marks exactly the unmarked transitions whose source was plain active, whose condition holds and which no earlier enabled external one with the same source precedes; disables exactly the sources of the selected external ones; true if and only if any is selected |
| Engine.Machine.Post | src/c++/libchsm/event.cpp:58-108 | An event already in progress, refused by its precondition or selecting nothing leaves no trace; otherwise it goes to the end of the queue, no event is queued twice, every counter is the number of live events above it, and marks of other events are kept; the broadcast goes on record once, with its outcome and the transitions it marked; stuck states stay so, and newly stuck ones are active sources of performed transitions that no event of the step can claim |
| Engine.Machine.QueuedLedger | src/c++/libchsm/event.cpp:104-108 | After an accepted broadcast queue and marks are still what the recorded broadcasts account for |
| Engine.Machine.NewlyStuck | src/c++/libchsm/event.cpp:178-210 | A state that a broadcast disables awaits the selected transition in a coming Phase I, unless that transition has been performed and still carries the mark of an event the new one is no base of |
| Engine.Machine.AwaitedStays | src/c++/libchsm/event.cpp:165-179 | A state that was disabled before a broadcast awaits the same transitions after it |
| Engine.Machine.Announce | src/c++/libchsm/state.cpp:93-94 | The event of an entered or exited state is broadcast once if it has one; nothing is broadcast otherwise |
| Engine.Machine.Notify | src/c++/libchsm/state.cpp:101-110 | What an action asks for is broadcast call by call, in order, each once; the active states stay as they are, the queue only grows at its end, only unmarked transitions gain marks, for new events, and only exposed states become stuck |
| Engine.Machine.Report | src/c++/libchsm/state.cpp:88-110 | An act broadcasts its event, if there is one, and then exactly what its action asks for when it is called, having seen every earlier broadcast and the entry or exit itself; all this goes on record |
| Engine.Machine.Enter | src/c++/libchsm/state.cpp:51-113 | Terminates, and does to the configuration exactly what Open says whatever the callbacks broadcast, keeping the books balanced and the record of broadcasts complete and in order; newly stuck states are sources of performed transitions that are active afterwards |
| Engine.Machine.StateEnter | src/c++/libchsm/state.cpp:51-113 | The permission protocol with the parent, as a function of the configuration |
| Engine.Machine.BecomeActive | src/c++/libchsm/state.cpp:86-112 | Exactly the state becomes active, its entry is logged, exactly its enter event, if there is one, and then what its enter action asks for at that moment are broadcast, and none of it changes another state's activity or a cluster's memory |
| Engine.Machine.ClusterEnter | src/c++/libchsm/cluster.cpp:42-68 | As Open, for a cluster: note the child being entered directly, or enter the picked one |
| Engine.Machine.SetEnter | src/c++/libchsm/set.cpp:29-38 | As Open, for a set: enter every child, also when one is being entered directly |
| Engine.Machine.SwitchActiveChildTo | src/c++/libchsm/cluster.cpp:77-88 | Refuses exactly when the parent is a cluster whose active child is active; when granted, the cluster remembers the new child and nothing else changes |
| Engine.Machine.BecomeInactive | src/c++/libchsm/state.cpp:119-146 | The same for an exit: the state becomes inactive first, then exactly its exit event and what its exit action asks for are broadcast |
| Engine.Machine.Exit | src/c++/libchsm/state.cpp:115-171 | Terminates, does exactly what Quit says whatever the callbacks broadcast, keeps the record of broadcasts complete and in order, and reports whether the state was active; stuck states stay so unless they exit |
| Engine.Machine.HasAncestor | src/c++/libchsm/state.cpp:158-160 | The walk up from the destination finds the parent if and only if the destination lies properly below it |
| Engine.Machine.PerformAction | src/c++/libchsm/machine.cpp:135-149 | A performed transition broadcasts exactly what its action asks for, once, and changes no state |
| Engine.Machine.PhaseI | src/c++/libchsm/machine.cpp:92-161 | Performs, event by event and in order, exactly the marked transitions whose source is still active, calls the action of each exactly once, and unmarks the others; the stuck states afterwards are those of before that did not exit |
| Engine.Machine.PhaseII | src/c++/libchsm/machine.cpp:175-212 | Enters exactly the targets of the performed transitions, in the same order, and clears their marks; newly stuck states come from transitions whose source was active when cleared, or still is |
| Engine.Machine.PhaseIII | src/c++/libchsm/machine.cpp:226-233 | Removes exactly the events of the step from the front of the queue and balances the counters |
| Engine.Machine.MicroStep | src/c++/libchsm/machine.cpp:71-237 | What the step does to the configuration is decided by the marks it starts with, in queue order, and each performed transition's action is called once; afterwards only events broadcast during it are queued; stuck states stay so unless they exit, and the only new ones are the hazards of the step; under user code that provokes one of them, it does come true |
| Engine.Machine.NewDeeds | src/c++/libchsm/machine.cpp:71-237 | After a micro-step the queue is exactly, and in order, what the broadcasts made during it queued, the marks exactly what they marked, and all of them were due |
| Engine.Machine.Algorithm | src/c++/libchsm/machine.cpp:61-245 | A nested call changes nothing; otherwise, if events are queued, the first micro-step handles them with the marks they have, each later one exactly what was broadcast during the one before, and all that is done goes on record; the machine follows a run of the chart's own moves and, when the loop ends, the queue is empty, all counters are zero and no transition is marked; only what remains of the hazards of its turns is stuck, which at rest means disabled |
| Engine.Machine.DisabledAtRest | src/c++/libchsm/machine.cpp:239-245 | At rest the disabled states are exactly the stuck ones |
| Engine.Machine.Accept | src/c++/libchsm/event.cpp:58-108 | From outside, at rest, a broadcast is queued if and only if its precondition holds and something is selected, with exactly the selected transitions marked, in the order of the chain |
| Engine.Machine.Broadcast | src/c++/libchsm/event.cpp:58-121 | From a quiescent machine, an event that selects something is answered by a micro-step with just this event and its selected transitions, then one for what was broadcast meanwhile, and so on, every one of them on record; nothing happens to any state if nothing is selected; the whole is a run of the chart's moves that ends quiescent, and only what remains of the hazards of its turns is disabled |
| Engine.Machine.Start | src/c++/libchsm/machine.cpp:261-264 | When the enter actions called while starting broadcast nothing, whatever they do later, and there are no enter events, starting gives a complete configuration, a quiescent machine and no disabled state |
| Engine.Machine.DeepClear | src/c++/libchsm/cluster.cpp:37-40 | Every cluster within the state goes back to its first child, and every other memory stays as it was |
| Runs.RunConcat | src/c++/libchsm/machine.cpp:71-237 | A run and a second one from where it ends make one run with the same end |
| Runs.RunAppend | src/c++/libchsm/machine.cpp:71-237 | A run followed by one more micro-step is a run |
| Runs.RunBoundary | src/c++/libchsm/machine.cpp:71-237 | A run of legal transitions, of any length, stays within the complete configurations if and only if every entry is acceptable at its turn |
| Runs.LegalAtTheEnd | src/c++/libchsm/machine.cpp:71-237 | A run legal throughout ends in a complete configuration |
| Runs.CleanRunSafe | src/c++/libchsm/machine.cpp:71-237 | A run of legal transitions whose steps leave disjoint subtrees and enter on clean paths stays within the complete configurations |
| Runs.StaticallyCleanRun | src/c++/libchsm/set.cpp:29-38 | When no target has a cluster below a set on its way in, every run enters on clean paths |
| Sessions.Session | src/c++/libchsm/event.cpp:58-121 | Any sequence of broadcasts to a complete quiescent machine is answered call by call, in order, each from the state and the record the ones before it led to; all turns together are one run of the chart's moves; with legal transitions it stays complete if and only if every entry is acceptable at its turn, and does so when steps leave disjoint subtrees and targets are clean; a state disabled at rest is what remains of a hazard, and there is none if no turn has a hazard or the chart is flat |
| Sessions.OpeningIs | src/c++/libchsm/event.cpp:58-121 | Between two broadcasts the machine is in the configuration the turns so far led to, user code has seen exactly what is on record, and only what remains of a hazard is disabled |
| StuckState.SomeWorldTempts | src/c++/libchsm/event.cpp:178-210 | For every hazard of the coming step there is user code that agrees with the past and provokes it |
| StuckState.ComesTrue | src/c++/libchsm/machine.cpp:61-245 | Under such user code the outermost algorithm() ends with the state disabled: every hazard comes true |
| StuckState.ComesTrueMidway | src/c++/libchsm/machine.cpp:71-237 | The same from the middle of a run: two micro-steps later the queue is empty and the state is disabled |
| StuckState.Strand | src/c++/libchsm/event.cpp:178-210 | A machine constructed, started and sent one event, whose enter action broadcasts a derived event when the state is entered again, comes to rest with its only state disabled |
| EventIteration.Cursor.Begin | src/c++/libchsm/chsm.h:1708-1714 | A new iterator has the whole chain ahead of it |
| EventIteration.Cursor.Bump | src/c++/libchsm/event.cpp:242-251 | Moves to the next array that is not exhausted without skipping anything; at the end exactly when nothing is ahead |
| EventIteration.Cursor.Increment | src/c++/libchsm/chsm.h:691-695 | Drops exactly the transition at the current place |
| EventIteration.WalkComplete | src/c++/libchsm/event.cpp:242-251 | The walk visits every transition of every event on the base chain and nothing else, each event's in order and before its bases' |
| EventIteration.WalkCpp | src/c++/libchsm/chsm.h:641-769 | The C++ loop visits exactly the transitions of the event, its base and so on, past empty lists too, and terminates; states completeness and order without the chain |
| EventIteration.LookAhead.SetNext | src/java/libchsm/CHSM/Event.java:122-133 | The look-ahead is the first transition ahead, or null exactly when there is none |
| EventIteration.LookAhead.HasNext | src/java/libchsm/CHSM/Event.java:54-60 | True if and only if something is ahead, and calling it again changes nothing ahead |
| EventIteration.LookAhead.Next | src/java/libchsm/CHSM/Event.java:79-85 | Returns the first transition ahead, which id() then names; None where the source throws NoSuchElementException |
| EventIteration.WalkJava | src/java/libchsm/CHSM/Event.java:43-161 | The Java loop visits the same, in the same order |
| Legality.AncestorList | src/c++/libchsm/transition.cpp:38-41 | Pushing ancestors to the front gives the path from the root to the state |
| Legality.LastCommon | src/c++/libchsm/transition.cpp:45-48 | Where two such paths part is right after the deepest common ancestor-or-self |
| Legality.LegalMeaning | src/c++/libchsm/transition.cpp:43-50 | There is a state that encloses or is each of the two and lies within whatever else does, and being legal means that it is not a set; when one of the two encloses or is the other, it is that one |
| Legality.IsLegal | src/c++/libchsm/transition.cpp:34-51 | True if and only if the state that encloses or is each of the two, and lies within whatever else does, is not a set; in particular a self-transition, or one between a state and what it encloses, is decided by the outer state's kind |
| Legality.LegalSymmetric | src/c++/libchsm/transition.cpp:34-51 | The order of the two states does not matter |
| Legality.CheckTransition | src/c++/chsmc/chsm_compiler.cpp:126-145 | Reports if and only if the names first differ right after a dot, neither ends there, and what comes before that dot names a set |
| Legality.CheckAgreement | src/c++/chsmc/chsm_compiler.cpp:107-147 | A pair is reported if and only if is_legal rejects it, neither state encloses the other, and the branches below their common set start with different characters |
| Getopt.ScanIsPermutation | lib/getopt.c:493-552 | Options and operands of a command line together are its elements, none lost, added or duplicated |
| Getopt.ReadByRoles | lib/getopt.c:493-552 | Given, character by character, the part each element plays after the one before it (an option, the argument it takes, "--", an operand, or anything after "--"), options and operands are the elements of either side, in the order given |
| Getopt.OneCasting | lib/getopt.c:493-552 | Every line can be read in one such way only |
| Getopt.PermutedReadsTheSame | lib/getopt.c:493-552 | The permuted line reads the same as the original if and only if no option at the end lacks its argument or there is no operand |
| Getopt.RotatedIs | lib/getopt.c:118-128 | The specification of exchange is A ++ B turned into B ++ A, with the rest in place |
| Getopt.Rotate | lib/getopt.c:133-177 | The block-swap loop terminates for all segment lengths and exchanges the two segments in place |
| Getopt.Scanner.Exchange | lib/getopt.c:130-183 | The skipped operands and the options after them change places, and the window moves with the operands |
| Getopt.Scanner.Settle | lib/getopt.c:504-521 | The window ends where scanning stands, after the operands skipped, and what has been read still adds up to the line as given |
| Getopt.Scanner.Terminate | lib/getopt.c:528-540 | After "--" the options, "--" included, stand before the window, which holds everything else in its original order |
| Getopt.Scanner.Letter | lib/getopt.c:608-698 | The last letter of an option moves past the option and the argument it takes, if there is one |
| Getopt.Scanner.Next | lib/getopt.c:470-700 | Each call makes progress and keeps the invariant, returning one letter of an option element that has as many calls as letters, or ends with options first, operands last and optind between them |
| Getopt.Scan | lib/getopt.c:470-700 | A whole scan leaves argv a permutation: what plays the part of an option, an argument or "--" by its characters first, operands last, both in their original order, optind at the first operand |
| Mangling.Mangle | src/c++/chsmc/mangle.cpp:38-60 | For every name, the buffer holds the prefix followed by length and characters of every component, the third digit of a length overwritten |
| Mangling.Demangle | src/c++/chsmc/mangle.cpp:62-81 | Reading any memory it can read without leaving it, the very buffer it writes or another, writes every component with a dot and ends the string at the last dot, the write index staying strictly behind the read index; what is not mangled is returned as it is |
| Mangling.DemangleBoundary | src/c++/chsmc/mangle.cpp:62-81 | A mangled name, in any memory, comes back if and only if each component is read with its own length, or the last, of at least 10 characters, with a greater one |
| Mangling.Demangled | src/c++/chsmc/mangle.cpp:79-80 | The same for the string the caller finds in the buffer |
| Mangling.ShortNames | src/c++/chsmc/mangle.cpp:46-55 | With components of at most 99 characters a name comes back if and only if none is empty and none starts with a digit, except that the last may from 10 characters on |
| Mangling.GoodIsExact | src/c++/chsmc/mangle.cpp:46-55 | Components of 1 to 99 characters that do not start with a digit are read with their own length |
| Mangling.RoundTrip | src/c++/chsmc/mangle.cpp:38-81 | Mangling a name that is read exactly and demangling it in the shared buffer gives it back |
| Mangling.MangleInjective | src/c++/chsmc/mangle.cpp:38-60 | Different names that are read exactly have different mangled forms |
| Mangling.LeadingDigitBreaks | src/c++/chsmc/mangle.cpp:72-77 | A concrete name whose first component starts with a digit, read with the wrong length, that does not come back |
| SymbolTables.InsertedSorted | src/c++/chsmc/symbol.cpp:65-93 | Insertion keeps the list non-increasing in scope and adds exactly the new info |
| SymbolTables.InsertedAt | src/c++/chsmc/symbol.cpp:83-92 | What precedes the place where the walk stops, the new info, and what was there |
| SymbolTables.SymbolTable.Insert | src/c++/chsmc/symbol.cpp:65-93 | The walk puts the new info in front of the first one that is not from a deeper scope; the table invariant is kept for infos of open scopes |
| SymbolTables.SymbolTable.IthInfo | src/c++/chsmc/symbol.cpp:107-118 | The info that many places in from the innermost, or none |
| SymbolTables.SymbolTable.CloseScope | src/c++/chsmc/symbol.cpp:120-144 | Visiting the symbols in any order leaves of every list exactly the infos of scopes still open, in order, and drops emptied symbols; the global scope is never closed |
| SymbolTables.PrunedExact | src/c++/chsmc/symbol.cpp:128-133 | With nothing above the current scope, closing it removes exactly its infos |
| SymbolTables.PrunedBoundary | src/c++/chsmc/symbol.cpp:128-133 | For any sorted list, exactly the infos of the current scope go if and only if none lies above it or there is none to remove |
| SymbolTables.BalancedRun | src/c++/chsmc/symbol.cpp:120-144 | A balanced run of opens, closes and insertions leaves, for every symbol and in order, what its insertions into already open scopes alone would have left |

## Left out

- Engine.Machine.Algorithm: actions may broadcast for ever, so the number of micro-steps is bounded by a parameter; `finished` tells whether the loop ended by itself, and every statement about micro-steps and runs holds whatever the bound.
- Engine.Machine.Start: only when the enter actions it calls broadcast nothing and no state has an enter event, because the initial `machine::enter` does not mark the machine as in progress and such a broadcast would run the algorithm half-way through the entry.
- Engine.Machine.Post: stops where `event::broadcast` calls `algorithm()`; a nested call returns at once, and `Broadcast` makes the outermost one.
- DisjointMoves.DisjointStepSafe: sufficient, not necessary; the exact condition is in MicroStep.StepBoundary.
- Runs.CleanRunSafe: sufficient, not necessary; the exact condition is in Runs.RunBoundary.
- Returns.HazardReturns: necessary, not sufficient; the exact condition is the hazard itself.
- Stranding.HarmlessStrandsNothing: over several turns the account is an upper bound; it is exact turn by turn, by Engine.Machine.MicroStep and StuckState.ComesTrueMidway.
- Sessions.Session: starts from a complete quiescent machine, as `Start` leaves it.
- StuckState.Strand: broadcasts its event by `Post` and `Algorithm`, the two halves of `Broadcast`.
- Charts.Chain: the engine's loops over an event's transitions index this sequence; the two iterators are proved to yield it in EventIteration.
- Mangling.Mangle: the 256-byte buffer is a precondition on the length of the mangled name.
- Mangling.Demangle: memory that the source would leave while reading or writing is excluded, as are the signs, blanks and overflow that `atoi` knows but a mangled name does not have.
- Legality.CheckTransition: takes two defined states; undefined targets, internal and computed transitions, and the 256-byte name buffer are not modelled.
- SymbolTables.BalancedRun: insertions go into scopes that are open at the time, as the default scope of an info makes them.
- Getopt.Scan: each element of argv is classified as operand, "--", or an option with a number of letters that may take the next element; matching option names, reporting errors, `-W`, the other two orderings, the environment and callers that move `optind` are not modelled.
- Transitions with target functions: a null or throwing target leaves a mark that is never cleared; only fixed targets and internal transitions are modelled.
- Empty clusters: entering one is modelled, but exiting one dereferences a null active child, so charts have none.
- Exceptions thrown by user code, parameter blocks, preconditions as code (their outcome is a parameter), threads and the recursive mutex.
- Debug output, indentation counters, and the validity of deque iterators while the queue grows.
- `machine::exit`: it is the exit of the root without a destination.
- The contents of a symbol's infos, represented by a number, and the iteration order of the hash table, which is arbitrary here.
- The rest of the Java run-time, the Groovy builder, the language parsers and the code generators.
