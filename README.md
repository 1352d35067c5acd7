# BRD generation panel: status workflow

This project models the state machine behind the "Business Requirements
Document" generation panel of a Next.js starter application
(`BRDGenerationSection`). The panel keeps two pieces of state:

- a status: `"pending"`, `"in-progress"` or `"completed"`;
- a loading flag.

Its click handler `handleGenerateBRD` works in four steps:

1. It ignores the click while a request is running or once the document is generated.
2. Otherwise it marks the request as running and in progress.
3. It awaits an injected producer, or a fixed demo delay when none is supplied.
4. It moves to completed on success, or back to pending on failure. It clears the loading flag in a `finally` block.

The render path derives the button's disabled flag and its label from the same state.

The asynchronous handler is split at its `await` into two steps, so that the
in-progress state can be observed:

- `Click` / `Begin` is the guard and the start.
- `Settle` is the success or failure path plus the cleanup.

The outcome of the awaited work is a parameter, a `Settlement`:

- `FallbackDelay` is the demo delay used when no producer is supplied. It always succeeds.
- `Resolved` means the injected producer succeeded.
- `Rejected` means the injected producer failed.

Files:

- `status_machine.dfy` (module `BRDStatusMachine`) holds the state as a value and the two steps as functions. It also runs sequences of events (`Clicked`, `Settled(…)`) over the state. The lemmas about whole runs live here.
- `generation_section.dfy` (module `BRDSection`) holds the component as a class. Its fields `status` and `isLoading` are updated in place by `Begin`, `Settle` and `HandleGenerateBRD`. Each method's postcondition ties the new state to the functions above. `Disabled()` and `Label()` read the fields.

## Model

| member | source | states |
|---|---|---|
| BRDSection.BRDGenerationSection.constructor | src/components/organisms/BRDGenerationSection.tsx:12-17 | a new panel shows the configured initial status (pending when none is given), is not loading, and satisfies the invariant |
| BRDStatusMachine.Initial | src/components/organisms/BRDGenerationSection.tsx:16-17 | the starting state keeps the configured status, is not loading and is valid; the button starts disabled exactly when the configured status is completed |
| BRDStatusMachine.DefaultInitial | src/components/organisms/BRDGenerationSection.tsx:13 | without a configured status the panel starts pending and idle, so the first click is accepted |
| BRDStatusMachine.Disabled | src/components/organisms/BRDGenerationSection.tsx:57 | the button is enabled exactly when no request is running and the label still reads "Generate BRD" |
| BRDStatusMachine.Click | src/components/organisms/BRDGenerationSection.tsx:19-23 | a click passes the guard exactly when the button is enabled; if it passes, the panel is loading and in progress; if not, nothing changes; the invariant is kept |
| BRDSection.BRDGenerationSection.Begin | src/components/organisms/BRDGenerationSection.tsx:19-23 | the handler up to its await updates the fields exactly as `Click` says and reports whether the guard let the click through |
| BRDStatusMachine.Settle | src/components/organisms/BRDGenerationSection.tsx:25-38 | after the awaited work the panel is never loading and never in progress; it is completed exactly on success (the no-producer delay included); the button stays disabled exactly on success |
| BRDSection.BRDGenerationSection.Settle | src/components/organisms/BRDGenerationSection.tsx:25-38 | the handler after its await, for an accepted request, updates the fields exactly as `Settle` says and keeps the invariant |
| BRDSection.BRDGenerationSection.HandleGenerateBRD | src/components/organisms/BRDGenerationSection.tsx:19-40 | the whole handler: a rejected click changes nothing; an accepted one ends in the settled state of the outcome, and a rejected producer ends it normally with the state reverted to pending |
| BRDSection.BRDGenerationSection.Disabled | src/components/organisms/BRDGenerationSection.tsx:57 | the button is disabled exactly when the handler's guard would ignore a click |
| BRDSection.BRDGenerationSection.Label | src/components/organisms/BRDGenerationSection.tsx:58 | the label is "BRD Generated" exactly when the status is completed, and "Generate BRD" exactly when it is not |
| BRDStatusMachine.Label | src/components/organisms/BRDGenerationSection.tsx:58 | the same two if-and-only-if facts about the label, as a function of a state value |
| BRDStatusMachine.Observed | src/components/organisms/BRDGenerationSection.tsx:16-40 | the statuses shown along a run start with the current status; a run whose events can all happen shows one status per event and ends with the run's final status |
| BRDStatusMachine.ObservedPrefixes | src/components/organisms/BRDGenerationSection.tsx:16-40 | along a run whose events can all happen, the i-th status shown is the status reached by running the first i events |
| BRDStatusMachine.RunKeepsValid | src/components/organisms/BRDGenerationSection.tsx:20-38 | every possible sequence of clicks and settlements keeps "loading implies in progress" |
| BRDStatusMachine.CompletedIsAbsorbing | src/components/organisms/BRDGenerationSection.tsx:20-32 | from completed, every run leaves the state unchanged, never starts the awaited work, and shows completed throughout |
| BRDStatusMachine.DisabledClicksIgnored | src/components/organisms/BRDGenerationSection.tsx:20 | any number of clicks while loading or completed changes nothing and starts nothing |
| BRDStatusMachine.OnlyFirstClickHonoured | src/components/organisms/BRDGenerationSection.tsx:20-23 | of a burst of clicks, only the first can start a request; the awaited work is started once, or never if the button was disabled |
| BRDStatusMachine.InvocationsBalance | src/components/organisms/BRDGenerationSection.tsx:20-38 | along every run, starts of the awaited work equal settlements, counting a request running at the start or at the end |
| BRDStatusMachine.AtMostOneInFlight | src/components/organisms/BRDGenerationSection.tsx:20-38 | from an idle panel, the awaited work is started at most once per settlement cycle, and never settles more often than started |
| BRDStatusMachine.RetryOnlyAfterFailure | src/components/organisms/BRDGenerationSection.tsx:20-35 | after a request settles, a new click is accepted exactly when the request failed |
| BRDStatusMachine.StatusesFollowPath | src/components/organisms/BRDGenerationSection.tsx:23-35 | every status change along a run is pending to in progress, or in progress to completed or pending; completed is never left |
| BRDStatusMachine.ScenarioSuccess | src/components/organisms/BRDGenerationSection.tsx:19-40 | from the default state, a click and a successful settlement show pending, in progress, completed |
| BRDStatusMachine.ScenarioFailure | src/components/organisms/BRDGenerationSection.tsx:19-40 | from the default state, a click and a failed settlement show pending, in progress, pending; the button is enabled again |
| BRDStatusMachine.ScenarioNoProducer | src/components/organisms/BRDGenerationSection.tsx:26-32 | without a producer, the demo delay path ends in completed |

## Left out

- The JSX markup and its style classes (src/components/organisms/BRDGenerationSection.tsx:42-63) are presentation only.
- src/components/atoms/ButtonMarkDone.tsx is a stateless styled button and is not part of this model. The panel's own button, `ButtonGenerateBRD`, is not part of this model either.
- A disabled button fires no click. The model lets the click reach the handler instead. `BRDSection.BRDGenerationSection.Disabled` proves the handler's guard then ignores it, so the effect is the same.
- A producer failure is not re-thrown by the handler. The model states this through its shape rather than a contract: `Settle` is total and `HandleGenerateBRD` returns normally on `Rejected`.
- The 2000 ms length of the demo delay is not modelled, since timing is not modelled. The delay appears only as the `FallbackDelay` settlement, which always succeeds.
- The `console.error` call on failure is logging only. It does not affect state.
- React's state batching and re-rendering are not modelled. The model assumes a re-render between any two events. In the source, the guard reads the values captured at render time, so two clicks handled within one render could both pass the guard. The model does not capture that interleaving.
- Real asynchronous scheduling is not modelled. A settlement can happen only while a request is running, so each accepted click is followed by exactly one settlement, and nothing else settles.
- The imported `ButtonGenerateBRD` and `BRDStatusIndicator` components are not part of this model. The `BRDStatus` type is modelled only by the three values this file uses.
