# anyrt, modelled and proved in Dafny

A model of the hard parts of the `anyrt` agent runtime -- the effect broker with its
trace, the grant algebra, the drift detector, the publisher, the module resolver, the
blob directory, active-instance election and the event-stream reader -- with proofs of
what they promise. `dafny verify dfyconfig.toml` checks everything.

## How it is laid out

| files | what they hold |
|---|---|
| `Options`, `Json`, `Text` | shared datatypes: options and results, JSON values, string order and prefixes |
| `Trace`, `Mocks`, `MockSpecs`, `Globs`, `Pipeline` | the broker as functions on a state value: records, the replay cursor, mock indices and how a spec builds one, glob matching, the call pipeline, spans and cells |
| `EffectBroker` | the same broker as a class that updates its fields in place; every method is proved to do exactly what `Pipeline` says |
| `Brackets`, `Stretch`, `Accounting`, `Nesting`, `MockScopes`, `SpanRecords`, `TraceView` | what a reader can tell of a trace, what one call may do, and the whole-run theorems on counters, brackets in every mode, mock scopes, what the records of spans and cells say, and the tree view |
| `Reentry`, `Gate`, `Dispatch`, `FanOut`, `CallRecords` | re-entrant calls under grants, what the gate tests and the records say of it, what each effect answers live, and what a call leaves in the trace |
| `SpecShapes`, `ServedSpans` | what a mock spec's members come to in its index, and what a facade served from a recorded run replies |
| `Shadows`, `Replaying`, `Divergence`, `ReplayRuns` | record, then replay: what a replay's mock bookkeeping will be, the simulation step by step, the cursor alone, and the whole-run theorems |
| `Facades`, `ReplayCounts`, `PlainReplay`, `Strays`, `ReplayedTraces`, `ReplayLimits` | when a facade under a mock comes back, the counts that do, guests without in-span mocks, guests that leave the path, the trace a replay writes, and a concrete run for each way to fail |
| `MockFeed` | the same guest run against a mock index, its own trace's above all |
| `Caps`, `Ledger` | the grant algebra and the grant ledger |
| `Drift`, `DriftSeen`, `Coverage`, `Materials` | `$ref` expansion; where references lead and which contract changes it sees; what an endpoint's fingerprint sees, member by member; the coverage manifest |
| `Canonical`, `Printer`, `Fingerprint`, `SourceScan`, `Deploy` | canonical JSON and its readers, the fingerprint's byte stream, the span-definition scan, the publisher with crashes |
| `Election`, `ElectionRuns` | one device's election code; the protocol of many devices |
| `Resolver`, `Loading` | module resolution; the guest's `use()` interleaved with writes |
| `Blobs`, `BlobDir`, `BlobCursor` | the directory under concurrent, crashing writers; its operations; the guest's cursor |
| `Sse` | lines and frames of event streams |

## What the outside world is

Anything the code asks of libraries or the network is a parameter. The broker takes a
`Host`: route classification and capability tables, blob materialisation, its own run id and
the runs the trace store has, the answer of every live execution (a function of how many ran
before, so an arbitrary changing world) and the clock. The replay theorems let the recording
and the replaying world differ in everything but the runtime's own tables (`SameRuntime`:
routing, blob materialisation, and a blob directory that still has what the recording read)
and, for guests whose mock specs name runs, in the trace store (`SpecReloads`: it still has
the runs they name, the recorded run by now whole, and the replay's own id is none of them).
The theorem on unknown effects assumes that no implemented effect answers `unknown_effect`
itself, nor a mock under the host's token refresh (`HonestWorld`, `HonestRefresh`); the one on
denied calls, that no answer, mock or trace forges a `capability_denied` (`NothingForged`,
`HonestMocks`, `HonestTrace`). Election
takes the replies the client gets.
Hashes (SHA-256, input keys) are taken as injective: a fingerprint is modelled by the
bytes it hashes, a key by the name and input it hashes. The guest of the replay theorem
is an arbitrary function from the replies so far to the next operation. Numbers in JSON
are the text they print as. In the election, an accepted claim outranks the earlier ones
(the server's order is not part of this model), so the winner is the last one accepted.

## Where the code does not do what it says

These came out of the proofs; each is a lemma with a concrete input, beside the theorem
that says exactly when the promise holds.

* "A trace replays a run bit-exact" (`README.md:45-51`) needs conditions, on the run and on
  the guest. `ReplaysExactly` proves for every recording, in Record or Mock mode and with
  whatever mocks and grants, that the replies come back (up to what the guest is taken not to
  read) and the cursor ends exhausted if and only if every step is faithful and the replay's
  grants deny no recorded effect. The steps that are not faithful are exactly these:
  a batch with an item that comes as far as a record, since the cursor meets the item first
  (`FanOutIsNotReplayed`; `BatchIsAlone` says when a batch leaves only itself); an http call
  whose token refresh a mock answers or refuses, since that record lacks the host's mark
  (`MockedRefreshIsNotReplayed`); a blob read answered from a mock with something other than
  what the directory holds, since a replay reads the directory (`MockedReadIsNotReplayed`); a
  begin whose mock spec does not build (`BadSpecIsNotReplayed`); and a facade that the index
  of the innermost mocked span serves otherwise than the replay's does. That is two cases. The
  replay's index is built from what is stored by then, so a spec that names the run it is in
  gets the whole of it, not the part there was (`OwnRunSpecIsNotReplayed`; `ReloadsAlike`: no
  other spec builds another index). And on replay effects use up no answers
  (`FacadeIsServedOnReplayOnly`). `FacadeComesBack` says exactly when a facade comes back, by
  the places both sides have reached in the queues as they were built; `FacadeShifts` that,
  without wildcard and repeating answers, the recording is further on by as many places as
  effects took; and `FacadeUnanswered` that all is well while the trace has no effect of the
  facade's name that a mock answered since the owner's begin. It takes the name, not the key:
  answers of one key can spill to another over the wildcard (`AnotherKeySpills`).
  Grants: a recorded effect that the replay's grants deny stays
  at the cursor for good, whatever the guest does (`DenialStallsTheCursor`,
  `DenialIsNotReplayedUnderGrants`); only tests set a broker's grants, so `anyrt replay` does
  not come there.
* What a guest may read that does not come back even then: `durMs` in the reply to `span.end`
  (`ClockWatcherDiverges` is a guest that diverges on its own trace; without mocks nothing
  else differs, `OnlyDurationsDiffer`), and the `mocked` and `mockFilter` counts there
  (`MockedCountIsNotReplayed`, `FilterHitsAreNotReplayed`). `CountsComeBack` proves that the
  mocked answers and the filter's hits come back if and only if no effect inside the span was
  answered from a mock and none was counted by the span's own filter.
* A divergent guest gets DivergenceError at its first foreign request, be it an effect, a
  begin, an end or a cell (`DivergenceIsCaught`), unless it asks for the very token refresh the
  host emitted there: the cursor serves it (`StrayIsUnmet`, `ForeignRefreshIsServed`).
* A mock run gives a guest the recorded replies exactly when, for every call, the recording
  answered what the queue of its name and input has in its place, and for plumbing what the
  world answers now (`MockRunExactly`); only plumbing runs live (`MockRunsOnlyPlumbing`). A
  trace does feed the guest that wrote it, plumbing apart (`TraceFeedsMockRun`), but the record
  of a blob read keeps no bytes, so a mock run cannot read them (`RecordedReadLosesBytes`).
* A schema property that happens to be called `title`, `description`, `example` or
  `examples` is dropped as prose (`runtime/src/drift.rs:56-57`), so changing it is not drift
  (`PropertyNamedTitleIsInvisible`); what is seen is exact in `PlainDriftIsExact`,
  `DefinitionsDecide` and `DriftReachesTheSchema`. A `$ref` that is an object survives expansion
  (`ObjectRefSurvives`).
* NULs in a source text let two programs share a fingerprint stream (`NulsForgeTags`); a
  program with NULs is never seen as unchanged, because the write guard replaces them
  (`DeploysConverge`); a first frozen deploy that wrote something but not everything -- cut
  after creating the object, or after the source and before the manifest -- can never be
  completed by frozen deploys (`FrozenCrashIsStuck`, with the exact condition).
* A module imported again while its own top level runs is executed twice and replaced in
  the cache (`ReentryBuildsTwice`).
* Two puts that share a temp file -- one process, the same bytes -- can leave any proper
  prefix of them under the final name (`SharedTempCorrupts`); puts that share none never leave a
  wrong file (`FilesAreTheirHash`). Copying a file in hashes it in one pass and copies it in
  another, so the stored file is its name's exactly when the source did not change in between
  (`CopiedFileIsItsHash`).

## Model

| member | source | states |
|---|---|---|
| `Globs.GlobMatch` | runtime/src/replay.rs:402-426 | the backtracking loop with one remembered star decides the declarative meaning of `*` patterns, for all patterns and texts |
| `Mocks.MockableMeans` | runtime/src/replay.rs:306-330 | a call is mockable exactly when it is no plumbing, no `except` glob matches its name or a facade around it, and `only` is empty or has one that does |
| `Mocks.QueuesAreFifo` | runtime/src/replay.rs:458-470 | answers for one effect and key come out in the order they went in, and the rest stays queued |
| `Mocks.RepeatingSlotStays` | runtime/src/replay.rs:623-662 | a repeating slot answers every consult from then on and no queue moves |
| `Mocks.TakeTouchesOneQueue` | runtime/src/replay.rs:623-662 | a consult misses exactly when both queues are empty and touches at most one, the exact key's first |
| `Mocks.TakesAreCounted` | runtime/src/replay.rs:651-653 | an inline record's counter moves exactly when it answers |
| `Mocks.UnservedMeansZeroHits` | runtime/src/replay.rs:599-610 | the records reported unserved are exactly those never served |
| `Mocks.PlumbingIsDecided` | runtime/src/replay.rs:388-398 | which names no mock ever serves: two prefixes and five effects |
| `Mocks.DecisionsAreCounted` | runtime/src/replay.rs:585-594 | a matching `except` counts as that, a matching `only` where none does, and nothing else is counted |
| `Mocks.HitsTell` | runtime/src/replay.rs:599-620 | there is a report unless the index has no filter and every inline record answered, and it has the count of each filter there is |
| `MockSpecs.BuildIndex` | runtime/src/broker.rs:671-685 | a spec with a key or a run id that is none, or a run that does not load, is an error; else the index has the inline records' answers first and then each named run's in its order, this run's own being the records so far |
| `MockSpecs.FoldInto` | runtime/src/replay.rs:546-584 | the loop over a run's records queues every effect's outcome under its own key and every ended span's under its begin's |
| `MockSpecs.BuildDependsOnNamedRuns` | runtime/src/replay.rs:506-544 | an index is a function of the spec and of the runs it names |
| `SpecShapes.ParsesExactly` | runtime/src/replay.rs:239-300 | which objects are specs: the five members, run ids, string lists, records with one of output and error, a policy |
| `SpecShapes.FiltersAreGiven` | runtime/src/replay.rs:239-300 | an index has just the strings given under `only` and `except`, and lets misses run only if told `live` |
| `SpecShapes.InlineAnswersFirst` | runtime/src/replay.rs:521-540 | each queue begins with the inline records that name its effect, and its input if they have one, in order, each with its output or its error's type and message |
| `SpecShapes.RunsAnswerInOrder` | runtime/src/replay.rs:541-545 | after the inline records the named runs answer, each whole, in the order they are named |
| `SpecShapes.LoadsExactly` | runtime/src/broker.rs:671-685 | a spec builds if and only if it is one and every run it names is this one or is in the store |
| `EffectBroker.Broker.BumpMocked` | runtime/src/broker.rs:803-816 | the in-place loop charges every open span, and the run, exactly one entry |
| `EffectBroker.Broker.ReplayEffect` | runtime/src/broker.rs:915-966 | the drain loop and the strict match, as the recursive specification over the cursor |
| `EffectBroker.Broker.AskMock` | runtime/src/broker.rs:968-1013 | which index is consulted and what a consult consumes, counts and answers; no index but the innermost moves, the run's only in Mock mode, and plumbing moves none |
| `EffectBroker.Broker.CallEffect` | runtime/src/broker.rs:867-1087 | the whole pipeline on the fields: materialise, gate, replay or mock or live, count, record; what the gate asks for is `Gate.OnlyAllowedRun` and `Gate.RefusedCallIsRecorded`, what is replied and recorded `Dispatch.AnsweredByTheWorld` and `Divergence.ServedIsWritten` |
| `EffectBroker.Broker.ExecuteEffect` | runtime/src/broker.rs:1121-1204 | the dispatch, with batch and hosted refresh re-entering the pipeline; the effect itself is the first to run, depth, grants and span counter are kept, and trace and executions only grow |
| `EffectBroker.Broker.EmitHosted` | runtime/src/broker.rs:1209-1214 | a hosted call is a call at one more depth, and the depth is restored, on success and on error |
| `EffectBroker.Broker.SysBatch` | runtime/src/broker.rs:2083-2119 | the fan-out loop: first item may refuse the whole, the others fill slots in order; nested batches end because payloads shrink |
| `EffectBroker.Broker.TrySpanBegin` | runtime/src/broker.rs:566-656 | begin consumes its checkpoint, installs a mock or is served by one, records and pushes; what a served facade replies is `ServedSpans.FacadeRepliesAsEnded` |
| `EffectBroker.Broker.TrySpanEnd` | runtime/src/broker.rs:697-755 | end pops, consumes its checkpoint, drops an owned mock, counts a served span, records |
| `EffectBroker.Broker.TryCellDone` | runtime/src/broker.rs:760-782 | the force-close loop, its early exit on divergence, then the cell record |
| `SpanRecords.BeginsTell` | runtime/src/broker.rs:637-652 | a begin that opens a span numbers it one on and records its name, input, cell and the span around it |
| `SpanRecords.EndsTell` | runtime/src/broker.rs:697-751 | over every Record or Mock mode run, the record of a span's end and the reply to it have the number, name and kind its begin gave it, the verdict, output and error of the end, a provenance if and only if the begin was served, and the filter report of the span's own index if it brought a mock |
| `SpanRecords.CellsTell` | runtime/src/broker.rs:760-784 | a cell that ends with spans open closes each, innermost first, as a failure of type `unclosed_span`, then writes its own record |
| `ServedSpans.ServedReply` | runtime/src/broker.rs:618-630 | a facade served from an outcome without a verdict succeeded if and only if there is no error, and from one with a verdict as that says |
| `ServedSpans.FacadesAreCounted` | runtime/src/broker.rs:612-618 | a facade counts on the filters of the innermost index as an effect of its name would |
| `ServedSpans.FacadeRepliesAsEnded` | runtime/src/broker.rs:612-637 | let a run's step b begin a span and step e end it; an index of that run, drawn as far as that span's place, serves a later begin of its name and input with the verdict and output that end gave, and the type and message of its error |
| `ServedSpans.FacadeRepliesAsAnswered` | runtime/src/broker.rs:612-637 | and with the outcome of a recorded effect of that name: its output and error, ok if and only if it has none |
| `Stretch.CallIsStretch` | runtime/src/broker.rs:799-1087 | through every nesting of batch and hosted calls, one call only appends effect records of the current span and charges every open span exactly their weight |
| `Accounting.StepKeepsCoherent` | runtime/src/broker.rs:566-782 | every operation keeps brackets, fresh ids, parents, per-span counters, the run's mutation count and the mock stack right; a finished cell leaves both stacks empty |
| `Accounting.RunsAreCoherent` | runtime/src/broker.rs:566-1087 | the same over every Record or Mock mode run from a fresh broker |
| `Accounting.CountersAreConserved` | runtime/src/broker.rs:697-755 | in every run, each end record has its begin record, the same name, and counters equal to what was written in between |
| `Brackets.EndCountsBetween` | runtime/src/broker.rs:721-744 | the same read off any sound trace alone |
| `Brackets.EndHasBegin` | runtime/src/broker.rs:697-755 | in any properly nested trace, whatever its counters, each end record has its begin record |
| `Brackets.IdsGrow` | runtime/src/broker.rs:572-573 | span ids grow along a properly nested trace, so none repeats |
| `Nesting.StepKeepsBracketed` | runtime/src/broker.rs:566-782 | in every mode, an operation that loses no end to a divergence keeps the trace properly nested and the frames its open spans |
| `Nesting.FinishedRunsAreClosed` | runtime/src/broker.rs:760-782 | in every mode, the trace at a finished cell is properly closed if and only if no span end diverged in the run |
| `Accounting.MockStackFollowsOwners` | runtime/src/broker.rs:592-607 | in every run there are as many span-scoped indices as open spans that own one, and the frames are the spans the trace has open |
| `MockScopes.StepKeepsPolicies` | runtime/src/broker.rs:968-1013 | a step consults, pushes or pops the innermost index only, and never changes a policy |
| `MockScopes.IndexOfTheInnermostOwner` | runtime/src/broker.rs:592-607 | in every run, while a span begun with a spec is on the stack, the index at its place -- as many owners are below it -- has the policy its spec built; and while no owner is above it, that is the index consulted |
| `MockScopes.NoOwnerNoIndex` | runtime/src/broker.rs:977-981 | with no owner open only the run's own index is consulted, and that in Mock mode only |
| `TraceView.DrillIsExact` | runtime/src/broker.rs:2313-2364 | drilling a properly closed trace from the root, whatever its counters, lists every effect and every span end exactly once and nothing else |
| `TraceView.EveryFinishedRunDrillsExactly` | runtime/src/broker.rs:2313-2364 | so does drilling the trace any run leaves at a finished cell, in every mode, unless a span end diverged |
| `TraceView.EveryLiveRunDrillsExactly` | runtime/src/broker.rs:2313-2364 | and so every Record and Mock mode run's |
| `ReplayedTraces.ReplayDrillsExactly` | runtime/src/broker.rs:2313-2364 | and every replay's of a recording it gives back |
| `ReplayedTraces.ReplayedRowTellsMutations` | runtime/src/broker.rs:2340-2351 | so does a row of the trace a replay writes of a recording it gives back |
| `TraceView.OnlyAncestorLeads` | runtime/src/broker.rs:2319-2325 | of all entries of a scope exactly one leads down to a given record |
| `TraceView.CellsRows` | runtime/src/broker.rs:2313-2364 | the view of one cell has the rows of the whole view whose records were written in that cell |
| `TraceView.RowTellsMutations` | runtime/src/broker.rs:2340-2351 | in every Record and Mock mode run a collapsed span row says mutate exactly when a mutating effect was recorded inside at any depth, or the span was served whole as a mutator |
| `Trace.CountsRecords` | runtime/src/broker.rs:796-816 | a count is of records: effects and spans served whole, mutating effects, and entries a mock answered |
| `Reentry.EveryRunIsGranted` | runtime/src/broker.rs:888-913 | in every mode and at every nesting, everything executed passed the gate or was host-emitted; the hosted depth is restored |
| `Gate.OnlyAllowedRun` | runtime/src/broker.rs:1106-1118 | over whole runs in every mode: an http call that ran was allowed by the capability of its route, any other effect by its own name, unless the host emitted it |
| `Gate.RefusedCallIsRecorded` | runtime/src/broker.rs:888-913 | a guest's call that its grants do not allow so is refused, runs nothing, and leaves one record of the refusal that names the capability |
| `Gate.DeniedExactly` | runtime/src/broker.rs:888-913 | in every mode, unless one is forged, a guest's call leaves a `capability_denied` record of its own if and only if its grants do not allow it |
| `Gate.RecordsTellTheClass` | runtime/src/broker.rs:1085-1101 | over whole runs in every mode, each effect record has the class of its route if it is an http call, mutate for five named effects, and read for every other |
| `Dispatch.AnsweredByTheWorld` | runtime/src/broker.rs:1121-1204 | each of nineteen named effects is run once, answered by the world, and recorded once with its outcome in the current cell and span |
| `Dispatch.OthersAreUnknown` | runtime/src/broker.rs:1121-1204 | a name that is none of the host's effects fails as `unknown_effect` |
| `Dispatch.HttpAnswers` | runtime/src/broker.rs:1121-1204 | an http call that needs no refresh is answered by the world; one that does leaves the refresh's record before its own and fails as that did if it did |
| `Dispatch.ReadsTheDirectory` | runtime/src/broker.rs:1053-1067 | a blob read gives what the directory has, and its record no more than the member `bytes` of that |
| `Dispatch.MockAnswers` | runtime/src/broker.rs:979-1000 | a call for which the mock has an answer gets it, recorded as a mock's with where it came from, and runs nothing |
| `Dispatch.LiveMissIsMarked` | runtime/src/broker.rs:1001-1038 | a miss of a mock that lets misses run is answered by the world and marked as a miss |
| `Dispatch.FailedMissIsMarked` | runtime/src/broker.rs:1001-1020 | one of a mock that does not fails as `mock_unmatched`, is marked, and runs nothing |
| `Dispatch.ExceptedRunsLive` | runtime/src/replay.rs:306-330 | in a mock run an effect runs where an `except` glob matches its name or that of any span around it, however far out |
| `Dispatch.RefreshNamesItsCredential` | runtime/src/broker.rs:1037-1049 | a token refresh leaves a record of its own with the host's mark and the credential it is for |
| `Dispatch.BatchReplies` | runtime/src/broker.rs:2083-2119 | slot k under `results` is what item k gives after the ones before it: its value, or its error's type and message |
| `Reentry.GuestNeverRefreshes` | runtime/src/broker.rs:1270-1281 | a guest that asks for the token refresh itself is refused |
| `Reentry.UnknownRanNothing` | runtime/src/broker.rs:2094-2110 | in every mode and under whatever mocks, unless one forges that refusal for the host's token refresh: a call or batch of any depth that comes back unknown reached no effect |
| `CallRecords.ForgedRefusalRan` | runtime/src/broker.rs:985-1000 | with such a forged refusal, the http call comes back unknown although it ran |
| `Reentry.BatchAnswersEachPayload` | runtime/src/broker.rs:2098-2118 | a successful batch has one slot per payload, in order, each the outcome of its call after the ones before |
| `FanOut.CallAppends` | runtime/src/broker.rs:867-1087 | in Record and Mock mode, at every nesting, a call's records are its own, last and not host-emitted, and those of strictly smaller batches or of other effects |
| `FanOut.CallOwnsLast` | runtime/src/broker.rs:867-1087 | whatever becomes of it -- denied, mocked, refused or live -- a guest's call whose payload materialises leaves its own record last |
| `FanOut.BatchIsAlone` | runtime/src/broker.rs:2083-2119 | a batch leaves no record but its own if and only if it is denied, answered or refused by a mock, or has no item that comes as far as a record |
| `FanOut.PlainBatchIsAlone` | runtime/src/broker.rs:2083-2119 | in Record mode outside mocked spans: denied, or no such item |
| `CallRecords.RecordAdmitted` | runtime/src/broker.rs:968-1087 | a call a replay can serve leaves its own record with the outcome it returned, after at most one host-emitted one, and moves no index but the innermost |
| `CallRecords.RefreshFirst` | runtime/src/broker.rs:1001-1013 | a refresh answered or refused by a mock leaves a record without the host's mark before the http call's own |
| `Shadows.ReloadsAlike` | runtime/src/broker.rs:671-685 | a spec builds in a later run exactly when it builds now, with the same filters, and into the same index unless it names the run it is in |
| `Shadows.CountsTellTouched` | runtime/src/broker.rs:713-731 | given how far the replay's indices and frames lag behind, the mocked count and the filter's hits of an end agree exactly for an untouched span, and the whole filter report does then if the span's index is the recorded one again |
| `Replaying.StepSimulated` | runtime/src/broker.rs:915-966 | one faithful operation, recorded in Record or Mock mode and replayed under grants that deny no recorded effect, keeps the two brokers in step and answers alike |
| `ReplayRuns.RecordThenReplay` | README.md:45-51 | every recording whose steps are all faithful replays for every guest that does not read what the view leaves out: same replies, cursor exhausted, nothing live but blob reads, the same trace written again |
| `ReplayRuns.ReplaysExactly` | README.md:45-51 | the replies come back and the cursor ends exhausted if and only if every step of the recording is faithful and the replay's grants deny no recorded effect |
| `ReplayRuns.DenialStallsTheCursor` | runtime/src/broker.rs:888-913 | with grants that deny a recorded effect, no guest whatever gets the cursor to the end |
| `ReplayRuns.OnlyDurationsDiffer` | runtime/src/broker.rs:720-726 | in the exact view replies are the same if and only if the span durations are |
| `Facades.CallTells` | runtime/src/broker.rs:967-1000 | whatever a call re-enters, a queue of the innermost index is as it was unless a record the call left says a mock answered an effect of that name and key, or of that name for the wildcard |
| `Facades.FacadeComesBack` | runtime/src/broker.rs:608-637 | a facade under a mock comes back if and only if no mock may serve it or the entries both sides have reached in the queues, as built by the recording and by the replay, are served alike |
| `Facades.FacadeUnanswered` | runtime/src/broker.rs:608-637 | it does if since the innermost owner's begin no effect record of its name says that a mock answered it, unless that owner's spec names the recorded run |
| `Facades.FacadeShifts` | runtime/src/replay.rs:623-662 | after only faithful steps, with no wildcard or repeating answer in play, it does if and only if the entry the recording has come to and the one, in the queue the replay builds, as many places before it as effects took, are served alike |
| `Facades.AnotherKeySpills` | runtime/src/replay.rs:623-662 | an effect that took no answer for a key still changes what a facade with that key gets, through the wildcard |
| `ReplayCounts.CountsComeBack` | runtime/src/broker.rs:713-731 | the mocked count and the filter's hits in the reply to an end come back if and only if the span was not touched; then the records reported unserved do too, if the span's index is the recorded one again |
| `ReplayCounts.TouchedMeans` | runtime/src/broker.rs:803-816 | a span is touched exactly when, since its begin, a call inside was answered from a mock or counted by the span's own filter |
| `PlainReplay.ReplaysExactlyWithoutFanOut` | README.md:45-51 | for every guest without in-span mocks that does not read durations, the replies of a Record mode run come back if and only if every batch is denied or has no item that comes as far as a record -- with grants on the replay, and the cursor is exhausted, if and only if these deny no recorded effect either |
| `PlainReplay.MockedRunsReplay` | runtime/src/main.rs:433-475 | for a run recorded in Mock mode: if and only if no batch fans out, no refresh is met by the mock, and every blob read answered from the mock says what the directory says |
| `PlainReplay.MockedRunsDifferInCounts` | runtime/src/broker.rs:720-731 | and then nothing of an end's reply differs but the duration and the mocked count |
| `Divergence.UnmetDiverges` | runtime/src/replay.rs:132-192 | an operation whose next checkpoint the trace does not hold is DivergenceError and runs nothing |
| `Divergence.MetIsServed` | runtime/src/replay.rs:120-144 | an effect that is not denied and whose record is next is served that record and consumes it |
| `Divergence.ServedIsWritten` | runtime/src/broker.rs:915-966 | a replayed call writes the host-emitted records ahead of its own and its own, in order, as they stand in the trace, marked as mocked |
| `Divergence.StepKeepsBarred` | runtime/src/broker.rs:888-913 | no operation gets the cursor past a record of an effect the grants deny |
| `Strays.StrayIsUnmet` | runtime/src/replay.rs:120-192 | after the recorded choices up to step k, a request that comes as far as the trace is one it does not hold next if and only if it is not that of the next recorded operation to leave a record, nor the refresh the host emitted in that; effects, begins, ends and cells in any combination |
| `Strays.DivergenceIsCaught` | runtime/src/broker.rs:915-966 | a guest that makes such a request at step k was served everything before, is refused at k, and ran nothing live but blob reads |
| `ReplayLimits.ClockWatcherDiverges` | runtime/src/broker.rs:720-726 | a guest that reads the duration in the `span.end` reply diverges on its own trace |
| `ReplayLimits.FilterHitsAreNotReplayed` | runtime/src/broker.rs:713-731 | a run in which the filter counts in the `span.end` reply differ on replay |
| `ReplayLimits.MockedCountIsNotReplayed` | runtime/src/broker.rs:985-1000 | a run in which the mocked count there does, with no filter |
| `ReplayLimits.FanOutIsNotReplayed` | runtime/src/broker.rs:2083-2119 | a batch of one effect is refused on replay |
| `ReplayLimits.BadSpecIsNotReplayed` | runtime/src/broker.rs:574-607 | a begin refused for its mock spec is refused as a divergence on replay |
| `ReplayLimits.MockedReadIsNotReplayed` | runtime/src/broker.rs:958-965 | a mocked blob read is answered from the directory on replay |
| `ReplayLimits.MockedRefreshIsNotReplayed` | runtime/src/broker.rs:985-1000 | an http call whose refresh a mock answered is refused on replay |
| `ReplayLimits.FacadeIsServedOnReplayOnly` | runtime/src/broker.rs:608-637 | a facade that ran its body when recorded is served whole on replay |
| `ReplayLimits.OwnRunSpecIsNotReplayed` | runtime/src/broker.rs:673-677 | a tool that ran when recorded is served its own later answer on replay, where the span's spec names the run it is in |
| `ReplayLimits.ForeignRefreshIsServed` | runtime/src/replay.rs:120-144 | a guest that asks for the host's refresh is served its record |
| `ReplayLimits.DenialIsNotReplayedUnderGrants` | runtime/src/broker.rs:888-913 | a recorded denial, replayed under the same grants, is denied again and the end of the cell refused; without grants both come back |
| `MockFeed.FoldQueuesAnswers` | runtime/src/replay.rs:546-584 | the index of a run's id queues, for an effect no span is named like, exactly its recorded outcomes in order |
| `MockFeed.MockRunExactly` | runtime/src/broker.rs:968-1013 | against an index that admits everything, fails misses and answers each input's calls once, a guest gets the replies of a recording, but for what spans counted, if and only if call after call of a name and input was answered with the entry in its place, and plumbing with what this world answers |
| `MockFeed.MockRunsOnlyPlumbing` | runtime/src/broker.rs:968-1013 | whatever the guest does, in such a run nothing but plumbing runs live |
| `MockFeed.PlumbingFed` | runtime/src/broker.rs:1121-1204 | plumbing that was not denied comes back if and only if it is the boot, no effect at all, or answered alike by both worlds |
| `MockFeed.TraceFeedsMockRun` | README.md:45-51 | the same guest, run against its own trace in a world that answers plumbing as recorded, gets the recorded reply to every operation but for what spans counted, and nothing but plumbing runs live |
| `MockFeed.RecordedReadLosesBytes` | runtime/src/broker.rs:1053-1059 | the record of a blob read has no bytes to answer with |
| `Caps.CoversIsInclusion` | runtime/src/caps.rs:90-107 | `covers` holds exactly when every capability string the other set allows is allowed |
| `Caps.AttenuateIsIntersection` | runtime/src/caps.rs:114-129 | `attenuate` allows a capability exactly when both sides do |
| `Caps.ChainIsIntersection` | runtime/src/caps.rs:109-129 | down an import chain of any length exactly the common capabilities remain |
| `Caps.AttenuateIsGreatest` | runtime/src/caps.rs:109-129 | attenuation is the greatest set both sides cover |
| `Caps.GrantsAllow` | runtime/src/caps.rs:60-86 | a set allows the capabilities it lists and what begins with the stem and dot of a wildcard it lists |
| `Ledger.GrantLedger.Grant` | runtime/src/caps.rs:161-176 | the new file and what is reported: on success the entry and no other changed, on failure nothing |
| `Ledger.GrantLedger.RevokeGrant` | runtime/src/caps.rs:178-184 | afterwards the hash is gone, or it failed and nothing changed |
| `Ledger.GrantLedger.DecideGrant` | runtime/src/caps.rs:193-241 | the tier policy on the file; a refused or failed decision leaves it as it was |
| `Ledger.TrustedTiers` | runtime/src/caps.rs:193-213 | self and attested programs get what they ask, unasked and unrecorded; an unknown tier gets nothing |
| `Ledger.UnverifiedIsAsked` | runtime/src/caps.rs:216-241 | an unverified program whose entry does not allow all it asks is put to the user; a refusal is reported, an approval written down |
| `Ledger.UnverifiedIsKnown` | runtime/src/caps.rs:216-241 | one whose entry does is not; a smaller grant replaces the one on file |
| `Ledger.GrantsStayApproved` | runtime/src/caps.rs:187-241 | over every history, an unverified program is only handed authority inside what was approved for its hash since the last revoke |
| `Ledger.AuthorityOnlyShrinks` | runtime/src/caps.rs:216-240 | between two approvals the authority on file only shrinks |
| `Drift.FollowRef` | runtime/src/drift.rs:28-35 | the loop walks the pointer's segments as the recursive walk does; where that leads is `DriftSeen.DerefLeads` |
| `DriftSeen.DerefLeads` | runtime/src/drift.rs:28-35 | a reference leads to a definition if and only if it is `#/` and the names, with slashes between, under which that stands in the spec, one inside the other |
| `Drift.Expand` | runtime/src/drift.rs:37-65 | with one mutable stack, pushed, popped and left as found, on every spec, cyclic ones included; it ends because pending references or the schema shrink; what comes of a reference is `DriftSeen.ReferenceExpands` |
| `DriftSeen.ReferenceExpands` | runtime/src/drift.rs:37-52 | a reference to what stands under such names expands to the expansion of that |
| `DriftSeen.DanglingStays` | runtime/src/drift.rs:45-47 | one that leads nowhere stays as its name |
| `Materials.CyclesKeepTheName` | runtime/src/drift.rs:42-44 | inside its own definition a reference stays as its name |
| `Materials.MembersExpand` | runtime/src/drift.rs:53-60 | of an object the four prose members go and every other is there with its own expansion |
| `Drift.BudgetSpent` | runtime/src/drift.rs:42-51 | expanding a reference uses up one of the finitely many pending ones |
| `Drift.NoProseLeft` | runtime/src/drift.rs:54-58 | no prose key at any depth of an expanded schema |
| `Drift.NoRefsLeft` | runtime/src/drift.rs:37-65 | where every `$ref` is a string, no reference object is left either |
| `Drift.ObjectRefSurvives` | runtime/src/drift.rs:41 | the condition is needed |
| `Drift.ResolveIgnoresProse` | runtime/src/drift.rs:37-65 | expansion gives the same with all prose deleted first, through cyclic references too, when no reference leads through a prose name |
| `Drift.ProseChurnIsNotDrift` | runtime/src/drift.rs:6-9 | specs that differ in prose alone expand alike |
| `Drift.PropertyNamedTitleIsInvisible` | runtime/src/drift.rs:56-57 | the filter also hides real properties with those names |
| `DriftSeen.DriftReachesTheSchema` | runtime/src/drift.rs:11-13 | one schema in two specs expands differently if and only if some reference it meets stands for different shapes, cyclic specs included |
| `DriftSeen.PlainDriftIsExact` | runtime/src/drift.rs:6-13 | where no reference is met, two schemas expand alike if and only if they are equal but for prose |
| `DriftSeen.DefinitionsDecide` | runtime/src/drift.rs:11-13 | a schema whose references lead, name by name in both specs, to plain definitions has drifted if and only if one of these differs in more than prose |
| `DriftSeen.DriftThroughChains` | runtime/src/drift.rs:11-13 | a change at the end of any chain of references, each leading name by name to the definition the next is in, is drift of the schema the chain starts from |
| `Coverage.ParamsAgreeWhenPlacesDo` | runtime/src/drift.rs:67-84 | two parameter lists normalise alike exactly when at each (in, name) they resolve to the same parameters in the same order |
| `Coverage.PermutingParamsIsNotDrift` | runtime/src/drift.rs:77-82 | reordering parameters at distinct places changes nothing, and normalises if the other order does |
| `Materials.RequiredIsBool` | runtime/src/drift.rs:71-75 | a parameter counts as it expands, with `required` true exactly where it was the boolean true |
| `Materials.ParamsAreInOrder` | runtime/src/drift.rs:77-82 | the parameters hashed are all the normalised ones, ordered by code points of `in` and then of `name` |
| `Materials.MaterialHolds` | runtime/src/drift.rs:86-117 | the material: those parameters, the schema of the first media type of the body or null, and each response under its status, expanded |
| `Coverage.ProseNeverReachesTheFingerprint` | runtime/src/drift.rs:107-117 | an endpoint's material is that of the endpoint and spec with prose deleted, panics included |
| `Coverage.EqualUpToProse` | runtime/src/drift.rs:6-9 | two endpoints that differ in prose alone, in specs that do, have the same material |
| `DriftSeen.EndpointDriftIsSeen` | runtime/src/drift.rs:107-117 | an endpoint's material changes with the spec if and only if its parameters, its body's shape or one of its responses' does |
| `Coverage.Diff` | runtime/src/drift.rs:152-170 | the two passes list exactly the uncovered, the changed and the removed endpoints, in order |
| `Materials.DiffTells` | runtime/src/drift.rs:152-170 | new has no entry, changed has one whose fingerprint is another or missing, removed is an entry no endpoint goes by |
| `Coverage.Refresh` | runtime/src/drift.rs:210-223 | the in-place pass, as the entry-by-entry specification |
| `Coverage.RefreshLeavesOnlyTriage` | runtime/src/drift.rs:207-242 | a refresh clears exactly the changed list and touches nothing but fingerprints |
| `Canonical.StringSurvives` | runtime/src/deploy.rs:84-114 | a reader of section 7 of RFC 8259 recovers every string from its escapes, surrogate pairs included |
| `Canonical.ValueSurvives` | runtime/src/deploy.rs:50-82 | a parser recovers every value from its canonical text, whatever follows |
| `Canonical.PrintIsInjective` | runtime/src/deploy.rs:50-82 | one canonical text, one value |
| `Canonical.PrintIsAscii` | runtime/src/deploy.rs:50-52 | the canonical text is printable ASCII |
| `Canonical.BasicEscapes` | runtime/src/deploy.rs:84-114 | what is neither printable nor has a short escape is `\u` and its four digits in lower case |
| `Canonical.LayoutIsTight` | runtime/src/deploy.rs:53-82 | commas between members and colons after keys, no spaces |
| `Printer.Buffer.PushString` | runtime/src/deploy.rs:84-114 | the appending loop adds exactly the string's text |
| `Printer.Buffer.PushValue` | runtime/src/deploy.rs:53-82 | the recursive appending printer adds exactly the value's text |
| `Fingerprint.Hashed` | runtime/src/deploy.rs:349-373 | what is fed to the hasher, piece by piece |
| `Fingerprint.StreamDeterminesContent` | runtime/src/deploy.rs:346-373 | equal streams mean equal code, summary, flag, category and manifest up to falsy, when one side is NUL-free and the other's category is |
| `Fingerprint.StreamReads` | runtime/src/deploy.rs:346-373 | the stream of a program with everything, tag by tag, and of one with nothing |
| `Fingerprint.ZeroNumbers` | runtime/src/deploy.rs:39-48 | a number counts as false where its digits before an exponent are all zeros |
| `Fingerprint.NulsForgeTags` | runtime/src/deploy.rs:357-361 | with NULs on both sides two programs can share a stream |
| `SourceScan.HasPublicSpanDef` | runtime/src/deploy.rs:318-339 | one pass with one flag finds a public definition under a span decorator exactly when there is one |
| `SourceScan.FindsTheDecorated` | runtime/src/deploy.rs:318-339 | however indented, and with decorators, comments and blank lines between |
| `SourceScan.PassesTheRest` | runtime/src/deploy.rs:318-339 | not a private one, one parted from its decorator by a statement, or one without |
| `Deploy.Store.DeployOne` | runtime/src/deploy.rs:670-745 | the gate, then the writes one by one, as the specification; which entry they touch is `Deploy.DeployLandsAtItsKey` and `Deploy.OtherKeysUntouched` |
| `Deploy.GateIsExact` | runtime/src/deploy.rs:672-682 | "unchanged" exactly when the space holds the program as it is |
| `Deploy.HistoriesKeepSound` | runtime/src/anyapi.rs:37-55 | whatever was cut wherever, a space holds no NUL and no falsy manifest |
| `Deploy.DeploysConverge` | runtime/src/deploy.rs:668-745 | after any history of deploys cut anywhere, a whole deploy leaves the program in the space, and a second one reports unchanged exactly when the program has no NUL |
| `Deploy.DeployLandsAtItsKey` | runtime/src/deploy.rs:624-636 | whatever was cut before, a whole deploy of a NUL-free name and version leaves the program under just these |
| `Deploy.OtherKeysUntouched` | runtime/src/deploy.rs:624-636 | and, cut anywhere, the entry of every other name and version as it was |
| `Deploy.VersionsStandSideBySide` | runtime/src/deploy.rs:691-702 | a second version is created, frozen or not, and both programs are in the space |
| `Deploy.CredentialsAreWritten` | runtime/src/deploy.rs:691-722 | the first write brings the credentials |
| `Deploy.CleanReplaces` | runtime/src/anyapi.rs:37-55 | the write guard replaces NULs, character by character, and nothing else |
| `Deploy.OthersUntouched` | runtime/src/deploy.rs:624-636 | other programs stay as they are, wherever a deploy is cut |
| `Deploy.FrozenHistoriesNeverAlter` | runtime/src/deploy.rs:679-681 | no history of frozen deploys alters a program the space has |
| `Deploy.FrozenCrashIsStuck` | runtime/src/deploy.rs:679-681 | after a first frozen deploy that wrote something and any frozen history, the retry is refused as frozen if and only if the deploy was cut before its last write or the program has a NUL, and reports unchanged otherwise |
| `Election.DecideIsChoose` | runtime/src/election.rs:122-151 | the decision depends only on the winner and whether it is live |
| `Election.DecisionOnReplies` | runtime/src/election.rs:111-151 | on the replies themselves, any rows and other members in them: active for the holder named under `active`, on standby for another that has a row, by `id` or `peerId`, with the app, else a claim |
| `Election.Reconcile` | runtime/src/election.rs:167-197 | the verdict, from the reply it is settled by; none on a failed read, claim or verify |
| `Election.ReconcilesOnReplies` | runtime/src/election.rs:170-197 | on the replies themselves: the holder is active and a standby stands by at the first; a refused claim settles nothing, or stands a pruned device down; a claim goes by the second reply, active unless that shows another live holder |
| `Election.BootWith` | runtime/src/election.rs:199-260 | the first attempt that ends decides; pruned is permanent standby, giving up is disabled and active |
| `Election.RefusedBoots` | runtime/src/election.rs:219-241 | 404 disables and leaves active, `device.pruned` stands by for good, any other refusal is tried again |
| `Election.AcceptedBoots` | runtime/src/election.rs:242-254 | the peer id is the reply's `self`, else that of the row put; the verdict is the first reconcile's for `bao`, active if it fails |
| `ElectionRuns.AtMostOneClaimEach` | runtime/src/election.rs:122-197 | in any interleaving, once the registry is left alone each device posts at most one more claim |
| `ElectionRuns.OneActive` | runtime/src/election.rs:126-197 | once every device with a row has polled since the last claim, exactly the winner is active |
| `ElectionRuns.ElectionConverges` | runtime/src/election.rs:126-197 | and it stays so at every later poll, failed ones included, with no claim posted any more |
| `ElectionRuns.PollIsReconcile` | runtime/src/election.rs:167-197 | one undisturbed poll through the protocol's steps ends in the verdict `Reconcile` computes from the replies that render the registry |
| `ElectionRuns.OneRoundSettles` | runtime/src/election.rs:167-197 | one round of undisturbed polls, in any order, gets there |
| `ElectionRuns.TwoActivesCanCoexist` | runtime/src/election.rs:189-195 | before that, two devices can be active at once |
| `Resolver.ParseIsExact` | runtime/src/resolver.rs:103-113 | a spec parses to exactly what renders as it |
| `Resolver.AnyModuleResolver.TryResolveIn` | runtime/src/resolver.rs:166-216 | one space's lookup with its caches, error by error; what is served is what the space holds, and an error leaves the caches alone |
| `Resolver.AnyModuleResolver.TryResolve` | runtime/src/resolver.rs:219-259 | alias, defining space, current space, private fallback; what is served is remembered with its space, and an error leaves the caches alone |
| `Resolver.ResolveServesCurrent` | runtime/src/resolver.rs:194-216 | what is served is what its program holds now, the cache word is true, and a module of another space is served from that space or not at all |
| `Resolver.ResolveLooksWhere` | runtime/src/resolver.rs:219-259 | which space a spec is served from: the alias's, the requester's own, the current one, and the private one only for what the current one lacks |
| `Resolver.AliasesName` | runtime/src/resolver.rs:219-234 | which space a qualified spec is looked up in: the private one, the configured one, else the one called so; none for an empty one |
| `Loading.UseIsCurrent` | runtime/guest/app.py:1376-1389 | at any point of any run, `use()` gives a module of the source current at the probe |
| `Loading.ExecutedIsReturned` | runtime/guest/app.py:1383-1389 | a module that is executed is the one cached and returned, whatever its top level does |
| `Loading.BuiltOnce` | runtime/guest/app.py:1366-1389 | without cyclic imports each (object, marker) is built at most once between resets and stays the same object |
| `Loading.ReentryBuildsTwice` | runtime/guest/app.py:1380-1388 | with one, it is built twice and replaced |
| `Loading.ImportsStayInTheirSpace` | runtime/src/resolver.rs:235-245 | a chain of unqualified imports of any length, in any run, stays in the space it starts in |
| `Loading.HitMeansServedBefore` | runtime/src/resolver.rs:201-206 | the probe cache says hit exactly for a pair served before |
| `Loading.StaleWithoutANewMarker` | runtime/src/resolver.rs:201 | a write that keeps the marker goes unseen |
| `Blobs.FilesAreTheirHash` | runtime/src/blob.rs:119-140 | under every interleaving and crash of puts, the existence check and the temp file's creation apart, every finished file is the bytes its name is the hash of -- if no two puts under way share hash and pid |
| `Blobs.PutDelivers` | runtime/src/blob.rs:128-138 | a put that gets to its rename leaves its file |
| `Blobs.SweepIsExact` | runtime/src/blob.rs:262-273 | a sweep unlinks exactly what is not kept and disturbs no put under way |
| `Blobs.SharedTempCorrupts` | runtime/src/blob.rs:126-128 | from any state fair puts lead to, one more put with the hash and pid of one under way has a run that leaves any proper prefix under the final name |
| `Blobs.CopiedFileIsItsHash` | runtime/src/blob.rs:141-170 | a copied-in file is its name's exactly when the source still hashes the same at the copy |
| `BlobDir.Directory.Put` | runtime/src/blob.rs:119-140 | idempotent by name |
| `BlobDir.Directory.PutPath` | runtime/src/blob.rs:141-170 | the chunk loop hashes and sizes the whole source; when the directory stays valid |
| `BlobDir.Directory.Read` | runtime/src/blob.rs:214-234 | the clamped range, a malformed or absent hash being a miss |
| `BlobDir.Directory.List` | runtime/src/blob.rs:243-260 | every hash-named file once, sorted, nothing else |
| `BlobDir.Directory.Sweep` | runtime/src/blob.rs:264-273 | exactly the hash-named files not kept go, and are counted |
| `BlobDir.HashesName` | runtime/src/blob.rs:107-118 | sixty-four hexadecimal digits, bare or after `sha256:`, name that file, and nothing else names one |
| `BlobCursor.Blob.Read` | runtime/guest/app.py:276-287 | the stored bytes from the position, as many as asked for, the handle says and the file has; the position advances by their number and not on error |
| `BlobCursor.Blob.Seek` | runtime/guest/app.py:289-295 | lands within the blob |
| `BlobCursor.Blob.ToBytes` | runtime/guest/app.py:300-311 | the whole payload, as far as the handle's size goes, or the error; the position restored |
| `BlobCursor.Blob.ReadInChunks` | runtime/guest/app.py:276-295 | reading in any positive chunks ends with exactly the stored bytes, as far as the handle's size goes |
| `Sse.RawLines.Next` | runtime/src/anyapi.rs:302-318 | the next line off the stream |
| `Sse.SseFrames.Next` | runtime/src/anyapi.rs:76-108 | the next frame off the lines, by the loop over drafts |
| `Sse.StreamsRoundTrip` | runtime/src/anyapi.rs:64-108 | any frames written as an event stream read back as themselves |
| `Sse.CommentsChangeNothing` | runtime/src/anyapi.rs:93-95 | comment lines change nothing, anywhere |
| `Sse.StreamsConcatenate` | runtime/src/anyapi.rs:64-108 | what follows a blank line parses on its own |
| `Sse.UnterminatedIsDropped` | runtime/src/anyapi.rs:66-67 | a trailing frame without its blank line is dropped |
| `Sse.PlainFrame` | runtime/src/anyapi.rs:79-101 | a frame without an event line is a `message` of what follows `data:` and at most one space |
| `Sse.EventsEndWithTheirFrame` | runtime/src/anyapi.rs:82-92 | an event line names its own frame and no later one, also where that frame is dropped |
| `Sse.OtherFieldsAreIgnored` | runtime/src/anyapi.rs:97-104 | other fields are passed over |

## Left out

- ReplayRuns.ReplaysExactly: does not cover a recording in which the world answers with the broker's own DivergenceError to an http call whose refresh a mock met (`NoForgedDivergence`); and where a facade is served whole, compares the outcome it was served with, not where that came from.
- Strays.DivergenceIsCaught: is about a guest that leaves the path of a recording that is faithful so far; span kinds, outputs and errors are not compared by the cursor and so not by the theorem.
- Facades.FacadeShifts: with wildcard or repeating answers there is no one distance between the two sides, only the places `FacadeComesBack` compares.
- MockFeed.MockRunExactly: is about a mock run without grants and without filters, for guests that open no mocked span; what a mock run with edited code gets is what `QueuesAreFifo` says of each queue.
- MockFeed.TraceFeedsMockRun: leaves out guests that fan out, although their batches are answered whole; those are under `MockRunExactly`.
- Accounting.CountersAreConserved: is about Record and Mock mode; a replay that diverges at a span end has popped the frame and written nothing. The end record of a span served whole shows `true` for its mocked count; the model keeps the number beside the mark.
- Fingerprint.StreamDeterminesContent: `credentials` is not hashed by the code, so nothing is said about it.
- Deploy.DeploysConverge: leaves the entry's credentials aside for the same reason; the scanned summary, flag, category and validity are inputs of a program, not computed from its code.
- Sse.StreamsRoundTrip: works on characters and keeps a frame's data as text; UTF-8 decoding and the JSON decoding of each frame are not modelled.
- Records' wall-clock stamps, sequence numbers, the run header, blob spilling of large texts and the masking of shell inputs.
- MockSpecs.BuildIndex: the words of its error messages, and the record number in the provenance of an answer, are not those of the code.
- A run of the model has one current cell; the runner sets it once, after the boot effect, and no decision reads it.
- Network failures inside module resolution and deploy, beyond a deploy being cut between two writes; hints added to error messages; the inline and local-directory resolvers.
- What a grant ledger file looks like after a crash in the middle of writing it.
- Execution of a module's Python: a run may do anything between the start and the end of its top level.
- Key guarding, credentials and OAuth exchange, host binding, presence, triggers, stats, the command line, HTTP and the sandbox itself.
- `module_docstring`, `declared_credentials` and `declared_category` of the source scan, extraction of endpoints by path and method, and the drift report's text.
