# Durable journals of the release broker

This project models the durable core of the release broker and proves what its transactions, retries and restarts
keep. Three journals live in SQLite tables and move by atomic transactions with waits between them; beside them stand
the sequential algorithms on which they rely.

| part | modules |
|---|---|
| component journal: sessions, 15-entry rosters, the singleton selection, the manifest row | `ComponentTypes`, `ComponentReader`, `ComponentSteps`, `ComponentInvariant`, `ComponentSafety`, `ComponentRuns`, `ComponentReads`, `ComponentOutcomes`, `ComponentConfluence`, `ComponentAttribution`, `ComponentStore` |
| authority heads, effect reservations, replay ledger and their coordinator | `AuthorityTypes`, `AuthoritySteps`, `AuthorityCalls`, `AuthorityInvariant`, `AuthorityFlights`, `AuthorityRuns`, `AuthorityTransactions`, `AuthorityOutcomes`, `AuthorityAnswers`, `AuthorityExamples`, `AuthorityStore` |
| operation journal: attempts, issuances, slots, the record, the restartable runner | `OperationTypes`, `OperationSteps`, `OperationInvariant`, `OperationRuns`, `OperationOutcomes`, `OperationSchema`, `OperationExamples`, `OperationStore` |
| bounded JSON scanners, and what the bytes they count are | `JsonText`, `JsonReader`, `JsonScan`, `Utf8` |
| exact inventory matching | `Inventory` |
| time stamps as text | `Clock`, `ClockText` |
| normalising a request and reconstructing it | `Payloads` |

## How the model is built

Each transaction is a step function on the tables (`*Steps`). A step takes the snapshot its caller read earlier as an
ordinary argument, so a theorem over every sequence of steps covers every interleaving and every age of snapshot; a
transaction that throws leaves the tables as they were, and a write made outside a transaction stays. The classes
`ComponentStore.ComponentJournal`, `AuthorityStore.AuthorityJournal` and `OperationStore.OperationJournal` do the same
work in place, statement by statement; each transaction method is proved to leave exactly what its step function says,
and a wait (`Await`) may do anything that a run of steps can do. Inputs that the code obtains elsewhere are arguments:
the clock, the verdict of the semantic validator, the remote answers.

The coordinator's calls are cut at every wait (`AuthorityCalls`). A run is a sequence of single events: a head step,
the start of a call, one further step of a call that is in flight, a crash of it. Calls on one reservation are
serial; anything else may come between any two steps of a call, and every step reads its own clock. A call in flight
remembers the row it read, and `AuthorityFlights` says what it may still rely on. The deployed object queues all its
calls (broker/src/global-activated-authority-head.ts:262-275), head advances included; the theorems do not need that,
except those that say so by asking for reserves that nothing interrupts between check and store.

What a step does, and exactly when, is stated a second time without the step: `ComponentOutcomes`,
`AuthorityTransactions` and `OperationOutcomes` give for every transaction the condition under which it moves the
tables, in terms of the stored rows, the request and the clock, and the rows it then leaves, field by field. `AuthorityOutcomes` and `AuthorityAnswers` do the
same for whole calls of the coordinator that nothing disturbs. The component class has a ghost field `quiet` that says
that no wait has let anything through so far; what `CreateSession`, `BeginInitial` and `ReissueExpired` answer is stated
for calls that stay quiet. The readers are treated likewise: `ComponentReads.ReaderDecides` and its companions say of
arbitrary rows, reachable or not, which ones are refused.

Digests and derived identifiers are computed over whole values, so those values stand for them; hashing is thereby
injective. The replay ledger is modelled from its own source, and not assumed.

## Where the code and its promises part

* Freshness is decided by comparing texts. From year 10000 on a clock's text starts with `+`, which sorts before every
  digit, so every stored deadline is judged fresh again for ever. `ClockText.TextAgreesUntilYear10000` gives the exact
  condition; the journal model uses what the text decides (`Clock.After`).
* Whether an admitted, undisturbed reserve is answered is decided by what is stored under its identifier, and
  `AuthorityOutcomes.ReserveAnswered` says exactly when. Four cases fall short, each reached by a run in
  `AuthorityExamples`: a SEALED row of the same intent is never answered, although the coordinator has a branch for it
  (`SealedReserveFails`: re-arming accepts only dispatched rows); an intent bound under an earlier head is refused
  (`OldIntentFails`); so is a request identifier that any other row holds, even a cancelled one (`TakenRequestFails`);
  and a confirmed effect is answered again only until its tombstone is pruned.
* A prepared dispatch succeeds if and only if the row is still sealed and its time has not passed
  (`AuthorityOutcomes.DispatchDecided`). Otherwise the row ends expired and its tombstone stays PREPARED through every
  run that does not call on the reservation again (`AuthorityExamples.LateDispatchFails`).
* A confirm with another result than the sealed one is noticed only after the ledger has consumed the token: the call
  fails, the effect stays dispatched with a CONSUMED tombstone, and the next reserve confirms it with the sealed result
  (`AuthorityAnswers.ConfirmAnswered`, `AuthorityOutcomes.NextReserveHeals`).
* Comparing the counted bytes with the bytes received detects, once the canonical text agrees, one thing only: a byte
  order mark that the decoder has dropped (`Utf8.LengthDetectsMark`).
* The effect store re-arms an undispatched row without asking about heads. Heads and effects exclude each other when
  reserves are atomic (`AuthorityRuns.HeadAndEffectsExclude`), and the store call alone keeps that exactly when it does
  not re-arm or the row names the current head with none pending (`AuthorityOutcomes.StoreReserveNeedsCurrent`). The
  coordinator tests for a pending head, waits for the head proof, and then makes the bare store call: a head appended
  during that wait lapses the row, which the store then re-arms under the pending head
  (`AuthorityExamples.WaitingReserveBreaksExclusion`). Only the queue around the coordinator prevents this.
* The separate batch delegation never compares the batch commit with the time the controller was read
  (`OperationRuns.SeparatePathIgnoresController`). What it accepts is in order exactly when the controller was read no
  later than the batch was committed (`OperationRuns.SeparatePathInOrder`), and a run reaches a batch that is not
  (`OperationExamples.ControllerAfterBatch`). The runner's own path does compare (`OperationRuns.ReadyChronology`).

## Model

| member | source | states |
|---|---|---|
| `ComponentRuns.JournalStaysCoupled` | broker/src/activation-component-journal-selection.ts:175-263 | After any interleaving: while OPEN nothing is SELECTED, sealed, confirmed or in the manifest table; afterwards exactly the claimed session is SELECTED with 15 sealed or confirmed entries, every other session has ended without entries, and no later step adds or changes a session, the claim or the pins |
| `ComponentSafety.ApplyKeepsInv` | broker/src/activation-component-journal-authority.ts:59-163 | Every transaction, committed from a snapshot of any age, keeps the invariant over sessions, entries, selection and manifest |
| `ComponentRuns.ApplyEvolves` | broker/src/activation-component-journal-validation.ts:165-234 | No transaction takes anything back: identities, stored envelopes, effects, results and pointers stay, phases and states only advance |
| `ComponentRuns.RunKeeps` | broker/src/activation-component-journal-validation.ts:165-234 | Every sequence of transactions keeps the invariant and takes nothing back |
| `ComponentRuns.EvolvesTransitive` | broker/src/activation-component-journal-validation.ts:165-234 | What two stretches of a run keep, the whole keeps, although ended sessions lose their rosters |
| `ComponentSafety.AdmitKeepsInv` | broker/src/activation-component-journal-admission.ts:164-256 | Admission with its expiry, capacity and predecessor checks keeps the invariant |
| `ComponentSafety.AbandonRetires` | broker/src/activation-component-journal-admission.ts:67-98 | Abandoning only ends live sessions and drops exactly their entries |
| `ComponentSafety.ExpireRetires` | broker/src/activation-component-journal-admission.ts:289-303 | Expiry only ends live sessions whose time is up and drops exactly their entries |
| `ComponentSafety.StageKeepsInv` | broker/src/activation-component-journal-staging.ts:28-107 | Staging keeps the invariant: a session is STAGED exactly when no entry is still expected |
| `ComponentSafety.RejectRetires` | broker/src/activation-component-journal-selection.ts:145-173 | Rejection only ends the staged session and drops its entries |
| `ComponentSafety.ClaimKeepsInv` | broker/src/activation-component-journal-selection.ts:175-263 | The group claim keeps the invariant: 15 sealed effects with the pins, all other live sessions superseded |
| `ComponentSafety.ConfirmKeepsInv` | broker/src/activation-component-journal-confirmation.ts:87-156 | A confirmation keeps the invariant; the phase advances with the last sealed entry |
| `ComponentSafety.ManifestSealKeepsInv` | broker/src/activation-component-journal-manifest.ts:117-236 | Sealing the manifest, or holding on repeated component versions, keeps the invariant |
| `ComponentSafety.ManifestResultKeepsInv` | broker/src/activation-component-journal-manifest.ts:238-289 | The manifest result, confirmed or held, keeps the invariant |
| `ComponentOutcomes.AdmitDecided` | broker/src/activation-component-journal-admission.ts:164-303 | Whatever ordinal was computed: a repeat gives the stored session and changes nothing; otherwise a session is admitted if and only if the ordinal is the next one, the journal is open, fewer than four sessions are live and in time and fewer than eight exist, the deadline has not passed and can be stored, and a predecessor, if named, is of the same set, one generation lower, abandoned or lapsed, and was over before; then lapsed sessions are abandoned without entries and the new row and its fifteen expected entries are as given field by field; a lost ordinal leaves just the lapses |
| `ComponentOutcomes.AbandonDecided` | broker/src/activation-component-journal-admission.ts:67-98 | A session is abandoned if and only if nothing of it has moved since it was read, the journal is open, it is live and its 900 seconds are over; it then has no entries and nothing else has changed |
| `ComponentOutcomes.RejectDecided` | broker/src/activation-component-journal-selection.ts:145-173 | A session is rejected if and only if nothing of it has moved since it was read, the journal is open and it is staged |
| `ComponentOutcomes.StageDecided` | broker/src/activation-component-journal-staging.ts:28-107 | An envelope is stored if and only if it is the one that belongs at its place, the entry still expects it, the journal is open and the session in time; with the last one the session is STAGED; an entry that holds it already succeeds without a change |
| `ComponentOutcomes.SealDecided` | broker/src/activation-component-journal-selection.ts:175-263 | The journal is claimed if and only if nothing of the staged session has moved, the journal is open, the two services differ and the session is in time; it is then selected with exactly these pins, entry k is sealed with the effect of its own envelope under them, and every other live session is superseded without entries; the same pins again succeed and change nothing |
| `ComponentOutcomes.ConfirmDecided` | broker/src/activation-component-journal-confirmation.ts:60-156 | A result is stored if and only if the session had been claimed when it was read, the effect is that of a sealed entry under the pins of the claim, and the result names it and an object kept long enough; with the last one the phase advances; the same bytes again change nothing |
| `ComponentOutcomes.ManifestSealDecided` | broker/src/activation-component-journal-manifest.ts:117-236 | Once all components are confirmed the manifest of exactly their objects is sealed, or the journal held if and only if two of them share a version; once |
| `ComponentOutcomes.ManifestResultDecided` | broker/src/activation-component-journal-manifest.ts:238-289 | The manifest is answered if and only if the bytes answer its effect and nothing answered it before; it ends CONFIRMED with its pointer, or held without one if and only if a component has that version; the same bytes again change nothing, others fail |
| `ComponentRuns.SessionsNumbered` | broker/src/activation-component-journal-admission.ts:164-303 | In every run sessions carry ordinals 1..n, n at most 8, at most 4 live; the generations of each set are 1..k, linked to abandoned predecessors with smaller ordinals; one non-terminal session per set; generation at most ordinal |
| `ComponentInvariant.MaxOrdinalCounts` | broker/src/activation-component-journal-queries.ts:113-121 | The largest ordinal is the number of sessions ever admitted |
| `ComponentInvariant.AncestorAbandoned` | broker/src/activation-component-journal-admission.ts:258-278 | A lower generation of a set is abandoned, came earlier, and had expired before the higher one was committed |
| `ComponentInvariant.OneActivePerSet` | broker/src/activation-component-journal-schema.ts:214-222 | At most one session of a set has not ended |
| `ComponentInvariant.GenerationsContiguous` | broker/src/activation-component-journal-admission.ts:258-278 | Every generation below a stored one is stored |
| `ComponentInvariant.NewGenerationFree` | broker/src/activation-component-journal-admission.ts:217-278 | What an admission inserts is a generation that no row of the set has reached |
| `ComponentRuns.SessionsUnique` | broker/src/activation-component-journal-schema.ts:111-145 | No two sessions clash in any unique column or index of the sessions table |
| `ComponentRuns.EntriesUnique` | broker/src/activation-component-journal-schema.ts:146-181 | Stored envelopes and effects are unique over the whole entries table |
| `ComponentRuns.ChecksNeverFail` | broker/src/activation-component-journal-schema.ts:111-212 | The table checks on states, phases and their columns hold of every state with the invariant |
| `ComponentRuns.SchemaNeverRefuses` | broker/src/activation-component-journal-manifest-schema.ts:68-254 | Checks, unique constraints and transition triggers accept the outcome of every transaction |
| `ComponentReads.ReaderAccepts` | broker/src/activation-component-journal-authority.ts:59-163 | The reader accepts every session of every reachable journal and returns the current rows; its recursion through predecessors ends |
| `ComponentReads.ParseExact` | broker/src/activation-component-journal-authority.ts:70-136 | The parse loop accepts a roster if and only if every entry is coherent with its descriptor, place and pins |
| `ComponentReads.ReaderDecides` | broker/src/activation-component-journal-authority.ts:59-164 | Of any rows that pass the column checks, a session can be read if and only if its row is what its identifier was computed from, the selection is coherent, its entries are exactly those its state and phase call for, and its predecessor can be read and is the one it may follow |
| `ComponentOutcomes.ManifestReaderDecides` | broker/src/activation-component-journal-manifest-authority.ts:50-83 | Of any session that can be read, the manifest row is accepted if and only if it is the manifest of the fifteen confirmed objects, no version of them repeats, and its answer, pointer and phase agree |
| `ComponentOutcomes.HoldReaderDecides` | broker/src/activation-component-journal-manifest-authority.ts:85-114 | A held journal is accepted if and only if its code names what the stored versions show |
| `ComponentSafety.ParsedEnvelopes` | broker/src/activation-component-journal-authority.ts:70-136 | With every envelope stored the envelope list is indexed by ordinal |
| `ComponentSafety.ParsedEffects` | broker/src/activation-component-journal-authority.ts:70-136 | With every effect stored the effect list is indexed by ordinal |
| `ComponentReads.EffectsAligned` | broker/src/activation-component-journal-confirmation.ts:60-85 | The effect at position k is the effect of the entry with ordinal k, and a lookup by effect finds that entry |
| `ComponentReads.SelectedPhase` | broker/src/activation-component-journal-authority.ts:276-299 | The status pattern and pins that the reader insists on hold in every phase |
| `ComponentReads.ManifestReaderAccepts` | broker/src/activation-component-journal-manifest-authority.ts:51-114 | Every reachable sealed, confirmed and held manifest state is accepted by its reader |
| `ComponentReads.SelectionNeverReturns` | broker/src/activation-component-journal-validation.ts:219-234 | A selection seen unchanged at two moments was unchanged between them |
| `ComponentReads.EndedStays` | broker/src/activation-component-journal-authority.ts:138-164 | A session that has ended never changes again |
| `ComponentReads.StaleIsFresh` | broker/src/activation-component-journal-validation.ts:165-234 | A transaction committed from a snapshot of any age changes nothing, or does exactly what it would do from a snapshot read at that moment; a stale admission may do just the expiry |
| `ComponentReads.StaleAdmission` | broker/src/activation-component-journal-admission.ts:164-215 | An admission whose ordinal was taken meanwhile does no more than expire stale sessions |
| `ComponentConfluence.DeliveryOrderIrrelevant` | broker/src/activation-component-journal-confirmation.ts:60-156 | Two histories of the same answers that reach the end reach the same tables, whatever the order and repetition of deliveries |
| `ComponentConfluence.EndClassified` | broker/src/activation-component-journal-manifest-authority.ts:116-131 | CONFIRMED if and only if all 16 version identifiers differ; held with the component code iff two components share one; held with the manifest code iff only the manifest repeats one |
| `ComponentConfluence.EndReached` | broker/src/activation-component-journal-manifest.ts:59-111 | After every component has been delivered, in any order, sealing the manifest and its answer reach an end |
| `ComponentConfluence.DeliverMany` | broker/src/activation-component-journal-confirmation.ts:60-156 | Deliveries in any order confirm exactly what was delivered and undo nothing |
| `ComponentAttribution.ChangeLicensed` | broker/src/activation-component-journal-admission.ts:67-98 | A session changes state only by the call, and under the clock, that may cause that change |
| `ComponentAttribution.OnlyAdmissionAdmits` | broker/src/activation-component-journal-admission.ts:164-256 | A session appears only by a fresh admission, with the next free ordinal and nothing staged |
| `ComponentStore.ComponentJournal.Load` | broker/src/activation-component-journal-authority.ts:59-163 | Reading over several moments fails for an existing session exactly when its rows or the selection moved meanwhile; otherwise it returns what the tables hold at the end |
| `ComponentStore.ComponentJournal.NextJournalOrdinal` | broker/src/activation-component-journal-queries.ts:113-121 | The scan over all sessions returns the next free ordinal |
| `ComponentStore.ComponentJournal.ParseRows` | broker/src/activation-component-journal-authority.ts:70-136 | The loop over entries computes the parse of the whole roster |
| `ComponentStore.ComponentJournal.AdmitTransaction` | broker/src/activation-component-journal-admission.ts:170-215 | An existing session is returned; otherwise the checks decide, an error rolls everything back, and a lost ordinal keeps the expiry and asks for another attempt |
| `ComponentStore.ComponentJournal.AdmitNew` | broker/src/activation-component-journal-admission.ts:186-256 | Expiry, capacity, freshness, ordinal, predecessor and the length of the deadline, in this order; what that comes to is `AdmitDecided` |
| `ComponentStore.ComponentJournal.CreateSession` | broker/src/activation-component-journal-admission.ts:164-215 | Eight attempts under any concurrent admissions: the final conflict error is never reached, and a created session is the one asked for. A call that nothing disturbs is answered in its first attempt: in a journal that has had fewer than eight sessions it finds the session if it is a repeat, creates it with the rows that `AdmitDecided` gives if it is admissible, and is otherwise refused without a change; a full journal refuses even a repeat |
| `ComponentStore.ComponentJournal.RetryCrowds` | broker/src/activation-component-journal-admission.ts:164-215 | A lost race leaves more sessions than when the ordinal was read, and fewer than eight |
| `ComponentStore.ComponentJournal.AbandonTransaction` | broker/src/activation-component-journal-admission.ts:67-98 | Ends exactly an expired live session that is unchanged since it was read, with its entries |
| `ComponentStore.ComponentJournal.AbandonExpired` | broker/src/activation-component-journal-admission.ts:67-98 | A session reported abandoned is stored as abandoned |
| `ComponentStore.ComponentJournal.ResolveExisting` | broker/src/activation-component-journal-admission.ts:153-162 | The session returned is the stored one after any expiry that was due |
| `ComponentStore.ComponentJournal.BeginInitial` | broker/src/activation-component-journal-admission.ts:49-65 | What is returned is the initial session of the set of these payloads. An undisturbed call returns the stored one if it is no longer live; if there is none it inserts and returns it if and only if it is admissible, and otherwise changes nothing |
| `ComponentStore.ComponentJournal.ReissueExpired` | broker/src/activation-component-journal-admission.ts:100-141 | What is returned is the successor of an abandoned session of the same set whose time had passed before the successor was committed. An undisturbed call returns the stored successor if it is no longer live; if an abandoned session of this descriptor has none, it inserts and returns generation n + 1 if and only if the 900 seconds of the old one are over and the new one is admissible; otherwise it changes nothing |
| `ComponentStore.ComponentJournal.StageTransaction` | broker/src/activation-component-journal-staging.ts:51-104 | Stores the envelope in an expected entry and stages the session with the last one; success means that this envelope is stored |
| `ComponentStore.ComponentJournal.StageEnvelope` | broker/src/activation-component-journal-staging.ts:28-107 | Success means that the entry holds this envelope, unless the session has ended since |
| `ComponentStore.ComponentJournal.RejectTransaction` | broker/src/activation-component-journal-selection.ts:145-173 | Ends exactly a staged session that is unchanged since it was read, with its entries |
| `ComponentStore.ComponentJournal.SealEntries` | broker/src/activation-component-journal-selection.ts:195-235 | The loop seals every entry with the effect of its own envelope and these pins |
| `ComponentStore.ComponentJournal.ClaimGroup` | broker/src/activation-component-journal-selection.ts:195-263 | The five statements together are the group claim |
| `ComponentStore.ComponentJournal.SealTransaction` | broker/src/activation-component-journal-selection.ts:175-263 | Claims the journal for a fresh, complete, unchanged session, once; a repeat succeeds only with the same pins; with which pins and effects is `SealDecided` |
| `ComponentStore.ComponentJournal.SealedPlans` | broker/src/activation-component-journal-selection.ts:104-143 | The plans returned are the stored effects by ordinal |
| `ComponentStore.ComponentJournal.Decide` | broker/src/activation-component-journal-selection.ts:47-102 | After a verdict the session is rejected, or claimed with exactly the pins of the verdict |
| `ComponentStore.ComponentJournal.SelectAndSeal` | broker/src/activation-component-journal-selection.ts:47-102 | Success means rejected, or claimed with the pins of the verdict |
| `ComponentStore.ComponentJournal.UnresolvedEffects` | broker/src/activation-component-journal-confirmation.ts:209-223 | Exactly the effects of the entries that are still sealed |
| `ComponentStore.ComponentJournal.ConfirmTransaction` | broker/src/activation-component-journal-confirmation.ts:87-156 | Stores the result of an unchanged sealed entry and advances the phase with the last one; success means that these bytes are stored |
| `ComponentStore.ComponentJournal.ConfirmComponent` | broker/src/activation-component-journal-confirmation.ts:60-85 | Success means that the entry of the effect is confirmed with exactly these bytes |
| `ComponentStore.ComponentJournal.HoldTransaction` | broker/src/activation-component-journal-manifest.ts:173-199 | Holds the journal with the component code, once, from rows unchanged since they were read |
| `ComponentStore.ComponentJournal.PersistSealTransaction` | broker/src/activation-component-journal-manifest.ts:201-236 | Inserts the manifest row and advances the phase, once; a repeat succeeds only for the same seal |
| `ComponentStore.ComponentJournal.SealManifest` | broker/src/activation-component-journal-manifest.ts:59-79 | Success means that this session holds the selection and the manifest is sealed, confirmed or held |
| `ComponentStore.ComponentJournal.PersistResultTransaction` | broker/src/activation-component-journal-manifest.ts:238-289 | Stores the result and ends the journal as confirmed or held, once; a repeat succeeds only for the same result |
| `ComponentStore.ComponentJournal.ConfirmManifest` | broker/src/activation-component-journal-manifest.ts:81-111 | Success means that these result bytes are stored and the journal has ended |
| `AuthorityRuns.HeadChain` | broker/src/activated-authority-head-store.ts:64-145 | In every run heads are numbered 1..n in row and bytes, only the last may be unconfirmed, each links back to GENESIS in its own number of steps, no record, request or worker version recurs, the current generation never falls, and every confirmed row names an object with its key, its digest and 2557 days of retention |
| `AuthorityInvariant.GenerationInBytes` | broker/src/activated-authority-head.ts:144-160 | The generation inside the stored bytes equals that of the row, although nothing compares the two |
| `AuthorityInvariant.CurrentIsLast` | broker/src/activated-authority-head-store.ts:204-216 | The current head is the last row, or the one before a pending last row |
| `AuthorityInvariant.AppendKeepsHeads` | broker/src/activated-authority-head-store.ts:95-141 | Appending a head that passes the checks keeps the chain |
| `AuthorityTransactions.AppendDecided` | broker/src/activated-authority-head-store.ts:64-145 | A head is appended if and only if the bytes parse and the columns repeat them, every stored head is confirmed, no effect is dispatched or still in time, it is the next generation, it links to the last head, and neither record nor worker version occurred before; it is appended PREPARED and lapsed effects expire; the stored head again changes nothing |
| `AuthorityTransactions.MarkDecided` | broker/src/activated-authority-head-store.ts:147-158 | Exactly a PREPARED head becomes DISPATCHED |
| `AuthorityTransactions.ConfirmDecided` | broker/src/activated-authority-head-store.ts:160-202 | A head is confirmed if and only if it is DISPATCHED and the object has its key, its digest and enough retention; the same object again changes nothing |
| `AuthorityRuns.HeadAndEffectsExclude` | broker/src/activated-authority-head-store.ts:95-141 | In every run whose reserves are atomic, whatever else waits or crashes, a pending head and a live effect exclude each other, every live effect names the current confirmed head, and an intent has one reservation |
| `AuthorityOutcomes.StoreReserveNeedsCurrent` | broker/src/activated-authority-effect-store.ts:49-104 | The store's reserve by itself keeps that exclusion if and only if it does not re-arm, or the row names the current head and none is pending |
| `AuthorityExamples.StoreReserveBreaksExclusion` | broker/src/activated-authority-effect-store.ts:66-72 | A run after which the bare store call re-arms a row under a pending head |
| `AuthorityExamples.WaitingReserveBreaksExclusion` | broker/src/activated-authority-effect-coordinator.ts:46-68 | A run in which the coordinator does the same, because a head is appended while its reserve waits for the proof |
| `AuthorityRuns.JournalMatchesLedger` | broker/src/activated-authority-effect-coordinator.ts:119-184 | In every run, whatever comes between the steps of a call and wherever it crashes, a confirmed effect was consumed by the ledger, and a dispatched one has its own unmarked tombstone, which no pruning can take |
| `AuthorityOutcomes.NextReserveHeals` | broker/src/activated-authority-effect-coordinator.ts:39-85 | After every run with atomic reserves, wherever calls crashed, the next undisturbed reserve for a dispatched intent is answered CONFIRMED if the ledger consumed it and RESERVED if not; only a request identifier held by another row stops it, and then the row stays dispatched |
| `AuthorityOutcomes.ReserveAnswered` | broker/src/activated-authority-effect-coordinator.ts:39-85 | An admitted, undisturbed reserve is answered if and only if: nothing is stored and intent and request identifier are free; or the row is not sealed and the request identifier is free; or it is dispatched and consumed; or it is confirmed with its tombstone still there. The answer is the stored row |
| `AuthorityAnswers.StartDecided` | broker/src/activated-authority-effect-coordinator.ts:39-67 | A reserve call sets out if and only if the request is recent and not over, the last head is confirmed, proved and named by it, its window is at most a minute, and no call on its reservation is in flight; what it reserves is given field by field |
| `AuthorityAnswers.CallDecided` | broker/src/activated-authority-effect-coordinator.ts:87-117 | The other calls do nothing unless the row is stored under this request and the request is recent; then the status alone decides how a dispatch, a confirm, a seal or a cancel sets out |
| `AuthorityAnswers.ConfirmAnswered` | broker/src/activated-authority-effect-coordinator.ts:169-184 | An undisturbed confirm is answered if and only if the row was dispatched or confirmed with exactly this result and its tombstone is there, its own and not cancelled; afterwards the row is CONFIRMED, its binding consumed, and the tombstone CONSUMED and marked |
| `AuthorityAnswers.DispatchAnswered` | broker/src/activated-authority-effect-coordinator.ts:157-167 | An undisturbed dispatch, from its start, is answered if and only if the row was dispatched before, or is sealed, its binding can be prepared and its time has not passed; what each failure leaves in ledger and row is stated |
| `AuthorityAnswers.TokenStaysSpent` | broker/src/auth-replay-effect-store.ts:54-95 | Over every run in which no clock is seven days past both the end of a consumed token and the time of its mark, its tombstone stays, and nothing that shares its token or its request can be prepared |
| `AuthorityTransactions.ReserveDecided` | broker/src/activated-authority-effect-store.ts:49-104 | The store reserves if and only if the row went further already, or the request identifier is free, or the reservation is new, under the last, confirmed head, and its intent and request identifier are free; which rows expire and what is written is given field by field |
| `AuthorityTransactions.SealDecided` | broker/src/activated-authority-effect-store.ts:133-177 | A RESERVED row is sealed with its result; a sealed or later row accepts only its own |
| `AuthorityTransactions.DispatchRowDecided` | broker/src/activated-authority-effect-store.ts:106-131 | A row is dispatched if and only if it is sealed and in time; otherwise an undispatched row expires without its result, and anything else stays |
| `AuthorityTransactions.AnswerDecided` | broker/src/activated-authority-effect-store.ts:179-200 | A row is confirmed if and only if it was dispatched with this result |
| `AuthorityTransactions.CancelDecided` | broker/src/activated-authority-effect-store.ts:202-217 | What was never dispatched is cancelled without its result, and nothing else |
| `AuthorityTransactions.RearmDecided` | broker/src/activated-authority-effect-store.ts:243-338 | A row is reserved again if and only if it is dispatched, for the same head and intent, and no other row has the request |
| `AuthorityAnswers.PrepareDecided` | broker/src/auth-replay-effect-store.ts:54-95 | A binding is prepared if and only if its token has not run out, no ordinary use holds it, and nothing that is remembered shares token or request, with fewer than 10000 rows remembered, or only its own PREPARED tombstone does; remembered is what seven days have not passed over |
| `AuthorityTransactions.SettleDecided` | broker/src/auth-replay-effect-store.ts:133-158 | A tombstone is settled if and only if it is the only one with its token and request, is exactly this binding, and is PREPARED or settled this way already |
| `AuthorityTransactions.ObserveDecided` | broker/src/auth-replay-effect-store.ts:105-112 | An unknown binding is absent, its own lone tombstone tells its state, anything else is a conflict |
| `AuthorityTransactions.TombstoneMarkDecided` | broker/src/auth-replay-effect-store.ts:114-131 | Exactly a settled tombstone is marked, and keeps the time of its first marking |
| `AuthorityExamples.SealedReserveFails` | broker/src/activated-authority-effect-store.ts:243-261 | A run after which an admissible reserve of a sealed intent gets no answer |
| `AuthorityExamples.TakenRequestFails` | broker/src/activated-authority-effect-store.ts:49-104 | A run after which the request identifier of a cancelled row keeps a new intent out |
| `AuthorityOutcomes.OldIntentRefused` | broker/src/activated-authority-effect-store.ts:49-104 | An intent bound under another head gets no answer, and the request changes nothing |
| `AuthorityExamples.OldIntentFails` | broker/src/activated-authority-effect-store.ts:49-104 | A run that reaches this |
| `AuthorityOutcomes.DispatchDecided` | broker/src/activated-authority-effect-coordinator.ts:157-167 | After the ledger is prepared, the row is dispatched if and only if it is still sealed and its time has not passed; otherwise it ends expired, and row and PREPARED tombstone stay through every run elsewhere |
| `AuthorityExamples.LateDispatchFails` | broker/src/activated-authority-effect-coordinator.ts:157-167 | A run that reaches the late case |
| `AuthorityOutcomes.ElsewhereFrames` | broker/src/activated-authority-effect-coordinator.ts:39-184 | What single steps on other reservations leave alone, every run of them leaves alone: dispatched and confirmed rows and unmarked tombstones |
| `AuthorityRuns.RearmOnlyCancelled` | broker/src/activated-authority-effect-store.ts:243-261 | In every run the next event leaves a dispatched row as it is, or confirms it behind a consumed binding, or re-arms it; the last only as the re-arming step of a call on it, with the ledger saying CANCELLED |
| `AuthorityRuns.RunKeeps` | broker/src/activated-authority-effect-coordinator.ts:39-184 | Every run of events keeps the invariant over heads, effects and ledger, and everything that each call in flight still relies on |
| `AuthorityRuns.PerformKeeps` | broker/src/activated-authority-effect-coordinator.ts:39-184 | Every event keeps the invariant, touches no row, tombstone or call of another reservation except to lapse an undispatched row or prune a marked tombstone, and keeps the pins of live effects unless it is a reserve resumed after its wait |
| `AuthorityFlights.StoreReserveMoves` | broker/src/activated-authority-effect-store.ts:49-104 | The store step of a reserve keeps the system and frames all other reservations; with the current head still current it keeps the pins too |
| `AuthorityFlights.ObserveMoves` | broker/src/activated-authority-effect-coordinator.ts:119-155 | Observing the ledger keeps the system, and the call still knows what the ledger said when it goes on |
| `AuthorityFlights.RearmMoves` | broker/src/activated-authority-effect-coordinator.ts:137-150 | The re-arming step keeps the system, and frames all other reservations, whatever came between |
| `AuthorityFlights.PrepareMoves` | broker/src/activated-authority-effect-coordinator.ts:157-167 | Preparing the ledger keeps the system, and frames all other reservations |
| `AuthorityFlights.DispatchMoves` | broker/src/activated-authority-effect-coordinator.ts:157-167 | Dispatching the row keeps the system, whatever came between: its tombstone is still PREPARED |
| `AuthorityFlights.CommitMoves` | broker/src/activated-authority-effect-coordinator.ts:169-184 | Consuming the ledger row keeps the system, and frames all other reservations |
| `AuthorityFlights.ConfirmMoves` | broker/src/activated-authority-effect-coordinator.ts:169-184 | Confirming the row keeps the system, whatever came between: its tombstone is still CONSUMED |
| `AuthorityFlights.MarkMoves` | broker/src/auth-replay-effect-store.ts:114-131 | Marking the tombstone keeps the system: no dispatched row needs it any more |
| `AuthorityInvariant.EffectReserveKeeps` | broker/src/activated-authority-effect-store.ts:49-104 | The reserve transaction keeps the invariant |
| `AuthorityInvariant.PrepareKeeps` | broker/src/auth-replay-effect-store.ts:54-95 | Preparing a tombstone keeps the invariant |
| `AuthorityInvariant.SettleKeeps` | broker/src/auth-replay-effect-store.ts:133-158 | Committing or cancelling a tombstone keeps the invariant |
| `AuthorityInvariant.PruneKeeps` | broker/src/auth-replay-effect-store.ts:160-170 | Pruning removes no tombstone that a dispatched effect still needs |
| `AuthorityInvariant.BindingsApart` | broker/src/activated-authority-effect-coordinator.ts:186-199 | Different reservations have different ledger bindings |
| `AuthorityStore.AuthorityJournal.ReserveHead` | broker/src/activated-authority-head-store.ts:64-145 | In place, as the step demands: a repeat changes nothing, a new head is appended behind the current one, and a refused call leaves even its expiry undone |
| `AuthorityStore.AuthorityJournal.Current` | broker/src/activated-authority-head-store.ts:204-210 | The backward scan returns the last confirmed head |
| `AuthorityStore.AuthorityJournal.MarkDispatched` | broker/src/activated-authority-head-store.ts:147-158 | A PREPARED head becomes DISPATCHED; any other is left alone |
| `AuthorityStore.AuthorityJournal.ConfirmHead` | broker/src/activated-authority-head-store.ts:160-202 | A DISPATCHED head is confirmed by an object with its key, digest and retention; a confirmed one accepts only the same object |
| `AuthorityStore.AuthorityJournal.ReserveEffect` | broker/src/activated-authority-effect-store.ts:49-104 | Expires lapsed reservations, then inserts, re-arms or returns the row of the reservation; refused calls leave nothing behind |
| `AuthorityStore.AuthorityJournal.Seal` | broker/src/activated-authority-effect-store.ts:133-177 | A RESERVED row is sealed with its result; a row that has a result accepts only the same one |
| `AuthorityStore.AuthorityJournal.DispatchEffect` | broker/src/activated-authority-effect-store.ts:106-131 | A fresh sealed row is dispatched; a late one is expired, and that stays although the call reports failure |
| `AuthorityStore.AuthorityJournal.ConfirmEffect` | broker/src/activated-authority-effect-store.ts:179-200 | A dispatched row is confirmed by its own result only; a confirmed one accepts only the same result |
| `AuthorityStore.AuthorityJournal.CancelUndispatched` | broker/src/activated-authority-effect-store.ts:202-217 | Only rows that were never dispatched are cancelled, and lose their result |
| `AuthorityStore.AuthorityJournal.Rearm` | broker/src/activated-authority-effect-store.ts:243-261 | Only a dispatched row of the same reservation and intent is reserved again |
| `AuthorityStore.AuthorityJournal.Prepare` | broker/src/auth-replay-effect-store.ts:54-95 | Prunes old tombstones, then inserts one or finds this very one still PREPARED |
| `AuthorityStore.AuthorityJournal.Settle` | broker/src/auth-replay-effect-store.ts:133-158 | A PREPARED tombstone is consumed or cancelled, once; a repeat of the same changes nothing |
| `AuthorityStore.AuthorityJournal.MarkTerminal` | broker/src/auth-replay-effect-store.ts:114-131 | A settled tombstone is marked once, with the time of the first marking |
| `AuthorityStore.AuthorityJournal.ReconcileEffect` | broker/src/activated-authority-effect-coordinator.ts:119-155 | In place with a wait before every step, and only steps of this call: it returns when the trace has ended the call, with the answer of the last step, which is the row, confirmed, or reserved for this very request |
| `AuthorityStore.AuthorityJournal.ObserveLedger` | broker/src/activated-authority-effect-coordinator.ts:125-155 | The state the ledger reports decides the next step of the call |
| `AuthorityStore.AuthorityJournal.ReserveInJournal` | broker/src/activated-authority-effect-coordinator.ts:68-71 | The row that the store returns decides the next step of the call |
| `AuthorityStore.AuthorityJournal.ReserveProof` | broker/src/activated-authority-effect-coordinator.ts:39-85 | In place with a wait before every step: a request that is refused at once changes nothing; any other runs until the trace has ended the call, and is answered what the last step gave, the row of this intent confirmed, or reserved for this very request |
| `AuthorityStore.AuthorityJournal.PrepareAndDispatch` | broker/src/activated-authority-effect-coordinator.ts:157-167 | The ledger is prepared, then, after a wait, the row is dispatched; a call that is refused at once changes nothing, any other runs until the trace has ended it, and an answer is the stored row, dispatched or confirmed |
| `AuthorityStore.AuthorityJournal.CommitAndConfirm` | broker/src/activated-authority-effect-coordinator.ts:169-184 | The ledger is consumed, then the row confirmed, then the tombstone marked, with a wait before each; a call that is refused at once changes nothing, any other runs until the trace has ended it, and an answer is the stored row, confirmed with this result |
| `OperationRuns.DispatchedOrdinal` | broker/src/activation-operation-reissue-policy.ts:18-36 | In every run only the latest ordinal is ever dispatched, expired ones never gain an effect, EFFECTS_PENDING and DISPATCHED_HOLD have one, and READY_TO_APPEND and later never fall back |
| `OperationRuns.CallsAreDurable` | broker/src/activation-operation-runner.ts:72-203 | Over any run with crashes and several callers, each outside call carries an identity that is stored; each slot and the record have one identity, and effects one ordinal |
| `OperationRuns.DelegatedAllOrNone` | broker/src/activation-operation-provision-delegation.ts:46-143 | In every run of the runner the four A0 effects are delegated all or none, from one batch request that the controller read precedes |
| `OperationRuns.ReadyChronology` | broker/src/activation-operation-effects-validation.ts:104-129 | A ready A0 issuance has issued <= observed <= committed <= fresh-until in every direct slot and all times up to the record time; in runs of the runner the controller was read no later than the batch commit |
| `OperationRuns.SeparatePathInOrder` | broker/src/activation-operation-effects.ts:308-326 | What the separate batch delegation accepts is in order if and only if the controller was read no later than the batch was committed |
| `OperationRuns.SeparatePathIgnoresController` | broker/src/activation-operation-effects.ts:178-260 | It accepts whatever time the controller was read at |
| `OperationExamples.ControllerAfterBatch` | broker/src/activation-operation-effects.ts:308-326 | A run in which it accepts a batch committed before the controller was read |
| `OperationRuns.RecordLifecycle` | broker/src/activation-operation-record-lifecycle.ts:43-151 | In every run a record exists iff its issuance is appended or confirmed, its pointer is set iff issuance and intent are confirmed with result bytes, and its core never changes |
| `OperationRuns.RestartFindsOpenCalls` | broker/src/activation-operation-provision-delegation.ts:46-143 | After a crash, repeating the delegation grants exactly the calls of the slots not yet confirmed |
| `OperationRuns.RestartCompletes` | broker/src/activation-operation-runner.ts:173-203 | From any A0 state with the four effects dispatched, however many are confirmed, acceptable answers to what is open confirm the operation, in whatever order they arrive and however often |
| `OperationRuns.FinalizeRestartCompletes` | broker/src/activation-operation-runner.ts:173-203 | The same for the one batch of A1 |
| `OperationRuns.RecordCompletes` | broker/src/activation-operation-record-lifecycle.ts:43-151 | A ready issuance appends its record and confirms it with its own answer |
| `OperationRuns.ApplyEvolves` | broker/src/activation-operation-effect-queries.ts:100-168 | No step takes back a stored request, payload, time, effect, batch or result |
| `OperationRuns.RemoteIsLatest` | broker/src/activation-operation-effect-queries.ts:144-168 | A stored effect, batch or record belongs to the latest ordinal |
| `OperationRuns.RunDurable` | broker/src/activation-operation-runner.ts:173-203 | Whatever a run grants is stored at its end |
| `OperationSchema.TablesAlwaysHold` | broker/src/activation-operation-schema.ts:116-314 | After every run each row of the attempt passes its table checks, at most one issuance is live, and no object key, batch or object version stands twice in the slots |
| `OperationInvariant.ApplyKeeps` | broker/src/activation-operation-store.ts:54-274 | Every step keeps the invariant over issuances, slots and record |
| `OperationInvariant.RunKeeps` | broker/src/activation-operation-store.ts:54-274 | Every run keeps the invariant over issuances, slots and record |
| `OperationInvariant.NotDispatched` | broker/src/activation-operation-reissue-policy.ts:18-36 | What the reissue policy calls undispatched has no dispatched slot of any kind |
| `OperationInvariant.ReissueKeeps` | broker/src/activation-operation-store.ts:107-162 | Reissuing keeps the invariant, whichever ordinal the caller had seen |
| `OperationInvariant.FreezeReadKeeps` | broker/src/activation-operation-store.ts:219-274 | Freezing a read keeps the invariant, the expiry of a failed gate included |
| `OperationInvariant.DelegateKeeps` | broker/src/activation-operation-effects.ts:86-176 | Delegating one direct slot keeps the invariant |
| `OperationInvariant.DelegateBatchKeeps` | broker/src/activation-operation-effects.ts:178-260 | Delegating the batch slot keeps the invariant |
| `OperationInvariant.DelegateAllKeeps` | broker/src/activation-operation-provision-delegation.ts:46-143 | The atomic delegation keeps the invariant |
| `OperationInvariant.ConfirmBatchKeeps` | broker/src/activation-operation-cloudflare-confirmation.ts:26-123 | Importing a batch result and its record time keeps the invariant |
| `OperationInvariant.ReadyKeeps` | broker/src/activation-operation-readiness.ts:11-47 | The readiness gate keeps the invariant |
| `OperationInvariant.AppendKeeps` | broker/src/activation-record-store.ts:107-139 | Appending the record keeps the invariant |
| `OperationInvariant.ConfirmRecordKeeps` | broker/src/activation-record-store.ts:165-188 | Binding the record to its object keeps the invariant |
| `OperationOutcomes.DelegateAllDecided` | broker/src/activation-operation-provision-delegation.ts:46-292 | A request newly delegates if and only if it names this issuance and its times, all four reads are frozen and observed by its commit time, the batch slot is free, the clock is in time and the two token payloads differ; then slots 1 to 3 hold effects that the WORM writer executes and the B2 observer observes, over the payloads frozen there, committed when the request was, slot 4 holds the request, and exactly these four calls are granted. The request that sealed the roster is granted the calls still open, any other nothing |
| `OperationOutcomes.ReserveDecided` | broker/src/activation-operation-store.ts:54-105 | An issuance is inserted if and only if there is none; its times and its blank roster are given |
| `OperationOutcomes.ReissueDecided` | broker/src/activation-operation-store.ts:107-162 | The issuance seen is replaced if and only if it is the latest, its time is over and it is RESERVED, COLLECTING or EXPIRED_UNDISPATCHED |
| `OperationOutcomes.GateDecided` | broker/src/activation-operation-store.ts:295-316 | An open issuance expires if and only if the observation lies outside its sixty seconds or after the clock; it is held if and only if an effect is on its way |
| `OperationOutcomes.PrepareReadDecided` | broker/src/activation-operation-store.ts:164-217 | The provider may be asked if and only if the issuance is open and in time twice and the slot is untouched or in flight with this very request |
| `OperationOutcomes.FreezeReadDecided` | broker/src/activation-operation-store.ts:219-274 | A payload is frozen with its time if and only if the read is in flight and the issuance open and in time twice |
| `OperationOutcomes.DelegateDecided` | broker/src/activation-operation-effects.ts:86-176 | One frozen slot is delegated if and only if the issuance is open, the times are in order and the other token slot does not ask for the same object; the unique object keys over all issuances come down to that |
| `OperationOutcomes.DelegateBatchDecided` | broker/src/activation-operation-effects.ts:178-260 | The batch is delegated by itself if and only if it names this issuance and, in A0, the controller read is frozen and the three effects are committed by then; the time of the controller read plays no part |
| `OperationOutcomes.ConfirmDirectDecided` | broker/src/activation-operation-effects.ts:262-295 | A result is taken if and only if the slot waits for it, it names its effect, the object is kept long enough and no other slot has its version; the state of the issuance plays no part |
| `OperationOutcomes.ConfirmBatchDecided` | broker/src/activation-operation-cloudflare-confirmation.ts:26-123 | A batch result is taken if and only if the slot waits for it, it names its request, and its fifteen anchors are in order, distinct and kept long enough; it fixes the record time |
| `OperationOutcomes.ReadyDecided` | broker/src/activation-operation-readiness.ts:11-47 | An issuance becomes ready if and only if every read is frozen, every effect answered, and no time lies after the record time |
| `OperationOutcomes.AppendDecided` | broker/src/activation-operation-record-lifecycle.ts:60-88 | A record is appended if and only if the issuance is ready and the record was built from its slots as they are |
| `OperationOutcomes.NextRecordDecided` | broker/src/activation-operation-record-lifecycle.ts:92-109 | The record call is open exactly while the issuance is appended, for the record of exactly its slots; nothing changes |
| `OperationOutcomes.ConfirmRecordDecided` | broker/src/activation-operation-record-lifecycle.ts:111-151 | The record is bound if and only if the issuance is appended and the result names its record and an object kept long enough; issuance, record and intent are confirmed together |
| `OperationStore.OperationJournal.ReserveIssuance` | broker/src/activation-operation-store.ts:54-105 | The first issuance is inserted with its roster, once; an attempt that has one is left alone |
| `OperationStore.OperationJournal.InsertRoster` | broker/src/activation-operation-store.ts:54-105 | One prepared row for each slot of the sequence |
| `OperationStore.OperationJournal.ReissueTransaction` | broker/src/activation-operation-store.ts:124-160 | Only the ordinal seen before the wait, expired and never dispatched, is replaced by the next; anything else is left alone |
| `OperationStore.OperationJournal.PrepareSlot` | broker/src/activation-operation-store.ts:164-217 | The request is stored before the provider may be called, and a stored request allows only itself; a failed gate outside the transaction leaves its expiry behind |
| `OperationStore.OperationJournal.FreezeSlot` | broker/src/activation-operation-store.ts:219-274 | The payload of a read in flight is frozen with its time if the issuance is still fresh twice; a failed outer gate leaves its expiry behind |
| `OperationStore.OperationJournal.ValidateAnchors` | broker/src/activation-operation-effects-validation.ts:24-68 | The loop over anchors accepts exactly the rosters whose roles, keys and versions are distinct and in order, with enough retention |
| `OperationStore.OperationJournal.SealRows` | broker/src/activation-operation-provision-delegation.ts:178-237 | The three direct rows and the batch row are sealed as the atomic delegation says |
| `OperationStore.OperationJournal.CanSeal` | broker/src/activation-operation-provision-delegation.ts:160-176 | Accepts exactly when controller time, chronology and object keys allow the seal |
| `OperationStore.OperationJournal.PlanEffects` | broker/src/activation-operation-provision-delegation.ts:46-143 | The rows to be written and the calls to be granted are those of the atomic delegation |
| `OperationStore.OperationJournal.DelegateEffects` | broker/src/activation-operation-provision-delegation.ts:46-143 | All four effects in one transaction or none, from payloads already frozen, with the executor, observer, evidence, commit time and payload of each slot given without the functions that build them (`Delegates`); the calls granted are those still open |
| `OperationStore.OperationJournal.ConfirmSlot` | broker/src/activation-operation-effects.ts:262-295 | A delegated slot takes the result of its own effect, with a version no other slot has; nothing else changes |
| `OperationStore.OperationJournal.ConfirmCloudflare` | broker/src/activation-operation-cloudflare-confirmation.ts:26-123 | A delegated batch takes its own result and fixes the record time, once |
| `OperationStore.OperationJournal.ReadyToAppend` | broker/src/activation-operation-readiness.ts:11-47 | Ready exactly when the roster is complete and no slot time exceeds the record time |
| `OperationStore.OperationJournal.FreezeAndAppend` | broker/src/activation-operation-record-lifecycle.ts:43-90 | Success means that there is a record of this issuance, built from the rows as they are stored now |
| `OperationStore.OperationJournal.AppendTransaction` | broker/src/activation-operation-record-lifecycle.ts:60-88 | A record is inserted only where there was none, and only if the rows read again are those it was built from |
| `OperationStore.OperationJournal.NextRecordWorm` | broker/src/activation-operation-record-lifecycle.ts:92-109 | The record call is granted exactly while the issuance is appended and unconfirmed; nothing is changed, for the pointer that would be repaired afterwards is never missing |
| `OperationStore.OperationJournal.ConfirmRecordWorm` | broker/src/activation-operation-record-lifecycle.ts:111-151 | Result, pointer, issuance and intent are confirmed together, and a repeat accepts only the stored result |
| `OperationStore.OperationJournal.ExecuteEffects` | broker/src/activation-operation-runner.ts:173-203 | Makes exactly the open calls; every call ever made was granted, so what it carries is stored (`Valid`) |
| `OperationStore.OperationJournal.RunOperation` | broker/src/activation-operation-runner.ts:72-203 | A run of A0 or A1 that reports completion leaves a confirmed intent and a record bound to its object, wherever earlier runs stopped; A1 does nothing before the record of A0 is confirmed |
| `OperationStore.OperationJournal.DelegateCloudflare` | broker/src/activation-operation-effects.ts:178-260 | The batch is sealed by itself, or its open call found again |
| `OperationStore.OperationJournal.CloudflareRequest` | broker/src/activation-operation-runner.ts:271-294 | A stored batch request is used again |
| `JsonScan.ScanActivationJson` | broker/src/activation-component-codec.ts:127-217 | Returns the byte length of the compact printed form, which is its cost counted unit by unit, the depth, the longest string or key and the node count of the recursive definitions; refuses if and only if one exceeds its limit; never holds more values than the node limit |
| `JsonScan.ActivationRecordV2Budget` | broker/src/activation-record-v2-codec.ts:48-119 | The same with keys measured apart; refuses if and only if a total exceeds its limit or some number is not a safe integer |
| `JsonScan.PushMembers` | broker/src/activation-component-codec.ts:154-176 | Pushing children moves exactly their totals and key bytes from the container to the stack |
| `JsonScan.ContainerTotal` | broker/src/activation-component-codec.ts:154-176 | A container is its brackets and commas and its members one level deeper |
| `JsonText.ContainerBytes` | broker/src/activation-component-codec.ts:154-176 | The printed form of a container is brackets, commas, keys with colons, and its children |
| `JsonText.PrintMembersBytes` | broker/src/activation-component-codec.ts:154-176 | Byte lengths of printed members add up: no cut splits a surrogate pair |
| `JsonText.Utf8Concat` | broker/src/activation-component-codec.ts:219-225 | UTF-8 lengths add up unless the cut splits a surrogate pair |
| `JsonReader.PrintedIsRead` | broker/src/activation-component-codec.ts:219-221 | A reader of JSON without white space, defined apart from the printer, reads every printed value back: all but the keys of array members and the sign of what is not finite |
| `JsonReader.TextIsRead` | broker/src/activation-component-codec.ts:219-221 | Unescaping undoes escaping, whatever follows the closing quote; the reader refuses bare control units and lone surrogates |
| `JsonReader.PrintCosts` | broker/src/activation-component-codec.ts:127-221 | The bytes of the printed form are its punctuation and, for every string and key, two quotes and a cost for each character: two bytes for the seven short escapes, six for other control units and lone surrogates, otherwise its width in UTF-8 |
| `JsonReader.QuotedCosts` | broker/src/activation-record-v2-codec.ts:268-275 | The same for one quoted text |
| `JsonReader.SafeExactly` | broker/src/activation-record-v2-codec.ts:268-271 | A number is safe if and only if it is printed as an integer below 2 to the power of 53 |
| `Utf8.EncodedIsDecoded` | broker/src/activation-component-codec.ts:223-225 | The strict decoder gives every text back from its bytes, lone surrogates replaced |
| `Utf8.DecodedIsEncoded` | broker/src/activation-component-codec.ts:45-52 | What the strict decoder accepts is exactly what the encoder writes |
| `Utf8.SentIsReceived` | broker/src/activation-record-v2-codec.ts:18-45 | A printed value arrives as it was sent and is read as it was, in as many bytes as the scanners count |
| `Utf8.LengthDetectsMark` | broker/src/activation-component-codec.ts:25-63 | Bytes received as the printed form of a value are as many as the scanners count for it if and only if no byte order mark was dropped from them |
| `Inventory.ResolveNamespace` | broker/src/activation-component-resolver-inventory.ts:55-96 | Accepts a listing if and only if it is a permutation of the expected roster with distinct keys and versions and sound bytes; returns it in expected order; the final size test refuses nothing |
| `Inventory.VerifyListing` | broker/src/activation-component-resolver-inventory.ts:70-86 | The loop succeeds exactly when every version is known, sound and new |
| `Inventory.ExpectedObjects` | broker/src/activation-component-resolver-inventory.ts:207-245 | The index by key exists exactly when number and keys are right, and finds each object |
| `Inventory.InExpectedOrder` | broker/src/activation-component-resolver-inventory.ts:88-95 | The lookup by key lists the objects in expected order |
| `Inventory.AllOfThem` | broker/src/activation-component-resolver-inventory.ts:87-87 | As many distinct things, all expected, are exactly the expected ones |
| `Inventory.MatchedIsExact` | broker/src/activation-component-resolver-inventory.ts:70-87 | A verified listing is a permutation of the roster |
| `Inventory.EveryKeyVerified` | broker/src/activation-component-resolver-inventory.ts:87-93 | Both maps end with the same keys |
| `Inventory.ListingOrderIrrelevant` | broker/src/activation-component-resolver-inventory.ts:88-95 | The result does not depend on the order of the listing |
| `Inventory.ExactRepeatsNoVersion` | broker/src/activation-component-resolver-inventory.ts:70-86 | An exact listing repeats no version identifier |
| `Inventory.ResolvedBytes` | broker/src/activation-component-resolver-inventory.ts:70-95 | For each expected object, in its place, the caller holds bytes that have its digest, under its key, version and retention |
| `ClockText.FromMs` | broker/src/activation-component-journal-validation.ts:39-48 | Every time has a calendar moment that exists and converts back to it |
| `ClockText.MomentOf` | broker/src/activation-component-journal-validation.ts:63-69 | Converting a calendar moment to a time and back gives the same moment |
| `ClockText.WrittenIsRead` | broker/src/activation-component-journal-validation.ts:63-69 | Fields read from a written stamp are the fields written |
| `ClockText.ReadIsWritten` | broker/src/activation-component-journal-validation.ts:63-69 | A text whose fields exist is how those fields are written |
| `ClockText.ReadExactly` | broker/src/activation-component-codec.ts:111-121 | A text is read as a time if and only if it is how that time is written |
| `ClockText.ReadAccepts` | broker/src/activation-component-codec.ts:111-121 | A text is accepted if and only if it has the shape and its fields name a day and time that exist |
| `ClockText.TextOrderIsTimeOrder` | broker/src/activation-component-journal-validation.ts:71-83 | For stamps of years 0 to 9999 the order of texts is the order of times |
| `ClockText.SignSortsFirst` | broker/src/activation-component-journal-validation.ts:71-83 | A signed year sorts before every plain one, before or after it in time |
| `ClockText.FreshnessByText` | broker/src/activation-component-journal-admission.ts:289-296 | Comparing deadline and clock as texts decides exactly `Clock.After` |
| `ClockText.LongDeadlineByText` | broker/src/activation-component-journal-admission.ts:200-203 | A deadline past year 9999 is judged met exactly for clocks past year 9999 that have not reached it |
| `ClockText.TextAgreesUntilYear10000` | broker/src/activated-authority-effect-store.ts:106-120 | Text and number comparisons agree if and only if the clock is not past year 9999 |
| `ClockText.FreshWindow` | broker/src/activation-component-journal-validation.ts:63-83 | A session is fresh if and only if no more than 900 seconds have passed, or the clock is past year 9999 |
| `ClockText.DeadlineFits` | broker/src/activation-component-journal-schema.ts:111-145 | A deadline has the 24 characters that the table demands if and only if it stays within year 9999 |
| `Payloads.RoundTrip` | broker/src/activation-component-authority-reconstruction.ts:91-204 | Reconstruction undoes normalisation for every request that its parser accepts: document, broker and applications come back as they were |
| `Payloads.ParsedIsPlain` | broker/src/activation-infrastructure.ts:25-105 | A request that the parser accepts says nothing about broker and applications beyond the inventory |
| `Payloads.BuiltIsAccepted` | broker/src/activation-component-authority-reconstruction.ts:30-83 | Whatever the builder accepts is reconstructed if and only if the trusted account and worker are those of the inventory |
| `Payloads.DigestFixesAuthorities` | broker/src/activation-component-authority-reconstruction.ts:66-82 | Two accepted bundles with one header digest agree on every authority; only copied fields can differ |
| `Payloads.Reconstruct` | broker/src/activation-component-authority-reconstruction.ts:30-83 | Succeeds exactly when some authorities are authentic for the bundle, and returns them |
| `Payloads.ParsesExactly` | broker/src/service-authority-expectation.ts:125-250 | A document parses if and only if it holds fourteen rows in role order, each with its own service and version, and two phases of which the second is the first one with the ingress promoted from its denying bootstrap to its final version |
| `Payloads.AcceptedExactly` | broker/src/activation-component-authority-reconstruction.ts:30-83 | A bundle is accepted if and only if its account and ingress are the trusted ones, every application has its kept fields, host and endpoint name one host, and the document put together again has the digest of the header and parses |
| `Payloads.RebuildPrivateServices` | broker/src/activation-component-authority-reconstruction.ts:100-113 | The loop gives one entry for each role but the ingress |
| `Payloads.RebuildApps` | broker/src/activation-component-authority-reconstruction.ts:131-146 | The loop gives each application its kept fields and the binding and version of its row; it fails exactly when a field or a row is missing |
| `Payloads.PrivateServicesAre` | broker/src/activation-component-authority-reconstruction.ts:100-113 | Which private services are rebuilt, and from which rows |
| `Payloads.DeploymentsComeBack` | broker/src/activation-component-authority-reconstruction.ts:148-195 | Every deployment of both phases comes back whole |
| `Payloads.BrokerComesBack` | broker/src/activation-component-authority-reconstruction.ts:91-129 | The broker comes back if and only if it is plain |
| `Payloads.AppsComeBack` | broker/src/activation-component-authority-reconstruction.ts:131-146 | The applications come back if and only if they are bound to the inventory |

## Left out

- ChecksNeverFail: leaves out the bounds on byte and text lengths of stored values, which are opaque here.
- SchemaNeverRefuses: compares the tables before and after a whole transaction, not each statement of it, and leaves out the same bounds.
- DelegatedAllOrNone: speaks of the steps that the runner takes; the separate delegations, which the store also offers, are covered by `SeparatePathInOrder`.
- HeadAndEffectsExclude: asks for atomic reserves, because with a wait in a reserve it is false (`WaitingReserveBreaksExclusion`).
- NextReserveHeals: speaks of a call that passes the coordinator's admission checks and that no event interrupts; `JournalMatchesLedger` covers every interruption.
- ConfirmBatchKeeps: one attempt; that anchors, request identifiers and record sequence are unique across the two attempts is not modelled.
- ConfirmCloudflare: the same.
- TablesAlwaysHold: one attempt, without the anchor table and the bounds on byte lengths.
- ReserveIssuance: leaves out the errors for a request whose identity differs from the stored one; an attempt has one semantic identity here.
- Remote clients, RPC surfaces, HTTP status, error codes and retryable flags: calls appear as grants, failures as refusal.
- Field-by-field validators of requests, payloads, applications, policies and observations: lists of literal checks.
- Hash functions, regular expressions, frozen and branded objects: a digest is the value it was computed from.
- Canonical order of keys and the strict scanner in front of the JSON parser: values arrive with their members in some order, and the order changes no total.
- Byte limits on stored blobs and the order of digests in a roster inside the component journal.
- Schema creation, schema versions and the compact profile of the operation schema: the tables exist.
- Slot states HOLD and DISPATCHED_HOLD and issuance states FROZEN, HOLD and SUPERSEDED_STALE of the operation schema, which no code writes.
- The verdict on a head proof and the collision of a replay binding with an ordinary token: arguments of the calls.
- Waits in the component and operation classes: another caller's steps are summed up by what every run keeps.
- The provider effects between two steps of the runner: their answers are arbitrary arguments.
- The literal service names and bindings of the inventory, and the version order inside a deployment, in `Payloads`: kept as opaque names; an identity text is a term of its account, service and version.
- The ten components of a request that normalisation copies verbatim.
- Locale and calendar behaviour of date parsing for texts that are not ISO stamps: such texts are refused here, and in the code by the comparison with the text written back.
