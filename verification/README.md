# Poolparty, modelled and proved

Poolparty shares provider accounts among many callers and keeps what it does durable. This
project models its durable state machines in Dafny and proves what they promise.

- **Ledger** (`domain`, `tables`, `ledger`, `laws`, `verdicts`). `Ledger.SqliteLedger` is an object whose
  transactions rewrite its tables; each is tied to a function in `Tables`, and `Laws` proves what
  every transaction keeps: the state column agrees with the encoded record, operations are unique
  on a binding, work without an operation id is alone, sessions have one binding, floors only rise.
  `Verdicts` says outright when each transaction is granted, what it answers otherwise, and which
  rows it leaves.
- **Router, transport and crash** (`system`, `safety`, `steps`, `runs`, `promises`, `liveness`,
  `router`, `refinement`). `System` is a step relation: any number of executions interleave on one
  ledger, each ledger call may be refused or commit without its answer arriving, the transport may do
  anything it is allowed to, and the process may die between any two steps. `Promises` states the
  results over every run, `Liveness` that every guard is let go. `Router` is one request as it
  executes, with its guard, its drain loop and its failures, and `Refinement` shows that it is a run
  of the system.
- **Stream evidence** (`sse`, `transport`, `evidence`). The incremental parser is refined to a
  definition over the whole input of its own dialect of event streams (a subset of sections 9.2.5 and
  9.2.6 of the WHATWG HTML Living Standard: a lone carriage return ends no line, there is no byte order
  mark, `id` and `retry` are ignored). `Evidence` tells from the bytes a provider writes what they prove.
- **Refresh fence** (`codex`, `refresh`, `maintenance`). A state machine of lock, vault, watermark,
  durable marker, exchange, write-back and removal, with a crash possible between any two; and the
  resolution as it executes, proved to be a run of it.
- **Versioned vault** (`json`, `item`, `vault`, `clock`). Items as JSON, their normal form, the read
  cache with its backoffs, and the replace that is read again before it is believed.
- **Messages bridge** (`translator`, `turns`, `framing`, `response`, `stream`, `spoken`, `reading`,
  `wire`, `conversation`). Turns translated both ways, upstream answers understood from their bytes,
  the stream reader that inverts the stream writer down to the bytes, and conversations over time with
  a journal that sends no turn twice. `Turns`, `Spoken` and `Reading` say what is sent, spoken and read in terms of the messages,
  items and events themselves.
- **Managed inventory and usage** (`managed`, `usage`, `pools`). Credential freshness, the fence
  around accounts that share a credential, exact thresholds, merged statuses, pool selection.

Where the code has a corner its prose does not mention, the model follows the code. If the dispatch
mark is refused by storage after the guard was armed to fence, the row legitimately stays reserved
until recovery (`Router.Ending`); a cap may be lowered below present pressure, so pressure is bounded
by the largest cap ever set (`Promises.CapsHold`); a settlement refuses a clock that goes backwards,
so exact settlement is stated for clocks that do not (`Promises.SettlementIsExact`), and
`Router.SettleNeedsTheClock` says that this is exactly when an allowed settlement is stored. A failed
credential whose accounts the ledger refuses to disable, or which the deadline of a preparation overtakes,
keeps the others in service: `Managed.CancelledFence` says exactly when it is fenced all the same.

Assumptions are stated where they are used: a transport certificate of non-dispatch is truthful
(`System.Act`); a write-back that succeeds reports a newer generation (`Maintenance.World.Fair`, which
`Vault.OnePasswordStore.Replace` proves of the vault); a read of the vault that succeeds returns what
the vault holds (`Vault.CommandLine.Get`), while an edit may store and answer anything; JSON that was
parsed can be rendered and parsed again, and the events spoken can be encoded and decoded
(`Translator.Codec.Faithful`, `Wire.EventCodec.Faithful`).

`dafny verify dfyconfig.toml` checks the whole project. Nothing was executed.

## Model

| member | source | states |
|---|---|---|
| `Promises.ConservativePressure` | src/runtime.rs:181-311 | over every run with crashes, an attempt whose send began and that has no provider evidence, transport certificate or operator resolution still holds capacity; a NotDispatched attempt never reached the provider |
| `Promises.AtMostOneSend` | src/runtime.rs:153-195 | over every run, no attempt is sent twice and no two sends share a binding and an operation id |
| `Promises.SettlementIsExact` | src/runtime.rs:168-311 | with a clock that never goes back, an unaborted execution with working storage ends NotDispatched iff the secret did not load or non-dispatch was certified, Succeeded or Rejected as that evidence says, Uncertain otherwise |
| `Liveness.SettlementIsTotal` | src/runtime.rs:417-441 | over any run without a crash, however it interleaves and whatever storage and transport answer, an execution that holds an attempt takes at most ten steps of its own besides taking chunks, has a next step until it has ended, and then is settled: counted clean unless it was aborted or storage failed it |
| `Promises.DurableBeforeDelivered` | src/runtime.rs:240-267 | once the terminal chunk is handed out the ledger already holds the outcome it proves, and holds it in every later state |
| `Promises.BytesAreFaithful` | src/runtime.rs:230-268 | what the caller was handed is an in-order prefix of what was read; the proving chunk is withheld until settled and comes last |
| `Promises.CapsHold` | src/storage.rs:266-275 | in every reachable state an owner's pressure is at most the largest cap ever set for it, and at most the present cap if that was never lowered |
| `Promises.OnlyAdmissionCharges` | src/storage.rs:738-750 | a step that raises an owner's pressure is an admission, raises it by one, and started strictly below the present cap |
| `Promises.BindingsAreExclusive` | src/storage.rs:711-733 | two active attempts on one binding both carry operation ids, and different ones |
| `Promises.UncertaintyFences` | src/storage.rs:720-726 | no attempt is ever admitted on a binding that has an uncertain one |
| `Promises.GenerationsNeverFall` | src/storage.rs:170-201 | the floor of a credential never falls between two states of a run, and generations granted to attempts of one credential never decrease |
| `Promises.ThreadsKeepTheirBinding` | src/http.rs:503-573 | two requests of one principal on one native thread, at any two moments of any run, use one binding whose account and intent never change and which, once closed, stays as it is |
| `Promises.StepEvolves` | src/storage.rs:352-1001 | no event forgets a row, rewrites an identity, takes back an outcome or lowers a floor, and only an admission adds an attempt or charges anyone |
| `Runs.AlwaysHolds` | src/runtime.rs:107-323 | the system invariant holds after every sequence of events |
| `Runs.StepKeeps` | src/runtime.rs:107-323 | every event, from a crash to a racing duplicate, preserves the system invariant |
| `Runs.AdmitKeeps` | src/storage.rs:689-753 | admitting an execution, whether the reply arrives or is lost, preserves the invariant |
| `Runs.ChooseKeeps` | src/http.rs:534-563 | creating a thread's binding after a lookup that found none, however many requests race, preserves the invariant |
| `Runs.RestartKeeps` | src/storage.rs:978-1001 | startup recovery preserves the invariant |
| `Runs.ResolveKeeps` | src/storage.rs:914-976 | an operator's resolution preserves the invariant |
| `Steps.DispatchKeeps` | src/runtime.rs:181-187 | marking the dispatch, refused, lost or delivered, preserves the invariant |
| `Steps.FinishKeeps` | src/runtime.rs:417-423 | an explicit settlement preserves the invariant and disarms the guard only when it is stored |
| `Steps.DropKeeps` | src/runtime.rs:425-441 | a dropped guard's settlement preserves the invariant |
| `Safety.LocalKeeps` | src/runtime.rs:107-323 | a step that touches one execution and its own attempt preserves what holds of all the others |
| `Laws.AdmitGrants` | src/storage.rs:689-753 | an admission that succeeds is below the cap, on an open binding with no uncertain, clashing or duplicate work, under exactly the credential's floor generation |
| `Laws.InsertKeeps` | src/storage.rs:711-733 | inserting a granted attempt keeps operations unique and work exclusive |
| `Laws.InsertRaisesPressure` | src/storage.rs:266-275 | it raises its owner's pressure by one and no other's |
| `Laws.CountsAreTrue` | src/storage.rs:340-351 | the count over the state column is the count over the encoded records |
| `Laws.SaveKeeps` | src/storage.rs:340-350 | a saved transition keeps column and record in agreement and every law of the tables |
| `Laws.ForwardKeeps` | src/storage.rs:352-370 | moving attempts forward keeps every law and can only lower pressure |
| `Laws.RecoverKeeps` | src/storage.rs:978-1001 | recovery keeps every law, only releases capacity, and leaves no active attempt |
| `Laws.BindKeeps` | src/storage.rs:532-631 | creating a binding keeps one binding per principal and session and moves no other |
| `Laws.BindFinds` | src/storage.rs:557-578 | what it returns is the one binding the session names |
| `Laws.CloseKeeps` | src/storage.rs:658-687 | closing keeps every law, and sets the closing time at most once |
| `Laws.PutAccountKeeps` | src/storage.rs:472-502 | storing an account keeps every law and no account changes product or owner |
| `Laws.PutAccountFloor` | src/storage.rs:482-500 | an accepted account carries exactly its credential's floor generation, and no floor falls |
| `Laws.FenceKeeps` | src/storage.rs:391-414 | disabling unenrolled accounts keeps every law |
| `Laws.EligibleMeansFit` | src/storage.rs:203-276 | the ordered refusals let through exactly the accounts that are in service, asked for, under their cap and not known, or where the policy insists not feared, to lack capacity |
| `Laws.AdmitIsFit` | src/storage.rs:727-738 | an admission goes to a fit account that serves its model, under the binding's pinned model and effort |
| `Laws.BindIsFit` | src/storage.rs:579-612 | a new binding goes to the first fit account the intent allows |
| `Laws.FenceIsExact` | src/storage.rs:391-414 | exactly the unenrolled accounts leave service, and nothing else of any account changes |
| `Laws.RecoverySorts` | src/storage.rs:983-1000 | recovery makes reserved attempts not dispatched and other running ones uncertain, and leaves settled ones alone |
| `Laws.ResolutionIsAccountable` | src/storage.rs:914-976 | a resolution is an administrator's, inside its pools, of an uncertain attempt, to a provider outcome, with a reason and never back in time |
| `Laws.ObserveKeeps` | src/storage.rs:515-530 | evidence about an owner is only ever replaced by later evidence |
| `Verdicts.AdmitMeans` | src/storage.rs:689-753 | an admission is granted exactly when the request is in order and its binding open to it, nothing on the binding repeats it, is uncertain or collides, the bound account serves the model and is fit, its credential is at the newest recorded generation, and the identifier is fresh |
| `Verdicts.AdmittedRow` | src/storage.rs:742-751 | the one row it writes: reserved, now, for the account's owner, under its present credential, with the operation and fingerprint asked for |
| `Verdicts.RepeatIsRefused` | src/storage.rs:711-718 | a repeated operation is answered with the attempt that carries it and what is known of its dispatch, and is a conflict exactly when it was a different request |
| `Verdicts.ObstacleIsNamed` | src/storage.rs:719-733 | otherwise the first uncertain attempt is named if there is one, and else the first colliding one |
| `Verdicts.ImproperIsRefused` | src/storage.rs:689-710 | a request not in order is told the first thing wrong: its time or fingerprint, the binding it may not use, one that is closed or newer, a pin it contradicts |
| `Verdicts.UnreadyIsRefused` | src/storage.rs:734-741 | an unobstructed request is told why its account cannot take it: the model, the first reason in the eligibility order, or an outdated credential |
| `Verdicts.IneligibleMeans` | src/storage.rs:203-285 | the reason an account cannot take a request is the first that applies, told from its flags, policy, evidence and the attempts its owner holds |
| `Verdicts.BindMeans` | src/storage.rs:583-630 | a new thread is bound exactly when some allowed account is fit and the identifier is fresh, to the first such account, and only its row is written |
| `Verdicts.RebindMeans` | src/storage.rs:557-582 | a thread that has a binding gets it, unchanged, exactly when its pool may be used, it is open and was made for the same intent, and is told which of these fails otherwise |
| `Verdicts.UnfitAreNamed` | src/storage.rs:583-607 | when no account is fit the refusal lists exactly the tried accounts of the pool, in order, each with its own first reason; a pinned account's reason is the refusal's |
| `Verdicts.SessionMeans` | src/storage.rs:640-656 | a thread's lookup finds its own binding exactly when there is one whose pool may be seen |
| `Verdicts.CloseMeans` | src/storage.rs:658-687 | a close succeeds exactly for the owner with its pool and not before the binding was made; the binding then stands closed, at the first close's time, and nothing else is written |
| `Verdicts.SettleMeans` | src/storage.rs:793-834 | a settlement is accepted exactly when the attempt is already there, or may go there and the clock is not behind it; only then, and only its state and time move, in record and column alike |
| `Verdicts.MarkMeans` | src/storage.rs:755-791 | a dispatch is marked exactly from reserved and a stream exactly from dispatching, by a clock not behind the row |
| `Verdicts.ResolveMeans` | src/storage.rs:914-976 | a resolution succeeds exactly for an administrator who sees the uncertain attempt, names a provider outcome and gives a trimmed reason of at most 512 bytes; the record says who, what, why and when |
| `Verdicts.RecoverMeans` | src/storage.rs:978-1001 | recovery turns reserved rows into not dispatched ones, other running rows into uncertain ones, never sets a time back, and leaves every other row as it was |
| `Verdicts.PutAccountMeans` | src/storage.rs:472-502 | an account is stored exactly when it serves something, keeps its product and owner and its credential's, and brings a generation no older than any on record; it then is the row, and its generation the floor |
| `Verdicts.ObserveMeans` | src/storage.rs:515-530 | evidence is stored exactly when it spans some time and is newer than, or equal to, what is on record |
| `Ledger.SqliteLedger.CredentialFloor` | src/storage.rs:170-188 | the larger of the generations in the two tables, or none |
| `Ledger.SqliteLedger.PutAccount` | src/storage.rs:472-502 | commits exactly what `Tables.PutAccount` describes or leaves every table alone |
| `Ledger.SqliteLedger.Observe` | src/storage.rs:515-530 | commits an observation only when newer, and accepts the stored one again |
| `Ledger.SqliteLedger.DisableUnenrolled` | src/storage.rs:391-414 | every account outside the set ends disabled, all others as they were |
| `Ledger.SqliteLedger.EligibleFor` | src/storage.rs:203-285 | the first reason, in order, why the account cannot take one more request |
| `Ledger.SqliteLedger.Admit` | src/storage.rs:689-753 | commits exactly the admission `Tables.Admit` describes, with its error otherwise |
| `Ledger.SqliteLedger.Settle` | src/storage.rs:793-834 | commits exactly the settlement `Tables.Settle` describes: idempotent, ordered, never backwards in time |
| `Ledger.SqliteLedger.ResolveAttempt` | src/storage.rs:914-976 | only an administrator, only an uncertain attempt, only to a provider outcome |
| `Ledger.SqliteLedger.Recover` | src/storage.rs:978-1001 | the loop over rows leaves reserved attempts not dispatched and other active ones uncertain, all at once |
| `Ledger.SqliteLedger.SelectAccount` | src/storage.rs:575-602 | the least eligible account, or every exclusion inside the pool in account order |
| `Ledger.SqliteLedger.Bind` | src/storage.rs:532-631 | commits exactly the binding `Tables.Bind` describes, with its error otherwise |
| `Ledger.SqliteLedger.CloseBinding` | src/storage.rs:658-687 | commits exactly the close `Tables.CloseBinding` describes |
| `Router.AttemptGuard.Finish` | src/runtime.rs:417-423 | settles, and disarms only when the settlement is known stored |
| `Router.AttemptGuard.Drop` | src/runtime.rs:425-441 | an armed guard settles with its drop outcome; a disarmed one does nothing |
| `Router.Pump` | src/runtime.rs:224-308 | the drain loop: the caller is handed exactly the leading data chunks and, only once its outcome is stored, the terminal one; the attempt ends as the first decisive item says; a failure is reported exactly when none is decisive or its outcome was not stored, and always as of unknown dispatch |
| `Router.Attempt` | src/runtime.rs:169-314 | whatever fails between load and stream, the attempt is settled or owed to the guard exactly as `Router.Ending` says; whoever gets no response is told that nothing was sent only if the secret did not load or the transport certified it, what the transport says of a send it gave up on, and otherwise that nobody knows |
| `Router.ExecuteInner` | src/runtime.rs:107-323 | the ledger ends as admitted with only the new attempt's state and time moved to its ending: Reserved if the dispatch intent was refused, Uncertain if anything later was lost, otherwise what the evidence proves; the first failing check answers; an admitted caller told NotDispatched has a row that ends NotDispatched, and with storage answering a refused send yields the transport's certainty, the binding and the attempt |
| `Router.SettleStands` | src/storage.rs:793-834 | a settlement of a standing attempt moves it exactly when allowed, and is acknowledged exactly when it stands there afterwards |
| `Router.SettleNeedsTheClock` | src/storage.rs:820-826 | an allowed settlement is stored exactly when the clock is not behind the row, and otherwise leaves it |
| `Refinement.RequestIsARun` | src/runtime.rs:107-323 | from any state of the invariant in which an execution is bound, a request as `Router.ExecuteInner` leaves it is where a run of the system leads: the same rows, the same chunks, the execution ended, the clock as monotone as before |
| `Router.StreamSettles` | src/providers.rs:261-274 | for any upstream bytes in any chunks, the ledger's verdict is exactly what the whole byte string proves, and the caller is handed the chunks up to the one that completes the proof |
| `Sse.FeedSplits` | src/providers.rs:305-350 | feeding a text is feeding any two parts of it in turn, until one decides |
| `Sse.ChunksDoNotMatter` | src/providers.rs:305-350 | any split of the bytes gives the same first decision and the same parser state as feeding them whole |
| `Sse.ParserRefinesBatch` | src/providers.rs:305-396 | the byte-at-a-time parser decides exactly what the whole-input definition says, and otherwise remembers exactly the open frame |
| `Sse.BatchSticks` | src/providers.rs:305-396 | what an input decides no later byte undoes |
| `Sse.MemoryIsBounded` | src/providers.rs:305-325 | line, data and event bytes together never exceed the frame's bytes, and those never exceed the limit |
| `Sse.DoneIsEvidence` | src/providers.rs:386-395 | the only outcomes ever proven are success and rejection |
| `Sse.JudgeMeans` | src/providers.rs:352-396 | a frame whose object has a type under an agreeing event name proves success exactly for a completed response with an agreeing status, or `message_stop`; rejection exactly for a failed or incomplete one with an agreeing status, or `error`; is a fault exactly if a terminal response contradicts it; frames without data, the closing mark and untyped objects prove nothing, and anything else is a fault |
| `Evidence.LineAdds` | src/providers.rs:319-349 | a line adds its value to the data or names the event, without the one space after the colon; comments and other fields add nothing, and an event that is no text is a fault |
| `Evidence.FrameProves` | src/providers.rs:352-396 | the bytes of a whole frame, fed to a fresh parser, prove success, rejection or a fault exactly as its own event does, and otherwise leave the parser fresh |
| `Evidence.StreamProves` | src/providers.rs:305-396 | after any number of frames about something else the first frame that completes or declines the request proves exactly that |
| `Evidence.StreamEnds` | src/runtime.rs:224-308 | however the network cuts such a stream, the attempt ends succeeded exactly on completion, rejected exactly when declined, uncertain otherwise |
| `Evidence.TooLong` | src/providers.rs:305-310 | a line past the limit is a fault, whatever follows |
| `Transport.TerminalParser.Feed` | src/providers.rs:305-350 | the running parser's fields and answer are those of the byte-by-byte definition |
| `Transport.TerminalParser.FinishFrame` | src/providers.rs:352-396 | a frame is judged by its own type, its event name and its response status, success and rejection each exactly on the events that mean them, and both buffers are emptied |
| `Transport.ForwardStream` | src/providers.rs:259-277 | chunks are forwarded unchanged and in order; the last item is the chunk that completes the first terminal frame with what it proves, or a failure |
| `Transport.ForwardError` | src/providers.rs:244-258 | an error body proves rejection exactly when it is complete, within the limit, and its status is 4xx other than 408 |
| `Refresh.AlwaysFenced` | src/maintenance.rs:101-183 | the fence invariant holds after every run of concurrent resolutions, failures and crashes |
| `Refresh.RefreshOncePerGeneration` | src/maintenance.rs:155-160 | over every run no credential generation is exchanged twice |
| `Refresh.MarkerFences` | src/maintenance.rs:140-150 | a Codex resolution that ends well leaves no marker file in sight |
| `Refresh.FailureLeavesTheMarker` | src/maintenance.rs:158-181 | once the exchange may have happened, every failure leaves the marker both visible and durable |
| `Refresh.WatermarkKeeps` | src/storage.rs:190-201 | taking a generation keeps the fence: an accepted one is at or above every exchange already settled |
| `Refresh.CrashKeeps` | src/maintenance.rs:226-287 | a crash that keeps or loses any unsynced file change keeps the fence |
| `Maintenance.CredentialMaintenance.WriteMarker` | src/maintenance.rs:252-276 | the file is durable exactly when create, write and sync all succeed, and is never overwritten |
| `Maintenance.CredentialMaintenance.RemoveMarker` | src/maintenance.rs:277-287 | the file is durably gone exactly when remove and sync succeed |
| `Maintenance.CredentialMaintenance.ResolveInner` | src/maintenance.rs:101-183 | every resolution is a run of the fence made only of its own events and of the answers it was given. Once the generation is taken: a key is served exactly if it is there and no refresh is forced; a bundle is served as it is exactly if it is the expected account's, no marker stands in the way and it outlives five minutes; it is exchanged, once, exactly if it does not or a refresh is forced, and its marker is durably up; what comes back is served exactly if it is the same identity's, fresh, written back, recorded and its marker gone |
| `Maintenance.CredentialMaintenance.Resolve` | src/maintenance.rs:73-99 | the object only stands where some run of the fence leads, so the fence's promises are its own |
| `Codex.FreshMeansUnexpired` | src/codex_auth.rs:98-123 | a credential needs no refresh exactly when its known expiry is strictly later than the whole window, saturation included |
| `VaultItem.InspectMeans` | src/onepassword.rs:365-411 | an item is accepted exactly when it is the addressed one, versioned, with distinctly identified fields and a usable target, and then yields its generation and secret |
| `VaultItem.NormalIdempotent` | src/onepassword.rs:437-469 | normalizing twice is normalizing once |
| `VaultItem.NormalCommutes` | src/onepassword.rs:537-562 | the edited item's normal form is the old one's with only the target's value changed |
| `VaultItem.OnlyTheTargetMoves` | src/onepassword.rs:437-469 | the normal form after a write is the one before with the target changed exactly when, among usable items, no member outside the server's own moved, the sections are the same, and every field that is no empty date is there as before but for the target's value, in any order |
| `VaultItem.EditMeans` | src/onepassword.rs:535-552 | the edit proposed is the item itself with empty dates gone and the target's value replaced, every other field and member as and where it was |
| `VaultItem.UnsupportedMeans` | src/onepassword.rs:420-435 | an item is not edited exactly when somewhere in it, at any depth, a member is a passkey, a file or of such a type, whatever the case of its letters |
| `Json.SortedSame` | src/onepassword.rs:455-466 | two lists sort alike exactly when they hold the same elements and order those of one identifier alike |
| `Json.SortedStable` | src/onepassword.rs:455-466 | sorting keeps the order of elements with the same identifier |
| `Json.SortedOrdered` | src/onepassword.rs:455-466 | sorting orders by identifier, a missing one first |
| `Vault.OnePasswordStore.CheckBackoff` | src/onepassword.rs:157-169 | open exactly when neither the vault nor the credential is backing off at the instants read |
| `Vault.OnePasswordStore.RecordFailure` | src/onepassword.rs:171-182 | the cached secret goes, and the right backoff starts when caching is on and the instant exists |
| `Vault.OnePasswordStore.Read` | src/onepassword.rs:312-349 | without a running backoff the vault is called, and a vault that answers is believed exactly when its item is usable and no older than the generation on record; the read is then that item and ends an outage; a failed call leaves the vault-wide backoff running, an unusable item the credential's own, and until they have passed nothing is called or learnt |
| `Vault.OnePasswordStore.CachedOrRead` | src/onepassword.rs:200-221 | what is served is what the vault holds, read now, or exactly the cache entry, still fresh, at the generation on record, with no outage known, and a fresh entry is served without a call; a vault that answers is believed exactly when its item is usable and does not go back; only what it held is remembered, and a failed call starts the backoff |
| `Vault.OnePasswordStore.Latest` | src/onepassword.rs:472-484 | the value is what the simple versioned store would load from the vault at that generation, or was seen there before; without a backoff, what an answering vault holds at no older a generation is served; after a vault-wide failure nothing is served until the vault answers again |
| `Vault.OnePasswordStore.Load` | src/onepassword.rs:488-513 | once the vault has answered, the result is exactly the simple versioned store's, unless the vault goes back; what the vault holds at a generation not behind can be loaded; any other value served was seen at this generation; an older one is refused, and after a vault-wide failure no cached one is served |
| `Vault.OnePasswordStore.Replace` | src/onepassword.rs:515-596 | at most one edit, only after a fresh read at the expected generation; success means the vault holds the next generation, the new value, and otherwise the old normal form, so that the simple store's replace gives the same view; an edit stored and answered faithfully succeeds; a failed call starts the backoff |
| `Vault.ReplaceRefines` | src/config.rs:44-58 | a replace that succeeds does to the vault what the simple versioned store's replace would |
| `Vault.ReadRefines` | src/config.rs:34-43 | the simple versioned store loads a value from the vault's view exactly when the vault holds it at that generation |
| `Translator.NormalizedHistory` | spikes/messages_responses/bridge.py:84-123 | every block of every message in order, or refusal if one is not supported for its role |
| `Translator.Fresh` | spikes/messages_responses/bridge.py:160-180 | what the caller adds to the recorded history, or refusal if a result is repeated, changed or missing |
| `Translator.Consume` | spikes/messages_responses/bridge.py:184-196 | accepted exactly when the new results answer every pending call, each once |
| `Translator.Prepare` | spikes/messages_responses/bridge.py:126-234 | a turn is accepted exactly when `Translator.Preparation` is defined: history continued, something new asked, all pending calls answered |
| `Turns.HistoryMeans` | spikes/messages_responses/bridge.py:84-123 | a history is read exactly when there is one and every block of every message may stand in its role; it is then the blocks, in order, under their roles |
| `Turns.ContinuesMeans` | spikes/messages_responses/bridge.py:145-180 | a history continues the one on record exactly when it repeats its assistant entries, its texts by role and its results, each unchanged, and answers no call twice |
| `Turns.NewMeans` | spikes/messages_responses/bridge.py:162-180 | what is new of it is exactly the texts after those on record, in order, and the results for calls that had none |
| `Turns.TurnSends` | spikes/messages_responses/bridge.py:126-234 | an accepted turn asks only what the bound intent leaves open, and sends the recorded input followed by each new entry as it was given, a result with its error flag; the new results answer exactly the waiting calls, each once |
| `Turns.TurnIsAccepted` | spikes/messages_responses/bridge.py:126-234 | a turn that repeats what is on record, asks something new and answers each waiting call once is refused only for its size |
| `Turns.RecordIsReady` | spikes/messages_responses/bridge.py:504-507 | what an accepted turn leaves on record can be gone on from in that way |
| `Responses.CompletedResponse` | spikes/messages_responses/bridge.py:237-279 | the loop over frames, with its size limits, blank end and event names, understands from the raw bytes exactly the response their events define |
| `Responses.OrderIsRestored` | spikes/messages_responses/bridge.py:251-279 | for any interleaving of added and done events the response carries its items in index order |
| `Responses.OnlyInterleavings` | spikes/messages_responses/bridge.py:251-279 | a response rebuilt from item events had every item announced once, then done once, and no others; its own output was empty or the same; nothing but the output is replaced |
| `Responses.EventsComeBack` | spikes/messages_responses/bridge.py:237-256 | events framed under their own names, within the limits, are read back unchanged and in order |
| `Responses.BytesRestoreOrder` | spikes/messages_responses/bridge.py:237-279 | from the bytes of any interleaving of item events to the response with its items in index order |
| `Responses.UnfitIsRefused` | spikes/messages_responses/bridge.py:237-250 | one frame too large, no JSON or misnamed, or too many bytes in all, and nothing is understood |
| `Responses.FailureIsRefused` | spikes/messages_responses/bridge.py:251-256 | a stream in which the provider reports a failure is never understood, whatever else it says |
| `Responses.CompletionIsLast` | spikes/messages_responses/bridge.py:246-271 | what is understood ends with its one completion |
| `Stream.MessageEvents` | spikes/messages_responses/bridge.py:282-352 | the loop over output items gives exactly the events, history entries and calls of `Stream.Replied`, or refuses, as `Spoken.ReplyMeans` and `Spoken.SayableIsTranslated` tell of the items |
| `Spoken.ReplyMeans` | spikes/messages_responses/bridge.py:282-352 | the translated blocks are the items', item by item: one thinking with its summary's paragraphs per reasoning, each text part, each call under its own identifier, name and parsed arguments; the calls waited for are exactly the identifiers given; the stop reason is tool_use exactly when a call is announced |
| `Spoken.SayableIsTranslated` | spikes/messages_responses/bridge.py:282-352 | a response of the bound model, named and counted, whose items can each be said, with distinct calls and something to say, is refused only for its size |
| `Spoken.ClientSees` | spikes/messages_responses/bridge.py:315-352 | the reader of the translated stream collects, in order, exactly what the response's items say, each call under the identifier it must be answered by |
| `Stream.StreamBlocks` | spikes/messages/vertical.py:53-113 | the reader's loop collects exactly the blocks the fold does |
| `Stream.StreamRoundTrip` | spikes/messages/vertical.py:53-113 | reading the events of any translated response gives back its blocks, in order |
| `Reading.ReadsWhen` | spikes/messages/vertical.py:63-106 | a stream is taken exactly when each event may follow those before it: one start with the pinned model and no content, blocks opened once, deltas and stops inside an open block, a stop only when all blocks are stopped and nothing after it |
| `Reading.CollectedMeans` | spikes/messages/vertical.py:53-113 | it is understood exactly when taken, stopped and its arguments parse; it is then its blocks in the order they were started, each grown by exactly its own deltas, however they were interleaved |
| `Framing.ReturnsGo` | spikes/messages/vertical.py:62-62 | a carriage return before a line feed goes, wherever it stands |
| `Framing.DataJoins` | spikes/messages/vertical.py:63-63 | a frame's data is the texts of its data lines with line feeds between them |
| `Framing.DataOfOne` | spikes/messages_responses/bridge.py:244-244 | a data line's text is what follows the colon, without the first space, or for the reader every space, that leads it |
| `Wire.FramingRoundTrip` | spikes/messages/vertical.py:62-66 | whatever is framed as events is carried back unchanged and in order by splitting on blank lines |
| `Wire.WireRoundTrip` | spikes/messages_responses/bridge.py:350-352 | the same round trip through the bytes |
| `Conversations.WellFormedMeans` | spikes/messages_responses/bridge.py:496-510 | call ids are distinct, and every output follows its call and is its only one |
| `Conversations.TurnKeeps` | spikes/messages_responses/bridge.py:504-510 | an accepted turn keeps the input well formed with exactly the pending calls unanswered, only appends to it, and outgrows the body it came from |
| `Conversations.OldBodiesAreRefused` | spikes/messages_responses/bridge.py:161-163 | a body whose assistant history is not the conversation's is refused |
| `Conversations.Bridge.DoPost` | spikes/messages_responses/bridge.py:427-534 | a request is sent exactly when it is welcome, its preparation succeeds and that could be recorded, at most once, with its operation durably pending, never for a body accepted before; what is handed over is the translation of the upstream answer the conversation is extended by; a usable answer, stored and delivered, is handed over; it stays pending unless delivered; session, agent and attempt are noted, only its own conversation moves, and a refused request leaves everything |
| `Conversations.Bridge.Restart` | spikes/messages_responses/bridge.py:367-375 | starting again is refused while an operation is unaccounted for |
| `Usage.PercentIsExact` | src/usage.rs:260-302 | an accepted unsigned decimal is exhausted exactly when its exact value is at least one hundred |
| `Usage.DecimalMeans` | src/usage.rs:260-286 | a text is taken, as it stands, exactly when it is digits, perhaps with a point and more digits, at most 64 characters in all, and a sign only where one is allowed |
| `Usage.Merge` | src/usage.rs:304-320 | exhausted if any is, available if there is one and all are, unknown otherwise |
| `Usage.MergedIgnoresOrder` | src/usage.rs:304-320 | the merged status depends only on the multiset of statuses |
| `Usage.CodexBucket` | src/usage.rs:382-428 | the loop over windows and the flags give the bucket's status |
| `Usage.BucketMeans` | src/usage.rs:382-428 | an allowance is exhausted iff it says so or a window is spent; available iff allowed, not reached, and every one of its windows is known open |
| `Usage.Glm` | src/usage.rs:430-514 | the loop over limit rows gives the merged evidence |
| `Usage.GlmMeans` | src/usage.rs:430-514 | exhausted iff some token row is used up by count or percentage; available iff there is a row that counts and each has some left |
| `Managed.FreshThroughout` | src/managed.rs:190-204 | a credential fresh at the end of its caching span is fresh throughout it |
| `Managed.ManagedInventory.DisableCredential` | src/managed.rs:138-160 | exactly the accounts sharing the credential that were reached before the deadline are forgotten as enrolled, and those of them the ledger did not refuse are disabled; the credential is fenced exactly when the rest were out of service already |
| `Managed.CancelledFence` | src/managed.rs:124-160 | disabling only some aliases of a failed credential, cut off or refused for the rest, fences it exactly when the others were out of service already |
| `Managed.CancelledTooEarly` | src/managed.rs:124-160 | with two enabled aliases, cut off after the first, the fence does not hold |
| `Managed.ManagedInventory.ResolveCredential` | src/managed.rs:162-237 | an entry still fresh answers; otherwise the credential is accepted exactly when it was resolved and loaded and, for Codex, is the expected account's and outlives its window, and is remembered for half a minute or only now; a Codex one accepted expires strictly later than its window by the bundle it was judged by; a refused one is fenced exactly when the aliases that could not be disabled were out of service already |
| `Managed.ManagedInventory.Validate` | src/managed.rs:178-216 | a Codex credential is accepted only as resolved, by the bundle loaded for it, of the expected account, unexpired now and for as long as the result may be cached |
| `Managed.ManagedInventory.SaveObservation` | src/managed.rs:371-385 | evidence that is not newer is refused unless it is the one on record |
| `Managed.ManagedInventory.SyncAccount` | src/managed.rs:239-369 | an account brought up to date is in service as enrolled, under its own limits and the accepted credential, which outlives the refresh window now; no failed credential keeps an account in service while the ledger answers in time, no other credential or owner is touched, and a recorded provider failure is never replaced by the unknown |
| `Pools.SelectPool` | src/http.rs:631-667 | a pool and product are chosen exactly when they are the only ones offered; none and several are told apart |
| `Pools.OneReasonForAll` | src/storage.rs:279-323 | without a pin a specific reason is given exactly when some account has it and every other matching account shares it |

## Left out

- SQLite, WAL, busy timeouts, readiness probes: each ledger call is one atomic transaction. In the
  step relation it may be refused or its answer lost; the methods of `Ledger.SqliteLedger` always commit.
- Error messages: only codes, bindings, attempts, request state and exclusions are kept.
- Identifiers are ordered naturals and generations are unbounded in the ledger; the 64-bit limit is modelled
  where the code checks it (vault generations, usage arithmetic, credential expiry).
- UUID generation: the identifier drawn is a parameter, and a collision fails the insert.
- Paging queries (`attempts`, `bindings`): the pool filter runs after a page is cut, so no claim is made
  that paging until an empty page sees every row; plain listings would only add easy members.
- Router.ExecuteInner: does not model other executions between its steps, because `System` does; it shows the protocol's own
  control flow with every reply storage can give, except that the dropped guard's settlement is answered.
- `validate_body` and `has_remote_reference`: the parsed model and effort are inputs.
- HTTP routing, headers, TLS, bearer grants, response rendering, content-type checks before the parser starts.
- JSON, base64, JWT and UTF-8 decoding: functions supplied by the environment; digests stand for what they hash.
- A credential bundle that does not parse, and an awaited operation of a refresh that fails, are given one error
  code each; the claims a bundle is checked against when parsed are part of parsing.
- Subprocess launch, private directories and output limits of the vault's command line.
- That a generation has one value for ever is the vault's own promise: `Vault.OnePasswordStore.Load` and `Latest` return
  that value if the vault keeps it, and in any case one the vault held at that generation.
- The checks `OnePasswordStore::new` makes on its mappings; `Vault.ReplaceRefines` asks for one credential per item.
- Managed.ManagedInventory.SyncAccount: does not model a ledger that refuses its policy, account or evidence writes, nor
  a deadline that passes during them, because neither can break a fence; both are modelled while a failed credential's
  accounts are being disabled, where they can.
- `sync_all` and `prepare`, which visit accounts with `SyncAccount`, and provider-specific evidence kept beside a status.
- The outgoing request's JSON: the model stops at its profile, instructions, items, tools, choice and cache key.
- The bridge's cache-marker stripping, metadata field checks and unsupported-field checks: bodies arrive parsed.
- HTTP plumbing, the request queue and the private files of the bridge; a save of its journal may fail,
  or succeed without being noticed.
- The subscription parser's spend-control and per-model overrides, and the prepaid balance parser.
- Startup wiring, demo seeding, native probes and fixtures.
