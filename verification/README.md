# Verified model of the VettID agent connector

The connector keeps an agent's grants from its owner's vault, shows them to
relying parties, and reads items through the vault after the owner's approval on
a phone. This project models the parts of it where many things can go wrong at
once, and proves what they keep:

- **Grants** (`Grants`, `LeashSpec`, `LeashInvariants`, `LeashOrder`,
  `LeashManager`): the manager of `internal/leash` as locked regions on values,
  its invariants over every run and every order of messages, and a class whose
  methods are those regions. `List`, `Refresh` and `Present` run any regions of
  the other goroutines wherever the lock is free: before a request is sent,
  while it is out, and after its answer until the caller leaves.
- **Protocol** (`Protocol`, `ProtocolProofs`, `ProtocolTheorems`,
  `ProtocolSessions`, `PersistRefines`): the vault as a growing sequence of
  snapshots, a mailbox that reorders, repeats and loses, the disk, and processes
  that crash at any step.
- **Connection** (`VaultConn`): requests, responses and `Run`.
- **State file** (`StateSpec`, `StateStore`, `StateProofs`), **pairing**
  (`Pairing`), **Keychain protector** (`Keychain`).
- **Requests** (`Requests`) and **access policy** (`AccessPolicy`).
- **Bytes**: hand-written JSON (`Encode`, `ToolResult`) and a reader of JSON's
  tokens, the token bucket over real numbers and over rounded ones (`RateLimit`,
  `Floats`), length-prefixed framings (`Framing`).

Objects the program updates in place are classes here; each method's contract
ties its new state to a function or a relation, about which the lemmas speak.
Cryptography is ideal: a signature names its signer and what it signs, a sealed
value opens only under its key, nonce and associated data.

## Where a promise does not hold as stated

Each is proved with the exact condition under which it does hold.

- A grant without a delegation whose `status_ttl` overflows 64 bits is accepted
  with a fraction of a second, and is read back from the state file as another
  one (`Grants.WireOverflowExample`); the saved form reproduces a grant exactly
  when its lifetime is whole seconds (`Grants.SavedRoundTrip`).
- `List` returning nil says that the list it sent was confirmed, not that the
  grants are listed when it returns: the lock is free before it clears `listing`.
  They still are, and no list is wanted, exactly if nothing that unlists them or
  wants a list ran there (`LeashManager.Manager.List`,
  `LeashOrder.AfterConfirmed`); an update or a session start there does
  (`LeashOrder.NilOvertaken`).
- What is listed need not come from a list sent in the session now active. That
  session is the one held when the list was sent exactly if none was collected or
  found by a probe since, or the last one given since is that same session, as
  when its grant is collected again (`ProtocolSessions.ListedInSession`). A
  session granted while an earlier one was held fails it until its batch reaches
  the grants (`GrantedBeforeApplied`), and, applied between a list's sending and
  its answer, beyond that (`AnsweredAfterGrant`); both from any start
  (`EarlyGrantRun`, `LateGrantRun`). A session is what the connector holds of it:
  one that a probe found has no id, and may be the one the vault answered in.
- Once `removeFiles` succeeded, a crash can bring a name back exactly if no file
  was there before and a directory flush had failed for good on POSIX
  (`StateProofs.ClearedExactly`). A `Wipe` that returns nil is never in that case
  (`StateProofs.NilWipeLasts`); a `WipeAll` called again after its flush failed
  is, and returns nil (`StateProofs.RetriedWipeAll`); what comes back there is zeros.
- The Keychain protector's `Wipe` is all or nothing for the state file's item
  exactly when that item is the key in use or is not among the others; after
  wrapping twice and opening the first again it is not
  (`Keychain.AllOrNothingExactly`, `Keychain.ReopenedItemIsNotInUse`). Its
  header comment says "the newest item this instance wrapped or unwrapped"; the
  code takes the one first remembered last. A failed replacement that says the
  earlier pairing was kept is right if this process opened that file; if it only
  read its header, exactly when the file's item is the newest listed or not
  listed (`Keychain.ReplacementKeeps`).
- At most six access requests fall in any hour exactly when the clock is read
  under the lock; `Ensure` reads it before
  (`AccessPolicy.SixInAnyHourExactly`).
- A tool call answered while `Close` is dropping results gets neither a result
  nor an error (`Requests.NilOnlyAfterClose`, `Requests.NilAfterClose`); the tool
  layer answers that with an error of its own.
- A refused caller that waits exactly as long as it was told can be refused
  again. Over the reals it is admitted exactly when that wait lost no fraction of
  a nanosecond (`RateLimit.RetryAfterWait`), which at the server's two tokens a
  second is always (`RateLimit.DefaultNeverTooShort`). In the program's doubles
  it is refused at that rate too (`RateLimit.ToldTooShortInDoubles`); it is
  admitted exactly when what the refill adds up to is at most 2^-54 below one
  (`RateLimit.RetryInDoublesExactly`), and one nanosecond later always
  (`RateLimit.RetryOneLater`); with any rounding within half a unit in the last
  place, two nanoseconds later (`RateLimit.RetryTwoLater`).

## Model

| member | source | states |
|---|---|---|
| `Grants.WireReproduces` | internal/leash/grant.go:108-213 | a grant parseGrant accepted is accepted again from its saved form, as the same grant, exactly when its status lifetime is a whole number of seconds |
| `Grants.WireReads` | internal/leash/grant.go:108-213 | the saved form of an accepted grant is always accepted, as the same grant with its lifetime cut to whole seconds |
| `Grants.WireReproducesInRange` | internal/leash/grant.go:108-160 | the wire value decides it: no overflow in 64 bits means the same grant comes back |
| `Grants.WireOverflowExample` | internal/leash/grant.go:108-160 | a status_ttl whose 64-bit product wraps is accepted and reads back as 60 s |
| `Grants.CheckGrant` | internal/leash/grant.go:108-180 | the checks in their order accept exactly what ParseGrant, which the lemmas are about, accepts |
| `Grants.CheckStatement` | internal/leash/grant.go:241-265 | accepts exactly a current statement over this very delegation, under its issuer's key after the rotations |
| `Grants.Checked` | internal/leash/grant.go:241-265 | what is accepted proves the grant's delegation and is current at the time |
| `Grants.EncodeSaved` | internal/leash/saved.go:37-50 | the saved member holds every grant's wire form in order |
| `Grants.DecodeSaved` | internal/leash/saved.go:52-84 | all grants of a member or none: version, time, count, each parsed, no id twice, sorted |
| `Grants.DecodeFacts` | internal/leash/saved.go:52-84 | what is read back is dated, within bounds, sorted, and each grant is one the vault could have sent |
| `Grants.SavedRoundTrip` | internal/leash/saved.go:37-84 | reading back what was saved gives the same grants cut to whole seconds, the same suspension and time; so the same member exactly when every lifetime is whole seconds |
| `LeashSpec.IncomingFacts` | internal/leash/leash.go:316-359 | a set's grants are distinct, for this agent, at most as many as its items, each parsed from the item kept for its id |
| `LeashInvariants.InvStep` | internal/leash/leash.go:278-692 | every locked region keeps: grants sorted, distinct and for this key; each statement proves the held grant of its id; suspended means no statements; a dead id has none; at most one list outstanding |
| `LeashInvariants.InvRun` | internal/leash/leash.go:278-692 | so does every run from a state that keeps it |
| `LeashInvariants.InvBound` | internal/leash/leash.go:218-246 | a process keeps it from the start, whatever member was saved |
| `LeashInvariants.PresentedIsProven` | internal/leash/leash.go:708-740 | in such a state, what is presentable and usable is a current, unexpired, not-dead grant for this key, signed, with a time-current statement over that delegation, in an active session, listed and not suspended |
| `LeashInvariants.AgentIsGenuine` | internal/leash/grant.go:108-180 | what any connector parses with a delegation is signed as it says, which the theorems about an agent's runs ask for |
| `LeashOrder.OnlyFullAnswersWiden` | internal/leash/leash.go:278-420 | a new grant or version, the end of a suspension or of a refusal comes only with the full answer to a list with nothing learned since it was sent |
| `LeashOrder.GenMovesOnLearning` | internal/leash/leash.go:278-390 | gen moves exactly on an update, an effective narrowing, not_found and forbidden, and only up |
| `LeashOrder.TakenAwayIsLearned` | internal/leash/leash.go:278-420 | nothing is taken away without gen moving, but by such an answer |
| `LeashOrder.UndoneOnlyByLaterList` | internal/leash/leash.go:278-302 | in every run, what was learned at one event is undone later only by the full answer to a list sent between the two |
| `LeashOrder.NilMeansConfirmed` | internal/leash/leash.go:524-587 | when a list's turn ends in nil, its answer was applied in full, once, with no older version in it, and no other grant set, session start, not_found or forbidden came since it was sent |
| `LeashOrder.AfterConfirmed` | internal/leash/leash.go:480-522 | from a confirmed list on, after any events: still listed exactly if none unlisted, and no list wanted exactly if none wanted one |
| `LeashOrder.NilOvertaken` | internal/leash/leash.go:504-522 | an update, or a session start, before the lister leaves: nil is returned with a list wanted, or with nothing listed |
| `LeashOrder.ListedExactlySince` | internal/leash/leash.go:278-420 | listed holds exactly when a full answer came and no session start or end, unreadable set or session_required since |
| `LeashOrder.BeforeAnyList` | internal/leash/leash.go:278-302 | before a process sends a list, whatever it collects only narrows what it started with |
| `LeashManager.ParseItems` | internal/leash/leash.go:325-346 | the loop over a set's items: what parses, how often each id occurs, its last wire form |
| `LeashManager.KeepConfirmed` | internal/leash/leash.go:361-371 | the narrowing loop keeps exactly the grants confirmed in their version and drops the others' statements |
| `LeashManager.DropOlder` | internal/leash/leash.go:387-395 | drops exactly the grants older than those held, and says whether it did |
| `LeashManager.SentStatements` | internal/leash/leash.go:400-413 | keeps exactly the statements sent with the grants that check |
| `LeashManager.Manager.constructor` | internal/leash/leash.go:199-246 | New and Bind: the saved grants of this key, or none if the member cannot be read |
| `LeashManager.Manager.ApplySet` | internal/leash/leash.go:316-420 | the whole new state in both modes, and for a set that does not parse |
| `LeashManager.Manager.Apply` | internal/leash/leash.go:278-302 | a batch is its messages' regions one after the other |
| `LeashManager.Manager.Snapshot` | internal/leash/leash.go:424-435 | the saved form of what is held, or the member the process started with |
| `LeashManager.Manager.EndList` | internal/leash/leash.go:538-587 | the new state and the outcome for every way a list's request can end |
| `LeashManager.Manager.ListOnce` | internal/leash/leash.go:524-587 | whatever ran before the list was sent and until its answer was taken: nil only if that answer was applied in full and undisturbed |
| `LeashManager.Manager.List` | internal/leash/leash.go:480-522 | at most three lists; nil to the lister only if the last was confirmed so; at its return that still holds exactly if no region that ran before it left undid it; nil to a waiter only if listed and none wanted |
| `LeashManager.Manager.EndRefresh` | internal/leash/leash.go:620-692 | the new state and the outcome for every answer to a status request |
| `LeashManager.Manager.Refresh` | internal/leash/leash.go:605-692 | a run in which the asking region is followed by the answering one, whatever comes before and between; the outcome is the last region's |
| `LeashManager.Manager.Present` | internal/leash/leash.go:751-791 | whatever it meets on its way, what it returns is presentable and proven in the state, time and session of its last region; what is presentable and needs no refresh is returned at once |
| `LeashManager.Manager.FindDue` | internal/leash/leash.go:848-873 | the watched grants whose statement is due, exactly, and a time no later than any other becomes due |
| `LeashManager.Manager.BackgroundStep` | internal/leash/leash.go:819-885 | lists exactly when awake, wanted and not before its time; refreshes exactly what is due; otherwise looks again before anything is |
| `LeashManager.ComputeBackoff` | internal/leash/leash.go:595-601 | base doubled n-1 times, at most the limit |
| `ProtocolProofs.UpdateFresh` | internal/leash/leash.go:361-386 | after an update only grants its snapshot has in the same version are left, and a suspension in it holds |
| `ProtocolProofs.AnswerFresh` | internal/leash/leash.go:388-420 | after a full answer everything held is in its snapshot |
| `ProtocolProofs.RunKeeps` | internal/vaultconn/vaultconn.go:337-396 | every run with any deliveries, failed saves, crashes and restarts keeps the invariant that ties manager, disk and vault |
| `ProtocolTheorems.Freshness` | internal/leash/leash.go:278-420 | in every such run, while listed, all grants held are in one vault snapshot at least as new as every update any process applied, and the agent is not resumed against it |
| `ProtocolTheorems.PresentsFresh` | internal/leash/leash.go:708-729 | so is every grant found presentable |
| `ProtocolTheorems.CrashSafety` | internal/vaultconn/vaultconn.go:337-396 | at any step a new process would read from the disk grants and a session that reflect everything acknowledged |
| `ProtocolTheorems.ReappliedOnlyNarrows` | internal/leash/leash.go:273-302 | a batch applied again after a restart only narrows, and lists nothing |
| `ProtocolTheorems.RestartRestores` | internal/leash/leash.go:218-246 | a process started from Snapshot's member has the same suspension and time, and the same grants cut to whole seconds; the same exactly when all lifetimes are |
| `ProtocolSessions.ListedInSession` | internal/leash/leash.go:166-168 | in every run, what is listed was brought by one list; a session active now is the one held when it was sent exactly if none was collected or found by a probe since, or the last one given since is that same session |
| `ProtocolSessions.GrantedBeforeApplied` | internal/vaultconn/vaultconn.go:367-381 | after any run that lists, a session collected in a batch is held with what was listed from a list sent in another, exactly if it is not the session that list was sent in |
| `ProtocolSessions.AnsweredAfterGrant` | internal/leash/leash.go:388-420 | so is a session granted and applied between a list's sending and its answer, exactly if it is not the one the list was sent in |
| `ProtocolSessions.EarlyGrantRun` | internal/vaultconn/vaultconn.go:367-381 | from any start, with any session held, a run in which the first happens |
| `ProtocolSessions.LateGrantRun` | internal/leash/leash.go:388-420 | and one in which the second does |
| `PersistRefines.PersistMakesTheMoves` | internal/vaultconn/vaultconn.go:367-396 | what persist applies and saves is a run of the protocol's moves and the record they make |
| `VaultConn.DispatchKeeps` | internal/vaultconn/vaultconn.go:593-611 | a response goes to the latest call under its id, once, and changes nothing already sent |
| `VaultConn.AnsweredExactly` | internal/vaultconn/vaultconn.go:593-611 | a waiting call gets a result from a batch exactly when a response to its id is in it, and otherwise still waits |
| `VaultConn.TookKeeps` | internal/vaultconn/vaultconn.go:549-580 | a call taken waits, or has one result; a call superseded under its id gets that result and no other |
| `VaultConn.AllFailedKeeps` | internal/vaultconn/vaultconn.go:541-546 | every waiting call gets one result and none is left waiting |
| `VaultConn.AccessIdempotent` | internal/vaultconn/vaultconn.go:289-312 | a batch applied again gives the same session |
| `VaultConn.Conn.CompareAndSetAccess` | internal/vaultconn/vaultconn.go:276-287 | replaces the session exactly if it is still the one named |
| `VaultConn.Conn.ApplyAccess` | internal/vaultconn/vaultconn.go:293-312 | the session after the batch's grants and ends, in order |
| `VaultConn.Conn.Persist` | internal/vaultconn/vaultconn.go:337-396 | nil only once a record with the batch's session and grants is written, or the state is wiped on device.unlinked |
| `VaultConn.AgentCanWrite` | internal/leash/grant.go:182-213 | every grant a connector parses has a lifetime that Snapshot can write |
| `VaultConn.Conn.Deliver` | internal/vaultconn/vaultconn.go:541-611 | every send on a call's one-slot channel finds it empty |
| `VaultConn.Conn.FailPending` | internal/vaultconn/vaultconn.go:541-546 | the loop gives each waiting call the error |
| `VaultConn.Conn.TakeCalls` | internal/vaultconn/vaultconn.go:549-580 | each request in turn: given up, refused, not sent, or sent and waiting |
| `VaultConn.Conn.SendStatus` | internal/vaultconn/vaultconn.go:514-529 | the pause after a failed vault.status doubles up to five minutes |
| `VaultConn.Conn.Collect` | internal/vaultconn/vaultconn.go:584-618 | the calls after a batch's responses; every result it brings is a response in it, for the latest call deposited under that id |
| `VaultConn.Conn.TakeTurn` | internal/vaultconn/vaultconn.go:428-480 | a turn of Run: the calls after its sends and its collect, when vault.status is due next, when it counts toward the end after a refusal, and why Run ends with it |
| `VaultConn.Conn.Run` | internal/vaultconn/vaultconn.go:416-481 | for the trace of its turns: when it ends no call waits, each got a result or its caller gave up; it ends with the first turn that ends it, for that turn's reason; from the turn in which the relay refused on it takes at most five |
| `StateStore.Store.Open` | internal/state/state.go:162-187 | opened only once no temporary file of an earlier crash is left; the state file is untouched |
| `StateStore.Store.WriteAtomic` | internal/state/state.go:681-714 | a crash at any step leaves what was there or the whole new file; failed, nothing changed; nil, only the new file is left by a crash |
| `StateStore.Store.Save` | internal/state/state.go:438-459 | the new state under the same data key, or nothing changed |
| `StateStore.Store.Create` | internal/state/state.go:245-260 | only where there is no file; under a data key that no file and no Store had, and the Store holds it only if the file is in place |
| `StateStore.Store.Load` | internal/state/state.go:467-485 | the state only if the file opens under the resolver's protector, and the error the bytes decide otherwise |
| `StateStore.Store.RetryDurable` | internal/state/state.go:391-400 | success means the name survives a crash, which is why a failed fsync is not retried on POSIX |
| `StateStore.Store.CreateReplace` | internal/state/state.go:287-379 | where each error leaves file, key and Store; where the old file is held open, every crash leaves what was there or a whole new file that unwraps |
| `StateStore.Store.PutInPlace` | internal/state/state.go:338-379 | the old bytes are overwritten only once the new name is flushed |
| `StateStore.Store.RemoveFiles` | internal/state/state.go:626-638 | success means no file and no temporary file, and zeros, flushed, where they were; no crash brings the name back but in the one case StateProofs.ClearedExactly names |
| `StateStore.Store.Wipe` | internal/state/state.go:528-553 | nil only if the key, the file and the temporary files are gone; a failure left everything as it was or comes after the key is gone; ErrProtectorUnknown left every key, with the files gone or the error saying so |
| `StateStore.Store.WipeAll` | internal/state/state.go:562-578 | each protector asked: the keys of those that did not fail are gone, all others untouched; the files removed whatever they answered; nil exactly if none failed and all files are gone |
| `StateProofs.KeyOpensLast` | internal/state/state.go:245-578 | after any sequence of operations with any failures, a Store that holds a data key has a file at the path that opens under it to the last state put in place |
| `StateProofs.ReopensToLast` | internal/state/state.go:467-485 | and a new process loads that state |
| `StateProofs.CutSaveLoads` | internal/state/state.go:681-714 | a Save of a durable state cut anywhere leaves a whole file that loads to the old or the new state |
| `StateProofs.WatchedSave` | internal/state/state.go:438-459 | so of the Save itself: whatever a crash at any of its steps would leave loads to the old or the new state |
| `StateProofs.WatchedCreate` | internal/state/state.go:245-260 | whatever a crash during Create would leave is what was there before or loads to the new state in a new process |
| `StateProofs.WatchedReplace` | internal/state/state.go:287-379 | so during CreateReplace where the old file is held open |
| `StateProofs.ReplaceErrorsTell` | internal/state/state.go:262-286 | without a sentinel the old state still loads; ErrReplaceIncomplete: the Store holds no key and a protector with a key of its own opens the old bytes no more; otherwise the new state loads |
| `StateProofs.WipedIsGone` | internal/state/state.go:499-527 | after nil no copy of the file opens under a protector with a key of its own |
| `StateProofs.ClearedExactly` | internal/state/state.go:626-638 | a crash after the files were removed leaves nothing at the path, exactly unless the file was gone before and a flush had failed for good |
| `StateProofs.NilWipeLasts` | internal/state/state.go:528-553 | after any sequence of operations and a Wipe that returned nil no crash brings the file back |
| `StateProofs.RetriedWipeAll` | internal/state/state.go:555-578 | a WipeAll called again after its flush failed for good returns nil, and a crash may bring the zeroed file back |
| `Pairing.Run.Say` | internal/pairing/pair.go:240-252 | nothing is shown that is not so: "kept" over an intact file and keys, "discarded" over a new file, the SAS over a durable waiting record, "paired" over a paired one |
| `Pairing.Run.LoadExisting` | internal/pairing/pair.go:257-297 | a waiting record within its time to resume, a pairing over an intact state, or an error that left it intact or wiped it |
| `Pairing.Run.WriteOver` | internal/pairing/pair.go:537-554 | without the sentinels of a replaced or maybe lost state, the earlier one is intact |
| `Pairing.Run.WriteFirst` | internal/pairing/pair.go:531-575 | this run's record is in place when nil or not flushed; otherwise there is no file, or the earlier one, and as it was unless its loss is remembered |
| `Pairing.Run.Save` | internal/pairing/pair.go:509-527 | nil only if the record is in place and survives a crash |
| `Pairing.Run.FailWipe` | internal/pairing/pair.go:580-589 | nothing of this run's state is left, or the error says so |
| `Pairing.Run.Persist` | internal/pairing/pair.go:364-399 | in the handshake and while waiting, the file stays a record of the phase so far or a paired one; persistedPaired only over a paired one |
| `Pairing.Run.Wait` | internal/pairing/pair.go:467-504 | nil over a paired record, interrupted over one that can be resumed, otherwise nothing left or said so |
| `Pairing.Run.Handshake` | internal/pairing/pair.go:431-464 | whatever batches the client's handshake has persisted, the SAS is shown only after the waiting record was saved durably |
| `Pairing.Run.Resume` | internal/pairing/pair.go:300-323 | a wait taken up again ends over a paired record, over one that can be resumed, with no file, with the earlier state as it was, or saying what is left |
| `Pairing.Run.Pair` | internal/pairing/pair.go:216-253 | what each outcome leaves, over every choice of failing step; a pairing that fails before it replaced the earlier state ends with "kept" or "may be gone", whichever is so |
| `Keychain.WipeKeepsInUse` | internal/protect/keychain.go:362-415 | failed: the key in use is as it was; succeeded: nothing listed or remembered is left |
| `Keychain.NewestListed` | internal/protect/keychain.go:378-388 | for an instance that opened nothing, the key in use is a listed item and none is newer |
| `Keychain.AllOrNothingExactly` | internal/state/state.go:56-65 | whatever deletion fails, an error leaves item f, exactly when f is the key in use or neither listed nor remembered |
| `Keychain.ReplacementKeeps` | internal/state/state.go:56-65 | so a failed replacement keeps the earlier file's key: always if this process opened it; if it read only its header, exactly when its item is the newest listed or not listed |
| `Keychain.ReopenedItemIsNotInUse` | internal/protect/keychain.go:261-268 | wrapped under 1, under 2, opened 1 again: 2 is taken for the key in use and a failing Wipe has deleted 1 |
| `Keychain.LastRememberedIsInUse` | internal/protect/keychain.go:261-268 | a name becomes the key in use exactly when it was not remembered before, or was last |
| `Keychain.Protector.Wrap` | internal/protect/keychain.go:271-319 | a blob that unwraps to the key, under a new item, or nothing remembered |
| `Keychain.Protector.Unwrap` | internal/protect/keychain.go:323-355 | only what the item opens; a retagged item opens the same |
| `Keychain.Protector.Wipe` | internal/protect/keychain.go:362-415 | the items left, for every set of items the Keychain does not delete |
| `Requests.StepKeeps` | internal/leash/request/request.go:402-826 | every locked region keeps: each result is with one live entry or gone, and what is in flight or kept is at most MaxPending |
| `Requests.NeverTooMany` | internal/leash/request/request.go:322-333 | at most MaxPending in every run, and none once Close returned |
| `Requests.FateIsFinal` | internal/leash/request/request.go:537-555 | a result leaves its entry once, to its caller or zeroed, and it is returned exactly when a step gives it |
| `Requests.GivenOnce` | internal/leash/request/request.go:483-518 | no result is given twice in any run |
| `Requests.CopiesBounded` | internal/leash/request/request.go:634-681 | no copy is sent after an answer; the loop's own bound of three is Requests.RunLoop |
| `Requests.NilOnlyAfterClose` | internal/leash/request/request.go:451-456 | an answered tool call gets no result exactly when Close had dropped it |
| `Requests.NilAfterClose` | internal/leash/request/request.go:451-456 | a run in which that happens |
| `Requests.DeadlineGrows` | internal/leash/request/request.go:686-696 | no approval.waiting event, however often or in what order, moves an attempt's deadline earlier |
| `Requests.ExpIsLatest` | internal/leash/request/request.go:595-628 | the end waited for is the latest of the events' ends, each at most six minutes after its receipt |
| `Requests.OrderDoesNotMatter` | internal/leash/request/request.go:589-594 | the same events in any order give the same end |
| `Requests.Client.AttemptDeadline` | internal/leash/request/request.go:686-696 | the attempt's own end or, if later, the held request's and its grace |
| `Requests.RunLoop` | internal/leash/request/request.go:634-681 | one to three copies; those before the last got no answer; the outcome is what the last one's end says |
| `Requests.Client.HeldLocked` | internal/leash/request/request.go:511-519 | counts exactly the requests in flight and the results kept |
| `Requests.Client.Insert` | internal/leash/request/request.go:429-444 | starts a request, or refuses it when closed, canceled or full |
| `Requests.Client.EndCall` | internal/leash/request/request.go:451-469 | takes the outcome, hands out the id, or abandons the request |
| `Requests.Client.CheckStatus` | internal/leash/request/request.go:483-507 | the result once, the error until dropped, or still pending |
| `Requests.Client.OnWaiting` | internal/leash/request/request.go:595-628 | moves the entry's end only later, and nothing of one done or unknown |
| `Requests.Client.EndCopy` | internal/leash/request/request.go:802-815 | finish: kept for its caller, scheduled for Status, or zeroed |
| `Requests.Client.EndClose` | internal/leash/request/request.go:322-333 | every kept result zeroed and every entry dropped |
| `AccessPolicy.SixPerHour` | internal/access/access.go:305-336 | in every run at most six requests fall in any window of an hour less the clock's lag |
| `AccessPolicy.SixInAnyHourExactly` | internal/access/access.go:248-336 | whatever the lag, no hour ever holds seven exactly when it is zero |
| `AccessPolicy.OneInFlight` | internal/access/access.go:281-356 | at most one request is on its way |
| `AccessPolicy.QuietGrows` | internal/access/access.go:272-433 | quietUntil and allowedAfter never move back, and quietUntil is at most ten minutes ahead |
| `AccessPolicy.NothingSentBefore` | internal/access/access.go:281-433 | nothing is sent before a time Ensure answered with, ten minutes after a denial or an end in the app, or a reported allowed_after |
| `AccessPolicy.SendsOnlyWhenIdle` | internal/access/access.go:248-322 | a request is sent only without a session, not held, none on its way and none unanswered |
| `AccessPolicy.Manager.Ensure` | internal/access/access.go:248-322 | the answer and the new state of the region under the lock |
| `AccessPolicy.Manager.PruneSent` | internal/access/access.go:333-339 | drops exactly the leading times an hour old or more |
| `AccessPolicy.Manager.TakeAnswer` | internal/access/access.go:342-393 | the new state for every answer to a session request |
| `AccessPolicy.Manager.Take` | internal/access/access.go:400-441 | the new state for a session's grant, denial, end, and for the owner check |
| `Encode.QuotedRoundTrip` | internal/mcp/encode.go:18-53 | the output is valid UTF-8; decoding it by section 7 of RFC 8259 gives the input with invalid bytes replaced, and the input itself exactly when it is valid UTF-8 |
| `Encode.QuotedOneLine` | internal/mcp/encode.go:18-56 | no control character, no line or paragraph separator, and at most 6n+2 bytes, for every input |
| `Encode.AppendQuoted` | internal/mcp/encode.go:18-53 | the loop appends exactly the quoted form |
| `Encode.AppendCompact` | internal/mcp/encode.go:63-104 | the loop appends exactly the compact form |
| `Encode.CompactKeepsJson` | internal/mcp/encode.go:57-104 | bytes that read as a JSON value read as the same value after compacting: every token in its place, every string with its value, surrogate pairs, halves of pairs and invalid bytes included |
| `Encode.CompactKeepsTokens` | internal/mcp/encode.go:57-104 | any document whose tokens can be read has the same tokens after compacting exactly when no two words stand next to each other in it |
| `Encode.CompactIsValid` | internal/mcp/encode.go:57-104 | what is written of such a document is valid UTF-8, whatever bytes its strings hold |
| `Encode.CompactIdempotent` | internal/mcp/encode.go:63-104 | compacting what is compact changes nothing, for any bytes |
| `Encode.CompactOneLine` | internal/mcp/encode.go:57-104 | the output is one line exactly when no string holds a raw line break |
| `Encode.CompactBounded` | internal/mcp/encode.go:106-108 | at most 6n bytes |
| `ToolResult.ItemFits` | internal/mcp/tools.go:343-389 | for every item its JSON fits what is allocated for it |
| `ToolResult.WriteItem` | internal/mcp/tools.go:358-389 | writes that JSON, within that capacity |
| `ToolResult.ItemIsRead` | internal/mcp/tools.go:358-389 | for every item whose values and notes are JSON, what is written reads as the JSON value with the item's texts, its fields in order, and those values |
| `ToolResult.ComputeItemSize` | internal/mcp/tools.go:346-353 | the loop computes that capacity |
| `ToolResult.UseFits` | internal/mcp/tools.go:391-396 | so for item.use |
| `ToolResult.WriteUse` | internal/mcp/tools.go:400-411 | writes item.use's JSON, within its capacity |
| `ToolResult.UseIsRead` | internal/mcp/tools.go:400-411 | item.use's result reads as its texts and the base64 text |
| `ToolResult.MessageFits` | internal/mcp/server.go:530-542 | the message never outgrows the slice |
| `ToolResult.WriteToolResult` | internal/mcp/server.go:549-566 | writes the message's parts in order from one buffer and leaves it zeroed |
| `RateLimit.TokensBounded` | internal/mcp/ratelimit.go:33-46 | tokens stay between zero and burst |
| `RateLimit.WindowBound` | internal/mcp/ratelimit.go:33-46 | any window admits at most burst and what its length earns |
| `RateLimit.RetryAfterWait` | internal/mcp/ratelimit.go:41-46 | over the reals, a retry after exactly the reported wait is admitted exactly when it lost no fraction; one nanosecond later always |
| `RateLimit.ToldTooShort` | internal/mcp/ratelimit.go:41-46 | over the reals, at three tokens a second it is told too short |
| `RateLimit.DefaultNeverTooShort` | internal/mcp/ratelimit.go:12-46 | over the reals, at the server's rate it never is |
| `RateLimit.RetryTwoLater` | internal/mcp/ratelimit.go:33-46 | with any rounding within half a unit in the last place, at the server's rate a retry two nanoseconds after the reported wait is always admitted |
| `RateLimit.ToldTooShortInDoubles` | internal/mcp/ratelimit.go:12-46 | in doubles, at the server's rate: a caller refused 410048377 ns after the bucket was emptied is told 89951622 ns and refused again then |
| `RateLimit.RetryInDoublesExactly` | internal/mcp/ratelimit.go:33-46 | in doubles a retry is admitted exactly when the tokens left and the tokens earned add up to at most 2^-54 less than one |
| `RateLimit.RetryOneLater` | internal/mcp/ratelimit.go:33-46 | in doubles, at the server's rate, one nanosecond after the reported wait is always enough |
| `Floats.DoubleIsToNearest` | internal/mcp/ratelimit.go:33-46 | what is used of Go's float64: rounding passes no double and no whole number, gives doubles, and is off by at most half of 2^-53 below one |
| `RateLimit.Limiter.Take` | internal/mcp/ratelimit.go:33-46 | the new state, whether a token was there, and the wait |
| `Framing.SplitExactly` | internal/state/format.go:137-186 | a file splits into a header and a ciphertext exactly when it is their encoding with nothing after it |
| `Framing.FileExactly` | internal/state/format.go:105-225 | a file opens to a header, key and plaintext exactly when the protector unwraps that key and the file is byte for byte what encodeFile writes of the three |
| `Framing.OneFileEach` | internal/state/format.go:24-34 | so what a file opens to decides every byte of it |
| `Framing.LayoutExactly` | internal/protect/dpapi_blob.go:152-246 | a cursor over any layout accepts exactly the layout of its values, every byte consumed |
| `Framing.MoveCursor` | internal/protect/dpapi_blob.go:152-246 | the cursor's loop |
| `Framing.TPMExactly` | internal/protect/tpm.go:354-389 | three parts are read exactly from their encoding |
| `Framing.EncodeTPMBlob` | internal/protect/tpm.go:354-365 | writes that encoding |
| `Framing.DecodeTPMBlob` | internal/protect/tpm.go:367-389 | the parts of an encoding, and none only if the blob is no encoding |
| `Framing.DPAPIExactly` | internal/protect/dpapi_blob.go:135-246 | accepted exactly the blobs of the field layout after the version byte |
| `Framing.DecodeDPAPIBlob` | internal/protect/dpapi_blob.go:135-246 | the values of that layout, read by the cursor |
| `Framing.PlaintextExactly` | internal/protect/dpapi_blob.go:250-278 | a key is returned exactly from its own plaintext |

## Left out

- The imported vault client, relay client and `leashwire` verifier are not part of this model; their bounds are parameters and their promises are stated: a batch is acknowledged only after Persist returned nil, an unacknowledged one comes again, an answer to a list reflects a vault at least as new as when it was sent.
- The grant manager's wake signal, the OnAnswer callback and logging: they choose when the modelled regions run, not what these do.
- The grant manager's fields are grouped in three records (held, ordering, pacing); two fields tell what its channel and stack tell in the program: which list is in flight, and whether a full answer came in this process.
- A delegation's status lifetime is whole seconds: `leashwire` reads it from an integer of them, and is not part of this model.
- `gen` and the vault's versions are unbounded numbers; ULIDs are numbers in their text's order.
- The protocol applies a batch message by message, which allows more interleavings than the manager's lock does.
- VaultConn.Conn.Run: is driven by a finite list of turns, and the context ends when the list does; the pauses between turns are not modelled.
- The vault's own answers to vault.status, and contact times.
- Owner-only permission checks, locking, links and read-only opening of the state file; each may only make an operation fail here.
- StateStore.Machine: a directory flush that the file system does not support counts as done, as in the program.
- Sizes of the plaintext and of the wrapped key only make a write fail; nonces are any numbers, a new data key one that no key was before.
- Pairing: the client is taken to record no device before the SAS is confirmed; reading the code, the handshake's messages and the relay check are answers of any kind; the resolver's own errors are failures to load.
- Keychain: the entitlement, the directory's tag and status codes are reduced to calls that work or fail.
- Requests: encoding a request's body and zeroing it, suspension and the access manager's errors before a request starts.
- AccessPolicy: the probe's own request and CheckHold's vault.status are events with their outcome.
- Encode: the grammar of numbers and names is not checked; any run of other ASCII characters is one token.
- ToolResult: decoding the base64 text and the message around the result.
- Framing: encoding/json and XChaCha20-Poly1305 are functions that read back, or open, exactly what was written.
- RateLimit: the window bound and the token bounds are over the reals; doubles are modelled for the refill and the wait, between 10^-20 and 10^20. The tool layer rounds the time it shows up to a second.
- TPM and DPAPI calls, the structure inside the TPM's parts, and Windows' and macOS' own error codes.
- Command line, prompts, terminal sanitising, MCP method routing and schemas: single-branch checks and plumbing.
