# Verification of the PLAF203 local feeder add-on

A Dafny model of the parts of the PETLIBRO PLAF203 add-on where a mistake would lose a feeding schedule, brick a
feeder or show a wrong state, with proofs of what those parts guarantee over all inputs and all runs.
`dafny verify dfyconfig.toml` checks everything.

| files | what they model |
|---|---|
| `FeedPlans`, `PlanNormalization` | building, patching, deleting and renumbering plan collections, and the predicates that decide whether a write took effect |
| `CoordinatorModel`, `CoordinatorHistory`, `CoordinatorSafety`, `CoordinatorPreflight`, `CoordinatorRuns`, `CoordinatorTheorems`, `CoordinatorExamples`, `Coordinator` | the feeder state coordinator: the state machine as functions over a state with a journal, its invariant, what every run promises, two runs in full, and the coordinator as an object proved against the functions and run over any events |
| `Semver`, `SemverScanner`, `SemverOrder`, `SemverCompare` | versions of signed updates: grammar, the C scanner, precedence, and the Python and C comparators |
| `Bytes`, `OtaFrame` | the upload frame: the Python builder and the streaming C reader |
| `Disk`, `UpdateFs`, `Staging` | two directories that can lose power, the binary copies, and the staging of an upload |
| `Bootstrap`, `BootstrapSafety`, `BootstrapRuns`, `BootstrapExamples`, `BootstrapFeeder` | the bootstrap payload script, command by command, and the device around it; what it keeps, exactly when its failure handler does not, two lives in full, and the feeder as an object |
| `MqttLength`, `MqttStream`, `MqttPackets` | the MQTT codec of the bootstrap broker |
| `Fnv` | the revisions the state agent computes for settings and plans |
| `DispensingModel`, `Dispensing` | the dispensing status projection and its snapshot requests |
| `LogBuffer` | go2rtc's circular log buffer |

## How it is modelled

* **Coordinator.** One event is handled at a time, as the callback thread does. Everything that happens is entered in
  a journal; results of sinks, publishers and executors come from an oracle `Env` and may be anything. Agent reads are
  numbered; their results may arrive in any order, late or never. The availability sink may itself request a write
  (addon/appdaemon/src/plaf203.py:214-241), and the model lets it. A timer fires at most once, but at any time:
  cancelling it only forgets its handle, because its callback may already be on its way.
* **A finding about late timers.** The callbacks compare write ids, so that a late timer of an earlier write does
  nothing. One late timer does harm: an acknowledgement timeout that runs although its own write was acknowledged and is
  being verified (addon/appdaemon/src/state_coordinator.py:736-741 does not look at the stage). It ends that write with
  its verification read still in flight; if that read then fails, a verification of the next write is scheduled before
  that write is published (1070-1083, 978-1000), and may be submitted before it is acknowledged (756-767 does not look
  at the stage either). `CoordinatorExamples.LateTimeoutLetsEarlyReadVerify` is such a run. What is lost is the order of
  acknowledgement and read, and nothing else: `CoordinatorTheorems.VerifiedPlanWrite` holds of every run,
  `CheckedAfterAck` says exactly when the order holds, and `UndisturbedCheckFollowsAck`,
  `ForeignFailureFollowsLateTimeout` and `EarlyCheckFollowsLateTimeout` say what it takes to lose it.
* **Identity and parsing.** Write ids are unique, as the source's UUIDs are. Truths are parsed responses: distinct
  ids and an exact count (addon/appdaemon/src/state_agent.py:275-282).
* **Files and power cuts.** The agent's directory and its update directory persist independently. In each, operations
  persist in order, at least up to the last sync of that directory that succeeded; a file's bytes are safe once it was
  synced and arbitrary before. Every state between two operations is recorded, so a statement about all recorded states
  is a statement about a cut at any moment. Operations may fail at any point.
* **Staging** assumes ordered persistence within the update directory, and that `unlink` of an existing `pending.json`
  succeeds; that of any other file may fail. Both are needed: by `Staging.RecordAloneIsUnsafe` a record that is still
  there when its candidate is gone is unsafe, and the cleanup operation, which removes both and syncs once
  (state-agent/plaf203_update_fs.c:192-200), goes on to the candidate when the first removal fails.
* **Bootstrap.** The script is a list of commands. Each may work, fail before it changes anything, fail half-way, or be
  cut off by the power, also inside the failure handler, which goes on after errors. Two things can then go wrong there,
  and both are stated exactly: a file left over from an earlier run can be moved into place and select the payload
  (`BootstrapRuns.LifeSafeIff`, with a life in `BootstrapExamples.StaleScriptStartsPayload`), and a half-written startup
  script can be (`BootstrapRuns.LifeGarbageIff`, `BootstrapExamples.HandlerLeavesGarbage`). A state is safe if every slot
  that the startup script or the payload's index names holds OEM firmware; while an OTA's own choice stands, the other
  slot does. `chmod` is taken not to matter.
* **Versions** are ASCII; Python's `\d` and `isdigit` also accept other digits.
* SHA-256, Ed25519, UTF-8 and JSON texts are parameters.

## Model

| member | source | states |
|---|---|---|
| `FeedPlans.BuildPatchedPlanCollection` | addon/appdaemon/src/state_coordinator.py:1366-1405 | the loop over the baseline returns the spec collection: the target replaced where it stands, or created and sorted in by id; refused on an invalid audio field |
| `FeedPlans.SortPlansSorts` | addon/appdaemon/src/state_coordinator.py:1372-1377 | sorting gives the same records ordered by id |
| `FeedPlans.PatchedIsAccepted` | addon/appdaemon/src/state_coordinator.py:157-230 | for distinct-id baselines with valid audio fields, the predicate constructor never rejects what the patch builder makes, for updates and creations |
| `FeedPlans.PatchVerifiedIffEffective` | addon/appdaemon/src/state_coordinator.py:232-262 | a truth matches a patch predicate if and only if it has exactly the expected ids, every other record keeps its stable fingerprint and the target shows the patch |
| `FeedPlans.DeletedIsAccepted` | addon/appdaemon/src/state_coordinator.py:157-230 | the same for what the delete builder makes |
| `FeedPlans.DeleteVerifiedIffEffective` | addon/appdaemon/src/state_coordinator.py:232-262 | a truth matches a delete predicate if and only if the target is gone and every other record is unchanged, and no other record appears |
| `FeedPlans.LaterPatchWins` | addon/appdaemon/src/state_coordinator.py:1366-1442 | two patches of one id give the same collection, up to semantic fingerprint, as the later one alone |
| `FeedPlans.CreateThenDelete` | addon/appdaemon/src/state_coordinator.py:1408-1420 | creating a plan and deleting it gives back the baseline records ordered by id |
| `PlanNormalization.EnoughFreeIds` | addon/appdaemon/src/state_coordinator.py:1246-1300 | with at most nine distinct-id records there are at least as many free ids as foreign records |
| `PlanNormalization.NormalizationNeverFails` | addon/appdaemon/src/state_coordinator.py:1246-1341 | normalization succeeds if and only if the records pass the lossless and sync-time checks; it never runs out of ids and its own predicate accepts it |
| `PlanNormalization.NormalizationMovesForeignOnly` | addon/appdaemon/src/state_coordinator.py:1246-1300 | the result has distinct ids in 1..9, canonical records are untouched, and each moved record keeps its content with a strictly later sync time |
| `PlanNormalization.MatchedTruthIsStable` | addon/appdaemon/src/state_coordinator.py:272-334 | a truth the predicate accepts is a content-preserving bijection of the baseline, and normalizing it again changes nothing |
| `CoordinatorHistory.MatchMeansEffect` | addon/appdaemon/src/state_coordinator.py:634-734 | if the prepared goal of a plan change matches a truth, that truth shows the change against the read it was prepared from |
| `CoordinatorSafety.SubmitKept` | addon/appdaemon/src/state_coordinator.py:769-795 | submitting a read, or the failure to, keeps the coordinator invariant |
| `CoordinatorSafety.PublishKept` | addon/appdaemon/src/state_coordinator.py:634-734 | preparing and publishing the pending write, or failing to, keeps the invariant |
| `CoordinatorSafety.RetryKept` | addon/appdaemon/src/state_coordinator.py:978-1025 | a failed verification keeps the invariant: another read is scheduled, or the write ends |
| `CoordinatorRuns.CompletionKept` | addon/appdaemon/src/state_coordinator.py:813-845 | every completion of an agent call, of any generation and token, keeps the invariant |
| `CoordinatorRuns.StepKept` | addon/appdaemon/src/state_coordinator.py:458-587 | every event keeps the invariant, whatever the outside answers and however late a timer runs |
| `CoordinatorRuns.RunKept` | addon/appdaemon/src/state_coordinator.py:398-438 | the invariant holds after every sequence of events |
| `CoordinatorTheorems.VerifiedPlanWrite` | addon/appdaemon/src/state_coordinator.py:934-976 | in every run, whenever a plan write is reported verified: in one unbroken connection it started, a core read was submitted and returned, the collection built from that read was published, a success acknowledgement with the same receipt came, and a core read that was submitted for this write after its publication and returned after its acknowledgement shows the change and nothing else |
| `CoordinatorTheorems.CheckedAfterAck` | addon/appdaemon/src/state_coordinator.py:756-767 | that read was also submitted after the acknowledgement if and only if it was submitted for this write while the write was already being verified, the stage test that the timer callback leaves out |
| `CoordinatorTheorems.UndisturbedCheckFollowsAck` | addon/appdaemon/src/state_coordinator.py:1070-1094 | it was, unless a verification read of another write failed while this one was pending |
| `CoordinatorTheorems.ForeignFailureFollowsLateTimeout` | addon/appdaemon/src/state_coordinator.py:1070-1094 | such a failure happens only after an acknowledgement timeout hit an acknowledged write in the same connection |
| `CoordinatorTheorems.EarlyCheckFollowsLateTimeout` | addon/appdaemon/src/state_coordinator.py:736-741 | so does every verification by a read from before the acknowledgement |
| `CoordinatorTheorems.VerifiedRewrite` | addon/appdaemon/src/state_coordinator.py:893-932 | in every run, a verified automatic renumbering was built from a read of the same connection, published, acknowledged, and observed after that with canonical ids and the same plans one for one |
| `CoordinatorTheorems.TruthProvenance` | addon/appdaemon/src/state_coordinator.py:1101-1147 | everything given to the mirror, held as latest truth or answered to a plan request was returned by a core read; an expected collection never is by itself |
| `CoordinatorTheorems.PublicationDiscipline` | addon/appdaemon/src/state_coordinator.py:634-734 | a command goes out only while connected, after a read of this connection was committed, for the one open write, and at most once for it |
| `CoordinatorTheorems.OneWriteAtATime` | addon/appdaemon/src/state_coordinator.py:589-615 | a write starts only in a live connection and when no other is open |
| `CoordinatorTheorems.ReadsDeliveredOnce` | addon/appdaemon/src/state_coordinator.py:813-845 | a read result is used at most once and only in the connection that submitted it |
| `CoordinatorTheorems.AtMostFourVerifications` | addon/appdaemon/src/state_coordinator.py:978-1025 | in every run, no write causes more than four verification reads |
| `CoordinatorTheorems.NeverStranded` | addon/appdaemon/src/state_coordinator.py:1175-1202 | a write that waits for its preflight always has a read of this connection in flight, whose completion takes it up |
| `CoordinatorTheorems.IdleWhenDisconnected` | addon/appdaemon/src/state_coordinator.py:468-479 | not connected implies disconnected state, no pending write, empty queue, no operation in flight and API unhealthy; the queue holds at most eight writes for distinct controls |
| `CoordinatorTheorems.LateEventsIgnored` | addon/appdaemon/src/state_coordinator.py:736-767 | in every reachable state, completions of any read but the one in flight, which is the last one submitted and of this generation, and unmatched acknowledgements change nothing, and timers of another write, cancelled or not, change nothing but a timer handle |
| `CoordinatorExamples.VerifiedWriteHappens` | addon/appdaemon/src/state_coordinator.py:934-976 | a run in which a delete with a fresh preflight is verified |
| `CoordinatorExamples.LateTimeoutLetsEarlyReadVerify` | addon/appdaemon/src/state_coordinator.py:736-741 | a run with one late timeout in which a write is verified by a read submitted for it before its acknowledgement |
| `CoordinatorExamples.StepB8` | addon/appdaemon/src/state_coordinator.py:736-741 | the acknowledgement timeout of a write that is being verified ends it with its read in flight |
| `CoordinatorExamples.StepB9` | addon/appdaemon/src/state_coordinator.py:1078-1083 | the failure of that read schedules a verification of the next write, which is not published yet |
| `Coordinator.FeederStateCoordinator.constructor` | addon/appdaemon/src/state_coordinator.py:403-438 | a new coordinator is the initial state and satisfies the invariant |
| `Coordinator.FeederStateCoordinator.Handle` | addon/appdaemon/src/state_coordinator.py:398-438 | handling any event gives the state the model steps to, and keeps the invariant |
| `Coordinator.Operate` | addon/appdaemon/src/state_coordinator.py:398-438 | a new object, fed any events against any outside: its own journal tells of no verified write that did not happen, of nothing mirrored that was not read, of no command out of turn and of at most four verification reads for each write, and the truth it holds was read |
| `Coordinator.FeederStateCoordinator.QueueWrite` | addon/appdaemon/src/state_coordinator.py:617-632 | replaces the queued write for the same control, or appends up to the limit |
| `Semver.ParseRendered` | state-agent/plaf203_state_agent.c:1518-1588 | reading the text of any version gives that version |
| `Semver.ParseIffGrammar` | addon/appdaemon/src/state_agent_updates.py:40-44 | a text is read if and only if it is the text of a version of the grammar |
| `Semver.SplitJoin` | addon/appdaemon/src/state_agent_updates.py:61 | splitting joined identifiers at dots gives the identifiers |
| `SemverScanner.ParseSemverStrict` | state-agent/plaf203_state_agent.c:1518-1588 | the character-by-character scanner accepts exactly the texts of versions |
| `SemverScanner.ScanCore` | state-agent/plaf203_state_agent.c:1518-1534 | the loop over the three core numbers |
| `SemverScanner.ScanPrerelease` | state-agent/plaf203_state_agent.c:1535-1566 | the loop over prerelease identifiers, with the leading-zero check on numeric ones |
| `SemverScanner.ScanBuild` | state-agent/plaf203_state_agent.c:1567-1588 | the loop over build identifiers |
| `SemverOrder.OnePatternReading` | addon/appdaemon/src/state_agent_updates.py:40-44 | a text matches the pattern in one way only |
| `SemverOrder.PatternThenZeroCheck` | addon/appdaemon/src/state_agent_updates.py:57-67 | a text that matches the pattern is accepted if and only if what was captured passes the leading-zero check, and its components are those captured |
| `SemverOrder.ComponentsMatchPattern` | addon/appdaemon/src/state_agent_updates.py:57-61 | only texts that match the pattern are accepted |
| `SemverOrder.PrecedenceIsTotalPreorder` | addon/appdaemon/src/state_agent_updates.py:70-93 | precedence (section 11 of SemVer 2.0.0) is reflexive, antisymmetric in sign, transitive and blind to build metadata |
| `SemverOrder.NumbersByLength` | state-agent/plaf203_state_agent.c:1631-1634 | without leading zeros, comparing by length and then by digits is comparing the numbers |
| `SemverOrder.ComparePrereleases` | addon/appdaemon/src/state_agent_updates.py:81-93 | the Python loop over paired identifiers computes precedence of the lists |
| `SemverOrder.CompareSemver` | addon/appdaemon/src/state_agent_updates.py:70-93 | the Python comparator refuses unless both texts are versions, and computes their precedence |
| `SemverCompare.ParseCoreVersion` | state-agent/plaf203_state_agent.c:1590-1607 | reading the core numbers fails on a version exactly when one exceeds 32 bits |
| `SemverCompare.PrereleaseOfRendered` | state-agent/plaf203_state_agent.c:1609-1618 | the text between the first dash and the first plus is the prerelease of the version |
| `SemverCompare.ComparePrereleaseIdentifier` | state-agent/plaf203_state_agent.c:1620-1642 | the C identifier comparison agrees with precedence of identifiers |
| `SemverCompare.CompareDotted` | state-agent/plaf203_state_agent.c:1665-1684 | the C loop over offsets computes precedence of the identifier lists |
| `SemverCompare.CompareSemver` | state-agent/plaf203_state_agent.c:1644-1684 | the C comparator computes precedence when all core numbers fit 32 bits and 0 otherwise, so an overflow is refused as "equal" |
| `SemverCompare.CompareBothWays` | addon/appdaemon/src/state_agent_updates.py:70-93 | both comparators on the same two texts: they agree, or a core number overflows and the agent sees no difference; a verdict above 0 means a newer version within 32 bits |
| `SemverCompare.AcceptVersion` | state-agent/plaf203_state_agent.c:2568-2575 | the update gate lets through exactly the versions above the installed one with core numbers within 32 bits, so an overflow never lets an update through |
| `SemverCompare.OverflowHappens` | state-agent/plaf203_state_agent.c:1590-1607 | such versions exist |
| `OtaFrame.FrameRoundTrip` | addon/appdaemon/src/state_agent_updates.py:668-683 | within the limits the builder succeeds and the reading of its frame gives back the three parts |
| `OtaFrame.FrameOnto` | state-agent/plaf203_state_agent.c:2450-2520 | every accepted body is the builder's image of the parts read from it |
| `OtaFrame.UploadLimitIsExact` | addon/appdaemon/src/state_agent.py:13 | no accepted body exceeds the client limit, and one of exactly that size is accepted |
| `OtaFrame.BodyReader.constructor` | state-agent/plaf203_state_agent.c:2457-2463 | all bytes are available and the content length remains |
| `OtaFrame.BodyReader.ReadExact` | state-agent/plaf203_state_agent.c:1460-1485 | succeeds if and only if enough content is announced and arrives, and takes exactly the next bytes, however they are split between prefetched bytes and reads |
| `OtaFrame.ReceiveUpdate` | state-agent/plaf203_state_agent.c:2450-2541 | an upload is taken if and only if the announced bytes arrive and form a frame; nothing is left over; the status of a refusal is 413 for sizes and 400 otherwise |
| `OtaFrame.ReceiveBuilt` | state-agent/plaf203_state_agent.c:2602-2607 | a built frame, cut and delivered in any pieces, arrives as its three parts with zero remaining |
| `Disk.FileSystem.WriteAll` | state-agent/plaf203_state_agent.c:2618-2637 | writing in pieces touches one file only, and success leaves all bytes in it |
| `Disk.FileSystem.PowerCut` | state-agent/plaf203_update_fs.c:77-84 | what a power cut leaves: of each directory a state not older than its own last sync, with unsynced files torn |
| `UpdateFs.AtomicCopyElf` | state-agent/plaf203_update_fs.c:86-136 | in every state on the way the destination is the old file or the complete new one; success makes the new one permanent in its directory and does not touch how much of the other is; without faults it succeeds if and only if the source is an acceptable ELF file, whatever the temporary held |
| `UpdateFs.CutLeavesOldOrNew` | state-agent/plaf203_update_fs.c:86-136 | after any power cut: if the destination directory goes back to a moment of the copy, the destination is exactly old or exactly new; if to an earlier state in which it was complete or absent, it is as in that state |
| `UpdateFs.CutKeepsOthers` | state-agent/plaf203_update_fs.c:86-136 | other synced files of a directory that goes back to a moment of the copy are unchanged |
| `UpdateFs.Perform` | state-agent/plaf203_update_fs.c:250-258 | backup, activate and restore are such copies between their fixed files |
| `UpdateFs.BackupActivateRestore` | state-agent/plaf203_update_fs.c:250-258 | after a successful backup, any number of failed, torn or complete activations and restores leave a final restore with the original bytes |
| `Staging.WriteAtomicJson` | state-agent/plaf203_state_agent.c:2148-2179 | a record replaces the old one whole; `pending.json` appears only beside the candidate it describes and only when no power cut can bring back another, and is taken back when it may not last |
| `Staging.StageUpdateCandidate` | state-agent/plaf203_state_agent.c:2236-2351 | every state passed through is safe, whatever fails; in the end the received bytes are pending, or nothing is; without faults exactly when the bytes arrive with the recorded hash, size and ELF header |
| `Staging.Upload` | state-agent/plaf203_state_agent.c:2359-2416 | while something is pending or the lock is held, an upload changes nothing; otherwise it stages, so that no power cut can undo it, or leaves nothing pending |
| `Staging.UploadOutlivesPowerCut` | state-agent/plaf203_state_agent.c:2359-2416 | after a staged upload and a power cut the record and exactly the received bytes are there |
| `Staging.Cleanup` | state-agent/plaf203_update_fs.c:192-200 | the record is removed before the candidate, and every state is safe |
| `Staging.TornIsSafe` | state-agent/plaf203_state_agent.c:2236-2351 | a power cut in a safe state leaves a safe state |
| `Staging.LosePower` | state-agent/plaf203_state_agent.c:2236-2351 | a power cut at any moment since the start leaves a safe directory; a record that stands before and after it is the same, beside the same candidate, and one that is permanent still stands |
| `Staging.Lifetime` | state-agent/plaf203_state_agent.c:2126-2416 | over any uploads, copies, cleanups and power cuts, a present `pending.json` stands beside the complete candidate with the recorded size and hash, neither changes while it stands, and what a power cut can bring back is at most one record |
| `BootstrapSafety.BodySpares` | installer/payload.py:130-273 | up to the first failure, wherever it is: the donor slot, the settings and a completed snapshot are kept, and the fallback slot holds the firmware of the donor |
| `BootstrapSafety.BodySafe` | installer/payload.py:130-273 | up to the first failure every state is safe: what is selected to start holds OEM firmware |
| `BootstrapRuns.HandlerSafeIff` | installer/payload.py:93-128 | for given failures, the failure handler keeps every state safe if and only if it does not move a leftover file that names another slot into place: a redirection that fails before truncating, followed by a working `mv` |
| `BootstrapRuns.HandlerAlwaysSafeIff` | installer/payload.py:93-128 | the handler is safe whatever fails if and only if `app_start.sh.new` and `index.bin.new` are each absent, name nothing, or name a slot with OEM firmware when it starts |
| `BootstrapRuns.HandlerGarbageIff` | installer/payload.py:93-128 | the handler puts a half-written startup script in place if and only if writing it failed half-way, or failed untouched with a half-written one left over, and `mv` works |
| `BootstrapRuns.HandlerSelects` | installer/payload.py:93-128 | a handler whose commands all work selects the fallback for good |
| `BootstrapRuns.PayloadSpares` | installer/payload.py:51-132 | whatever fails, in every state of a run: the donor slot is never written, a completed snapshot is never replaced, the settings stay |
| `BootstrapRuns.PayloadFinishes` | installer/payload.py:248-273 | a finished run leaves the firmware of the donor in both slots, OTA1 selected and a completed snapshot, and no power cut undoes it |
| `BootstrapRuns.PayloadSafeIff` | installer/payload.py:114-273 | every state of a run is safe if and only if its failure handler, should it start, moves no stale file into place |
| `BootstrapRuns.PayloadGarbageIff` | installer/payload.py:114-273 | a run puts a half-written startup script in place if and only if its failure handler does |
| `BootstrapRuns.LifeSafeIff` | installer/payload.py:51-132 | over any OTA installations, boots and power cuts, with commands failing anywhere: what is selected to start always holds OEM firmware, and some slot does, if and only if no failure handler moves a stale file into place |
| `BootstrapRuns.LifeGarbageIff` | installer/payload.py:51-132 | over the same lives: there always is a complete startup script if and only if no failure handler moves a half-written one into place |
| `BootstrapRuns.SnapshotForLife` | installer/payload.py:189-203 | the first completed and synced snapshot is the snapshot for ever, over any installations, runs, failures and power cuts |
| `BootstrapExamples.StaleScriptStartsPayload` | installer/payload.py:93-128 | a life of five events in which a failure handler selects the payload: a power cut leaves the production script beside the old one, and the handler of the next run moves it into place |
| `BootstrapExamples.HandlerLeavesGarbage` | installer/payload.py:93-128 | a life that ends with a half-written startup script in place |
| `BootstrapFeeder.Feeder.Execute` | installer/payload.py:114-117 | running commands one by one, with or without `set -e`, is the strict or lenient reading of the list |
| `BootstrapFeeder.Feeder.RunPayload` | installer/payload.py:114-273 | the script on the object: the donor slot and a completed snapshot are spared in every state, and a finished run leaves the firmware of the donor in both slots |
| `BootstrapFeeder.Operate` | installer/payload.py:51-132 | a feeder object through any events: its states are safe as long as no handler moved a stale file into place, and it has a startup script as long as none moved a half-written one |
| `MqttLength.LengthCodecIsBijection` | installer/protocol.py:66-92 | encoding and decoding are inverse between 0..268435455 and the shortest forms of at most four bytes |
| `MqttLength.EncodeRemainingLength` | installer/protocol.py:66-77 | the loop gives the shortest form, and refuses out of range |
| `MqttLength.DecodeRemainingLength` | installer/protocol.py:80-92 | the loop gives the number and the offset behind it, and refuses truncated or over-long fields |
| `MqttStream.BuiltPacketIsFirst` | installer/mqtt_server.py:76-103 | a built packet in front of any bytes is the first packet |
| `MqttStream.ReceivedLengthMatches` | installer/mqtt_server.py:76-103 | the length field of a received packet covers exactly the rest of it |
| `MqttStream.SplitConcat` | installer/mqtt_server.py:76-103 | any sequence of built packets, concatenated, comes apart into the same packets |
| `MqttStream.Connection.RecvPacket` | installer/mqtt_server.py:76-103 | however the stream arrives, the first packet is returned and no byte more is taken; malformed, oversized and truncated ones are refused |
| `MqttStream.ReceiveAll` | installer/mqtt_server.py:164-168 | receiving until the close splits the stream |
| `MqttStream.ReceiveBuilt` | installer/mqtt_server.py:164-168 | built packets sent in any pieces arrive as those packets |
| `MqttPackets.NoLengthMismatch` | installer/protocol.py:127-129 | after `recv_packet` no parser finds a length mismatch |
| `MqttPackets.PublishRoundTrip` | installer/protocol.py:201-243 | parsing a built PUBLISH recovers topic, payload, QoS and packet id |
| `MqttPackets.ParseTopics` | installer/protocol.py:174-190 | the loop over requested topics reads exactly the list |
| `MqttPackets.SubscribeRoundTrip` | installer/mqtt_server.py:496-498 | parsing a built SUBSCRIBE recovers packet id and topic |
| `MqttPackets.ConnectRoundTrip` | installer/mqtt_server.py:490-493 | parsing a built CONNECT recovers client id, user name, password, keep-alive and level |
| `Fnv.Update` | state-agent/plaf203_state_agent.c:480-487 | the loop computes the hash of the bytes from the given state |
| `Fnv.StepInjective` | state-agent/plaf203_state_agent.c:480-487 | one step tells different states apart, and different bytes: the prime is invertible modulo 2^64 |
| `Fnv.HashTellsOneByte` | state-agent/plaf203_state_agent.c:480-487 | texts that differ in one byte have different hashes |
| `Fnv.ComputeSettingsRev` | state-agent/plaf203_state_agent.c:500-517 | the loop over the ranges computes the settings revision; unreadable or odd-sized states give the initial value |
| `Fnv.OneSettingNoticed` | state-agent/plaf203_state_agent.c:500-517 | states that differ in exactly one persistent byte, and anyhow elsewhere, have different revisions |
| `Fnv.RuntimeBytesIgnored` | state-agent/plaf203_state_agent.c:500-517 | states that agree on the persistent bytes have equal revisions |
| `Fnv.ComputePlansRev` | state-agent/plaf203_state_agent.c:519-537 | the loop over the records computes the plans revision |
| `Fnv.OneScheduleByteNoticed` | state-agent/plaf203_state_agent.c:519-537 | plan files that differ in exactly one byte outside execution state and sync time have different revisions |
| `Fnv.ExecutionStateIgnored` | state-agent/plaf203_state_agent.c:519-537 | plan files that agree outside execution state and sync time have equal revisions |
| `DispensingModel.StepKept` | addon/appdaemon/src/backend.py:464-496 | every event keeps the invariant |
| `DispensingModel.RunKept` | addon/appdaemon/src/backend.py:927-1006 | the invariant holds after every sequence of events |
| `DispensingModel.StatusIsFresh` | addon/appdaemon/src/dispensing_status.py:71-149 | the status is available only in a live connection, and shows the latest accepted grain event of it or a snapshot requested after that event in the same connection |
| `DispensingModel.OneResultPerRequest` | addon/appdaemon/src/backend.py:934-1006 | no snapshot request gets two results, and each result is for an earlier request |
| `Dispensing.Backend.constructor` | addon/appdaemon/src/backend.py:121-124 | a new backend is the initial state |
| `Dispensing.Backend.Handle` | addon/appdaemon/src/backend.py:927-1006 | any event in any reachable state gives the modelled state and keeps the invariant |
| `Dispensing.Operate` | addon/appdaemon/src/backend.py:464-496 | a new backend object, fed any events: what it displays is fresh, and in its own journal no request has two results |
| `LogBuffer.OutputIsRecentSuffix` | addon/go2rtc/internal/app/log.go:133-191 | after any writes and resets the output is a suffix, cut between writes, of what was written since the reset; nothing is missing until sixteen chunks are in use; once anything is, more than 8 x 65536 bytes are there |
| `LogBuffer.RunIsFaithful` | addon/go2rtc/internal/app/log.go:133-162 | the retained writes are the latest ones, and neighbouring chunks hold more than one chunk between them |
| `LogBuffer.CircularBuffer.constructor` | addon/go2rtc/internal/app/log.go:126-131 | one empty chunk |
| `LogBuffer.CircularBuffer.Write` | addon/go2rtc/internal/app/log.go:133-163 | the write goes to the current chunk if it fits, else to the next around the ring, which pushes out the oldest when the ring is full |
| `LogBuffer.CircularBuffer.WriteTo` | addon/go2rtc/internal/app/log.go:165-183 | the chunks from reader to writer around the ring, in order |
| `LogBuffer.CircularBuffer.Reset` | addon/go2rtc/internal/app/log.go:185-191 | the buffer is empty, whatever older chunks still hold |
| `LogBuffer.Run` | addon/go2rtc/internal/app/log.go:115-191 | the buffer object, run over any operations, outputs what the model retains |

## Left out

- FeedPlans.SortPlansSorts: the source sorts with Python's stable `sorted`; stability is modelled by inserting after equal ids and is not stated, because ids are distinct wherever it matters.
- CoordinatorTheorems.VerifiedPlanWrite: that the verifying read was submitted only after the acknowledgement is false in some runs, see above; covers the writes that ask for a fresh preflight, as every plan command does; setting writes without one are in the state machine, but no claim is made about what a coalesced setting write shows.
- CoordinatorTheorems.LateEventsIgnored: a late timer may still clear a timer handle, as the source's callback does before it compares ids.
- Staging.Lifetime: assumes that `unlink` of an existing `pending.json` succeeds; see above.
- BootstrapRuns.LifeSafeIff: an OTA is taken to write the slot that is not running and to own the slot index from its first write; the services, keys and the archive check are commands that may fail and change nothing modelled; a signal while the handler runs is not distinguished from a power cut at that moment.
- Coordinator.FeederStateCoordinator: its methods other than the constructor, Handle and QueueWrite have no row; each is proved equal to the function of the same name, and what that means is said by the theorems about runs.
- Liveness: that the coordinator becomes ready again, or that an update is ever activated, is not claimed.
- Reasons, log lines, diagnostics, the raw-settings comparison and the delays of timers.
- `core_rev` and `queue_rev`: hashes of hashes, for which no difference is guaranteed.
- Signature checking, manifest fields other than version, size and hash, and the HTTP layer of the state agent.
- The runit supervisor that sequences backup, activation and restore: it is an arbitrary environment here.
- Home Assistant discovery, settings tables, telemetry, camera metadata, the installer's prompts, provisioning frames, and the rest of go2rtc.
- The parsing of agent responses other than the checks on plan ids and count.
