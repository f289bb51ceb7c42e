# AuditReady-k3s agent: a verified model

A Dafny model of the in-cluster agent's hard parts: how inventory reaches the control plane, how
commands are accepted, executed and reported, and how manifests are applied to live objects. The
proofs quantify over every input and every run: every interleaving of informers, network and
control plane, every answer of the API server, every live object and manifest.

`dafny verify dfyconfig.toml` checks the whole project.

## Contents

| files | part of the agent |
|---|---|
| `Inventory`, `Batching`, `UploadProtocol`, `Convergence`, `Snapshots`, `Resending`, `UploadLedger`, `UploadOrder`, `UploadLimits`, `Uploader`, `SeqFile`, `Decimal` | inventory upload: the protocol as a state machine, what holds of all its runs, and the upload loop shown to perform such runs |
| `Json`, `Merge`, `Drift`, `Adopt`, `Specs`, `Redeploy`, `UpdatedObject`, `UpdatedSpec`, `RedeployLimits` | applying a manifest over a live object: overlay, drift hash, immutable fields, what the update body holds, and deploying again |
| `Signing`, `SignedOrder`, `SignedText`, `Replay`, `Reports`, `Receiver`, `ReceiverRounds` | commands and reports: signed text, replay windows, the report queue, the receiver, and what its loop does over a whole run |
| `Commands`, `Placement`, `Outcomes`, `Executor`, `ReportGrammar` | the command handlers against an arbitrary API server, what their traces show in plain terms, and the reports they leave |

Values are used for JSON objects, classes for the objects the agent changes in place. An imperative
method is proved against a function on values, and the laws are proved of that function.

## How it is modelled

- The digest (SHA-256 of the JSON text) is an arbitrary function of the stripped object; it is taken
  to be collision free only where a statement says so. Hex digests, signature verification and
  Kubernetes quantity parsing are arbitrary functions too. The empty string is not a quantity.
- `unstructured` helpers follow apimachinery: a nested read stops at a non-object, a nested write
  fails at one and then leaves the object alone, `NestedStringMap` fails on any non-string, and
  `GetAnnotations` reads a null as an empty string.
- The upload protocol covers one process lifetime that starts with an empty spill file. A batch may
  be applied any number of times before its send returns, and a batch whose send failed at any later
  time. Snapshots read the caches object by object while they change.
- The control plane applies a batch event by event, last write wins, never overwrites a terminal
  status, and answers a poll with ok only when it has processed it (`SERVER.md`).
- Network, clock, disk outcomes and the other goroutines are parameters (`Turn`, `Tick`,
  `Channel`, `Exchange`, `Pace`, the API server as a function of everything asked so far).
- Processing one command is one step: the two channels take turns.

Where the code and its comments differ, the model follows the code:

- The uploader's comments promise that a failed batch is resent with its number and is deduplicated
  by it. After a failed delta a full snapshot goes first, under that same number
  (`NumberReusedForOtherBatch`); when the batch is resent after all, `FailedDeltaIsResent` says
  exactly. Convergence does not rest on the numbers.
- The package comment says an event is dropped only after a successful acknowledgement. An
  acknowledgement that carries an error counts as one (`AcknowledgedButNotApplied`).
- Events keep their order within the buffer and within the spill file (`AckedInOrder`), and between
  the two exactly as long as no event enters memory while the spill file is not empty
  (`OrderExactly`, `SpilledEventOvertaken`).
- The comment on the update body says that everything the manifest omits is kept from the live
  object. One annotation that is no string loses all the others (`UnquotedAnnotation`); elsewhere
  the promise holds on every path the agent does not write itself (`UpdatedElsewhere`).
- The repository's README says every write is dry-run first when so configured. Cordoning, uncordoning
  and re-stamping the hash after a patch are not (`RehearsalsShow`).

## Model

| member | source | states |
|---|---|---|
| `Convergence.Convergence` | internal/uploader/uploader.go:120-169 | In every run whose steps are harmless, at any point where no event is pending the control plane holds exactly the informer cache, plus the rows it started with for objects this process never saw: nothing stale, nothing missing, and full snapshots prune nothing. |
| `Convergence.LastChangeArrives` | internal/uploader/uploader.go:120-169 | The same told by the informers' changes alone: after such a run the control plane has no row for an object whose last change was a delete, the payload of the last change of any other object that changed, and its initial row, or none, for one that never did. |
| `Convergence.CacheIsLastChange` | internal/informers/manager.go:139-152 | Over every run, the cache holds every changed object as its last change left it, and no deleted one. |
| `Convergence.AgreementOverRuns` | internal/uploader/uploader.go:105-169 | Over every run, "applying all pending events makes the control plane agree with the cache" holds after every step if and only if every step was harmless, where harmless is a test on the state before the step: no event put into memory overtakes a spilled one for the same object, no batch is acknowledged without having been applied, and no batch applied after its send failed overwrites a row that is right. |
| `Convergence.StepAgrees` | internal/uploader/uploader.go:105-263 | The same equivalence for a single step of informer, agent, network or control plane, from any state that satisfies the invariant. |
| `Convergence.RunKeeps` | internal/uploader/uploader.go:105-263 | The protocol invariant holds after every run, harmless or not; in particular a snapshot event that is out of date always has a newer event of the same object queued behind it. |
| `Convergence.Drains` | internal/uploader/uploader.go:120-169 | From every reachable state, finitely many harmless steps without a new cache change empty all queues, so the loop cannot get stuck. |
| `Convergence.CatchesUp` | SERVER.md:86-99 | After any harmless run, some continuation without a new cache change, with working sends, takes the control plane to the cache. |
| `UploadLimits.SpilledEventOvertaken` | internal/uploader/uploader.go:215-233 | A run in which every send succeeds and the drained control plane is left with the older version of an object, because the newer event went to memory while the older one waited in the spill file. |
| `UploadLimits.AcknowledgedButNotApplied` | internal/uploader/uploader.go:187-210 | A run in which an error inside a successful response counts as success and the event is gone. |
| `UploadLimits.NumberReusedForOtherBatch` | internal/uploader/uploader.go:187-210 | A run in which the number of a failed delta batch is next carried by a snapshot batch with other contents. |
| `Resending.FailedDeltaIsResent` | internal/uploader/uploader.go:120-169 | Over every run, the send after a failed delta batch carries its number; it is a delta batch if and only if the snapshot in between listed nothing; it then starts with the failed events, and is the failed batch if and only if no event queued behind fits; otherwise it is a snapshot batch with other contents. |
| `Resending.FailedSnapshotStartsOver` | internal/uploader/uploader.go:173-186 | Over every run, the send after a failed snapshot batch carries its number and is the first batch of a new listing if that lists anything; otherwise it is a delta batch with other contents. |
| `Resending.SnapshotComesFirst` | internal/uploader/uploader.go:120-169 | Over every run, the first send carries the first number after the stored one and follows a listing of the caches: it is the front of that listing, or, exactly when the listing is empty, a delta batch. |
| `Snapshots.SnapshotRepairs` | internal/uploader/uploader.go:173-186 | In any run, harmless or not: once a snapshot whose listing covers every cached object has completed with every batch applied, every cached object has its row at the control plane or an event queued. |
| `UploadLedger.NothingLost` | internal/uploader/uploader.go:105-115 | Over every run, the multiset of enqueued events is the acknowledged ones plus those in flight, buffered and spilled: none lost, none duplicated. |
| `UploadLedger.AckedInOrder` | internal/uploader/uploader.go:215-263 | Over every run, the acknowledged events that came through memory are a prefix of those put there, and likewise for the spill file. |
| `UploadOrder.OrderExactly` | internal/uploader/uploader.go:105-115 | Over every run, with events told apart by the position at which they were enqueued: acknowledged, in flight, buffered and spilled events together are in the order in which they were enqueued if and only if no event entered memory while the spill file was not empty. |
| `UploadOrder.InOrderMeans` | internal/uploader/uploader.go:215-263 | In that case the four together are the enqueued events themselves, in that order. |
| `UploadOrder.RunTags` | internal/uploader/uploader.go:215-263 | Over every run, every enqueued position is held at one place, on the way or in the spill file, by the event enqueued there. |
| `UploadLedger.RunNumbers` | internal/uploader/uploader.go:192-254 | Over every run, accepted batches carry first+1, first+2, ... without gap or repeat, the number after a failed attempt is that of the attempt, and every batch sent has at most 200 events, keeps payload bytes plus 256 per event within the byte limit unless it is a single event, and was closed only because it had 200 events or the next one would have broken the byte limit. |
| `Uploader.Uploader.Run` | internal/uploader/uploader.go:120-169 | The loop, with other goroutines and late arrivals acting before the snapshot check, between listed objects, around every send, before a batch is taken and before a failed one is put back, performs a run of the protocol in which every round, one after the other, does what the next row says; and when nothing interferes and all sends succeed, as many rounds as there are queued events empty the buffer and the spill file. |
| `Uploader.Uploader.Round` | internal/uploader/uploader.go:127-168 | One iteration, as steps of that run: a due snapshot is sent unless one of its sends fails, and then the iteration ends there; a complete listing whose batches all land leaves every cached object with its row at the control plane or an event queued at the moment the snapshot is done; otherwise a batch is taken, and if there is one the iteration ends with its send returning. Undisturbed it sends a legal batch and keeps batch, buffer and spill file together equal to the old queue, in order. |
| `Uploader.Uploader.SendSnapshot` | internal/uploader/uploader.go:173-186 | The snapshot is sent batch by batch and the loop stops at the first error; if it lists every cached object and every batch is applied, each cached object ends up with its row at the control plane or an event queued. |
| `Uploader.Uploader.SendBatch` | internal/uploader/uploader.go:192-210 | The number in memory and on disk moves only on success, by one; the control plane has the batch applied when nothing interfered. |
| `Uploader.Uploader.TakeBatch` | internal/uploader/uploader.go:215-233 | Popping a batch splits the queue in order, replaying the spill file only into an empty buffer; the batch is legal and not empty when there is anything to send. |
| `Uploader.Uploader.Enqueue` | internal/uploader/uploader.go:105-115 | An event goes to the end of the buffer while that is shorter than its capacity, to the end of the spill file otherwise. |
| `Uploader.Uploader.RequeueFront` | internal/uploader/uploader.go:257-263 | A failed batch goes back in front of everything. |
| `Uploader.Uploader.ListCaches` | internal/informers/manager.go:139-152 | Listing every object cached at the start, while other goroutines change the caches between two objects, covers every cached object: it is in the listing or has an event queued. |
| `Batching.BatchLen` | internal/uploader/uploader.go:239-254 | The loop finds the longest legal prefix: more than one event only within the event limit and with payload bytes plus 256 per event within the byte limit, and closed only because one of the two would be broken. |
| `Batching.BatchesAreLegal` | internal/uploader/uploader.go:173-186 | Cutting full batches repeatedly covers the events in order with batches that are single events or within both limits, measured on the payloads themselves. |
| `Batching.FillingIsOptimal` | internal/uploader/uploader.go:173-186 | No in-order division of the same events into legal batches has fewer batches. |
| `SeqFile.SeqFileRoundTrip` | internal/uploader/uploader.go:267-290 | The number written to disk is the number read back, for every non-negative int64. |
| `SeqFile.SpaceIsIgnored` | internal/uploader/uploader.go:279-290 | Space before and after the number in the file does not matter. |
| `SeqFile.FreshStartsAtOne` | internal/uploader/uploader.go:279-290 | Without a readable non-negative number in the file, accepted numbers are 1, 2, 3, ... over any number of restarts that find the file up to date. |
| `SeqFile.NumbersSurviveRestarts` | internal/uploader/uploader.go:267-290 | Over any number of restarts that find the file up to date, accepted numbers are consecutive. |
| `SeqFile.NumbersHaveNoGap` | internal/uploader/uploader.go:267-290 | Over any number of restarts, whatever the file held, the accepted numbers are first+1 up to the highest, none left out. |
| `SeqFile.StaleFileRepeatsNumber` | internal/uploader/uploader.go:267-290 | After every such run, a restart makes the next number one that was used before if and only if the file is behind the highest accepted number. |
| `Decimal.IntRoundTrip` | internal/uploader/uploader.go:267-290 | Decimal formatting followed by parsing is the identity on every int64. |
| `Decimal.PrintedInDecimal` | internal/uploader/uploader.go:267-277 | The printed text is the number in base ten by place values, signed only when negative and without leading zeros. |
| `Merge.MergeIsMergePatch` | internal/executor/executor.go:345-372 | The overlay equals JSON Merge Patch (section 2 of RFC 7396) if and only if no null sits inside an object that the manifest lays over a non-object. |
| `Merge.MergeIdempotent` | internal/executor/executor.go:345-372 | Overlaying the same manifest twice equals overlaying it once, under exactly the same condition. |
| `Merge.PathFrame` | internal/executor/executor.go:353-372 | The value at every path of the overlay, read off the live value and the manifest alone: what the manifest omits survives, what it sets wins, null removes. |
| `Merge.Merge` | internal/executor/executor.go:353-372 | The loop over the override map computes the overlay function, whatever the iteration order. |
| `Merge.CorrectionSurvives` | internal/executor/executor.go:289-303 | An overlay was corrected at one path and the manifest is overlaid again: correcting the path again restores the object if and only if the rest of the manifest is clean. |
| `Drift.StrippedExact` | internal/drift/drift.go:26-50 | Two objects are the same before the digest if and only if they agree on everything but the volatile metadata and the hash annotation; in particular a change of status is drift. |
| `Drift.HashedAlike` | internal/drift/drift.go:15-50 | The same with the names written out: all members but the metadata, all metadata but resourceVersion, uid, generation, creationTimestamp and managedFields, and all annotations but the recorded hash. |
| `Drift.HashObject` | internal/drift/drift.go:26-50 | The statement-by-statement stripping equals the specification that the previous row characterises. |
| `Drift.StampThenCheck` | internal/drift/drift.go:52-72 | A freshly stamped object passes its own drift check if and only if its annotations were stampable. |
| `Drift.StampTwice` | internal/drift/drift.go:65-72 | Stamping is idempotent exactly for stampable objects and for those that cannot be stamped at all. |
| `Drift.StoredObjectMatches` | internal/drift/drift.go:52-72 | A stamped object that the API server stores, rewriting only volatile metadata, matches the hash it carries. |
| `Drift.Stamp` | internal/drift/drift.go:65-72 | Stamping in place yields the stamped object of the specification. |
| `Adopt.ImmutableFieldsAdopted` | internal/executor/executor.go:378-417 | After adoption every immutable spec member is the live one, absent if absent there, and nothing else moved but the one member a correction writes; which members these are is in the next four rows. |
| `UpdatedSpec.UpdatedService` | internal/executor/executor.go:398-404 | The update of a Service carries the live clusterIP, clusterIPs, ipFamilies and ipFamilyPolicy, absence included, whatever the manifest says. |
| `UpdatedSpec.UpdatedClaimFields` | internal/executor/executor.go:389-397 | The update of a PersistentVolumeClaim carries the live volumeName, storageClassName, volumeMode, dataSource, dataSourceRef and selector, absence included. |
| `UpdatedSpec.UpdatedSelector` | internal/executor/executor.go:405-415 | The update of a Deployment, StatefulSet, DaemonSet, ReplicaSet or Job carries the live selector, or none if the live one has none. |
| `UpdatedSpec.UpdatedOtherKinds` | internal/executor/executor.go:378-417 | The update of any other kind, or of an object without a spec on either side, carries the overlay's spec. |
| `UpdatedSpec.UpdatedRequest` | internal/executor/executor.go:442-488 | The storage request sent for a claim is the overlay's if that is no less than the live request and the live capacity, if neither can be read, or if something other than an object is in its way; otherwise it is the live request if that is no less than the capacity, and else the capacity. |
| `UpdatedSpec.UpdatedLabels` | internal/executor/executor.go:423-436 | The template labels sent for a workload: if the live selector demands labels and nothing but objects is in their way, those labels and of the overlay's others all, or none if some label is no string; otherwise the overlay's labels. |
| `Adopt.SelectorSatisfied` | internal/executor/executor.go:423-436 | After label reconciliation the selector is unchanged; the template satisfies it if and only if the label path can be written; the other labels survive if and only if all labels were strings (or there were no others). |
| `Adopt.PvcNeverShrinks` | internal/executor/executor.go:442-488 | The request ends at or above the live request and the live capacity if and only if its path can be written; a request that is large enough keeps its own text. |
| `Adopt.AdoptImmutableFields` | internal/executor/executor.go:378-417 | The in-place adoption, correction included, yields the object of the specification. |
| `Adopt.ReconcileSelectorLabels` | internal/executor/executor.go:423-436 | The in-place label loop yields the object of the specification. |
| `Adopt.ClampPvcStorage` | internal/executor/executor.go:442-458 | The in-place clamp yields the object of the specification. |
| `Adopt.PvcStorageFloor` | internal/executor/executor.go:468-488 | The larger readable one of live request and live capacity, and none if neither can be read. |
| `Redeploy.RedeployExactly` | internal/executor/executor.go:289-303 | For every kind, live object and manifest whose overlay has object metadata, and a collision-free digest (or stampable annotations, with any digest): updating again sends exactly the object the first update sent if and only if the manifest is clean outside its spec and annotations, the annotations settle and the spec stays, a condition on live object and manifest. |
| `Redeploy.SettleExactly` | internal/drift/drift.go:52-72 | The condition on the annotations: stamping the overlay again keeps and hashes the same annotations if and only if they are legible (all strings, or none besides the hash), or they are the manifest's alone and the stamp keeps none of them. |
| `Redeploy.RedeployFixpoint` | internal/executor/executor.go:289-303 | Under that condition, with any digest, if the API server rewrites volatile metadata of the stored object, the second update is the same but for that. |
| `UpdatedObject.NamedHasMetadata` | internal/executor/executor.go:262-288 | A manifest that names its object, as one must for a live object to be found, leaves metadata that is an object. |
| `Specs.SpecStaysExactly` | internal/executor/executor.go:378-488 | The condition on the spec, by kind: a claim settles if and only if the manifest is clean apart from an overwritten request and the request fits the capacity; a workload if and only if it is clean apart from overwritten labels and the labels stay hidden or plain; any other kind if and only if its own members are clean. |
| `Specs.NewSpecStaysExactly` | internal/executor/executor.go:378-488 | The same for a spec the live object did not have: it is stored uncorrected, so it stays if and only if it is free of nulls and the correction has nothing to do. |
| `RedeployLimits.NullInNewObject` | internal/executor/executor.go:353-372 | A null inside an object the manifest introduces, at any path outside the spec, the annotations and the resource version, is stored by the first update and removed by the second. |
| `RedeployLimits.NullInConfigMap` | internal/executor/executor.go:353-372 | For example a null in the data of a named ConfigMap that had no data. |
| `RedeployLimits.UnquotedAnnotation` | internal/drift/drift.go:65-72 | A manifest annotation that is neither string nor null, over a live object with an annotation the manifest does not mention: only the hash is sent, the object fails its own drift check, and the second update sends something else. |
| `RedeployLimits.PortAnnotation` | internal/drift/drift.go:65-72 | For example an unquoted port over an owner annotation of a named Service, although everything but the annotations settles. |
| `UpdatedObject.AppliedObjectMatches` | internal/executor/executor.go:289-303 | After an update, the stored object passes the drift check against the hash it carries if and only if the corrected overlay was stampable, that is, its annotations were legible. |
| `UpdatedObject.UpdatedElsewhere` | internal/executor/executor.go:340-344 | The update body at every path that leads neither through nor to one the agent writes (immutable spec members, the corrected request or labels, resource version, annotations), read off live object and manifest: what the manifest omits is the live value, what it sets wins, null removes. |
| `UpdatedObject.UpdatedVersionAndHash` | internal/executor/executor.go:289-303 | The update carries the live resource version, or none if there is none, and under the hash annotation the digest of the corrected object. |
| `UpdatedObject.UpdatedAnnotation` | internal/drift/drift.go:65-72 | An annotation of the overlay is sent as it is if and only if it is a string and all annotations can be read. |
| `UpdatedObject.UpdatedClaimNeverShrinks` | internal/executor/executor.go:378-488 | The request sent for a claim is at least its live request and capacity if and only if its path can be written; a request that is large enough keeps its own text. |
| `UpdatedObject.UpdatedWorkloadMatches` | internal/executor/executor.go:378-436 | The object sent for a workload has the live selector; its template carries the selector labels if and only if the label path can be written; the other labels survive if and only if all were strings (or there were no others). |
| `Redeploy.UpdateBody` | internal/executor/executor.go:289-303 | Overlay, live resource version, adoption and stamp, in this order, yield the update body of the specification. |
| `SignedOrder.TextInOrder` | SERVER.md:263-291 | For every command, the signed text line by line: which field stands where, in full. |
| `SignedOrder.ReadBack` | internal/protocol/sign.go:13-51 | A reader that takes the text apart line by line gives back every field, with digests in place of payload and values, for every command without newlines in its fields. |
| `SignedText.PayloadIsUnambiguous` | internal/protocol/sign.go:13-51 | The text of a pinned-down command is the text of no other command, whatever the other holds: every field, both digests and the presence of the helm block agree. |
| `SignedText.UnambiguousExactly` | internal/protocol/sign.go:13-51 | The text of a command pins it down if and only if no field next to another free field holds a newline, no later line of the nonce could be a timestamp, no earlier line of the expected hash could be a digest, and, with a helm block, no later line of it could be the override flag. |
| `SignedText.SingleLineIsPinnedDown` | SERVER.md:263-291 | In particular a command without newlines in its fields is pinned down. |
| `Signing.SplitJoin` | SERVER.md:263-291 | Cutting the text at newlines gives back the lines, each cut at its own newlines. |
| `Replay.ReplayIsBounded` | internal/receiver/receiver.go:162-185 | Over every sequence of deliveries, between two dispatches with the same nonce, id and timestamp there are at least 10,000 other fresh ids and 10,000 other dispatched nonces, all distinct, and the two dispatches lie within twice the clock window of each other. |
| `Replay.SignedTextIsBounded` | internal/receiver/receiver.go:162-185 | The same for two dispatches of the same signed text, if that text has only one reading. |
| `Replay.OnlySignedCommands` | internal/receiver/receiver.go:230-247 | Over every sequence of deliveries, every dispatched command was delivered, its signature verifies, its timestamp is within 300 seconds of the local clock, the writer is enabled and the key could be read. |
| `Replay.DispatchedExactlyWhen` | internal/receiver/receiver.go:230-247 | After every sequence of deliveries a command is dispatched if and only if its id is not among the last 10,000 fresh ids, the writer is enabled, the key could be read, the signature verifies, the timestamp is within 300 seconds, and its nonce is not among the last 10,000 dispatched ones. |
| `Replay.RefusedExactlyWhen` | internal/receiver/receiver.go:162-185 | Which verdict it is when several of these fail: a known id is dropped; otherwise the refusal names the first of read-only mode, unreadable key, bad signature, clock skew and replayed nonce. |
| `Replay.RememberedExactly` | internal/receiver/receiver.go:162-185 | What one more command leaves behind: its id is remembered if it was fresh, refused or not, and the command is logged as dispatched if it was; nothing else changes. |
| `Replay.RunKeeps` | internal/receiver/receiver.go:319-341 | Over every run the two windows are the last entries of the logs, and no window ever held an entry twice. |
| `Receiver.NonceCache.Seen` | internal/receiver/receiver.go:330-341 | The bounded cache answers membership in the window of the last entries and appends a new entry, dropping the oldest. |
| `Receiver.Receiver.Validate` | internal/receiver/receiver.go:230-247 | The refusals in order; the nonce is recorded only when everything else passed. |
| `Receiver.Receiver.Process` | internal/receiver/receiver.go:162-185 | One command: a known id is dropped silently; anything else is answered by one report for its id, received if it is dispatched and refused with the reason otherwise; it is dispatched if and only if id and nonce are fresh, the writer is enabled, the key could be read, the signature verifies and the clock agrees within 300 seconds. |
| `Receiver.Receiver.Run` | internal/receiver/receiver.go:111-158 | The poll loop, with commands pushed over the socket, reports delivered and messages arriving at any point of it, processes the commands of both channels as one run of the command specification, and performs exactly the steps of the report protocol that the rounds of the script call for: one poll of the whole queue per round, one answer per fresh command, every report handed on. Only signed commands within the clock window are dispatched. |
| `Receiver.Receiver.Round` | internal/receiver/receiver.go:122-157 | One round performs exactly its steps; its poll was sent, and is confirmed, with what it carried gone from the queue, if and only if the response was ok. |
| `ReceiverRounds.EveryRoundPolls` | internal/receiver/receiver.go:111-158 | Over every script, the polls sent are the earlier ones and one per round with the queue at its start; the confirmed ones are the earlier ones and those of the ok rounds; whatever an ok round carried has left the queue. |
| `ReceiverRounds.EveryReportIsIssued` | internal/receiver/receiver.go:187-207 | Over every script, every report a handler makes in any round is handed to `deliverReport`. |
| `ReceiverRounds.EveryCommandIsProcessed` | internal/receiver/receiver.go:136-157 | Over every script, every command of a response is processed, also when the response is not ok, and none of a failed poll; so is every command pushed over the socket while a round goes on. |
| `ReceiverRounds.IssuedExactly` | internal/receiver/receiver.go:187-207 | Over every run, the reports handed on are those of its delivery steps, in order. |
| `Reports.TerminalReportArrives` | internal/receiver/receiver.go:187-207 | Over every run with loss, delay and repetition, a terminal report is still queued, or the control plane holds a terminal status for its command, or 1,000 later reports were queued. |
| `Reports.ReportsConserved` | internal/receiver/receiver.go:261-310 | Over every run the queue is the end of everything queued, in order and at most 1,000 long, and what left it was carried by a successful poll or pushed out by 1,000 later reports. |
| `Reports.ConfirmedForGood` | SERVER.md:170-173 | Once a successful poll carried a terminal report, the status of its command is terminal, was reported, and never changes again. |
| `Reports.OnlyTerminalStatusWins` | SERVER.md:170-173 | If all terminal reports of a command agree, a settled command has that status. |
| `Reports.SettledForGood` | SERVER.md:170-173 | A terminal status is never overwritten in any continuation of any run. |
| `Receiver.ReportQueue.Enqueue` | internal/receiver/receiver.go:273-281 | At capacity the oldest report goes; the new one is last. |
| `Receiver.ReportQueue.ClearSent` | internal/receiver/receiver.go:297-310 | The sent reports at the front go, by identity. |
| `Receiver.ClearedExactly` | internal/receiver/receiver.go:294-310 | Clearing by identity removes exactly the still-queued reports the poll carried, whatever was queued or pushed out meanwhile. |
| `Receiver.Receiver.DeliverReport` | internal/receiver/receiver.go:194-207 | A report is queued unless the socket took it, terminal ones in any case; the queue stays the one of the report protocol. |
| `Receiver.Receiver.Poll` | internal/receiver/receiver.go:122-157 | A poll takes a snapshot, reports and pushed commands come in meanwhile, and only an ok response clears what was carried. |
| `Executor.Executor.HandleCommand` | internal/executor/executor.go:77-108 | For every behaviour of the API server: the reports follow the grammar; with dry runs configured, creates, updates, patches and deletes come right after an accepted dry run of the same operation and no other write does; and the trace shows what the following rows say for its verb. |
| `Outcomes.ApplyShows` | internal/executor/executor.go:249-325 | An apply wrote the first objects of the manifest, one after the other, and nothing else: each was read and written under the manifest's own name and namespace (the target's where the manifest has none) and resource, created with its stamp if nothing was found, updated over what was found otherwise; all of them on success; refused if and only if the next object read is protected. |
| `Outcomes.PatchShows` | internal/executor/executor.go:492-553 | A patch: refused if and only if the patch type is none of the three or the target read is protected; on success the target was patched, read again right after, and the hash of what was read then was sent; nothing else was written. |
| `Outcomes.DeleteShows` | internal/executor/executor.go:557-589 | A delete: refused if and only if the target read is protected; on success it was removed or was not there; nothing else was written. |
| `Outcomes.DrainShows` | internal/executor/executor.go:596-685 | A drain: every eviction asked for comes after cordoning and listing and is of a listed pod on the node that is no mirror pod, not of a daemon set and in no protected namespace; on success every such listed pod was evicted or gone; nothing but the cordon was written. |
| `Outcomes.BoundShows` | internal/executor/executor.go:640-675 | A drain asks for at most as many evictions per pod as fit between retries two seconds apart before it stalls, and one more. |
| `Outcomes.RenewalShows` | internal/executor/executor.go:725-783 | A renewal: the certificate was read, and a request named after it and the time, with its own issuer and usages, is all that was written, exactly on success. |
| `Outcomes.RehearsalsShow` | internal/executor/executor.go:305-318 | With dry runs configured, a real write comes right after an accepted dry run of the same operation and its two reports if and only if it creates, updates, patches or deletes an object. |
| `Placement.LocatedExactly` | internal/executor/executor.go:213-267 | Where a manifest object goes: under its own name and namespace if it has them, else the command target's; to the resource discovery finds, without namespace if that is cluster-scoped, and to the target's resource only when discovery has no match; every other path of the object is the manifest's. |
| `Placement.CreatedBody` | internal/executor/executor.go:289-305 | The body of a new object is the manifest with the digest of its own content under the hash annotation; every path outside the annotations is the manifest's, and so are the other annotations if they can be read. |
| `Placement.AllowedExactly` | internal/executor/executor.go:132-157 | A live object is protected if and only if a hash was given, its content does not have it, and the policy is to refuse, or to ask for an approval the command does not carry. |
| `Placement.RecordedExactly` | internal/executor/executor.go:534-549 | The hash recorded after a patch is the digest of what was read after it. |
| `Executor.Executor.ApplyManifest` | internal/executor/executor.go:249-325 | Each object was looked up where it belongs and then created or updated as that answer calls for, one after the other: all of them on success, those before the failing object otherwise; refused if and only if the next object read has drifted. |
| `Executor.Executor.ApplyObject` | internal/executor/executor.go:262-323 | One object: what the API server answered for it decides between create and update, the body is the specified one, nothing is written over an answer the drift policy protects, and the command is refused if and only if it was so protected. |
| `Executor.Executor.CheckDrift` | internal/executor/executor.go:132-157 | Proceeds exactly when the hash is not given, matches, or the policy allows the overwrite; otherwise one refusal is reported. |
| `Executor.Executor.PatchTarget` | internal/executor/executor.go:492-553 | Patches an object that may be overwritten; right after the accepted patch the object is read again, and the hash recorded is that of what was read then; refused if and only if the type is unknown or the object drifted; nothing written unless it succeeds. |
| `Executor.Executor.DeleteTarget` | internal/executor/executor.go:557-589 | Deletes an object that may be overwritten, or finds none; refused if and only if it drifted. |
| `Executor.Executor.Drain` | internal/executor/executor.go:596-685 | The pods to evict are the evictable ones of the listing the API server returned; every eviction comes after cordoning and listing; the evicted ones are the first of them in list order, with progress after each; the drain succeeds if and only if all are gone; the evictions asked are bounded; the node is never uncordoned. |
| `Executor.Executor.EvictPod` | internal/executor/executor.go:640-675 | Retrying one pod ends: gone, stalled (only once the timeout has passed) or cancelled, and asks for at most a computed number of evictions, all of that pod. |
| `Executor.Executor.Uncordon` | internal/executor/executor.go:689-707 | The node is made schedulable if and only if success is reported. |
| `Executor.Executor.RotateCertificate` | internal/executor/executor.go:725-783 | A renewal for the certificate found and its own issuer is created if and only if success is reported. |
| `Executor.Executor.Mutate` | internal/executor/executor.go:305-318 | Dry run when configured, the report, the real write: the write is accepted, and is the last thing asked, if and only if the handler goes on. |
| `ReportGrammar.FinishedReports` | SERVER.md:174-178 | A finished trace starts with validating, has exactly one terminal report and that last; dry-run precedes each applying when configured and appears only then; progress and applying never mix. |
| `ReportGrammar.PausedReports` | internal/executor/executor.go:596-685 | A stalled drain ends on a progress report and reported nothing terminal. |
| `ReportGrammar.ProgressClimbs` | internal/executor/executor.go:596-685 | Drain percentages are done times 100 over total, rounded down; with the one a stalled drain adds they never fall, stay within 0 and 100, and are 100 exactly with the last pod. |
| `Commands.EvictablesPrefix` | internal/executor/executor.go:626-646 | The pods to evict are the listed ones that are not skipped, in list order. |
| `Commands.NeverSkipped` | internal/executor/executor.go:626-646 | The pods to evict are exactly the listed pods on the node that are no mirror pods, not of a daemon set and in no protected namespace. |

## Left out

- RedeployExactly: overlays without object metadata are not characterised; an update needs a named object (`NamedHasMetadata`), so they do not occur.
- Convergence: does not cover a spill file left over from an earlier process.
- SeqFileRoundTrip: int64 wrap-around of the number is not modelled; statements that need it bound the number of steps.
- Receiver.Run: the unsynchronised use of the nonce cache by both channels is not modelled; one command is processed at a time.
- Merge: aliasing between the merged object and its inputs is not modelled; JSON objects are values.
- Sending over HTTP and WebSocket, keep-alive, authentication, back-off jitter and shutdown.
- Ed25519, SHA-256, base64, JSON and YAML codecs, quantity parsing, and manifest decoding (a decoded manifest or its failure is an input).
- The Helm verbs, whose work is done by the Helm library.
- The validator for verbs and namespaces, which would add only easy members.
- Disk failures: a spill file that cannot be written or read, corrupt or over-long lines in it.
- Discovery, REST mapping and informer machinery: the mapping is an input, cache changes are steps. Stripping of Secret payloads.
- Texts of reports and diffs, metrics, logging, health endpoints, configuration loading, the mock server and the chart.
- The control plane's skipping of unknown operations and its deduplication of reports.
