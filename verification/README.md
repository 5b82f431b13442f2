# NoKV: a verified model of stable append and the tooling around it

NoKV publishes immutable artifacts from a metadata service and an object store. Its central promise is
the stable append: a caller may retry one logical operation after any crash, lost reply, abort or owner
change, and the operation still takes effect at most once, with one receipt that never changes. Around
the service the repository has a wire codec, fault-injecting proxies, client recovery loops, and release
and governance scripts. This project models those parts in Dafny and proves what they promise for every
input, every interleaving or every run.

`dafny verify dfyconfig.toml` checks everything. One module per file:

- `BigEndian`, `Utf8`, `MessagePack`, `MessagePackProofs`: the RPC value codec. The decoder is a class
  that advances an offset, as the original does, proved against a recursive specification.
- `AppendRecords`, `AppendLedger`: the durable records of an append and every metadata command on them,
  as one state machine. A digest is modelled by the value it commits to. Request identities of cleanup
  retries come from an arbitrary function, so nothing depends on them being free of collisions.
- `AppendInvariant`, `AppendPreservation`: what each command keeps, and hence every run.
- `AppendTheorems`, `AppendBodies`, `AppendRounds`, `AppendProgress`: the promises over whole runs, and the
  exact condition under which an unfinished append can still be finished.
- `AppendClient`, `AppendSubmission`: what a caller who submits an append again hears, from the request front
  of the service and through the loop of the client, while anything else happens to the service.
- `DropProxy`, `Rendezvous`, `ObjectProxy`: the fault proxies. Each region under a lock is a method of a
  class and one step of a state machine over all connection threads; a thread may raise wherever the
  original can.
- `Framing`, `Chunked`: frames and chunked bodies over sockets that deliver arbitrary chunks.
- `Recovery`, `Inspection`: the client loops against a server that answers anything and a clock that only
  moves forward.
- `Lexical`, `Governance`, `GovernanceApi`, `Sections`: the pull-request checks. Case folding and the word
  filter are parameters.
- `Measurement`, `Timeline`, `Escapes`, `Lines`, `StepOutputs`, `Lockfile`, `LockfileProofs`, `Wheels`:
  benchmark arithmetic, escapes, lockfile readers and the release wheel set. SHA-256 is a parameter,
  assumed free of collisions only where that is said.
- `Optional`, `Text`: shared definitions.

Where a promise does not hold of the code as written, the code is kept and the exact condition is proved,
together with an input or a run that breaks it:

- A `wait_dropped` that follows an earlier wait which raised can return normally on the late signal of the
  earlier arm (`SoundExactlyWhenUnclaimed`, `RaisedWaitIsNotEnough`).
- `begin_rendezvous` writes three fields without the lock, so a request between two of them joins the
  barrier as one party too many (`HoldsExactlyTheFirst`, `RacingRequestBreaksIt`), although the class
  comment calls the rendezvous exact.
- Assigning `rule` directly can lose an armed rule (`EveryRuleAccountedFor`,
  `SecondAssignmentLosesTheFirst`).
- A second seal fault replaces the rejection the first one started (`SealRejectsHeads`,
  `SecondSealReplaces`).
- An append whose quarantined state derives a used request identity can never be finished, and for every
  derivation another request can take that identity (`CanFinishUnlessBlocked`, `DeadEndIsReachable`).
- The plain drop proxy does not look at the status of a reply, so it also drops a failed one
  (`OnlyPlainDropsFailures`, `PlainDropsFailure`).
- A chunked body whose stream ends without an empty line behind the last chunk is read forever
  (`SpinsExactlyWithoutBlankLine`, `CutOffBodySpins`).
- A mapping without pairs, or a key with a line feed, is not recovered from the step outputs
  (`RecoversExactlyPlainPairs`, `EmptyIsUnreadable`).
- A heading of white space only has its last white-space character as its name (`HeadingReadsBack`).

## Model

| member | source | states |
|---|---|---|
| `BigEndian.WriteThenRead` | scripts/workbench/append_identity_recovery_gate.py:44-53 | a number that fits its width is read back from its big-endian bytes |
| `BigEndian.ReadThenWrite` | scripts/workbench/append_identity_recovery_gate.py:44-53 | bytes are recovered from the number they denote, so the fixed-width encoding is a bijection |
| `Utf8.EncodeThenDecode` | scripts/workbench/append_identity_recovery_gate.py:61-62 | strict UTF-8 decoding returns every text that was encoded (section 3 of RFC 3629) |
| `Utf8.DecodeThenEncode` | scripts/workbench/append_identity_recovery_gate.py:79-80 | every byte string that decodes is the encoding of what it decodes to: no overlong form, no surrogate is accepted |
| `MessagePack.PutFresh` | scripts/workbench/append_identity_recovery_gate.py:65-66 | a dictionary entry under a new key is appended; keys compare as the language compares them, `True` and `1` being one key |
| `MessagePackProofs.ReadOfPrefix` | scripts/workbench/append_identity_recovery_gate.py:40-92 | reading at any offset of a prefix of the data gives the same result, or the prefix is truncated, for nested lists and maps alike |
| `MessagePackProofs.SelfDelimiting` | scripts/workbench/append_identity_recovery_gate.py:55-87 | a successful read consumes the same bytes whatever follows them |
| `MessagePackProofs.StrictPrefixIsTruncated` | scripts/workbench/append_identity_recovery_gate.py:44-50 | every strict prefix of an accepted encoding is rejected, always as truncated |
| `MessagePackProofs.SuffixIsTrailing` | scripts/workbench/append_identity_recovery_gate.py:89-91 | every nonempty suffix of an accepted encoding is rejected as trailing bytes |
| `MessagePackProofs.ReadOfPacked` | scripts/workbench/append_identity_recovery_gate.py:1170-1213 | at any offset of any data, the bytes `pack_rpc_value` writes for a value are read as that value and nothing more is consumed |
| `MessagePackProofs.RoundTrip` | scripts/workbench/append_identity_recovery_gate.py:1231-1232 | for every value that packs, with distinct keys and integers below 2^64, unpacking the packed bytes returns the value |
| `MessagePackProofs.AcceptedIsPrefixFree` | scripts/workbench/append_identity_recovery_gate.py:40-92 | no accepted encoding is a strict prefix of another |
| `MessagePackProofs.PackingIsPrefixFree` | scripts/workbench/append_identity_recovery_gate.py:1170-1213 | if one packed value is a prefix of another the two values are equal, so packing is injective |
| `MessagePackProofs.Decoder.TakeHeader` | scripts/workbench/append_identity_recovery_gate.py:44-56 | the offset-advancing reader takes exactly the marker and length field the format function describes |
| `MessagePackProofs.Decoder.Read` | scripts/workbench/append_identity_recovery_gate.py:55-87 | the recursive reader returns what the decoder function says and leaves the offset behind the value |
| `MessagePackProofs.Decoder.ReadList` | scripts/workbench/append_identity_recovery_gate.py:83-84 | the element loop returns the list the decoder function says, in order |
| `MessagePackProofs.Decoder.ReadDict` | scripts/workbench/append_identity_recovery_gate.py:85-86 | the entry loop builds the dictionary, later entries replacing earlier ones under the same key |
| `MessagePackProofs.RunUnpack` | scripts/workbench/append_identity_recovery_gate.py:40-92 | the whole decoder equals its specification and enters `read` at most one time more than there are bytes, whatever counts the headers declare |
| `AppendRecords.EdgesKeepValid` | crates/nokv-meta/src/workspace/publish_operation_records.rs:596-868 | every phase edge of an attempt keeps the record's own validity rules, so re-validation never refuses it |
| `AppendInvariant.Moves` | crates/nokv-meta/src/workspace/publication.rs:2341-2398 | every command that is not an admission, a finalization or a removal is one compare-and-set of the attempt it names, and moves it forward |
| `AppendPreservation.AdmittedCore` | crates/nokv-meta/src/workspace/publication.rs:1730-1881 | admission of a first or successor attempt keeps parents, attempts, reservations, log and paths consistent |
| `AppendPreservation.FinalizeCore` | crates/nokv-meta/src/workspace/publication.rs:4214-4772 | the one visible commit moves attempt, parent, path head, body, claim and change log together and keeps them consistent |
| `AppendPreservation.RoundCounts` | crates/nokv-meta/src/workspace/publication.rs:3607-3722 | accepting a cleanup token adds exactly one new token and one retry |
| `AppendPreservation.StateChanges` | crates/nokv-meta/src/workspace/engine.rs:1703-1809 | a request changes the state only by carrying out one command under an unused request identity and recording its result |
| `AppendPreservation.RunsKeepInv` | crates/nokv-meta/src/workspace/publication.rs:1730-4772 | the invariant holds in every reachable state, for any clients, crashes, lost replies, owner changes, clock observations and request-identity collisions |
| `AppendTheorems.ExactlyOnce` | README.md:480-481 | in every run a logical append is published at most once: exactly once if it has a receipt, never if it has none, by one attempt, and the event carries its receipt and payload |
| `AppendTheorems.OneActiveAttempt` | crates/nokv-meta/src/workspace/publication.rs:3922-4010 | of two attempts of one append at least one is durably cleaned |
| `AppendTheorems.ParentHasItsAttempt` | crates/nokv-meta/src/workspace/publication.rs:4011-4051 | a parent always has its current attempt with the same bindings, and a receipt exactly when that attempt published |
| `AppendTheorems.CleanedRevisionStaysReserved` | crates/nokv-meta/src/workspace/publication.rs:3533-3585 | in no later state is anything published under a cleaned attempt's revision, or the revision claimed by another attempt |
| `AppendTheorems.ReceiptsAreStable` | scripts/workbench/append_product_acceptance_gate.py:1339-1356 | a receipt, every finished attempt and the whole log so far are the same in every later state |
| `AppendTheorems.ReplayChangesNothing` | crates/nokv-meta/src/workspace/publication.rs:1730-1791 | sending the admission of a committed append again, under any plan and request, in any later state, changes nothing; it applies exactly when it carries the admitted plan and no owner has changed, and then returns the first receipt |
| `AppendTheorems.RequestsReplay` | crates/nokv-meta/src/workspace/engine.rs:2872-2899 | a request that was carried out returns its first result and changes nothing whenever it is sent again |
| `AppendClient.ParentIdentities` | crates/nokv-server/src/executor.rs:4780-4798 | since the front refuses other identities, every append names those its attempt number derives, in every state of the service |
| `AppendClient.ReplayReturnsTheReceipt` | crates/nokv-client/src/idempotent_append.rs:286-305 | submitting a committed append again, in any later state and after any owner changes, returns exactly the first receipt for the same payload and path and is refused for any other |
| `AppendClient.SubmitsExactlyWhenCleaned` | crates/nokv-client/src/idempotent_append.rs:128-174 | every case of a submission: the next attempt is sent exactly when the identity is unused or its last attempt is durably cleaned, and the status is never contradictory |
| `AppendClient.FrontReplaysExactly` | crates/nokv-server/src/executor.rs:2005-2078 | an admission of a committed append under a new request changes nothing and returns the first receipt exactly when attempt, payload and path are those that committed, whatever else is planned and whoever owns the service |
| `AppendSubmission.Service.Observe` | crates/nokv-client/src/idempotent_append.rs:445-454 | a status that is heard is the append's true state now |
| `AppendSubmission.Service.Attempt` | crates/nokv-client/src/idempotent_append.rs:362-406 | a publication that is heard is the append's one durable receipt for this intent |
| `AppendSubmission.Judge` | crates/nokv-client/src/idempotent_append.rs:299-341 | one look at the status returns the committed receipt, refuses another intent, or submits exactly the attempt the status authorizes |
| `AppendSubmission.PollCleanup` | crates/nokv-client/src/idempotent_append.rs:421-438 | polling ends with a status that is true now, a refusal of another intent, or without an answer |
| `AppendSubmission.SubmitOnce` | crates/nokv-client/src/idempotent_append.rs:350-441 | one submission, with a lost reply resolved by a query before anything else is done |
| `AppendSubmission.AppendIdempotent` | crates/nokv-client/src/idempotent_append.rs:286-443 | whatever happens meanwhile: a reported result is the append's one durable receipt for this intent, a committed append is replayed or refused without a submission, and each of at most `max_attempts` submissions was authorized by a status that left no earlier attempt to publish |
| `AppendBodies.ContiguousGenerations` | scripts/workbench/append_product_acceptance_gate.py:1329-1356 | on a path never removed, committed generations are exactly 1..n in commit order and the live head is the n-th |
| `AppendBodies.LiveBodyIsThePayloads` | scripts/workbench/append_product_acceptance_gate.py:1329-1356 | when clients plan the body their claim implies, the live body is every committed payload once, in generation order |
| `AppendBodies.LiveBodySinceRemoval` | crates/nokv-meta/src/workspace/remove.rs:167-174 | with removals, the same of what was published since the last one, counting generations from one again |
| `AppendRounds.CounterCountsTokens` | scripts/workbench/append_operations_acceptance_gate.py:436-451 | an attempt's retry counter is the number of distinct tokens accepted for it |
| `AppendRounds.SuccessorCountsZero` | crates/nokv-meta/src/workspace/publication.rs:919-929 | a first or successor attempt that is admitted has no accepted token and counts zero |
| `AppendRounds.QuarantineTokenIsFresh` | crates/nokv-meta/src/workspace/publish_operation_records.rs:1218-1247 | the present state of an attempt was never accepted before, so a delayed old request is never taken for a new one |
| `AppendRounds.TokenAcceptedOnce` | scripts/workbench/append_operations_acceptance_gate.py:1037-1135 | two recorded cleanup rounds with one token are one request |
| `AppendRounds.AcceptedTokenReplays` | scripts/workbench/append_operations_acceptance_gate.py:1265-1285 | repeating an accepted token in any later state returns its original receipt and changes nothing, the counter included |
| `AppendProgress.BlockedForever` | crates/nokv-meta/src/workspace/publication.rs:3607-3722 | if a quarantined state's derived request identity is already used, that append stays quarantined in every later state |
| `AppendProgress.StagingStep` | crates/nokv-meta/src/workspace/publication.rs:1883-2240 | an attempt of any planned size whose closure is incomplete can stage, mark as uploaded or list one more batch |
| `AppendProgress.UploadingFinishes` | crates/nokv-meta/src/workspace/publication.rs:1883-4772 | an attempt with any number of objects and manifest rows is staged, uploaded, listed, sealed and committed, if its claim still holds and its size is sealed |
| `AppendProgress.CanFinishUnlessBlocked` | crates/nokv-meta/src/workspace/publication.rs:2465-4010 | in every reachable state an append without a receipt can still be driven to commit, exactly unless it is blocked in that way; then under any unused identities, with any object and row counts that can carry the body, and what is committed is the live body with the payload behind it |
| `AppendProgress.DeadEndIsReachable` | crates/nokv-meta/src/workspace/publication.rs:75-91 | for every derivation of request identities a run leads to such a blocked append: another request takes the identity the quarantined state derives |
| `DropProxy.ResponseDropProxy.Arm` | scripts/workbench/fork_restore_recovery_gate.py:187-193 | arming refuses, changing nothing, while a drop is armed; otherwise stores operation and callback and clears the event |
| `DropProxy.ResponseDropProxy.Take` | scripts/workbench/append_identity_recovery_gate.py:207-214 | one region takes the armed callback for a selected reply and disarms |
| `DropProxy.RunsKeep` | scripts/workbench/append_identity_recovery_gate.py:167-239 | what every interleaving of connection threads, arms and waits keeps |
| `DropProxy.OneDropPerArm` | scripts/workbench/append_identity_recovery_gate.py:207-230 | each arm claims at most one reply, its callback starts at most once and after the claim, and the reply is to the armed operation and, for the proxies that look, successful |
| `DropProxy.OnlyPlainDropsFailures` | scripts/workbench/fork_restore_recovery_gate.py:254-258 | all replies a proxy claims are successful exactly unless it is the plain one, which does not look at the status |
| `DropProxy.PlainDropsFailure` | scripts/workbench/fork_restore_recovery_gate.py:254-262 | a run in which the plain proxy claims a failed reply to the armed operation |
| `DropProxy.NeverDroppedAndDelivered` | scripts/workbench/append_identity_recovery_gate.py:215-231 | no reply is both recorded as dropped and delivered |
| `DropProxy.NormalReturnMeansDropped` | scripts/workbench/append_identity_recovery_gate.py:153-165 | if each arm follows a wait that returned normally, a normal return means the current arm's callback has run to its end |
| `DropProxy.SoundExactlyWhenUnclaimed` | scripts/workbench/fork_restore_recovery_gate.py:187-202 | with no error on record, arming makes every later normal return truthful exactly when no thread still holds an earlier claim it has yet to signal |
| `DropProxy.RaisedWaitIsNotEnough` | scripts/workbench/append_identity_recovery_gate.py:153-165 | the discipline cannot be weakened to a wait that raised: a run in which the late signal of the first arm answers for the second |
| `Rendezvous.PublicationProxy.Enter` | scripts/workbench/append_product_acceptance_gate.py:97-109 | the region a request runs under the lock: it is held and registered exactly when it matches and a place is free |
| `Rendezvous.RunsKeepInv` | scripts/workbench/append_product_acceptance_gate.py:97-120 | what every interleaving of `begin_rendezvous` and request threads keeps |
| `Rendezvous.ForwardedAfterArrivals` | scripts/workbench/append_product_acceptance_gate.py:110-120 | a held request is forwarded only after at least as many parties as there are places have arrived |
| `Rendezvous.HoldsExactlyTheFirst` | scripts/workbench/append_product_acceptance_gate.py:54-59 | the barrier holds exactly the first N matching requests just when no request raced with the three assignments; later matches pass, held ones never do |
| `Rendezvous.AllOrNothing` | scripts/workbench/append_product_acceptance_gate.py:97-120 | when none raced, one forwarded request means all N arrived and are the first N, and a timed-out barrier has forwarded none |
| `Rendezvous.RacingRequestBreaksIt` | scripts/workbench/append_product_acceptance_gate.py:54-59 | with a racing request, one of two is forwarded before the other arrives and the barrier breaks later |
| `ObjectProxy.FaultProxy.Arm` | scripts/workbench/append_product_acceptance_gate.py:418-422 | arming refuses while a rule is armed |
| `ObjectProxy.FaultProxy.CheckReject` | scripts/workbench/append_product_acceptance_gate.py:223-228 | a request is rejected exactly when it has the method and its path contains the part |
| `ObjectProxy.FaultProxy.TakeHold` | scripts/workbench/append_product_acceptance_gate.py:249-266 | the first artifact PUT takes the hold and only it |
| `ObjectProxy.FaultProxy.Claim` | scripts/workbench/append_product_acceptance_gate.py:296-324 | one region takes the rule for a successful matching reply; a seal fault also starts rejecting HEADs on that path |
| `ObjectProxy.FaultProxy.HoldNextPut` | scripts/workbench/append_product_acceptance_gate.py:433-440 | setting a hold clears the release |
| `ObjectProxy.RunRulesOk` | scripts/workbench/append_product_acceptance_gate.py:296-347 | every armed rule is claimed, armed, released or displaced, and only one of these; a claim is recorded once at most by its one thread |
| `ObjectProxy.EveryRuleAccountedFor` | scripts/workbench/append_product_acceptance_gate.py:418-422 | rules armed = faults recorded + claims unrecorded + currently armed + released, exactly in the runs where no unguarded assignment overwrites an armed rule |
| `ObjectProxy.DisplacedExactly` | scripts/workbench/append_operations_acceptance_gate.py:1343-1351 | a rule is lost exactly when an assignment that does not look replaces an armed one |
| `ObjectProxy.FaultsAreReal` | scripts/workbench/append_product_acceptance_gate.py:296-347 | a recorded fault followed a 2xx reply to a request its rule selects, and no rule is recorded twice |
| `ObjectProxy.HeldUntilReleased` | scripts/workbench/append_product_acceptance_gate.py:267-275 | a held PUT is sent only after a release that came after its hold was set, and a hold catches one PUT at most |
| `ObjectProxy.SealRejectsHeads` | scripts/workbench/append_product_acceptance_gate.py:223-248 | after a seal fault and until a release, a HEAD is rejected and never forwarded exactly when its path contains that of the newest seal fault |
| `ObjectProxy.SecondSealReplaces` | scripts/workbench/append_product_acceptance_gate.py:319-324 | a second seal fault lets HEADs on the first path through again, with no release in between |
| `Framing.RecvExact` | scripts/workbench/fork_restore_recovery_gate.py:145-154 | for every chunking, exactly the declared bytes are read, or the peer closed first |
| `Framing.TakeFrame` | scripts/workbench/fork_restore_recovery_gate.py:244-248 | for every chunking, one length-prefixed frame is read |
| `Framing.ReadBack` | scripts/workbench/fork_restore_recovery_gate.py:247-251 | a written frame followed by anything reads back as its payload and that rest |
| `Framing.FoundIsFrame` | scripts/workbench/fork_restore_recovery_gate.py:247-249 | what is read as a frame is the frame that was written, so forwarding header and payload forwards the bytes received |
| `Framing.Forward` | scripts/workbench/fork_restore_recovery_gate.py:243-264 | the relay loop passes on what its specification says, whatever chunks arrive |
| `Framing.RelayIsFaithful` | scripts/workbench/fork_restore_recovery_gate.py:243-264 | a stream of requests reaches the owner byte for byte and each is answered by one whole reply, in order |
| `Framing.RelayChangesNothing` | scripts/workbench/fork_restore_recovery_gate.py:243-264 | whatever either side sends, only a prefix of it is passed on, and a clean end has passed on every request |
| `Chunked.TakeChunks` | scripts/workbench/append_product_acceptance_gate.py:204-218 | the chunked loop returns the body its specification says and leaves the reader behind it, and never ends exactly when no empty line follows the last chunk |
| `Chunked.TakeTrailers` | scripts/workbench/append_product_acceptance_gate.py:212-216 | the trailer loop stops at the first empty line, and never ends exactly when there is none |
| `Chunked.TrailersSpin` | scripts/workbench/append_product_acceptance_gate.py:212-216 | the trailer section is read forever exactly when no line of it is empty, and never raises |
| `Chunked.SpinsExactlyWithoutBlankLine` | scripts/workbench/append_product_acceptance_gate.py:204-218 | on every stream: raises exactly when a size before the last chunk is no number or the stream ends first, runs forever exactly when no empty line follows the last chunk, returns a body otherwise |
| `Chunked.CutOffBodySpins` | scripts/workbench/append_product_acceptance_gate.py:212-216 | a stream that ends behind the last chunk's line is read forever |
| `Chunked.NothingIsLost` | scripts/workbench/append_product_acceptance_gate.py:204-218 | on any stream, the raw body and what is left unread make up the stream |
| `Chunked.ReadsExactlyTheBody` | scripts/workbench/append_product_acceptance_gate.py:204-218 | for every complete chunked body, with extensions and trailers, followed by any bytes, the reader returns precisely the raw body (section 7.1 of RFC 9112) |
| `Recovery.Round` | scripts/workbench/append_product_acceptance_gate.py:2814-2868 | one round of the loop makes at most one query and then at most one append, and only an allowed one |
| `Recovery.RecoverSameIdentity` | scripts/workbench/append_product_acceptance_gate.py:2806-2871 | for any answers and any clock: every append after a status was asked for by it, none directly follows a `query_same` failure, a result comes only from a success or the caller's committed receipt, at most one query and one append begin after the deadline, and the number of calls is bounded |
| `Recovery.QueriedBeforeRetry` | scripts/workbench/append_product_acceptance_gate.py:2868-2871 | after a `query_same` failure a status that asks for the append comes before the next append |
| `Recovery.Pause` | scripts/workbench/append_product_acceptance_gate.py:2869-2871 | a pause gives up once the deadline has passed and otherwise brings it at least half a second, or all the way, nearer |
| `Inspection.SliceIsBlock` | scripts/workbench/append_operations_acceptance_gate.py:174-178 | slicing the fixture at block s gives block s |
| `Inspection.BlocksDiffer` | scripts/workbench/append_operations_acceptance_gate.py:174-178 | distinct blocks differ |
| `Inspection.PageCounts` | scripts/workbench/append_operations_acceptance_gate.py:382-396 | nonempty pages of bounded size bound the number of rows from both sides |
| `Inspection.FetchPages` | scripts/workbench/append_operations_acceptance_gate.py:338-396 | against any server the cursor loop stops within `registered_count` + 2 pages |
| `Inspection.CheckLedger` | scripts/workbench/append_operations_acceptance_gate.py:399-424 | the interval, order and row checks accept exactly the ledgers that list every remaining sequence once with its own block's digest |
| `Inspection.InspectAll` | scripts/workbench/append_operations_acceptance_gate.py:335-427 | an accepted inspection lists every sequence from the cleanup cursor to the registered count once with that block's digest, in between ceil(remaining/limit) and remaining + 1 pages |
| `Inspection.AcceptedRowsIdentifyBlocks` | scripts/workbench/append_operations_acceptance_gate.py:414-424 | for the fixture's own body an accepted row carries the digest of its block and no other row does |
| `Governance.SortedAscends` | scripts/ci/pr_change_governance.py:239-245 | reviews are looked at in (time, id) order, equal keys in the order given |
| `Governance.CurrentApprovals` | scripts/ci/pr_change_governance.py:248-297 | fails exactly when some review cannot be trusted, wherever it stands; otherwise returns the core maintainers, other than author and introducers, whose last decisive review of the exact head approves it |
| `Governance.DecidedAreApprovers` | scripts/ci/pr_change_governance.py:262-297 | the dictionary left by the loop is the set of standing last reviews |
| `Governance.OrderDoesNotMatter` | scripts/ci/pr_change_governance.py:264 | with distinct (time, id) keys, any permutation of the reviews gives the same approvals |
| `Governance.OthersAreIgnored` | scripts/ci/pr_change_governance.py:264-287 | removing a review that is not a decisive one of an eligible maintainer on the head, at any position, changes nothing |
| `Governance.LaterReviewDecides` | scripts/ci/pr_change_governance.py:289-293 | a later decisive review replaces the reviewer's earlier ones: an approval adds them, a dismissal or change request removes them |
| `Governance.EvaluatePolicy` | scripts/ci/pr_change_governance.py:309-344 | a readable small change is allowed; a large one needs introducers and a standing approval; unreadable input fails |
| `GovernanceApi.GetAll` | scripts/ci/pr_change_governance.py:89-105 | the page loop returns the pages up to the first short one and fails after 100 full ones |
| `GovernanceApi.PagingIsFaithful` | scripts/ci/pr_change_governance.py:89-105 | a list served in pages of 100 is returned whole when it has fewer than 10,000 items and is an error otherwise |
| `GovernanceApi.CollectCandidates` | scripts/ci/pr_change_governance.py:125-202 | scanning page by page gathers the same candidates as scanning the concatenated pages |
| `GovernanceApi.Decide` | scripts/ci/pr_change_governance.py:204-217 | the actor of the earliest runs, and an error when there is none or two actors tie |
| `GovernanceApi.GetIntroducer` | scripts/ci/pr_change_governance.py:107-222 | over all pages: the one actor of the earliest candidate runs, failing on any untrusted page or run and on ties |
| `GovernanceApi.IntroducerIsEarliest` | scripts/ci/pr_change_governance.py:107-222 | for a served list, an actor is returned exactly when every run can be trusted and that actor alone made the earliest run of this pull request |
| `Sections.ScanLines` | scripts/ci/pr_description.py:38-56 | the line loop computes the sections and the fence state its specification says |
| `Sections.EveryLineHasItsPlace` | scripts/ci/pr_description.py:42-56 | headings and buckets re-interleave to the body: every other line is in exactly one bucket, in order |
| `Sections.OpenIsEnclosed` | scripts/ci/pr_description.py:43-51 | a fence is open exactly because some line opened it, with none open before, and no later line closes it |
| `Sections.NoHeadingInFence` | scripts/ci/pr_description.py:52-56 | no heading is recognised inside an open fence |
| `Sections.HeadingReadsBack` | scripts/ci/pr_description.py:52 | a printed heading reads back as its name exactly for names without leading white space or closing sequence, and for one white-space character |
| `Sections.PrintReadsBack` | scripts/ci/pr_description.py:42-56 | printing sections and scanning the lines gives the sections back, whatever fences and would-be headings they hold |
| `Sections.ValidateDescription` | scripts/ci/pr_description.py:27-71 | no error exactly when the title is one and, except for Dependabot, the body has the eight sections in order, with content, nothing before them and every fence closed |
| `Measurement.Measure` | bench/src/report.rs:61-68 | the timed loop computes the checksum and the saturated samples |
| `Measurement.ChecksumIsRotatedXor` | bench/src/report.rs:66 | the checksum is the exclusive or of each value rotated by seven times its distance from the end |
| `Measurement.OneDifferenceShows` | bench/src/report.rs:61-68 | equal-length runs that differ in exactly one value have different checksums |
| `Measurement.PercentileIsNearestRank` | bench/src/report.rs:104-108 | without overflow, the least sample that at least the given share of samples does not exceed |
| `Measurement.InterpolationLiesBetween` | scripts/workbench/append_product_acceptance_gate.py:1366-1372 | the interpolating percentile lies between those two samples |
| `Timeline.WindowsAddUp` | scripts/workbench/owner_upload_interference_probe.py:69-70 | neighbouring half-open windows count each sample once |
| `Timeline.MakeTimeline` | scripts/workbench/owner_upload_interference_probe.py:63-77 | the buckets tile the whole time and their request and upload counts sum to the samples in it |
| `Escapes.AnnotationIsPerCharacter` | scripts/ci/pr_change_governance.py:347-348 | the three replacements in sequence are a map from characters to their escapes |
| `Escapes.AnnotationIsDecodable` | scripts/ci/pr_change_governance.py:347-348 | an annotation has no carriage return or line feed and can be read back, so it is injective |
| `StepOutputs.RecoversExactlyPlainPairs` | scripts/ci/image_metadata.py:91-99 | a here-document reader recovers every pair of both outputs exactly when there is a pair and no key has a line feed |
| `StepOutputs.EmptyIsUnreadable` | scripts/ci/image_metadata.py:97-99 | an empty mapping is written as one empty line, which is no pair |
| `Lines.LinesArePieces` | scripts/workbench/append_identity_recovery_gate.py:127 | where the line feed is the only break, `splitlines` and Rust's `lines` both give the pieces between line feeds, without an empty one at the end |
| `Lockfile.LockedVersion` | scripts/workbench/append_identity_recovery_gate.py:124-134 | the line scanner computes what its specification says |
| `LockfileProofs.SplitPrinted` | crates/nokv/build.rs:98-101 | splitting a printed lockfile, blank lines between its entries, at the headers gives exactly its entries |
| `LockfileProofs.BodyField` | crates/nokv/build.rs:122-134 | a field of an entry reads back as printed, and as missing when it was not printed |
| `LockfileProofs.ScanPrinted` | scripts/workbench/append_identity_recovery_gate.py:124-134 | on the lines `splitlines` gives, the scanner returns the version of the first entry of the name |
| `LockfileProofs.ReadersAgree` | crates/nokv/build.rs:98-134 | for a package locked once, from a registry, both readers return the printed version |
| `LockfileProofs.SplitterIsStrict` | crates/nokv/build.rs:98-120 | whenever the splitter accepts, the entry is the only one of its name and the scanner returns the same version |
| `Wheels.WheelNameReadsBack` | scripts/release/python_sdk_release.py:41-44 | a wheel's name reads back as its version and platform tag |
| `Wheels.OnlyItsNameIsRead` | scripts/release/python_sdk_release.py:41-44 | nothing else is read as that wheel |
| `Wheels.PlatformIsTheOwner` | scripts/release/python_sdk_release.py:150-159 | a name is classified to a platform exactly when that platform is the one owner of its tag |
| `Wheels.ClassifyWheels` | scripts/release/python_sdk_release.py:132-167 | succeeds exactly when every visible file is a wheel of the version and wheels and platforms correspond one to one |
| `Wheels.VerifyManifest` | scripts/release/python_sdk_release.py:219-232 | verifies exactly when the schema is right and the directory is a wheel set that has every wheel the manifest names, under a platform there is, with its file name and digest |
| `Wheels.ManifestPinsTheFiles` | scripts/release/python_sdk_release.py:170-195 | a manifest built from one directory verifies on another exactly when both show the same files, for a digest without collisions |
| `Rendezvous.PublicationProxy.SetBarrier` | scripts/workbench/append_product_acceptance_gate.py:55-57 | first assignment: refuses while a rendezvous is registered |
| `MessagePackProofs.Decoder.ReadEntry` | scripts/workbench/append_identity_recovery_gate.py:65-66 | a key is read before its value, and an unhashable key fails after both were read |
| `Recovery.Ask` | scripts/workbench/append_product_acceptance_gate.py:2815-2820 | the caller's status is used once unless it is empty; otherwise the server is asked |
| `Recovery.Submit` | scripts/workbench/append_product_acceptance_gate.py:2850-2867 | an append that fails must keep the caller's identity |
| `Inspection.CheckSequences` | scripts/workbench/append_operations_acceptance_gate.py:408-413 | accepts exactly the rows whose sequences run from the cleanup cursor to the registered count |
| `Inspection.CheckRows` | scripts/workbench/append_operations_acceptance_gate.py:414-424 | accepts exactly the rows that carry their own block's length, digest and identity |
| `GovernanceApi.GatherPage` | scripts/ci/pr_change_governance.py:148-202 | the run loop of one page gathers its candidates and fails on an untrusted run |
| `GovernanceApi.GatherMeans` | scripts/ci/pr_change_governance.py:148-202 | the candidates are exactly the runs of this pull request, repository, branch and time |
| `Sections.CheckNames` | scripts/ci/pr_description.py:58-59 | accepts exactly the eight names in order |
| `Sections.AnyText` | scripts/ci/pr_description.py:60-61 | finds exactly a line that is not blank |
| `Sections.CheckContents` | scripts/ci/pr_description.py:64-70 | no problem exactly when every named section has content |
| `Chunked.TakeChunk` | scripts/workbench/append_product_acceptance_gate.py:206-210 | one turn of the loop: a bad size line, the last chunk, or a chunk with its data |
| `Wheels.Classify` | scripts/release/python_sdk_release.py:144-166 | the loop over the listing accepts exactly the directories that are wheel sets |
| `ObjectProxy.SecondAssignmentLosesTheFirst` | scripts/workbench/append_operations_acceptance_gate.py:1343-1351 | two assignments in a row lose the first rule |

## Left out

- AppendBodies.LiveBodyIsThePayloads: assumes that clients plan the body their claim implies, as the client does (crates/nokv-client/src/artifact.rs:1147-1166); the service stores the digest it is given and does not recompute it.
- AppendBodies.ContiguousGenerations: is stated for paths without removals, since a removed path counts from one again; `LiveBodySinceRemoval` covers the rest.
- Measurement.PercentileIsNearestRank: assumes the product of length and percentage does not saturate, and a percentage of at most 100.
- Governance.CurrentApprovals: returns the approving logins as a set; the final sort of the names is not modelled.
- Chunked.TakeTrailers: the endless loop of the original is the result `Spins`, returned exactly where `SpinsExactlyWithoutBlankLine` says.
- AppendTheorems.RequestsReplay: a repeated request is the same command under the same identity; the digest the engine compares also covers owner epoch and read version (crates/nokv-meta/src/workspace/engine.rs:221-250), so a new owner's repetition of a recorded request is a different one there. `ReplayReturnsTheReceipt` and `FrontReplaysExactly` hold across owner changes.
- AppendProgress.CanFinishUnlessBlocked: is about the metadata service, where an attempt may carry any unused identities; the identities the request front derives for the next attempt are such ones unless they are already in use.
- AppendSubmission.AppendIdempotent: input limits, the overflow of the attempt counter and the length of pauses are not modelled; the commands of an attempt are sent among those of everyone else.
- LockfileProofs.ReadersAgree: is stated for values without quotes, brackets and line breaks of any kind; `splitlines` also breaks at characters Rust does not.
- Wheels.VerifyManifest: takes a manifest that is already decoded; one that is not JSON or lacks its version or an entry's file name or digest raises before.
- Sections.ValidateDescription: takes the body as lines with comments already removed; the comment-stripping pattern and `splitlines` are not modelled.
- Update in place in the metadata store: commands are functions from state to state, one atomic step each; the key-value rows, codecs and write-ahead log behind them are not modelled.
- Object and manifest row contents, garbage collection and reference counts of the metadata service: attempts carry only their counters.
- Commits, snapshots, forks, restores, queries, renames and generic indexes of the metadata service.
- Restore-manifest publications and the reconciliation of non-append quarantines, which refuse appends.
- The client and server crates beyond the append submission loop and its request front; routing, sockets, TLS, etcd and the object store.
- Python's recursion limit in `unpack`, and floats as dictionary keys beyond comparing their bits.
- Bodies delivered by the object proxy (`corrupt_body`, `read_503`) and the held seal response: the model ends a request once its fault is recorded.
- Operation lists kept for error messages by the drop proxies, and evidence files in general.
- Rounding and floating point in elapsed times, percentiles and timelines; reals are used instead.
- `publication_shapes`, `cleanup_receipt`, `encode_hex`, `is_lower_hex`, `validate_stable_tag`, `render_checksums` and `summary`: they would only add easy members.
- Source-bound qualification producers, evidence validators and scenario tables: static data or straight-line checks.
