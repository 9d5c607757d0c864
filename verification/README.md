# Verification of the thornado signer and its wire messages

This project models, in Dafny 4.11, the parts of thornado whose correctness is hardest to see from
the code: the FROST signing and key generation sessions of the bifrost signer, the way parties are
formed and frames routed, the signing work queue, the reorg-aware observer, and the protocol buffer
messages the chain agrees on. `dafny verify dfyconfig.toml` checks all of it.

How the pieces are modelled:

- Objects that change in place are classes whose methods are proved to perform exactly one transition
  of a value-level state machine; the theorems over runs are lemmas about that state machine.
- The frost crate, base64, serde_json and the arbitrary-precision integer of the chain are values of
  function type. What a theorem needs of them is a named hypothesis: `SignProtocol.Correct`,
  `KeygenProtocol.Correct`, `ChildTweak.Lawful`, `Messages.Faithful`.
- Scalars are integers modulo a prime, compared by congruence. Time is real-valued in the keygen retry
  queue; elsewhere a deadline is an event that may fire at any point.
- Networks are sets of envelopes (signing) or channels per ordered pair (key generation). Tables of the
  database are maps. Block hashes name blocks, up to letter case (`Observer.NoCollisions`).
- A varint's groups are added rather than or-ed: they never overlap. The sum is cut to the width of the
  field it goes to, 32 or 64 bits, signed or unsigned.

Where the code does less than its comments promise, the model follows the code and says when exactly
the promise holds:

- `maybe_part3` fails when all round-2 packages arrive before the last round-1 package:
  `HonestDealer.SurvivesIffRoundsInOrder`, `KeygenProtocol.ReorderedChannelFails`.
- The observer rescans at most `max_reorg_rescan` blocks: `ObserverRuns.ScanCanonicalIff`,
  `ObserverRuns.BeyondBudgetStaysStale`.
- Pruning can make the two spent indexes disagree: `SpentIndex.PruneKeepsAgreementIff`.
- A frame can be held back for a session that is already registered: `RouterRuns.CleanIffRaceless`,
  `RouterRuns.StrandedFrame`.
- A keygen id scanned again while its task is between two locks is queued twice, and one scanned again
  after it was abandoned starts counting attempts anew: `KeygenRetryRuns.QueuedTwiceIff`,
  `KeygenRetryRuns.RescanKeepsInvIff`, with the runs `ScannedInTheGap` and `EighteenthAttempt`.
- Whether a clashing attestation is ignored or refused can depend on the order of what was recorded:
  `Attestations.DocumentedIff`, `Attestations.OrderIrrelevantIff`, `Attestations.AnswerDependsOnOrder`.

Files: `Sorting`, `Names`, `Bytes` hold what several parts share. `SignSession`, `SignBlame`,
`SignProtocol`, `SignDriver`, `KeygenSession`, `KeygenBlame`, `KeygenProtocol`, `Keyshares`, `Scalars`,
`ChildTweak` model `frost_session.rs` and the session drivers; `Router`, `Party`, `Batching`,
`SignLoop`, `KeygenRetry` the daemon around them; `Observer`, `SpentIndex`, `Attestations`,
`CompactJson` the observation side; `Wire`, `Messages`, `ObservedMessages`, `Layout`, `Marshal`,
`Payload` the messages of `go-thornado/common`.

## Model

| member | source | states |
|---|---|---|
| `Names.NormalizeIsCanonical` | crates/thornado-bifrost-signer/src/frost_session.rs:145-150 | the normalised list is sorted, has no repeats and holds exactly the names given |
| `Names.NormalizeDependsOnSetOnly` | crates/thornado-bifrost-signer/src/frost_session.rs:145-150 | two lists of the same names, in any order and with any repetition, normalise to the same list |
| `Names.LexLeIff` | crates/thornado-bifrost-signer/src/frost_session.rs:145-150 | names are ordered as texts: a prefix first, else the one that is smaller where they first differ |
| `Names.IdentifierRoundTrip` | crates/thornado-bifrost-signer/src/frost_session.rs:54-60 | the name of a member's identifier is that member |
| `Names.IdentifierCapacity` | crates/thornado-bifrost-signer/src/frost_session.rs:153-160 | every member has an identifier if and only if there are fewer than 65536 members |
| `Names.IdentifierInjective` | crates/thornado-bifrost-signer/src/frost_session.rs:153-160 | different members have different identifiers |
| `SignSession.Session.DrainOutputs` | crates/thornado-bifrost-signer/src/frost_session.rs:649-651 | returns everything queued and leaves nothing queued, all else unchanged |
| `SignSession.Session.MaybeAggregateStep` | crates/thornado-bifrost-signer/src/frost_session.rs:740-814 | the in-place step performs exactly the aggregation transition, error cases included |
| `SignSession.Session.MaybeSignStep` | crates/thornado-bifrost-signer/src/frost_session.rs:702-738 | the in-place step performs exactly the signing transition, error cases included |
| `SignSession.Session.HandleMessage` | crates/thornado-bifrost-signer/src/frost_session.rs:662-700 | feeding a message performs exactly the transition of the session's state machine |
| `SignSession.NewIsFresh` | crates/thornado-bifrost-signer/src/frost_session.rs:583-643 | a new session has unused nonces, no result and no queued share |
| `SignSession.StartsIff` | crates/thornado-bifrost-signer/src/frost_session.rs:573-643 | a session starts if and only if the selected members hold the share, this party among them, and the packages, the tweak, the commitments and the identifier can be used |
| `SignSession.StartAnnounces` | crates/thornado-bifrost-signer/src/frost_session.rs:599-610 | its first and only message carries its commitment to every other selected member, once |
| `SignSession.NoncesUsedOnce` | crates/thornado-bifrost-signer/src/frost_session.rs:662-814 | for every message sequence: uses of the nonces and unused nonces add up, a share is queued only for a use, and a stored result is the aggregate over the session's own commitments and shares, verified for a raw key |
| `SignSession.FreshSessionSignsAtMostOnce` | crates/thornado-bifrost-signer/src/frost_session.rs:662-814 | for every message sequence, malformed and foreign ones included: at most one signing call, at most one queued round-2 message, and a result once set never changes |
| `SignBlame.LastShareBlames` | crates/thornado-bifrost-signer/src/frost_session.rs:740-781 | when the last share makes the aggregation reject the keygen identifiers of some members, exactly those are blamed and recorded, one abort naming them goes to every other selected member, and no result is kept |
| `SignBlame.LastCommitmentBlames` | crates/thornado-bifrost-signer/src/frost_session.rs:702-781 | the same when the last commitment completes the shares, the own share being sent first |
| `SignBlame.NobodyToBlame` | crates/thornado-bifrost-signer/src/frost_session.rs:763-770 | a rejection that points at no holder is an error that blames and tells nobody |
| `SignBlame.LastShareSettles` | crates/thornado-bifrost-signer/src/frost_session.rs:783-814 | nothing rejected: the signature is kept exactly when it prints in 64 bytes and, for a raw key, verifies |
| `SignBlame.PeerAbortRecorded` | crates/thornado-bifrost-signer/src/frost_session.rs:685-695 | a peer's abort is recorded under the names it carries and nothing is sent on |
| `SignBlame.RefusedWithoutTrace` | crates/thornado-bifrost-signer/src/frost_session.rs:662-698 | strangers, unreadable messages and other kinds are refused without a change, and a finished session takes nothing in |
| `SignBlame.BlameHasCause` | crates/thornado-bifrost-signer/src/frost_session.rs:740-781 | whoever is blamed for the aggregation stands at an identifier it rejected, with everything in |
| `HonestSigner.HonestRound1` | crates/thornado-bifrost-signer/src/frost_session.rs:662-738 | an honest commitment delivered to an honest party, first time or again, keeps the party invariant and signs exactly when it is the last |
| `HonestSigner.HonestRound2` | crates/thornado-bifrost-signer/src/frost_session.rs:662-700 | an honest share, early or late, first time or again, is kept and completes the signature exactly when it is the last |
| `SignProtocol.SigningAgreement` | crates/thornado-bifrost-signer/src/frost_session.rs:662-814 | any n >= 2 honest selected parties, with or without a child tweak, any delivery order with duplicates: nobody fails, whoever finishes holds the one aggregate signature, and once nothing is undelivered everybody has finished |
| `SignProtocol.NoDeadlock` | crates/thornado-bifrost-signer/src/frost_session.rs:662-814 | from every reachable state, child-tweaked sessions included, finitely many further deliveries bring every party to the one signature |
| `SignDriver.FlushAll` | crates/thornado-bifrost-signer/src/transport.rs:109-116 | every session's first outputs are sent under its own id and no session changes otherwise |
| `SignDriver.TakeFrame` | crates/thornado-bifrost-signer/src/transport.rs:118-127 | a frame changes only the session whose id it carries; a frame of another id changes nothing |
| `SignDriver.RunKeysignMulti` | crates/thornado-bifrost-signer/src/transport.rs:109-137 | sessions driven together end as if each had been fed its own messages alone, what each sends carries its id, and signatures come back exactly when all have finished |
| `KeygenSession.Session.AbortWith` | crates/thornado-bifrost-signer/src/frost_session.rs:318-334 | queues the abort message naming the culprits and records the abort |
| `KeygenSession.Session.QueueRound2` | crates/thornado-bifrost-signer/src/frost_session.rs:425-436 | the loop queues one message for each package, addressed to the member holding its identifier, and stops at the first unknown identifier |
| `KeygenSession.Session.MaybePart2Step` | crates/thornado-bifrost-signer/src/frost_session.rs:403-438 | the in-place step performs exactly the part-2 transition |
| `KeygenSession.Session.MaybePart3Step` | crates/thornado-bifrost-signer/src/frost_session.rs:440-508 | the in-place step performs exactly the part-3 transition, its two missing-secret errors included |
| `KeygenSession.Session.HandleMessage` | crates/thornado-bifrost-signer/src/frost_session.rs:349-401 | feeding a message performs exactly the transition of the session's state machine |
| `KeygenSession.StartsIff` | crates/thornado-bifrost-signer/src/frost_session.rs:271-313 | a key generation starts if and only if the party is listed, has an identifier and has a printable first package, which goes to every other member, once |
| `KeygenBlame.UnreadableBlamesSender` | crates/thornado-bifrost-signer/src/frost_session.rs:361-385 | a package that cannot be read is blamed on its sender alone, recorded and told to all others; secrets, packages and result stay |
| `KeygenBlame.Part2Blames` | crates/thornado-bifrost-signer/src/frost_session.rs:403-424 | when part 2 rejects the identifiers of some members, exactly those are blamed, recorded and told to all others |
| `KeygenBlame.Part3Blames` | crates/thornado-bifrost-signer/src/frost_session.rs:440-480 | the same for part 3 |
| `KeygenBlame.Part2BlamesNobody` | crates/thornado-bifrost-signer/src/frost_session.rs:416-422 | a rejection by part 2 that points at no member blames and tells nobody |
| `KeygenBlame.Part3BlamesNobody` | crates/thornado-bifrost-signer/src/frost_session.rs:457-462 | the same for part 3 |
| `KeygenBlame.PeerAbortRecorded` | crates/thornado-bifrost-signer/src/frost_session.rs:386-397 | a peer's abort is recorded under the names it carries and nothing is sent on |
| `KeygenBlame.RefusedWithoutTrace` | crates/thornado-bifrost-signer/src/frost_session.rs:349-401 | strangers, payloads that do not decode and other kinds are refused without a change, and a finished session takes nothing in |
| `KeygenBlame.BlameHasCause` | crates/thornado-bifrost-signer/src/frost_session.rs:349-480 | nobody is blamed without the rejection or the unreadable package of that phase |
| `KeygenBlame.Round2Addresses` | crates/thornado-bifrost-signer/src/frost_session.rs:425-436 | round-2 packages go out in order, each to the member at its identifier, up to the first that cannot be sent |
| `HonestDealer.HonestRound1` | crates/thornado-bifrost-signer/src/frost_session.rs:349-438 | an honest round-1 package keeps the party invariant and triggers part 2 exactly when it is the last |
| `HonestDealer.HonestRound2` | crates/thornado-bifrost-signer/src/frost_session.rs:349-508 | the outcome of an honest round-2 package, and exactly when it is the missing-secret error |
| `HonestDealer.SurvivesIffRoundsInOrder` | crates/thornado-bifrost-signer/src/frost_session.rs:440-450 | a party never errs on honest messages if and only if no prefix holds every round-2 package without every round-1 package |
| `HonestDealer.LateRound1Fails` | crates/thornado-bifrost-signer/src/frost_session.rs:440-450 | every honest round-2 package and not every round-1 package: the party has failed |
| `KeygenProtocol.ReorderedChannelFails` | crates/thornado-bifrost-signer/src/frost_session.rs:440-450 | two honest parties: taking the second message of a channel before the first fails with the missing round-2 secret |
| `KeygenProtocol.KeygenAgreement` | crates/thornado-bifrost-signer/src/frost_session.rs:271-508 | every honest run of n >= 2 parties with per-sender order: no error, part 2 at most once per party and exactly once at quiescence, and every share has the same members and group key |
| `KeygenProtocol.NoDeadlock` | crates/thornado-bifrost-signer/src/frost_session.rs:349-508 | from every reachable state finitely many deliveries bring every party to its share |
| `Keyshares.QuiescentDeals` | crates/thornado-bifrost-signer/src/frost_session.rs:480-508 | once nothing is undelivered every member holds a share of the one key generation |
| `Keyshares.SubsetKeepsIdentifiers` | crates/thornado-bifrost-signer/src/frost_session.rs:591-641 | members selected from one key generation, in any order and with repeats: the session starts with exactly its own keygen index committed, and knows every member by that member's keygen index |
| `Keyshares.FiledUnderIndex` | crates/thornado-bifrost-signer/src/frost_session.rs:662-700 | after any messages whatsoever a member's readable commitment or share is filed under that member's keygen index |
| `ChildTweak.ShiftShares` | crates/thornado-bifrost-signer/src/frost_session.rs:215-223 | the loop shifts every verifying share, or reports that one cannot be encoded |
| `ChildTweak.ChildTweakPackages` | crates/thornado-bifrost-signer/src/frost_session.rs:179-241 | the call answers the shifted packages or the error its checks call for |
| `ChildTweak.LambdaIsWeight` | crates/thornado-bifrost-signer/src/frost_session.rs:175-178 | the interpolating value of section 4.2 of RFC 9591 is the Lagrange basis value at zero, modulo the group order |
| `Scalars.Interpolation` | crates/thornado-bifrost-signer/src/frost_session.rs:175-178 | at least as many points as coefficients determine a polynomial's value anywhere, modulo a prime |
| `ChildTweak.SharesReconstruct` | crates/thornado-bifrost-signer/src/frost_session.rs:175-178 | any threshold-many shares with distinct identifiers reconstruct the secret |
| `ChildTweak.TweakSucceedsIff` | crates/thornado-bifrost-signer/src/frost_session.rs:179-241 | the shift succeeds if and only if the tweak is below the order, the party is listed and no secret behind a point is zero before or after |
| `ChildTweak.TweakErrorIff` | crates/thornado-bifrost-signer/src/frost_session.rs:179-241 | which error a failing call answers, for every input |
| `ChildTweak.TweakKeepsPackages` | crates/thornado-bifrost-signer/src/frost_session.rs:224-241 | shifted packages belong to the polynomial with the tweak added to its constant term; identifier, threshold and listed parties are kept |
| `ChildTweak.ChildTweakShiftsSecret` | crates/thornado-bifrost-signer/src/frost_session.rs:175-241 | any threshold-many shifted shares reconstruct the old secret plus the tweak; group key and verifying shares are the shifted scalars times the generator |
| `Router.SessionRouter.LookupMailbox` | crates/thornado-bifrost-signer/src/transport.rs:293-293 | the lookup under the session lock, as one step of the interleaving |
| `Router.SessionRouter.ForwardFrame` | crates/thornado-bifrost-signer/src/transport.rs:295-297 | hands the frame to the mailbox looked up, or loses it when that mailbox is gone |
| `Router.SessionRouter.BufferFrame` | crates/thornado-bifrost-signer/src/transport.rs:298-312 | drops buffers past their age, then holds the frame back unless its buffer is full |
| `Router.SessionRouter.SessionsMulti` | crates/thornado-bifrost-signer/src/transport.rs:330-353 | one mailbox for all ids, draining what was held back for each, in order |
| `Router.SessionRouter.Drop` | crates/thornado-bifrost-signer/src/transport.rs:364-371 | unregisters exactly the mailbox's ids and leaves every other registration as it is |
| `RouterRuns.RoutedOnceInOrder` | crates/thornado-bifrost-signer/src/transport.rs:277-371 | under every interleaving each frame is in exactly one place, mailboxes get only frames of ids they were registered under, those of one id in order of arrival |
| `RouterRuns.LostOnlyByAgeOrCap` | crates/thornado-bifrost-signer/src/transport.rs:295-312 | a frame is lost only to a mailbox that is gone, to a full buffer, or after a minute of being held back |
| `RouterRuns.LossExplained` | crates/thornado-bifrost-signer/src/transport.rs:277-371 | at the end of every run from the start the lost frames are exactly those some step lost for one of these reasons |
| `RouterRuns.DropUnregisters` | crates/thornado-bifrost-signer/src/transport.rs:363-371 | after a drop none of the mailbox's ids is registered and nothing else has changed but the mailbox being gone |
| `RouterRuns.RegisterAllPoints` | crates/thornado-bifrost-signer/src/transport.rs:330-344 | registering points exactly the listed ids at the mailbox and empties exactly their buffers |
| `RouterRuns.RegisteredIsOpen` | crates/thornado-bifrost-signer/src/transport.rs:277-371 | in every run from the start a registered id points at a mailbox that is open and was registered under it |
| `RouterRuns.GoneIffDropped` | crates/thornado-bifrost-signer/src/transport.rs:293-371 | in every run from the start the mailbox of the frame in hand is the one registered at its lookup, and is gone if and only if it was dropped since |
| `RouterRuns.LostIffDropped` | crates/thornado-bifrost-signer/src/transport.rs:293-371 | a frame about to be forwarded is lost if and only if its mailbox was dropped since the lookup, else its mailbox is handed it last |
| `RouterRuns.CleanUnlessRaced` | crates/thornado-bifrost-signer/src/transport.rs:293-312 | a frame ends up held back for a registered id exactly when the registration falls between lookup and buffering |
| `RouterRuns.CleanIffRaceless` | crates/thornado-bifrost-signer/src/transport.rs:277-371 | a run from the start never holds back a frame of a registered id if and only if no registration falls between lookup and buffering |
| `RouterRuns.StrandedFrame` | crates/thornado-bifrost-signer/src/transport.rs:293-312 | that race happens: a concrete run strands a frame and delivers the next one |
| `Party.Coordinator.OnRequest` | crates/thornado-bifrost-signer/src/p2p.rs:150-155 | a member is added once; anyone else is ignored |
| `Party.Coordinator.Respond` | crates/thornado-bifrost-signer/src/p2p.rs:162-177 | the answer is success exactly at the threshold and lists the online set sorted |
| `Party.Coordinator.List` | crates/thornado-bifrost-signer/src/p2p.rs:179-181 | the online set, sorted, each name once |
| `Party.Listen` | crates/thornado-bifrost-signer/src/sign_loop.rs:304-323 | reads requests until everybody is in, a deadline fires or the channel closes; requests for other sessions are parked in order |
| `Party.LeaderFormParty` | crates/thornado-bifrost-signer/src/sign_loop.rs:281-353 | the party is the leader plus the distinct members who asked in time, forms exactly at the threshold, and every joined member gets the same answer on the stream it first asked on |
| `Party.MembersAgree` | crates/thornado-bifrost-signer/src/sign_loop.rs:378-391 | a member that reads the answer holds the leader's selected set or learns that no party formed, and holds the leader's salt if and only if the session id has no bar |
| `Party.ThresholdIff` | crates/thornado-bifrost-signer/src/signer.rs:83-85 | a party is large enough if and only if it holds two thirds of the members and the share's minimum |
| `Party.PartiesOverlap` | crates/thornado-bifrost-signer/src/signer.rs:83-85 | two parties formed over the same members share at least a third of them |
| `Party.FormedPartiesOverlap` | crates/thornado-bifrost-signer/src/sign_loop.rs:281-353 | any two parties the leader forms over the same members, whatever the sessions and requests, share at least a third of the members |
| `Party.SplitParked` | crates/thornado-bifrost-signer/src/sign_loop.rs:773-783 | parked requests are split by session id and none is lost |
| `Batching.WorkIsReady` | crates/thornado-bifrost-signer/src/sign_loop.rs:144-152 | ready work is exactly the available, undeferred, unsigned items, lowest height first, then lowest index |
| `Batching.WorkIgnoresListing` | crates/thornado-bifrost-signer/src/sign_loop.rs:144-152 | with distinct height and index pairs the ready list does not depend on the store's listing order |
| `Batching.KeyIsInputs` | crates/thornado-bifrost-signer/src/sign_loop.rs:160-172 | for hexadecimal ids two keys are equal if and only if the prescribed inputs are, each as often, and empty only without inputs |
| `Batching.BatchShares` | crates/thornado-bifrost-signer/src/sign_loop.rs:182-197 | a batch shares its inputs and takes every ready item with those inputs |
| `Batching.BatchInOrder` | crates/thornado-bifrost-signer/src/sign_loop.rs:182-197 | a batch starts with the head of the queue and keeps the queue's order |
| `Batching.BatchesPartition` | crates/thornado-bifrost-signer/src/sign_loop.rs:182-197 | taking batches until nothing is left puts every item in one batch and never splits a non-empty input list |
| `Batching.BatchesIgnoreListing` | crates/thornado-bifrost-signer/src/sign_loop.rs:144-197 | stores listing the same items in different orders give the same batches in the same order |
| `SignLoop.NextAttemptIsLater` | crates/thornado-bifrost-signer/src/signer.rs:68-79 | a deferral ends after the current height and within one period of the later of the two heights |
| `SignLoop.NextAttemptIsPutOff` | crates/thornado-bifrost-signer/src/signer.rs:68-79 | the next attempt is in step with the first height and after now, at most one period on when that height is not ahead and between one and two periods on when it is |
| `SignLoop.PutOffUnique` | crates/thornado-bifrost-signer/src/signer.rs:68-79 | no other height is |
| `SignLoop.FirstDemandServed` | crates/thornado-bifrost-signer/src/sign_loop.rs:677-729 | the first demand whose batch this node leads is served, whatever is ready |
| `SignLoop.DemandedAre` | crates/thornado-bifrost-signer/src/sign_loop.rs:682-695 | a demand asks for the open items of its epoch and height, deferred or not |
| `SignLoop.HeadServedElse` | crates/thornado-bifrost-signer/src/sign_loop.rs:715-729 | without such a demand the lowest ready item is served with its batch, and nothing exactly when nothing is ready |
| `SignLoop.SignerStore.Put` | crates/thornado-bifrost-signer/src/store.rs:121-131 | stores the item under its key and changes nothing else |
| `SignLoop.SignerStore.Remove` | crates/thornado-bifrost-signer/src/store.rs:156-164 | removes that key only |
| `SignLoop.SignerStore.List` | crates/thornado-bifrost-signer/src/store.rs:143-154 | every stored item once |
| `SignLoop.SignLoop.FetchWork` | crates/thornado-bifrost-signer/src/sign_loop.rs:582-641 | evicts unsigned work the chain no longer lists, then queues what is not stored yet |
| `SignLoop.SignLoop.RetireStale` | crates/thornado-bifrost-signer/src/sign_loop.rs:651-664 | removes exactly the unsigned work past its retry height |
| `SignLoop.SignLoop.ProcessNext` | crates/thornado-bifrost-signer/src/sign_loop.rs:715-753 | signs or defers the demanded batch, else the head of the queue |
| `SignLoopRuns.ChosenTakes` | crates/thornado-bifrost-signer/src/sign_loop.rs:677-729 | whatever is demanded, a chosen batch holds only stored, unsigned items with different keys |
| `SignLoopRuns.BroadcastOnce` | crates/thornado-bifrost-signer/src/sign_loop.rs:582-753 | over every run of ticks no key is broadcast twice, and an item stored as broadcast never changes again |
| `SignLoopRuns.SuccessKeeps` | crates/thornado-bifrost-signer/src/sign_loop.rs:1004-1011 | marking a batch broadcast keeps every earlier broadcast item and never repeats a key |
| `SignLoopRuns.FailureDefers` | crates/thornado-bifrost-signer/src/sign_loop.rs:735-743 | a failed batch changes only when it is tried again: all its items at one height after now and in step, so none is ready now; every other key is untouched |
| `SignLoopRuns.SuccessMarks` | crates/thornado-bifrost-signer/src/sign_loop.rs:1004-1011 | a signed batch is stored as broadcast with its transaction; every other key is untouched |
| `SignLoopRuns.FetchIs` | crates/thornado-bifrost-signer/src/sign_loop.rs:582-641 | after fetching the store holds exactly what the chain has not dropped, unchanged, and what the blocks list as unsigned, new and undeferred |
| `Observer.ReconfirmHeights` | crates/thornado-bifrost-signer/src/scanner.rs:39-72 | the backward loop collects exactly the heights the walk to the common ancestor visits |
| `Observer.SameButCase` | crates/thornado-bifrost-signer/src/scanner.rs:22-28 | hashes are compared up to the case of letters and nothing else |
| `Observer.CustomerTxsAppend` | crates/thornado-bifrost-signer/src/daemon.rs:211-227 | of a block are recorded the ids of its transactions with outputs, in order |
| `Observer.Observer.Visit` | crates/thornado-bifrost-signer/src/daemon.rs:168-173 | extracts and records the blocks at these heights, in order |
| `Observer.Observer.ScanBlock` | crates/thornado-bifrost-signer/src/daemon.rs:144-177 | one turn of the scan: the rescanned heights, then the new one |
| `Observer.Observer.ScanToTip` | crates/thornado-bifrost-signer/src/daemon.rs:136-182 | the scan records and extracts exactly the heights its turns visit and ends at the tip |
| `ObserverRuns.AgreeBelow` | crates/thornado-bifrost-signer/src/scanner.rs:18-28 | a block determines the chain below it |
| `ObserverRuns.ScanVisits` | crates/thornado-bifrost-signer/src/daemon.rs:136-182 | a scan visits the replaced heights inside the window downwards, then the new heights upwards |
| `ObserverRuns.ScanVisitsChanged` | crates/thornado-bifrost-signer/src/daemon.rs:136-182 | within the budget a scan extracts exactly the changed and the new heights, each once |
| `ObserverRuns.ScanCanonicalIff` | crates/thornado-bifrost-signer/src/daemon.rs:136-182 | a scan that finds a higher tip leaves every recorded block canonical if and only if at most the rescan limit of recorded blocks was replaced |
| `ObserverRuns.ObserverTracksChain` | crates/thornado-bifrost-signer/src/daemon.rs:100-182 | over every run of chain replacements and scans within the budget the table is the recorded range of the chain last scanned |
| `ObserverRuns.BeyondBudgetStaysStale` | crates/thornado-bifrost-signer/src/scanner.rs:49-70 | for every limit: with one replaced block more than the limit the lowest stays recorded with its old hash |
| `SpentIndex.TemporalIndex.SetSpentUtxos` | crates/thornado-bifrost-signer/src/temporal.rs:261-289 | records the non-empty ids at the height and in the id index |
| `SpentIndex.TemporalIndex.PruneSpentUtxos` | crates/thornado-bifrost-signer/src/temporal.rs:327-353 | removes the records at or below the height and every id they list |
| `SpentIndex.TemporalIndex.FindSpentUtxoHeights` | crates/thornado-bifrost-signer/src/temporal.rs:307-323 | exactly the heights that hold the id, ascending |
| `SpentIndex.SpentRuns` | crates/thornado-bifrost-signer/src/temporal.rs:261-353 | in every run an id known spent is held by some record, and with one height per id the two indexes agree |
| `SpentIndex.PruneKeepsAgreementIff` | crates/thornado-bifrost-signer/src/temporal.rs:327-353 | pruning keeps the indexes in agreement if and only if no id is recorded on both sides of the cut |
| `SpentIndex.TwoHeightsDisagree` | crates/thornado-bifrost-signer/src/temporal.rs:327-353 | an id recorded at two heights and pruned between them is recorded but no longer known spent |
| `KeygenRetry.KeygenLoop.Push` | crates/thornado-bifrost-signer/src/main.rs:955-977 | the section under the queue's lock: nothing for a waiting id, otherwise older entries of the same members go and the id waits with no attempt made |
| `KeygenRetry.KeygenLoop.Enqueue` | crates/thornado-bifrost-signer/src/main.rs:949-978 | queues an id that is neither done, in flight nor waiting and drops older entries of the same members |
| `KeygenRetry.PushSupersedes` | crates/thornado-bifrost-signer/src/main.rs:955-977 | queueing drops exactly the older entries of the same set of members and adds one new entry, due now |
| `KeygenRetry.KeygenLoop.CollectDue` | crates/thornado-bifrost-signer/src/main.rs:980-1008 | abandons entries past their age and takes out what is due |
| `KeygenRetry.CollectSplits` | crates/thornado-bifrost-signer/src/main.rs:980-1005 | collecting abandons what is older than fifteen minutes, takes what is due and not in flight and leaves the rest, each as often |
| `KeygenRetry.KeygenLoop.Settle` | crates/thornado-bifrost-signer/src/main.rs:1018-1034 | a success is done, a failure waits again with a delay growing to a minute |
| `KeygenRetryRuns.KeygenOnceAndBounded` | crates/thornado-bifrost-signer/src/main.rs:877-1035 | each id scanned once: at most one place at any time, in flight exactly while running, at most seventeen attempts |
| `KeygenRetryRuns.QueuedTwiceIff` | crates/thornado-bifrost-signer/src/main.rs:949-978 | an id scanned again is in two places if and only if a task of it has left the in-flight set without recording its result |
| `KeygenRetryRuns.PushKeepsInvIff` | crates/thornado-bifrost-signer/src/main.rs:955-977 | queueing after any earlier lookups keeps one place and the attempt bound if and only if the id is waiting or was never launched |
| `KeygenRetryRuns.RescanKeepsInvIff` | crates/thornado-bifrost-signer/src/main.rs:949-978 | a second scan keeps one place and the attempt bound if and only if the id is done, in flight, waiting or never launched |
| `KeygenRetryRuns.ScannedInTheGap` | crates/thornado-bifrost-signer/src/main.rs:949-1034 | a run from the start after which a second scan puts the id in two places |
| `KeygenRetryRuns.EighteenthAttempt` | crates/thornado-bifrost-signer/src/main.rs:949-1034 | a run from the start in which a second scan of an abandoned id leads to an eighteenth attempt |
| `Attestations.AttestationState.Add` | crates/thornado-bifrost-signer/src/attestation.rs:114-127 | the first entry with the same signature or signer decides between ignoring and refusing; otherwise the attestation is recorded |
| `Attestations.AddsStayApart` | crates/thornado-bifrost-signer/src/attestation.rs:94-127 | after any adds signers and signatures are pairwise different and nothing recorded is lost |
| `Attestations.AddsCoverAll` | crates/thornado-bifrost-signer/src/attestation.rs:94-127 | everything offered is recorded or clashes with something recorded |
| `Attestations.SuperMajorityIff` | crates/thornado-bifrost-signer/src/attestation.rs:76-85 | the test holds if and only if 1 <= s <= n and 3s >= 2n |
| `Attestations.QuorumsOverlap` | crates/thornado-bifrost-signer/src/attestation.rs:76-149 | two quorums over the same validators share at least a third of them |
| `Attestations.IgnoredIff` | crates/thornado-bifrost-signer/src/attestation.rs:104-124 | an add is ignored if and only if its signature is recorded with no earlier entry of its signer |
| `Attestations.ConflictIff` | crates/thornado-bifrost-signer/src/attestation.rs:104-124 | an add is refused if and only if its signer is recorded with no entry up to there that has its signature |
| `Attestations.DocumentedIff` | crates/thornado-bifrost-signer/src/attestation.rs:104-124 | the answer is the documented one if and only if the signer and the signature are not recorded in two different entries |
| `Attestations.OrderIrrelevantIff` | crates/thornado-bifrost-signer/src/attestation.rs:104-124 | the answer is the same for every reordering of the entries if and only if the signer and the signature are not recorded in two different entries |
| `Attestations.AnswerDependsOnOrder` | crates/thornado-bifrost-signer/src/attestation.rs:104-124 | a recorded signer offering another's signature is refused or ignored depending on which was recorded first |
| `CompactJson.CompactBytes` | crates/thornado-bifrost-signer/src/chain.rs:838-864 | the byte loop computes the compaction |
| `CompactJson.Idempotent` | crates/thornado-bifrost-signer/src/chain.rs:838-864 | compacting twice is compacting once, on all byte strings |
| `CompactJson.LiteralsKept` | crates/thornado-bifrost-signer/src/chain.rs:843-853 | string contents are kept byte for byte |
| `CompactJson.SameCompactIff` | crates/thornado-bifrost-signer/src/chain.rs:835-864 | two texts compact to the same bytes if and only if one becomes the other by adding and removing whitespace between tokens |
| `CompactJson.CompactDropsBlanks` | crates/thornado-bifrost-signer/src/chain.rs:835-864 | tabs, line feeds, carriage returns and spaces outside strings are left out and nothing else, a string ending at its first unescaped quote |
| `Wire.SovIsLength` | go-thornado/common/common.pb.go:2842-2844 | the size computed from the bit length is the number of bytes the varint takes |
| `Wire.VarintGroups` | go-thornado/common/common.pb.go:2313-2323 | the bytes of a varint are its groups of seven bits, lowest first, all but the last marked, and no more than needed |
| `Wire.DecodeVarint` | go-thornado/common/common.pb.go:3529-3543 | the shift loop reads the varint or the overflow or end-of-input error |
| `Wire.SkipRecord` | go-thornado/common/common.pb.go:6539-6616 | the skipping loop passes one record, groups included, or reports its errors |
| `Wire.SkipOne` | go-thornado/common/common.pb.go:6539-6616 | a well-formed unknown record, nested groups included, is passed exactly |
| `Wire.NextRecord` | go-thornado/common/common.pb.go:3525-3632 | reads one record of a message: tag checks, wire type checks, lengths and skipping |
| `Wire.Unmarshal` | go-thornado/common/common.pb.go:3525-3644 | the decode loop applies the records one after another |
| `Wire.DecodeStream` | go-thornado/common/common.pb.go:3525-3644 | decoding encoded records is applying them in order, unknown ones without effect |
| `Wire.UnknownRecordsIgnored` | go-thornado/common/common.pb.go:3622-3635 | streams with the same known records decode alike whatever unknown records stand between them |
| `Wire.TagRefused` | go-thornado/common/common.pb.go:3548-3560 | an end-of-group tag, field number zero and a wrong wire type are refused, each with its error |
| `Wire.CutRefused` | go-thornado/common/common.pb.go:3525-3644 | a message cut inside its last record is refused as ended early |
| `Messages.AssetRoundTrip` | go-thornado/common/common.pb.go:1084-1121 | an asset is read back from its bytes |
| `Messages.CoinRoundTrip` | go-thornado/common/common.pb.go:1138-1168 | a coin is read back from its bytes |
| `Messages.TxInputRoundTrip` | go-thornado/common/common.pb.go:1223-1246 | an input is read back from its bytes |
| `Messages.TxRoundTrip` | go-thornado/common/common.pb.go:1263-1344 | a transaction is read back from its bytes |
| `Messages.AttestationRoundTrip` | go-thornado/common/common.pb.go:1535-1555 | an attestation is read back from its bytes |
| `ObservedMessages.ObservedRoundTrip` | go-thornado/common/common.pb.go:1431-1518 | an observed transaction is read back from its bytes, negative numbers included |
| `ObservedMessages.QuorumRoundTrip` | go-thornado/common/common.pb.go:1637-1687 | a quorum transaction is read back from its bytes |
| `ObservedMessages.ObservedAmidUnknown` | go-thornado/common/common.pb.go:4112-4466 | unknown records among the fields and inside the transaction, its coins, their assets and its inputs do not change what is read |
| `ObservedMessages.QuorumAmidUnknown` | go-thornado/common/common.pb.go:4744-4900 | unknown records among the fields and inside the observation, every message nested in it and the attestations do not change what is read |
| `Layout.AssetLayout` | go-thornado/common/common.pb.go:1084-1121 | the bytes of the message, field by field in ascending order, with the tag bytes as they stand on the wire |
| `Layout.AssetReadsParts` | go-thornado/common/common.pb.go:3109-3274 | reading one field of bytes with each tag byte sets exactly the field it names, added to when repeated |
| `Layout.AssetReadsNumbers` | go-thornado/common/common.pb.go:3109-3274 | reading one number with each tag byte sets exactly the field it names, cut to its width |
| `Layout.TxInputLayout` | go-thornado/common/common.pb.go:1223-1246 | the bytes of the message, field by field in ascending order, with the tag bytes as they stand on the wire |
| `Layout.TxInputExample` | go-thornado/common/common.pb.go:1223-1246 | the eight bytes of an input with id ab, output 1 and amount 5 |
| `Layout.TxInputReadsParts` | go-thornado/common/common.pb.go:3525-3644 | reading one field of bytes with each tag byte sets exactly the field it names, added to when repeated |
| `Layout.TxInputReadsNumbers` | go-thornado/common/common.pb.go:3525-3644 | reading one number with each tag byte sets exactly the field it names, cut to its width |
| `Layout.AttestationLayout` | go-thornado/common/common.pb.go:1535-1555 | the bytes of the message, field by field in ascending order, with the tag bytes as they stand on the wire |
| `Layout.AttestationReadsParts` | go-thornado/common/common.pb.go:4467-4584 | reading one field of bytes with each tag byte sets exactly the field it names, added to when repeated |
| `Layout.CoinLayout` | go-thornado/common/common.pb.go:1138-1168 | the bytes of the message, field by field in ascending order, with the tag bytes as they stand on the wire |
| `Layout.CoinReadsParts` | go-thornado/common/common.pb.go:3275-3400 | reading one field of bytes with each tag byte sets exactly the field it names, added to when repeated |
| `Layout.CoinReadsNumbers` | go-thornado/common/common.pb.go:3275-3400 | reading one number with each tag byte sets exactly the field it names, cut to its width |
| `Layout.TxLayout` | go-thornado/common/common.pb.go:1263-1344 | the bytes of the message, field by field in ascending order, with the tag bytes as they stand on the wire |
| `Layout.TxReadsParts` | go-thornado/common/common.pb.go:3645-3943 | reading one field of bytes with each tag byte sets exactly the field it names, added to when repeated |
| `Layout.TxReadsNumbers` | go-thornado/common/common.pb.go:3645-3943 | reading one number with each tag byte sets exactly the field it names, cut to its width |
| `Layout.ObservedLayout` | go-thornado/common/common.pb.go:1431-1518 | the bytes of the message, field by field in ascending order, with the tag bytes as they stand on the wire |
| `Layout.ObservedReadsParts` | go-thornado/common/common.pb.go:4112-4466 | reading one field of bytes with each tag byte sets exactly the field it names, added to when repeated |
| `Layout.ObservedReadsNumbers` | go-thornado/common/common.pb.go:4112-4466 | reading one number with each tag byte sets exactly the field it names, cut to its width |
| `Layout.QuorumLayout` | go-thornado/common/common.pb.go:1637-1687 | the bytes of the message, field by field in ascending order, with the tag bytes as they stand on the wire |
| `Layout.QuorumReadsParts` | go-thornado/common/common.pb.go:4744-4900 | reading one field of bytes with each tag byte sets exactly the field it names, added to when repeated |
| `Layout.QuorumReadsNumbers` | go-thornado/common/common.pb.go:4744-4900 | reading one number with each tag byte sets exactly the field it names, cut to its width |
| `Marshal.EncodeVarint` | go-thornado/common/common.pb.go:2313-2323 | writes exactly the varint just below the offset and leaves the rest of the buffer alone |
| `Marshal.SizeTx` | go-thornado/common/common.pb.go:2400-2445 | the size of a transaction is the length of its bytes |
| `Marshal.SizeObserved` | go-thornado/common/common.pb.go:2472-2521 | the size of an observed transaction is the length of its bytes |
| `Marshal.SizeQuorum` | go-thornado/common/common.pb.go:2561-2582 | the size of a quorum transaction is the length of its bytes |
| `Marshal.PutTxInput` | go-thornado/common/common.pb.go:1223-1246 | fills exactly the bytes of the message below the end of the buffer, nothing else |
| `Marshal.PutAsset` | go-thornado/common/common.pb.go:1084-1121 | as for inputs, for an asset |
| `Marshal.PutCoin` | go-thornado/common/common.pb.go:1138-1168 | as for inputs, for a coin |
| `Marshal.PutTx` | go-thornado/common/common.pb.go:1263-1344 | as for inputs, for a transaction |
| `Marshal.PutObserved` | go-thornado/common/common.pb.go:1431-1518 | as for inputs, for an observed transaction |
| `Marshal.PutQuorum` | go-thornado/common/common.pb.go:1637-1687 | as for inputs, for a quorum transaction |
| `Marshal.MarshalObserved` | go-thornado/common/common.pb.go:1431-1518 | the buffer of the precomputed size is filled exactly |
| `Marshal.MarshalQuorum` | go-thornado/common/common.pb.go:1637-1687 | the buffer of the precomputed size is filled exactly |
| `Payload.GetSignablePayloadWithInbound` | go-thornado/common/common.go:22-33 | the payload is the encoding without the signing time, followed by the direction byte |
| `Payload.PayloadLayout` | go-thornado/common/common.go:18-33 | what is signed, byte for byte: the fields in order, none for the signing time, and a last byte of one for inbound and zero for outbound |
| `Payload.PayloadsEqualIff` | go-thornado/common/common.go:18-33 | payloads are equal if and only if the directions are and the observations agree in every field but the signing time |
| `Payload.QuorumEquals` | go-thornado/common/common.go:169-182 | decides exactly that relation |
| `Payload.RemoveAttestations` | go-thornado/common/common.go:242-259 | keeps, in order and each as often, what is not among the removed, and answers whether nothing is left |

## Left out

- The internals of frost-secp256k1-tr, k256, SHA-256, bech32, base64 and serde_json: function values with stated hypotheses.
- `tx_builder`, `utxo`, `wire` and the unsigned transaction inside `sign_batch`: whether signing succeeds is an outcome the work queue is given.
- libp2p, HTTP, bitcoind and CometBFT calls, and failing store operations: the model has no failing table access and no failing block fetch in the middle of a scan.
- Extraction of observations from a block: a function of the block.
- Sessions with one participant: they receive no message, so none of their steps ever happens; the protocol theorems are for two parties and more.
- Abort messages and blame in protocol runs: `SignBlame` and `KeygenBlame` prove them for one session, the agreement theorems are about honest parties.
- Single-session drivers `run_keysign` and `run_keygen`: the multi-session driver and the protocol networks cover the same loop.
- SignLoopRuns.BroadcastOnce: does not count a send that reports an error after bitcoind has accepted the transaction; such a send is a failure here, and the item may be sent again.
- Party.LeaderFormParty: does not model the lengths of wait and grace; a deadline is an event at any position.
- Attestations stored as nil pointers in a quorum transaction: elements are values here, and nil and empty byte slices are the same value.
- The messages of `common.pb.go` other than the seven modelled, and their String and Reset methods: the same pattern again.
- `GetSafeShare`, fee and address helpers, configuration, logging, the Go application and the Python scripts.
