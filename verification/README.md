# Quantum-Go protocol stack: a verified model

This project models the protocol core of Quantum-Go, a secure channel over two
transports (an ordered stream and lossy datagrams), and proves what the design
promises about it: both rekey protocols, the handshake with its retransmission
driver, replay protection and nonce use, fragmentation and reassembly, batch
sending, the hello codec, the framing fed to the key derivation hash, and the
registry and early-data bookkeeping around the handshake.

Objects whose methods update fields are classes whose methods are proved equal to
functions on values; the protocol theorems are about those functions. Every
protocol is a step system with the network or the lock interleavings in its
state, and the main theorems hold for every run.

Cryptography is ideal. Secrets, keys, nonces, ciphertexts and handshake messages
are terms (`Symbolic.dfy`, `Handshake.dfy`): two derivations agree exactly when
their inputs do, a KEM ciphertext decapsulates to its secret only under its own
key pair and to an unrelated one otherwise, and an AEAD box opens only with its
key, nonce and associated data. `Kdf.dfy` proves the byte-level fact behind the
terms: no two derivations in use feed the hash the same bytes.

| file | contents |
|---|---|
| Words, Bytes | 64-bit words over numbers, big-endian bytes, buffer writes |
| Symbolic | secrets, keys, nonces, sealed boxes, ratchet chains |
| ReplayWindow, Delivery | the bitmap window; the receive pipeline of several loops |
| DatagramSession, DatagramRekey, NonceBudget | epochs, datagram rekey, nonces and key wear |
| StreamSession, StreamRekey, StreamLinks, StreamTransparency, StreamLateResponse, StreamWear | stream sessions, stream rekey, its transparency and its limits, key wear |
| Handshake, HandshakeFsm, HandshakeReplay | flight builders, the datagram machine, its replies to arbitrary input |
| HandshakeRun, HandshakeAgreement, HandshakeOutcome | two machines over a lossy network: agreement, fail-closed, recovery |
| HandshakeDriver | retransmission timers, retry ceiling, linger |
| DatagramCodec, Reassembly, Fragmentation | handshake frames, the reassembler, their inverse |
| SendBatch | run grouping and segment splitting |
| HelloCodec, Kdf | hello encoding and decoding, hash input framing |
| Registry, EarlyData | half-open accounting, data before the keys |

## Where the design meets a limit

Eight promises hold only under a condition, and each condition is shown exact.

- Stream rekey is transparent for every run in which the responder's rekey
  response is written before 1024 data numbers have overtaken it. The response is
  numbered under one lock and written under another, so a run can break this
  (`LateResponseReachable`); then the peer's replay window refuses the response,
  and for every continuation no record under the new key opens
  (`LateResponseIsFatal`). A request overtaken in the same way
  (`LateRequestReachable`) costs no data, but for every continuation the
  initiator never completes a rekey nor starts one again (`LateRequestStalls`).
- Datagram rekey agreement holds for every run that does not start a second
  exchange in an epoch whose first one was abandoned. The stored answer is found
  by epoch alone, so such a restart can always end with both sides in one epoch
  on different secrets (`RestartDiverges`, from a state two steps from the start:
  `RestartReachable`). While the responder is ahead its frames do not open at the
  initiator (`ResponderFramesOpen`).
- A hello decodes to itself exactly when its lists and keys fit their length
  prefixes (`ClientRoundTrip`, `ServerRoundTrip`).
- A hello decoder returns, with a message or a refusal, on every input except one
  kind: header and payload are complete, and the length byte of the session id
  points beyond the buffer, from which it is cut before the payload's end is
  looked at (`ClientFaults`, `ServerFaults`; inputs in `DecodersAreNotTotal`).
  Nothing an encoder makes is of that kind.
- Compatible peers can complete from every point of every run in which no such
  bytes reached a peer about to decode a hello (`Recoverable`); once they have,
  that peer's program has ended and the handshake never completes
  (`OverrunIsFinal`).
- Nonces are unique and a key seals at most 2^28 frames in every run of at most
  2^64 draws (`NoncesUnique`, `NonceBudget.KeyBudget`); with one draw more both can
  fail (`OneDrawTooMany`).
- A stream send key seals at most 2^28 records unless a number drawn before it took
  over is sealed under it; with such a number it can seal one record more and no
  further (`StreamWear.KeyBudget`, `OneOnTop`).
- One responder per source holds exactly as long as no outgoing dial to an owned
  address ends: a dial lets go of the source mapping it never took
  (`OwnershipStep`, `TwoOwners`). The half-open counts are the responders in
  progress exactly as long as no dial frees a slot under one (`CountedStep`,
  `SlotUndercounted`).

## Model

| member | source | states |
|---|---|---|
| `ReplayWindow.CheckRefines` | pkg/tunnel/replay.go:60-95 | Check accepts exactly the numbers that are new and inside the window of a plain set of accepted numbers, and the marks keep representing that set |
| `ReplayWindow.RunRefinesSet` | pkg/tunnel/replay.go:60-95 | over every sequence of calls the window gives the same answers as the set |
| `ReplayWindow.NeverTwice` | pkg/tunnel/replay.go:60-95 | no number is accepted twice in any run of a new window |
| `ReplayWindow.AdmissiblePredictsCheck` | pkg/tunnel/replay.go:97-122 | the peek answers exactly what Check would |
| `ReplayWindow.MarksAfterShift` | pkg/tunnel/replay.go:126-150 | joining shifted neighbouring words moves every set position by delta and drops what leaves the window |
| `ReplayWindow.DatagramReplayWindow.constructor` | pkg/tunnel/replay.go:39-54 | every width gives an empty window of whole words that covers it, zero the default of 1024; the last 63 widths wrap to no bitmap |
| `ReplayWindow.DatagramReplayWindow.Check` | pkg/tunnel/replay.go:60-95 | the bitmap after a call represents the window value Check specifies |
| `ReplayWindow.DatagramReplayWindow.Slide` | pkg/tunnel/replay.go:73-78 | a number beyond the highest moves the window and marks its head |
| `ReplayWindow.DatagramReplayWindow.Admissible` | pkg/tunnel/replay.go:103-122 | reads the window without changing it |
| `ReplayWindow.DatagramReplayWindow.Advance` | pkg/tunnel/replay.go:126-150 | the set positions move up by delta, all of them gone when delta exceeds the window |
| `ReplayWindow.DatagramReplayWindow.ShiftWords` | pkg/tunnel/replay.go:135-149 | the descending in-place loop leaves in each word the join of two words of the original bitmap |
| `ReplayWindow.DatagramReplayWindow.SetBit` | pkg/tunnel/replay.go:152-154 | adds one position |
| `ReplayWindow.DatagramReplayWindow.TestBit` | pkg/tunnel/replay.go:156-158 | tells membership of a position |
| `Delivery.AtMostOnce` | pkg/tunnel/datagram.go:881-953 | with several receive loops interleaving peek, authenticate and commit and any epoch advances, each sequence number is delivered at most once, and only authentic frames are |
| `Delivery.WindowIsDeliveries` | pkg/tunnel/datagram.go:901-914 | the window holds the delivered numbers and nothing else, so frames that fail authentication leave no trace |
| `Delivery.StaleIsDropped` | pkg/tunnel/datagram.go:901-905 | in every reachable state a frame whose number was delivered, or lies 1024 or more behind one that was, is dropped before it is opened and changes nothing |
| `Delivery.FreshIsDelivered` | pkg/tunnel/datagram.go:901-929 | in every reachable state an authentic frame of the current epoch, or of the retained one before it retires, is delivered when its number is new and in range |
| `DatagramSession.Minus` | pkg/tunnel/dgram_session.go:141-166 | unsigned 64-bit subtraction, with its wrap |
| `DatagramSession.WireIsModulo` | pkg/tunnel/dgram_session.go:218-245 | the epoch byte of the e-th epoch is e modulo 256 |
| `DatagramSession.Session.constructor` | pkg/tunnel/dgram_session.go:44-89 | epoch 0 with mirrored keys and prefixes from the master secret |
| `DatagramSession.Session.NextSeq` | pkg/tunnel/dgram_session.go:118-120 | draws a number; the counter wraps at 2^64 |
| `DatagramSession.Session.DatagramSeal` | pkg/tunnel/dgram_session.go:141-166 | refuses exactly a worn epoch, else seals under the current key and the number's nonce; `NonceBudget.SealsExactly` says which numbers, `NonceBudget.NoncesUnique` which nonces, and `DatagramRekey.DataOpensExactly` where the box opens |
| `DatagramSession.Session.DatagramSealTo` | pkg/tunnel/dgram_session_inplace.go:20-39 | appends what DatagramSeal returns, or nothing; the same theorems apply |
| `DatagramSession.Session.DatagramOpenTo` | pkg/tunnel/dgram_session_inplace.go:45-61 | appends what DatagramOpen returns, or nothing |
| `DatagramSession.Session.SelectRecvKey` | pkg/tunnel/dgram_session.go:195-207 | the current epoch's key, the previous one's until it retires, or none |
| `DatagramSession.Session.DatagramOpen` | pkg/tunnel/dgram_session.go:173-190 | opens under the key the epoch byte selects; `DatagramRekey.DataOpensExactly` says when that succeeds |
| `DatagramSession.Session.AdvanceDatagramEpoch` | pkg/tunnel/dgram_session.go:218-245 | demotes the current epoch and retains it for 30 seconds, starts the next one at the current number; the retention is what `DatagramRekey.DataOpensExactly` counts from |
| `DatagramSession.Session.SealRekeyControl` | pkg/tunnel/dgram_rekey.go:66-85 | seals a control message under the current epoch, outside the key budget |
| `DatagramSession.Session.RespondToRekey` | pkg/tunnel/dgram_rekey.go:126-154 | fails without change, or seals the answer before advancing |
| `DatagramSession.Session.CompleteRekey` | pkg/tunnel/dgram_rekey.go:159-180 | fails without change, or advances to the decapsulated secret |
| `DatagramRekey.Agreement` | pkg/tunnel/dgram_rekey.go:208-321 | for every loss, duplication and reordering the responder is zero or one epoch ahead, and the sides hold the same master secret and mirrored keys exactly when level, across the epoch wrap |
| `DatagramRekey.CachedAnswerCompletes` | pkg/tunnel/dgram_rekey.go:294-321 | while the responder is ahead the stored answer opens at the initiator and brings it level |
| `DatagramRekey.InitiatorFramesOpen` | pkg/tunnel/dgram_session.go:195-245 | in every reachable state the initiator's frames open at the responder exactly when the two are level or the responder's retained epoch has not retired |
| `DatagramRekey.ResponderFramesOpen` | pkg/tunnel/dgram_session.go:195-245 | in every reachable state the responder's frames open at the initiator exactly when the two are level |
| `DatagramRekey.DataOpensExactly` | pkg/tunnel/dgram_session.go:141-245 | a frame sealed by either side at any point of any run and opened by the other at any later point gives its payload exactly when the receiver is in the epoch it was sealed in, or in the next one until 30 seconds after its own advance |
| `DatagramRekey.AnswersExactly` | pkg/tunnel/dgram_rekey.go:294-321 | after any run any request ever sent is answered afresh in its own epoch, once; with the epoch byte before that it gets the bytes of the last answer again and no key moves; otherwise nothing happens |
| `DatagramRekey.StepPreserves` | pkg/tunnel/dgram_rekey.go:66-180 | every protocol step keeps the two-party invariant |
| `DatagramRekey.RestartDiverges` | pkg/tunnel/dgram_rekey.go:294-321 | from any reachable state, restarting after an abandoned attempt in the same epoch can end level with different secrets |
| `DatagramRekey.RestartReachable` | pkg/tunnel/dgram_rekey.go:294-321 | starting one exchange and giving it up leads to such a state |
| `NonceBudget.NoncesUnique` | pkg/tunnel/dgram_session.go:118-166 | over any run of at most 2^64 draws mixing Send, SendBatch, Close and rekey control, no two boxes of a direction carry the same nonce, and each carries the number drawn for it |
| `NonceBudget.BudgetExact` | pkg/tunnel/dgram_session_inplace.go:20-39 | which numbers a seal lets through, on both sides of the epoch's start, through the wrapping subtraction |
| `NonceBudget.KeyBudget` | pkg/tunnel/dgram_session.go:141-166 | each epoch's key seals at most 2^28 DATA and CLOSE frames in every run of at most 2^64 draws, whatever numbers senders still hold when the epoch advances |
| `NonceBudget.SealsExactly` | pkg/tunnel/dgram_session.go:141-166 | in every such run a number is sealed exactly when it is one of the 2^28 that follow the counter's value at the current epoch's start, so nothing is refused early |
| `NonceBudget.OneDrawTooMany` | pkg/tunnel/dgram_session.go:118-166 | a run of 2^64 + 1 draws seals two boxes with one nonce under one key, which has then sealed 2^28 + 1 frames |
| `StreamSession.Session.constructor` | pkg/tunnel/session.go:276-343 | mirrored keys and prefixes from the master secret, empty window |
| `StreamSession.Session.DrawSeq` | pkg/tunnel/session.go:346-415 | draws the next number; the counter wraps at 2^64 |
| `StreamSession.Session.Seal` | pkg/tunnel/session.go:346-415 | seals under the send key or refuses a worn key; `StreamWear.WornExactly` says which numbers that is |
| `StreamSession.Session.Decrypt` | pkg/tunnel/session.go:418-489 | records the number in the replay window first, then tries the current and the pending key and promotes the pending one when it opens; a record that does not open has spent its number |
| `StreamSession.NumberSpent` | pkg/tunnel/session.go:418-489 | a record with a fresh number spends it whether or not it opens, and no later record with that number opens |
| `StreamSession.Session.PromotePendingRecvCipher` | pkg/tunnel/session.go:863-872 | the pending receive key becomes current |
| `StreamSession.Session.Initiate` | pkg/tunnel/session.go:679-706 | starts one rekey at a time with a new key pair (`StreamSession.RekeyGuards`) |
| `StreamSession.Session.PrepareResponse` | pkg/tunnel/session.go:710-768 | arms the receive key before the answer goes out |
| `StreamSession.Session.ProcessResponse` | pkg/tunnel/session.go:771-837 | switches the send key and arms the receive key, or fails without change; the new key's budget counts from here (`StreamWear.WornExactly`) |
| `StreamSession.Session.ActivateSend` | pkg/tunnel/session.go:909-922 | the responder's send key switches, and its budget counts from here (`StreamWear.WornExactly`) |
| `StreamSession.Session.FinalizeRekeyState` | pkg/tunnel/session.go:842-852 | the pending secret is adopted and the rekey ends when this side's send key has switched; the receive key follows by trial decryption |
| `StreamSession.RekeyGuards` | pkg/tunnel/session.go:679-837 | a rekey starts exactly on an established session with none under way and not again before it ends; a response is taken exactly by the side that started one, which is then established again |
| `StreamTransparency.Transparent` | pkg/tunnel/transport.go:207-567 | over FIFO channels, any number of rekeys and any interleaving at lock boundaries, what each side has read is what the other wrote, in order, less what is in the channel |
| `StreamTransparency.NextRecordOpens` | pkg/tunnel/session.go:418-489 | the next record of either channel opens under the current or pending key to what was sealed, except a request 1024 numbers late |
| `StreamTransparency.StepInv` | pkg/tunnel/session.go:710-922 | every step keeps the two-party invariant: key generations in a channel never decrease and follow the receiver's current and pending key |
| `StreamLinks.DataHead` | pkg/tunnel/session.go:418-489 | a data record at the head of a channel opens and its bytes are the next ones read |
| `StreamLinks.RekeyHead` | pkg/tunnel/transport.go:446-494 | a rekey record at the head opens and leaves its receiver armed for the next generation |
| `StreamLinks.LateHead` | pkg/tunnel/session.go:418-489 | a rekey record the window has passed is refused and changes nothing |
| `StreamRekey.WalkAppend` | pkg/tunnel/transport.go:207-221 | appending a record extends the receiver's walk over the channel by one step |
| `StreamLateResponse.LateResponseSevers` | pkg/tunnel/transport.go:547-567 | a response written after 1024 numbers have overtaken it leaves the initiator unable to learn the key the responder switches to |
| `StreamLateResponse.LateResponseIsFatal` | pkg/tunnel/transport.go:547-567 | after that write, for every continuation, the responder's send key is the new one as soon as its own switch is done, the initiator opens no record under it, and the initiator never completes a rekey nor starts one |
| `StreamLateResponse.LateResponseReachable` | pkg/tunnel/transport.go:547-567 | a run of the protocol leads there |
| `StreamLateResponse.LateRequestStalls` | pkg/tunnel/transport.go:512-545 | after a request written that late, for every continuation, all data is still read in order, and the initiator never completes a rekey nor starts one |
| `StreamLateResponse.LateRequestReachable` | pkg/tunnel/transport.go:512-545 | a run of the protocol leads there |
| `StreamWear.WornExactly` | pkg/tunnel/session.go:346-415 | over every run and on either side a number is sealed exactly when it lies less than 2^28 after the number at which the current send key took over |
| `StreamWear.KeyBudget` | pkg/tunnel/session.go:346-415 | over every run and on either side a send key seals at most 2^28 records, plus one if a number drawn before it took over was sealed under it |
| `StreamWear.OneOnTop` | pkg/tunnel/session.go:909-922 | a run in which a key seals 2^28 + 1 records |
| `Handshake.FirstIn` | pkg/tunnel/handshake.go:845-905 | a selection is in both lists |
| `Handshake.FirstInIsFirst` | pkg/tunnel/handshake.go:845-905 | nothing common comes before the selection |
| `Handshake.SelectMutual` | pkg/tunnel/handshake.go:845-905 | the nested selection loops compute it |
| `Handshake.FoldInjective` | pkg/tunnel/handshake.go:759-810 | equal master secrets mean equal KEM, ticket, static and PSK inputs, present or absent alike |
| `Handshake.FoldInOrder` | pkg/tunnel/handshake.go:759-810 | the master secret is the KEM secret with the present ones of ticket, static secret and PSK folded in one by one, in this order |
| `Handshake.FinishedVerifies` | pkg/tunnel/handshake.go:379-460 | a Finished verifies at a peer exactly when that is of the other role and holds the same secret, transcript and key; never at home |
| `Handshake.OnlyFinishedVerifies` | pkg/tunnel/handshake.go:422-460 | whatever verifies carries the peer's verify data over this transcript under the key of that direction |
| `Handshake.RefusedHelloLeaves` | pkg/tunnel/handshake.go:465-581 | a refused ClientHello keeps phase, transcript, retry state and keys, and leaves its ticket's secret to a later hello exactly when it got as far as the key share with a ticket on record |
| `Handshake.RefusedServerHelloLeaves` | pkg/tunnel/handshake.go:294-373 | a refused ServerHello keeps the initiator waiting, and is in the transcript from then on exactly when only its cipher was wrong |
| `Handshake.Handshake.constructor` | pkg/tunnel/handshake.go:138-145 | a handshake before its first message |
| `Handshake.Handshake.CreateClientHello` | pkg/tunnel/handshake.go:167-229 | hello, static leg, PSK and transcript; the random survives a retry |
| `Handshake.Handshake.ReplaceFirstHelloWithHash` | pkg/tunnel/handshake.go:282-291 | the transcript becomes the first hello's hash and the retry request |
| `Handshake.Handshake.ProcessHelloRetryRequest` | pkg/tunnel/handshake.go:235-277 | adopts an offered suite once, with a new key pair |
| `Handshake.Handshake.FoldAndDerive` | pkg/tunnel/handshake.go:762-843 | folds ticket, static secret and PSK in order and derives the handshake keys by role |
| `Handshake.Handshake.ProcessServerHello` | pkg/tunnel/handshake.go:294-373 | suite, resumption, decapsulation, folds and keys, with what each failure leaves behind; accepted exactly as `HandshakeReplay.BuildsExactly` says |
| `Handshake.Handshake.ProcessServerFinished` | pkg/tunnel/handshake.go:422-460 | accepts exactly the verify data it computes itself |
| `Handshake.Handshake.Finish` | pkg/tunnel/handshake.go:128-136 | traffic keys from the master secret, handshake secrets erased |
| `Handshake.Handshake.CreateClientFinished` | pkg/tunnel/handshake.go:379-418 | verify data over the transcript through ServerFinished; completes the initiator |
| `Handshake.Handshake.Resume` | pkg/tunnel/handshake.go:504-512 | a ticket the manager opens sets secret and session id |
| `Handshake.Handshake.OpenStaticLeg` | pkg/tunnel/handshake.go:521-548 | refuses a missing or misfit static ciphertext, else decapsulates |
| `Handshake.Handshake.SelectPsk` | pkg/tunnel/handshake.go:550-566 | the PSK listed for the identity (`HandshakeAgreement.PskIsListed`), or a random one when PSKs are required |
| `Handshake.Handshake.ProcessClientHello` | pkg/tunnel/handshake.go:465-581 | retry, resumption, static leg, PSK and cipher choice, with what each failure leaves behind; accepted exactly as `HandshakeReplay.BuildsExactly` says |
| `Handshake.Handshake.CreateHelloRetryRequest` | pkg/tunnel/handshake.go:588-605 | only when pending; rewrites the transcript |
| `Handshake.Handshake.CreateServerHello` | pkg/tunnel/handshake.go:608-671 | encapsulates to the client's share and derives the same folded secret |
| `Handshake.Handshake.CreateServerFinished` | pkg/tunnel/handshake.go:722-755 | verify data over the transcript through ServerHello |
| `Handshake.Handshake.ProcessClientFinished` | pkg/tunnel/handshake.go:674-717 | accepts exactly the verify data it computes itself; completes the responder |
| `HandshakeFsm.DgramHandshake.constructor` | pkg/tunnel/dgram_handshake_fsm.go:56-67 | a responder expects a hello, an initiator nothing yet |
| `HandshakeFsm.DgramHandshake.Start` | pkg/tunnel/dgram_handshake_fsm.go:71-79 | the first hello is cached |
| `HandshakeFsm.DgramHandshake.Commit` | pkg/tunnel/dgram_handshake_fsm.go:205-209 | records a transition |
| `HandshakeFsm.DgramHandshake.AdvanceServerHello` | pkg/tunnel/dgram_handshake_fsm.go:118-130 | takes up a ServerFinished that came early |
| `HandshakeFsm.DgramHandshake.AdvanceServerFinished` | pkg/tunnel/dgram_handshake_fsm.go:132-141 | completes the initiator |
| `HandshakeFsm.DgramHandshake.AdvanceRetryRequest` | pkg/tunnel/dgram_handshake_fsm.go:143-152 | sends the retried hello |
| `HandshakeFsm.DgramHandshake.AdvanceClientHello` | pkg/tunnel/dgram_handshake_fsm.go:154-187 | replays the retry request, sends one, or sends the server flight |
| `HandshakeFsm.DgramHandshake.Advance` | pkg/tunnel/dgram_handshake_fsm.go:116-201 | one transition per role and type |
| `HandshakeFsm.DgramHandshake.OnMessage` | pkg/tunnel/dgram_handshake_fsm.go:87-110 | advance, hold back, replay or drop; `HandshakeReplay.BuildsExactly` says when it advances, `RepeatsAreReplayed` when and what it replays, `OvertakingCommutes` what holding back is for |
| `HandshakeReplay.RepliesRepeat` | pkg/tunnel/dgram_handshake_fsm.go:87-209 | for every inbound sequence, forged and malformed bodies included, two replies of one kind are the same messages, and completion is reported at most once |
| `HandshakeReplay.RepliesAreFlights` | pkg/tunnel/dgram_handshake_fsm.go:87-209 | every reply is a whole flight of the role |
| `HandshakeReplay.RepeatsAreReplayed` | pkg/tunnel/dgram_handshake_fsm.go:87-110 | after any inputs, a repeat of the message processed last is answered with the last flight handed out and changes nothing, except a repeated ServerHello, which is dropped; so is a repeat of the hello that was answered with a retry request |
| `HandshakeReplay.BuildsExactly` | pkg/tunnel/dgram_handshake_fsm.go:112-201 | in every reachable machine the expected message is taken exactly when its version, suite, share or ciphertext, cipher, static leg or verify data fit the configuration |
| `HandshakeReplay.RetryBuildsExactly` | pkg/tunnel/handshake.go:235-277 | a retry request is taken exactly once, for this version and an offered suite |
| `HandshakeReplay.OvertakingCommutes` | pkg/tunnel/dgram_handshake_fsm.go:95-130 | a ServerFinished that overtakes its ServerHello ends in the same machine and reply as in order |
| `HandshakeReplay.FailureKeepsTransition` | pkg/tunnel/dgram_handshake_fsm.go:112-201 | a message whose builders fail leaves expecting, prev, cached and the phase as they were |
| `HandshakeReplay.BadFinishedIsNoStep` | pkg/tunnel/dgram_handshake_fsm.go:87-196 | a Finished that does not verify changes nothing, except that a ServerFinished arriving while ServerHello is expected is held back |
| `HandshakeReplay.Starts` | pkg/tunnel/dgram_handshake_fsm.go:56-79 | every started machine satisfies the invariant these rest on |
| `HandshakeOutcome.Agreement` | pkg/tunnel/handshake.go:167-905 | over every run of two machines and a network that drops, duplicates, reorders, relabels and adds garbage, with or without a retry: a completed initiator agrees with the responder on master secret, KEM suite, cipher, session id and transcript, and two completed peers hold the mirrored sessions the rekey protocol starts from |
| `HandshakeOutcome.FailsClosed` | pkg/tunnel/handshake.go:521-566 | when static, PSK, dummy PSK or ticket inputs differ between the two configurations, or nothing is shared to negotiate, neither side ever completes |
| `HandshakeOutcome.HellosOfOneRandom` | pkg/tunnel/handshake.go:167-229 | over every run each hello in the network while the initiator waits is one its configuration makes, in the first suite or the one the retry settles on, and a retried one carries the random of the first |
| `HandshakeOutcome.SecretsErased` | pkg/tunnel/handshake.go:128-136 | over every run a completed peer holds its session and none of the shared secret, the static secret, the handshake keys, the client random and the transcript |
| `HandshakeOutcome.Recoverable` | pkg/tunnel/dgram_handshake_fsm.go:81-201 | from every point of every run between compatible peers in which no hello decoder has faulted, at most seven deliveries complete both |
| `HandshakeOutcome.OverrunIsFinal` | pkg/tunnel/handshake.go:293-302 | once a hello decoder has faulted, its peer stays where it was in every continuation and the handshake never completes |
| `HandshakeOutcome.GoneExactly` | pkg/tunnel/handshake.go:465-473 | some peer is gone if and only if the run gave a hello decoder bytes it faults on |
| `HandshakeOutcome.OverrunReachable` | pkg/tunnel/handshake.go:465-473 | the first hello a new responder is given can be such bytes |
| `HandshakeAgreement.MastersAgree` | pkg/tunnel/handshake.go:759-810 | the two derived master secrets are equal if and only if static, PSK and ticket inputs agree |
| `HandshakeAgreement.PskIsListed` | pkg/tunnel/handshake.go:550-566 | the PSK of an identity is the one the configuration lists for it: the lookup's entry where there is a lookup, else the single entry, and none for the empty identity |
| `HandshakeAgreement.VerifiesServerFinished` | pkg/tunnel/handshake.go:422-460 | ServerFinished verifies if and only if the peers are compatible |
| `HandshakeAgreement.ProcessesHello` | pkg/tunnel/handshake.go:465-581 | what a responder keeps of a hello, whatever an earlier refused one left behind |
| `HandshakeAgreement.AcceptsHello` | pkg/tunnel/dgram_handshake_fsm.go:154-187 | a hello in a shared suite is refused for good or answered with the flight |
| `HandshakeAgreement.RetriesHello` | pkg/tunnel/handshake.go:480-498 | a hello in another suite is steered to the first mutual one |
| `HandshakeAgreement.AdoptsSuite` | pkg/tunnel/handshake.go:235-277 | the retry leaves the initiator waiting with the rewritten transcript, and with a new key pair in the mutual suite in its hello |
| `HandshakeAgreement.RunInv` | pkg/tunnel/dgram_handshake_fsm.go:87-209 | every run keeps the two-party invariant |
| `HandshakeDriver.DgramDriver.constructor` | pkg/tunnel/dgram_handshake_driver.go:68-81 | running, no timer armed |
| `HandshakeDriver.DgramDriver.Start` | pkg/tunnel/dgram_handshake_driver.go:84-91 | sends the hello and arms the timer |
| `HandshakeDriver.DgramDriver.Apply` | pkg/tunnel/dgram_handshake_driver.go:105-130 | completion, advance or replay of one reply |
| `HandshakeDriver.DgramDriver.OnInbound` | pkg/tunnel/dgram_handshake_driver.go:97-130 | ignores input once done, else feeds the machine |
| `HandshakeDriver.DgramDriver.OnComplete` | pkg/tunnel/dgram_handshake_driver.go:136-147 | disarms, and opens the initiator's linger |
| `HandshakeDriver.DgramDriver.OnTimeout` | pkg/tunnel/dgram_handshake_driver.go:152-172 | ends linger, retransmits with capped doubling backoff, or fails; `TickExactly`, `InitiatorResends` and `ResponderResends` say which and when |
| `HandshakeDriver.InitiatorTerminates` | pkg/tunnel/dgram_handshake_driver.go:84-185 | under any input at most 2 * maxRetries + 1 retransmit timers elapse and by then the initiator is established or failed; a timer is armed until then; at most 16 replays follow establishment |
| `HandshakeDriver.ResponderTerminates` | pkg/tunnel/dgram_handshake_driver.go:97-185 | at most maxRetries + 1 timers elapse; one is armed from the flight on; nothing is answered after completion |
| `HandshakeDriver.BackoffDoubles` | pkg/tunnel/dgram_handshake_driver.go:152-172 | in every reachable state of the initiator, for any initial timeout and cap, the timeout is the initial one doubled once per retry of the phase, capped |
| `HandshakeDriver.ResponderBackoffDoubles` | pkg/tunnel/dgram_handshake_driver.go:152-172 | the same in every reachable state of the responder |
| `HandshakeDriver.TickExactly` | pkg/tunnel/dgram_handshake_driver.go:152-172 | a tick sends exactly when the machine waits, the date counted from the last flight and timer has come and fewer than maxRetries timers have run out, and then the last flight handed out; one timer more fails |
| `HandshakeDriver.InitiatorResends` | pkg/tunnel/dgram_handshake_driver.go:84-172 | so in every state of every run of an initiator, where flights, timers and dates are counted from what it sent and received |
| `HandshakeDriver.ResponderResends` | pkg/tunnel/dgram_handshake_driver.go:97-172 | the same for a responder |
| `HandshakeDriver.LingerCoversRecovery` | pkg/tunnel/dgram_handshake_driver.go:136-172 | every flight retransmission comes no later than the end of the initiator's linger |
| `HandshakeDriver.LingerAnswers` | pkg/tunnel/dgram_handshake_driver.go:121-130 | while the linger lasts and replays are left, a repeated ServerFinished is answered with the ClientFinished already sent |
| `HandshakeDriver.LingerStarts` | pkg/tunnel/dgram_handshake_driver.go:136-147 | completion opens a linger of maxRetries times the longest timeout with 16 replays |
| `HandshakeDriver.SixteenAnswers` | pkg/tunnel/dgram_handshake_driver.go:121-130 | of the repeated ServerFinished that reach a lingering initiator as many are answered as replays are left, and no more |
| `HandshakeDriver.LingerEnds` | pkg/tunnel/dgram_handshake_driver.go:152-160 | the linger ends with the first tick at or after its date and not before, and then nothing is answered |
| `HandshakeDriver.EndedIsSilent` | pkg/tunnel/dgram_handshake_driver.go:97-172 | a failed driver, and a responder that is done, answer and send nothing whatever follows |
| `DatagramCodec.ParseEncoded` | pkg/protocol/datagram_codec.go:168-240 | parsing undoes encoding, whatever padding follows |
| `DatagramCodec.ParsesExactly` | pkg/protocol/datagram_codec.go:195-240 | a header and fragment are read from a frame if and only if the frame starts with their encoding and the fragment lies inside the message |
| `DatagramCodec.WireLayout` | pkg/protocol/datagram_codec.go:168-191 | every field of the encoded frame at its byte offset |
| `DatagramCodec.PutHeader` | pkg/protocol/datagram_codec.go:108-114 | the 14 header bytes |
| `DatagramCodec.EncodeDatagramHandshake` | pkg/protocol/datagram_codec.go:168-191 | the frame bytes, or a refusal of a cookie over 255 bytes |
| `DatagramCodec.ParseDatagramHandshake` | pkg/protocol/datagram_codec.go:195-240 | header and fragment, or a refusal; accepts exactly what `ParsesExactly` says |
| `DatagramCodec.FragmentAt` | pkg/tunnel/dgram_handshake.go:50-67 | one frame of the loop |
| `DatagramCodec.FragmentHandshake` | pkg/tunnel/dgram_handshake.go:38-71 | the frames of a message, or a refusal of an empty or oversized one |
| `Fragmentation.FragmentsParse` | pkg/tunnel/dgram_handshake.go:38-71 | frame k is within the MTU, exactly the MTU when padded, numbered k after the first modulo 2^64, and parses back to the piece that starts k piece sizes into the message |
| `Fragmentation.FramesAreFull` | pkg/tunnel/dgram_handshake.go:38-71 | every frame but the last has the full 1200 bytes |
| `Fragmentation.FragmentThenReassemble` | pkg/tunnel/reassembly.go:82-147 | over every run of arrivals and drops, with duplicates, expiry counted from the first piece, eviction and other traffic, a frame that finds room is answered with the original bytes exactly when it is the last missing piece of those held since the buffer was last lost, and with Partial otherwise |
| `Fragmentation.FrameArrivalParsed` | pkg/protocol/datagram_codec.go:195-240 | what arrives in that theorem is what the parser makes of the fragmenter's frames |
| `Fragmentation.FullWhenAll` | pkg/tunnel/reassembly.go:129-146 | the coverage counter reaches the length exactly when every piece has come |
| `Reassembly.StepBounded` | pkg/tunnel/reassembly.go:82-193 | every arrival keeps the bounds on sources, buffers per source and message size, and leaves no empty table |
| `Reassembly.CountsAll` | pkg/tunnel/reassembly.go:129-140 | a full counter means every byte is covered |
| `Reassembly.NoneBeyond` | pkg/tunnel/reassembly.go:117-136 | no coverage bit is set past the message's end |
| `Reassembly.FilledSized` | pkg/tunnel/reassembly.go:129-136 | filling keeps the counter equal to the number of covered bytes |
| `Reassembly.Cover` | pkg/tunnel/reassembly.go:129-136 | the bit loop marks the fragment's range and counts what is new |
| `Reassembly.SweepTable` | pkg/tunnel/reassembly.go:168-180 | one source's expired buffers are gone, the others stay |
| `Reassembly.SweepTables` | pkg/tunnel/reassembly.go:168-180 | so for all sources, with emptied tables dropped |
| `Reassembly.EvictOldest` | pkg/tunnel/reassembly.go:182-193 | one of the oldest buffers is removed and nothing else |
| `Reassembly.Place` | pkg/tunnel/reassembly.go:96-147 | finds or makes the buffer, fills it, and keeps it or hands it out |
| `Reassembly.AddTo` | pkg/tunnel/reassembly.go:82-147 | refusals, sweep and placement of one fragment |
| `Reassembly.Reassembler.constructor` | pkg/tunnel/reassembly.go:57-75 | an empty reassembler with the given bounds, or 4 buffers of 4096 bytes for 10 seconds where a bound is not positive |
| `Reassembly.Reassembler.Add` | pkg/tunnel/reassembly.go:82-147 | keeps the bounds and does what one arrival specifies |
| `Reassembly.Reassembler.Drop` | pkg/tunnel/reassembly.go:152-156 | forgets one source |
| `SendBatch.SplitSegments` | pkg/tunnel/dgram_batch_linux.go:159-171 | fixed-size pieces, the last possibly shorter |
| `SendBatch.SplitRun` | pkg/tunnel/dgram_batch_linux.go:159-171 | splitting a run at its segment size gives back its frames |
| `SendBatch.LayOut` | pkg/tunnel/dgram_conn.go:114-133 | frames back to back with their end offsets |
| `SendBatch.FindRun` | pkg/tunnel/dgram_conn.go:138-151 | a run of equal frames ended by at most one shorter, within 64 segments and 65507 bytes, that no further frame could join |
| `SendBatch.SendNext` | pkg/tunnel/dgram_conn.go:138-163 | one round puts a stretch of whole frames on the wire: as many as possible in one segmented send where the kernel takes it and two frames can share it, else one |
| `SendBatch.SendFrames` | pkg/tunnel/dgram_conn.go:135-163 | for every pattern of refused segmented sends, every frame goes out once and in order, a failed write leaves a prefix, and each write is the longest segmented send possible at its place, or a single frame where the kernel refuses or no two fit |
| `Kdf.DeriveKey` | pkg/crypto/kdf.go:66-101 | the bytes absorbed, or a refusal |
| `Kdf.AbsorbList` | pkg/crypto/kdf.go:144-157 | count and length-prefixed inputs |
| `Kdf.DeriveKeyMultiple` | pkg/crypto/kdf.go:119-164 | the bytes absorbed, or a refusal |
| `Kdf.TranscriptHash` | pkg/crypto/kdf.go:183-210 | the bytes absorbed, or a refusal |
| `Kdf.SingleInjective` | pkg/crypto/kdf.go:66-101 | equal bytes mean equal domain and input |
| `Kdf.MultipleInjective` | pkg/crypto/kdf.go:119-164 | equal bytes mean equal domain and inputs |
| `Kdf.ListedInjective` | pkg/crypto/kdf.go:183-210 | equal bytes mean equal components |
| `Kdf.SingleAgainstMultiple` | pkg/crypto/kdf.go:66-164 | a one-input and a many-input derivation meet only over the same domain with an empty input and no inputs |
| `Kdf.UsesNeverCollide` | pkg/crypto/kdf.go:234-507 | two derivations the protocol uses absorb the same bytes if and only if they are the same derivation of the same inputs |
| `Kdf.AeadNonceInjective` | pkg/tunnel/dgram_session.go:132-135 | equal nonce bytes mean equal prefix and number |
| `HelloCodec.ClientRoundTrip` | pkg/protocol/codec.go:48-301 | with any trailing bytes, any spare capacity and all presence combinations, decoding an encoded ClientHello gives it back if and only if its lists and keys fit their prefixes |
| `HelloCodec.ServerRoundTrip` | pkg/protocol/codec.go:304-425 | the same for ServerHello |
| `HelloCodec.DecodedFits` | pkg/protocol/codec.go:178-301 | whatever decodes fits its prefixes |
| `HelloCodec.ClientDecodesExactly` | pkg/protocol/codec.go:178-301 | a buffer decodes to a ClientHello if and only if that is valid, the payload starts with the encodings of its fields in their order, and what follows shows the two optional fields, each present, flagged absent or cut off |
| `HelloCodec.ServerDecodesExactly` | pkg/protocol/codec.go:357-425 | a buffer decodes to a ServerHello if and only if that is valid and the payload starts with its encoding |
| `HelloCodec.ClientFaults` | pkg/protocol/codec.go:178-222 | decoding faults if and only if header and declared payload are complete, the payload has the minimum length, and the session id ends beyond the buffer |
| `HelloCodec.ServerFaults` | pkg/protocol/codec.go:357-398 | the same for ServerHello |
| `HelloCodec.DecodersAreNotTotal` | pkg/protocol/codec.go:215-222 | an input of each kind that faults |
| `HelloCodec.EncodedClientNeverFaults` | pkg/protocol/codec.go:48-222 | decoding what the encoder made, with anything after it, never faults |
| `HelloCodec.EncodedServerNeverFaults` | pkg/protocol/codec.go:304-398 | the same for ServerHello |
| `HelloCodec.EncodeClientHello` | pkg/protocol/codec.go:48-138 | the packet of a valid message, or a refusal |
| `HelloCodec.EncodeServerHello` | pkg/protocol/codec.go:304-354 | the packet of a valid message, or a refusal |
| `HelloCodec.ReadLenPrefixed` | pkg/protocol/codec.go:162-175 | a length-prefixed field within the payload |
| `HelloCodec.DecodeClientHello` | pkg/protocol/codec.go:178-301 | for a buffer of any capacity, computes the decoding that `ClientDecodesExactly`, `ClientRoundTrip` and `ClientFaults` are about: a message, a refusal, or a fault |
| `HelloCodec.DecodeServerHello` | pkg/protocol/codec.go:357-425 | the same for ServerHello, `ServerDecodesExactly`, `ServerRoundTrip` and `ServerFaults` |
| `Registry.AdmittedAccounted` | pkg/tunnel/datagram.go:356-363 | an admission keeps total = sum of counts, positive counts and the ceiling |
| `Registry.ReleasedAccounted` | pkg/tunnel/datagram.go:367-380 | so does a release, for any source |
| `Registry.OneWinnerPerSource` | pkg/tunnel/datagram.go:423-459 | over every run in which no dial lets go of an owned address, a source has one owner until it is removed and a reservation of an owned source is given that owner |
| `Registry.OwnershipStep` | pkg/tunnel/datagram.go:423-459 | every step keeps the registry naming exactly the owners, except a dial ending, which does so exactly when nobody owns the address |
| `Registry.NothingLeaks` | pkg/tunnel/dgram_handshake_wire.go:312-365 | when all responders are gone and no dial met one in progress, the registry is as new |
| `Registry.DialGivesSourceAway` | pkg/tunnel/dgram_handshake_wire.go:352-365 | a dial ending at an owned address lets a second responder win beside the first |
| `Registry.TwoOwners` | pkg/tunnel/dgram_handshake_wire.go:352-365 | three steps from the start reach two owners of one source |
| `Registry.CountedStep` | pkg/tunnel/datagram.go:344-380 | every step keeps each count equal to the responders holding a slot, except a slot freed by a dial, which does so exactly when none is in progress at the address |
| `Registry.CountsAreHolders` | pkg/tunnel/datagram.go:344-380 | over every run in which no dial frees a slot under a responder, each count is the number of responders holding a slot for the source, and no more than the bound are in progress at once |
| `Registry.ReservesExactly` | pkg/tunnel/datagram.go:423-435 | over every run in which no dial meets a responder, a reservation gets the owner if the source has one, is refused exactly when the bound is reached, and otherwise wins |
| `Registry.SlotUndercounted` | pkg/tunnel/dgram_handshake_wire.go:352-365 | two steps from the start reach a count below the responders in progress |
| `Registry.ConnRegistry.constructor` | pkg/tunnel/datagram.go:245-254 | an empty registry is accounted |
| `Registry.ConnRegistry.AddHalfOpenLocked` | pkg/tunnel/datagram.go:356-363 | admits below the ceiling only |
| `Registry.ConnRegistry.ReleaseHalfOpen` | pkg/tunnel/datagram.go:367-380 | never goes negative |
| `Registry.ConnRegistry.ReserveSource` | pkg/tunnel/datagram.go:423-435 | won, existing owner, or full, as `ReservesExactly` says |
| `Registry.ConnRegistry.RemoveSource` | pkg/tunnel/datagram.go:455-459 | drops the mapping |
| `Registry.ConnRegistry.SourceOwner` | pkg/tunnel/datagram.go:447-451 | true exactly when every reservation of the source would be sent to this session |
| `EarlyData.NeverStranded` | pkg/tunnel/datagram.go:886-900 | over every interleaving at most four datagrams are held, each buffered one is routed exactly once, in order, after the session is visible, and a loop told the buffer was flushed finds the session |
| `EarlyData.DroppedForWantOfRoom` | pkg/tunnel/datagram.go:135-145 | over every run a datagram is dropped only when it is larger than 1200 bytes or four were buffered, and nothing larger is buffered |
| `EarlyData.Conserved` | pkg/tunnel/datagram.go:135-159 | over every run each datagram that arrived was routed, buffered, dropped for want of room, or is still with its loop, as often as it arrived |
| `EarlyData.DatagramSession.constructor` | pkg/tunnel/datagram.go:68-74 | an empty buffer that takes data |
| `EarlyData.DatagramSession.StashEarly` | pkg/tunnel/datagram.go:135-145 | buffers, drops or declines a datagram |
| `EarlyData.DatagramSession.TakeEarly` | pkg/tunnel/datagram.go:150-155 | hands out the buffer and stops buffering |

## Left out

- Computational cryptography, secrecy, overwriting of memory and constant-time comparison: primitives are ideal and do not fail.
- The KEM's role binding and the two-part hybrid inside a suite: a suite is one ideal KEM.
- Handshake transcripts are sequences of messages, not concatenated bytes; the frames they concatenate carry their own lengths.
- Hello fields other than versions, suites, shares, credentials and ids, and the protocol minor version: the symbolic hellos do not carry them.
- Ticket encryption and expiry, the cookie gate, RETRY frames and the table of recently established hellos: a ticket manager is a map from tickets to secrets.
- The endpoint-closed exits of the handshake loop, which return without releasing a slot.
- Stream sequence numbers past 2^64, `Rekey` and `ActivatePendingKeys` of the stream session, alerts, pings, timeouts and session close.
- The socket layer: a stream channel is a lossless queue, a datagram network a set of messages that may be delivered again or never.
- Datagram Send reads the header epoch and the sealing epoch under separate locks; the model makes sealing one step.
- Fragments of one rekey control message are delivered together; a message of mixed fragments counts as lost.
- The background trigger of a datagram rekey and its retry timing: starting, abandoning and answering may happen at any time.
- UDP_GRO and UDP_SEGMENT control messages: a segmented send is accepted or refused by an oracle, and the kernel's slicing is the fixed-size split.
- Connection indices, roaming, idle reaping, accept queues, the connection pool, rate limits, metrics and the command line.
- Fragmentation.FragmentThenReassemble: the other arrivals of a run do not carry the transfer's own source, sender and type, because two messages under one key are mixed by design.
- The machine and driver on their own (`HandshakeFsm`, `HandshakeReplay`, `HandshakeDriver`) take bodies on which the decoders return; bytes on which a hello decoder faults are the `Overrun` step of `HandshakeRun`.
