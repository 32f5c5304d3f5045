# Verification of HopDesk's protocols

HopDesk is a peer-to-peer remote desktop. This project models the parts of it that decide who may talk
to whom and what arrives, and proves what those parts promise.

The code is stateful TypeScript whose handlers run one at a time. Each such object is a class here, and
every method of it is proved equal to a function on values (`OnMessage`, `Begin`, `Receive`, `OnHello`
and so on). The theorems are about those functions: over every run, every interleaving, every input.

| Area | Modules |
|---|---|
| Relay server and relay clients, FIFO sockets between them | `Rendezvous`, `Signaling`, `ServerInvariants`, `ServerRouting`, `ServerViews`, `RateLimit`, `Relay`, `RelayWorld`, `RelayRuns`, `RelayTheorems` |
| Handshake, SPAKE2 and the ephemeral exchange | `Bytes`, `Spake2`, `Spake2Theorems`, `Handshake`, `HandshakeEnds`, `HandshakeBinding`, `HandshakeWorld`, `HandshakeTheorems`, `Acceptance`, `AcceptanceTheorems` |
| Guess limiter, throttles, replay cache | `Counting`, `Limiter`, `LimiterTheorems`, `Throttles`, `ThrottleTheorems`, `Replay` |
| Framing, sealed channel, control channel | `Framing`, `FramingTheorems`, `Channel`, `ChannelTheorems`, `Control`, `ControlTheorems` |
| DES, multicast DNS, message schemas | `DesTables`, `Des`, `DesLoops`, `DesTheorems`, `Mdns`, `MdnsTheorems`, `Discovery`, `DiscoveryTheorems`, `Schema`, `SchemaTheorems`, `Messages` |
| Refresh tokens, authorization verdicts, blocks | `Tokens`, `TokenTheorems`, `Authorization`, `AuthorizationTheorems`, `Blocks`, `BlockTheorems` |

## What is assumed

- Cryptography is ideal: a hash, MAC, key derivation, signature or ciphertext is a block that names its
  inputs (`Bytes.Term`), so two are equal only if their inputs are. The network may present any bytes,
  except a signature of an honest device, a verdict of the service, or a ciphertext under a session's key
  that was never issued (`HandshakeWorld.Presentable`, `AuthorizationTheorems.Presentable`,
  `ChannelTheorems.Genuine`). Concatenations, length prefixes, slices and fixed sizes are real, and the
  proofs rest on them.
- The SPAKE2 group is any cyclic group of prime order, its elements written as multiples of the generator
  (RFC 9382, sections 3.3 and 4).
- Random nonces, ids and tokens never repeat. The clock is a number passed to each call; where a theorem
  needs it, it does not run backwards.
- A device keeps its account while it is connected; it may be removed and enrolled under another in between
  (`ServerInvariants.Sound`). The theorems of `BlockTheorems` need no such assumption.
  `RelayClient.connect` is called once per client.

## Where the code does something else than its comments say

- `limiter.ts` says a code sees at most `rotateAfter` guesses. Attempts already in flight when the code is
  replaced add up to `maxPending - 1`: `GuessesPerCode` proves that bound, `RotateAfterIsNotTheBound`
  reaches it. The table of peers can hold `maxPending + 1` records when `maxPeers` is smaller.
- A relay socket that is being closed for flooding, or for a message that the schema refuses, is still read,
  so a later frame can arrive without an earlier one (`RateLimitLeavesGap`, `RefusedPayloadLeavesGap`).
  What arrives is always in order and without repeats (`InOrderEverywhere`); `PrefixExactly` says when it
  is a prefix.
- `SecureControl` says any bad frame closes the link. The rest of a backlog is received all the same
  (`BacklogOutlivesTheLink`); `HandoverIsDirect` gives the exact condition under which that matters.
- `expect` takes every pending message and answers with one, and on a closed link with none
  (`ExpectTakesAll`).
- A handler set on a `FramedLink` late sees its whole backlog even if it closes the link meanwhile
  (`LateHandlerSeesAll`).
- "Enrolling again does not clear a block" holds for a record that is still there. A block on a computer
  that has only a device record is gone when it is removed and enrolled again (`BlockSticks`,
  `ReenrolmentUndoesADeviceBlock`).

## Model

| member | source | states |
|---|---|---|
| RelayTheorems.InOrderEverywhere | packages/transport/src/relay.ts:192-367 | in every run of any number of clients and the server, what one end of a session has taken is, in order and each at most once, some of what the other end sent: the first of those the server did not refuse; whatever else it refused |
| RelayTheorems.PrefixExactly | server/src/signaling.ts:129-143 | it is a prefix of what was sent if the first so many frames of the session passed the rate limit and the schema, whatever other messages were refused; where no two payloads are alike, if and only if |
| RelayTheorems.RelayedExactly | server/src/signaling.ts:129-258 | while the session and the receiving socket are open, what the server has put on it for the session is exactly what it has read from the sender and not refused |
| RelayTheorems.NothingLostEverywhere | packages/transport/src/relay.ts:293-309 | while the session and both sockets are open and the receiving link is not closed, everything sent is taken, still on the way down (also before the introduction is read), or still on the way up |
| RelayTheorems.NothingCrossesEverywhere | server/src/signaling.ts:246-258 | whoever sends: what is taken on a session is taken by one of its two ends, and is, in order and each at most once, what the other end put on its socket for that very session |
| RelayTheorems.NextKeepsAll | packages/transport/src/relay.ts:98-151 | each of the sixteen kinds of step (dialling, reading, serving, dropping, fading, closing, strangers sending anything) keeps the invariant of the whole world |
| ServerInvariants.Reachable | server/src/presence.ts:36-108 | in every reachable server state each session joins two distinct live connections of different devices on one account, nobody has more than four, and every online device with an open socket believes exactly the true set of online devices of its account |
| ServerInvariants.StepKeepsInv | server/src/signaling.ts:107-282 | every message, close, hang-up and sweep keeps the session invariant and the cap of four |
| ServerInvariants.StepKeepsView | server/src/presence.ts:36-66 | initial list plus announcements stays equal to the true online set across replacements and late closes |
| ServerViews.ListIsKeptTrue | server/src/presence.ts:36-66 | a list read at any moment of a run, with the announcements sent after it, is the true list at any later moment while the socket is open |
| ServerRouting.RouteEffect | server/src/signaling.ts:246-252 | a frame of a session reaches its other end if that socket is open, and changes nothing else |
| ServerRouting.IntroductionEffect | server/src/signaling.ts:195-243 | an introduction registers one session and tells both ends, and nobody else |
| ServerRouting.PlainMessage | server/src/signaling.ts:129-260 | every other message introduces and relays nothing, and can only end sessions |
| RateLimit.HeardPrefix | server/src/signaling.ts:129-143 | of the frames of a session among any messages of a connection, the first k that pass are the first k there are if those passed, and for different payloads only then |
| RateLimit.MessageMeters | server/src/signaling.ts:129-135 | reading a message counts it for its own connection as its times say, and changes no other counter |
| RateLimit.RateLimitLeavesGap | server/src/signaling.ts:133-135 | a socket being closed for flooding goes on being read, so after its second the other end gets a later frame without an earlier one |
| RateLimit.RefusedPayloadLeavesGap | server/src/signaling.ts:137-143 | so does a socket being closed for a payload that the schema refuses |
| HandshakeTheorems.HostAgreement | packages/protocol/src/handshake.ts:209-325 | if a host accepts the key of an honest device, that device completed exactly one run that agrees on the hello, names, keys, nonces and shares and has the same session root, and no other challenge agrees with that run; for all four kinds, against a network that can do anything but present a signature that was not issued |
| HandshakeTheorems.ViewerAgreement | packages/protocol/src/handshake.ts:396-480 | the same when a viewer accepts an honest host: exactly one challenge of that host agrees, with the same root |
| HandshakeTheorems.UntamperedRun | packages/protocol/src/handshake.ts:365-480 | messages that arrive as sent: both ends accept, with one root, if and only if their secrets are the same; otherwise the viewer stops |
| HandshakeTheorems.OnHelloChallenges | packages/protocol/src/handshake.ts:145-196 | without an access code, a challenge is sent only for a hello that passed every check of its kind, and the pending handshake holds the session of that challenge |
| HandshakeTheorems.OnDerivedChallenges | packages/protocol/src/handshake.ts:197-263 | a challenge for the access code is sent only after a hello that passed every check began an attempt, and holds the session of the code as it was then, whatever happened while it was hashed |
| HandshakeWorld.NextKeeps | packages/protocol/src/handshake.ts:209-480 | every event of every device keeps: an accepted peer key of an honest device has issued the signature, and nonces never repeat |
| HandshakeBinding.BindInjective | packages/protocol/src/handshake.ts:56-64 | equal bindings have equal fields, all fifteen of them |
| HandshakeBinding.BodyInjective | packages/protocol/src/handshake.ts:74-76 | the signed bodies, concatenated without lengths, still determine binding, shares and confirmation |
| HandshakeBinding.SameBodyAgrees | packages/protocol/src/handshake.ts:56-76 | two sessions with one signed body agree on everything and derive one root |
| HandshakeBinding.RootDeterminesSession | packages/protocol/src/handshake.ts:66-68 | two ends with one session root agree on every field, share and key |
| HandshakeBinding.DomainsSeparate | packages/crypto/src/identity.ts:29-32 | a signature for one domain is none for another, as long as domain names contain no zero byte |
| HandshakeBinding.ExchangeKeysInjective | packages/crypto/src/exchange.ts:55-62 | either confirmation of an exchange determines its keys |
| AcceptanceTheorems.AttemptsBelongToConnections | packages/protocol/src/session.ts:205-238 | over any connections, an attempt is unsettled exactly while one connection, and only one, waits for the hash of the code or for its confirm; when none waits nothing is in flight; and no code sees more than rotateAfter + maxPending - 1 failures |
| AcceptanceTheorems.SettledStays | packages/protocol/src/handshake.ts:195-263 | no event changes how a settled attempt ended |
| AcceptanceTheorems.NextKeeps | packages/protocol/src/session.ts:205-238 | every message, end of hashing, timeout and new code keeps attempts, pending handshakes and connections matched one to one |
| Spake2Theorems.SharedElementAgrees | packages/crypto/src/spake2.ts:92-105 | with one secret both sides compute x*y times the generator, which is never the identity |
| Spake2Theorems.ConfirmsIffSame | packages/crypto/src/spake2.ts:92-128 | whatever shares arrived, each confirmation verifies if and only if identities, shares, secret and associated data are the same on both sides, and then all keys are |
| Spake2Theorems.NeverRefusesItsPeer | packages/crypto/src/spake2.ts:99-105 | untampered shares and one secret: neither side refuses and both finish alike |
| Spake2Theorems.TranscriptInjective | packages/crypto/src/spake2.ts:108-118 | the transcript determines its six fields |
| Spake2Theorems.ScheduleInjective | packages/crypto/src/spake2.ts:131-136 | either confirmation determines transcript and associated data |
| Spake2Theorems.NoZeroDivisors | packages/crypto/src/spake2.ts:102-105 | in a group of prime order a product of non-zero scalars is non-zero |
| Bytes.EncodeFieldsInjective | packages/crypto/src/bytes.ts:69-74 | length-prefixed fields can be told apart whatever they contain |
| Bytes.DigitsInjective | packages/crypto/src/bytes.ts:38-42 | the 8-byte length prefix determines the length |
| Bytes.BigIntToBytesInjective | packages/crypto/src/bytes.ts:48-52 | fixed-width numbers are told apart |
| LimiterTheorems.GuessesPerCode | packages/protocol/src/limiter.ts:89-126 | over every interleaving at most rotateAfter + maxPending - 1 failed attempts are made against one code |
| LimiterTheorems.DefaultBounds | packages/protocol/src/limiter.ts:44-53 | with the default policy a code sees at most 12 failed guesses, and 1024 peers are kept |
| LimiterTheorems.RotateAfterIsNotTheBound | packages/protocol/src/limiter.ts:19-25 | two attempts in flight reach that bound: rotateAfter alone, as the comment has it, is exceeded |
| LimiterTheorems.Accounting | packages/protocol/src/limiter.ts:89-159 | at every moment the in-flight count is the sum over the records and the number of unsettled attempts, every such attempt still has its record, no peer has more in flight than its cap, and the table holds at most max(maxPeers, maxPending + 1) |
| LimiterTheorems.OthersDoNotLock | packages/protocol/src/limiter.ts:101-126 | a lockout changes only through attempts of its own peer, unless its record goes |
| LimiterTheorems.FailuresLock | packages/protocol/src/limiter.ts:112-124 | a free failure leaves the lockout alone; any later one locks the peer for the delay, and it is refused until then |
| LimiterTheorems.DelaysDouble | packages/protocol/src/limiter.ts:120-123 | the delay starts at its base, doubles up to twenty times, and never exceeds its maximum |
| LimiterTheorems.StrangersAreLetIn | packages/protocol/src/limiter.ts:89-100 | with nothing in flight, a peer without a record is let in whatever others have done |
| LimiterTheorems.RepeeredKeepsInv | packages/protocol/src/limiter.ts:132-159 | pruning and eviction lose no record with an attempt in flight |
| Replay.AcceptedAgainNeedsEvictions | packages/protocol/src/replay.ts:20-40 | for every request ever accepted, whatever became of its nonce since: it is accepted again only after at least maxEntries others |
| Replay.ReplayNeedsEvictions | packages/protocol/src/replay.ts:20-40 | a nonce whose last acceptance is presented again within the clock window is accepted if and only if at least maxEntries others were accepted since; the cache never exceeds its size |
| Replay.EarlyBreakIsComplete | packages/protocol/src/replay.ts:34-40 | the loop that stops early removes exactly the entries that are too old |
| Replay.NextKeeps | packages/protocol/src/replay.ts:20-32 | the cache is always the newest part of what was accepted |
| ThrottleTheorems.PeerThrottleBounds | packages/protocol/src/limiter.ts:186-210 | at most perWindow in one window, at most 2*perWindow - 1 in any half-open interval of that length, and at most maxPeers windows |
| ThrottleTheorems.DefaultThrottle | packages/protocol/src/limiter.ts:180-184 | with the default policy at most 29 attempts of a peer are let in within any ten seconds |
| ThrottleTheorems.PeerThrottleBoundIsReached | packages/protocol/src/limiter.ts:186-210 | that bound is reached |
| ThrottleTheorems.StoreThrottleSlides | server/src/store.ts:500-509 | without a clear, at most limit attempts of a key are let in within any half-open interval of windowMs |
| ThrottleTheorems.PeerThrottleLetsInExactly | packages/protocol/src/limiter.ts:195-209 | a peer is let in if and only if its open window has had fewer than perWindow, or it has none and the table has room |
| ThrottleTheorems.StoreThrottleLocksExactly | server/src/store.ts:500-509 | a key is locked if and only if its last burst has the limit and the last attempt let in is less than windowMs ago |
| FramingTheorems.ChunksDoNotMatter | packages/transport/src/framing.ts:30-58 | for every split into chunks the link ends as if the bytes had come in one piece: same messages, same close, same rest |
| FramingTheorems.SentIsReceived | packages/transport/src/framing.ts:30-82 | messages written one after the other, cut anywhere, some before the handler is set, are received in order: the whole ones of any prefix, and all of them once all bytes are there |
| FramingTheorems.HandlerSeesTheStream | packages/transport/src/framing.ts:30-58 | with a handler, the messages of a one-shot parse reach it up to the one it closes on; the link closes there or at the first thing that is no frame |
| FramingTheorems.BacklogKeepsTheStream | packages/transport/src/framing.ts:52-54 | without one they are kept, in order |
| FramingTheorems.LateHandlerSeesAll | packages/transport/src/framing.ts:78-82 | a handler set late sees the whole backlog even after closing the link; it sees what an early one would if and only if it closes on no message but the last |
| FramingTheorems.ParseWritten | packages/transport/src/framing.ts:69-76 | any prefix of what was written parses to a prefix of the messages |
| ChannelTheorems.OpenedInOrder | packages/crypto/src/channel.ts:60-92 | against any frames of which only those under the key are genuine, what is opened is an in-order, duplicate-free subsequence of what was sealed |
| ChannelTheorems.OpensWhatWasSealed | packages/crypto/src/channel.ts:60-92 | a sealed frame ahead of all opened ones opens to its plaintext |
| ChannelTheorems.RefusedChangesNothing | packages/crypto/src/channel.ts:72-92 | a refused frame leaves the channel as it was, so it cannot jam it |
| ChannelTheorems.NoncesNeverRepeat | packages/crypto/src/channel.ts:38-68 | two frames sealed by one channel have different nonces |
| ChannelTheorems.KeysSeparate | packages/crypto/src/channel.ts:33-36 | name, direction and root are determined by the channel key |
| ControlTheorems.HandoverIsDirect | packages/protocol/src/session.ts:86-107 | wherever the handover falls, the link ends open or closed as with direct delivery and the open channel is the same; the messages are the same if and only if, among the queued frames, those that are readable with a counter above all before them come first |
| ControlTheorems.EverySealedFrameArrives | packages/protocol/src/session.ts:29-118 | frames sealed by the peer, some before the handover, some before the handler, some after, all reach the handler once, in order |
| ControlTheorems.BacklogOutlivesTheLink | packages/protocol/src/session.ts:86-91 | an error queued before a sealed frame closes the link and the frame is accepted all the same |
| ControlTheorems.ExpectTakesAll | packages/protocol/src/session.ts:121-135 | expect answers with the oldest pending message and drops the others: nothing is lost if and only if at most one was pending; on a closed link it takes them all and rejects |
| ControlTheorems.ExpectIsSettledOnce | packages/protocol/src/session.ts:121-135 | an expect that waits gets exactly one result, from a message, its timer or the end of the link, whichever comes first |
| ControlTheorems.InboxLosesNothing | packages/protocol/src/session.ts:29-73 | whoever asks, times out or is refused: every message is handed out once, in order, or is still queued for the control channel |
| DesTheorems.StandardCipher | packages/core/src/protocols/des.ts:155-172 | for the tables of FIPS 46-3: the reversed subkeys undo the cipher, and complementing key and block complements the result |
| DesTheorems.EncryptionIsABijection | packages/core/src/protocols/des.ts:120-172 | for every key both compositions with the reversed cipher are the identity |
| DesTheorems.EcbIsUndone | packages/core/src/protocols/des.ts:175-182 | ECB is defined exactly on multiples of 8 and undone blockwise |
| DesTheorems.Complementation | packages/core/src/protocols/des.ts:120-172 | E(~k, ~p) = ~E(k, p) |
| DesTheorems.ParityDoesNotMatter | packages/core/src/protocols/des.ts:20-25 | keys that differ only in the low bits of their bytes encrypt alike |
| DesTheorems.FipsIgnoresParity | packages/core/src/protocols/des.ts:20-25 | the key table of the standard names no parity bit |
| DesTheorems.FipsPermutationsUndo | packages/core/src/protocols/des.ts:36-48 | the final permutation undoes the initial one and the other way round |
| DesTheorems.RoundsUndone | packages/core/src/protocols/des.ts:163-168 | rounds with reversed keys undo rounds, halves exchanged |
| DesTheorems.FromToBits | packages/core/src/protocols/des.ts:98-110 | bytes to bits and back |
| DesTheorems.ToFromBits | packages/core/src/protocols/des.ts:98-110 | bits to bytes and back |
| MdnsTheorems.MessageRoundTrip | packages/transport/src/mdns.ts:75-148 | a message reads back as its questions and records, in order, for all pointer-free names of 1 to 128 non-empty labels of at most 63 bytes |
| MdnsTheorems.ReadNameBack | packages/transport/src/mdns.ts:35-45 | such a name reads back as itself |
| MdnsTheorems.ReadRecordBack | packages/transport/src/mdns.ts:47-55 | a record reads back as its name, type and data |
| MdnsTheorems.TxtRoundTrip | packages/transport/src/mdns.ts:65-73 | TXT data reads back as its fields |
| DiscoveryTheorems.AnnouncersAreFound | packages/transport/src/mdns.ts:379-397 | every announcer answers the query of a searching computer, which collects from the pooled answers, in whatever order and however often they come, exactly the Device ID, name, address and port of each, in the order of their first answers |
| DiscoveryTheorems.AnnouncerIsFound | packages/transport/src/mdns.ts:245-270 | one announcer is found from its one answer |
| DiscoveryTheorems.AddressesPooled | packages/transport/src/mdns.ts:379-384 | among the pooled records every hostname leads to the address of its announcer |
| SchemaTheorems.Again | packages/protocol/src/schema.ts:19-94 | for every well-formed schema an accepted value is accepted again, unchanged |
| SchemaTheorems.CheckedOnTheWay | packages/protocol/src/schema.ts:76-94 | checking on the way changes nothing about the check at the end, and leaves a value alone exactly when it is the result of a check |
| SchemaTheorems.OnlyPrunes | packages/protocol/src/schema.ts:76-94 | an accepted value is the input with undeclared fields dropped, at every level, and nothing else; a variant by the schema its tag names |
| SchemaTheorems.Bounded | packages/protocol/src/schema.ts:19-94 | an accepted value has a size the schema alone bounds |
| SchemaTheorems.TagMustBeDeclared | packages/protocol/src/schema.ts:87-94 | a variant that does not declare its tag is accepted once and refused the second time |
| Messages.RelayedPayloadIsTheSame | server/src/signaling.ts:45-51 | the schema of a frame accepts it exactly when its session id has a proper length and the receiver would accept its payload; what is handed on is what the receiver would have made of the original, and is bounded |
| Messages.SignalingWellFormed | packages/protocol/src/messages.ts:39-105 | the real message schemas are well formed |
| Messages.FrameWellFormed | server/src/signaling.ts:45-51 | the message that carries a payload to the relay is well formed too |
| TokenTheorems.FamiliesAreChains | server/src/tokens.ts:60-103 | in every interleaving each family is a chain, of which only the newest may be neither used nor revoked |
| TokenTheorems.ReplayEndsTheFamily | server/src/tokens.ts:73-94 | once a stored used token is presented with its secret, no token of its family is ever exchanged again |
| TokenTheorems.ExchangeGoesOn | server/src/tokens.ts:73-94 | a token is exchanged if and only if it is stored, right, unused, unrevoked and unexpired; then the next one can be exchanged until it expires, and the old one ends the family |
| TokenTheorems.NextKeeps | server/src/store.ts:237-268 | issue, rotate, revoke, ban and prune keep the chains |
| AuthorizationTheorems.BlocksReachEveryInstallation | apps/desktop/src/authorization.ts:119-159 | from min(grace, 30 days) after a block that still holds, further blocks or not, a configured client never reports that it may host, whatever it checks, whatever is replayed, lost, edited or restarted |
| AuthorizationTheorems.TheGraceIsUsed | apps/desktop/src/authorization.ts:143-152 | until then a verdict from the moment of the block does let it host |
| AuthorizationTheorems.AVerdictStandsBriefly | apps/desktop/src/authorization.ts:138-152 | whatever a verdict says, it lets an installation host for less than 31 days, and only around its own date |
| AuthorizationTheorems.VerdictBytesUnambiguous | packages/protocol/src/verdict.ts:27-36 | equal bytes mean equal verdicts, up to no reason and an empty one, for ids without NUL; the reason may contain any |
| AuthorizationTheorems.NextKeeps | server/src/api.ts:584-599 | every event keeps: a verdict about this installation was signed at its time with the service grace, an active one not after the block |
| BlockTheorems.BlockSticks | server/src/api.ts:688-712 | a block holds through every run of enrolling, approving, removing and registering without an unblock, if and only if there is an installation record for it to land on |
| BlockTheorems.ReenrolmentUndoesADeviceBlock | server/src/api.ts:389-490 | without one, removing the computer and enrolling it again brings it back unblocked and approved |
| BlockTheorems.NoSessionUntilUnblocked | server/src/signaling.ts:195-243 | in every joint run of the database and the relay: from a block on an installation record until an unblock, no session with that device at an end is opened, whatever is done to the records, whoever connects and whatever is sent |
| BlockTheorems.BlockedOpensNothing | server/src/api.ts:152-158 | no message makes the relay open a session with a blocked device, in any state in which the online entries are live |
| BlockTheorems.MessageKeepsFit | server/src/signaling.ts:107-282 | whatever the records say, a message keeps online entries live and session ends named |
| BlockTheorems.InstallationBlockStays | server/src/store.ts:321-330 | the upserts never clear the block of an installation |
| Rendezvous.Presence.AddConnection | server/src/presence.ts:36-42 | the new state of the registry and of all sockets when a device comes online or replaces itself |
| Rendezvous.Presence.RemoveConnection | server/src/presence.ts:44-53 | the same when a connection goes: its sessions end, and it is announced only if it was the current one |
| Rendezvous.Presence.AnnounceConnection | server/src/presence.ts:60-66 | exactly the other online connections of the account are told |
| Signaling.SignalingServer.Message | server/src/signaling.ts:129-260 | the state after any message, with the frame and rate checks first |
| Signaling.SignalingServer.Authenticate | server/src/signaling.ts:146-186 | a credential lets a connection in only for an approved, enrolled device, once |
| Signaling.SignalingServer.Introduce | server/src/signaling.ts:195-243 | the checks of an introduction in their order, and its effect |
| Signaling.SignalingServer.SocketClosed | server/src/signaling.ts:262-280 | the state after a socket has closed |
| Signaling.SignalingServer.Sweep | server/src/signaling.ts:85-100 | exactly the online blocked devices are hung up on |
| Relay.RelayClient.OnMessage | packages/transport/src/relay.ts:192-257 | the client state after each kind of server message |
| Relay.RelayClient.OnClose | packages/transport/src/relay.ts:113-150 | losing the socket ends every session and forgets every request |
| Relay.RelayClient.Send | packages/transport/src/relay.ts:293-297 | a frame goes out only on an open link and a ready socket |
| Relay.RelayClient.CloseLink | packages/transport/src/relay.ts:299-309 | closing a link sends one close and ends the session here |
| Relay.RelayClient.Listen | packages/transport/src/relay.ts:336-340 | a handler set late gets the backlog in order |
| HandshakeEnds.HostAuthenticator.Hello | packages/protocol/src/handshake.ts:145-205 | outcome and new state of every branch up to the hash of the code: version, identity, replay, throttle, the four kinds, limiter |
| HandshakeEnds.HostAuthenticator.Coded | packages/protocol/src/handshake.ts:197-204 | an access-code hello begins one attempt with the code as it is, or is refused |
| HandshakeEnds.HostAuthenticator.Derived | packages/protocol/src/handshake.ts:204-263 | once the code is hashed, or that failed: the challenge under the attempt, or a settled failure |
| HandshakeEnds.HostAuthenticator.Keyed | packages/protocol/src/handshake.ts:169-201 | the kinds without a code, each with its own refusals |
| HandshakeEnds.HostAuthenticator.ExchangeChallenge | packages/protocol/src/handshake.ts:273-325 | the signed ephemeral exchange of the host |
| HandshakeEnds.HostAuthenticator.ConfirmPending | packages/protocol/src/handshake.ts:233-258 | a handshake is confirmed once: wrong confirmation, wrong signature or success, each settling the attempt accordingly |
| HandshakeEnds.ViewerHandshake.constructor | packages/protocol/src/handshake.ts:365-394 | the hello of each kind, and what the viewer keeps |
| HandshakeEnds.ViewerHandshake.Answer | packages/protocol/src/handshake.ts:396-447 | a challenge is answered once, with every check in its order |
| HandshakeEnds.ViewerHandshake.SessionWith | packages/protocol/src/handshake.ts:411-480 | the session a viewer derives with a password or an ephemeral key |
| Acceptance.Acceptor.Message | packages/protocol/src/session.ts:205-238 | the phase, reply and host state after each message |
| Acceptance.Acceptor.Derivation | packages/protocol/src/session.ts:212-217 | and after the hash of the code |
| Acceptance.Acceptor.Failure | packages/protocol/src/session.ts:219-233 | a timeout or close abandons what was pending |
| Spake2.Exchange.New | packages/crypto/src/spake2.ts:77-84 | when the constructor throws and when it does not |
| Spake2.Exchange.FinishWith | packages/crypto/src/spake2.ts:92-128 | an exchange finishes once, with the keys of its transcript or a refusal |
| Bytes.Join | packages/crypto/src/bytes.ts:6-11 | the filled buffer is the concatenation of the parts |
| Limiter.AttemptLimiter.BeginAttempt | packages/protocol/src/limiter.ts:89-130 | decision and state for every branch of begin |
| Limiter.AttemptLimiter.SettleAttempt | packages/protocol/src/limiter.ts:103-126 | the first settling of an attempt changes counts, lockout and rotation; later ones change nothing |
| Limiter.AttemptLimiter.FindRecord | packages/protocol/src/limiter.ts:132-151 | making room evicts a least recently seen record with nothing in flight, if there is one |
| Limiter.AttemptLimiter.PruneStale | packages/protocol/src/limiter.ts:154-159 | exactly the quiet, unlocked, idle records go |
| Limiter.AttemptLimiter.Oldest | packages/protocol/src/limiter.ts:141-147 | the victim is idle and not seen later than any other idle record |
| Replay.NonceCache.CheckNonce | packages/protocol/src/replay.ts:20-32 | verdict and cache after each check |
| Throttles.PeerThrottle.AllowAttempt | packages/protocol/src/limiter.ts:195-209 | answer and windows after each attempt |
| Throttles.ThrottleTable.Attempt | server/src/store.ts:500-509 | answer and row after each attempt |
| Framing.FramedLink.ReceiveChunk | packages/transport/src/framing.ts:30-58 | the loop over a chunk computes the specification |
| Framing.FramedLink.Send | packages/transport/src/framing.ts:69-76 | one frame, or a refusal when the message is too large |
| Framing.FramedLink.SetHandler | packages/transport/src/framing.ts:78-82 | the backlog goes to the handler |
| Channel.SealedChannel.SealData | packages/crypto/src/channel.ts:60-70 | the frame and counter of each seal, or exhaustion |
| Channel.SealedChannel.OpenFrame | packages/crypto/src/channel.ts:72-92 | plaintext and state of each open |
| Control.SecureControl.constructor | packages/protocol/src/session.ts:86-91 | the backlog is received to its end |
| Control.SecureControl.ReceiveSignal | packages/protocol/src/session.ts:93-108 | the state after each frame |
| Control.SecureControl.OnMessage | packages/protocol/src/session.ts:115-118 | pending messages go to the handler in order |
| Control.SecureControl.ExpectKind | packages/protocol/src/session.ts:121-135 | every pending message goes to the handler of expect, which is rejected at once on a closed link |
| Control.SecureControl.TimeOut | packages/protocol/src/session.ts:123-123 | the timer rejects an expect that waits and takes its handler away |
| Control.SecureControl.CloseLink | packages/protocol/src/session.ts:124-124 | the end of the link rejects an expect that waits |
| Control.Inbox.Receive | packages/protocol/src/session.ts:34-47 | a message answers a waiter or is queued; an invalid one closes the link |
| Control.Inbox.Next | packages/protocol/src/session.ts:55-70 | queued messages first, then the failure, else a waiter |
| Control.Inbox.TimeOut | packages/protocol/src/session.ts:60-63 | the timer takes the waiter away |
| DesLoops.BytesOf | packages/core/src/protocols/des.ts:104-110 | the buffer of a bit list, one bit at a time |
| DesLoops.SubkeysOf | packages/core/src/protocols/des.ts:120-130 | the sixteen subkeys |
| DesLoops.FeistelOf | packages/core/src/protocols/des.ts:133-148 | expansion, exclusive or, boxes and permutation |
| DesLoops.EncryptBlockOf | packages/core/src/protocols/des.ts:155-172 | one block, or a refusal of a wrong length |
| DesLoops.EncryptEcbOf | packages/core/src/protocols/des.ts:175-182 | all blocks, or a refusal of a wrong length |
| Mdns.EncodeNameOf | packages/transport/src/mdns.ts:35-45 | the encoding of a name, or a refusal of a long label |
| Mdns.TxtDataOf | packages/transport/src/mdns.ts:65-73 | TXT data of pairs, or a refusal of a long one |
| Mdns.Reader.Name | packages/transport/src/mdns.ts:99-121 | the name at the cursor, and where it ends |
| Mdns.Reader.OneRecord | packages/transport/src/mdns.ts:139-145 | the record at the cursor, its data cut at the end of the buffer |
| Mdns.ParseMdns | packages/transport/src/mdns.ts:126-148 | the whole message, or a refusal |
| Discovery.ParseTxtOf | packages/transport/src/mdns.ts:151-162 | the fields of TXT data |
| Discovery.CollectHosts | packages/transport/src/mdns.ts:379-397 | the hosts among records |
| Schema.CheckObject | packages/protocol/src/schema.ts:76-85 | the loop over the declared fields |
| Tokens.RotateRefresh | server/src/tokens.ts:73-94 | outcome and rows of every branch |
| Tokens.RevokeRefresh | server/src/tokens.ts:96-103 | the whole family of a known token is revoked |
| Authorization.Checker.Accept | apps/desktop/src/authorization.ts:212-235 | an answer is taken only if the service signed it about this installation |
| Authorization.Checker.ReadCache | apps/desktop/src/authorization.ts:237-249 | a cache file counts only under the same conditions |
| Authorization.Checker.MayHostAt | apps/desktop/src/authorization.ts:156-159 | the decision, which agrees with the one that needs no object |
| Authorization.MayHostWith | apps/desktop/src/authorization.ts:284-294 | an unconfigured build may host; a configured one may not without a check, nor when blocked or unverified |
| Blocks.Api.EnrolDevice | server/src/api.ts:389-471 | outcome and records; an enrolment never clears a block |
| Blocks.Api.Remove | server/src/api.ts:473-491 | who may remove which device |
| Blocks.Api.RegisterInstallation | server/src/api.ts:516-558 | registering again keeps the record and its block |
| Blocks.Api.AdminSetBlocked | server/src/api.ts:688-714 | both records are set, where there are any |
| Blocks.Api.IsBlockedHere | server/src/api.ts:152-158 | blocked by installation, device or account |

## Left out

- Curve arithmetic, AES-GCM, scrypt, HKDF, HMAC, SHA-256, Ed25519 and X25519 themselves, and secrecy: agreement is proved, not that a guesser learns nothing.
- JSON, UTF-8 and Base64: messages are values or bytes. A framing codec is assumed to read back what it wrote. Nonces and ids are compared decoded, where the code compares their text.
- Clocks of timers, heartbeats, retry delays and shutdown: timeouts are steps that may happen at any time.
- HTTP routing, SQLite, TCP and WebSocket mechanics, file writes, logging: tables are maps, sockets are sequences of what was put on them.
- `RelayLink` objects are values inside the client's map, not separate objects, so aliasing of a link is not modelled.
- `LimiterTheorems.GuessesPerCode`: is about one limiter; `HostRole.start` keeps the code and makes a new one (apps/desktop/src/host.ts:164-166).
- `RelayTheorems.PrefixExactly`: is one-way where two payloads are alike, since a gap can then go unnoticed.
- `Rendezvous.Presence.RemoveConnection`: ends the sessions in any order, where the code uses insertion order.
- `Signaling.SignalingServer.SocketClosed`: leaves that order open too.
- `Limiter.AttemptLimiter.FindRecord`: may evict any of several equally old peers, where the code takes the first inserted.
- `Limiter.AttemptLimiter.Oldest`: the same.
- `Mdns.Reader.Name`: stops at a compression pointer, as `Mdns.ParseMdns` then does.
- `Mdns.ParseMdns`: says only that such a message has a pointer.
- `MdnsTheorems.MessageRoundTrip`: compression pointers are recognised but not followed, since the encoder writes none and following them need not end.
- `DiscoveryTheorems.AnnouncersAreFound`: is about announcers whose Device IDs differ in more than case, since host names are in lower case. The address of the announcer is given; choosing one among the interfaces of a computer is not modelled.
- `Schema.CheckObject`: says whether a value is accepted, not at which path it failed.
- `Acceptance.Acceptor.Message`: ends with the authenticated viewer; the consent prompt, grants and the answer sent after it are not modelled. Sending a reply is taken not to throw; if it did, the attempt would stay unsettled.
- `Blocks.Api.EnrolDevice`: takes the check of challenge, key and signature as one bit; names, operating systems and token hashes are left out.
- `Blocks.Api.RegisterInstallation`: takes its check of challenge, key and signature as one bit.
- `Control.SecureControl.ExpectKind`: is about one `expect` at a time; a second one called while the first waits is not modelled.
- Access tokens, grants, TURN credentials, passwords, and the pages of an administrator.
- The Electron main process, permissions, screen capture and input, FreeRDP and SPICE, the VNC session loop, and the stores of connections, settings and known devices.
