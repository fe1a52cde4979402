# Verification of the MPC relay and its round-based protocol drivers

A Dafny model of a relay server, its clients and the drivers that run round-based multi-party
protocols over them, with machine-checked proofs. `dafny verify dfyconfig.toml` checks everything.

## What is modelled

**The round engine** (`Rounds`, `Bridge`, `LockStep`, `RoundNetwork`, `RoundTheorems`, `Following`,
`Totals`, `Overtaking`). A bridge
groups incoming messages by round, hands a full round to a protocol driver, lets it proceed, sends
what it produced and finally finishes it. `Bridge.Bridge` and `Rounds.RoundBuffer` are the mutable
objects; each method is proved to make the step of a specification function. `RoundNetwork` joins
any number of bridges by one queue per ordered pair of parties. `LockStep` defines, without any
queue, what every party would compute if all moved round by round; the theorems relate every
interleaved run to that.

The protocol is an arbitrary triple of functions. The theorems assume `RoundNetwork.Contract`: in the
lock-step execution no driver fails, each round's output is one broadcast or one message to each other
party and the output of the last round is empty (`LockStep.Healthy`), and the driver does not
distinguish orders of arrival within a round, up to an equivalence of its states
(`LockStep.Indifferent`). `Participants.ExchangeMeetsContract` shows the contract met by the driver
whose source is in the repository, and `Totals.ContractIsMetForAnyRounds` that protocols of any number
of rounds, broadcasting in some and addressing each party in others, can meet it.

**Signing** (`Participants`, `ExchangeThreshold`, `SignChain`, `Stages`). The exchange of key indices run
on the round engine, with all others expected and with any threshold, the party numbers derived from it,
and the chain of three stages over one event stream. Round messages carry no stage, so whether a message
reaches the stage it was sent for is a property of runs. `Stages` shows that a signer's moves are those of
a bridge.

**Session establishment** (`Sessions`, `Mesh`, `MeshInvariant`, `MeshTheorems`, `MeshProgress`). Clients, their
session handlers, the relay and the session record on the server, with a queue per client and
direction. A completed Noise handshake gives both ends transports made from the same two ephemeral
keys. The invariant places every pair of participants in one phase of a single handshake, together
with exactly the messages of that phase that are queued anywhere. The server's watcher may give up
whenever it finds participants or connections missing. A potential that every step but speaking lowers
bounds all runs and brings each of them to completion, or to a timeout that nobody has passed.

**Both together** (`Conversation`, `Sealing`, `ConversationLinks`, `ConversationTelling`,
`ConversationSteps`, `ConversationTheorems`, `ExchangeConversation`). Each client takes its events from one
queue, for its session handler first and, from SessionActive on, for its bridge. What the bridge sends is
sealed in chunks with the key and nonce of the transport that its handshake with the receiver left behind,
goes through the server like everything else, and is opened with the receiver's. Every run of this whole
is a run of session establishment and at the same time one of the round engine, whose links are the
sealed session messages in flight. `Conversation.Sound` gathers what is assumed of the parts;
`ExchangeConversation.ExchangeSystemIsSound` shows it met by the exchange of key indices.

**Encoding** (`Wire`, `WireTheorems`, `Layout`, `Reading`, `Codec`). Version 1 of the binary encoding: as
functions, and as a writer and a cursor-moving reader whose methods, loops included, are proved to write
and read what the functions say. `Layout` says in literal bytes and offsets what is written, `Reading` that
nothing else is read. Requests and responses have the same shape and are one type here.

**Chunks, relay, conversations** (`Chunks`, `Relay`, `Stream`, `Client`). Sealing in chunks under a
counter nonce (sections 3 and 5.1 of the Noise Protocol Framework, revision 34), the server's
decoding, re-addressing and re-encoding, opening at the far end, and whole conversations in which
sends, relays and deliveries interleave. The cipher is any pair of functions where opening undoes
sealing and the tag adds 16 bytes.

**Server tables** (`Connections`, `Lifecycle`, `LifecycleHistory`, `Service`, `Meetings`,
`MeetingHistory`). Pending and active connections; sessions with their two watchers, closing and purging;
meeting points. Each is a state machine over all interleavings of its atomic steps, beside the objects
that perform those steps. The histories describe the tables of any run by the requests that came in, and
what those requests lead to.

## Conventions and hypotheses

- A segment between taking and releasing a lock is one atomic step.
- Links are first-in first-out: the server handles the requests of a socket in sequence
  (`server/src/service.rs:47-60`) and every hop is a channel. `Overtaking.OvertakingSkipsARound` shows
  that a driver could be handed its rounds out of order otherwise. `Stream.StreamArrivesInOrder` proves
  that a peer channel built on such hops is again first-in first-out and loses nothing.
- The network of the round engine expects one message from every other party in each round: key
  generation passes one less than the number of parties (`driver/src/gg20/keygen.rs:26-33`), and so do the
  signing drivers when the signers are one more than the threshold. `ExchangeThreshold` and `SignChain`
  take the threshold as a parameter.
- In session establishment, and in the whole, participants do not disconnect and the session is neither
  closed nor purged: `Mesh.Action` has no such steps. What these do is in `Connections`, `Lifecycle` and
  `Service`.
- Time is an input: a watcher may find its waiting time over or not, and in the state machines any set
  of meetings and sessions may expire; the objects compare access times with the time they are given.
- Integers are little-endian, a boolean is one byte that is true when not zero, and a text is its
  bytes behind a 32-bit length; these are properties of the `binary_stream` library, which is not part
  of this model. Its readers are taken to refuse texts longer than the maximum of 65535 bytes they are
  set up with (`protocol/src/encoding/mod.rs:55-60`).
- Identifiers are fresh; session participants have distinct keys.
- The key of one direction of a channel is any function of the two ephemeral keys of its handshake.
- Ciphers are `Chunks.Aead.Lawful`; where a lemma also needs that a sealed text opens under no other of
  the 64-bit nonces it says so (`Relay.Binding`). `Relay.LawfulBindingCipher` exhibits one that is both.
- An `unwrap` that would panic is an error value; encoding an empty message, which is declared
  unreachable, fails.

## Findings

- `Created` before `PeerConnected`, which the session initiator's `unwrap` relies on
  (`driver/src/session.rs:116`), needs no hypothesis of its own: the initiator can only be connected to
  a peer whose answer was relayed on a handshake it sent itself, and the server handles that request
  after the one it answers with `Created`. `MeshTheorems.NoClientEverFails` covers it.
- A session can be announced ready after it was closed (`Lifecycle.ReadyCanFollowClose`); removing it
  silences exactly the watchers described in `Lifecycle.RemovalSilencesIff`.
- A connection leaves the active table when any connection with its key is closed
  (`Connections.StaysActiveUntilDisturbed`), and one that is closed before it was promoted can enter the
  table afterwards: it stays out for good exactly when it had been promoted, its handshake was lost, or no
  request of it is left to be handled (`Connections.DisconnectedStaysOutIff`).
- The signers of one session agree on the participants exactly when the threshold is one less than their
  number, or is such that no exchange ever completes. For any smaller threshold two of them can go on with
  different lists (`ExchangeThreshold.SignersAgreeIff`): with the default parameters, three signers with key
  indices 1, 2 and 3 can end with [1, 2] and [2, 3] (`ExchangeThreshold.ThreeSignersDisagree`).
- With three or more signers the signing stages mix: a message can reach a signer of another stage,
  unless the threshold is such that no round ever completes (`SignChain.ChainingHoldsIff`).
- Pre-signing numbers the signers by key index while messages are routed by session order; every message
  reaches the signer it is meant for exactly when the session lists its participants by key index
  (`Participants.MessagesMeetTheirSignersIffSorted`).
- Senders advance their nonce before the server accepts a message. A message with a payload gets through
  exactly when the receiver's nonce is the sender's (`Relay.ArrivesIffInStep`), so after the refusal of
  one with a payload none does any more (`Relay.RefusalSilences`, `Relay.RefusalHarmlessIffEmpty`).
- Counts are cast to 16 and 32 bits when encoded; the exact conditions for a message to survive are in
  `WireTheorems.PacketRoundTrip` and `WireTheorems.MessageRoundTrip`.
- A party alone in its session never completes a protocol (`RoundTheorems.AloneNeverCompletes`).

## Model

| member | source | states |
|---|---|---|
| RoundTheorems.RunMirrorsLockStep | driver/src/bridge.rs:17-71 | In every run each driver is handed rounds 1, 2, ... in order, each with exactly one message from every other party and nothing else; its state is the lock-step one, it never fails, and its output is the lock-step output |
| RoundTheorems.NeverMoreThanOneRoundApart | driver/src/round.rs:127-135 | Any two parties are at most one round apart, a buffer holds only the round being collected and the next, and no count ever reaches the expected number unnoticed, so the `==` test is never passed over |
| RoundTheorems.InterleavingDoesNotMatter | driver/src/bridge.rs:42-67 | Two runs give a party the same output, and the same multiset of messages in each round |
| RoundTheorems.RestMeansComplete | driver/src/bridge.rs:118-147 | With two or more parties nothing is left to do exactly when every party has started and holds its output |
| RoundTheorems.AloneNeverCompletes | driver/src/round.rs:127-135 | A single party expects no message and therefore never completes |
| RoundTheorems.DeliveriesBound | driver/src/bridge.rs:37-67 | No run makes more than rounds * n * (n-1) deliveries, and exactly that many when all are complete |
| RoundTheorems.DeliveriesAreCounted | driver/src/bridge.rs:40-40 | The deliveries of a run are what the parties have received |
| RoundNetwork.EveryRunKeepsInv | driver/src/bridge.rs:17-114 | The network invariant: each link holds exactly the rounds sent and not yet taken, each buffer exactly what arrived of each round, each driver its lock-step state |
| RoundNetwork.ReadyIffComplete | driver/src/round.rs:127-135 | A round tests ready exactly when every other party's message of it has arrived, and its batch is then a permutation of the lock-step inbox |
| LockStep.HandleAllPermuted | driver/src/bridge.rs:43-49 | Handing over a permutation of a round's messages leads to an equivalent driver state |
| LockStep.BroadcastReaches | driver/src/bridge.rs:84-98 | A broadcast puts one message on the link to every other participant and none on the own |
| LockStep.AddressedReaches | driver/src/bridge.rs:99-112 | Point-to-point messages reach exactly the party whose number they carry, in order |
| LockStep.OneMessagePerWire | driver/src/bridge.rs:80-114 | What a driver emits in a round puts exactly one message on each link to another party |
| Bridge.FirstFullRoundIsHandedOver | driver/src/bridge.rs:40-49 | With one other party a message is handed over at once, whatever rounds are still outstanding |
| Overtaking.OvertakingSkipsARound | driver/src/bridge.rs:37-49 | For any protocol of two parties and several rounds, a reachable state in which a message overtaking another on its link makes the driver get the second round before the first |
| Totals.ContractIsMetForAnyRounds | driver/src/gg20/keygen.rs:104-121 | For any number of parties and rounds some protocol, mixing broadcasts and addressed messages, meets the contract |
| RoundTheorems.RunsEnd | driver/src/bridge.rs:118-147 | No run takes more than rounds * n * (n-1) + n steps |
| Bridge.Bridge.HandleEvent | driver/src/bridge.rs:17-71 | One event makes exactly the specified step: wrong or missing session and undecodable payload are errors, a full round is taken, handed over, answered and perhaps finished; a transport that cannot reach a peer ends it there |
| Bridge.Bridge.Execute | driver/src/bridge.rs:74-78 | Starting proceeds once and sends the first round, up to the first failure of driver, addressing or transport |
| Bridge.Bridge.DispatchRoundMessages | driver/src/bridge.rs:80-114 | A single broadcast goes to every recipient, other messages to the keys of their receivers; what has been sent before an absent receiver, an unknown party or an unreachable peer ends it is exact |
| Bridge.Bridge.WaitForDriver | driver/src/bridge.rs:118-147 | Starts, then makes one step per arrival, in order, for as long as the driver is neither done nor failed; it stops early only when it is, and an error of the stream fails it |
| Following.RunIsFollowed | driver/src/bridge.rs:118-147 | A bridge that starts and is given, in order, the messages its party takes in any run of the network ends in that party's state and outcome |
| Following.WaitingEndsInLockStep | driver/src/bridge.rs:118-147 | Given all the messages of a run in which its party completes, waiting ends with the lock-step output |
| Bridge.StartSucceedsWhen | driver/src/bridge.rs:74-78 | Starting fails exactly without a driver, when it does not proceed, or when a message names no party |
| Bridge.RoundEndsWhen | driver/src/bridge.rs:43-66 | What a full round leads to in every case of failure, of a single round and of the last round |
| Bridge.CutIsPrefix | driver/src/bridge.rs:80-114 | Sending goes up to the first addressee that cannot be reached |
| Bridge.AddressedIsPrefix | driver/src/bridge.rs:99-112 | Messages go to the participants at their receivers' numbers, up to the first that names none; dispatching fails exactly when one does |
| Bridge.Bridge.TakeRound | driver/src/bridge.rs:43-66 | A full round is removed from the buffer and handed over in order of arrival; single-round drivers finish without proceeding, others after the last round |
| Rounds.RoundBuffer.NewFixed | driver/src/round.rs:101-113 | Exactly the rounds 1 to `rounds` are configured, each expecting the given number |
| Rounds.RoundBuffer.AddMessage | driver/src/round.rs:121-124 | The message is appended to its round and no other changes |
| Rounds.RoundBuffer.IsReady | driver/src/round.rs:127-135 | Ready means configured, begun and of exactly the expected size |
| Rounds.RoundBuffer.Take | driver/src/round.rs:145-151 | Returns and removes what is held for a round, nothing if nothing is |
| Rounds.FixedRoundsSize | driver/src/round.rs:116-118 | As many rounds are configured as were asked for |
| Rounds.FromRoundKeepsMessages | driver/src/round.rs:69-84 | Tagging a round's messages loses nothing and keeps their order; it panics exactly on a zero number, and never on an empty list |
| Participants.ParticipantsAgree | driver/src/gg20/sign.rs:234-278 | With a threshold of one less than the number of signers, in every reachable state any two that have finished the exchange hold the same list: all key indices, sorted |
| ExchangeThreshold.CompletedHoldsThreshold | driver/src/gg20/sign.rs:58-58 | For any threshold, a signer that has finished holds its own index and those of exactly as many distinct others as the threshold, sorted |
| ExchangeThreshold.SignersAgreeIff | driver/src/gg20/sign.rs:50-80 | For any threshold and distinct key indices: in all runs all finished signers hold all key indices, and likewise any two hold the same list, exactly when the threshold is zero or at least the number of signers less one |
| ExchangeThreshold.ThreeSignersDisagree | protocol/src/protocol.rs:45-52 | Three signers with key indices 1, 2, 3 and the default threshold, two of which finish with [1, 2] and [2, 3] |
| ExchangeThreshold.FullThresholdIsTheEngine | driver/src/gg20/sign.rs:58-58 | With a threshold of one less than the number of signers the exchange is the round engine's network |
| Participants.ParticipantProtocolDriver.HandleIncoming | driver/src/gg20/sign.rs:257-263 | Adds the sender's key index to those collected |
| Participants.ParticipantProtocolDriver.Proceed | driver/src/gg20/sign.rs:265-272 | Announces the own key index to everyone, in round one |
| Participants.ExchangeMeetsContract | driver/src/gg20/sign.rs:251-278 | The exchange driver is a healthy protocol indifferent to the order of arrival |
| Participants.ParticipantProtocolDriver.Finish | driver/src/gg20/sign.rs:274-277 | The output is sorted and a permutation of the indices collected |
| Participants.PartyIndexIsInjective | driver/src/gg20/sign.rs:119-125 | Signers with different key indices get different pre-signing numbers |
| Participants.PartyIndexIsOnto | driver/src/gg20/sign.rs:119-125 | Every number from 1 to n is some signer's pre-signing number |
| Participants.IndicesRouteIffSorted | driver/src/gg20/sign.rs:119-125 | Pre-signing numbers equal the session party numbers used for routing exactly when session order is key index order |
| Participants.MessagesMeetTheirSignersIffSorted | driver/src/bridge.rs:100-111 | Every addressed pre-signing message reaches the signer whose number it names exactly when session order is key index order |
| Participants.SwappedSignersMiss | driver/src/bridge.rs:100-111 | Two signers in the wrong order, and a message that goes to the other one |
| SignChain.TwoSignersStayInStep | driver/src/gg20/mod.rs:119-149 | For two signers, each waiting for the other, every message delivered is of the stage and round its receiver is collecting, for any list of stages |
| SignChain.TwoSignersFinish | driver/src/gg20/mod.rs:119-149 | A run of two signers comes to rest only with all stages finished |
| SignChain.LaterStageArrivesEarly | driver/src/gg20/mod.rs:129-138 | For three or more signers and any threshold from two to n-1, a run in which a pre-signing message reaches a signer still exchanging indices |
| SignChain.LeftBehind | driver/src/gg20/mod.rs:129-138 | For a threshold of one, a run in which an index message reaches a signer already pre-signing |
| SignChain.ChainingHoldsIff | driver/src/gg20/mod.rs:119-149 | For any threshold, all messages of all runs meet their own stage exactly when there are two signers or the threshold cannot be met |
| Stages.TakeIsABridgeStep | driver/src/bridge.rs:37-67 | While rounds fill in order, what SignChain lets a signer do with a message is what a bridge does with it: same buffer, same completion, same broadcast |
| Stages.OpeningIsABridgeStart | driver/src/bridge.rs:74-78 | The same for entering a stage |
| Sessions.PartyNumberInvertsPeerKey | protocol/src/protocol.rs:685-706 | Party numbers and keys translate into each other |
| Sessions.DueEdgesCoverEachPairOnce | protocol/src/protocol.rs:709-725 | Of two participants exactly one is to initiate their handshake |
| Sessions.DueEdgeIsOrderedPair | protocol/src/protocol.rs:709-725 | A participant initiates exactly towards those after it |
| Sessions.DueEdgesAreNeeded | protocol/src/protocol.rs:431-469 | Among subsets of the due edges only the whole set makes a session active |
| Sessions.DueEdgesCount | protocol/src/protocol.rs:709-725 | There are n(n-1)/2 of them |
| Sessions.Session.IsActive | protocol/src/protocol.rs:431-469 | Active exactly when the undirected graph of connections is complete on owner and participants |
| Sessions.Session.PublicKeys | protocol/src/protocol.rs:407-416 | The owner first, then exactly the participants |
| Sessions.Session.RegisterConnection | protocol/src/protocol.rs:419-425 | Adds one directed pair |
| MeshTheorems.NoClientEverFails | client/src/event_loop.rs:287-381 | In every run no client meets PeerAlreadyExists, PeerAlreadyExistsMaybeRace, PeerNotFound, NotHandshakeState, NotTransportState, a failed handshake, a missing session or a server error, and no session message is dropped |
| MeshTheorems.RegisteredMeansMatched | driver/src/session.rs:114-127 | A registered edge runs forward and both its ends hold matching transports |
| MeshTheorems.ActiveMeansConnected | server/src/service.rs:387-433 | Once the session is announced active to anyone every pair holds matching transports and every message between participants is sent |
| MeshTheorems.ActiveComesFirst | server/src/service.rs:596-608 | A session message queued for a participant that has not joined stands behind its SessionActive |
| MeshTheorems.SetUpRestsOnlyWhenActive | driver/src/session.rs:166-199 | Set-up comes to rest with exactly the forward edges registered and every participant joined, or else with a watcher having given up: then nobody has joined, the timeout is broadcast, and no edges or all of them are registered, depending on what it waited for |
| MeshTheorems.GivingUpExcludesJoining | server/src/service.rs:345-353 | In every run a session that timed out is never active for anyone |
| MeshTheorems.AllLinkedIsComplete | protocol/src/protocol.rs:431-469 | What the active watcher waits for is the completeness the session's own test computes |
| MeshProgress.SetUpIsBounded | server/src/service.rs:42-62 | In every run the steps other than speaking are at most 6n² + 7n + 3 and two for each message said |
| MeshProgress.SetUpCanAlwaysComplete | driver/src/session.rs:217-244 | Every run in which no watcher has given up extends, with nothing said, to one with exactly the forward edges registered and every participant joined |
| MeshProgress.SetUpCompletesIff | server/src/service.rs:414-423 | Some continuation of a run has every participant join exactly when no watcher has given up |
| ConversationTheorems.WholeCarriesOutTheProtocol | driver/src/gg20/mod.rs:112-127 | In every run of session establishment with the bridges started on SessionActive, the bridges are in a state the round engine reaches and the session messages in flight between any two clients are, in order, that state's link, sealed with the channel's key from the receiver's nonce up to the sender's |
| ConversationTheorems.SessionMessagesOpen | client/src/event_loop.rs:383-410 | In every such run the oldest session message on its way to a party opens, with that party's key and nonce, to a round message; with none on its way the two nonces are equal |
| ConversationTheorems.NothingGoesWrong | driver/src/gg20/mod.rs:112-127 | In every such run no client or bridge fails, every message can be sealed and opened, no session message is dropped or comes astray, and every output is the lock-step one |
| ConversationTheorems.RestMeansAllOrNothing | driver/src/bridge.rs:118-147 | With two or more parties nothing is left to do only once every party has its output, or a watcher gave up and none has even started |
| ConversationTheorems.GivingUpExcludesStarting | server/src/service.rs:345-353 | Once a watcher has given up no party has started: there is no run of the protocol that only some are in |
| ConversationTheorems.EveryRunCanComplete | driver/src/bridge.rs:118-147 | From every state reached in which no watcher has given up, session establishment and protocol together can be completed, with the lock-step outputs |
| ConversationTheorems.RunCompletesIff | server/src/service.rs:414-423 | Some continuation of a run gives every party its lock-step output exactly when no watcher has given up |
| ExchangeConversation.ExchangeSystemIsSound | driver/src/gg20/sign.rs:234-278 | For any session and 16-bit key indices the exchange meets all that is assumed of a system |
| ExchangeConversation.SignersAgreeAcrossTheServer | driver/src/gg20/sign.rs:234-278 | With every signer waiting for all others, any run without a timeout extends to one in which every signer holds all key indices, sorted |
| Conversation.ChannelKeys | client/src/lib.rs:101-136 | Matched transports seal and open with the same key in each direction, one for what the initiator sends and one for what the responder sends |
| Sealing.OldestOpens | client/src/event_loop.rs:383-410 | The oldest message of a channel in step opens to the payload it was sealed from, and the channel stays in step |
| MeshTheorems.ForwardEdgesAreDue | protocol/src/protocol.rs:709-725 | The edges registered at rest are those each participant's `connections` asks for |
| MeshInvariant.EveryRunKeepsInv | client/src/event_loop.rs:287-410 | The invariant of session establishment, from which the results above follow |
| Mesh.SessionClient.Connect | client/src/client.rs:137-185 | Enters a handshake for an unknown peer and sends it; a known peer is an error and nothing is sent |
| Mesh.SessionClient.HandshakeResponder | client/src/event_loop.rs:287-340 | Answers an unknown peer and stores the transport; a known one is a race error |
| Mesh.SessionClient.HandshakeAck | client/src/event_loop.rs:342-381 | Turns the matching handshake into a transport; otherwise the entry is gone and an error reported |
| Mesh.SessionClient.ConnectForward | driver/src/session.rs:102-113 | Handshakes with every later participant in order, up to the first error |
| Mesh.SessionClient.HandleResponse | driver/src/session.rs:87-134 | One message makes the specified step of event loop and session handler |
| WireTheorems.PacketRoundTrip | protocol/src/encoding/v1/mod.rs:506-558 | A request or response decodes to itself, leaving any trailing bytes, exactly when it and its parts are not empty, its texts and buffers do not exceed 65535 bytes and its lengths fit their fields |
| WireTheorems.MessageRoundTrip | protocol/src/encoding/v1/mod.rs:208-415 | The same for all server messages, with key counts of 16 bits and slot counts of 32, for every order the slot set is iterated in |
| WireTheorems.EnvelopeBack | protocol/src/encoding/v1/mod.rs:643-691 | An envelope survives exactly when it has an encoding, fewer than 0x1_0000_0000 chunks and every chunk passes the 65535 checks |
| WireTheorems.KeyListBack | protocol/src/encoding/v1/mod.rs:694-721 | A key list survives exactly when it has fewer than 0x1_0000 keys of at most 65535 bytes |
| WireTheorems.ListedBack | protocol/src/encoding/v1/mod.rs:724-799 | The same for meeting and session states |
| WireTheorems.TransparentBack | protocol/src/encoding/v1/mod.rs:129-202 | Errors and handshakes survive exactly when they are not empty and their texts, buffers and lengths do not exceed 65535 |
| WireTheorems.PreambleBack | protocol/src/encoding/mod.rs:27-52 | The identity and version written are accepted |
| WireTheorems.PacketsArePrefixFree | protocol/src/encoding/v1/mod.rs:506-616 | No packet's encoding is the beginning of another's |
| WireTheorems.DecodedPacketsFit | protocol/src/encoding/v1/mod.rs:531-558 | Whatever was decoded can be encoded again |
| Layout.PacketLayout | protocol/src/encoding/mod.rs:79-93 | Exactly these bytes are written for a packet: MPCR and version, kind, and for each kind its tags, lengths, flags and contents at their offsets, numbers lowest byte first |
| Layout.MessageLayout | protocol/src/encoding/mod.rs:95-107 | Exactly these bytes are written for a server message: its number from 1 to 12 or 255 and its fields at their offsets |
| Reading.PacketsReadAsWritten | protocol/src/encoding/v1/mod.rs:531-558 | Whatever is read as a packet is its encoding and what was left behind; only the two flags can have been other bytes than one |
| Reading.MessagesReadAsWritten | protocol/src/encoding/v1/mod.rs:276-415 | The same for server messages, without exception, for some order of the slots |
| Codec.Writer.EncodePacket | protocol/src/encoding/v1/mod.rs:506-525 | Appends the packet's encoding, or fails when there is none |
| Codec.Writer.EncodeMessage | protocol/src/encoding/v1/mod.rs:208-270 | The same for server messages, for the slot order actually used |
| Codec.Writer.EncodeEnvelope | protocol/src/encoding/v1/mod.rs:643-658 | Appends encoding, broadcast flag, chunk count and chunks |
| Codec.Reader.DecodePacket | protocol/src/encoding/v1/mod.rs:531-558 | Reads what the parser says and stops the cursor behind it, or fails |
| Codec.Reader.DecodeMessage | protocol/src/encoding/v1/mod.rs:276-415 | The same for server messages |
| Codec.Reader.DecodeChunks | protocol/src/encoding/v1/mod.rs:682-687 | The counted loop reads exactly as many chunks as announced |
| Codec.Reader.DecodeNewMeeting | protocol/src/encoding/v1/mod.rs:292-310 | The counted loop collects the set of slots |
| Chunks.JoinUndoesSplit | protocol/src/protocol.rs:328-359 | Joining what was split from the same nonce gives the payload and the sender's nonce |
| Chunks.SplitMakesFittingChunks | protocol/src/protocol.rs:325-340 | Splitting succeeds exactly when the nonces suffice, makes ceil(length/65519) chunks, and every chunk passes the encoder's checks |
| Chunks.SplitAt | protocol/src/protocol.rs:328-340 | The k-th chunk is the k-th piece of 65519 bytes sealed under the k-th nonce from the first on |
| Chunks.JoinOpensInOrder | protocol/src/protocol.rs:343-359 | Joining puts together what the chunks open to under successive nonces, and stops with its error at the first that does not open |
| Chunks.JoinedLength | protocol/src/protocol.rs:343-359 | Each chunk yields at most 65519 bytes and one nonce |
| Chunks.TransportState.SplitPayload | protocol/src/protocol.rs:328-340 | The loop computes the specified chunks and leaves the specified nonce, also when the nonces run out half way |
| Chunks.TransportState.JoinChunks | protocol/src/protocol.rs:343-359 | The loop computes the specified payload or error; the nonce counts the chunks opened |
| Relay.RelayIsFaithful | server/src/service.rs:154-216 | A message the server admits arrives as sent, with sender and nonces right, exactly when it has an encoding, fits the keys' and chunk count's fields and the nonces suffice |
| Relay.AdmissionRule | server/src/service.rs:159-190 | A message is admitted exactly when its receiver is connected and, if a session is named, that exists and has the receiver as a member; which refusal is given in every other case |
| Relay.ForwardingRule | server/src/service.rs:154-216 | The same for any request whatever; what is passed on is read by the receiver as the same session and envelope under the sender's key |
| Relay.PostedIsForwarded | server/src/service.rs:192-216 | The server's output is what the sender would have written for its own key, or nothing if it refuses |
| Relay.WrappedMailIsCut | protocol/src/encoding/v1/mod.rs:652-655 | A payload of 0x1_0000_0000 chunks or more never arrives whole |
| Relay.ArrivesIffInStep | client/src/lib.rs:101-136 | A fitting, admitted message arrives as sent exactly when it has no payload or the two nonces are equal |
| Relay.OneRefusalEndsTheChannel | client/src/lib.rs:101-120 | A receiver whose nonce is behind the sender's receives nothing further |
| Relay.RefusalSilences | server/src/service.rs:161-180 | One message with a payload refused by the server has that effect on the whole channel |
| Relay.RefusalHarmlessIffEmpty | server/src/service.rs:161-180 | After a refusal the next message with a payload gets through exactly when the refused one had none |
| Stream.StreamArrivesInOrder | client/src/client.rs:8-32 | For all interleavings of sends, relays and deliveries: what has arrived is what was sent, in order; once nothing is in flight everything has arrived and the nonces are equal |
| Stream.RunKeepsInv | client/src/event_loop.rs:383-410 | Each packet in flight is the next message in order, sealed from the nonce behind its predecessors |
| Client.Client.Relay | client/src/client.rs:8-32 | A request is queued exactly when the peer is connected and the nonces suffice, and only that peer's state advances |
| Client.Client.RelayBroadcast | client/src/client.rs:67-85 | Each recipient in turn, listed once or more often, gets the payload sealed on its own channel, up to the first failure; all channels' nonces afterwards |
| Client.BroadcastReachesEach | client/src/client.rs:67-85 | With distinct recipients the first of them get one packet each, on their own channels, which alone advance; it stops at the first that is not connected or whose nonces do not suffice |
| Client.Client.HandleRelayed | client/src/event_loop.rs:383-410 | The message opened on its sender's channel, or the error; only that channel's nonce advances |
| Service.SessionService.RelayPeerMessage | server/src/service.rs:154-216 | Decoding, checking, re-addressing and encoding yield the specified response and receiver, or the specific refusal |
| Connections.TablesStaySound | server/src/service.rs:666-674 | In every run no connection is in both tables, none is promoted twice, and every active entry is a transport under its own key |
| Connections.ActiveIsTheLastWord | server/src/websocket.rs:147-156 | For each key the active table holds the connection last promoted, unless one with that key was disconnected since |
| Connections.PendingUntilPromoted | server/src/websocket.rs:118-156 | In every run a connection is pending exactly from its opening until it is promoted or disconnected |
| Connections.StaysActiveUntilDisturbed | server/src/websocket.rs:147-156 | A promoted connection is found under its key exactly until a connection with that key is promoted or disconnected |
| Connections.DisconnectedStaysOutIff | server/src/websocket.rs:147-156 | A disconnected connection stays out of the active table in all continuations exactly when it had been promoted, its handshake was lost, or its request loop has ended or will get no further request |
| Connections.DisconnectedCanBeActive | server/src/service.rs:108-112 | A run in which a connection whose reading failed is promoted, its handshake having been read before |
| Connections.ServerTables.Upgrade | server/src/websocket.rs:118-131 | A new connection in the handshake state, pending under its identifier |
| Connections.ServerTables.Receive | server/src/websocket.rs:195-202 | What was read waits behind the requests read before it |
| Connections.ServerTables.ServerHandshake | server/src/service.rs:42-108 | Takes the oldest request; only a connection in the handshake state becomes a transport, or loses its state when that fails |
| Connections.ServerTables.PromoteConnection | server/src/service.rs:666-674 | Moves a connection from pending to active |
| Connections.ServerTables.Disconnect | server/src/websocket.rs:147-156 | Removes by identifier from pending and by key from active |
| Lifecycle.BroadcastsHaveOneOfFiveShapes | server/src/service.rs:305-433 | In every run: nothing, Ready, Timeout, Ready then Active, or Ready then Timeout; Ready after seeing all participants connected, Active after seeing all pairs registered |
| LifecycleHistory.WakingDecides | server/src/service.rs:315-423 | A waking watcher announces what it waits for exactly when that is there, late or not; gives up exactly when it is missing and the time is over; ends exactly when it waits for activity of a session that is gone |
| LifecycleHistory.TellingGoesOn | server/src/service.rs:329-345 | After telling that the session is ready the watcher waits for activity, after anything else it ends |
| LifecycleHistory.BothAreAnnounced | server/src/service.rs:305-433 | With all participants connected and all pairs registered, two wake-ups announce the session ready and then active |
| LifecycleHistory.RecordsAreTheirRequests | server/src/service.rs:522-589 | In every run a session is recorded exactly while it has been created and not removed since, with its owner, its participants and exactly the pairs registered since |
| LifecycleHistory.RegistrationLeadsToActive | server/src/service.rs:398-412 | Once every two members have been registered, and unless the session is removed, the waiting watcher's next wake-up announces it active with exactly these pairs |
| LifecycleHistory.ConnectionLeadsToReady | server/src/service.rs:316-337 | With all participants of a session connected, the waiting watcher's next wake-up announces it ready |
| LifecycleHistory.ClosedOnlyByItsOwner | server/src/service.rs:572-589 | A session is closed only after the owner named at its creation asked for that |
| LifecycleHistory.OwnerCanClose | server/src/service.rs:572-589 | A close request leads to closing exactly when the session is recorded and the requester is its owner, or one was pending |
| Lifecycle.RemovalSilencesIff | server/src/service.rs:398-412 | A removed session is never heard of again exactly when its watcher is waiting for activity or done |
| Lifecycle.ReadyCanFollowClose | server/src/service.rs:316-326 | A run announcing a session ready after its owner closed it |
| Service.SessionService.NewSession | server/src/service.rs:522-551 | Records the session and starts its watcher with owner and participants in order |
| Service.SessionService.SessionConnection | server/src/service.rs:552-571 | Registers the pair, if the session exists |
| Service.SessionService.AcceptClose | server/src/service.rs:572-584 | Only an existing session's owner may close it |
| Service.SessionService.CarryOutClose | server/src/service.rs:586-589 | Removes the session |
| Service.SessionService.ExpiredKeys | protocol/src/protocol.rs:632-647 | Exactly the sessions whose last access lies further back than the timeout |
| Service.SessionService.PurgeExpired | server/src/server.rs:42-49 | Removes exactly these |
| Service.SessionService.Wake | server/src/service.rs:315-356 | A watcher decides by the connections, respectively by the session's record, whether to announce, give up or wait |
| Service.SessionService.Notify | server/src/service.rs:305-462 | The watcher broadcasts its decision and goes on, whether or not all could be notified |
| Service.SessionService.NotifyPeers | server/src/service.rs:596-608 | One notification to each connected participant, in order, up to the first that cannot be sent |
| Service.NotesReachAllOnline | server/src/service.rs:596-608 | Only connected participants are notified, and all of them unless a socket is broken |
| Service.NotesAreInOrder | server/src/service.rs:596-608 | The connected participants up to the first broken socket are notified once each, in session order, and nobody else |
| Service.SessionService.CheckRelay | server/src/service.rs:159-190 | A named session must exist and have the receiver as a member, and the receiver must be connected; a session that exists is touched in any case |
| Meetings.MeetingsAreAnnouncedOnceAndWhole | server/src/service.rs:264-303 | In every run a meeting is announced at most once, with a key for every invited user and the slots it keeps; it is full exactly when all invited users joined |
| MeetingHistory.JoiningTakesASlot | server/src/service.rs:502-521 | A join is accepted exactly when the meeting is there with a free slot; then the user's slot holds the key and no other changed, otherwise nothing did |
| MeetingHistory.SlotsAreTheirJoins | protocol/src/protocol.rs:485-531 | In every run a meeting is recorded exactly while created and not purged since, and each slot holds the key of its user's last accepted join, the owner's from creation, or nothing |
| MeetingHistory.WakingDecides | server/src/service.rs:264-299 | A waking watcher announces exactly a full meeting and ends exactly when the meeting is gone |
| MeetingHistory.JoiningLeadsToAnnouncement | server/src/service.rs:264-303 | A meeting that every invited user has joined is full, and its watcher's next wake-up announces exactly the keys joined with |
| Meetings.FullMeetingsDoNotChange | server/src/service.rs:508-520 | A full meeting stays full and unchanged until it is removed, and does not return |
| Meetings.AnyoneCanJoinUntilFull | protocol/src/protocol.rs:485-488 | A user without a slot joins exactly while an invited user is missing |
| Meetings.Meeting.IsFull | protocol/src/protocol.rs:491-493 | Full exactly when every slot holds a key |
| Meetings.Meeting.Participants | protocol/src/protocol.rs:496-502 | The keys of exactly the taken slots, each once |
| Meetings.MeetingManager.NewMeeting | protocol/src/protocol.rs:513-531 | All slots free but the owner's |
| Meetings.MeetingManager.JoinMeeting | server/src/service.rs:502-521 | Refused for unknown and full meetings, otherwise the slot is set |
| Meetings.MeetingManager.ExpiredKeys | protocol/src/protocol.rs:555-570 | Exactly the meetings last joined further back than the timeout |
| Meetings.MeetingManager.RemoveExpired | server/src/server.rs:33-40 | Removes exactly these |

## Left out

- GG20 itself, curve arithmetic and the `round-based` state machines: drivers are arbitrary functions under a stated contract; key generation is the instance with four rounds.
- Noise key exchange and ciphers: a handshake yields matched transports, a cipher is a lawful pair of functions.
- Compression, JSON, PEM, hex and UUID generation: inverse pairs and fresh identifiers.
- Websocket, TLS, runtime and wasm plumbing, configuration, access lists, bindings and command line.
- Mesh.SessionClient: sockets do not fail and channels have no capacity during session establishment; disconnecting is covered by `Connections`.
- Bridge.Bridge.HandleEvent: the state a driver is left in by its own failure is unspecified, as the caller gives the bridge up.
- Bridge.Bridge.Execute: the same, when the driver fails to proceed.
- Bridge.Bridge.WaitForDriver: the same, after any failure on the way.
- Bridge.Bridge.TakeRound: the same, when the driver refuses a message of the round.
- SignChain.TwoSignersStayInStep: stages are message tags; that a message of another stage may fail to decode is not modelled.
- Codec.Writer.EncodePacket: what a failed encoding has already written is unspecified.
- Conversation.Tell: session messages are lists of sealed chunks there; their envelope and its bytes on the wire are composed with sealing in `Relay` and `Stream` instead.
- ConversationTheorems.EveryRunCanComplete: that the scheduler gives every task its turn is not modelled; the result is that completion stays possible until a watcher gives up, and that runs are bounded.
- Waiting for the end of an event stream, and closing the session and the socket after signing.
