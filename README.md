# Sequencer node: a Dafny model of the sequencer state machine

This project models the core of `sequencer-node`, a leader-based block sequencer written in Go.
The model covers four parts:

- **the sequencer's state**: the latest confirmed block height, the per-address carrier balances, and two maps of vote buckets keyed by previous hash. One map holds quorum-certificate (QC) votes, the other timeout-certificate (TC) votes.
- **its three RPC handlers**: `ProcessBlock`, `ProcessResponse` and `ProcessTimeout`.
- **its two checks**: `validateQC` and `validateSignature`.
- **the data it uses**: the message records, and the placeholder leader schedule that always names sequencer 1.

Files:

- `types.dfy` (module `Types`): Go's `uint32` as the subset type `Uint32`, with wrapping subtraction `Sub32` and addition `Add32`. It also declares the records `Transaction`, `Block`, `SignedResponse` and `SignedTimeout`. Every height and gas limit in them is a `Uint32`. A block's `qc` and `tc` are two independent lists of booleans that stand in for signatures. Its `transactions` are an ordered sequence.
- `leader_election.dfy` (module `LeaderElection`): the leader-election service as a value. `NextLeader` is always 1. `NsLeader` compares the stored id with 1. The constructor stores the stake weights and leaves the id at 0.
- `sequencer.dfy` (module `Sequencer`) has two layers:
  - The handlers as pure transitions `BlockStep`, `ResponseStep` and `TimeoutStep` over a `NodeState` value. The state holds the height, the balances, the `qc` and `tc` maps, and an outbox.
  - The class `Sequencer`, which keeps those same fields and updates them in place. `ProcessBlock` debits balances in a loop, as the Go code does. Each handler is proved to leave `State()` equal to the transition applied to `old(State())`.
- `sequencer_properties.dfy` (module `SequencerProperties`): lemmas over the transitions and over several steps run in sequence.

Messages are not sent over the network. Each message the sequencer would hand to its RPC client is appended to the outbox instead, as an `Envelope(to, message)`:

- A vote goes to `Peer(NextLeader())`.
- A proposed block goes to `AllPeers`, which stands for the client's fan-out to every configured peer.

The model follows the code as written, including where the code departs from the protocol it describes. There are two exceptions. The class constructor stores the peer list, where `NewSequencer` drops it (see "## Findings"). The three maps start empty, where `NewSequencer` leaves them nil (see "## Left out"). Otherwise:

- `ProcessBlock` accepts a block when both of these hold:
  - `latestConfirmedBlock == Height - 1`, computed in `uint32`. So height 0 follows 2^32 - 1.
  - The block's QC passes the check.

  The block's TC is never consulted.
- The vote that `ProcessBlock` sends carries an empty `PrevHash`. So every such vote lands in the bucket for `""`.
- A proposal built from votes has the vote's own height, not the next height. So each peer that sent one of those votes, whatever its id, has already confirmed that height and rejects the proposal (`VoteProposalRejectedByVoter`).
- `ProcessTimeout` appends to the TC bucket but tests the threshold on the QC bucket of the same hash. Its proposal carries the TC and an empty QC, so every peer rejects it (`TimeoutProposalRejected`).
- Acceptance remembers nothing but the latest height. After 2^32 - 1 further blocks the uint32 height wraps round, and an already accepted block is accepted again and its gas debited a second time (`ReacceptedAfterWrap`). Delivered again straight after its acceptance, it is rejected (`AcceptedBlockNotReaccepted`).
- Votes are not de-duplicated. Once a bucket passes the threshold, every further admitted vote for that hash (a true signature, received by the leader) broadcasts another proposal.
- The handlers' `error` result is always nil, and the `reply` flag is never set. Neither is modelled.

## Model

| member | source | states |
|---|---|---|
| `Types.Sub32` | sequencer/sequencer.go:70 | uint32 subtraction: `a - b` when `a >= b`, otherwise `a - b + 2^32` |
| `Types.PredecessorIsSuccessor` | sequencer/sequencer.go:70 | `latest == height - 1` in uint32 holds exactly when `height` is latest + 1 modulo 2^32; for height 0 it holds exactly when latest is 2^32 - 1 |
| `LeaderElection.LeaderElectionService.NextLeader` | leader-election/leader-election.go:18-21 | the next leader is sequencer 1, whatever the service's id and stake weights |
| `LeaderElection.LeaderElectionService.NsLeader` | leader-election/leader-election.go:23-26 | true exactly when the stored sequencer id equals `NextLeader()`, which is 1 |
| `LeaderElection.NewLeaderElectionService` | leader-election/leader-election.go:14-16 | stores the stake weights, leaves the id at 0, and so `NsLeader()` is false |
| `Sequencer.NewSequencerConfig` | sequencer/sequencer.go:45-53 | corrected construction: N is the length of the peer list passed in; the id and stake weights are stored |
| `Sequencer.NewSequencerConfigAsWritten` | sequencer/sequencer.go:45-53 | construction as written: the peer list is not stored, so N is 0 |
| `Sequencer.Config.IsLeader` | sequencer/sequencer.go:95 | the leadership guard `sequencerId == NextLeader()` holds exactly for sequencer id 1 |
| `Sequencer.InitialState` | sequencer/sequencer.go:45-53 | a new sequencer has height 0, no balances, no buckets and nothing sent |
| `Sequencer.ValidateQC` | sequencer/sequencer.go:134-137 | `len > floor(2N/3)` holds exactly when `3 * len > 2N`; an empty list never passes; with N = 0 any non-empty list passes |
| `Sequencer.ValidateSignature` | sequencer/sequencer.go:139-142 | the signature check is true exactly when the signature boolean is; the hash plays no part |
| `Sequencer.DebitOne` | sequencer/sequencer.go:79 | one `carrierBalances[sender] -= gasLimit`: the sender gains an entry if absent, adding the gas back in uint32 gives its old balance (0 if absent), and every other entry stays |
| `Sequencer.DebitAll` | sequencer/sequencer.go:77-81 | the debits of a block's transactions in order; no address is ever removed (amounts in `DebitAllBalance`) |
| `Sequencer.VoteAdmitted` | sequencer/sequencer.go:95 | the vote and timeout guard holds exactly when the signature is true and this sequencer's id is 1 |
| `Sequencer.BlockAccepted` | sequencer/sequencer.go:70 | `latest == Height-1` in uint32 and `validateQC(QC)` hold exactly when the height is latest + 1 modulo 2^32 and three times the QC length exceeds 2N; the TC is not consulted |
| `Sequencer.VoteFor` | sequencer/sequencer.go:83-89 | the vote for an accepted block goes to sequencer 1 and carries the block's height, an empty previous hash and a true signature |
| `Sequencer.ProposalFromVotes` | sequencer/sequencer.go:101-106 | the proposal from a passing bucket has the vote's height, a leader signature, the bucket as QC, an empty TC and no transactions |
| `Sequencer.ProposalFromTimeouts` | sequencer/sequencer.go:121-126 | the proposal after a timeout has the timeout's height, the TC bucket, no transactions and an empty QC, so no sequencer in any state accepts it |
| `Sequencer.BlockStep` | sequencer/sequencer.go:69-92 | a rejected block leaves the whole state unchanged; an accepted one sets the height to the block's height, which is latest + 1 modulo 2^32, leaves `qc` and `tc` alone and sends exactly one message |
| `Sequencer.ResponseStep` | sequencer/sequencer.go:94-112 | without a true signature and leadership nothing changes; otherwise exactly one `true` is appended to `qc[prevHash]`, other buckets, `tc`, height and balances stay, and a proposal with the whole bucket as QC is broadcast exactly when the bucket passes |
| `Sequencer.TimeoutStep` | sequencer/sequencer.go:114-132 | same guard; one `true` is appended to `tc[prevHash]`, `qc` stays, and a proposal carrying the TC bucket is broadcast exactly when the QC bucket of that hash passes |
| `Sequencer.Sequencer.constructor` | sequencer/sequencer.go:45-53 | the object's configuration is `NewSequencerConfig` of its arguments and its state is `InitialState()` |
| `Sequencer.Sequencer.ProcessBlock` | sequencer/sequencer.go:69-92 | the new state is `BlockStep` of the old one; the balance loop keeps the balances equal to the debits of the transactions seen so far |
| `Sequencer.Sequencer.ProcessResponse` | sequencer/sequencer.go:94-112 | the new state is `ResponseStep` of the old one |
| `Sequencer.Sequencer.ProcessTimeout` | sequencer/sequencer.go:114-132 | the new state is `TimeoutStep` of the old one |
| `SequencerProperties.ValidateQCMonotone` | sequencer/sequencer.go:134-137 | appending votes to a passing list keeps it passing |
| `SequencerProperties.QuorumOfFour` | sequencer/sequencer.go:134-137 | with N = 4, two votes fail and three pass |
| `SequencerProperties.DebitAllBalance` | sequencer/sequencer.go:77-81 | after the debits, each address holds its old balance (0 if absent) minus the total gas of its transactions, modulo 2^32, counting every repeat |
| `SequencerProperties.DebitAllKeys` | sequencer/sequencer.go:78-80 | the debits add exactly the senders' addresses to the balance map |
| `SequencerProperties.DebitAllUntouched` | sequencer/sequencer.go:78-80 | an address that sends nothing keeps its balance, or stays absent |
| `SequencerProperties.DebitAllConcat` | sequencer/sequencer.go:77-81 | debiting two batches in turn equals debiting their concatenation in order |
| `SequencerProperties.AcceptedBlockEffect` | sequencer/sequencer.go:69-90 | on acceptance: height becomes the block's height, which is latest + 1 in uint32; every balance is debited by its senders' gas and no other balance changes; `qc`/`tc` stay; exactly one vote `{Height, "", true}` goes to sequencer 1 |
| `SequencerProperties.HeightAdvance` | sequencer/sequencer.go:72-74 | an accepted block raises the height by one, except at 2^32 - 1, where the height wraps to 0 |
| `SequencerProperties.AcceptedBlockNotReaccepted` | sequencer/sequencer.go:70-74 | delivered again straight after its acceptance, the block is rejected, since its height is now the latest height |
| `SequencerProperties.AdvanceHeight` | sequencer/sequencer.go:70-74 | a chain of k accepted blocks, each one above the last, moves the latest height k steps modulo 2^32 |
| `SequencerProperties.ReacceptedAfterWrap` | sequencer/sequencer.go:70-80 | after 2^32 - 1 further accepted blocks the height wraps back below an accepted block, which is then accepted again and its transactions debited a second time |
| `SequencerProperties.ReplayRejectedBlock` | sequencer/sequencer.go:69-92 | delivering a rejected block any number of times changes nothing |
| `SequencerProperties.ReplayAnyBlock` | sequencer/sequencer.go:69-92 | delivering a block k + 1 times has the effect of one delivery: no double debit and no second vote |
| `SequencerProperties.BucketCountsAdmittedVotes` | sequencer/sequencer.go:95-98 | after a run of votes, a bucket's length grows by exactly the admitted votes for its hash, duplicates included; height, balances and `tc` are unchanged |
| `SequencerProperties.NonLeaderIgnoresVotes` | sequencer/sequencer.go:95 | a sequencer that is not the next leader is unchanged by any run of votes and never proposes |
| `SequencerProperties.NonLeaderIgnoresTimeouts` | sequencer/sequencer.go:115 | a sequencer that is not the next leader is unchanged by any run of timeouts |
| `SequencerProperties.QuorumReproposes` | sequencer/sequencer.go:98-107 | once a bucket passes, every further admitted vote broadcasts another proposal with the grown bucket |
| `SequencerProperties.VoteProposalAccepted` | sequencer/sequencer.go:99-106 | a proposal triggered by a vote has the vote's height and a passing QC, so a peer with its own configuration, counting at most the leader's N peers, whose height precedes it accepts it |
| `SequencerProperties.VoteProposalRejectedByVoter` | sequencer/sequencer.go:101-106 | a peer with any configuration that accepted a block and voted for it rejects any proposal its vote triggers at a leader with any configuration |
| `SequencerProperties.TimeoutsLeaveQcAlone` | sequencer/sequencer.go:116-118 | any run of timeouts leaves `qc`, the height and the balances unchanged |
| `SequencerProperties.TimeoutsAloneNeverPropose` | sequencer/sequencer.go:119 | if no QC bucket named by the timeouts passes, no run of timeouts sends anything |
| `SequencerProperties.TimeoutProposalRejected` | sequencer/sequencer.go:121-126 | every proposal a timeout triggers has an empty QC, and every peer rejects it |
| `SequencerProperties.FourPeerRound` | sequencer/sequencer.go:94-112 | N = 4, leader fresh: two votes for one hash send nothing; the third broadcasts a height-1 block with three votes, which a fresh peer with any id and the same four addresses accepts |
| `SequencerProperties.SingleVoteBlockAcceptedAsWritten` | sequencer/sequencer.go:45-53 | with four configured peers but N as written (0), a fresh sequencer accepts `Block{Height: 1, QC: [true]}` with no transactions and confirms height 1; with the peer list counted it rejects the block and nothing changes |
| `SequencerProperties.SingleVoteProposesWithZeroPeers` | sequencer/sequencer.go:94-112 | with the maps initialised as in this model, a zero-peer threshold lets one vote trigger a proposal; with the peer list counted (N >= 2), it does not |

## Findings

| source | as written | input that shows it | evidently intended | confidence | as-written member | corrected member |
|---|---|---|---|---|---|---|
| sequencer/sequencer.go:45-53 | `NewSequencer` passes the peer list to the RPC client but never stores it in `sequencerIpPortAddresses`. So `validateQC` compares against `0*2/3 = 0`. | `NewSequencer(id, addr, [a, b, c, d], w)`, then `ProcessBlock(Block{Height: 1, QC: [true]})` with no transactions: line 70 passes against threshold 0, the height becomes 1 and a vote is sent. No map is written, so the nil maps do not panic. | N is the number of configured peers: with four peers, three votes are needed. | high; not executed | `Sequencer.NewSequencerConfigAsWritten`, `SequencerProperties.SingleVoteBlockAcceptedAsWritten` | `Sequencer.NewSequencerConfig`, which `Sequencer.Sequencer.constructor` uses |

## Left out

- The RPC client (`rpc-client/rpc-client.go`) is left out because it does network I/O and concurrency: dialing, caching connections, goroutine fan-out, and five retries two seconds apart. Its effect is modelled only as appends to the outbox.
- `Sequencer.Start` is left out because it only registers the object with `net/rpc` and starts an HTTP server.
- The four `sync.RWMutex` locks are left out. So is the unlocked read of `latestConfirmedBlock` in `ProcessBlock`. Each handler is modelled as one atomic step, so the window in which the height has advanced but balances are not yet debited is not modelled. Nor is the check-then-act race between the height test at sequencer/sequencer.go:70 and its update at lines 72-73: `net/rpc` serves each call on its own goroutine, so two deliveries of one height (the leader re-proposes on every further admitted vote) can both pass the test, and each advances the height, debits and votes. `ReplayAnyBlock` and `AcceptedBlockNotReaccepted` hold for one delivery after another only.
- The logger, `errors.Wrapf` and the JSON field tags are left out: they are library calls and wire encoding.
- The three maps start empty, although `NewSequencer` leaves them nil. In Go, the first write into a nil map panics. That happens on the first accepted vote or timeout, and on the first accepted block with a transaction. The model does not capture these panics.
- Signatures and the leader assertion are plain booleans, as in the source. No cryptography is modelled.
- The stored address `serverIpPortAddr` is kept but used by nothing.
