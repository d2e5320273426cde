/**
 * The sequencer's state machine: the ledger (latest confirmed height and
 * per-address carrier balances), the vote buckets for quorum and timeout
 * certificates keyed by previous hash, and the three handlers that change
 * them. Every message the sequencer would hand to its RPC client is
 * appended to an outbox instead.
 */
module Sequencer {
  import opened Types
  import opened LeaderElection

  /** Where a message goes: one sequencer, or every configured peer. */
  datatype Destination = Peer(id: Uint32) | AllPeers

  /** What the RPC client would deliver. */
  datatype Message = Proposal(block: Block) | Vote(response: SignedResponse)

  datatype Envelope = Envelope(to: Destination, message: Message)

  /** What a sequencer is built with and never changes. */
  datatype Config = Config(
    sequencerId: Uint32,
    sequencerIpPortAddresses: seq<string>,
    leaderElectionService: LeaderElectionService)
  {
    /** N, the number of configured peers that the quorum threshold uses. */
    function PeerCount(): nat
    {
      |sequencerIpPortAddresses|
    }

    /** The guard both vote handlers share besides the signature: only sequencer 1 passes it. */
    predicate IsLeader(): (leader: bool)
      ensures leader <==> sequencerId == 1
    {
      sequencerId == leaderElectionService.NextLeader()
    }
  }

  /**
   * The configuration a sequencer built from these arguments should have:
   * the peer list it is given is the one the quorum threshold counts.
   */
  function NewSequencerConfig(sequencerId: Uint32, sequencerIpPortAddresses: seq<string>,
                              stakeWeight: map<Uint32, Uint32>): (c: Config)
    ensures c.PeerCount() == |sequencerIpPortAddresses|
    ensures c.sequencerId == sequencerId
    ensures c.leaderElectionService.stakeWeight == stakeWeight
  {
    Config(sequencerId, sequencerIpPortAddresses, NewLeaderElectionService(stakeWeight))
  }

  /**
   * The configuration NewSequencer actually builds: it hands the peer list
   * to the RPC client but never stores it in the sequencer, so the quorum
   * threshold counts zero peers.
   */
  function NewSequencerConfigAsWritten(sequencerId: Uint32, sequencerIpPortAddresses: seq<string>,
                                       stakeWeight: map<Uint32, Uint32>): (c: Config)
    ensures c.PeerCount() == 0
    ensures c.sequencerId == sequencerId
    ensures c.leaderElectionService.stakeWeight == stakeWeight
  {
    Config(sequencerId, [], NewLeaderElectionService(stakeWeight))
  }

  /** Everything the handlers change. */
  datatype NodeState = NodeState(
    latestConfirmedBlock: Uint32,
    carrierBalances: map<string, Uint32>,
    qc: map<string, seq<bool>>,
    tc: map<string, seq<bool>>,
    outbox: seq<Envelope>)

  /** The state a freshly constructed sequencer starts in. */
  function InitialState(): (s: NodeState)
    ensures s.latestConfirmedBlock == 0
    ensures s.carrierBalances == map[] && s.qc == map[] && s.tc == map[]
    ensures s.outbox == []
  {
    NodeState(0, map[], map[], map[], [])
  }

  // ---------------------------------------------------------------------
  // Certificate checks

  /**
   * A vote list is a certificate when it holds more than floor(2N/3)
   * entries, that is when its votes are more than two thirds of N.
   */
  function ValidateQC(peerCount: nat, qc: seq<bool>): (ok: bool)
    ensures ok <==> 3 * |qc| > 2 * peerCount
    ensures |qc| == 0 ==> !ok
    ensures peerCount == 0 ==> (ok <==> |qc| > 0)
  {
    |qc| > peerCount * 2 / 3
  }

  /** The signature check is the boolean itself; the hash is not consulted. */
  function ValidateSignature(prevHash: string, sig: bool): (ok: bool)
    ensures ok <==> sig
  {
    sig
  }

  // ---------------------------------------------------------------------
  // Balances

  /** A Go map read: an absent address reads as 0. */
  function Balance(balances: map<string, Uint32>, address: string): Uint32
  {
    if address in balances then balances[address] else 0
  }

  /**
   * One `carrierBalances[sender] -= gasLimit` in uint32: the sender gains an
   * entry if it had none, adding the gas back restores its old balance, and
   * every other entry stays.
   */
  function DebitOne(balances: map<string, Uint32>, t: Transaction): (r: map<string, Uint32>)
    ensures r.Keys == balances.Keys + {t.senderAddress}
    ensures Add32(r[t.senderAddress], t.gasLimit) == Balance(balances, t.senderAddress)
    ensures forall a :: a in balances && a != t.senderAddress ==> r[a] == balances[a]
  {
    balances[t.senderAddress := Sub32(Balance(balances, t.senderAddress), t.gasLimit)]
  }

  /** The debits of all transactions, applied in order; no address is ever removed. */
  function DebitAll(balances: map<string, Uint32>, txs: seq<Transaction>): (r: map<string, Uint32>)
    ensures balances.Keys <= r.Keys
  {
    if txs == [] then balances
    else DebitOne(DebitAll(balances, txs[..|txs| - 1]), txs[|txs| - 1])
  }

  /** The addresses that send some transaction of `txs`. */
  function Senders(txs: seq<Transaction>): set<string>
  {
    set t | t in txs :: t.senderAddress
  }

  /** The total gas, as an unbounded integer, that `address` is charged by `txs`. */
  function GasOf(txs: seq<Transaction>, address: string): nat
  {
    if txs == [] then 0
    else GasOf(txs[..|txs| - 1], address)
         + (if txs[|txs| - 1].senderAddress == address then txs[|txs| - 1].gasLimit else 0)
  }

  // ---------------------------------------------------------------------
  // Vote buckets

  /** A Go map read of a bucket: an absent hash reads as the empty list. */
  function Bucket(buckets: map<string, seq<bool>>, prevHash: string): seq<bool>
  {
    if prevHash in buckets then buckets[prevHash] else []
  }

  /** The guard of ProcessResponse and ProcessTimeout: a true signature, received by sequencer 1. */
  predicate VoteAdmitted(cfg: Config, prevHash: string, sig: bool): (admitted: bool)
    ensures admitted <==> sig && cfg.sequencerId == 1
  {
    ValidateSignature(prevHash, sig) && cfg.IsLeader()
  }

  // ---------------------------------------------------------------------
  // The three handlers as transitions of NodeState

  /**
   * The guard of ProcessBlock: the block's height is the uint32 successor of
   * the latest one and its QC holds more than two thirds of N votes; the TC
   * is ignored.
   */
  predicate BlockAccepted(cfg: Config, s: NodeState, block: Block): (accepted: bool)
    ensures accepted <==>
      block.height == Add32(s.latestConfirmedBlock, 1) && 3 * |block.qc| > 2 * cfg.PeerCount()
  {
    PredecessorIsSuccessor(s.latestConfirmedBlock, block.height);
    s.latestConfirmedBlock == Sub32(block.height, 1) && ValidateQC(cfg.PeerCount(), block.qc)
  }

  /** The vote ProcessBlock sends the next leader, sequencer 1, for an accepted block. */
  function VoteFor(cfg: Config, block: Block): (e: Envelope)
    ensures e.to == Peer(1) && e.message.Vote?
    ensures e.message.response.height == block.height
    ensures e.message.response.prevHash == "" && e.message.response.signature
  {
    Envelope(Peer(cfg.leaderElectionService.NextLeader()),
             Vote(SignedResponse(block.height, "", true)))
  }

  function BlockStep(cfg: Config, s: NodeState, block: Block): (r: NodeState)
    ensures !BlockAccepted(cfg, s, block) ==> r == s
    ensures BlockAccepted(cfg, s, block) ==>
      && r.latestConfirmedBlock == block.height
      && r.latestConfirmedBlock == Add32(s.latestConfirmedBlock, 1)
      && r.qc == s.qc && r.tc == s.tc
      && |r.outbox| == |s.outbox| + 1 && r.outbox[..|s.outbox|] == s.outbox
  {
    if BlockAccepted(cfg, s, block) then
      PredecessorIsSuccessor(s.latestConfirmedBlock, block.height);
      s.(latestConfirmedBlock := block.height,
         carrierBalances := DebitAll(s.carrierBalances, block.transactions),
         outbox := s.outbox + [VoteFor(cfg, block)])
    else
      s
  }

  /** The block a leader broadcasts once a bucket passes: the bucket as QC, no transactions, no TC. */
  function ProposalFromVotes(height: Uint32, votes: seq<bool>): (b: Block)
    ensures b.height == height && b.leaderSignature
    ensures b.qc == votes && b.tc == [] && b.transactions == []
  {
    Block(height, true, votes, [], [])
  }

  /**
   * The block a leader broadcasts after a timeout: the bucket as TC, no
   * transactions and an empty QC, so no sequencer in any state accepts it.
   */
  function ProposalFromTimeouts(height: Uint32, timeouts: seq<bool>): (b: Block)
    ensures b.height == height && b.leaderSignature
    ensures b.tc == timeouts && b.transactions == []
    ensures forall cfg: Config, s: NodeState :: !BlockAccepted(cfg, s, b)
  {
    Block(height, true, [], timeouts, [])
  }

  function ResponseStep(cfg: Config, s: NodeState, response: SignedResponse): (r: NodeState)
    ensures !VoteAdmitted(cfg, response.prevHash, response.signature) ==> r == s
    ensures VoteAdmitted(cfg, response.prevHash, response.signature) ==>
      && r.latestConfirmedBlock == s.latestConfirmedBlock
      && r.carrierBalances == s.carrierBalances
      && r.tc == s.tc
      && r.qc.Keys == s.qc.Keys + {response.prevHash}
      && Bucket(r.qc, response.prevHash) == Bucket(s.qc, response.prevHash) + [true]
      && (forall h :: h != response.prevHash ==> Bucket(r.qc, h) == Bucket(s.qc, h))
      && r.outbox ==
         if ValidateQC(cfg.PeerCount(), Bucket(r.qc, response.prevHash))
         then s.outbox + [Envelope(AllPeers, Proposal(ProposalFromVotes(response.height, Bucket(r.qc, response.prevHash))))]
         else s.outbox
  {
    if VoteAdmitted(cfg, response.prevHash, response.signature) then
      var bucket := Bucket(s.qc, response.prevHash) + [response.signature];
      var sent := if ValidateQC(cfg.PeerCount(), bucket)
                  then [Envelope(AllPeers, Proposal(ProposalFromVotes(response.height, bucket)))]
                  else [];
      s.(qc := s.qc[response.prevHash := bucket], outbox := s.outbox + sent)
    else
      s
  }

  /**
   * As written, the threshold is tested on the QC bucket of the hash,
   * while the broadcast block carries the TC bucket.
   */
  function TimeoutStep(cfg: Config, s: NodeState, timeout: SignedTimeout): (r: NodeState)
    ensures !VoteAdmitted(cfg, timeout.prevHash, timeout.signature) ==> r == s
    ensures VoteAdmitted(cfg, timeout.prevHash, timeout.signature) ==>
      && r.latestConfirmedBlock == s.latestConfirmedBlock
      && r.carrierBalances == s.carrierBalances
      && r.qc == s.qc
      && r.tc.Keys == s.tc.Keys + {timeout.prevHash}
      && Bucket(r.tc, timeout.prevHash) == Bucket(s.tc, timeout.prevHash) + [true]
      && (forall h :: h != timeout.prevHash ==> Bucket(r.tc, h) == Bucket(s.tc, h))
      && r.outbox ==
         if ValidateQC(cfg.PeerCount(), Bucket(s.qc, timeout.prevHash))
         then s.outbox + [Envelope(AllPeers, Proposal(ProposalFromTimeouts(timeout.height, Bucket(r.tc, timeout.prevHash))))]
         else s.outbox
  {
    if VoteAdmitted(cfg, timeout.prevHash, timeout.signature) then
      var bucket := Bucket(s.tc, timeout.prevHash) + [timeout.signature];
      var sent := if ValidateQC(cfg.PeerCount(), Bucket(s.qc, timeout.prevHash))
                  then [Envelope(AllPeers, Proposal(ProposalFromTimeouts(timeout.height, bucket)))]
                  else [];
      s.(tc := s.tc[timeout.prevHash := bucket], outbox := s.outbox + sent)
    else
      s
  }

  // ---------------------------------------------------------------------
  // The sequencer object

  class Sequencer {
    const sequencerId: Uint32
    const serverIpPortAddr: string
    const sequencerIpPortAddresses: seq<string>
    const leaderElectionService: LeaderElectionService

    var carrierBalances: map<string, Uint32>
    var latestConfirmedBlock: Uint32
    var qc: map<string, seq<bool>>
    var tc: map<string, seq<bool>>
    /** The messages handed to the RPC client, oldest first. */
    var outbox: seq<Envelope>

    function Configuration(): Config
    {
      Config(sequencerId, sequencerIpPortAddresses, leaderElectionService)
    }

    function State(): NodeState
      reads this
    {
      NodeState(latestConfirmedBlock, carrierBalances, qc, tc, outbox)
    }

    /**
     * NewSequencer, with the peer list stored (see NewSequencerConfig) and
     * the three maps empty rather than nil.
     */
    constructor (sequencerId: Uint32, serverIpPortAddr: string,
                 sequencerIpPortAddresses: seq<string>, stakeWeight: map<Uint32, Uint32>)
      ensures Configuration() == NewSequencerConfig(sequencerId, sequencerIpPortAddresses, stakeWeight)
      ensures this.serverIpPortAddr == serverIpPortAddr
      ensures State() == InitialState()
    {
      this.sequencerId := sequencerId;
      this.serverIpPortAddr := serverIpPortAddr;
      this.sequencerIpPortAddresses := sequencerIpPortAddresses;
      this.leaderElectionService := NewLeaderElectionService(stakeWeight);
      carrierBalances := map[];
      latestConfirmedBlock := 0;
      qc := map[];
      tc := map[];
      outbox := [];
    }

    method ProcessBlock(proposedBlock: Block)
      modifies this
      ensures State() == BlockStep(Configuration(), old(State()), proposedBlock)
    {
      if latestConfirmedBlock == Sub32(proposedBlock.height, 1)
         && ValidateQC(|sequencerIpPortAddresses|, proposedBlock.qc)
      {
        latestConfirmedBlock := proposedBlock.height;

        var txs := proposedBlock.transactions;
        var i := 0;
        while i < |txs|
          invariant 0 <= i <= |txs|
          invariant carrierBalances == DebitAll(old(carrierBalances), txs[..i])
          invariant latestConfirmedBlock == proposedBlock.height
          invariant qc == old(qc) && tc == old(tc) && outbox == old(outbox)
        {
          var t := txs[i];
          carrierBalances := carrierBalances[t.senderAddress := Sub32(Balance(carrierBalances, t.senderAddress), t.gasLimit)];
          assert txs[..i + 1][..i] == txs[..i];
          i := i + 1;
        }
        assert txs[..i] == txs;

        outbox := outbox + [Envelope(Peer(leaderElectionService.NextLeader()),
                                     Vote(SignedResponse(proposedBlock.height, "", true)))];
      }
    }

    method ProcessResponse(response: SignedResponse)
      modifies this
      ensures State() == ResponseStep(Configuration(), old(State()), response)
    {
      if ValidateSignature(response.prevHash, response.signature)
         && sequencerId == leaderElectionService.NextLeader()
      {
        qc := qc[response.prevHash := Bucket(qc, response.prevHash) + [response.signature]];
        if ValidateQC(|sequencerIpPortAddresses|, qc[response.prevHash]) {
          outbox := outbox + [Envelope(AllPeers, Proposal(ProposalFromVotes(response.height, qc[response.prevHash])))];
        }
      }
    }

    method ProcessTimeout(timeout: SignedTimeout)
      modifies this
      ensures State() == TimeoutStep(Configuration(), old(State()), timeout)
    {
      if ValidateSignature(timeout.prevHash, timeout.signature)
         && sequencerId == leaderElectionService.NextLeader()
      {
        tc := tc[timeout.prevHash := Bucket(tc, timeout.prevHash) + [timeout.signature]];
        if ValidateQC(|sequencerIpPortAddresses|, Bucket(qc, timeout.prevHash)) {
          outbox := outbox + [Envelope(AllPeers, Proposal(ProposalFromTimeouts(timeout.height, tc[timeout.prevHash])))];
        }
      }
    }
  }
}
