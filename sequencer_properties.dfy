/**
 * What the sequencer's handlers guarantee, stated over the transition
 * functions that its methods are proved to implement.
 */
module SequencerProperties {
  import opened Types
  import opened Sequencer

  // ---------------------------------------------------------------------
  // Certificate checks

  /** Once a vote list is a certificate, a longer one for the same N is too. */
  lemma ValidateQCMonotone(peerCount: nat, votes: seq<bool>, more: seq<bool>)
    requires ValidateQC(peerCount, votes)
    ensures ValidateQC(peerCount, votes + more)
  {
  }

  /** With four peers the threshold is floor(8/3) = 2: two votes fail, three pass. */
  lemma QuorumOfFour()
    ensures !ValidateQC(4, [true, true])
    ensures ValidateQC(4, [true, true, true])
  {
  }

  // ---------------------------------------------------------------------
  // Balances

  /** Reducing modulo 2^32 before a subtraction does not change the result modulo 2^32. */
  lemma ModSub(x: int, g: int)
    ensures (x % TWO_TO_THE_32 - g) % TWO_TO_THE_32 == (x - g) % TWO_TO_THE_32
  {
  }

  /**
   * After the debits of `txs`, every address holds its old balance (0 when
   * absent) minus the total gas of the transactions it sent, modulo 2^32:
   * a sender appearing k times is debited k times.
   */
  lemma {:induction false} DebitAllBalance(balances: map<string, Uint32>, txs: seq<Transaction>, address: string)
    ensures Balance(DebitAll(balances, txs), address)
            == (Balance(balances, address) - GasOf(txs, address)) % TWO_TO_THE_32
  {
    if txs != [] {
      var init, last := txs[..|txs| - 1], txs[|txs| - 1];
      DebitAllBalance(balances, init, address);
      if last.senderAddress == address {
        ModSub(Balance(balances, address) - GasOf(init, address), last.gasLimit);
      }
    }
  }

  /** The debits add exactly the senders to the map's addresses. */
  lemma {:induction false} DebitAllKeys(balances: map<string, Uint32>, txs: seq<Transaction>)
    ensures DebitAll(balances, txs).Keys == balances.Keys + Senders(txs)
  {
    if txs != [] {
      var init := txs[..|txs| - 1];
      DebitAllKeys(balances, init);
      assert txs == init + [txs[|txs| - 1]];
      assert Senders(txs) == Senders(init) + {txs[|txs| - 1].senderAddress};
    }
  }

  /** An address that sends nothing keeps its entry, or its absence, untouched. */
  lemma {:induction false} DebitAllUntouched(balances: map<string, Uint32>, txs: seq<Transaction>, address: string)
    requires address !in Senders(txs)
    ensures address in DebitAll(balances, txs) <==> address in balances
    ensures address in balances ==> DebitAll(balances, txs)[address] == balances[address]
  {
    if txs != [] {
      var init := txs[..|txs| - 1];
      assert txs[|txs| - 1] in txs;
      assert Senders(init) <= Senders(txs) by {
        forall t | t in init ensures t in txs { }
      }
      DebitAllUntouched(balances, init, address);
    }
  }

  /** Debiting two batches one after the other is debiting their concatenation. */
  lemma {:induction false} DebitAllConcat(balances: map<string, Uint32>, first: seq<Transaction>, second: seq<Transaction>)
    ensures DebitAll(balances, first + second) == DebitAll(DebitAll(balances, first), second)
  {
    if second == [] {
      assert first + second == first;
    } else {
      var init := second[..|second| - 1];
      assert (first + second)[..|first + second| - 1] == first + init;
      DebitAllConcat(balances, first, init);
    }
  }

  // ---------------------------------------------------------------------
  // ProcessBlock

  /**
   * An accepted block advances the height to the block's own, one more
   * than before in uint32, debits every sender and nobody else, and sends
   * exactly one vote, for the block's height with an empty hash, to the
   * next leader.
   */
  lemma AcceptedBlockEffect(cfg: Config, s: NodeState, block: Block, address: string)
    requires BlockAccepted(cfg, s, block)
    ensures var r := BlockStep(cfg, s, block);
      && r.latestConfirmedBlock == block.height == Add32(s.latestConfirmedBlock, 1)
      && Balance(r.carrierBalances, address)
         == (Balance(s.carrierBalances, address) - GasOf(block.transactions, address)) % TWO_TO_THE_32
      && r.carrierBalances.Keys == s.carrierBalances.Keys + Senders(block.transactions)
      && (address !in Senders(block.transactions) ==>
            (address in r.carrierBalances <==> address in s.carrierBalances)
            && Balance(r.carrierBalances, address) == Balance(s.carrierBalances, address))
      && r.qc == s.qc && r.tc == s.tc
      && r.outbox == s.outbox + [Envelope(Peer(1), Vote(SignedResponse(block.height, "", true)))]
  {
    DebitAllBalance(s.carrierBalances, block.transactions, address);
    DebitAllKeys(s.carrierBalances, block.transactions);
    if address !in Senders(block.transactions) {
      DebitAllUntouched(s.carrierBalances, block.transactions, address);
    }
  }

  /** Outside the wrap-around at 2^32 - 1 the height grows by one; there it falls to 0. */
  lemma HeightAdvance(cfg: Config, s: NodeState, block: Block)
    requires BlockAccepted(cfg, s, block)
    ensures s.latestConfirmedBlock < MAX_UINT32 ==>
      BlockStep(cfg, s, block).latestConfirmedBlock == s.latestConfirmedBlock + 1
    ensures s.latestConfirmedBlock == MAX_UINT32 ==>
      BlockStep(cfg, s, block).latestConfirmedBlock == 0
  {
  }

  /**
   * Delivered again straight after its acceptance, a block is rejected: its
   * own height never precedes itself in uint32. This does not hold forever;
   * see ReacceptedAfterWrap.
   */
  lemma AcceptedBlockNotReaccepted(cfg: Config, s: NodeState, block: Block)
    requires BlockAccepted(cfg, s, block)
    ensures !BlockAccepted(cfg, BlockStep(cfg, s, block), block)
  {
  }

  /** A block one height above `s`, with a QC of N + 1 votes, which always passes. */
  function NextBlock(cfg: Config, s: NodeState): Block
  {
    Block(Add32(s.latestConfirmedBlock, 1), true, seq(cfg.PeerCount() + 1, _ => true), [], [])
  }

  /** `k` further blocks accepted one after another. */
  function Advance(cfg: Config, s: NodeState, k: nat): NodeState
  {
    if k == 0 then s
    else
      var before := Advance(cfg, s, k - 1);
      BlockStep(cfg, before, NextBlock(cfg, before))
  }

  /** Each block of the chain is accepted, so the height moves k steps modulo 2^32. */
  lemma {:induction false} AdvanceHeight(cfg: Config, s: NodeState, k: nat)
    ensures Advance(cfg, s, k).latestConfirmedBlock == (s.latestConfirmedBlock + k) % TWO_TO_THE_32
  {
    if k > 0 {
      AdvanceHeight(cfg, s, k - 1);
      var before := Advance(cfg, s, k - 1);
      assert BlockAccepted(cfg, before, NextBlock(cfg, before));
    }
  }

  /**
   * Heights are uint32, so after 2^32 - 1 further blocks the latest height
   * wraps back to just below an accepted block's height: the same block is
   * then accepted a second time and its transactions are debited again.
   */
  lemma ReacceptedAfterWrap(cfg: Config, s: NodeState, block: Block)
    requires BlockAccepted(cfg, s, block)
    ensures var later := Advance(cfg, BlockStep(cfg, s, block), MAX_UINT32);
      && BlockAccepted(cfg, later, block)
      && BlockStep(cfg, later, block).carrierBalances == DebitAll(later.carrierBalances, block.transactions)
  {
    AdvanceHeight(cfg, BlockStep(cfg, s, block), MAX_UINT32);
  }

  /** `block` delivered `k` times in a row. */
  function ReplayBlock(cfg: Config, s: NodeState, block: Block, k: nat): NodeState
  {
    if k == 0 then s else BlockStep(cfg, ReplayBlock(cfg, s, block, k - 1), block)
  }

  /** Replaying a rejected block any number of times changes nothing. */
  lemma {:induction false} ReplayRejectedBlock(cfg: Config, s: NodeState, block: Block, k: nat)
    requires !BlockAccepted(cfg, s, block)
    ensures ReplayBlock(cfg, s, block, k) == s
  {
    if k > 0 {
      ReplayRejectedBlock(cfg, s, block, k - 1);
    }
  }

  /** Delivering a block k + 1 times has the effect of delivering it once: no double debit. */
  lemma {:induction false} ReplayAnyBlock(cfg: Config, s: NodeState, block: Block, k: nat)
    ensures ReplayBlock(cfg, s, block, k + 1) == BlockStep(cfg, s, block)
  {
    if k == 0 {
    } else {
      ReplayAnyBlock(cfg, s, block, k - 1);
      var once := BlockStep(cfg, s, block);
      if BlockAccepted(cfg, s, block) {
        AcceptedBlockNotReaccepted(cfg, s, block);
      }
      assert !BlockAccepted(cfg, once, block);
    }
  }

  // ---------------------------------------------------------------------
  // ProcessResponse and ProcessTimeout

  /** `responses` delivered in order. */
  function ResponseSteps(cfg: Config, s: NodeState, responses: seq<SignedResponse>): NodeState
  {
    if responses == [] then s
    else ResponseStep(cfg, ResponseSteps(cfg, s, responses[..|responses| - 1]), responses[|responses| - 1])
  }

  /** `timeouts` delivered in order. */
  function TimeoutSteps(cfg: Config, s: NodeState, timeouts: seq<SignedTimeout>): NodeState
  {
    if timeouts == [] then s
    else TimeoutStep(cfg, TimeoutSteps(cfg, s, timeouts[..|timeouts| - 1]), timeouts[|timeouts| - 1])
  }

  /** How many of `responses` pass the guard and name `prevHash`, duplicates included. */
  function AdmittedVotes(cfg: Config, responses: seq<SignedResponse>, prevHash: string): nat
  {
    if responses == [] then 0
    else
      var r := responses[|responses| - 1];
      AdmittedVotes(cfg, responses[..|responses| - 1], prevHash)
      + (if r.prevHash == prevHash && VoteAdmitted(cfg, r.prevHash, r.signature) then 1 else 0)
  }

  /**
   * A bucket grows by exactly the admitted votes naming its hash, with no
   * de-duplication, and the ledger and the timeout buckets stay as they were.
   */
  lemma {:induction false} BucketCountsAdmittedVotes(cfg: Config, s: NodeState, responses: seq<SignedResponse>, prevHash: string)
    ensures var r := ResponseSteps(cfg, s, responses);
      && |Bucket(r.qc, prevHash)| == |Bucket(s.qc, prevHash)| + AdmittedVotes(cfg, responses, prevHash)
      && r.latestConfirmedBlock == s.latestConfirmedBlock
      && r.carrierBalances == s.carrierBalances
      && r.tc == s.tc
  {
    if responses != [] {
      BucketCountsAdmittedVotes(cfg, s, responses[..|responses| - 1], prevHash);
    }
  }

  /** A sequencer that is not the next leader ignores every vote: no state change, no proposal. */
  lemma {:induction false} NonLeaderIgnoresVotes(cfg: Config, s: NodeState, responses: seq<SignedResponse>)
    requires !cfg.IsLeader()
    ensures ResponseSteps(cfg, s, responses) == s
  {
    if responses != [] {
      NonLeaderIgnoresVotes(cfg, s, responses[..|responses| - 1]);
    }
  }

  /** A sequencer that is not the next leader ignores every timeout as well. */
  lemma {:induction false} NonLeaderIgnoresTimeouts(cfg: Config, s: NodeState, timeouts: seq<SignedTimeout>)
    requires !cfg.IsLeader()
    ensures TimeoutSteps(cfg, s, timeouts) == s
  {
    if timeouts != [] {
      NonLeaderIgnoresTimeouts(cfg, s, timeouts[..|timeouts| - 1]);
    }
  }

  /**
   * Once a bucket passes the threshold, every further admitted vote for its
   * hash broadcasts another proposal carrying the whole bucket.
   */
  lemma QuorumReproposes(cfg: Config, s: NodeState, response: SignedResponse)
    requires VoteAdmitted(cfg, response.prevHash, response.signature)
    requires ValidateQC(cfg.PeerCount(), Bucket(s.qc, response.prevHash))
    ensures var r := ResponseStep(cfg, s, response);
      && |r.outbox| == |s.outbox| + 1
      && r.outbox[|s.outbox|].to == AllPeers
      && r.outbox[|s.outbox|].message.Proposal?
      && r.outbox[|s.outbox|].message.block.qc == Bucket(s.qc, response.prevHash) + [true]
  {
    ValidateQCMonotone(cfg.PeerCount(), Bucket(s.qc, response.prevHash), [true]);
  }

  /**
   * Every proposal a vote triggers carries a QC that passes the threshold,
   * so a peer counting no more peers than the leader, whose latest height
   * precedes the vote's height, accepts it.
   */
  lemma VoteProposalAccepted(cfg: Config, s: NodeState, response: SignedResponse, peerCfg: Config, peer: NodeState)
    requires |ResponseStep(cfg, s, response).outbox| > |s.outbox|
    requires peerCfg.PeerCount() <= cfg.PeerCount()
    requires peer.latestConfirmedBlock == Sub32(response.height, 1)
    ensures var e := ResponseStep(cfg, s, response).outbox[|s.outbox|];
      e.message.Proposal? && e.message.block.height == response.height
      && BlockAccepted(peerCfg, peer, e.message.block)
  {
  }

  /**
   * As written, the proposal a vote triggers has the vote's height, not the
   * next one. A vote at height h is sent by a peer that just confirmed h,
   * so that peer rejects the proposal, whichever peer it is and whatever
   * the leader's configuration.
   */
  lemma VoteProposalRejectedByVoter(voterCfg: Config, s: NodeState, block: Block,
                                    leaderCfg: Config, leader: NodeState, judgeCfg: Config)
    requires BlockAccepted(voterCfg, s, block)
    ensures var voter := BlockStep(voterCfg, s, block);
      var vote := voter.outbox[|voter.outbox| - 1].message.response;
      var proposed := ResponseStep(leaderCfg, leader, vote);
      forall i :: |leader.outbox| <= i < |proposed.outbox| ==>
        proposed.outbox[i].message.Proposal? && !BlockAccepted(judgeCfg, voter, proposed.outbox[i].message.block)
  {
  }

  /** A timeout never touches the QC buckets or the ledger. */
  lemma {:induction false} TimeoutsLeaveQcAlone(cfg: Config, s: NodeState, timeouts: seq<SignedTimeout>)
    ensures var r := TimeoutSteps(cfg, s, timeouts);
      r.qc == s.qc && r.latestConfirmedBlock == s.latestConfirmedBlock && r.carrierBalances == s.carrierBalances
  {
    if timeouts != [] {
      TimeoutsLeaveQcAlone(cfg, s, timeouts[..|timeouts| - 1]);
    }
  }

  /**
   * As written, ProcessTimeout tests the QC bucket of the hash: without a
   * passing QC bucket, no number of timeouts ever produces a proposal.
   */
  lemma {:induction false} TimeoutsAloneNeverPropose(cfg: Config, s: NodeState, timeouts: seq<SignedTimeout>)
    requires forall t :: t in timeouts ==> !ValidateQC(cfg.PeerCount(), Bucket(s.qc, t.prevHash))
    ensures TimeoutSteps(cfg, s, timeouts).outbox == s.outbox
  {
    if timeouts != [] {
      var init := timeouts[..|timeouts| - 1];
      assert forall t :: t in init ==> t in timeouts;
      TimeoutsAloneNeverPropose(cfg, s, init);
      TimeoutsLeaveQcAlone(cfg, s, init);
      assert timeouts[|timeouts| - 1] in timeouts;
    }
  }

  /**
   * Every proposal a timeout triggers carries an empty QC, and ProcessBlock
   * checks only the QC, so every peer rejects it.
   */
  lemma TimeoutProposalRejected(cfg: Config, s: NodeState, timeout: SignedTimeout, peerCfg: Config, peer: NodeState)
    ensures var r := TimeoutStep(cfg, s, timeout);
      forall i :: |s.outbox| <= i < |r.outbox| ==>
        r.outbox[i].message.Proposal?
        && r.outbox[i].message.block.qc == []
        && !BlockAccepted(peerCfg, peer, r.outbox[i].message.block)
  {
  }

  // ---------------------------------------------------------------------
  // Scenarios

  /**
   * Four peers, the leader (sequencer 1) fresh: two votes for hash "H"
   * leave the outbox empty, the third broadcasts a height-1 proposal with
   * the three votes, and a fresh peer with any id, configured with the same
   * four addresses, confirms height 1 on receiving it.
   */
  lemma FourPeerRound(addresses: seq<string>, stakeWeight: map<Uint32, Uint32>, peerId: Uint32)
    requires |addresses| == 4
    ensures var cfg := NewSequencerConfig(1, addresses, stakeWeight);
      var peerCfg := NewSequencerConfig(peerId, addresses, stakeWeight);
      var vote := SignedResponse(1, "H", true);
      var two := ResponseSteps(cfg, InitialState(), [vote, vote]);
      var three := ResponseStep(cfg, two, vote);
      var block := ProposalFromVotes(1, [true, true, true]);
      && two.outbox == []
      && three.outbox == [Envelope(AllPeers, Proposal(block))]
      && BlockStep(peerCfg, InitialState(), block).latestConfirmedBlock == 1
  {
    var cfg := NewSequencerConfig(1, addresses, stakeWeight);
    var vote := SignedResponse(1, "H", true);
    var one := ResponseStep(cfg, InitialState(), vote);
    assert Bucket(one.qc, "H") == [true];
    assert ResponseSteps(cfg, InitialState(), [vote]) == one by {
      assert [vote][..0] == [];
    }
    assert [vote, vote][..1] == [vote];
    var two := ResponseStep(cfg, one, vote);
    assert Bucket(two.qc, "H") == [true, true];
    var three := ResponseStep(cfg, two, vote);
    assert Bucket(three.qc, "H") == [true, true, true];
    QuorumOfFour();
  }

  /**
   * NewSequencer as written counts zero peers: a fresh sequencer accepts a
   * height-1 block whose QC holds a single vote, confirming height 1 and
   * voting for it, where the four configured peers demand three votes.
   * With no transactions the block writes no balance, so the nil maps that
   * NewSequencer leaves are never written either.
   */
  lemma SingleVoteBlockAcceptedAsWritten(addresses: seq<string>, stakeWeight: map<Uint32, Uint32>, sequencerId: Uint32)
    requires |addresses| == 4
    ensures var block := Block(1, true, [true], [], []);
      && BlockAccepted(NewSequencerConfigAsWritten(sequencerId, addresses, stakeWeight), InitialState(), block)
      && BlockStep(NewSequencerConfigAsWritten(sequencerId, addresses, stakeWeight), InitialState(), block).latestConfirmedBlock == 1
      && !BlockAccepted(NewSequencerConfig(sequencerId, addresses, stakeWeight), InitialState(), block)
      && BlockStep(NewSequencerConfig(sequencerId, addresses, stakeWeight), InitialState(), block) == InitialState()
  {
  }

  /**
   * With the maps initialised, as this model's constructor leaves them, a
   * zero-peer threshold also lets a leader propose after a single vote,
   * where the peer list passed in demands more.
   */
  lemma SingleVoteProposesWithZeroPeers(addresses: seq<string>, stakeWeight: map<Uint32, Uint32>, height: Uint32, prevHash: string)
    requires |addresses| >= 2
    ensures var vote := SignedResponse(height, prevHash, true);
      && ResponseStep(NewSequencerConfigAsWritten(1, addresses, stakeWeight), InitialState(), vote).outbox
         == [Envelope(AllPeers, Proposal(ProposalFromVotes(height, [true])))]
      && ResponseStep(NewSequencerConfig(1, addresses, stakeWeight), InitialState(), vote).outbox == []
  {
    assert Bucket(InitialState().qc, prevHash) + [true] == [true];
  }
}
