/**
 * The placeholder leader schedule: the next leader is always sequencer 1,
 * whatever the stake weights say.
 */
module LeaderElection {
  import opened Types

  /**
   * The service's two fields. Nothing ever assigns `sequencerId` after
   * construction, and neither query changes a field.
   */
  datatype LeaderElectionService = LeaderElectionService(
    sequencerId: Uint32,
    stakeWeight: map<Uint32, Uint32>)
  {
    /** The sequencer entitled to propose next: always sequencer 1, whatever the fields hold. */
    function NextLeader(): (leader: Uint32)
      ensures leader == 1
    {
      1
    }

    /** Whether the sequencer this service stores is the next leader. */
    predicate NsLeader(): (leader: bool)
      ensures leader <==> sequencerId == NextLeader()
    {
      sequencerId == 1
    }
  }

  /** Stores the stake weights and leaves the stored sequencer id at Go's zero value. */
  function NewLeaderElectionService(stakeWeight: map<Uint32, Uint32>): (s: LeaderElectionService)
    ensures s.stakeWeight == stakeWeight
    ensures s.sequencerId == 0
    ensures !s.NsLeader()
  {
    LeaderElectionService(0, stakeWeight)
  }
}
