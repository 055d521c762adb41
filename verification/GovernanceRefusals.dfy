/**
 Why Governance and RewardDistributor refuse a call: for every entry point, the message of its revert. The
 conditions stand in the order in which a call meets them.
 */
module GovernanceRefusals {
  import opened Base
  import opened Sums
  import opened GovernanceProtocol
  import opened GovernanceSafety

  /** Why a reward is refused, by whomever and for whatever it is given. */
  function GrantRefusal(r: RewardStore, giver: Address, user: Address, amount: nat): string {
    if !IsAuthorized(r, giver) then "UNAUTHORIZED"
    else if Get(r.rewards, user) + amount > U256_MAX || r.totalDistributed + amount > U256_MAX then "u256_add Overflow"
    else ""
  }

  lemma GrantRefused(cfg: Config, s: System, caller: Address, user: Address, amount: u256, on: bool)
    ensures Why(Effect(cfg, s, DoDistribute(caller, user, amount)))
         == GrantRefusal(s.chain.rewards, caller, user, amount)
    ensures Why(Effect(cfg, s, DoAuthorize(caller, user, on))) ==
      if caller != cfg.rewardAdmin then "UNAUTHORIZED" else ""
    ensures Why(Effect(cfg, s, BeginClaim(caller))) ==
      if Get(s.chain.rewards.rewards, caller) == 0 then "NO_REWARDS" else ""
  {
  }

  lemma ProposalRefused(cfg: Config, s: System, caller: Address, balance: u256, description: nat)
    ensures var n, reward := s.chain.gov.proposalCount, GrantRefusal(s.chain.rewards, cfg.governance, caller, 100_000);
      Why(Effect(cfg, s, DoPropose(caller, balance, description))) ==
      if balance == 0 then "INSUFFICIENT_BALANCE"
      else if s.now + cfg.votingPeriod > U64_MAX then "u64_add Overflow"
      else if n + 1 > U256_MAX then "u256_add Overflow"
      else reward
  {
  }

  lemma VoteRefused(cfg: Config, s: System, caller: Address, id: ProposalId, support: bool, balance: u256)
    requires Good(cfg, s)
    ensures var p, reward := ProposalAt(s.chain.gov, id), GrantRefusal(s.chain.rewards, cfg.governance, caller, 10_000);
      Why(Effect(cfg, s, DoVote(caller, id, support, balance))) ==
      if p.executed || p.canceled then "INVALID_PROPOSAL_STATE"
      else if id >= s.chain.gov.proposalCount || s.now < p.startTime || s.now > p.endTime then "INVALID_VOTING_TIME"
      else if balance == 0 then "NO_VOTING_POWER"
      else if (id, caller) in s.chain.gov.votes then "ALREADY_VOTED"
      else if (if support then p.forVotes else p.againstVotes) + balance > U256_MAX then "u256_add Overflow"
      else reward
  {
    if (id, caller) in s.chain.gov.votes {
      assert s.chain.gov.votes[(id, caller)].votes > 0;
    }
  }

  lemma ExecutionRefused(cfg: Config, s: System, caller: Address, id: ProposalId)
    ensures var p := ProposalAt(s.chain.gov, id);
      Why(Effect(cfg, s, DoExecute(caller, id))) ==
      if p.executed || p.canceled then "INVALID_PROPOSAL_STATE"
      else if s.now <= p.endTime then "VOTING_NOT_ENDED"
      else if p.forVotes + p.againstVotes > U256_MAX then "u256_add Overflow"
      else if p.forVotes + p.againstVotes < cfg.quorum then "QUORUM_NOT_REACHED"
      else if p.forVotes <= p.againstVotes then "PROPOSAL_DEFEATED"
      else ""
  {
  }

  lemma CancellationRefused(cfg: Config, s: System, caller: Address, id: ProposalId)
    ensures var p := ProposalAt(s.chain.gov, id);
      Why(Effect(cfg, s, DoCancel(caller, id))) ==
      if caller != p.proposer then "UNAUTHORIZED"
      else if p.executed || p.canceled then "INVALID_PROPOSAL_STATE"
      else if s.now > p.endTime then "VOTING_ENDED"
      else ""
  {
  }
}
