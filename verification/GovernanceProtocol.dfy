/**
 Governance and RewardDistributor as one transition system. Proposals and votes pay rewards,
 rewards are claimed from a token contract, and while a claim waits for that token anything
 else may be called. A revert undoes the whole transaction.
 */
module GovernanceProtocol {
  import opened Base
  import opened Sums

  type ProposalId = nat

  datatype Proposal = Proposal(
    id: ProposalId,
    proposer: Address,
    description: nat,
    startTime: nat,
    endTime: nat,
    forVotes: nat,
    againstVotes: nat,
    executed: bool,
    canceled: bool)

  datatype Vote = Vote(support: bool, votes: nat)

  datatype GovStore = GovStore(
    proposals: map<ProposalId, Proposal>,
    votes: map<(ProposalId, Address), Vote>,
    proposalCount: nat)

  datatype RewardEvent = RewardDistributed(user: Address, amount: nat) | RewardClaimed(user: Address, amount: nat)

  /** One successful `distribute_reward`, with the contract or account that called it. */
  datatype Grant = Grant(giver: Address, user: Address, amount: nat)

  datatype RewardStore = RewardStore(
    rewards: map<Address, nat>,
    totalDistributed: nat,
    authorized: map<Address, bool>,
    events: seq<RewardEvent>,
    grants: seq<Grant>)

  /** The Governance contract's own address and settings, and the address RewardDistributor obeys. */
  datatype Config = Config(governance: Address, quorum: nat, votingPeriod: nat, rewardAdmin: Address)

  const PROPOSAL_REWARD: nat := 100_000
  const VOTE_REWARD: nat := 10_000

  const NO_PROPOSAL := Proposal(0, ZERO, 0, 0, 0, 0, 0, false, false)
  const NO_VOTE := Vote(false, 0)

  function ProposalAt(g: GovStore, id: ProposalId): Proposal {
    if id in g.proposals then g.proposals[id] else NO_PROPOSAL
  }

  function VoteOf(g: GovStore, id: ProposalId, voter: Address): Vote {
    if (id, voter) in g.votes then g.votes[(id, voter)] else NO_VOTE
  }

  function IsAuthorized(r: RewardStore, a: Address): bool {
    a in r.authorized && r.authorized[a]
  }

  // ------------------------------------------------------ RewardDistributor

  function SetAuthorized(cfg: Config, r: RewardStore, caller: Address, distributor: Address, on: bool)
    : Outcome<RewardStore>
  {
    var _ :- Assert(caller == cfg.rewardAdmin, "UNAUTHORIZED");
    Ok(r.(authorized := r.authorized[distributor := on]))
  }

  function DistributeReward(r: RewardStore, caller: Address, user: Address, amount: nat): Outcome<RewardStore> {
    var _ :- Assert(IsAuthorized(r, caller), "UNAUTHORIZED");
    var reward :- Add256(Get(r.rewards, user), amount);
    var total :- Add256(r.totalDistributed, amount);
    Ok(r.(rewards := r.rewards[user := reward],
          totalDistributed := total,
          events := r.events + [RewardDistributed(user, amount)],
          grants := r.grants + [Grant(caller, user, amount)]))
  }

  /** `claim_rewards` up to the call of the token: the amount to pay out. */
  function ClaimDebit(r: RewardStore, caller: Address): Outcome<(RewardStore, nat)> {
    var amount := Get(r.rewards, caller);
    var _ :- Assert(amount > 0, "NO_REWARDS");
    Ok((r.(rewards := r.rewards[caller := 0]), amount))
  }

  /** `claim_rewards` from the return of the token on. */
  function ClaimPaid(r: RewardStore, caller: Address, amount: nat): RewardStore {
    r.(events := r.events + [RewardClaimed(caller, amount)])
  }

  // ------------------------------------------------------------- Governance

  function Propose(cfg: Config, g: GovStore, r: RewardStore, caller: Address, balance: nat, description: nat, now: nat)
    : Outcome<(GovStore, RewardStore)>
  {
    var _ :- Assert(balance > 0, "INSUFFICIENT_BALANCE");
    var id := g.proposalCount;
    var _ :- Assert(now + cfg.votingPeriod <= U64_MAX, "u64_add Overflow");
    var proposal := Proposal(id, caller, description, now, now + cfg.votingPeriod, 0, 0, false, false);
    var count :- Add256(id, 1);
    var r' :- DistributeReward(r, cfg.governance, caller, PROPOSAL_REWARD);
    Ok((g.(proposals := g.proposals[id := proposal], proposalCount := count), r'))
  }

  function CastVote(cfg: Config, g: GovStore, r: RewardStore, caller: Address, id: ProposalId, support: bool,
                    balance: nat, now: nat)
    : Outcome<(GovStore, RewardStore)>
  {
    var proposal := ProposalAt(g, id);
    var _ :- Assert(!proposal.executed && !proposal.canceled, "INVALID_PROPOSAL_STATE");
    var _ :- Assert(proposal.startTime <= now <= proposal.endTime, "INVALID_VOTING_TIME");
    var _ :- Assert(balance > 0, "NO_VOTING_POWER");
    var _ :- Assert(VoteOf(g, id, caller).votes == 0, "ALREADY_VOTED");
    var tally :- Add256(if support then proposal.forVotes else proposal.againstVotes, balance);
    var counted := if support then proposal.(forVotes := tally) else proposal.(againstVotes := tally);
    var r' :- DistributeReward(r, cfg.governance, caller, VOTE_REWARD);
    Ok((g.(votes := g.votes[(id, caller) := Vote(support, balance)], proposals := g.proposals[id := counted]), r'))
  }

  function ExecuteProposal(cfg: Config, g: GovStore, id: ProposalId, now: nat): Outcome<GovStore> {
    var proposal := ProposalAt(g, id);
    var _ :- Assert(!proposal.executed && !proposal.canceled, "INVALID_PROPOSAL_STATE");
    var _ :- Assert(now > proposal.endTime, "VOTING_NOT_ENDED");
    var total :- Add256(proposal.forVotes, proposal.againstVotes);
    var _ :- Assert(total >= cfg.quorum, "QUORUM_NOT_REACHED");
    var _ :- Assert(proposal.forVotes > proposal.againstVotes, "PROPOSAL_DEFEATED");
    Ok(g.(proposals := g.proposals[id := proposal.(executed := true)]))
  }

  function CancelProposal(g: GovStore, caller: Address, id: ProposalId, now: nat): Outcome<GovStore> {
    var proposal := ProposalAt(g, id);
    var _ :- Assert(caller == proposal.proposer, "UNAUTHORIZED");
    var _ :- Assert(!proposal.executed && !proposal.canceled, "INVALID_PROPOSAL_STATE");
    var _ :- Assert(now <= proposal.endTime, "VOTING_ENDED");
    Ok(g.(proposals := g.proposals[id := proposal.(canceled := true)]))
  }

  // ----------------------------------------------------- the whole protocol

  datatype Chain = Chain(gov: GovStore, rewards: RewardStore)

  /** A claim that waits for the token to return. */
  datatype Claim = Claim(user: Address, amount: nat)

  datatype System = System(chain: Chain, claims: seq<Claim>, base: Chain, now: nat)

  /** `balance` is what the voting token answers to `balance_of(caller)`. */
  datatype Action =
    | DoPropose(caller: Address, balance: u256, description: nat)
    | DoVote(caller: Address, id: ProposalId, support: bool, balance: u256)
    | DoExecute(caller: Address, id: ProposalId)
    | DoCancel(caller: Address, id: ProposalId)
    | DoAuthorize(caller: Address, distributor: Address, on: bool)
    | DoDistribute(caller: Address, user: Address, amount: u256)
    | BeginClaim(caller: Address)
    | ClaimReturns
    | Fail
    | NextBlock(elapsed: nat)

  /** The Governance contract itself calls nothing but `distribute_reward`, and that from its own functions. */
  predicate Legal(cfg: Config, a: Action) {
    match a
    case ClaimReturns | Fail | NextBlock(_) => true
    case _ => a.caller != cfg.governance
  }

  predicate AllLegal(cfg: Config, actions: seq<Action>) {
    forall i :: 0 <= i < |actions| ==> Legal(cfg, actions[i])
  }

  /** The freshly deployed contracts: whoever RewardDistributor obeys may distribute. */
  function Deployed(cfg: Config): Chain {
    Chain(GovStore(map[], map[], 0), RewardStore(map[], 0, map[cfg.rewardAdmin := true], [], []))
  }

  function Genesis(cfg: Config, now: nat): System {
    System(Deployed(cfg), [], Deployed(cfg), now)
  }

  function Effect(cfg: Config, s: System, a: Action): Outcome<System> {
    var c := s.chain;
    match a
    case DoPropose(caller, balance, description) =>
      var (g, r) :- Propose(cfg, c.gov, c.rewards, caller, balance, description, s.now);
      Ok(s.(chain := Chain(g, r)))
    case DoVote(caller, id, support, balance) =>
      var (g, r) :- CastVote(cfg, c.gov, c.rewards, caller, id, support, balance, s.now);
      Ok(s.(chain := Chain(g, r)))
    case DoExecute(_, id) =>
      var g :- ExecuteProposal(cfg, c.gov, id, s.now);
      Ok(s.(chain := c.(gov := g)))
    case DoCancel(caller, id) =>
      var g :- CancelProposal(c.gov, caller, id, s.now);
      Ok(s.(chain := c.(gov := g)))
    case DoAuthorize(caller, distributor, on) =>
      var r :- SetAuthorized(cfg, c.rewards, caller, distributor, on);
      Ok(s.(chain := c.(rewards := r)))
    case DoDistribute(caller, user, amount) =>
      var r :- DistributeReward(c.rewards, caller, user, amount);
      Ok(s.(chain := c.(rewards := r)))
    case BeginClaim(caller) =>
      var (r, amount) :- ClaimDebit(c.rewards, caller);
      Ok(s.(chain := c.(rewards := r), claims := s.claims + [Claim(caller, amount)]))
    case ClaimReturns =>
      if s.claims == [] then Ok(s)
      else
        var claim := s.claims[|s.claims| - 1];
        Ok(s.(chain := c.(rewards := ClaimPaid(c.rewards, claim.user, claim.amount)),
              claims := s.claims[..|s.claims| - 1]))
    case Fail => Revert("the running call fails")
    case NextBlock(elapsed) =>
      if s.claims == [] then Ok(s.(base := c, now := s.now + elapsed)) else Ok(s)
  }

  /** The actions that distribute a reward when they succeed: to whom, how much, and from which distributor. */
  predicate Rewarding(a: Action) {
    a.DoPropose? || a.DoVote? || a.DoDistribute?
  }

  function Rewarded(a: Action): Address {
    match a
    case DoPropose(caller, _, _) => caller
    case DoVote(caller, _, _, _) => caller
    case DoDistribute(_, user, _) => user
    case _ => ZERO
  }

  function RewardAmount(a: Action): nat {
    match a
    case DoPropose(_, _, _) => PROPOSAL_REWARD
    case DoVote(_, _, _, _) => VOTE_REWARD
    case DoDistribute(_, _, amount) => amount
    case _ => 0
  }

  function Distributor(cfg: Config, a: Action): Address {
    match a
    case DoDistribute(caller, _, _) => caller
    case _ => cfg.governance
  }

  /** Such an action does to the rewards exactly what one `distribute_reward` does. */
  lemma RewardingIsDistribution(cfg: Config, s: System, a: Action)
    requires Rewarding(a)
    ensures var e := Effect(cfg, s, a);
      e.Ok? ==>
        && e.value.claims == s.claims && e.value.base == s.base && e.value.now == s.now
        && DistributeReward(s.chain.rewards, Distributor(cfg, a), Rewarded(a), RewardAmount(a))
           == Ok(e.value.chain.rewards)
  {
    match a
    case DoPropose(_, _, _) =>
    case DoVote(_, _, _, _) =>
    case DoDistribute(_, _, _) =>
  }

  function Step(cfg: Config, s: System, a: Action): System {
    match Effect(cfg, s, a)
    case Ok(s') => s'
    case Revert(_) => System(s.base, [], s.base, s.now)
  }

  function Run(cfg: Config, s: System, actions: seq<Action>): System
    decreases |actions|
  {
    if actions == [] then s else Run(cfg, Step(cfg, s, actions[0]), actions[1..])
  }

  lemma RunOfFive(cfg: Config, s: System, a: Action, b: Action, c: Action, d: Action, e: Action)
    ensures Run(cfg, s, [a, b, c, d, e]) == Step(cfg, Step(cfg, Step(cfg, Step(cfg, Step(cfg, s, a), b), c), d), e)
  {
    var s1 := Step(cfg, s, a);
    var s2 := Step(cfg, s1, b);
    var s3 := Step(cfg, s2, c);
    var s4 := Step(cfg, s3, d);
    assert [a, b, c, d, e][1..] == [b, c, d, e] && [b, c, d, e][1..] == [c, d, e] && [c, d, e][1..] == [d, e];
    assert [d, e][1..] == [e] && [e][1..] == [];
    assert Run(cfg, s4, [e]) == Step(cfg, s4, e);
    assert Run(cfg, s3, [d, e]) == Run(cfg, s4, [e]);
    assert Run(cfg, s2, [c, d, e]) == Run(cfg, s3, [d, e]);
    assert Run(cfg, s1, [b, c, d, e]) == Run(cfg, s2, [c, d, e]);
  }
}
