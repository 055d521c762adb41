/**
 Governance and RewardDistributor as objects whose methods update their storage step by step,
 and the transaction that rolls both back on a revert, proved against GovernanceProtocol.
 */
module GovernanceContracts {
  import opened Base
  import opened Sums
  import P = GovernanceProtocol

  class RewardDistributor {
    const governance: Address
    var rewards: map<Address, nat>
    var totalDistributed: nat
    var authorizedDistributors: map<Address, bool>
    var events: seq<P.RewardEvent>
    var grants: seq<P.Grant>

    constructor (governanceAddress: Address)
      ensures governance == governanceAddress
      ensures Store() == P.RewardStore(map[], 0, map[governanceAddress := true], [], [])
    {
      governance := governanceAddress;
      rewards, totalDistributed, authorizedDistributors := map[], 0, map[governanceAddress := true];
      events, grants := [], [];
    }

    function Store(): P.RewardStore
      reads this
    {
      P.RewardStore(rewards, totalDistributed, authorizedDistributors, events, grants)
    }

    method AuthorizeDistributor(ghost cfg: P.Config, caller: Address, distributor: Address) returns (r: Status)
      requires cfg.rewardAdmin == governance
      modifies this
      ensures Follows(P.SetAuthorized(cfg, old(Store()), caller, distributor, true), r, Store())
    {
      if caller != governance { return Revert("UNAUTHORIZED"); }
      authorizedDistributors := authorizedDistributors[distributor := true];
      return Ok(());
    }

    method RevokeDistributor(ghost cfg: P.Config, caller: Address, distributor: Address) returns (r: Status)
      requires cfg.rewardAdmin == governance
      modifies this
      ensures Follows(P.SetAuthorized(cfg, old(Store()), caller, distributor, false), r, Store())
    {
      if caller != governance { return Revert("UNAUTHORIZED"); }
      authorizedDistributors := authorizedDistributors[distributor := false];
      return Ok(());
    }

    method DistributeReward(caller: Address, user: Address, amount: nat) returns (r: Status)
      modifies this
      ensures Follows(P.DistributeReward(old(Store()), caller, user, amount), r, Store())
    {
      if !(caller in authorizedDistributors && authorizedDistributors[caller]) { return Revert("UNAUTHORIZED"); }
      var currentReward := Get(rewards, user);
      if currentReward + amount > U256_MAX { return Revert("u256_add Overflow"); }
      rewards := rewards[user := currentReward + amount];
      var total := totalDistributed;
      if total + amount > U256_MAX { return Revert("u256_add Overflow"); }
      totalDistributed := total + amount;
      events := events + [P.RewardDistributed(user, amount)];
      grants := grants + [P.Grant(caller, user, amount)];
      return Ok(());
    }

    /** `claim_rewards` up to the call of the token: the amount to pay out. */
    method OpenClaim(caller: Address) returns (r: Outcome<nat>)
      modifies this
      ensures match P.ClaimDebit(old(Store()), caller)
              case Ok((store, amount)) => r == Ok(amount) && Store() == store
              case Revert(reason) => r == Revert(reason)
    {
      var amount := Get(rewards, caller);
      if amount == 0 { return Revert("NO_REWARDS"); }
      rewards := rewards[caller := 0];
      return Ok(amount);
    }

    /** `claim_rewards` from the return of the token on, in whatever storage the token left behind. */
    method FinishClaim(caller: Address, amount: nat)
      modifies this
      ensures Store() == P.ClaimPaid(old(Store()), caller, amount)
    {
      events := events + [P.RewardClaimed(caller, amount)];
    }

    /** `paid` is whether the token contract carries out the transfer; it calls nobody back here. */
    method ClaimRewards(caller: Address, paid: bool) returns (r: Status)
      modifies this
      ensures Follows(WholeClaim(old(Store()), caller, paid), r, Store())
    {
      var claimed := OpenClaim(caller);
      if claimed.Revert? { return Revert(claimed.reason); }
      if !paid { return Revert("the running call fails"); }
      FinishClaim(caller, claimed.value);
      return Ok(());
    }
  }

  /** `claim_rewards` with a token that calls nobody back. */
  function WholeClaim(r: P.RewardStore, caller: Address, paid: bool): Outcome<P.RewardStore> {
    var (debited, amount) :- P.ClaimDebit(r, caller);
    var _ :- Assert(paid, "the running call fails");
    Ok(P.ClaimPaid(debited, caller, amount))
  }

  class Governance {
    const address: Address
    const quorum: nat
    const votingPeriod: nat
    var proposals: map<P.ProposalId, P.Proposal>
    var votes: map<(P.ProposalId, Address), P.Vote>
    var proposalCount: nat

    constructor (address: Address, initialQuorum: nat, initialVotingPeriod: nat)
      ensures this.address == address && quorum == initialQuorum && votingPeriod == initialVotingPeriod
      ensures Store() == P.GovStore(map[], map[], 0)
    {
      this.address, quorum, votingPeriod := address, initialQuorum, initialVotingPeriod;
      proposals, votes, proposalCount := map[], map[], 0;
    }

    function Store(): P.GovStore
      reads this
    {
      P.GovStore(proposals, votes, proposalCount)
    }

    predicate Obeys(cfg: P.Config) {
      cfg.governance == address && cfg.quorum == quorum && cfg.votingPeriod == votingPeriod
    }

    method Propose(ghost cfg: P.Config, distributor: RewardDistributor, caller: Address, balance: nat, description: nat,
                   now: nat)
      returns (r: Status)
      requires Obeys(cfg)
      modifies this, distributor
      ensures Follows(P.Propose(cfg, old(Store()), old(distributor.Store()), caller, balance, description, now),
                      r, (Store(), distributor.Store()))
    {
      if balance == 0 { return Revert("INSUFFICIENT_BALANCE"); }
      var proposalId := proposalCount;
      if now + votingPeriod > U64_MAX { return Revert("u64_add Overflow"); }
      var endTime := now + votingPeriod;
      var proposal := P.Proposal(proposalId, caller, description, now, endTime, 0, 0, false, false);
      proposals := proposals[proposalId := proposal];
      if proposalId + 1 > U256_MAX { return Revert("u256_add Overflow"); }
      proposalCount := proposalId + 1;
      r := distributor.DistributeReward(address, caller, 100_000);
    }

    method CastVote(ghost cfg: P.Config, distributor: RewardDistributor, caller: Address, id: P.ProposalId,
                    support: bool, balance: nat, now: nat)
      returns (r: Status)
      requires Obeys(cfg)
      modifies this, distributor
      ensures Follows(P.CastVote(cfg, old(Store()), old(distributor.Store()), caller, id, support, balance, now),
                      r, (Store(), distributor.Store()))
    {
      var proposal := if id in proposals then proposals[id] else P.NO_PROPOSAL;
      if proposal.executed || proposal.canceled { return Revert("INVALID_PROPOSAL_STATE"); }
      if now < proposal.startTime || now > proposal.endTime { return Revert("INVALID_VOTING_TIME"); }
      if balance == 0 { return Revert("NO_VOTING_POWER"); }
      var previousVote := if (id, caller) in votes then votes[(id, caller)] else P.NO_VOTE;
      if previousVote.votes != 0 { return Revert("ALREADY_VOTED"); }
      votes := votes[(id, caller) := P.Vote(support, balance)];
      if support {
        if proposal.forVotes + balance > U256_MAX { return Revert("u256_add Overflow"); }
        proposal := proposal.(forVotes := proposal.forVotes + balance);
      } else {
        if proposal.againstVotes + balance > U256_MAX { return Revert("u256_add Overflow"); }
        proposal := proposal.(againstVotes := proposal.againstVotes + balance);
      }
      proposals := proposals[id := proposal];
      r := distributor.DistributeReward(address, caller, 10_000);
    }

    method ExecuteProposal(ghost cfg: P.Config, id: P.ProposalId, now: nat) returns (r: Status)
      requires Obeys(cfg)
      modifies this
      ensures Follows(P.ExecuteProposal(cfg, old(Store()), id, now), r, Store())
    {
      var proposal := if id in proposals then proposals[id] else P.NO_PROPOSAL;
      if proposal.executed || proposal.canceled { return Revert("INVALID_PROPOSAL_STATE"); }
      if now <= proposal.endTime { return Revert("VOTING_NOT_ENDED"); }
      if proposal.forVotes + proposal.againstVotes > U256_MAX { return Revert("u256_add Overflow"); }
      var totalVotes := proposal.forVotes + proposal.againstVotes;
      if totalVotes < quorum { return Revert("QUORUM_NOT_REACHED"); }
      if proposal.forVotes <= proposal.againstVotes { return Revert("PROPOSAL_DEFEATED"); }
      proposal := proposal.(executed := true);
      proposals := proposals[id := proposal];
      return Ok(());
    }

    method CancelProposal(caller: Address, id: P.ProposalId, now: nat) returns (r: Status)
      modifies this
      ensures Follows(P.CancelProposal(old(Store()), caller, id, now), r, Store())
    {
      var proposal := if id in proposals then proposals[id] else P.NO_PROPOSAL;
      if caller != proposal.proposer { return Revert("UNAUTHORIZED"); }
      if proposal.executed || proposal.canceled { return Revert("INVALID_PROPOSAL_STATE"); }
      if now > proposal.endTime { return Revert("VOTING_ENDED"); }
      proposal := proposal.(canceled := true);
      proposals := proposals[id := proposal];
      return Ok(());
    }
  }

  // ------------------------------------------------------------ transactions

  predicate EntryCall(a: P.Action) {
    !(a.ClaimReturns? || a.Fail? || a.NextBlock?)
  }

  function Script(a: P.Action, paid: bool): seq<P.Action> {
    if a.BeginClaim? then [a, if paid then P.ClaimReturns else P.Fail] else [a]
  }

  class GovernanceProtocol {
    const gov: Governance
    const distributor: RewardDistributor
    var claims: seq<P.Claim>
    var base: P.Chain
    var now: nat

    /** Between two transactions at the given time. */
    constructor (gov: Governance, distributor: RewardDistributor, time: nat)
      ensures this.gov == gov && this.distributor == distributor
      ensures System() == P.System(Chain(), [], Chain(), time)
    {
      this.gov, this.distributor := gov, distributor;
      claims, now := [], time;
      base := P.Chain(gov.Store(), distributor.Store());
    }

    ghost function Config(): P.Config {
      P.Config(gov.address, gov.quorum, gov.votingPeriod, distributor.governance)
    }

    function Chain(): P.Chain
      reads gov, distributor
    {
      P.Chain(gov.Store(), distributor.Store())
    }

    ghost function System(): P.System
      reads this, gov, distributor
    {
      P.System(Chain(), claims, base, now)
    }

    /** A transaction on the objects does what the steps it stands for do in the transition system,
        whether it goes through or is undone. */
    method Execute(a: P.Action, paid: bool, now: nat) returns (r: Status)
      requires EntryCall(a)
      modifies gov, distributor
      ensures Chain() == P.Run(Config(), P.System(old(Chain()), [], old(Chain()), now), Script(a, paid)).chain
      ensures r.Ok? <==> Called(Config(), old(Chain()), a, paid, now).Ok?
      ensures r.Revert? ==> Chain() == old(Chain())
    {
      var proposals, votes, proposalCount := gov.proposals, gov.votes, gov.proposalCount;
      var rewards, total, authorized, events :=
        distributor.rewards, distributor.totalDistributed, distributor.authorizedDistributors, distributor.events;
      var grants := distributor.grants;
      ghost var cfg := Config();
      match a {
        case DoPropose(caller, balance, description) =>
          r := gov.Propose(cfg, distributor, caller, balance, description, now);
        case DoVote(caller, id, support, balance) =>
          r := gov.CastVote(cfg, distributor, caller, id, support, balance, now);
        case DoExecute(_, id) => r := gov.ExecuteProposal(cfg, id, now);
        case DoCancel(caller, id) => r := gov.CancelProposal(caller, id, now);
        case DoAuthorize(caller, d, on) =>
          if on {
            r := distributor.AuthorizeDistributor(cfg, caller, d);
          } else {
            r := distributor.RevokeDistributor(cfg, caller, d);
          }
        case DoDistribute(caller, user, amount) => r := distributor.DistributeReward(caller, user, amount);
        case BeginClaim(caller) => r := distributor.ClaimRewards(caller, paid);
      }
      ghost var called := Called(cfg, old(Chain()), a, paid, now);
      assert Follows(called, r, Chain());
      if r.Revert? {
        gov.proposals, gov.votes, gov.proposalCount := proposals, votes, proposalCount;
        distributor.rewards, distributor.totalDistributed := rewards, total;
        distributor.authorizedDistributors, distributor.events, distributor.grants := authorized, events, grants;
      }
      CalledIsRun(cfg, old(Chain()), a, paid, now);
    }

    // --- the same objects under a token that calls back

    /** The entry points that call no foreign contract but the view of the voting token. */
    method EntryPoint(a: P.Action) returns (r: Status)
      requires EntryCall(a) && !a.BeginClaim?
      modifies gov, distributor
      ensures Follows(P.Effect(Config(), old(System()), a), r, System())
    {
      ghost var cfg := Config();
      match a {
        case DoPropose(caller, balance, description) =>
          r := gov.Propose(cfg, distributor, caller, balance, description, now);
        case DoVote(caller, id, support, balance) =>
          r := gov.CastVote(cfg, distributor, caller, id, support, balance, now);
        case DoExecute(_, id) => r := gov.ExecuteProposal(cfg, id, now);
        case DoCancel(caller, id) => r := gov.CancelProposal(caller, id, now);
        case DoAuthorize(caller, d, on) =>
          if on {
            r := distributor.AuthorizeDistributor(cfg, caller, d);
          } else {
            r := distributor.RevokeDistributor(cfg, caller, d);
          }
        case DoDistribute(caller, user, amount) => r := distributor.DistributeReward(caller, user, amount);
      }
    }

    method OpenClaim(caller: Address) returns (r: Status)
      modifies this, distributor
      ensures Follows(P.Effect(Config(), old(System()), P.BeginClaim(caller)), r, System())
      ensures base == old(base) && now == old(now)
    {
      var claimed := distributor.OpenClaim(caller);
      if claimed.Revert? { return Revert(claimed.reason); }
      claims := claims + [P.Claim(caller, claimed.value)];
      return Ok(());
    }

    method Surroundings(a: P.Action) returns (r: Status)
      requires !EntryCall(a)
      modifies this, distributor
      ensures Follows(P.Effect(Config(), old(System()), a), r, System())
      ensures r.Revert? ==> base == old(base) && now == old(now)
    {
      r := Ok(());
      match a {
        case ClaimReturns =>
          if claims != [] {
            var claim := claims[|claims| - 1];
            distributor.FinishClaim(claim.user, claim.amount);
            claims := claims[..|claims| - 1];
          }
        case Fail => r := Revert("the running call fails");
        case NextBlock(elapsed) =>
          if claims == [] { base, now := Chain(), now + elapsed; }
      }
    }

    /** Any step of the transition system, taken on the objects: claims whose token calls back in any nesting, and
        the undoing of the whole transaction when a step reverts. */
    method Do(a: P.Action) returns (r: Status)
      modifies this, gov, distributor
      ensures System() == P.Step(Config(), old(System()), a)
      ensures r.Ok? <==> P.Effect(Config(), old(System()), a).Ok?
    {
      if a.BeginClaim? {
        r := OpenClaim(a.caller);
      } else if EntryCall(a) {
        r := EntryPoint(a);
      } else {
        r := Surroundings(a);
      }
      if r.Revert? {
        var g, d := base.gov, base.rewards;
        gov.proposals, gov.votes, gov.proposalCount := g.proposals, g.votes, g.proposalCount;
        distributor.rewards, distributor.totalDistributed := d.rewards, d.totalDistributed;
        distributor.authorizedDistributors, distributor.events, distributor.grants := d.authorized, d.events, d.grants;
        claims := [];
      }
    }

    /** A whole run on the objects. */
    method DoAll(actions: seq<P.Action>)
      modifies this, gov, distributor
      ensures System() == P.Run(Config(), old(System()), actions)
    {
      var i := 0;
      while i < |actions|
        invariant 0 <= i <= |actions|
        invariant P.Run(Config(), System(), actions[i..]) == P.Run(Config(), old(System()), actions)
      {
        assert actions[i..][0] == actions[i] && actions[i..][1..] == actions[i + 1..];
        var _ := Do(actions[i]);
        i := i + 1;
      }
      assert actions[i..] == [];
    }
  }

  /** One entry point on the whole storage, with a token that calls nobody back. */
  ghost function Called(cfg: P.Config, c: P.Chain, a: P.Action, paid: bool, now: nat): Outcome<P.Chain>
    requires EntryCall(a)
  {
    if a.BeginClaim? then
      var r :- WholeClaim(c.rewards, a.caller, paid);
      Ok(c.(rewards := r))
    else
      var s :- P.Effect(cfg, P.System(c, [], c, now), a);
      Ok(s.chain)
  }

  lemma ClaimIsRun(cfg: P.Config, c: P.Chain, caller: Address, paid: bool, now: nat)
    ensures P.Run(cfg, P.System(c, [], c, now), Script(P.BeginClaim(caller), paid)).chain
         == match WholeClaim(c.rewards, caller, paid) case Ok(r) => c.(rewards := r) case Revert(_) => c
  {
    var s, a := P.System(c, [], c, now), P.BeginClaim(caller);
    var second := if paid then P.ClaimReturns else P.Fail;
    assert [a, second][1..] == [second] && [second][1..] == [];
    var s1 := P.Step(cfg, s, a);
    assert P.Run(cfg, s1, [second]) == P.Step(cfg, s1, second);
  }

  lemma CalledIsRun(cfg: P.Config, c: P.Chain, a: P.Action, paid: bool, now: nat)
    requires EntryCall(a)
    ensures P.Run(cfg, P.System(c, [], c, now), Script(a, paid)).chain
         == match Called(cfg, c, a, paid, now) case Ok(c') => c' case Revert(_) => c
  {
    if a.BeginClaim? {
      ClaimIsRun(cfg, c, a.caller, paid, now);
    } else {
      var s := P.System(c, [], c, now);
      assert [a][1..] == [];
      assert P.Run(cfg, s, [a]) == P.Step(cfg, s, a);
    }
  }
}
