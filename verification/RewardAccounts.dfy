/**
 Conservation of rewards: what was distributed is what is pending plus what was claimed, and
 what Governance distributed is fixed by the proposals and votes on record.
 */
module RewardAccounts {
  import opened Base
  import opened Sums
  import opened GovernanceProtocol
  import opened GovernanceSafety

  function ClaimedIn(events: seq<RewardEvent>): nat {
    if events == [] then 0
    else
      var e := events[|events| - 1];
      ClaimedIn(events[..|events| - 1]) + if e.RewardClaimed? then e.amount else 0
  }

  function OpenClaims(claims: seq<Claim>): nat {
    if claims == [] then 0 else OpenClaims(claims[..|claims| - 1]) + claims[|claims| - 1].amount
  }

  /** What one distributor granted in all. */
  function GrantedBy(grants: seq<Grant>, giver: Address): nat {
    if grants == [] then 0
    else
      var g := grants[|grants| - 1];
      GrantedBy(grants[..|grants| - 1], giver) + if g.giver == giver then g.amount else 0
  }

  /** What one distributor granted to one user. */
  function GrantedTo(grants: seq<Grant>, giver: Address, user: Address): nat {
    if grants == [] then 0
    else
      var g := grants[|grants| - 1];
      GrantedTo(grants[..|grants| - 1], giver, user) + if g.giver == giver && g.user == user then g.amount else 0
  }

  /** How many of the first n proposals are the user's. */
  function ProposedBy(g: GovStore, user: Address, n: nat): nat {
    if n == 0 then 0 else ProposedBy(g, user, n - 1) + if ProposalAt(g, n - 1).proposer == user then 1 else 0
  }

  function VotesBy(g: GovStore, user: Address): set<(ProposalId, Address)> {
    set k | k in g.votes && k.1 == user
  }

  /** Distributed == pending + claimed, where a claim counts from the moment it is debited. */
  ghost predicate Conserved(c: Chain, claims: seq<Claim>) {
    c.rewards.totalDistributed == Sum(c.rewards.rewards) + ClaimedIn(c.rewards.events) + OpenClaims(claims)
  }

  /** What Governance owes for so many proposals and votes. */
  function Due(proposals: nat, votes: nat): nat {
    PROPOSAL_REWARD * proposals + VOTE_REWARD * votes
  }

  ghost predicate GovernancePays(cfg: Config, c: Chain) {
    && GrantedBy(c.rewards.grants, cfg.governance)
       == Due(c.gov.proposalCount, |c.gov.votes|)
    && forall u: Address {:trigger GrantedTo(c.rewards.grants, cfg.governance, u)} ::
         GrantedTo(c.rewards.grants, cfg.governance, u)
         == Due(ProposedBy(c.gov, u, c.gov.proposalCount), |VotesBy(c.gov, u)|)
  }

  ghost predicate Accounts(cfg: Config, s: System) {
    && Good(cfg, s)
    && Conserved(s.chain, s.claims) && Conserved(s.base, [])
    && GovernancePays(cfg, s.chain) && GovernancePays(cfg, s.base)
  }

  // ------------------------------------------------------------- conservation

  lemma DistributionConserves(r: RewardStore, caller: Address, user: Address, amount: nat)
    ensures var v := DistributeReward(r, caller, user, amount);
      v.Ok? ==>
        && Sum(v.value.rewards) == Sum(r.rewards) + amount
        && v.value.totalDistributed == r.totalDistributed + amount
        && ClaimedIn(v.value.events) == ClaimedIn(r.events)
  {
    var v := DistributeReward(r, caller, user, amount);
    if v.Ok? {
      SumPut(r.rewards, user, Get(r.rewards, user) + amount);
      assert v.value.events[..|r.events|] == r.events;
    }
  }

  lemma StepConserves(cfg: Config, s: System, a: Action)
    requires Conserved(s.chain, s.claims) && Conserved(s.base, [])
    ensures Conserved(Step(cfg, s, a).chain, Step(cfg, s, a).claims) && Conserved(Step(cfg, s, a).base, [])
  {
    var r := s.chain.rewards;
    if Rewarding(a) {
      RewardingIsDistribution(cfg, s, a);
      DistributionConserves(r, Distributor(cfg, a), Rewarded(a), RewardAmount(a));
      return;
    }
    match a
    case BeginClaim(caller) =>
      SumPut(r.rewards, caller, 0);
      var s' := Step(cfg, s, a);
      if Effect(cfg, s, a).Ok? { assert s'.claims[..|s.claims|] == s.claims; }
    case ClaimReturns =>
      if s.claims != [] {
        assert Step(cfg, s, a).chain.rewards.events[..|r.events|] == r.events;
      }
    case _ =>
  }

  /** A distribution is accepted exactly from an authorised distributor and while the numbers fit; the user's pending
      reward, the sum of all and the distributed total rise by the amount, nobody else's changes, no claim is
      touched. */
  lemma DistributionAcceptedIff(cfg: Config, s: System, caller: Address, user: Address, amount: u256)
    ensures var w, r := s.chain.rewards, Effect(cfg, s, DoDistribute(caller, user, amount));
      && (r.Ok? <==>
            && IsAuthorized(w, caller)
            && Get(w.rewards, user) + amount <= U256_MAX && w.totalDistributed + amount <= U256_MAX)
      && (r.Ok? ==>
            && Get(r.value.chain.rewards.rewards, user) == Get(w.rewards, user) + amount
            && (forall u: Address :: u != user ==> Get(r.value.chain.rewards.rewards, u) == Get(w.rewards, u))
            && Sum(r.value.chain.rewards.rewards) == Sum(w.rewards) + amount
            && r.value.chain.rewards.totalDistributed == w.totalDistributed + amount
            && r.value.claims == s.claims && r.value.chain.gov == s.chain.gov)
  {
    DistributionConserves(s.chain.rewards, caller, user, amount);
  }

  /** A claim is accepted exactly while something is pending. With a token that pays and calls nobody back it moves
      the whole pending reward of the caller, and of nobody else, to what was claimed. */
  lemma ClaimPaysEverything(cfg: Config, s: System, caller: Address)
    ensures var w, s' := s.chain.rewards, Run(cfg, s, [BeginClaim(caller), ClaimReturns]);
      var pending := Get(w.rewards, caller);
      && (Effect(cfg, s, BeginClaim(caller)).Ok? <==> pending > 0)
      && (pending > 0 ==>
            && Get(s'.chain.rewards.rewards, caller) == 0
            && (forall u: Address :: u != caller ==> Get(s'.chain.rewards.rewards, u) == Get(w.rewards, u))
            && ClaimedIn(s'.chain.rewards.events) == ClaimedIn(w.events) + pending
            && s'.chain.rewards.totalDistributed == w.totalDistributed && s'.claims == s.claims)
  {
    var pending := Get(s.chain.rewards.rewards, caller);
    assert [BeginClaim(caller), ClaimReturns][1..] == [ClaimReturns] && [ClaimReturns][1..] == [];
    var s1 := Step(cfg, s, BeginClaim(caller));
    assert Run(cfg, s1, [ClaimReturns]) == Step(cfg, s1, ClaimReturns);
    if pending > 0 {
      assert s1.claims == s.claims + [Claim(caller, pending)] && s1.claims[..|s.claims|] == s.claims;
      var events := Step(cfg, s1, ClaimReturns).chain.rewards.events;
      assert events == s.chain.rewards.events + [RewardClaimed(caller, pending)];
      assert events[..|s.chain.rewards.events|] == s.chain.rewards.events;
    }
  }

  // --------------------------------------------- what Governance has to pay for

  lemma GrantAppend(grants: seq<Grant>, g: Grant, giver: Address, user: Address)
    ensures GrantedBy(grants + [g], giver) == GrantedBy(grants, giver) + if g.giver == giver then g.amount else 0
    ensures GrantedTo(grants + [g], giver, user)
         == GrantedTo(grants, giver, user) + if g.giver == giver && g.user == user then g.amount else 0
  {
    assert (grants + [g])[..|grants|] == grants;
  }

  lemma {:induction false} ProposersKept(g: GovStore, g': GovStore, user: Address, n: nat)
    requires forall id: ProposalId :: id < n ==> ProposalAt(g', id).proposer == ProposalAt(g, id).proposer
    ensures ProposedBy(g', user, n) == ProposedBy(g, user, n)
  {
    if n > 0 { ProposersKept(g, g', user, n - 1); }
  }

  /** One more proposal by `u`, one more grant to `u`. */
  lemma NewProposalPays(cfg: Config, c: Chain, c': Chain, u: Address)
    requires GovernancePays(cfg, c)
    requires c'.gov.votes == c.gov.votes && c'.gov.proposalCount == c.gov.proposalCount + 1
    requires forall q: ProposalId :: q < c.gov.proposalCount ==>
      ProposalAt(c'.gov, q).proposer == ProposalAt(c.gov, q).proposer
    requires ProposalAt(c'.gov, c.gov.proposalCount).proposer == u
    requires c'.rewards.grants == c.rewards.grants + [Grant(cfg.governance, u, PROPOSAL_REWARD)]
    ensures GovernancePays(cfg, c')
  {
    var g, g', n := c.gov, c'.gov, c.gov.proposalCount;
    var grant := Grant(cfg.governance, u, PROPOSAL_REWARD);
    GrantAppend(c.rewards.grants, grant, cfg.governance, u);
    forall x: Address
      ensures GrantedTo(c'.rewards.grants, cfg.governance, x) == Due(ProposedBy(g', x, n + 1), |VotesBy(g', x)|)
    {
      GrantAppend(c.rewards.grants, grant, cfg.governance, x);
      ProposersKept(g, g', x, n);
      assert ProposedBy(g', x, n + 1) == ProposedBy(g, x, n) + if x == u then 1 else 0;
      assert VotesBy(g', x) == VotesBy(g, x);
      assert GrantedTo(c.rewards.grants, cfg.governance, x) == Due(ProposedBy(g, x, n), |VotesBy(g, x)|);
    }
  }

  lemma ProposePays(cfg: Config, g: GovStore, r: RewardStore, caller: Address, balance: nat, description: nat, now: nat)
    requires GovernancePays(cfg, Chain(g, r))
    ensures var v := Propose(cfg, g, r, caller, balance, description, now);
      v.Ok? ==> GovernancePays(cfg, Chain(v.value.0, v.value.1))
  {
    var v := Propose(cfg, g, r, caller, balance, description, now);
    if v.Ok? {
      NewProposalPays(cfg, Chain(g, r), Chain(v.value.0, v.value.1), caller);
    }
  }

  lemma OneMoreEntry<K, V>(m: map<K, V>, k: K, v: V)
    requires k !in m
    ensures |m[k := v]| == |m| + 1
  {
    assert m[k := v].Keys == m.Keys + {k};
  }

  lemma NewVoteIsOneMore(g: GovStore, g': GovStore, id: ProposalId, u: Address, v: Vote, x: Address)
    requires (id, u) !in g.votes && g'.votes == g.votes[(id, u) := v]
    ensures |VotesBy(g', x)| == |VotesBy(g, x)| + if x == u then 1 else 0
  {
    if x == u {
      assert VotesBy(g', x) == VotesBy(g, x) + {(id, u)};
    } else {
      assert VotesBy(g', x) == VotesBy(g, x);
    }
  }

  /** One more vote by `u`, one more grant to `u`. */
  lemma NewVotePays(cfg: Config, c: Chain, c': Chain, id: ProposalId, u: Address, v: Vote)
    requires GovernancePays(cfg, c)
    requires (id, u) !in c.gov.votes && c'.gov.votes == c.gov.votes[(id, u) := v]
    requires c'.gov.proposalCount == c.gov.proposalCount
    requires forall q: ProposalId :: ProposalAt(c'.gov, q).proposer == ProposalAt(c.gov, q).proposer
    requires c'.rewards.grants == c.rewards.grants + [Grant(cfg.governance, u, VOTE_REWARD)]
    ensures GovernancePays(cfg, c')
  {
    var g, g', n := c.gov, c'.gov, c.gov.proposalCount;
    var grant := Grant(cfg.governance, u, VOTE_REWARD);
    GrantAppend(c.rewards.grants, grant, cfg.governance, u);
    OneMoreEntry(g.votes, (id, u), v);
    forall x: Address
      ensures GrantedTo(c'.rewards.grants, cfg.governance, x) == Due(ProposedBy(g', x, n), |VotesBy(g', x)|)
    {
      GrantAppend(c.rewards.grants, grant, cfg.governance, x);
      ProposersKept(g, g', x, n);
      NewVoteIsOneMore(g, g', id, u, v, x);
      assert GrantedTo(c.rewards.grants, cfg.governance, x) == Due(ProposedBy(g, x, n), |VotesBy(g, x)|);
    }
  }

  lemma VotePays(cfg: Config, g: GovStore, r: RewardStore, caller: Address, id: ProposalId, support: bool, balance: nat,
                 now: nat)
    requires Dense(g) && Tallied(g) && now > 0 && GovernancePays(cfg, Chain(g, r))
    ensures var v := CastVote(cfg, g, r, caller, id, support, balance, now);
      v.Ok? ==> GovernancePays(cfg, Chain(v.value.0, v.value.1))
  {
    var v := CastVote(cfg, g, r, caller, id, support, balance, now);
    if v.Ok? {
      VoteIsNew(cfg, g, r, caller, id, support, balance, now);
      NewVotePays(cfg, Chain(g, r), Chain(v.value.0, v.value.1), id, caller, Vote(support, balance));
    }
  }

  /** Flags and other distributors' grants change nothing that Governance pays for. */
  lemma OthersPayNothing(cfg: Config, c: Chain, c': Chain)
    requires GovernancePays(cfg, c)
    requires c'.gov.votes == c.gov.votes && c'.gov.proposalCount == c.gov.proposalCount
    requires forall id: ProposalId :: ProposalAt(c'.gov, id).proposer == ProposalAt(c.gov, id).proposer
    requires c'.rewards.grants == c.rewards.grants
          || exists g: Grant :: g.giver != cfg.governance && c'.rewards.grants == c.rewards.grants + [g]
    ensures GovernancePays(cfg, c')
  {
    if c'.rewards.grants != c.rewards.grants {
      var g: Grant :| g.giver != cfg.governance && c'.rewards.grants == c.rewards.grants + [g];
      GrantAppend(c.rewards.grants, g, cfg.governance, ZERO);
      forall u: Address
        ensures GrantedTo(c'.rewards.grants, cfg.governance, u) == GrantedTo(c.rewards.grants, cfg.governance, u)
      {
        GrantAppend(c.rewards.grants, g, cfg.governance, u);
      }
    }
    forall u: Address
      ensures ProposedBy(c'.gov, u, c.gov.proposalCount) == ProposedBy(c.gov, u, c.gov.proposalCount)
      ensures VotesBy(c'.gov, u) == VotesBy(c.gov, u)
    {
      ProposersKept(c.gov, c'.gov, u, c.gov.proposalCount);
    }
  }

  lemma EffectPays(cfg: Config, s: System, a: Action)
    requires Good(cfg, s) && GovernancePays(cfg, s.chain) && Legal(cfg, a)
    ensures var r := Effect(cfg, s, a); r.Ok? ==> GovernancePays(cfg, r.value.chain)
  {
    var g, w := s.chain.gov, s.chain.rewards;
    var r := Effect(cfg, s, a);
    if r.Ok? {
      if a.DoPropose? {
        ProposePays(cfg, g, w, a.caller, a.balance, a.description, s.now);
      } else if a.DoVote? {
        VotePays(cfg, g, w, a.caller, a.id, a.support, a.balance, s.now);
      } else {
        if a.DoDistribute? {
          assert r.value.chain.rewards.grants == w.grants + [Grant(a.caller, a.user, a.amount)];
        }
        OthersPayNothing(cfg, s.chain, r.value.chain);
      }
    }
  }

  lemma StepKeepsAccounts(cfg: Config, s: System, a: Action)
    requires Accounts(cfg, s) && Legal(cfg, a)
    ensures Accounts(cfg, Step(cfg, s, a))
  {
    StepKeepsGood(cfg, s, a);
    StepConserves(cfg, s, a);
    EffectPays(cfg, s, a);
  }

  lemma {:induction false} RunKeepsAccounts(cfg: Config, s: System, actions: seq<Action>)
    requires Accounts(cfg, s) && AllLegal(cfg, actions)
    ensures Accounts(cfg, Run(cfg, s, actions))
    decreases |actions|
  {
    if actions != [] {
      StepKeepsAccounts(cfg, s, actions[0]);
      RunKeepsAccounts(cfg, Step(cfg, s, actions[0]), actions[1..]);
    }
  }

  lemma GenesisAccounts(cfg: Config, now: nat)
    requires now > 0
    ensures Accounts(cfg, Genesis(cfg, now))
  {
    GenesisIsGood(cfg, now);
  }

  /** In every reachable state the distributed total is the sum of all pending rewards plus everything claimed. */
  lemma RewardsAreConserved(cfg: Config, now: nat, actions: seq<Action>)
    requires now > 0 && AllLegal(cfg, actions)
    ensures var s := Run(cfg, Genesis(cfg, now), actions);
      s.chain.rewards.totalDistributed
      == Sum(s.chain.rewards.rewards) + ClaimedIn(s.chain.rewards.events) + OpenClaims(s.claims)
  {
    GenesisAccounts(cfg, now);
    RunKeepsAccounts(cfg, Genesis(cfg, now), actions);
  }

  /** In every reachable state Governance has granted 100000 per proposal and 10000 per recorded vote, in all and
      to every single user, whatever claims, distributors and authorisation changes came between. */
  lemma GovernanceGrantsAreFixed(cfg: Config, now: nat, actions: seq<Action>, user: Address)
    requires now > 0 && AllLegal(cfg, actions)
    ensures var c := Run(cfg, Genesis(cfg, now), actions).chain;
      && GrantedBy(c.rewards.grants, cfg.governance) == 100_000 * c.gov.proposalCount + 10_000 * |c.gov.votes|
      && GrantedTo(c.rewards.grants, cfg.governance, user)
         == 100_000 * ProposedBy(c.gov, user, c.gov.proposalCount) + 10_000 * |VotesBy(c.gov, user)|
  {
    GenesisAccounts(cfg, now);
    RunKeepsAccounts(cfg, Genesis(cfg, now), actions);
  }

  // ------------------------------------------------------------ authorisation

  /** Never authorised: the address may not distribute, and has not. */
  ghost predicate NeverGave(c: Chain, d: Address) {
    !IsAuthorized(c.rewards, d) && GrantedBy(c.rewards.grants, d) == 0
  }

  lemma EffectKeepsUnauthorized(cfg: Config, s: System, a: Action, d: Address)
    requires NeverGave(s.chain, d) && a != DoAuthorize(cfg.rewardAdmin, d, true)
    ensures var r := Effect(cfg, s, a); r.Ok? ==> NeverGave(r.value.chain, d)
  {
    if Rewarding(a) {
      RewardingIsDistribution(cfg, s, a);
      GrantAppend(s.chain.rewards.grants, Grant(Distributor(cfg, a), Rewarded(a), RewardAmount(a)), d, ZERO);
    }
  }

  lemma {:induction false} RunKeepsUnauthorized(cfg: Config, s: System, actions: seq<Action>, d: Address)
    requires NeverGave(s.chain, d) && NeverGave(s.base, d)
    requires forall i :: 0 <= i < |actions| ==> actions[i] != DoAuthorize(cfg.rewardAdmin, d, true)
    ensures NeverGave(Run(cfg, s, actions).chain, d) && NeverGave(Run(cfg, s, actions).base, d)
    decreases |actions|
  {
    if actions != [] {
      EffectKeepsUnauthorized(cfg, s, actions[0], d);
      RunKeepsUnauthorized(cfg, Step(cfg, s, actions[0]), actions[1..], d);
    }
  }

  /** On no run does an address that the administrator never authorised distribute anything. In particular, Governance
      accepts neither proposals nor votes before it is authorised. */
  lemma OnlyAuthorizedGive(cfg: Config, now: nat, actions: seq<Action>, d: Address)
    requires now > 0 && AllLegal(cfg, actions) && d != cfg.rewardAdmin
    requires forall i :: 0 <= i < |actions| ==> actions[i] != DoAuthorize(cfg.rewardAdmin, d, true)
    ensures var c := Run(cfg, Genesis(cfg, now), actions).chain;
      && !IsAuthorized(c.rewards, d) && GrantedBy(c.rewards.grants, d) == 0
      && (d == cfg.governance ==> c.gov.proposalCount == 0 && c.gov.votes == map[])
  {
    RunKeepsUnauthorized(cfg, Genesis(cfg, now), actions, d);
    GovernanceGrantsAreFixed(cfg, now, actions, d);
  }
}
