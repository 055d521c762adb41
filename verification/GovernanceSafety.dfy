/**
 What every run of governance keeps: tallies are the recorded votes, a closed vote stays as
 it is, execution is final, and the outcome of a proposal is decided when its time is up.
 */
module GovernanceSafety {
  import opened Base
  import opened Sums
  import opened GovernanceProtocol

  // ------------------------------------------------------------ the invariant

  /** The recorded weights of one side of one proposal. */
  ghost function Side(g: GovStore, id: ProposalId, support: bool): map<(ProposalId, Address), nat> {
    map k | k in g.votes && k.0 == id && g.votes[k].support == support :: g.votes[k].votes
  }

  ghost predicate Dense(g: GovStore) {
    && (forall id: ProposalId :: id in g.proposals <==> id < g.proposalCount)
    && (forall id: ProposalId :: id < g.proposalCount ==> g.proposals[id].id == id)
  }

  ghost predicate Tallied(g: GovStore) {
    && (forall id: ProposalId :: ProposalAt(g, id).forVotes == Sum(Side(g, id, true)))
    && (forall id: ProposalId :: ProposalAt(g, id).againstVotes == Sum(Side(g, id, false)))
    && (forall k :: k in g.votes ==> k.0 < g.proposalCount && g.votes[k].votes > 0)
  }

  /** Quorum and strict majority, without leaving 256 bits. */
  predicate Passed(cfg: Config, p: Proposal) {
    && p.forVotes + p.againstVotes <= U256_MAX
    && p.forVotes + p.againstVotes >= cfg.quorum
    && p.forVotes > p.againstVotes
  }

  predicate Settled(cfg: Config, p: Proposal, now: nat) {
    && !(p.executed && p.canceled)
    && (p.executed ==> Passed(cfg, p) && p.endTime < now)
    && p.startTime <= now
    && p.endTime == p.startTime + cfg.votingPeriod
  }

  ghost predicate GovOk(cfg: Config, g: GovStore, now: nat) {
    && Dense(g)
    && Tallied(g)
    && (forall id: ProposalId :: id < g.proposalCount ==> Settled(cfg, ProposalAt(g, id), now))
  }

  ghost predicate Good(cfg: Config, s: System) {
    && s.now > 0
    && GovOk(cfg, s.chain.gov, s.now)
    && GovOk(cfg, s.base.gov, s.now)
  }

  lemma VotePut(g: GovStore, g': GovStore, id: ProposalId, u: Address, v: Vote, q: ProposalId, side: bool)
    requires g'.votes == g.votes[(id, u) := v] && (id, u) !in g.votes
    ensures Sum(Side(g', q, side)) == Sum(Side(g, q, side)) + if q == id && v.support == side then v.votes else 0
  {
    if q == id && v.support == side {
      assert Side(g', q, side) == Side(g, q, side)[(id, u) := v.votes];
      SumPut(Side(g, q, side), (id, u), v.votes);
    } else {
      assert Side(g', q, side) == Side(g, q, side);
    }
  }

  /** A counted vote keeps the tallies exact. */
  lemma CountedVoteTallies(g: GovStore, g': GovStore, id: ProposalId, u: Address, v: Vote)
    requires Dense(g) && Tallied(g) && id < g.proposalCount && (id, u) !in g.votes && v.votes > 0
    requires g'.votes == g.votes[(id, u) := v] && g'.proposalCount == g.proposalCount
    requires var p := g.proposals[id];
      g'.proposals == g.proposals[id := if v.support then p.(forVotes := p.forVotes + v.votes)
                                        else p.(againstVotes := p.againstVotes + v.votes)]
    ensures Tallied(g')
  {
    forall q: ProposalId
      ensures ProposalAt(g', q).forVotes == Sum(Side(g', q, true))
      ensures ProposalAt(g', q).againstVotes == Sum(Side(g', q, false))
    {
      VotePut(g, g', id, u, v, q, true);
      VotePut(g, g', id, u, v, q, false);
      assert ProposalAt(g, q).forVotes == Sum(Side(g, q, true));
    }
  }

  /** An accepted vote is on an existing proposal and the first of its address. */
  lemma VoteIsNew(cfg: Config, g: GovStore, r: RewardStore, caller: Address, id: ProposalId, support: bool,
                  balance: nat, now: nat)
    requires Dense(g) && Tallied(g) && now > 0
    requires CastVote(cfg, g, r, caller, id, support, balance, now).Ok?
    ensures id < g.proposalCount && (id, caller) !in g.votes
  {
  }

  lemma VoteKeeps(cfg: Config, g: GovStore, r: RewardStore, caller: Address, id: ProposalId, support: bool,
                  balance: nat, now: nat)
    requires GovOk(cfg, g, now) && now > 0
    ensures var v := CastVote(cfg, g, r, caller, id, support, balance, now);
      v.Ok? ==> GovOk(cfg, v.value.0, now) && id < g.proposalCount && (id, caller) !in g.votes
  {
    var v := CastVote(cfg, g, r, caller, id, support, balance, now);
    if v.Ok? {
      var g' := v.value.0;
      VoteIsNew(cfg, g, r, caller, id, support, balance, now);
      CountedVoteTallies(g, g', id, caller, Vote(support, balance));
      forall q: ProposalId | q < g.proposalCount ensures Settled(cfg, ProposalAt(g', q), now) {
        assert Settled(cfg, ProposalAt(g, q), now);
      }
    }
  }

  lemma ProposeKeeps(cfg: Config, g: GovStore, r: RewardStore, caller: Address, balance: nat, description: nat,
                     now: nat)
    requires GovOk(cfg, g, now)
    ensures var v := Propose(cfg, g, r, caller, balance, description, now);
      v.Ok? ==> GovOk(cfg, v.value.0, now)
  {
    var v := Propose(cfg, g, r, caller, balance, description, now);
    if v.Ok? {
      var g', n := v.value.0, g.proposalCount;
      assert forall q: ProposalId, side: bool :: Side(g', q, side) == Side(g, q, side);
      assert Side(g, n, true) == map[] && Side(g, n, false) == map[];
    }
  }

  lemma FlagKeeps(cfg: Config, g: GovStore, g': GovStore, id: ProposalId, p: Proposal, now: nat)
    requires GovOk(cfg, g, now) && id < g.proposalCount
    requires p == ProposalAt(g, id).(executed := p.executed, canceled := p.canceled) && Settled(cfg, p, now)
    requires g' == g.(proposals := g.proposals[id := p])
    ensures GovOk(cfg, g', now)
  {
    assert forall q: ProposalId, side: bool :: Side(g', q, side) == Side(g, q, side);
    forall q: ProposalId
      ensures ProposalAt(g', q).forVotes == ProposalAt(g, q).forVotes
      ensures ProposalAt(g', q).againstVotes == ProposalAt(g, q).againstVotes
    {
    }
  }

  /** Every legal step keeps ids dense, tallies exact and flags consistent. */
  lemma StepKeepsGood(cfg: Config, s: System, a: Action)
    requires Good(cfg, s)
    ensures Good(cfg, Step(cfg, s, a))
  {
    var g := s.chain.gov;
    match a
    case DoPropose(caller, balance, description) =>
      ProposeKeeps(cfg, g, s.chain.rewards, caller, balance, description, s.now);
    case DoVote(caller, id, support, balance) =>
      VoteKeeps(cfg, g, s.chain.rewards, caller, id, support, balance, s.now);
    case DoExecute(_, id) =>
      var r := ExecuteProposal(cfg, g, id, s.now);
      if r.Ok? { FlagKeeps(cfg, g, r.value, id, ProposalAt(g, id).(executed := true), s.now); }
    case DoCancel(caller, id) =>
      var r := CancelProposal(g, caller, id, s.now);
      if r.Ok? { FlagKeeps(cfg, g, r.value, id, ProposalAt(g, id).(canceled := true), s.now); }
    case NextBlock(elapsed) =>
      assert forall p: Proposal :: Settled(cfg, p, s.now) ==> Settled(cfg, p, s.now + elapsed);
    case _ =>
  }

  lemma GenesisIsGood(cfg: Config, now: nat)
    requires now > 0
    ensures Good(cfg, Genesis(cfg, now))
  {
    var g := Deployed(cfg).gov;
    assert forall q: ProposalId, side: bool :: Side(g, q, side) == map[];
  }

  lemma {:induction false} RunKeepsGood(cfg: Config, s: System, actions: seq<Action>)
    requires Good(cfg, s)
    ensures Good(cfg, Run(cfg, s, actions))
    decreases |actions|
  {
    if actions != [] {
      StepKeepsGood(cfg, s, actions[0]);
      RunKeepsGood(cfg, Step(cfg, s, actions[0]), actions[1..]);
    }
  }

  /** In every reachable state the two tallies of a proposal are the sums of the recorded votes of each side,
      one per address, and ids are dense. */
  lemma TalliesAreVotes(cfg: Config, now: nat, actions: seq<Action>, id: ProposalId)
    requires now > 0
    ensures var g := Run(cfg, Genesis(cfg, now), actions).chain.gov;
      && ProposalAt(g, id).forVotes == Sum(Side(g, id, true))
      && ProposalAt(g, id).againstVotes == Sum(Side(g, id, false))
      && (id in g.proposals <==> id < g.proposalCount)
      && (id < g.proposalCount ==> g.proposals[id].id == id)
  {
    GenesisIsGood(cfg, now);
    RunKeepsGood(cfg, Genesis(cfg, now), actions);
  }

  // ------------------------------------------------------ acceptance, exactly

  /** A vote counts exactly from an address with voting power that has not voted, on a proposal that is open,
      as long as the numbers fit and Governance may still distribute the reward. */
  lemma VoteAcceptedIff(cfg: Config, s: System, caller: Address, id: ProposalId, support: bool, balance: u256)
    requires Good(cfg, s)
    ensures var g, r, p := s.chain.gov, s.chain.rewards, ProposalAt(s.chain.gov, id);
      Effect(cfg, s, DoVote(caller, id, support, balance)).Ok? <==>
        && id < g.proposalCount && !p.executed && !p.canceled
        && p.startTime <= s.now <= p.endTime
        && balance > 0 && (id, caller) !in g.votes
        && (if support then p.forVotes else p.againstVotes) + balance <= U256_MAX
        && IsAuthorized(r, cfg.governance)
        && Get(r.rewards, caller) + VOTE_REWARD <= U256_MAX && r.totalDistributed + VOTE_REWARD <= U256_MAX
  {
    if (id, caller) in s.chain.gov.votes {
      assert s.chain.gov.votes[(id, caller)].votes > 0;
    }
  }

  /** An accepted vote adds its weight to the recorded votes of its side, and to no other side or proposal. */
  lemma VoteMovesSum(cfg: Config, g: GovStore, r: RewardStore, caller: Address, id: ProposalId, support: bool,
                     balance: nat, now: nat, other: ProposalId, side: bool)
    requires GovOk(cfg, g, now) && now > 0 && CastVote(cfg, g, r, caller, id, support, balance, now).Ok?
    ensures var g' := CastVote(cfg, g, r, caller, id, support, balance, now).value.0;
      && Sum(Side(g', other, side))
         == Sum(Side(g, other, side)) + (if other == id && side == support then balance else 0)
         == if side then ProposalAt(g', other).forVotes else ProposalAt(g', other).againstVotes
  {
    VoteKeeps(cfg, g, r, caller, id, support, balance, now);
    var g' := CastVote(cfg, g, r, caller, id, support, balance, now).value.0;
    VotePut(g, g', id, caller, Vote(support, balance), other, side);
    assert Tallied(g');
  }

  /** What an accepted vote leaves behind: the first vote of its address on record, its weight in the sum and the tally
      of its side and nowhere else, and the reward with the voter. */
  lemma VoteIsCounted(cfg: Config, s: System, caller: Address, id: ProposalId, support: bool, balance: u256)
    requires Good(cfg, s) && Effect(cfg, s, DoVote(caller, id, support, balance)).Ok?
    ensures var g, c' := s.chain.gov, Effect(cfg, s, DoVote(caller, id, support, balance)).value.chain;
      var p, q := ProposalAt(g, id), ProposalAt(c'.gov, id);
      && (id, caller) !in g.votes && VoteOf(c'.gov, id, caller) == Vote(support, balance)
      && q.forVotes == p.forVotes + (if support then balance else 0) == Sum(Side(c'.gov, id, true))
      && q.againstVotes == p.againstVotes + (if support then 0 else balance) == Sum(Side(c'.gov, id, false))
      && (forall other: ProposalId :: other != id ==> ProposalAt(c'.gov, other) == ProposalAt(g, other))
      && (forall other: ProposalId, u: Address :: (other, u) != (id, caller) ==>
           VoteOf(c'.gov, other, u) == VoteOf(g, other, u))
      && Get(c'.rewards.rewards, caller) == Get(s.chain.rewards.rewards, caller) + 10_000
  {
    var g, r := s.chain.gov, s.chain.rewards;
    VoteIsNew(cfg, g, r, caller, id, support, balance, s.now);
    VoteMovesSum(cfg, g, r, caller, id, support, balance, s.now, id, true);
    VoteMovesSum(cfg, g, r, caller, id, support, balance, s.now, id, false);
  }

  /** A proposal is accepted exactly from a token holder, as long as the numbers fit and Governance may distribute the
      reward; it gets the next id, which no proposal and no vote has had, and is open from now on for the voting
      period. */
  lemma ProposalAcceptedIff(cfg: Config, s: System, caller: Address, balance: u256, description: nat)
    requires Good(cfg, s)
    ensures var r := Effect(cfg, s, DoPropose(caller, balance, description));
      var n, w := s.chain.gov.proposalCount, s.chain.rewards;
      && (r.Ok? <==>
            && balance > 0 && s.now + cfg.votingPeriod <= U64_MAX && n + 1 <= U256_MAX
            && IsAuthorized(w, cfg.governance)
            && Get(w.rewards, caller) + PROPOSAL_REWARD <= U256_MAX && w.totalDistributed + PROPOSAL_REWARD <= U256_MAX)
      && n !in s.chain.gov.proposals && (forall u: Address :: (n, u) !in s.chain.gov.votes)
      && (r.Ok? ==>
            && r.value.chain.gov.proposalCount == n + 1
            && ProposalAt(r.value.chain.gov, n)
               == Proposal(n, caller, description, s.now, s.now + cfg.votingPeriod, 0, 0, false, false)
            && (forall id: ProposalId :: id != n ==> ProposalAt(r.value.chain.gov, id) == ProposalAt(s.chain.gov, id))
            && Get(r.value.chain.rewards.rewards, caller) == Get(w.rewards, caller) + 100_000)
  {
  }

  /** Nothing but the two flags of one proposal is different. */
  ghost predicate OnlyFlags(g: GovStore, g': GovStore, id: ProposalId, executed: bool, canceled: bool) {
    && g'.votes == g.votes && g'.proposalCount == g.proposalCount
    && ProposalAt(g', id) == ProposalAt(g, id).(executed := executed, canceled := canceled)
    && forall other: ProposalId :: other != id ==> ProposalAt(g', other) == ProposalAt(g, other)
  }

  /** Cancellation goes through exactly for the proposer of a proposal whose time is not up and that is neither
      executed nor canceled; it is canceled then, and that is all. */
  lemma CancelAcceptedIff(cfg: Config, s: System, caller: Address, id: ProposalId)
    requires Good(cfg, s)
    ensures var p, r := ProposalAt(s.chain.gov, id), Effect(cfg, s, DoCancel(caller, id));
      && (r.Ok? <==>
            id < s.chain.gov.proposalCount && caller == p.proposer && s.now <= p.endTime && !p.executed && !p.canceled)
      && (r.Ok? ==>
            OnlyFlags(s.chain.gov, r.value.chain.gov, id, false, true) && r.value.chain.rewards == s.chain.rewards)
  {
  }

  /** Only the admin of the distributor changes who may distribute, one address at a time. */
  lemma AuthorizationSetIff(cfg: Config, s: System, caller: Address, distributor: Address, on: bool)
    ensures var r := Effect(cfg, s, DoAuthorize(caller, distributor, on));
      && (r.Ok? <==> caller == cfg.rewardAdmin)
      && (r.Ok? ==>
            && IsAuthorized(r.value.chain.rewards, distributor) == on
            && forall a: Address :: a != distributor ==>
                 IsAuthorized(r.value.chain.rewards, a) == IsAuthorized(s.chain.rewards, a))
  {
  }

  /** Execution goes through exactly for a proposal whose time is up, that passed, and that is neither executed nor
      canceled; it is executed then, and that is all. */
  lemma ExecuteAcceptedIff(cfg: Config, s: System, caller: Address, id: ProposalId)
    requires Good(cfg, s)
    ensures var p, r := ProposalAt(s.chain.gov, id), Effect(cfg, s, DoExecute(caller, id));
      && (r.Ok? <==>
            id < s.chain.gov.proposalCount && s.now > p.endTime && Passed(cfg, p) && !p.executed && !p.canceled)
      && (r.Ok? ==>
            OnlyFlags(s.chain.gov, r.value.chain.gov, id, true, false) && r.value.chain.rewards == s.chain.rewards)
  {
  }

  /** Only a block between transactions moves the committed storage or the time, and the time by as much as it took. */
  lemma BaseAndTime(cfg: Config, s: System, a: Action)
    ensures var r := Effect(cfg, s, a);
      r.Ok? ==>
        if a.NextBlock? && s.claims == [] then r.value.base == s.chain && r.value.now == s.now + a.elapsed
        else r.value.base == s.base && r.value.now == s.now
  {
    match a
    case ClaimReturns =>
    case _ =>
  }

  // --------------------------------------------------------- how stores evolve

  /** `q` is a later state of proposal `p`, which was current at time `t`: the terms stay, tallies grow,
      flags stay set, and if the vote was closed at `t` nothing but execution can have happened. */
  predicate Evolves(p: Proposal, t: nat, q: Proposal) {
    && q.proposer == p.proposer && q.description == p.description
    && q.startTime == p.startTime && q.endTime == p.endTime
    && p.forVotes <= q.forVotes && p.againstVotes <= q.againstVotes
    && (p.executed ==> q.executed) && (p.canceled ==> q.canceled)
    && (p.endTime < t ==> q == p.(executed := q.executed))
  }

  ghost predicate ProposalsEvolve(before: GovStore, t: nat, after: GovStore) {
    && before.proposalCount <= after.proposalCount
    && forall id: ProposalId :: id < before.proposalCount ==> Evolves(ProposalAt(before, id), t, ProposalAt(after, id))
  }

  /** No vote is lost or changed, and a proposal that was closed at `t` got no new ones. */
  ghost predicate VotesEvolve(before: GovStore, t: nat, after: GovStore) {
    && (forall k :: k in before.votes ==> k in after.votes && after.votes[k] == before.votes[k])
    && (forall k :: k in after.votes && k !in before.votes && k.0 < before.proposalCount ==>
         ProposalAt(before, k.0).endTime >= t)
  }

  ghost predicate Continues(before: GovStore, t: nat, after: GovStore) {
    ProposalsEvolve(before, t, after) && VotesEvolve(before, t, after)
  }

  /** Rewriting one proposal, with or without a new vote on it, is a continuation if that proposal evolves. */
  lemma RewriteContinues(g: GovStore, g': GovStore, id: ProposalId, now: nat)
    requires Dense(g) && id < g.proposalCount && id in g'.proposals
    requires g'.proposals == g.proposals[id := g'.proposals[id]] && g'.proposalCount == g.proposalCount
    requires Evolves(ProposalAt(g, id), now, g'.proposals[id])
    requires forall k :: k in g.votes ==> k in g'.votes && g'.votes[k] == g.votes[k]
    requires forall k :: k in g'.votes && k !in g.votes ==> k.0 == id && ProposalAt(g, id).endTime >= now
    ensures Continues(g, now, g')
  {
    forall q: ProposalId | q < g.proposalCount ensures Evolves(ProposalAt(g, q), now, ProposalAt(g', q)) {
      if q != id { assert ProposalAt(g', q) == ProposalAt(g, q); }
    }
  }

  lemma VoteContinues(cfg: Config, g: GovStore, r: RewardStore, caller: Address, id: ProposalId, support: bool,
                      balance: nat, now: nat)
    requires GovOk(cfg, g, now) && now > 0
    ensures var v := CastVote(cfg, g, r, caller, id, support, balance, now);
      v.Ok? ==> Continues(g, now, v.value.0)
  {
    var v := CastVote(cfg, g, r, caller, id, support, balance, now);
    if v.Ok? {
      VoteKeeps(cfg, g, r, caller, id, support, balance, now);
      RewriteContinues(g, v.value.0, id, now);
    }
  }

  lemma ProposeContinues(cfg: Config, g: GovStore, r: RewardStore, caller: Address, balance: nat, description: nat,
                         now: nat)
    requires GovOk(cfg, g, now)
    ensures var v := Propose(cfg, g, r, caller, balance, description, now);
      v.Ok? ==> Continues(g, now, v.value.0)
  {
    var v := Propose(cfg, g, r, caller, balance, description, now);
    if v.Ok? {
      assert forall q: ProposalId :: q < g.proposalCount ==> ProposalAt(v.value.0, q) == ProposalAt(g, q);
    }
  }

  lemma FlagsContinue(cfg: Config, g: GovStore, caller: Address, id: ProposalId, now: nat)
    requires GovOk(cfg, g, now) && now > 0
    ensures var e := ExecuteProposal(cfg, g, id, now); e.Ok? ==> Continues(g, now, e.value)
    ensures var c := CancelProposal(g, caller, id, now); c.Ok? ==> Continues(g, now, c.value)
  {
    var e, c := ExecuteProposal(cfg, g, id, now), CancelProposal(g, caller, id, now);
    if e.Ok? { RewriteContinues(g, e.value, id, now); }
    if c.Ok? { RewriteContinues(g, c.value, id, now); }
  }

  lemma StepContinues(cfg: Config, s: System, a: Action)
    requires Good(cfg, s)
    ensures var r := Effect(cfg, s, a); r.Ok? ==> Continues(s.chain.gov, s.now, r.value.chain.gov)
  {
    var g, r := s.chain.gov, s.chain.rewards;
    match a
    case DoPropose(caller, balance, description) => ProposeContinues(cfg, g, r, caller, balance, description, s.now);
    case DoVote(caller, id, support, balance) => VoteContinues(cfg, g, r, caller, id, support, balance, s.now);
    case DoExecute(caller, id) => FlagsContinue(cfg, g, caller, id, s.now);
    case DoCancel(caller, id) => FlagsContinue(cfg, g, caller, id, s.now);
    case _ =>
  }

  lemma ContinuesTransitive(a: GovStore, ta: nat, b: GovStore, tb: nat, c: GovStore)
    requires Continues(a, ta, b) && Continues(b, tb, c) && ta <= tb
    ensures Continues(a, ta, c)
  {
    forall id: ProposalId | id < a.proposalCount ensures Evolves(ProposalAt(a, id), ta, ProposalAt(c, id)) {
      assert Evolves(ProposalAt(a, id), ta, ProposalAt(b, id)) && Evolves(ProposalAt(b, id), tb, ProposalAt(c, id));
    }
    forall k | k in c.votes && k !in a.votes && k.0 < a.proposalCount ensures ProposalAt(a, k.0).endTime >= ta {
      assert Evolves(ProposalAt(a, k.0), ta, ProposalAt(b, k.0));
    }
  }

  /** One step, seen from the committed storage: a revert goes back to it, a new block replaces it. */
  lemma CommittedStep(cfg: Config, s: System, a: Action)
    requires Good(cfg, s) && Continues(s.base.gov, s.now, s.chain.gov)
    ensures var s' := Step(cfg, s, a);
      && Continues(s.base.gov, s.now, s'.base.gov) && Continues(s'.base.gov, s'.now, s'.chain.gov) && s.now <= s'.now
  {
    var r := Effect(cfg, s, a);
    if r.Ok? && !a.NextBlock? {
      StepContinues(cfg, s, a);
      assert r.value.base == s.base && r.value.now == s.now;
      ContinuesTransitive(s.base.gov, s.now, s.chain.gov, s.now, r.value.chain.gov);
    }
  }

  /** Whatever happens, and whatever is rolled back on the way, committed governance only moves forward. */
  lemma {:induction false} RunContinues(cfg: Config, s: System, actions: seq<Action>)
    requires Good(cfg, s) && Continues(s.base.gov, s.now, s.chain.gov)
    ensures Continues(s.base.gov, s.now, Run(cfg, s, actions).base.gov)
    ensures Continues(Run(cfg, s, actions).base.gov, Run(cfg, s, actions).now, Run(cfg, s, actions).chain.gov)
    ensures s.now <= Run(cfg, s, actions).now
    decreases |actions|
  {
    if actions != [] {
      var s1 := Step(cfg, s, actions[0]);
      StepKeepsGood(cfg, s, actions[0]);
      CommittedStep(cfg, s, actions[0]);
      RunContinues(cfg, s1, actions[1..]);
      ContinuesTransitive(s.base.gov, s.now, s1.base.gov, s1.now, Run(cfg, s1, actions[1..]).base.gov);
    }
  }

  /** What a later state still says about a proposal that was committed at `s`. */
  lemma LaterProposal(cfg: Config, s: System, actions: seq<Action>, id: ProposalId)
    requires Good(cfg, s) && Continues(s.base.gov, s.now, s.chain.gov) && id < s.base.gov.proposalCount
    ensures var s' := Run(cfg, s, actions);
      var q, c := ProposalAt(s'.base.gov, id), ProposalAt(s'.chain.gov, id);
      && id < s'.base.gov.proposalCount && id < s'.chain.gov.proposalCount && s.now <= s'.now
      && Evolves(ProposalAt(s.base.gov, id), s.now, q) && Evolves(q, s'.now, c)
      && Settled(cfg, q, s'.now) && Settled(cfg, c, s'.now)
  {
    RunContinues(cfg, s, actions);
    RunKeepsGood(cfg, s, actions);
  }

  lemma ExecutedWasProposed(cfg: Config, s: System, id: ProposalId)
    requires Good(cfg, s) && (ProposalAt(s.base.gov, id).executed || ProposalAt(s.base.gov, id).canceled)
    ensures id < s.base.gov.proposalCount
  {
  }

  lemma ClosedVerdict(cfg: Config, p: Proposal, t: nat, g: GovStore, id: ProposalId, now: nat)
    requires Evolves(p, t, ProposalAt(g, id)) && p.endTime < t <= now
    requires Settled(cfg, ProposalAt(g, id), now)
    ensures var q := ProposalAt(g, id);
      && q.forVotes == p.forVotes && q.againstVotes == p.againstVotes && q.canceled == p.canceled
      && (ExecuteProposal(cfg, g, id, now).Ok? <==> Passed(cfg, p) && !p.canceled && !q.executed)
  {
  }

  /** A verdict is final: once its time is up, whether a proposal can be executed depends only on the tallies it
      closed with, whether it was canceled by then, and whether it has been executed already. */
  lemma VerdictIsFinal(cfg: Config, s: System, actions: seq<Action>, id: ProposalId)
    requires Good(cfg, s) && Continues(s.base.gov, s.now, s.chain.gov)
    requires id < s.base.gov.proposalCount && ProposalAt(s.base.gov, id).endTime < s.now
    ensures var p, s' := ProposalAt(s.base.gov, id), Run(cfg, s, actions);
      var q := ProposalAt(s'.base.gov, id);
      && q.forVotes == p.forVotes && q.againstVotes == p.againstVotes && q.canceled == p.canceled
      && (ExecuteProposal(cfg, s'.base.gov, id, s'.now).Ok? <==> Passed(cfg, p) && !p.canceled && !q.executed)
  {
    LaterProposal(cfg, s, actions, id);
    var s' := Run(cfg, s, actions);
    ClosedVerdict(cfg, ProposalAt(s.base.gov, id), s.now, s'.base.gov, id, s'.now);
  }

  lemma DoneRefuses(cfg: Config, s: System, id: ProposalId, caller: Address, support: bool, balance: u256)
    requires ProposalAt(s.chain.gov, id).executed || ProposalAt(s.chain.gov, id).canceled
    ensures Effect(cfg, s, DoExecute(caller, id)).Revert?
    ensures Effect(cfg, s, DoCancel(caller, id)).Revert?
    ensures Effect(cfg, s, DoVote(caller, id, support, balance)).Revert?
  {
  }

  /** An address votes once: after a committed vote the vote stays as it is and every further one reverts. */
  lemma OneVotePerAddress(cfg: Config, s: System, actions: seq<Action>, id: ProposalId, caller: Address, support: bool,
                          balance: u256)
    requires Good(cfg, s) && Continues(s.base.gov, s.now, s.chain.gov)
    requires (id, caller) in s.base.gov.votes
    ensures var s' := Run(cfg, s, actions);
      && VoteOf(s'.chain.gov, id, caller) == VoteOf(s.base.gov, id, caller)
      && Effect(cfg, s', DoVote(caller, id, support, balance)).Revert?
  {
    RunContinues(cfg, s, actions);
    RunKeepsGood(cfg, s, actions);
    var s' := Run(cfg, s, actions);
    assert (id, caller) in s'.base.gov.votes && (id, caller) in s'.chain.gov.votes;
    VoteAcceptedIff(cfg, s', caller, id, support, balance);
  }

  /** Execution is final: an executed proposal stays executed and uncanceled, keeps its quorum and majority,
      and every further attempt to execute, cancel or vote reverts. */
  lemma ExecutionIsFinal(cfg: Config, s: System, actions: seq<Action>, id: ProposalId, caller: Address, support: bool,
                         balance: u256)
    requires Good(cfg, s) && Continues(s.base.gov, s.now, s.chain.gov)
    requires ProposalAt(s.base.gov, id).executed
    ensures var s' := Run(cfg, s, actions);
      && ProposalAt(s'.chain.gov, id).executed && !ProposalAt(s'.chain.gov, id).canceled
      && Passed(cfg, ProposalAt(s'.chain.gov, id))
      && Effect(cfg, s', DoExecute(caller, id)).Revert?
      && Effect(cfg, s', DoCancel(caller, id)).Revert?
      && Effect(cfg, s', DoVote(caller, id, support, balance)).Revert?
  {
    ExecutedWasProposed(cfg, s, id);
    LaterProposal(cfg, s, actions, id);
    DoneRefuses(cfg, Run(cfg, s, actions), id, caller, support, balance);
  }

  /** Cancellation is final too. */
  lemma CancellationIsFinal(cfg: Config, s: System, actions: seq<Action>, id: ProposalId, caller: Address,
                            support: bool, balance: u256)
    requires Good(cfg, s) && Continues(s.base.gov, s.now, s.chain.gov)
    requires ProposalAt(s.base.gov, id).canceled
    ensures var s' := Run(cfg, s, actions);
      && ProposalAt(s'.chain.gov, id).canceled && !ProposalAt(s'.chain.gov, id).executed
      && Effect(cfg, s', DoExecute(caller, id)).Revert?
      && Effect(cfg, s', DoVote(caller, id, support, balance)).Revert?
  {
    ExecutedWasProposed(cfg, s, id);
    LaterProposal(cfg, s, actions, id);
    DoneRefuses(cfg, Run(cfg, s, actions), id, caller, support, balance);
  }
}
