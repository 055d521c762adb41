/**
 The backend's copy of the rewards: one row per distribution, flipped to claimed when the
 user claims. Its grand total is always right; a user's unclaimed sum falls short of the
 chain by exactly what the user had outstanding when the last of their claims returned.
 */
module RewardMirror {
  import opened Base
  import opened Sums
  import opened GovernanceProtocol
  import opened RewardAccounts

  datatype Row = Row(user: Address, amount: nat, claimed: bool)

  /** `update({ user, claimed: false }, { claimed: true })`. */
  function MarkClaimed(rows: seq<Row>, user: Address): seq<Row> {
    seq(|rows|, i requires 0 <= i < |rows| =>
      if rows[i].user == user && !rows[i].claimed then rows[i].(claimed := true) else rows[i])
  }

  function Handle(rows: seq<Row>, e: RewardEvent): seq<Row> {
    match e
    case RewardDistributed(user, amount) => rows + [Row(user, amount, false)]
    case RewardClaimed(user, _) => MarkClaimed(rows, user)
  }

  function Replay(events: seq<RewardEvent>): seq<Row> {
    if events == [] then [] else Handle(Replay(events[..|events| - 1]), events[|events| - 1])
  }

  /** `totalUnclaimed` of `getUserRewards`. */
  function UnclaimedOf(rows: seq<Row>, user: Address): nat {
    if rows == [] then 0
    else
      var row := rows[|rows| - 1];
      UnclaimedOf(rows[..|rows| - 1], user) + if row.user == user && !row.claimed then row.amount else 0
  }

  /** The two sums of `getRewardStats`: all claimed rows, or all unclaimed ones. */
  function TotalWhere(rows: seq<Row>, claimed: bool): nat {
    if rows == [] then 0
    else
      var row := rows[|rows| - 1];
      TotalWhere(rows[..|rows| - 1], claimed) + if row.claimed == claimed then row.amount else 0
  }

  class RewardDistributorService {
    var rows: seq<Row>

    constructor ()
      ensures rows == []
    {
      rows := [];
    }

    method OnRewardDistributed(user: Address, amount: nat)
      modifies this
      ensures rows == Handle(old(rows), RewardDistributed(user, amount))
    {
      var reward := Row(user, amount, false);
      rows := rows + [reward];
    }

    method OnRewardClaimed(user: Address, amount: nat)
      modifies this
      ensures rows == Handle(old(rows), RewardClaimed(user, amount))
      ensures UnclaimedOf(rows, user) == 0
    {
      rows := MarkClaimed(rows, user);
      MarkingSums(old(rows), user, user);
    }
  }

  // ------------------------------------------------------------ grand totals

  /** Claiming moves all of the user's unclaimed rows, and nobody else's, from the unclaimed to the claimed total. */
  lemma {:induction false} MarkingSums(rows: seq<Row>, user: Address, other: Address)
    ensures UnclaimedOf(MarkClaimed(rows, user), other) == if other == user then 0 else UnclaimedOf(rows, other)
    ensures TotalWhere(MarkClaimed(rows, user), true) == TotalWhere(rows, true) + UnclaimedOf(rows, user)
    ensures TotalWhere(MarkClaimed(rows, user), false) == TotalWhere(rows, false) - UnclaimedOf(rows, user)
    ensures TotalWhere(MarkClaimed(rows, user), true) + TotalWhere(MarkClaimed(rows, user), false)
         == TotalWhere(rows, true) + TotalWhere(rows, false)
  {
    if rows != [] {
      MarkingSums(rows[..|rows| - 1], user, other);
      assert MarkClaimed(rows, user)[..|rows| - 1] == MarkClaimed(rows[..|rows| - 1], user);
    }
  }

  /** What one more event does to the replayed rows. */
  lemma ReplayAppend(events: seq<RewardEvent>, e: RewardEvent, user: Address)
    ensures Replay(events + [e]) == Handle(Replay(events), e)
    ensures UnclaimedOf(Replay(events + [e]), user) ==
      if e.user != user then UnclaimedOf(Replay(events), user)
      else if e.RewardClaimed? then 0 else UnclaimedOf(Replay(events), user) + e.amount
    ensures TotalWhere(Replay(events + [e]), false) ==
      if e.RewardDistributed? then TotalWhere(Replay(events), false) + e.amount
      else TotalWhere(Replay(events), false) - UnclaimedOf(Replay(events), e.user)
    ensures TotalWhere(Replay(events + [e]), true) + TotalWhere(Replay(events + [e]), false)
         == TotalWhere(Replay(events), true) + TotalWhere(Replay(events), false)
            + if e.RewardDistributed? then e.amount else 0
  {
    var rows := Replay(events);
    assert (events + [e])[..|events|] == events;
    if e.RewardClaimed? {
      MarkingSums(rows, e.user, user);
      assert Replay(events + [e]) == MarkClaimed(rows, e.user);
    } else {
      assert (rows + [Row(e.user, e.amount, false)])[..|rows|] == rows;
    }
  }

  /** Claimed plus unclaimed rows are everything ever distributed. */
  ghost predicate StatsOk(r: RewardStore) {
    TotalWhere(Replay(r.events), true) + TotalWhere(Replay(r.events), false) == r.totalDistributed
  }

  lemma DistributionKeepsStats(r: RewardStore, caller: Address, user: Address, amount: nat)
    requires StatsOk(r)
    ensures var v := DistributeReward(r, caller, user, amount); v.Ok? ==> StatsOk(v.value)
  {
    ReplayAppend(r.events, RewardDistributed(user, amount), user);
  }

  lemma ClaimKeepsStats(r: RewardStore, user: Address, amount: nat)
    requires StatsOk(r)
    ensures StatsOk(ClaimPaid(r, user, amount))
  {
    ReplayAppend(r.events, RewardClaimed(user, amount), user);
  }

  lemma StepKeepsStats(cfg: Config, s: System, a: Action)
    requires StatsOk(s.chain.rewards) && StatsOk(s.base.rewards)
    ensures StatsOk(Step(cfg, s, a).chain.rewards) && StatsOk(Step(cfg, s, a).base.rewards)
  {
    var r := s.chain.rewards;
    if Rewarding(a) {
      RewardingIsDistribution(cfg, s, a);
      DistributionKeepsStats(r, Distributor(cfg, a), Rewarded(a), RewardAmount(a));
    } else if a.ClaimReturns? && s.claims != [] {
      var claim := s.claims[|s.claims| - 1];
      ClaimKeepsStats(r, claim.user, claim.amount);
    }
  }

  lemma {:induction false} RunKeepsStats(cfg: Config, s: System, actions: seq<Action>)
    requires StatsOk(s.chain.rewards) && StatsOk(s.base.rewards)
    ensures StatsOk(Run(cfg, s, actions).chain.rewards) && StatsOk(Run(cfg, s, actions).base.rewards)
    decreases |actions|
  {
    if actions != [] {
      StepKeepsStats(cfg, s, actions[0]);
      RunKeepsStats(cfg, Step(cfg, s, actions[0]), actions[1..]);
    }
  }

  /** On every run, re-entrant or not, the database's claimed and unclaimed totals add up to the chain's total. */
  lemma StatsAddUp(cfg: Config, now: nat, actions: seq<Action>)
    ensures var r := Run(cfg, Genesis(cfg, now), actions).chain.rewards;
      TotalWhere(Replay(r.events), true) + TotalWhere(Replay(r.events), false) == r.totalDistributed
  {
    RunKeepsStats(cfg, Genesis(cfg, now), actions);
  }

  // --------------------------------------------------------- one user's rows

  function OpenOf(claims: seq<Claim>, user: Address): nat {
    if claims == [] then 0
    else
      var c := claims[|claims| - 1];
      OpenOf(claims[..|claims| - 1], user) + if c.user == user then c.amount else 0
  }

  // ------------------------------------------------ every run, to the last unit

  /** What the rows of one user fall short of the chain, now and in the storage a revert goes back to. */
  datatype Gaps = Gaps(current: nat, committed: nat)

  /** What the user has pending or waiting at the token. */
  function Outstanding(r: RewardStore, claims: seq<Claim>, user: Address): nat {
    Get(r.rewards, user) + OpenOf(claims, user)
  }

  /** The end of a claim sets the gap to what the user still has outstanding then; nothing else touches it,
      but for blocks, which commit it, and reverts, which take it back. */
  function NextGaps(cfg: Config, s: System, a: Action, user: Address, g: Gaps): Gaps {
    match Effect(cfg, s, a)
    case Revert(_) => Gaps(g.committed, g.committed)
    case Ok(s') =>
      if a.ClaimReturns? && s.claims != [] && s.claims[|s.claims| - 1].user == user
      then g.(current := Outstanding(s'.chain.rewards, s'.claims, user))
      else if a.NextBlock? && s.claims == [] then g.(committed := g.current)
      else g
  }

  function GapsAfter(cfg: Config, s: System, actions: seq<Action>, user: Address, g: Gaps): Gaps
    decreases |actions|
  {
    if actions == [] then g
    else GapsAfter(cfg, Step(cfg, s, actions[0]), actions[1..], user, NextGaps(cfg, s, actions[0], user, g))
  }

  ghost predicate ShortBy(r: RewardStore, claims: seq<Claim>, user: Address, gap: nat) {
    UnclaimedOf(Replay(r.events), user) + gap == Outstanding(r, claims, user)
  }

  lemma CreditKeepsGap(r: RewardStore, claims: seq<Claim>, caller: Address, to: Address, amount: nat, user: Address,
                       gap: nat)
    requires ShortBy(r, claims, user, gap)
    ensures var v := DistributeReward(r, caller, to, amount); v.Ok? ==> ShortBy(v.value, claims, user, gap)
  {
    ReplayAppend(r.events, RewardDistributed(to, amount), user);
  }

  lemma DebitKeepsGap(r: RewardStore, claims: seq<Claim>, caller: Address, user: Address, gap: nat)
    requires ShortBy(r, claims, user, gap)
    ensures var v := ClaimDebit(r, caller); v.Ok? ==> ShortBy(v.value.0, claims + [Claim(caller, v.value.1)], user, gap)
  {
    var v := ClaimDebit(r, caller);
    if v.Ok? { assert (claims + [Claim(caller, v.value.1)])[..|claims|] == claims; }
  }

  lemma ReturnSetsGap(r: RewardStore, claims: seq<Claim>, user: Address, gap: nat)
    requires ShortBy(r, claims, user, gap) && claims != []
    ensures var n := |claims| - 1;
      var r' := ClaimPaid(r, claims[n].user, claims[n].amount);
      ShortBy(r', claims[..n], user, if claims[n].user == user then Outstanding(r', claims[..n], user) else gap)
  {
    var claim := claims[|claims| - 1];
    ReplayAppend(r.events, RewardClaimed(claim.user, claim.amount), user);
  }

  lemma EffectKeepsGap(cfg: Config, s: System, a: Action, user: Address, g: Gaps)
    requires ShortBy(s.chain.rewards, s.claims, user, g.current)
    ensures var e := Effect(cfg, s, a);
      e.Ok? ==> ShortBy(e.value.chain.rewards, e.value.claims, user, NextGaps(cfg, s, a, user, g).current)
  {
    var r, claims := s.chain.rewards, s.claims;
    if Rewarding(a) {
      RewardingIsDistribution(cfg, s, a);
      CreditKeepsGap(r, claims, Distributor(cfg, a), Rewarded(a), RewardAmount(a), user, g.current);
    } else if a.BeginClaim? {
      DebitKeepsGap(r, claims, a.caller, user, g.current);
    } else if a.ClaimReturns? && claims != [] {
      ReturnSetsGap(r, claims, user, g.current);
    } else if Effect(cfg, s, a).Ok? {
      RewardsStay(cfg, s, a);
    }
  }

  /** The other actions touch neither rewards nor claims nor their log. */
  lemma RewardsStay(cfg: Config, s: System, a: Action)
    requires !Rewarding(a) && !a.BeginClaim? && !(a.ClaimReturns? && s.claims != [])
    ensures var e := Effect(cfg, s, a);
      e.Ok? ==>
        && e.value.claims == s.claims && e.value.chain.rewards.rewards == s.chain.rewards.rewards
        && e.value.chain.rewards.events == s.chain.rewards.events
  {
  }

  lemma StepKeepsGaps(cfg: Config, s: System, a: Action, user: Address, g: Gaps)
    requires ShortBy(s.chain.rewards, s.claims, user, g.current) && ShortBy(s.base.rewards, [], user, g.committed)
    ensures var s', g' := Step(cfg, s, a), NextGaps(cfg, s, a, user, g);
      ShortBy(s'.chain.rewards, s'.claims, user, g'.current) && ShortBy(s'.base.rewards, [], user, g'.committed)
  {
    EffectKeepsGap(cfg, s, a, user, g);
    BaseStays(cfg, s, a);
  }

  /** Only a block between transactions moves the committed storage. */
  lemma BaseStays(cfg: Config, s: System, a: Action)
    ensures var e := Effect(cfg, s, a);
      e.Ok? ==> e.value.base == if a.NextBlock? && s.claims == [] then s.chain else s.base
  {
    if Rewarding(a) { RewardingIsDistribution(cfg, s, a); }
  }

  lemma {:induction false} RunKeepsGaps(cfg: Config, s: System, actions: seq<Action>, user: Address, g: Gaps)
    requires ShortBy(s.chain.rewards, s.claims, user, g.current) && ShortBy(s.base.rewards, [], user, g.committed)
    ensures var s', g' := Run(cfg, s, actions), GapsAfter(cfg, s, actions, user, g);
      ShortBy(s'.chain.rewards, s'.claims, user, g'.current) && ShortBy(s'.base.rewards, [], user, g'.committed)
    decreases |actions|
  {
    if actions != [] {
      StepKeepsGaps(cfg, s, actions[0], user, g);
      RunKeepsGaps(cfg, Step(cfg, s, actions[0]), actions[1..], user, NextGaps(cfg, s, actions[0], user, g));
    }
  }

  /** On every run, re-entrant or not, the replay of the committed log falls short of a user's reward by exactly what
      the user had outstanding when the last of their committed claims returned; so it shows the reward exactly if that
      was nothing. */
  lemma MirrorFallsShortBy(cfg: Config, now: nat, actions: seq<Action>, user: Address)
    ensures var r := Run(cfg, Genesis(cfg, now), actions).base.rewards;
      var gap := GapsAfter(cfg, Genesis(cfg, now), actions, user, Gaps(0, 0)).committed;
      && UnclaimedOf(Replay(r.events), user) + gap == Get(r.rewards, user)
      && (UnclaimedOf(Replay(r.events), user) == Get(r.rewards, user) <==> gap == 0)
  {
    RunKeepsGaps(cfg, Genesis(cfg, now), actions, user, Gaps(0, 0));
  }

  // ----------------------------------------------------------- quiet runs

  /** Every user's unclaimed rows are the pending reward plus the claims still waiting for the token. */
  ghost predicate Synced(r: RewardStore, claims: seq<Claim>) {
    forall u: Address :: UnclaimedOf(Replay(r.events), u) == Get(r.rewards, u) + OpenOf(claims, u)
  }

  predicate Waiting(claims: seq<Claim>, user: Address) {
    exists i :: 0 <= i < |claims| && claims[i].user == user
  }

  /** Whoever waits for a claim has nothing pending and waits for one claim only. */
  ghost predicate Solo(r: RewardStore, claims: seq<Claim>) {
    && (forall i :: 0 <= i < |claims| ==> Get(r.rewards, claims[i].user) == 0)
    && (forall i, j :: 0 <= i < j < |claims| ==> claims[i].user != claims[j].user)
  }

  /** Nobody is rewarded while a claim of theirs waits; a condition on the state before each call. */
  predicate Quiet(cfg: Config, s: System, actions: seq<Action>)
    decreases |actions|
  {
    actions == [] ||
    (&& (Rewarding(actions[0]) ==> !Waiting(s.claims, Rewarded(actions[0])))
     && Quiet(cfg, Step(cfg, s, actions[0]), actions[1..]))
  }

  lemma {:induction false} NotWaiting(claims: seq<Claim>, user: Address)
    requires !Waiting(claims, user)
    ensures OpenOf(claims, user) == 0
  {
    if claims != [] {
      var n := |claims| - 1;
      assert forall i :: 0 <= i < n ==> claims[..n][i] == claims[i];
      NotWaiting(claims[..n], user);
    }
  }

  lemma CreditKeepsSync(r: RewardStore, claims: seq<Claim>, caller: Address, user: Address, amount: nat)
    requires Synced(r, claims)
    ensures var v := DistributeReward(r, caller, user, amount); v.Ok? ==> Synced(v.value, claims)
  {
    var v := DistributeReward(r, caller, user, amount);
    if v.Ok? {
      forall u: Address ensures UnclaimedOf(Replay(v.value.events), u) == Get(v.value.rewards, u) + OpenOf(claims, u) {
        ReplayAppend(r.events, RewardDistributed(user, amount), u);
      }
    }
  }

  lemma DebitKeepsSync(r: RewardStore, claims: seq<Claim>, caller: Address)
    requires Synced(r, claims)
    ensures var v := ClaimDebit(r, caller); v.Ok? ==> Synced(v.value.0, claims + [Claim(caller, v.value.1)])
  {
    var v := ClaimDebit(r, caller);
    if v.Ok? { assert (claims + [Claim(caller, v.value.1)])[..|claims|] == claims; }
  }

  /** The end of a claim keeps the mirror in step exactly if the user was not rewarded meanwhile
      and waits for no other claim: the handler flips all of the user's rows, also the new ones. */
  lemma ClaimKeepsSyncIff(r: RewardStore, claims: seq<Claim>)
    requires Synced(r, claims) && claims != []
    ensures var n := |claims| - 1;
      Synced(ClaimPaid(r, claims[n].user, claims[n].amount), claims[..n])
      <==> Get(r.rewards, claims[n].user) == 0 && OpenOf(claims[..n], claims[n].user) == 0
  {
    var n := |claims| - 1;
    var claim := claims[n];
    var r' := ClaimPaid(r, claim.user, claim.amount);
    forall u: Address
      ensures UnclaimedOf(Replay(r'.events), u)
           == if u == claim.user then 0 else Get(r'.rewards, u) + OpenOf(claims[..n], u)
    {
      ReplayAppend(r.events, RewardClaimed(claim.user, claim.amount), u);
      assert UnclaimedOf(Replay(r.events), u) == Get(r.rewards, u) + OpenOf(claims, u);
    }
    if Synced(r', claims[..n]) {
      assert UnclaimedOf(Replay(r'.events), claim.user) ==
        Get(r'.rewards, claim.user) + OpenOf(claims[..n], claim.user);
    }
  }

  lemma QuietEffectKeepsSolo(cfg: Config, s: System, a: Action)
    requires Solo(s.chain.rewards, s.claims)
    requires Rewarding(a) ==> !Waiting(s.claims, Rewarded(a))
    ensures var e := Effect(cfg, s, a); e.Ok? ==> Solo(e.value.chain.rewards, e.value.claims)
  {
    var e := Effect(cfg, s, a);
    if e.Ok? {
      var r, r' := s.chain.rewards, e.value.chain.rewards;
      if Rewarding(a) {
        RewardingIsDistribution(cfg, s, a);
        assert forall u: Address :: u != Rewarded(a) ==> Get(r'.rewards, u) == Get(r.rewards, u);
      } else if a.BeginClaim? {
        assert e.value.claims == s.claims + [Claim(a.caller, Get(r.rewards, a.caller))];
      } else {
        assert r'.rewards == r.rewards;
        assert |e.value.claims| <= |s.claims| && e.value.claims == s.claims[..|e.value.claims|];
      }
    }
  }

  lemma QuietEffectKeepsSync(cfg: Config, s: System, a: Action)
    requires Synced(s.chain.rewards, s.claims) && Solo(s.chain.rewards, s.claims)
    ensures var e := Effect(cfg, s, a); e.Ok? ==> Synced(e.value.chain.rewards, e.value.claims)
  {
    var r, claims := s.chain.rewards, s.claims;
    if Rewarding(a) {
      RewardingIsDistribution(cfg, s, a);
      CreditKeepsSync(r, claims, Distributor(cfg, a), Rewarded(a), RewardAmount(a));
    } else if a.BeginClaim? {
      DebitKeepsSync(r, claims, a.caller);
    } else if a.ClaimReturns? && claims != [] {
      var n := |claims| - 1;
      assert forall i :: 0 <= i < n ==> claims[..n][i] == claims[i];
      NotWaiting(claims[..n], claims[n].user);
      ClaimKeepsSyncIff(r, claims);
    }
  }

  /** On every quiet run each user's unclaimed rows add up to the reward the chain shows,
      plus what that user has under way. */
  lemma {:induction false} QuietRunStaysSynced(cfg: Config, s: System, actions: seq<Action>)
    requires Synced(s.chain.rewards, s.claims) && Solo(s.chain.rewards, s.claims) && Synced(s.base.rewards, [])
    requires Quiet(cfg, s, actions)
    ensures Synced(Run(cfg, s, actions).chain.rewards, Run(cfg, s, actions).claims)
    ensures Synced(Run(cfg, s, actions).base.rewards, [])
    decreases |actions|
  {
    if actions != [] {
      QuietEffectKeepsSync(cfg, s, actions[0]);
      QuietEffectKeepsSolo(cfg, s, actions[0]);
      QuietRunStaysSynced(cfg, Step(cfg, s, actions[0]), actions[1..]);
    }
  }

  /** From deployment on, the replay of a quiet run's committed log shows every user the on-chain reward. */
  lemma MirrorShowsRewards(cfg: Config, now: nat, actions: seq<Action>, user: Address)
    requires Quiet(cfg, Genesis(cfg, now), actions)
    ensures var r := Run(cfg, Genesis(cfg, now), actions).base.rewards;
      UnclaimedOf(Replay(r.events), user) == Get(r.rewards, user)
  {
    QuietRunStaysSynced(cfg, Genesis(cfg, now), actions);
  }

  /** The unclaimed total is what is pending plus what is under way. */
  ghost predicate UnclaimedTotal(r: RewardStore, claims: seq<Claim>) {
    TotalWhere(Replay(r.events), false) == Sum(r.rewards) + OpenClaims(claims)
  }

  lemma ReturnKeepsTotal(r: RewardStore, claims: seq<Claim>)
    requires Synced(r, claims) && Solo(r, claims) && UnclaimedTotal(r, claims) && claims != []
    ensures var n := |claims| - 1; UnclaimedTotal(ClaimPaid(r, claims[n].user, claims[n].amount), claims[..n])
  {
    var n := |claims| - 1;
    assert forall i :: 0 <= i < n ==> claims[..n][i] == claims[i];
    NotWaiting(claims[..n], claims[n].user);
    ReplayAppend(r.events, RewardClaimed(claims[n].user, claims[n].amount), claims[n].user);
    var user := claims[n].user;
    assert UnclaimedOf(Replay(r.events), user) == Get(r.rewards, user) + OpenOf(claims, user);
  }

  lemma QuietEffectKeepsTotal(cfg: Config, s: System, a: Action)
    requires Synced(s.chain.rewards, s.claims) && Solo(s.chain.rewards, s.claims)
    requires UnclaimedTotal(s.chain.rewards, s.claims)
    ensures var e := Effect(cfg, s, a); e.Ok? ==> UnclaimedTotal(e.value.chain.rewards, e.value.claims)
  {
    var r, claims := s.chain.rewards, s.claims;
    if Rewarding(a) {
      RewardingIsDistribution(cfg, s, a);
      DistributionConserves(r, Distributor(cfg, a), Rewarded(a), RewardAmount(a));
      ReplayAppend(r.events, RewardDistributed(Rewarded(a), RewardAmount(a)), Rewarded(a));
    } else if a.BeginClaim? {
      SumPut(r.rewards, a.caller, 0);
      var claim := Claim(a.caller, Get(r.rewards, a.caller));
      assert (claims + [claim])[..|claims|] == claims;
    } else if a.ClaimReturns? && claims != [] {
      ReturnKeepsTotal(r, claims);
    } else if Effect(cfg, s, a).Ok? {
      RewardsStay(cfg, s, a);
    }
  }

  lemma {:induction false} QuietRunKeepsTotal(cfg: Config, s: System, actions: seq<Action>)
    requires Synced(s.chain.rewards, s.claims) && Solo(s.chain.rewards, s.claims) && Synced(s.base.rewards, [])
    requires UnclaimedTotal(s.chain.rewards, s.claims) && UnclaimedTotal(s.base.rewards, [])
    requires Quiet(cfg, s, actions)
    ensures UnclaimedTotal(Run(cfg, s, actions).base.rewards, [])
    decreases |actions|
  {
    if actions != [] {
      var s1 := Step(cfg, s, actions[0]);
      QuietEffectKeepsSync(cfg, s, actions[0]);
      QuietEffectKeepsSolo(cfg, s, actions[0]);
      QuietEffectKeepsTotal(cfg, s, actions[0]);
      BaseStays(cfg, s, actions[0]);
      QuietRunKeepsTotal(cfg, s1, actions[1..]);
    }
  }

  lemma {:induction false} BaseIsConserved(cfg: Config, s: System, actions: seq<Action>)
    requires Conserved(s.chain, s.claims) && Conserved(s.base, [])
    ensures Conserved(Run(cfg, s, actions).base, [])
    decreases |actions|
  {
    if actions != [] {
      StepConserves(cfg, s, actions[0]);
      BaseIsConserved(cfg, Step(cfg, s, actions[0]), actions[1..]);
    }
  }

  /** From deployment on, the replay of a quiet run's committed log has as unclaimed total all that is pending on the
      chain, and as claimed total all that was ever claimed there. */
  lemma StatsShowRewards(cfg: Config, now: nat, actions: seq<Action>)
    requires Quiet(cfg, Genesis(cfg, now), actions)
    ensures var r := Run(cfg, Genesis(cfg, now), actions).base.rewards;
      && TotalWhere(Replay(r.events), false) == Sum(r.rewards)
      && TotalWhere(Replay(r.events), true) == ClaimedIn(r.events)
  {
    QuietRunKeepsTotal(cfg, Genesis(cfg, now), actions);
    BaseIsConserved(cfg, Genesis(cfg, now), actions);
    RunKeepsStats(cfg, Genesis(cfg, now), actions);
  }

  // ------------------------------------------- a reward inside the own claim

  /** A user is rewarded, claims, and is rewarded again before the token returns; then the transaction ends. */
  function Nested(first: Action, user: Address, second: Action): seq<Action> {
    [first, BeginClaim(user), second, ClaimReturns, NextBlock(1)]
  }

  /** The user is rewarded by an accepted action and then claims. */
  lemma RewardedThenClaims(cfg: Config, s: System, a: Action, user: Address)
    requires s.claims == [] && Rewarding(a) && Rewarded(a) == user && RewardAmount(a) > 0 && Effect(cfg, s, a).Ok?
    ensures var s1 := Step(cfg, s, a);
      var amount := Get(s.chain.rewards.rewards, user) + RewardAmount(a);
      && s1.chain.rewards.rewards == s.chain.rewards.rewards[user := amount]
      && Step(cfg, s1, BeginClaim(user))
         == s1.(chain := s1.chain.(rewards := s1.chain.rewards.(rewards := s1.chain.rewards.rewards[user := 0])),
                claims := [Claim(user, amount)])
  {
    RewardingIsDistribution(cfg, s, a);
  }

  /** The user is rewarded by an accepted action while the claim waits, and the claim returns. */
  lemma RewardedInsideClaim(cfg: Config, s: System, a: Action, user: Address, amount: nat)
    requires s.claims == [Claim(user, amount)] && Get(s.chain.rewards.rewards, user) == 0
    requires Rewarding(a) && Rewarded(a) == user && Effect(cfg, s, a).Ok?
    ensures var s' := Step(cfg, Step(cfg, Step(cfg, s, a), ClaimReturns), NextBlock(1));
      UnclaimedOf(Replay(s'.base.rewards.events), user) == 0 && Get(s'.base.rewards.rewards, user) == RewardAmount(a)
  {
    RewardingIsDistribution(cfg, s, a);
    var r := Step(cfg, s, a).chain.rewards;
    ReplayAppend(r.events, RewardClaimed(user, amount), user);
  }

  /** Whatever rewards the user inside the own claim, in any state between transactions, is lost to the mirror: the
      chain still owes it, the database shows it as claimed. */
  lemma NestedRewardIsLost(cfg: Config, s: System, first: Action, user: Address, second: Action)
    requires s.claims == [] && Rewarding(first) && Rewarded(first) == user && RewardAmount(first) > 0
    requires Rewarding(second) && Rewarded(second) == user
    requires Effect(cfg, s, first).Ok? && Effect(cfg, Step(cfg, Step(cfg, s, first), BeginClaim(user)), second).Ok?
    ensures var r := Run(cfg, s, Nested(first, user, second)).base.rewards;
      UnclaimedOf(Replay(r.events), user) == 0 && Get(r.rewards, user) == RewardAmount(second)
  {
    RunOfFive(cfg, s, first, BeginClaim(user), second, ClaimReturns, NextBlock(1));
    RewardedThenClaims(cfg, s, first, user);
    var s2 := Step(cfg, Step(cfg, s, first), BeginClaim(user));
    RewardedInsideClaim(cfg, s2, second, user, s2.claims[0].amount);
  }

  /** From deployment: an administrator who is not the Governance contract rewards the user twice. */
  lemma NestedGrantFromDeployment(cfg: Config, now: nat, user: Address, first: u256, second: u256)
    requires first > 0 && first + second <= U256_MAX
    requires cfg.rewardAdmin != cfg.governance && user != cfg.governance
    ensures var actions :=
        Nested(DoDistribute(cfg.rewardAdmin, user, first), user, DoDistribute(cfg.rewardAdmin, user, second));
      var r := Run(cfg, Genesis(cfg, now), actions).base.rewards;
      AllLegal(cfg, actions) && UnclaimedOf(Replay(r.events), user) == 0 && Get(r.rewards, user) == second
  {
    var a, b := DoDistribute(cfg.rewardAdmin, user, first), DoDistribute(cfg.rewardAdmin, user, second);
    RewardedThenClaims(cfg, Genesis(cfg, now), a, user);
    NestedRewardIsLost(cfg, Genesis(cfg, now), a, user, b);
  }

  /** From deployment with Governance as the administrator, hence as the first authorised distributor: the user proposes
      twice, the second time inside the own claim. */
  lemma NestedProposalFromDeployment(cfg: Config, now: nat, user: Address, balance: u256, description: nat)
    requires balance > 0 && now + cfg.votingPeriod <= U64_MAX
    requires cfg.rewardAdmin == cfg.governance && user != cfg.governance
    ensures var propose := DoPropose(user, balance, description);
      var actions := Nested(propose, user, propose);
      var r := Run(cfg, Genesis(cfg, now), actions).base.rewards;
      AllLegal(cfg, actions) && UnclaimedOf(Replay(r.events), user) == 0 && Get(r.rewards, user) == PROPOSAL_REWARD
  {
    var propose := DoPropose(user, balance, description);
    RewardedThenClaims(cfg, Genesis(cfg, now), propose, user);
    NestedRewardIsLost(cfg, Genesis(cfg, now), propose, user, propose);
  }
}
