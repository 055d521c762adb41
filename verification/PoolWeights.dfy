/**
 Rebalancing: what the write-then-validate loop of YieldEngine and the dispatch loop of
 StrategyRegistry leave behind, and when the pool weights add up to one hundred percent.
 */
module PoolWeights {
  import opened Base
  import opened Sums
  import opened VaultProtocol
  import opened VaultLedger

  function WeightSum(ws: seq<nat>): nat {
    if ws == [] then 0 else WeightSum(ws[..|ws| - 1]) + ws[|ws| - 1]
  }

  /** The stored weights of the pools `start`, ..., `end - 1`. */
  function StoredWeight(weights: map<PoolId, nat>, start: nat, end: nat): nat {
    if end <= start then 0 else StoredWeight(weights, start, end - 1) + Get<PoolId>(weights, end - 1)
  }

  // ----------------------------------------------------------- the weight loop

  /** The checked running total is the sum, and panics exactly when the sum leaves u256. */
  lemma {:induction false} CheckedTotalIsSum(ws: seq<nat>)
    ensures CheckedTotal(ws).Ok? <==> WeightSum(ws) <= U256_MAX
    ensures CheckedTotal(ws).Ok? ==> CheckedTotal(ws).value == WeightSum(ws)
  {
    if ws != [] { CheckedTotalIsSum(ws[..|ws| - 1]); }
  }

  /** A panic of the running total is final: the whole loop comes to the same panic. */
  lemma {:induction false} TotalOverflows(ws: seq<nat>, n: nat)
    requires n <= |ws| && CheckedTotal(ws[..n]).Revert?
    ensures CheckedTotal(ws) == CheckedTotal(ws[..n])
    decreases |ws|
  {
    if n == |ws| {
      assert ws[..n] == ws;
    } else {
      assert ws[..|ws| - 1][..n] == ws[..n];
      TotalOverflows(ws[..|ws| - 1], n);
    }
  }

  /** A rebalance is accepted exactly from governance and with weights that sum to 100000, which it records as the
      total. */
  lemma RebalanceAcceptedIff(w: Wiring, e: EngineStore, r: RegistryStore, caller: Address, ws: seq<nat>)
    requires Wired(w)
    ensures var next := Rebalance(w, e, r, caller, ws);
      && (next.Ok? <==> caller == w.engineGovernance && WeightSum(ws) == 100_000)
      && (next.Ok? ==> next.value.0.totalWeights == 100_000)
  {
    CheckedTotalIsSum(ws);
  }

  /** The loop writes weight i to pool i and leaves the other pools alone. */
  lemma {:induction false} WrittenWeight(weights: map<PoolId, nat>, ws: seq<nat>, p: PoolId)
    ensures Get<PoolId>(WriteWeights(weights, ws), p) == if p < |ws| then ws[p] else Get<PoolId>(weights, p)
  {
    if ws != [] { WrittenWeight(weights, ws[..|ws| - 1], p); }
  }

  lemma {:induction false} StoredWeightSplit(weights: map<PoolId, nat>, start: nat, mid: nat, end: nat)
    requires start <= mid <= end
    ensures StoredWeight(weights, start, end) == StoredWeight(weights, start, mid) + StoredWeight(weights, mid, end)
    decreases end
  {
    if mid < end { StoredWeightSplit(weights, start, mid, end - 1); }
  }

  /** The new weights, read back over the pools they were written to, are a prefix of the argument. */
  lemma {:induction false} StoredPrefix(weights: map<PoolId, nat>, ws: seq<nat>, n: nat)
    requires n <= |ws|
    ensures StoredWeight(WriteWeights(weights, ws), 0, n) == WeightSum(ws[..n])
  {
    if n > 0 {
      StoredPrefix(weights, ws, n - 1);
      WrittenWeight(weights, ws, n - 1);
      assert ws[..n][..n - 1] == ws[..n - 1];
    }
  }

  lemma {:induction false} StoredTail(weights: map<PoolId, nat>, ws: seq<nat>, start: nat, end: nat)
    requires |ws| <= start
    ensures StoredWeight(WriteWeights(weights, ws), start, end) == StoredWeight(weights, start, end)
    decreases end
  {
    if start < end {
      StoredTail(weights, ws, start, end - 1);
      WrittenWeight(weights, ws, end - 1);
    }
  }

  lemma {:induction false} StoredIsZeroIff(weights: map<PoolId, nat>, start: nat, end: nat)
    ensures StoredWeight(weights, start, end) == 0 <==> forall p :: start <= p < end ==> Get<PoolId>(weights, p) == 0
    decreases end
  {
    if start < end { StoredIsZeroIff(weights, start, end - 1); }
  }

  lemma {:induction false} PrefixIsSumIff(ws: seq<nat>, n: nat)
    requires n <= |ws|
    ensures WeightSum(ws[..n]) <= WeightSum(ws)
    ensures WeightSum(ws[..n]) == WeightSum(ws) <==> forall i :: n <= i < |ws| ==> ws[i] == 0
    decreases |ws|
  {
    if n == |ws| {
      assert ws[..n] == ws;
    } else {
      PrefixIsSumIff(ws[..|ws| - 1], n);
      assert ws[..|ws| - 1][..n] == ws[..n];
    }
  }

  /** The registered pools carry one hundred percent after an accepted rebalance exactly when no pool
      beyond the new weights kept an old one and no new weight went beyond the registered pools. */
  lemma RebalanceFillsIff(w: Wiring, e: EngineStore, r: RegistryStore, caller: Address, ws: seq<nat>, pools: nat)
    requires Wired(w) && Rebalance(w, e, r, caller, ws).Ok?
    ensures var e' := Rebalance(w, e, r, caller, ws).value.0;
      && e'.totalWeights == 100_000 == StoredWeight(e'.poolWeights, 0, |ws|)
      && (StoredWeight(e'.poolWeights, 0, pools) == 100_000
          <==> && (forall p :: |ws| <= p < pools ==> Get<PoolId>(e.poolWeights, p) == 0)
               && (forall i :: pools <= i < |ws| ==> ws[i] == 0))
  {
    RebalanceAcceptedIff(w, e, r, caller, ws);
    CheckedTotalIsSum(ws);
    StoredPrefix(e.poolWeights, ws, |ws|);
    assert ws[..|ws|] == ws;
    if |ws| <= pools {
      StoredWeightSplit(WriteWeights(e.poolWeights, ws), 0, |ws|, pools);
      StoredTail(e.poolWeights, ws, |ws|, pools);
      StoredIsZeroIff(e.poolWeights, |ws|, pools);
    } else {
      StoredPrefix(e.poolWeights, ws, pools);
      PrefixIsSumIff(ws, pools);
    }
  }

  lemma RunOfFour(w: Wiring, s: System, a: Action, b: Action, c: Action, d: Action)
    ensures Run(w, s, [a, b, c, d]) == Step(w, Step(w, Step(w, Step(w, s, a), b), c), d)
  {
    var s1 := Step(w, s, a);
    var s2 := Step(w, s1, b);
    var s3 := Step(w, s2, c);
    assert [a, b, c, d][1..] == [b, c, d] && [b, c, d][1..] == [c, d] && [c, d][1..] == [d] && [d][1..] == [];
    assert Run(w, s3, [d]) == Step(w, s3, d);
    assert Run(w, s2, [c, d]) == Run(w, s3, [d]);
    assert Run(w, s1, [b, c, d]) == Run(w, s2, [c, d]);
  }

  /** An accepted rebalance of the first of two pools adds to what the second one has. */
  lemma ShortRebalance(w: Wiring, e: EngineStore, r: RegistryStore, share: nat)
    requires Wired(w) && share <= 100_000
    ensures var ws := [share, 100_000 - share];
      var full := Rebalance(w, e, r, w.engineGovernance, ws);
      && full.Ok? && full.value.1.poolCount == r.poolCount
      && var short := Rebalance(w, full.value.0, full.value.1, w.engineGovernance, [100_000]);
         short.Ok? && short.value.1.poolCount == r.poolCount
         && StoredWeight(short.value.0.poolWeights, 0, 2) == 100_000 + (100_000 - share)
  {
    var ws, one := [share, 100_000 - share], [100_000];
    assert ws[..1] == [share] && [share][..0] == [] && one[..0] == [];
    assert WeightSum(ws) == WeightSum([share]) + (100_000 - share) && WeightSum([share]) == WeightSum([]) + share;
    assert WeightSum(one) == WeightSum([]) + 100_000;
    RebalanceAcceptedIff(w, e, r, w.engineGovernance, ws);
    var (e', r') := Rebalance(w, e, r, w.engineGovernance, ws).value;
    WrittenWeight(e.poolWeights, ws, 1);
    RebalanceAcceptedIff(w, e', r', w.engineGovernance, one);
    var weights := Rebalance(w, e', r', w.engineGovernance, one).value.0.poolWeights;
    WrittenWeight(e'.poolWeights, one, 0);
    WrittenWeight(e'.poolWeights, one, 1);
    assert StoredWeight(weights, 0, 1) == StoredWeight(weights, 0, 0) + Get<PoolId>(weights, 0);
  }

  lemma TwoPoolsAdded(w: Wiring, s: System, first: Pool, second: Pool)
    requires Wired(w)
    requires first.token != ZERO && first.strategy != ZERO && second.token != ZERO && second.strategy != ZERO
    ensures var s1 := Step(w, s, RegistryAddPool(w.registryGovernance, first));
      var s2 := Step(w, s1, RegistryAddPool(w.registryGovernance, second));
      s2.chain.engine == s.chain.engine && s2.chain.registry.poolCount == s.chain.registry.poolCount + 2
  {
  }

  /** From deployment: two pools are added and get their weights, and a rebalance that names only the first one is
      accepted and leaves the registered pools above one hundred percent by all that the second one had. */
  lemma ShortRebalanceOverfills(w: Wiring, now: nat, first: Pool, second: Pool, share: nat)
    requires Wired(w) && External(w, w.registryGovernance) && External(w, w.engineGovernance) && share <= 100_000
    requires first.token != ZERO && first.strategy != ZERO && second.token != ZERO && second.strategy != ZERO
    ensures var actions := [RegistryAddPool(w.registryGovernance, first), RegistryAddPool(w.registryGovernance, second),
                            EngineRebalance(w.engineGovernance, [share, 100_000 - share]),
                            EngineRebalance(w.engineGovernance, [100_000])];
      var c := Run(w, Genesis(now), actions).chain;
      && AllLegal(w, actions) && c.registry.poolCount == 2
      && StoredWeight(c.engine.poolWeights, 0, c.registry.poolCount) == 100_000 + (100_000 - share)
  {
    var a, b := RegistryAddPool(w.registryGovernance, first), RegistryAddPool(w.registryGovernance, second);
    var full := EngineRebalance(w.engineGovernance, [share, 100_000 - share]);
    RunOfFour(w, Genesis(now), a, b, full, EngineRebalance(w.engineGovernance, [100_000]));
    TwoPoolsAdded(w, Genesis(now), first, second);
    var s2 := Step(w, Step(w, Genesis(now), a), b);
    ShortRebalance(w, s2.chain.engine, s2.chain.registry, share);
  }

  // -------------------------------------------------------- weights over runs

  /** The registered pools carry exactly the recorded total, and nothing waits beyond them. */
  ghost predicate Full(c: Chain) {
    && StoredWeight(c.engine.poolWeights, 0, c.registry.poolCount) == c.engine.totalWeights
    && forall p: PoolId :: p >= c.registry.poolCount ==> Get<PoolId>(c.engine.poolWeights, p) == 0
  }

  /** Every rebalance of the run names each registered pool, as the HTTP controller demands. */
  ghost predicate NamesEveryPool(w: Wiring, s: System, actions: seq<Action>)
    decreases |actions|
  {
    actions == [] ||
    (&& (actions[0].EngineRebalance? ==> |actions[0].weights| == s.chain.registry.poolCount)
     && NamesEveryPool(w, Step(w, s, actions[0]), actions[1..]))
  }

  lemma StepKeepsFull(w: Wiring, s: System, a: Action)
    requires Wired(w) && Legal(w, a) && Full(s.chain)
    requires a.EngineRebalance? ==> |a.weights| == s.chain.registry.poolCount
    ensures var r := Effect(w, s, a);
      r.Ok? ==>
        && Full(r.value.chain)
        && (r.value.chain.engine.totalWeights == s.chain.engine.totalWeights
             || r.value.chain.engine.totalWeights == 100_000)
  {
    var r := Effect(w, s, a);
    if r.Ok? {
      var e, e' := s.chain.engine, r.value.chain.engine;
      if a.EngineRebalance? {
        RebalanceFillsIff(w, e, s.chain.registry, a.caller, a.weights, s.chain.registry.poolCount);
        forall p: PoolId | p >= s.chain.registry.poolCount ensures Get<PoolId>(e'.poolWeights, p) == 0 {
          WrittenWeight(e.poolWeights, a.weights, p);
        }
      } else {
        var n := s.chain.registry.poolCount;
        assert e' == e && n <= r.value.chain.registry.poolCount <= n + 1;
        assert Get<PoolId>(e.poolWeights, n) == 0;
        assert StoredWeight(e.poolWeights, 0, n + 1) == StoredWeight(e.poolWeights, 0, n);
        assert StoredWeight(e'.poolWeights, 0, r.value.chain.registry.poolCount) == e'.totalWeights;
      }
    }
  }

  /** With one weight per registered pool in every rebalance, the registered pools always carry the recorded
      total; once that is one hundred percent it stays so, whatever pools are added later. */
  lemma {:induction false} WeightsStayFull(w: Wiring, s: System, actions: seq<Action>)
    requires Wired(w) && AllLegal(w, actions) && NamesEveryPool(w, s, actions)
    requires Full(s.chain) && Full(s.base)
    ensures var s' := Run(w, s, actions);
      && Full(s'.chain) && Full(s'.base)
      && (s.chain.engine.totalWeights == 100_000 && s.base.engine.totalWeights == 100_000 ==>
            StoredWeight(s'.chain.engine.poolWeights, 0, s'.chain.registry.poolCount) == 100_000
            == s'.base.engine.totalWeights)
    decreases |actions|
  {
    if actions != [] {
      StepKeepsFull(w, s, actions[0]);
      WeightsStayFull(w, Step(w, s, actions[0]), actions[1..]);
    }
  }

  // ------------------------------------------------------------- the dispatch

  function DispatchedWeight(calls: seq<StrategyCall>): nat {
    if calls == [] then 0 else DispatchedWeight(calls[..|calls| - 1]) + calls[|calls| - 1].weight
  }

  /** The weight that was given to pools that are switched off or do not exist. */
  function IdleWeight(r: RegistryStore, ws: seq<nat>): nat {
    if ws == [] then 0
    else IdleWeight(r, ws[..|ws| - 1]) + if PoolAt(r, |ws| - 1).active then 0 else ws[|ws| - 1]
  }

  /** The call runs the strategy of an active pool below |ws|, with the pool's own weight. */
  predicate RunsItsPool(r: RegistryStore, ws: seq<nat>, call: StrategyCall) {
    && call.pool < |ws| && PoolAt(r, call.pool).active
    && call.strategy == PoolAt(r, call.pool).strategy && call.weight == ws[call.pool]
  }

  /** The pool's strategy is among the calls. */
  predicate IsRun(calls: seq<StrategyCall>, p: PoolId) {
    exists j :: 0 <= j < |calls| && calls[j].pool == p
  }

  predicate InIndexOrder(calls: seq<StrategyCall>) {
    forall i, j :: 0 <= i < j < |calls| ==> calls[i].pool < calls[j].pool
  }

  lemma DispatchStep(r: RegistryStore, ws: seq<nat>)
    requires ws != []
    ensures var i := |ws| - 1;
      Dispatch(r, ws) == Dispatch(r, ws[..i]) +
        if PoolAt(r, i).active then [StrategyCall(i, PoolAt(r, i).strategy, ws[i])] else []
  {
  }

  lemma AppendCall(r: RegistryStore, ws: seq<nat>, before: seq<StrategyCall>, more: seq<StrategyCall>)
    requires ws != [] && |more| <= 1
    requires forall j :: 0 <= j < |before| ==> RunsItsPool(r, ws[..|ws| - 1], before[j])
    requires InIndexOrder(before)
    requires more != [] ==> more[0].pool == |ws| - 1 && RunsItsPool(r, ws, more[0])
    ensures forall j :: 0 <= j < |before + more| ==> RunsItsPool(r, ws, (before + more)[j])
    ensures InIndexOrder(before + more)
    ensures forall p: PoolId :: IsRun(before, p) ==> IsRun(before + more, p)
    ensures more != [] ==> IsRun(before + more, |ws| - 1)
  {
    var calls := before + more;
    forall j | 0 <= j < |calls| ensures RunsItsPool(r, ws, calls[j]) && (j < |before| ==> calls[j].pool < |ws| - 1) {
      if j < |before| { assert RunsItsPool(r, ws[..|ws| - 1], before[j]); }
    }
    forall p: PoolId | IsRun(before, p) ensures IsRun(calls, p) {
      var j :| 0 <= j < |before| && before[j].pool == p;
      assert calls[j].pool == p;
    }
    if more != [] { assert calls[|before|].pool == |ws| - 1; }
  }

  /** Exactly the active pools' strategies run, once each, in index order, each with its own weight. */
  lemma {:induction false} DispatchRunsActivePools(r: RegistryStore, ws: seq<nat>)
    ensures forall j :: 0 <= j < |Dispatch(r, ws)| ==> RunsItsPool(r, ws, Dispatch(r, ws)[j])
    ensures InIndexOrder(Dispatch(r, ws))
    ensures forall p: PoolId :: p < |ws| && PoolAt(r, p).active ==> IsRun(Dispatch(r, ws), p)
  {
    if ws != [] {
      var i := |ws| - 1;
      DispatchRunsActivePools(r, ws[..i]);
      DispatchStep(r, ws);
      AppendCall(r, ws, Dispatch(r, ws[..i]),
                 if PoolAt(r, i).active then [StrategyCall(i, PoolAt(r, i).strategy, ws[i])] else []);
    }
  }

  lemma {:induction false} DispatchedPlusIdle(r: RegistryStore, ws: seq<nat>)
    ensures DispatchedWeight(Dispatch(r, ws)) + IdleWeight(r, ws) == WeightSum(ws)
  {
    if ws != [] {
      var i := |ws| - 1;
      DispatchedPlusIdle(r, ws[..i]);
      var before, calls := Dispatch(r, ws[..i]), Dispatch(r, ws);
      if PoolAt(r, i).active { assert calls[..|calls| - 1] == before; } else { assert calls == before; }
    }
  }

  /** An accepted rebalance appends one dispatch, whose weight is one hundred percent less what idle pools were
      given. */
  lemma RebalanceDispatches(w: Wiring, e: EngineStore, r: RegistryStore, caller: Address, ws: seq<nat>)
    requires Wired(w) && Rebalance(w, e, r, caller, ws).Ok?
    ensures var r' := Rebalance(w, e, r, caller, ws).value.1;
      && r'.executed == r.executed + Dispatch(r, ws)
      && DispatchedWeight(Dispatch(r, ws)) == 100_000 - IdleWeight(r, ws)
      && r'.pools == r.pools && r'.poolCount == r.poolCount
  {
    RebalanceAcceptedIff(w, e, r, caller, ws);
    DispatchedPlusIdle(r, ws);
  }
}
