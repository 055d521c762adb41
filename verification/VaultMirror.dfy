/**
 The backend's copy of the vault: event handlers that fold the Deposit/Withdrawal log into
 database rows. Replaying the log of any run gives the ledger the chain ended with.
 */
module VaultMirror {
  import opened Base
  import opened Sums
  import opened VaultProtocol
  import opened VaultLedger
  import S = VaultSafety

  // ------------------------------------------------- what the log says by itself

  function Change(e: VaultEvent): int {
    if e.Deposit? then e.amount else -(e.amount as int)
  }

  function NetUser(events: seq<VaultEvent>, u: Address, p: PoolId): int {
    if events == [] then 0
    else
      var e := events[|events| - 1];
      NetUser(events[..|events| - 1], u, p) +
      if e.user == u && e.pool == p then Change(e) else 0
  }

  function NetPool(events: seq<VaultEvent>, p: PoolId): int {
    if events == [] then 0
    else
      var e := events[|events| - 1];
      NetPool(events[..|events| - 1], p) +
      if e.pool == p then Change(e) else 0
  }

  /** Withdrawals that are debited but whose event is still to come, because the token has not returned. */
  function UnloggedUser(frames: seq<Frame>, u: Address, p: PoolId): nat {
    if frames == [] then 0
    else
      var f := frames[|frames| - 1];
      UnloggedUser(frames[..|frames| - 1], u, p) +
      if f.direction == Out && f.user == u && f.pool == p then f.amount else 0
  }

  function UnloggedPool(frames: seq<Frame>, p: PoolId): nat {
    if frames == [] then 0
    else
      var f := frames[|frames| - 1];
      UnloggedPool(frames[..|frames| - 1], p) + if f.direction == Out && f.pool == p then f.amount else 0
  }

  /** Every withdrawal in the log is covered by what the log says the user had before it. */
  ghost predicate Covered(events: seq<VaultEvent>) {
    forall i :: 0 <= i < |events| && events[i].Withdrawal? ==>
      events[i].amount <= NetUser(events[..i], events[i].user, events[i].pool)
  }

  ghost predicate LogMatches(c: Chain, frames: seq<Frame>) {
    && (forall u: Address, p: PoolId ::
          NetUser(c.vault.events, u, p) == Get(c.vault.balances, (u, p)) + UnloggedUser(frames, u, p))
    && (forall p: PoolId :: NetPool(c.vault.events, p) == Supply(c.vault, p) + UnloggedPool(frames, p))
    && Covered(c.vault.events)
  }

  lemma CoveredAppend(events: seq<VaultEvent>, e: VaultEvent)
    requires Covered(events)
    requires e.Withdrawal? ==> e.amount <= NetUser(events, e.user, e.pool)
    ensures Covered(events + [e])
  {
    var all := events + [e];
    forall i | 0 <= i < |all| && all[i].Withdrawal?
      ensures all[i].amount <= NetUser(all[..i], all[i].user, all[i].pool)
    {
      if i < |events| { assert all[..i] == events[..i]; } else { assert all[..i] == events; }
    }
  }

  lemma NetAppend(events: seq<VaultEvent>, e: VaultEvent, u: Address, p: PoolId)
    ensures NetUser(events + [e], u, p) == NetUser(events, u, p) + if e.user == u && e.pool == p then Change(e) else 0
    ensures NetPool(events + [e], p) == NetPool(events, p) + if e.pool == p then Change(e) else 0
  {
    assert (events + [e])[..|events|] == events;
  }

  lemma ReturnKeepsUser(w: Wiring, s: System, s': System, e: VaultEvent, u: Address, p: PoolId)
    requires ReturnTop(w, s) == Ok(s') && s' != s && s'.chain.vault.events == s.chain.vault.events + [e]
    requires NetUser(s.chain.vault.events, u, p) == Get(s.chain.vault.balances, (u, p)) + UnloggedUser(s.frames, u, p)
    ensures NetUser(s'.chain.vault.events, u, p) == Get(s'.chain.vault.balances, (u, p)) + UnloggedUser(s'.frames, u, p)
  {
    NetAppend(s.chain.vault.events, e, u, p);
    assert s'.chain.vault.events[|s.chain.vault.events|] == e;
  }

  lemma ReturnKeepsPool(w: Wiring, s: System, s': System, e: VaultEvent, p: PoolId)
    requires ReturnTop(w, s) == Ok(s') && s' != s && s'.chain.vault.events == s.chain.vault.events + [e]
    requires NetPool(s.chain.vault.events, p) == Supply(s.chain.vault, p) + UnloggedPool(s.frames, p)
    ensures NetPool(s'.chain.vault.events, p) == Supply(s'.chain.vault, p) + UnloggedPool(s'.frames, p)
  {
    NetAppend(s.chain.vault.events, e, 0, p);
    assert s'.chain.vault.events[|s.chain.vault.events|] == e;
  }

  lemma ReturnKeepsLog(w: Wiring, s: System)
    requires LogMatches(s.chain, s.frames)
    ensures var r := ReturnTop(w, s); r.Ok? ==> LogMatches(r.value.chain, r.value.frames)
  {
    var r := ReturnTop(w, s);
    if r.Ok? && r.value != s {
      var n := |s.frames| - 1;
      var f := s.frames[n];
      var e := if f.direction == In then Deposit(f.user, f.pool, f.amount) else Withdrawal(f.user, f.pool, f.amount);
      assert NetUser(s.chain.vault.events, f.user, f.pool)
          == Get(s.chain.vault.balances, (f.user, f.pool)) + UnloggedUser(s.frames, f.user, f.pool);
      CoveredAppend(s.chain.vault.events, e);
      assert r.value.chain.vault.events == s.chain.vault.events + [e];
      forall u: Address, p: PoolId
        ensures NetUser(r.value.chain.vault.events, u, p)
             == Get(r.value.chain.vault.balances, (u, p)) + UnloggedUser(r.value.frames, u, p)
      {
        ReturnKeepsUser(w, s, r.value, e, u, p);
      }
      forall p: PoolId
        ensures NetPool(r.value.chain.vault.events, p) ==
          Supply(r.value.chain.vault, p) + UnloggedPool(r.value.frames, p)
      {
        ReturnKeepsPool(w, s, r.value, e, p);
      }
    }
  }

  lemma BeginKeepsLog(w: Wiring, s: System, a: Action)
    requires LogMatches(s.chain, s.frames) && (a.BeginDeposit? || a.BeginWithdraw?)
    ensures var r := Effect(w, s, a); r.Ok? ==> LogMatches(r.value.chain, r.value.frames)
  {
    var r := Effect(w, s, a);
    if r.Ok? {
      assert r.value.frames[..|r.value.frames| - 1] == s.frames;
    }
  }

  lemma MoveKeepsLog(w: Wiring, s: System)
    requires LogMatches(s.chain, s.frames)
    ensures var r := MoveTop(w, s); r.Ok? ==> LogMatches(r.value.chain, r.value.frames)
  {
    var r := MoveTop(w, s);
    if r.Ok? && r.value != s {
      var n := |s.frames| - 1;
      assert r.value.frames[..n] == s.frames[..n];
    }
  }

  /** The other actions touch neither shares nor the log. */
  lemma OthersKeepLog(w: Wiring, s: System, a: Action)
    requires !a.BeginDeposit? && !a.BeginWithdraw? && !a.MoveTokens? && !a.TokenReturns?
    ensures var r := Effect(w, s, a);
      r.Ok? ==>
        && r.value.frames == s.frames
        && r.value.chain.vault.(poolTokens := s.chain.vault.poolTokens) == s.chain.vault
  {
    if !a.DirectVaultAddPool? && !a.RegistryAddPool? { S.EffectKeepsVault(w, s, a); }
  }

  lemma EffectKeepsLog(w: Wiring, s: System, a: Action)
    requires LogMatches(s.chain, s.frames)
    ensures var r := Effect(w, s, a); r.Ok? ==> LogMatches(r.value.chain, r.value.frames)
  {
    match a
    case BeginDeposit(_, _, _) => BeginKeepsLog(w, s, a);
    case BeginWithdraw(_, _, _) => BeginKeepsLog(w, s, a);
    case MoveTokens => MoveKeepsLog(w, s);
    case TokenReturns => ReturnKeepsLog(w, s);
    case _ => OthersKeepLog(w, s, a);
  }

  lemma StepKeepsLog(w: Wiring, s: System, a: Action)
    requires LogMatches(s.chain, s.frames) && LogMatches(s.base, [])
    ensures LogMatches(Step(w, s, a).chain, Step(w, s, a).frames) && LogMatches(Step(w, s, a).base, [])
  {
    EffectKeepsLog(w, s, a);
    var r := Effect(w, s, a);
    assert r.Ok? ==> r.value.base == s.base || (r.value.base == s.chain && s.frames == []);
  }

  /** The log of every run accounts for every share and every supply. */
  lemma {:induction false} RunKeepsLog(w: Wiring, s: System, actions: seq<Action>)
    requires LogMatches(s.chain, s.frames) && LogMatches(s.base, [])
    ensures var s' := Run(w, s, actions); LogMatches(s'.chain, s'.frames) && LogMatches(s'.base, [])
    decreases |actions|
  {
    if actions != [] {
      StepKeepsLog(w, s, actions[0]);
      RunKeepsLog(w, Step(w, s, actions[0]), actions[1..]);
    }
  }

  // ------------------------------------------------------------- the database

  /** Rows are keyed by the text of a pool's id, which for an event is what its `toString` spells. */
  type Text = string

  ghost predicate Injective(spell: PoolId -> Text) {
    forall p, q :: spell(p) == spell(q) ==> p == q
  }

  datatype PoolRow = PoolRow(token: Address, totalSupply: int)

  datatype Db = Db(balances: map<(Text, Address), int>, pools: map<Text, PoolRow>)

  const EMPTY_DB := Db(map[], map[])

  /** Who asks for a pool row: the PoolAdded handler, `addPool` once its transaction went through, or the seed script.
      Each of them creates the row unless it exists. */
  datatype Creator = PoolAddedHandler | AddPoolRequest | SeedScript

  /** What the backend processes, one after another. */
  datatype FeedItem = Emitted(event: VaultEvent) | RowWanted(id: Text, token: Address, creator: Creator)

  function HandleDeposit(db: Db, u: Address, id: Text, amount: nat): Db {
    var balances :=
      if (id, u) in db.balances then db.balances[(id, u) := db.balances[(id, u)] + amount]
      else db.balances[(id, u) := amount];
    Db(balances,
       if id in db.pools
       then db.pools[id := db.pools[id].(totalSupply := db.pools[id].totalSupply + amount)]
       else db.pools)
  }

  function HandleWithdrawal(db: Db, u: Address, id: Text, amount: nat): Db {
    var balances :=
      if (id, u) in db.balances then db.balances[(id, u) := db.balances[(id, u)] - amount]
      else db.balances;
    Db(balances,
       if id in db.pools
       then db.pools[id := db.pools[id].(totalSupply := db.pools[id].totalSupply - amount)]
       else db.pools)
  }

  function CreateRow(db: Db, id: Text, token: Address): Db {
    if id in db.pools then db else db.(pools := db.pools[id := PoolRow(token, 0)])
  }

  function Handle(spell: PoolId -> Text, db: Db, item: FeedItem): Db {
    match item
    case Emitted(Deposit(u, p, amount)) => HandleDeposit(db, u, spell(p), amount)
    case Emitted(Withdrawal(u, p, amount)) => HandleWithdrawal(db, u, spell(p), amount)
    case RowWanted(id, token, _) => CreateRow(db, id, token)
  }

  function Replay(spell: PoolId -> Text, feed: seq<FeedItem>): Db {
    if feed == [] then EMPTY_DB else Handle(spell, Replay(spell, feed[..|feed| - 1]), feed[|feed| - 1])
  }

  function EventsOf(feed: seq<FeedItem>): seq<VaultEvent> {
    if feed == [] then []
    else
      var last := feed[|feed| - 1];
      EventsOf(feed[..|feed| - 1]) + if last.Emitted? then [last.event] else []
  }

  function BalanceIn(db: Db, u: Address, id: Text): int {
    if (id, u) in db.balances then db.balances[(id, u)] else 0
  }

  predicate Wanted(feed: seq<FeedItem>, id: Text) {
    exists i :: 0 <= i < |feed| && feed[i].RowWanted? && feed[i].id == id
  }

  /** The net of the pool's events that came before its row was first wanted. */
  function Missed(spell: PoolId -> Text, feed: seq<FeedItem>, p: PoolId): int {
    if feed == [] then 0
    else if Wanted(feed[..|feed| - 1], spell(p)) then Missed(spell, feed[..|feed| - 1], p)
    else NetPool(EventsOf(feed), p)
  }

  predicate DepositBy(item: FeedItem, u: Address, p: PoolId) {
    item.Emitted? && item.event.Deposit? && item.event.user == u && item.event.pool == p
  }

  predicate Deposited(feed: seq<FeedItem>, u: Address, p: PoolId) {
    exists i :: 0 <= i < |feed| && DepositBy(feed[i], u, p)
  }

  /** The service whose handlers read, change and save the rows. */
  class VaultManagerService {
    const spell: PoolId -> Text
    var balanceRows: map<(Text, Address), int>
    var poolRows: map<Text, PoolRow>

    constructor (spell: PoolId -> Text)
      ensures this.spell == spell && Rows() == EMPTY_DB
    {
      this.spell := spell;
      balanceRows, poolRows := map[], map[];
    }

    ghost function Rows(): Db
      reads this
    {
      Db(balanceRows, poolRows)
    }

    method OnDeposit(u: Address, p: PoolId, amount: nat)
      modifies this
      ensures Rows() == Handle(spell, old(Rows()), Emitted(Deposit(u, p, amount)))
    {
      var id := spell(p);
      if (id, u) in balanceRows {
        var balance := balanceRows[(id, u)];
        balance := balance + amount;
        balanceRows := balanceRows[(id, u) := balance];
      } else {
        balanceRows := balanceRows[(id, u) := amount];
      }
      if id in poolRows {
        var pool := poolRows[id];
        pool := pool.(totalSupply := pool.totalSupply + amount);
        poolRows := poolRows[id := pool];
      }
    }

    method OnWithdrawal(u: Address, p: PoolId, amount: nat)
      modifies this
      ensures Rows() == Handle(spell, old(Rows()), Emitted(Withdrawal(u, p, amount)))
    {
      var id := spell(p);
      if (id, u) in balanceRows {
        var balance := balanceRows[(id, u)];
        balance := balance - amount;
        balanceRows := balanceRows[(id, u) := balance];
      }
      if id in poolRows {
        var pool := poolRows[id];
        pool := pool.(totalSupply := pool.totalSupply - amount);
        poolRows := poolRows[id := pool];
      }
    }

    method OnPoolAdded(p: PoolId, token: Address)
      modifies this
      ensures Rows() == Handle(spell, old(Rows()), RowWanted(spell(p), token, PoolAddedHandler))
    {
      var id := spell(p);
      if id !in poolRows {
        poolRows := poolRows[id := PoolRow(token, 0)];
      }
    }

    /** `accepted` is whether the vault accepted the transaction that is sent first; otherwise it throws. The id is
        the text of the request. */
    method AddPool(id: Text, token: Address, accepted: bool) returns (created: bool)
      modifies this
      ensures Rows() == if accepted then Handle(spell, old(Rows()), RowWanted(id, token, AddPoolRequest))
                        else old(Rows())
      ensures created ==> accepted
    {
      if !accepted { return false; }
      created := id !in poolRows;
      if created {
        poolRows := poolRows[id := PoolRow(token, 0)];
      }
    }
  }

  // ------------------------------------------------------------- the refinement

  lemma CoveredPrefix(events: seq<VaultEvent>, n: nat)
    requires Covered(events) && n <= |events|
    ensures Covered(events[..n])
  {
    forall i | 0 <= i < n ensures events[..n][..i] == events[..i] {}
  }

  /** A balance row exists exactly for those who deposited, and holds what the log says they have. */
  lemma {:induction false} RowsHoldNetBalances(spell: PoolId -> Text, feed: seq<FeedItem>, u: Address, p: PoolId)
    requires Injective(spell) && Covered(EventsOf(feed))
    ensures (spell(p), u) in Replay(spell, feed).balances <==> Deposited(feed, u, p)
    ensures BalanceIn(Replay(spell, feed), u, spell(p)) == NetUser(EventsOf(feed), u, p)
  {
    if feed != [] {
      var n := |feed| - 1;
      var before, last := EventsOf(feed[..n]), feed[n];
      if last.Emitted? {
        assert EventsOf(feed) == before + [last.event];
        assert (before + [last.event])[..|before|] == before;
        CoveredPrefix(EventsOf(feed), |before|);
        RowsHoldNetBalances(spell, feed[..n], u, p);
        NetAppend(before, last.event, u, p);
        if last.event.Withdrawal? { assert EventsOf(feed)[|before|] == last.event; }
      } else {
        assert EventsOf(feed) == before;
        RowsHoldNetBalances(spell, feed[..n], u, p);
      }
      DepositedStep(feed, u, p);
    }
  }

  lemma DepositedStep(feed: seq<FeedItem>, u: Address, p: PoolId)
    requires feed != []
    ensures var last := feed[|feed| - 1];
      Deposited(feed, u, p) <==>
      Deposited(feed[..|feed| - 1], u, p) || DepositBy(last, u, p)
  {
    var n := |feed| - 1;
    if Deposited(feed[..n], u, p) {
      var i :| 0 <= i < n && DepositBy(feed[..n][i], u, p);
      assert DepositBy(feed[i], u, p);
    }
  }

  /** A pool row exists exactly once wanted, and its total is the net of the pool's events less what it missed. */
  lemma {:induction false} PoolRowHoldsNetSupply(spell: PoolId -> Text, feed: seq<FeedItem>, p: PoolId)
    requires Injective(spell)
    ensures spell(p) in Replay(spell, feed).pools <==> Wanted(feed, spell(p))
    ensures spell(p) in Replay(spell, feed).pools ==>
      Replay(spell, feed).pools[spell(p)].totalSupply + Missed(spell, feed, p) == NetPool(EventsOf(feed), p)
  {
    if feed != [] {
      var n := |feed| - 1;
      PoolRowHoldsNetSupply(spell, feed[..n], p);
      var before, last := EventsOf(feed[..n]), feed[n];
      if last.Emitted? { NetAppend(before, last.event, 0, p); } else { assert EventsOf(feed) == before; }
      if Wanted(feed[..n], spell(p)) {
        var i :| 0 <= i < n && feed[..n][i].RowWanted? && feed[..n][i].id == spell(p);
        assert feed[i].RowWanted?;
      }
    }
  }

  /** A pool row keeps the token it was first wanted with. */
  lemma {:induction false} RowKeepsFirstToken(spell: PoolId -> Text, feed: seq<FeedItem>, n: nat)
    requires n < |feed| && feed[n].RowWanted? && !Wanted(feed[..n], feed[n].id) && Injective(spell)
    ensures feed[n].id in Replay(spell, feed).pools && Replay(spell, feed).pools[feed[n].id].token == feed[n].token
  {
    var k := |feed| - 1;
    if n < k {
      assert feed[..k][..n] == feed[..n];
      RowKeepsFirstToken(spell, feed[..k], n);
    } else {
      RowMeansWanted(spell, feed[..k], feed[n].id);
    }
  }

  lemma {:induction false} RowMeansWanted(spell: PoolId -> Text, feed: seq<FeedItem>, id: Text)
    ensures id in Replay(spell, feed).pools <==> Wanted(feed, id)
  {
    if feed != [] {
      var k := |feed| - 1;
      RowMeansWanted(spell, feed[..k], id);
      if Wanted(feed[..k], id) {
        var i :| 0 <= i < k && feed[..k][i].RowWanted? && feed[..k][i].id == id;
        assert feed[i].RowWanted?;
      }
    }
  }

  /** The database that has processed the committed log agrees with the chain: every balance, and every pool's
      total but for what came before the pool's row. In particular a total is right exactly if that net was nothing. */
  lemma MirrorRefinesChain(w: Wiring, now: nat, actions: seq<Action>, spell: PoolId -> Text, feed: seq<FeedItem>,
                           u: Address, p: PoolId)
    requires Injective(spell) && EventsOf(feed) == Run(w, Genesis(now), actions).base.vault.events
    ensures var v := Run(w, Genesis(now), actions).base.vault;
      && BalanceIn(Replay(spell, feed), u, spell(p)) == Get(v.balances, (u, p))
      && (Wanted(feed, spell(p)) ==>
            && spell(p) in Replay(spell, feed).pools
            && Replay(spell, feed).pools[spell(p)].totalSupply == Supply(v, p) - Missed(spell, feed, p)
            && (Replay(spell, feed).pools[spell(p)].totalSupply == Supply(v, p) <==> Missed(spell, feed, p) == 0))
  {
    RunKeepsLog(w, Genesis(now), actions);
    RowsHoldNetBalances(spell, feed, u, p);
    PoolRowHoldsNetSupply(spell, feed, p);
  }

  /** Inside a transaction the log lags behind the chain by the withdrawals whose token has not returned. */
  lemma MirrorLagsInsideTransaction(w: Wiring, now: nat, actions: seq<Action>, spell: PoolId -> Text,
                                    feed: seq<FeedItem>, u: Address, p: PoolId)
    requires Injective(spell) && EventsOf(feed) == Run(w, Genesis(now), actions).chain.vault.events
    ensures var s := Run(w, Genesis(now), actions);
      BalanceIn(Replay(spell, feed), u, spell(p)) == Get(s.chain.vault.balances, (u, p)) + UnloggedUser(s.frames, u, p)
  {
    RunKeepsLog(w, Genesis(now), actions);
    RowsHoldNetBalances(spell, feed, u, p);
  }

  /** A pool whose row was wanted before any of its events misses nothing. */
  lemma {:induction false} RowInTimeMissesNothing(spell: PoolId -> Text, feed: seq<FeedItem>, p: PoolId, n: nat)
    requires n < |feed| && feed[n].RowWanted? && feed[n].id == spell(p)
    requires forall i :: 0 <= i < n && feed[i].Emitted? ==> feed[i].event.pool != p
    ensures Missed(spell, feed, p) == 0
  {
    if Wanted(feed[..|feed| - 1], spell(p)) {
      if n == |feed| - 1 {
        var i :| 0 <= i < n && feed[..n][i].RowWanted? && feed[..n][i].id == spell(p);
        RowInTimeMissesNothing(spell, feed[..n], p, i);
      } else {
        RowInTimeMissesNothing(spell, feed[..|feed| - 1], p, n);
      }
    } else {
      NoEventsNetNothing(feed, p);
    }
  }

  lemma {:induction false} NoEventsNetNothing(feed: seq<FeedItem>, p: PoolId)
    requires forall i :: 0 <= i < |feed| && feed[i].Emitted? ==> feed[i].event.pool != p
    ensures NetPool(EventsOf(feed), p) == 0
  {
    if feed != [] {
      var n := |feed| - 1;
      NoEventsNetNothing(feed[..n], p);
      if feed[n].Emitted? {
        NetAppend(EventsOf(feed[..n]), feed[n].event, 0, p);
      } else {
        assert EventsOf(feed) == EventsOf(feed[..n]);
      }
    }
  }

  // ------------------------------------------------------ who creates the rows

  /** The pool ids of the seed script, letter by letter. */
  const SEEDED: set<Text> := {"0x01", "0x02", "0x03"}

  /** The vault accepted such a call of its `add_pool` from an account at some point of the run. */
  ghost predicate Accepted(w: Wiring, s: System, actions: seq<Action>, p: PoolId, token: Address)
    decreases |actions|
  {
    actions != [] &&
    (|| (&& actions[0].DirectVaultAddPool? && actions[0].pool == p && actions[0].token == token
         && Effect(w, s, actions[0]).Ok?)
     || Accepted(w, Step(w, s, actions[0]), actions[1..], p, token))
  }

  /** Each item has a cause: an emitted event of the vault, a transaction that the vault accepted for some pool, or the
      seed script. The vault declares two events, and the PoolAdded handler listens to neither. */
  ghost predicate Caused(w: Wiring, s: System, actions: seq<Action>, item: FeedItem) {
    match item
    case Emitted(_) => true
    case RowWanted(_, _, PoolAddedHandler) =>
      exists e :: e in Run(w, s, actions).base.vault.events && !e.Deposit? && !e.Withdrawal?
    case RowWanted(_, token, AddPoolRequest) => exists p: PoolId :: Accepted(w, s, actions, p, token)
    case RowWanted(id, _, SeedScript) => id in SEEDED
  }

  /** The vault takes new pools from the registry only, so it never accepts the transaction that `addPool` sends. */
  lemma {:induction false} AddPoolIsNeverAccepted(w: Wiring, s: System, actions: seq<Action>, p: PoolId, token: Address)
    requires Wired(w) && AllLegal(w, actions)
    ensures !Accepted(w, s, actions, p, token)
    decreases |actions|
  {
    if actions != [] {
      if actions[0].DirectVaultAddPool? { DirectCallsRevert(w, s, actions[0]); }
      AddPoolIsNeverAccepted(w, Step(w, s, actions[0]), actions[1..], p, token);
    }
  }

  /** The seed script asked for a row with this id. */
  predicate SeedRan(feed: seq<FeedItem>, id: Text) {
    exists i :: 0 <= i < |feed| && feed[i].RowWanted? && feed[i].id == id && feed[i].creator == SeedScript
  }

  /** On every legal run neither handler nor request ever creates a row. Whatever row there is, the seed script made it;
      so the events of a pool meet a row exactly after the script ran for an id that is spelled the same. */
  lemma RowsComeFromSeeds(w: Wiring, now: nat, actions: seq<Action>, spell: PoolId -> Text, feed: seq<FeedItem>,
                          p: PoolId)
    requires Wired(w) && AllLegal(w, actions) && Injective(spell)
    requires forall i :: 0 <= i < |feed| ==> Caused(w, Genesis(now), actions, feed[i])
    ensures spell(p) in Replay(spell, feed).pools <==> SeedRan(feed, spell(p))
    ensures spell(p) in Replay(spell, feed).pools ==> spell(p) == "0x01" || spell(p) == "0x02" || spell(p) == "0x03"
  {
    PoolRowHoldsNetSupply(spell, feed, p);
    forall i | 0 <= i < |feed| && feed[i].RowWanted? ensures feed[i].creator == SeedScript && feed[i].id in SEEDED {
      assert Caused(w, Genesis(now), actions, feed[i]);
      forall q: PoolId ensures !Accepted(w, Genesis(now), actions, q, feed[i].token) {
        AddPoolIsNeverAccepted(w, Genesis(now), actions, q, feed[i].token);
      }
    }
    if Wanted(feed, spell(p)) {
      var i :| 0 <= i < |feed| && feed[i].RowWanted? && feed[i].id == spell(p);
      assert feed[i].creator == SeedScript;
    }
  }

  /** The seed script asks for three rows, whatever happened on the chain, and makes each of them that is missing. */
  lemma SeedScriptMakesThree(w: Wiring, s: System, actions: seq<Action>, spell: PoolId -> Text, db: Db, id: Text,
                             token: Address)
    ensures Caused(w, s, actions, RowWanted(id, token, SeedScript)) <==> id == "0x01" || id == "0x02" || id == "0x03"
    ensures id in Handle(spell, db, RowWanted(id, token, SeedScript)).pools
  {
  }

  // ------------------------------------------------- ids that are spelled in decimal

  function Digit(d: nat): char
    requires d < 10
  {
    '0' + d as char
  }

  /** What the `toString` of a big integer spells. */
  function Decimal(n: nat): (text: Text)
    ensures text != [] && forall i :: 0 <= i < |text| ==> '0' <= text[i] <= '9'
  {
    if n < 10 then [Digit(n)] else Decimal(n / 10) + [Digit(n % 10)]
  }

  function Value(text: Text): int {
    if text == [] then 0 else 10 * Value(text[..|text| - 1]) + (text[|text| - 1] as int - '0' as int)
  }

  lemma {:induction false} DecimalReadsBack(n: nat)
    ensures Value(Decimal(n)) == n
  {
    var text := Decimal(n);
    if n < 10 {
      assert text[..0] == [] && Value(text) == 10 * Value(text[..0]) + n;
    } else {
      DecimalReadsBack(n / 10);
      assert text[..|text| - 1] == Decimal(n / 10);
    }
  }

  lemma DecimalIsInjective()
    ensures Injective(Decimal)
  {
    forall p: PoolId, q: PoolId | Decimal(p) == Decimal(q) ensures p == q {
      DecimalReadsBack(p);
      DecimalReadsBack(q);
    }
  }

  /** With ids in decimal no pool of the chain ever has a row, so the handlers keep nobody's total: the script's ids
      are spelled in hexadecimal. */
  lemma DecimalIdsMeetNoRow(w: Wiring, now: nat, actions: seq<Action>, feed: seq<FeedItem>, p: PoolId)
    requires Wired(w) && AllLegal(w, actions)
    requires forall i :: 0 <= i < |feed| ==> Caused(w, Genesis(now), actions, feed[i])
    ensures Decimal(p) !in Replay(Decimal, feed).pools
  {
    DecimalIsInjective();
    RowsComeFromSeeds(w, now, actions, Decimal, feed, p);
    assert "0x01"[1] == 'x' && "0x02"[1] == 'x' && "0x03"[1] == 'x';
  }

  // ------------------------------------------------- the missing-row branch

  /** The withdrawal handler finds no balance row exactly if the user has not deposited before,
      and then the event is of an empty withdrawal. */
  lemma MissingRowMeansEmptyWithdrawal(spell: PoolId -> Text, feed: seq<FeedItem>, u: Address, p: PoolId, amount: nat)
    requires Injective(spell) && Covered(EventsOf(feed + [Emitted(Withdrawal(u, p, amount))]))
    ensures (spell(p), u) !in Replay(spell, feed).balances <==> !Deposited(feed, u, p)
    ensures (spell(p), u) !in Replay(spell, feed).balances ==> amount == 0
  {
    var all := feed + [Emitted(Withdrawal(u, p, amount))];
    assert all[..|feed|] == feed;
    var before := EventsOf(feed);
    assert EventsOf(all) == before + [Withdrawal(u, p, amount)];
    assert EventsOf(all)[..|before|] == before;
    CoveredPrefix(EventsOf(all), |before|);
    RowsHoldNetBalances(spell, feed, u, p);
    assert EventsOf(all)[|before|] == Withdrawal(u, p, amount);
  }

  /** The branch is reached: anyone may withdraw nothing from a registered pool, and the chain logs it. */
  lemma EmptyWithdrawalIsLogged(w: Wiring, s: System, u: Address, p: PoolId)
    requires Good(w, s) && External(w, u) && u != ZERO && TokenOf(s.chain.vault, p) != ZERO
    ensures var s' := Run(w, s, [BeginWithdraw(u, p, 0), MoveTokens, TokenReturns]);
      s'.frames == s.frames && s'.chain.vault.events == s.chain.vault.events + [Withdrawal(u, p, 0)]
  {
    S.WithdrawAcceptedIff(w, s, u, p, 0);
    S.WithdrawRuns(w, s, u, p, 0);
    S.WithdrawMoves(w, s, u, p, 0);
    S.UninterruptedIsRun(w, s, BeginWithdraw(u, p, 0));
  }
}
