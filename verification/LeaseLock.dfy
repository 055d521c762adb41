/**
 The distributed lock. Its operations are separate commands on a shared store, so any number
 of clients interleave between the read and the write of `release` and `extend`. At most one
 client holds an unexpired lease, as long as every such write comes inside its own lease or meets
 no other holder; and that is exactly the condition.
 */
module LeaseLock {

  type Token = nat
  type Key = string

  datatype Expiry = Never | At(time: nat)

  datatype Entry = Entry(token: Token, expiry: Expiry)

  datatype Option<+T> = None | Some(value: T)

  predicate Live(e: Expiry, now: nat) {
    e.Never? || now < e.time
  }

  /** The store's expiry for a time to live in seconds; without a positive one the entry stays. */
  function Until(now: nat, ttl: nat): Expiry {
    if ttl > 0 then At(now + ttl) else Never
  }

  /** An entry with a positive time to live is there for exactly that long, and one without stays. */
  lemma EntryLasts(now: nat, ttl: nat, later: nat)
    requires now <= later
    ensures Live(Until(now, ttl), later) <==> ttl == 0 || later - now < ttl
  {
  }

  // --------------------------------------------------------- the key store

  function Read(entries: map<Key, Entry>, now: nat, key: Key): Option<Token> {
    if key in entries && Live(entries[key].expiry, now) then Some(entries[key].token) else None
  }

  /** One set-if-absent: the entries afterwards, and whether it set. */
  function SetNX(entries: map<Key, Entry>, now: nat, key: Key, token: Token, ttl: nat): (map<Key, Entry>, bool) {
    if Read(entries, now, key).Some? then (entries, false) else (entries[key := Entry(token, Until(now, ttl))], true)
  }

  /** `release` and `extend` with nobody else acting between the read and the write. */
  function Released(entries: map<Key, Entry>, now: nat, key: Key, token: Token): (map<Key, Entry>, bool) {
    match Read(entries, now, key)
    case None => (entries, true)
    case Some(current) => if current == token then (entries - {key}, true) else (entries, false)
  }

  function Extended(entries: map<Key, Entry>, now: nat, key: Key, token: Token, ttl: nat): (map<Key, Entry>, bool) {
    if Read(entries, now, key) == Some(token) then (entries[key := Entry(token, Until(now, ttl))], true)
    else (entries, false)
  }

  /** A release succeeds unless somebody else holds the key, and removes the caller's own entry only; an extension
      succeeds iff the caller holds the key, and gives its entry the new time to live. Other keys stay. */
  lemma OwnerDecides(entries: map<Key, Entry>, now: nat, key: Key, token: Token, ttl: nat, other: Key)
    ensures var (after, released) := Released(entries, now, key, token);
      && (released <==> !(key in entries && Live(entries[key].expiry, now) && entries[key].token != token))
      && (released ==> Read(after, now, key).None?)
      && (!released || other != key ==> Read(after, now, other) == Read(entries, now, other))
    ensures var (after, extended) := Extended(entries, now, key, token, ttl);
      && (extended <==> key in entries && Live(entries[key].expiry, now) && entries[key].token == token)
      && (extended ==> key in after && after[key] == Entry(token, Until(now, ttl)))
      && (!extended ==> after == entries)
      && (other != key ==> Read(after, now, other) == Read(entries, now, other))
  {
  }

  class KeyStore {
    var entries: map<Key, Entry>
    var now: nat

    constructor ()
      ensures entries == map[] && now == 0
    {
      entries, now := map[], 0;
    }

    method SetIfAbsent(key: Key, token: Token, ttl: nat) returns (set_: bool)
      modifies this
      ensures now == old(now) && (entries, set_) == SetNX(old(entries), now, key, token, ttl)
    {
      set_ := !(key in entries && Live(entries[key].expiry, now));
      if set_ {
        entries := entries[key := Entry(token, Until(now, ttl))];
      }
    }

    method Set(key: Key, token: Token, ttl: nat)
      modifies this
      ensures now == old(now) && entries == old(entries)[key := Entry(token, Until(now, ttl))]
    {
      entries := entries[key := Entry(token, Until(now, ttl))];
    }

    method Delete(key: Key)
      modifies this
      ensures now == old(now) && entries == old(entries) - {key}
    {
      entries := entries - {key};
    }

    /** What time and other clients make of the store while a client waits. */
    method Elapse(others: map<Key, Entry>, time: nat)
      modifies this
      ensures entries == others && now == time
    {
      entries, now := others, time;
    }
  }

  // ------------------------------------------------------------- the service

  /** How an attempt ends for the client: with the answer, or with an exception before or after the store acted. */
  datatype Reply = Answered | Refused | Lost

  /** The store as an attempt finds it. */
  datatype Scene = Scene(entries: map<Key, Entry>, now: nat, reply: Reply)

  function Attempt(scene: Scene, key: Key, token: Token, ttl: nat): (map<Key, Entry>, bool) {
    SetNX(scene.entries, scene.now, key, token, ttl)
  }

  /** Attempt n is answered and sets, and every earlier one was answered and found the key taken. */
  ghost predicate WonAt(scenes: nat -> Scene, key: Key, token: Token, ttl: nat, n: nat) {
    && scenes(n).reply.Answered? && Attempt(scenes(n), key, token, ttl).1
    && forall i: nat :: i < n ==> scenes(i).reply.Answered? && !Attempt(scenes(i), key, token, ttl).1
  }

  class LockService {

    constructor () {}

    /** The retry loop of `acquire`, where others act on the store between the attempts. */
    method Acquire(store: KeyStore, key: Key, token: Token, ttl: nat, retries: nat, scenes: nat -> Scene)
      returns (acquired: bool, attempts: nat)
      modifies store
      ensures attempts <= retries
      ensures acquired <==> exists n: nat :: n < retries && WonAt(scenes, key, token, ttl, n)
      ensures acquired ==> attempts < retries && WonAt(scenes, key, token, ttl, attempts)
      ensures attempts < retries ==>
        store.now == scenes(attempts).now
        && store.entries == if scenes(attempts).reply.Refused? then scenes(attempts).entries
                            else Attempt(scenes(attempts), key, token, ttl).0
      ensures attempts == retries ==> forall i: nat :: i < retries ==>
        scenes(i).reply.Answered? && !Attempt(scenes(i), key, token, ttl).1
      ensures !acquired && attempts < retries ==> !scenes(attempts).reply.Answered?
    {
      acquired, attempts := false, 0;
      while !acquired && attempts < retries
        invariant 0 <= attempts <= retries && !acquired
        invariant forall i: nat :: i < attempts ==>
          scenes(i).reply.Answered? && !Attempt(scenes(i), key, token, ttl).1
      {
        store.Elapse(scenes(attempts).entries, scenes(attempts).now);
        if scenes(attempts).reply.Refused? { return; }
        var set_ := store.SetIfAbsent(key, token, ttl);
        if scenes(attempts).reply.Lost? { return; }
        acquired := set_;
        if acquired {
          assert WonAt(scenes, key, token, ttl, attempts);
          return;
        }
        attempts := attempts + 1;
      }
    }

    /** Nobody else acts in between: the entry goes exactly if it is the caller's. */
    method Release(store: KeyStore, key: Key, token: Token) returns (released: bool)
      modifies store
      ensures store.now == old(store.now)
      ensures (store.entries, released) == Released(old(store.entries), store.now, key, token)
      ensures released <==> Read(store.entries, store.now, key) == None
      ensures var current := Read(old(store.entries), store.now, key);
        store.entries == if current == Some(token) then old(store.entries) - {key} else old(store.entries)
    {
      var currentToken := Read(store.entries, store.now, key);
      if currentToken == Some(token) {
        store.Delete(key);
        released := true;
      } else if currentToken == None {
        released := true;
      } else {
        released := false;
      }
    }

    method Extend(store: KeyStore, key: Key, token: Token, ttl: nat) returns (extended: bool)
      modifies store
      ensures store.now == old(store.now)
      ensures (store.entries, extended) == Extended(old(store.entries), store.now, key, token, ttl)
      ensures extended <==> Read(old(store.entries), store.now, key) == Some(token)
      ensures store.entries == if extended then old(store.entries)[key := Entry(token, Until(store.now, ttl))]
                               else old(store.entries)
    {
      var currentToken := Read(store.entries, store.now, key);
      extended := currentToken == Some(token);
      if extended {
        store.Set(key, token, ttl);
      }
    }
  }

  // ------------------------------------------------------- interleaved clients

  /** A token is one acquisition. `Releasing` and `Extending` stand between the read and the write. */
  datatype Phase = Trying | Holding | Releasing | Extending(ttl: nat) | Done

  datatype Client = Client(key: Key, phase: Phase, lease: Expiry)

  datatype System = System(entries: map<Key, Entry>, clients: map<Token, Client>, now: nat)

  const START := System(map[], map[], 0)

  datatype Action =
    | Enter(token: Token, key: Key)
    | TrySet(token: Token, ttl: nat, replyLost: bool)
    | ReadForRelease(token: Token)
    | DeleteOwn(token: Token)
    | ReadForExtend(token: Token, ttl: nat)
    | WriteExtension(token: Token)
    | Abandon(token: Token)
    | Tick(elapsed: nat)

  function Step(s: System, a: Action): System {
    match a
    case Enter(t, key) => if t in s.clients then s else s.(clients := s.clients[t := Client(key, Trying, At(0))])
    case Tick(elapsed) => s.(now := s.now + elapsed)
    case _ =>
      if a.token !in s.clients then s
      else
        var t, c := a.token, s.clients[a.token];
        match a
        case TrySet(_, ttl, replyLost) =>
          if c.phase != Trying || Read(s.entries, s.now, c.key).Some? then s
          else
            s.(entries := s.entries[c.key := Entry(t, Until(s.now, ttl))],
               clients := s.clients[t := if replyLost then c.(phase := Done)
                                         else Client(c.key, Holding, Until(s.now, ttl))])
        case ReadForRelease(_) =>
          if c.phase != Holding then s
          else
            var own := Read(s.entries, s.now, c.key) == Some(t);
            s.(clients := s.clients[t := c.(phase := if own then Releasing else Done)])
        case DeleteOwn(_) =>
          if c.phase != Releasing then s
          else s.(entries := s.entries - {c.key}, clients := s.clients[t := c.(phase := Done)])
        case ReadForExtend(_, ttl) =>
          if c.phase != Holding || Read(s.entries, s.now, c.key) != Some(t) then s
          else s.(clients := s.clients[t := c.(phase := Extending(ttl))])
        case WriteExtension(_) =>
          if !c.phase.Extending? then s
          else
            var lease := Until(s.now, c.phase.ttl);
            s.(entries := s.entries[c.key := Entry(t, lease)], clients := s.clients[t := Client(c.key, Holding, lease)])
        case _ => s.(clients := s.clients[t := c.(phase := Done)])
  }

  /** The client believes it owns the lock, and its lease has not run out. */
  predicate Holds(s: System, t: Token, key: Key) {
    && t in s.clients && s.clients[t].key == key
    && (s.clients[t].phase == Holding || s.clients[t].phase == Releasing || s.clients[t].phase.Extending?)
    && Live(s.clients[t].lease, s.now)
  }

  ghost predicate Exclusive(s: System) {
    forall t, u, key :: Holds(s, t, key) && Holds(s, u, key) ==> t == u
  }

  /** Every unexpired lease is the one the store knows. */
  ghost predicate Backed(s: System) {
    forall t, key :: Holds(s, t, key) ==> key in s.entries && s.entries[key] == Entry(t, s.clients[t].lease)
  }

  function Run(s: System, actions: seq<Action>): System
    decreases |actions|
  {
    if actions == [] then s else Run(Step(s, actions[0]), actions[1..])
  }

  // ---------------------------------------------- the service takes these steps

  /** The store's part of an attempt is its set-if-absent, and the client holds the key exactly if it set and the
      reply came through. */
  lemma AttemptIsStep(s: System, t: Token, ttl: nat, replyLost: bool)
    requires t in s.clients && s.clients[t].phase == Trying
    ensures var s', key := Step(s, TrySet(t, ttl, replyLost)), s.clients[t].key;
      var (entries, set_) := SetNX(s.entries, s.now, key, t, ttl);
      s'.entries == entries && (Holds(s', t, key) <==> set_ && !replyLost)
  {
  }

  lemma RunOfTwo(s: System, a: Action, b: Action)
    ensures Run(s, [a, b]) == Step(Step(s, a), b)
  {
    assert [a, b][1..] == [b] && [b][1..] == [];
    assert Run(Step(s, a), [b]) == Run(Step(Step(s, a), b), []);
  }

  /** An undisturbed release or extension of a held lock is its two steps, one after the other. */
  lemma ServiceIsSteps(s: System, t: Token, ttl: nat)
    requires t in s.clients && s.clients[t].phase == Holding
    ensures Run(s, [ReadForRelease(t), DeleteOwn(t)]).entries == Released(s.entries, s.now, s.clients[t].key, t).0
    ensures Run(s, [ReadForExtend(t, ttl), WriteExtension(t)]).entries
         == Extended(s.entries, s.now, s.clients[t].key, t, ttl).0
  {
    RunOfTwo(s, ReadForRelease(t), DeleteOwn(t));
    RunOfTwo(s, ReadForExtend(t, ttl), WriteExtension(t));
  }

  // ------------------------------------------------------------- exclusion

  /** The step writes: it is the delete of a release or the set of an extension, and the client is at that point. */
  predicate Writes(s: System, a: Action) {
    && (a.DeleteOwn? || a.WriteExtension?) && a.token in s.clients
    && if a.DeleteOwn? then s.clients[a.token].phase == Releasing else s.clients[a.token].phase.Extending?
  }

  /** A write comes before the client's own lease runs out. */
  predicate Timely(s: System, a: Action) {
    Writes(s, a) ==> Live(s.clients[a.token].lease, s.now)
  }

  /** A write is timely, or nobody else holds the key. */
  ghost predicate Harmless(s: System, a: Action) {
    Timely(s, a) || forall u :: Holds(s, u, s.clients[a.token].key) ==> u == a.token
  }

  predicate AllTimely(s: System, actions: seq<Action>)
    decreases |actions|
  {
    actions == [] || (Timely(s, actions[0]) && AllTimely(Step(s, actions[0]), actions[1..]))
  }

  ghost predicate AllHarmless(s: System, actions: seq<Action>)
    decreases |actions|
  {
    actions == [] || (Harmless(s, actions[0]) && AllHarmless(Step(s, actions[0]), actions[1..]))
  }

  lemma {:induction false} TimelyIsHarmless(s: System, actions: seq<Action>)
    requires AllTimely(s, actions)
    ensures AllHarmless(s, actions)
    decreases |actions|
  {
    if actions != [] { TimelyIsHarmless(Step(s, actions[0]), actions[1..]); }
  }

  lemma HarmlessKeepsBacked(s: System, a: Action)
    requires Backed(s) && Harmless(s, a)
    ensures Backed(Step(s, a))
  {
    var s' := Step(s, a);
    forall t, key | Holds(s', t, key) ensures key in s'.entries && s'.entries[key] == Entry(t, s'.clients[t].lease) {
      if a.Tick? {
        assert Holds(s, t, key);
      } else if a.token != t {
        assert Holds(s, t, key);
        if Writes(s, a) && s.clients[a.token].key == key {
          assert Timely(s, a) ==> Holds(s, a.token, key);
        }
      } else if !a.TrySet? && !a.WriteExtension? {
        assert Holds(s, t, key);
      }
    }
  }

  /** For any number of clients and any interleaving of their commands with the passing of time, at most one client
      holds an unexpired lease on a key, if every write of release and extend ends inside its own lease or at least
      meets no other holder. */
  lemma {:induction false} LeasesAreExclusive(s: System, actions: seq<Action>)
    requires Backed(s) && AllHarmless(s, actions)
    ensures Backed(Run(s, actions)) && Exclusive(Run(s, actions))
    decreases |actions|
  {
    if actions != [] {
      HarmlessKeepsBacked(s, actions[0]);
      LeasesAreExclusive(Step(s, actions[0]), actions[1..]);
    }
  }

  lemma AtMostOneHolder(actions: seq<Action>, t: Token, u: Token, key: Key)
    requires AllHarmless(START, actions)
    requires Holds(Run(START, actions), t, key) && Holds(Run(START, actions), u, key)
    ensures t == u
  {
    LeasesAreExclusive(START, actions);
  }

  // --------------------------------------------------- when the write comes late

  lemma {:induction false} Above(tokens: set<Token>) returns (bound: Token)
    ensures forall t :: t in tokens ==> t < bound
    decreases |tokens|
  {
    if tokens == {} {
      bound := 0;
    } else {
      var t :| t in tokens;
      var rest := Above(tokens - {t});
      bound := if rest <= t then t + 1 else rest;
      assert tokens == (tokens - {t}) + {t};
    }
  }

  /** A delete that takes another holder's entry away lets a third client in, and both hold the key then. */
  lemma DeleteLetsThirdIn(s: System, a: Action) returns (more: seq<Action>)
    requires Backed(s) && a.DeleteOwn? && !Harmless(s, a)
    ensures AllHarmless(Step(s, a), more) && !Exclusive(Run(Step(s, a), more))
  {
    var key, s' := s.clients[a.token].key, Step(s, a);
    var u :| Holds(s, u, key) && u != a.token;
    var v := Above(s'.clients.Keys);
    var enter, set_ := Enter(v, key), TrySet(v, 1, false);
    more := [enter, set_];
    RunOfTwo(s', enter, set_);
    assert more[1..] == [set_] && [set_][1..] == [];
    assert AllHarmless(Step(s', enter), [set_]);
    var s2 := Step(Step(s', enter), set_);
    assert v !in s'.clients && v != u;
    assert Holds(s2, u, key) && Holds(s2, v, key);
  }

  /** Every lease stays the one the store knows exactly if the step is harmless. */
  lemma StepKeepsBackedIff(s: System, a: Action)
    requires Backed(s)
    ensures Backed(Step(s, a)) <==> Harmless(s, a)
  {
    if Harmless(s, a) {
      HarmlessKeepsBacked(s, a);
    } else {
      var key, s' := s.clients[a.token].key, Step(s, a);
      var u :| Holds(s, u, key) && u != a.token;
      assert Holds(s', u, key) && !(key in s'.entries && s'.entries[key].token == u);
    }
  }

  /** If no write of the continuation is harmful, it ends with at most one holder per key. */
  ghost predicate SafeFor(s: System, more: seq<Action>) {
    AllHarmless(s, more) ==> Exclusive(Run(s, more))
  }

  /** The exact condition: after a step from a backed state every harmless continuation is exclusive if and only if the
      step itself is harmless. So a write that is late and meets another holder is one that can break exclusion. */
  lemma WriteIsSafeIff(s: System, a: Action)
    requires Backed(s)
    ensures (forall more :: SafeFor(Step(s, a), more)) <==> Harmless(s, a)
  {
    if Harmless(s, a) {
      HarmlessKeepsBacked(s, a);
      forall more ensures SafeFor(Step(s, a), more) {
        if AllHarmless(Step(s, a), more) { LeasesAreExclusive(Step(s, a), more); }
      }
    } else if a.DeleteOwn? {
      var more := DeleteLetsThirdIn(s, a);
      assert !SafeFor(Step(s, a), more);
    } else {
      ExtensionIsSafeIff(s, a.token);
      var more: seq<Action> := [];
      assert !SafeFor(Step(s, a), more);
    }
  }

  /** An extension breaks exclusion on the spot: exactly if it is late and meets another holder, two clients hold
      the key right after it. */
  lemma ExtensionIsSafeIff(s: System, t: Token)
    requires Backed(s) && t in s.clients && s.clients[t].phase.Extending?
    ensures Exclusive(Step(s, WriteExtension(t))) <==> Harmless(s, WriteExtension(t))
  {
    var a := WriteExtension(t);
    var key, s' := s.clients[t].key, Step(s, a);
    if Harmless(s, a) {
      HarmlessKeepsBacked(s, a);
    } else {
      var u :| Holds(s, u, key) && u != t;
      assert Holds(s', u, key) && Holds(s', t, key);
    }
  }

  lemma {:induction false} RunSnoc(s: System, actions: seq<Action>, a: Action)
    ensures Run(s, actions + [a]) == Step(Run(s, actions), a)
    decreases |actions|
  {
    if actions == [] {
      assert [] + [a] == [a] && [a][1..] == [];
    } else {
      assert (actions + [a])[1..] == actions[1..] + [a] && (actions + [a])[0] == actions[0];
      RunSnoc(Step(s, actions[0]), actions[1..], a);
    }
  }

  lemma RunPrefix(actions: seq<Action>, n: nat)
    requires n < |actions|
    ensures Run(START, actions[..n + 1]) == Step(Run(START, actions[..n]), actions[n])
  {
    assert actions[..n + 1] == actions[..n] + [actions[n]];
    RunSnoc(START, actions[..n], actions[n]);
  }

  /** A first client reads, for its release or its extension, and sleeps past its lease; a second one acquires the
      lock. */
  function SleepPastLease(key: Key, ttl: nat, read: Action): seq<Action> {
    [Enter(1, key), TrySet(1, ttl, false), read, Tick(ttl), Enter(2, key), TrySet(2, ttl, false)]
  }

  /** Where the sleeper is when its lease has run out. */
  function Asleep(key: Key, ttl: nat, read: Action): System {
    System(map[key := Entry(1, At(ttl))],
           map[1 := Client(key, if read.ReadForRelease? then Releasing else Extending(ttl), At(ttl))],
           ttl)
  }

  lemma FirstSleeps(key: Key, ttl: nat, read: Action)
    requires ttl > 0 && (read == ReadForRelease(1) || read == ReadForExtend(1, ttl))
    ensures Run(START, SleepPastLease(key, ttl, read)[..4]) == Asleep(key, ttl, read)
  {
    var actions := SleepPastLease(key, ttl, read);
    RunPrefix(actions, 0);
    assert Run(START, actions[..1]) == System(map[], map[1 := Client(key, Trying, At(0))], 0);
    RunPrefix(actions, 1);
    RunPrefix(actions, 2);
    assert Run(START, actions[..3]) == Asleep(key, ttl, read).(now := 0);
    RunPrefix(actions, 3);
  }

  lemma SecondHolder(key: Key, ttl: nat, read: Action)
    requires ttl > 0 && (read == ReadForRelease(1) || read == ReadForExtend(1, ttl))
    ensures Run(START, SleepPastLease(key, ttl, read))
         == System(map[key := Entry(2, At(ttl + ttl))],
                   Asleep(key, ttl, read).clients[2 := Client(key, Holding, At(ttl + ttl))],
                   ttl)
  {
    var actions := SleepPastLease(key, ttl, read);
    FirstSleeps(key, ttl, read);
    RunPrefix(actions, 4);
    RunPrefix(actions, 5);
    assert actions[..6] == actions;
  }

  /** From the empty store: the first client deletes the second one's entry, and a third one acquires the lock beside
      it. */
  lemma LateDeleteBreaksExclusion(key: Key, ttl: nat)
    requires ttl > 0
    ensures var s := Run(START, SleepPastLease(key, ttl, ReadForRelease(1))
                                + [DeleteOwn(1)] + [Enter(3, key)] + [TrySet(3, ttl, false)]);
      Holds(s, 2, key) && Holds(s, 3, key) && !Exclusive(s)
  {
    var actions := SleepPastLease(key, ttl, ReadForRelease(1));
    SecondHolder(key, ttl, ReadForRelease(1));
    RunSnoc(START, actions, DeleteOwn(1));
    RunSnoc(START, actions + [DeleteOwn(1)], Enter(3, key));
    RunSnoc(START, actions + [DeleteOwn(1)] + [Enter(3, key)], TrySet(3, ttl, false));
    var s := Run(START, actions + [DeleteOwn(1)] + [Enter(3, key)] + [TrySet(3, ttl, false)]);
    assert Holds(s, 2, key) && Holds(s, 3, key);
  }

  /** From the empty store: the first client's extension gives it an unexpired lease beside the second one's. */
  lemma LateExtensionBreaksExclusion(key: Key, ttl: nat)
    requires ttl > 0
    ensures var s := Run(START, SleepPastLease(key, ttl, ReadForExtend(1, ttl)) + [WriteExtension(1)]);
      Holds(s, 1, key) && Holds(s, 2, key) && !Exclusive(s)
  {
    var actions := SleepPastLease(key, ttl, ReadForExtend(1, ttl));
    SecondHolder(key, ttl, ReadForExtend(1, ttl));
    RunSnoc(START, actions, WriteExtension(1));
    var s := Run(START, actions + [WriteExtension(1)]);
    assert Holds(s, 1, key) && Holds(s, 2, key);
  }
}
