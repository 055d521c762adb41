/**
 The two circuit breakers: the live service and its rewrite, which decides its transitions
 differently. Calls are asynchronous, so a call is two steps, its start and its settling, and
 any number of calls may be under way; starts, results, timeouts and resets interleave freely.

 The two agree on everything a caller can see exactly if the calls of each circuit bring the same
 thresholds and every error counts. The reason is hidden: outside CLOSED the failure counter of
 the live service never falls below the threshold.
 */
module CircuitBreakers {

  datatype CircuitState = CLOSED | OPEN | HALF_OPEN

  /** Which class an error belongs to, as `instanceof` sees it. */
  type ErrorKind = nat

  const TIMED_OUT: ErrorKind := 0

  datatype Options = Options(
    failureThreshold: int,
    resetTimeout: int,
    successThreshold: int,
    timeout: int,
    failureTypes: set<ErrorKind>)

  datatype Circuit = Circuit(
    state: CircuitState,
    failures: nat,
    successes: nat,
    lastFailure: int,
    options: Options)

  function NewCircuit(opts: Options): Circuit {
    Circuit(CLOSED, 0, 0, 0, opts)
  }

  // -------------------------------------------------------- one circuit, one step

  /** The gate in front of a call, the same code in both: the circuit afterwards, and whether the call may run. */
  function Gate(c: Circuit, opts: Options, now: int): (Circuit, bool) {
    if c.state == OPEN then
      if now - c.lastFailure < opts.resetTimeout then (c, false)
      else (c.(state := HALF_OPEN, successes := 0), true)
    else (c, true)
  }

  function LiveSuccess(c: Circuit, opts: Options): Circuit {
    match c.state
    case HALF_OPEN =>
      if c.successes + 1 >= opts.successThreshold then c.(state := CLOSED, failures := 0, successes := 0)
      else c.(successes := c.successes + 1)
    case CLOSED => c.(failures := 0)
    case OPEN => c
  }

  predicate Counts(opts: Options, kind: ErrorKind) {
    opts.failureTypes == {} || kind in opts.failureTypes
  }

  function LiveFailure(c: Circuit, opts: Options, kind: ErrorKind, now: int): Circuit {
    if Counts(opts, kind) then
      c.(failures := c.failures + 1,
         lastFailure := now,
         state := if c.failures + 1 >= opts.failureThreshold then OPEN else c.state)
    else c
  }

  function FixedSuccess(c: Circuit): Circuit {
    match c.state
    case HALF_OPEN =>
      if c.successes + 1 >= c.options.successThreshold then c.(state := CLOSED, failures := 0, successes := 0)
      else c.(successes := c.successes + 1)
    case CLOSED => c.(failures := 0)
    case OPEN => c
  }

  function FixedFailure(c: Circuit, now: int): Circuit {
    var failed := c.(failures := c.failures + 1, lastFailure := now);
    if c.state == HALF_OPEN || (c.state == CLOSED && failed.failures >= c.options.failureThreshold)
    then failed.(state := OPEN, successes := 0)
    else failed
  }

  function ResetTo(c: Circuit): Circuit {
    c.(state := CLOSED, failures := 0, successes := 0)
  }

  // ------------------------------------------------------------ the services

  class LiveCircuitBreaker {
    var circuits: map<string, Circuit>

    constructor ()
      ensures circuits == map[]
    {
      circuits := map[];
    }

    /** `execute` up to the call of the guarded function. */
    method Enter(name: string, opts: Options, now: int) returns (admitted: bool)
      modifies this
      ensures var before := if name in old(circuits) then old(circuits)[name] else NewCircuit(opts);
        circuits == old(circuits)[name := Gate(before, opts, now).0] && admitted == Gate(before, opts, now).1
    {
      if name !in circuits {
        circuits := circuits[name := Circuit(CLOSED, 0, 0, 0, opts)];
      }
      var circuit := circuits[name];
      if circuit.state == OPEN {
        var timeElapsed := now - circuit.lastFailure;
        if timeElapsed < opts.resetTimeout {
          return false;
        }
        circuit := circuit.(state := HALF_OPEN);
        circuit := circuit.(successes := 0);
        circuits := circuits[name := circuit];
      }
      return true;
    }

    /** `execute` after the guarded function resolved. */
    method OnResolved(name: string, opts: Options)
      requires name in circuits
      modifies this
      ensures circuits == old(circuits)[name := LiveSuccess(old(circuits)[name], opts)]
    {
      var circuit := circuits[name];
      if circuit.state == HALF_OPEN {
        circuit := circuit.(successes := circuit.successes + 1);
        if circuit.successes >= opts.successThreshold {
          circuit := circuit.(state := CLOSED, failures := 0, successes := 0);
        }
      } else if circuit.state == CLOSED {
        circuit := circuit.(failures := 0);
      }
      circuits := circuits[name := circuit];
    }

    /** `execute` after the guarded function rejected or timed out. */
    method OnRejected(name: string, opts: Options, kind: ErrorKind, now: int)
      requires name in circuits
      modifies this
      ensures circuits == old(circuits)[name := LiveFailure(old(circuits)[name], opts, kind, now)]
    {
      var circuit := circuits[name];
      var isFailureType := opts.failureTypes == {} || kind in opts.failureTypes;
      if isFailureType {
        circuit := circuit.(failures := circuit.failures + 1);
        circuit := circuit.(lastFailure := now);
        if circuit.failures >= opts.failureThreshold {
          circuit := circuit.(state := OPEN);
        }
      }
      circuits := circuits[name := circuit];
    }

    method ResetCircuit(name: string)
      modifies this
      ensures name !in old(circuits) ==> circuits == old(circuits)
      ensures name in old(circuits) ==>
        circuits == old(circuits)[name := old(circuits)[name].(state := CLOSED, failures := 0, successes := 0)]
    {
      if name in circuits {
        circuits := circuits[name := circuits[name].(state := CLOSED, failures := 0, successes := 0)];
      }
    }
  }

  class FixedCircuitBreaker {
    var circuits: map<string, Circuit>

    constructor ()
      ensures circuits == map[]
    {
      circuits := map[];
    }

    method Enter(name: string, opts: Options, now: int) returns (admitted: bool)
      modifies this
      ensures var before := if name in old(circuits) then old(circuits)[name] else NewCircuit(opts);
        circuits == old(circuits)[name := Gate(before, opts, now).0] && admitted == Gate(before, opts, now).1
    {
      if name !in circuits {
        circuits := circuits[name := Circuit(CLOSED, 0, 0, 0, opts)];
      }
      var circuit := circuits[name];
      if circuit.state == OPEN {
        var timeElapsed := now - circuit.lastFailure;
        if timeElapsed < opts.resetTimeout {
          return false;
        }
        circuit := circuit.(state := HALF_OPEN);
        circuit := circuit.(successes := 0);
        circuits := circuits[name := circuit];
      }
      return true;
    }

    method HandleSuccess(name: string)
      requires name in circuits
      modifies this
      ensures circuits == old(circuits)[name := FixedSuccess(old(circuits)[name])]
    {
      var circuit := circuits[name];
      if circuit.state == HALF_OPEN {
        circuit := circuit.(successes := circuit.successes + 1);
        if circuit.successes >= circuit.options.successThreshold {
          circuit := circuit.(state := CLOSED, failures := 0, successes := 0);
        }
      } else if circuit.state == CLOSED {
        circuit := circuit.(failures := 0);
      }
      circuits := circuits[name := circuit];
    }

    method HandleFailure(name: string, now: int)
      requires name in circuits
      modifies this
      ensures circuits == old(circuits)[name := FixedFailure(old(circuits)[name], now)]
    {
      var circuit := circuits[name];
      circuit := circuit.(failures := circuit.failures + 1);
      circuit := circuit.(lastFailure := now);
      if circuit.state == HALF_OPEN ||
         (circuit.state == CLOSED && circuit.failures >= circuit.options.failureThreshold) {
        circuit := circuit.(state := OPEN);
        circuit := circuit.(successes := 0);
      }
      circuits := circuits[name := circuit];
    }

    method ResetCircuit(name: string)
      modifies this
      ensures name !in old(circuits) ==> circuits == old(circuits)
      ensures name in old(circuits) ==>
        circuits == old(circuits)[name := old(circuits)[name].(state := CLOSED, failures := 0, successes := 0)]
    {
      if name in circuits {
        circuits := circuits[name := circuits[name].(state := CLOSED, failures := 0, successes := 0)];
      }
    }
  }

  // --------------------------------------------------------- interleaved calls

  type CallId = nat

  datatype Call = Call(name: string, opts: Options, startedAt: int)

  datatype Event =
    | Start(call: CallId, name: string, opts: Options, now: int)
    | Resolve(call: CallId, now: int)
    | Reject(call: CallId, kind: ErrorKind, now: int)
    | Expire(call: CallId, now: int)
    | Reset(name: string)

  /** What has happened to a circuit: a probe is the passage from OPEN to HALF_OPEN. */
  datatype Mark = Probe | Succeeded | Failed(at: int) | WasReset

  datatype World = World(
    circuits: map<string, Circuit>,
    calls: map<CallId, Call>,
    answers: seq<(CallId, bool)>,
    history: map<string, seq<Mark>>)

  const START := World(map[], map[], [], map[])

  function HistoryOf(w: World, name: string): seq<Mark> {
    if name in w.history then w.history[name] else []
  }

  function Record(w: World, name: string, m: Mark): map<string, seq<Mark>> {
    w.history[name := HistoryOf(w, name) + [m]]
  }

  /** The circuit a call finds, or makes. */
  function Before(w: World, name: string, opts: Options): Circuit {
    if name in w.circuits then w.circuits[name] else NewCircuit(opts)
  }

  function Begin(w: World, call: CallId, name: string, opts: Options, now: int): World {
    var before := Before(w, name, opts);
    var (after, admitted) := Gate(before, opts, now);
    World(w.circuits[name := after],
          if admitted then w.calls[call := Call(name, opts, now)] else w.calls,
          w.answers + [(call, admitted)],
          if before.state == OPEN && admitted then Record(w, name, Probe) else w.history)
  }

  /** A call settles once: it is no longer under way, its circuit changes, and that goes on record. */
  function Conclude(w: World, call: CallId, circuit: Circuit, marks: map<string, seq<Mark>>): World
    requires call in w.calls
  {
    World(w.circuits[w.calls[call].name := circuit], w.calls - {call}, w.answers, marks)
  }

  /** The error a settling event stands for, if it is one that this call can meet now. */
  predicate Settles(w: World, e: Event) {
    match e
    case Resolve(call, _) => call in w.calls && w.calls[call].name in w.circuits
    case Reject(call, _, _) => call in w.calls && w.calls[call].name in w.circuits
    case Expire(call, now) =>
      call in w.calls && w.calls[call].name in w.circuits && now - w.calls[call].startedAt >= w.calls[call].opts.timeout
    case _ => false
  }

  function KindOf(e: Event): ErrorKind {
    if e.Reject? then e.kind else TIMED_OUT
  }

  function ResetIn(w: World, name: string): World {
    if name in w.circuits
    then w.(circuits := w.circuits[name := ResetTo(w.circuits[name])], history := Record(w, name, WasReset))
    else w
  }

  function LiveStep(w: World, e: Event): World {
    if e.Start? then if e.call in w.calls then w else Begin(w, e.call, e.name, e.opts, e.now)
    else if e.Reset? then ResetIn(w, e.name)
    else if !Settles(w, e) then w
    else
      var call := w.calls[e.call];
      var c := w.circuits[call.name];
      if e.Resolve? then Conclude(w, e.call, LiveSuccess(c, call.opts), Record(w, call.name, Succeeded))
      else
        Conclude(w, e.call, LiveFailure(c, call.opts, KindOf(e), e.now),
                 if Counts(call.opts, KindOf(e)) then Record(w, call.name, Failed(e.now)) else w.history)
  }

  function FixedStep(w: World, e: Event): World {
    if e.Start? then if e.call in w.calls then w else Begin(w, e.call, e.name, e.opts, e.now)
    else if e.Reset? then ResetIn(w, e.name)
    else if !Settles(w, e) then w
    else
      var call := w.calls[e.call];
      var c := w.circuits[call.name];
      if e.Resolve? then Conclude(w, e.call, FixedSuccess(c), Record(w, call.name, Succeeded))
      else Conclude(w, e.call, FixedFailure(c, e.now), Record(w, call.name, Failed(e.now)))
  }

  function LiveRun(events: seq<Event>): World {
    if events == [] then START else LiveStep(LiveRun(events[..|events| - 1]), events[|events| - 1])
  }

  function FixedRun(events: seq<Event>): World {
    if events == [] then START else FixedStep(FixedRun(events[..|events| - 1]), events[|events| - 1])
  }

  // ------------------------------------------------------------- bisimulation

  /** The counters are compared after an increment, so a threshold below one acts as one. */
  function Threshold(t: int): int {
    if t < 1 then 1 else t
  }

  predicate SameThresholds(a: Options, b: Options) {
    && Threshold(a.failureThreshold) == Threshold(b.failureThreshold)
    && Threshold(a.successThreshold) == Threshold(b.successThreshold)
  }

  /** Every call on a circuit brings the same thresholds; timeouts and failure types may differ. */
  predicate Uniform(events: seq<Event>, config: string -> Options) {
    forall i :: 0 <= i < |events| && events[i].Start? ==> SameThresholds(events[i].opts, config(events[i].name))
  }

  /** If the event is a failure that settles a call, it counts for that call. */
  predicate FailureCounts(w: World, e: Event) {
    !e.Resolve? && Settles(w, e) ==> Counts(w.calls[e.call].opts, KindOf(e))
  }

  predicate FailuresCount(events: seq<Event>) {
    events == [] ||
    (FailuresCount(events[..|events| - 1]) && FailureCounts(LiveRun(events[..|events| - 1]), events[|events| - 1]))
  }

  /** Outside CLOSED the failure counter has reached the threshold. */
  predicate Tripped(c: Circuit) {
    c.state != CLOSED ==> c.failures >= Threshold(c.options.failureThreshold)
  }

  /** Equal but for the success counter, which only matters in HALF_OPEN. */
  predicate Alike(live: Circuit, fixed: Circuit) {
    && live.state == fixed.state && live.failures == fixed.failures
    && live.lastFailure == fixed.lastFailure && live.options == fixed.options
    && (live.state == HALF_OPEN ==> live.successes == fixed.successes)
  }

  ghost predicate Configured(w: World, config: string -> Options) {
    && (forall name :: name in w.circuits ==>
          SameThresholds(w.circuits[name].options, config(name)) && Tripped(w.circuits[name]))
    && (forall call :: call in w.calls ==>
          w.calls[call].name in w.circuits && SameThresholds(w.calls[call].opts, config(w.calls[call].name)))
  }

  ghost predicate Bisimilar(live: World, fixed: World) {
    && live.calls == fixed.calls && live.answers == fixed.answers && live.history == fixed.history
    && live.circuits.Keys == fixed.circuits.Keys
    && forall name :: name in live.circuits ==> Alike(live.circuits[name], fixed.circuits[name])
  }

  /** Every transition keeps the options and the hidden bound on the counter. */
  predicate StillTripped(c: Circuit, after: Circuit) {
    after.options == c.options && Tripped(after)
  }

  lemma TransitionsKeepTripped(c: Circuit, opts: Options, kind: ErrorKind, now: int)
    requires Tripped(c) && SameThresholds(opts, c.options)
    ensures StillTripped(c, LiveSuccess(c, opts)) && StillTripped(c, LiveFailure(c, opts, kind, now))
    ensures StillTripped(c, ResetTo(c)) && StillTripped(c, Gate(c, opts, now).0)
  {
  }

  /** A step that writes one circuit, and starts no call but on that circuit, keeps the configuration. */
  lemma OneCircuitConfigured(w: World, w': World, name: string, config: string -> Options)
    requires Configured(w, config)
    requires name in w'.circuits && w'.circuits == w.circuits[name := w'.circuits[name]]
    requires SameThresholds(w'.circuits[name].options, config(name)) && Tripped(w'.circuits[name])
    requires forall call :: call in w'.calls ==>
      || (call in w.calls && w'.calls[call] == w.calls[call])
      || (w'.calls[call].name == name && SameThresholds(w'.calls[call].opts, config(name)))
    ensures Configured(w', config)
  {
  }

  lemma ConfiguredStep(w: World, e: Event, config: string -> Options)
    requires Configured(w, config)
    requires e.Start? ==> SameThresholds(e.opts, config(e.name))
    ensures Configured(LiveStep(w, e), config)
  {
    var w' := LiveStep(w, e);
    if e.Start? && e.call !in w.calls {
      var before := Before(w, e.name, e.opts);
      TransitionsKeepTripped(before, e.opts, TIMED_OUT, e.now);
      OneCircuitConfigured(w, w', e.name, config);
    } else if e.Reset? && e.name in w.circuits {
      TransitionsKeepTripped(w.circuits[e.name], w.circuits[e.name].options, TIMED_OUT, 0);
      OneCircuitConfigured(w, w', e.name, config);
    } else if Settles(w, e) {
      var call := w.calls[e.call];
      assert SameThresholds(call.opts, w.circuits[call.name].options);
      TransitionsKeepTripped(w.circuits[call.name], call.opts, KindOf(e), e.now);
      OneCircuitConfigured(w, w', call.name, config);
    }
  }

  lemma {:induction false} LiveStaysConfigured(events: seq<Event>, config: string -> Options)
    requires Uniform(events, config)
    ensures Configured(LiveRun(events), config)
  {
    if events != [] {
      var n := |events| - 1;
      LiveStaysConfigured(events[..n], config);
      ConfiguredStep(LiveRun(events[..n]), events[n], config);
    }
  }

  /** The two transition codes agree on circuits that are alike. */
  lemma TransitionsAlike(live: Circuit, fixed: Circuit, opts: Options, kind: ErrorKind, now: int)
    requires Alike(live, fixed) && Tripped(live) && SameThresholds(opts, live.options)
    ensures Alike(LiveSuccess(live, opts), FixedSuccess(fixed))
    ensures Counts(opts, kind) ==> Alike(LiveFailure(live, opts, kind, now), FixedFailure(fixed, now))
  {
  }

  lemma BisimilarStep(live: World, fixed: World, e: Event, config: string -> Options)
    requires Configured(live, config) && Bisimilar(live, fixed) && FailureCounts(live, e)
    ensures Bisimilar(LiveStep(live, e), FixedStep(fixed, e))
  {
    if Settles(live, e) {
      var call := live.calls[e.call];
      assert SameThresholds(call.opts, live.circuits[call.name].options);
      assert Alike(live.circuits[call.name], fixed.circuits[call.name]) && Tripped(live.circuits[call.name]);
      TransitionsAlike(live.circuits[call.name], fixed.circuits[call.name], call.opts, KindOf(e), e.now);
    }
  }

  /** If the calls of each circuit bring the same thresholds and every failure counts for its call, the two services
      admit and reject the same calls and agree on every circuit's state, failure count and last failure, whatever
      interleaving of starts, results, timeouts and resets happens. */
  lemma {:induction false} ServicesAreBisimilar(events: seq<Event>, config: string -> Options)
    requires Uniform(events, config) && FailuresCount(events)
    ensures Bisimilar(LiveRun(events), FixedRun(events))
  {
    if events != [] {
      var n := |events| - 1;
      ServicesAreBisimilar(events[..n], config);
      LiveStaysConfigured(events[..n], config);
      BisimilarStep(LiveRun(events[..n]), FixedRun(events[..n]), events[n], config);
    }
  }

  /** The failure counter tells whether the circuit is closed, and a half-open one is short of successes. */
  predicate ClosedBelow(c: Circuit) {
    && (c.state == CLOSED <==> c.failures < Threshold(c.options.failureThreshold))
    && (c.state == HALF_OPEN ==> c.successes < Threshold(c.options.successThreshold))
  }

  lemma TransitionsKeepClosedBelow(c: Circuit, opts: Options, kind: ErrorKind, now: int)
    requires ClosedBelow(c) && SameThresholds(opts, c.options)
    ensures ClosedBelow(LiveSuccess(c, opts)) && ClosedBelow(LiveFailure(c, opts, kind, now))
    ensures ClosedBelow(ResetTo(c)) && ClosedBelow(Gate(c, opts, now).0)
  {
  }

  lemma ClosedBelowStep(w: World, e: Event, config: string -> Options, name: string)
    requires Configured(w, config) && (e.Start? ==> SameThresholds(e.opts, config(e.name)))
    requires name in w.circuits ==> ClosedBelow(w.circuits[name])
    ensures name in LiveStep(w, e).circuits ==> ClosedBelow(LiveStep(w, e).circuits[name])
  {
    if name in w.circuits {
      if e.Start? && e.name == name {
        TransitionsKeepClosedBelow(w.circuits[name], e.opts, TIMED_OUT, e.now);
      } else if Settles(w, e) && w.calls[e.call].name == name {
        TransitionsKeepClosedBelow(w.circuits[name], w.calls[e.call].opts, KindOf(e), e.now);
      }
    }
  }

  lemma {:induction false} ClosedIffBelowThreshold(events: seq<Event>, config: string -> Options, name: string)
    requires Uniform(events, config)
    ensures var w := LiveRun(events); name in w.circuits ==> ClosedBelow(w.circuits[name])
  {
    if events != [] {
      var n := |events| - 1;
      ClosedIffBelowThreshold(events[..n], config, name);
      LiveStaysConfigured(events[..n], config);
      ClosedBelowStep(LiveRun(events[..n]), events[n], config, name);
    }
  }

  // ------------------------------------- which options keep the services together

  /** Which options calls may bring to a circuit, and which errors they may meet there. A timeout is always possible. */
  datatype Usage = Usage(brings: (string, Options) -> bool, meets: (string, ErrorKind) -> bool)

  predicate Possible(u: Usage, name: string, kind: ErrorKind) {
    kind == TIMED_OUT || u.meets(name, kind)
  }

  predicate LegalNext(u: Usage, w: World, e: Event) {
    match e
    case Start(_, name, opts, _) => u.brings(name, opts)
    case Reject(call, kind, _) => call in w.calls ==> u.meets(w.calls[call].name, kind)
    case _ => true
  }

  predicate Legal(u: Usage, events: seq<Event>) {
    events == [] ||
    (Legal(u, events[..|events| - 1]) && LegalNext(u, LiveRun(events[..|events| - 1]), events[|events| - 1]))
  }

  /** The moment of the last event; a reset has none of its own. */
  function LastTime(events: seq<Event>): int {
    if events == [] then 0
    else if events[|events| - 1].Reset? then LastTime(events[..|events| - 1])
    else events[|events| - 1].now
  }

  /** The clock never goes back. */
  predicate Clocked(events: seq<Event>) {
    events == [] ||
    (&& Clocked(events[..|events| - 1])
     && (events[|events| - 1].Reset? || LastTime(events[..|events| - 1]) <= events[|events| - 1].now))
  }

  /** One pair of thresholds per circuit, and no possible error that fails to count. */
  ghost predicate Compatible(u: Usage) {
    && (forall name, a, b :: u.brings(name, a) && u.brings(name, b) ==> SameThresholds(a, b))
    && (forall name, a, kind :: u.brings(name, a) && Possible(u, name, kind) ==> Counts(a, kind))
  }

  ghost predicate SameStates(live: World, fixed: World) {
    && live.circuits.Keys == fixed.circuits.Keys
    && forall name :: name in live.circuits ==> live.circuits[name].state == fixed.circuits[name].state
  }

  const DEFAULT_OPTIONS := Options(5, 30_000, 2, 10_000, {})

  ghost function Representative(u: Usage, name: string): (opts: Options)
    ensures (exists o :: u.brings(name, o)) ==> u.brings(name, opts)
  {
    if exists o :: u.brings(name, o) then
      var o :| u.brings(name, o);
      o
    else DEFAULT_OPTIONS
  }

  ghost function Representatives(u: Usage): string -> Options {
    (name: string) => Representative(u, name)
  }

  lemma {:induction false} LegalCalls(u: Usage, events: seq<Event>)
    requires Legal(u, events)
    ensures forall call :: call in LiveRun(events).calls ==>
      u.brings(LiveRun(events).calls[call].name, LiveRun(events).calls[call].opts)
  {
    if events != [] { LegalCalls(u, events[..|events| - 1]); }
  }

  lemma {:induction false} LegalFailuresCount(u: Usage, events: seq<Event>)
    requires Compatible(u) && Legal(u, events)
    ensures FailuresCount(events)
  {
    if events != [] {
      var n := |events| - 1;
      LegalFailuresCount(u, events[..n]);
      LegalCalls(u, events[..n]);
      var w, e := LiveRun(events[..n]), events[n];
      if !e.Resolve? && Settles(w, e) {
        assert u.brings(w.calls[e.call].name, w.calls[e.call].opts) && Possible(u, w.calls[e.call].name, KindOf(e));
      }
    }
  }

  lemma {:induction false} LegalIsUniform(u: Usage, events: seq<Event>)
    requires Compatible(u) && Legal(u, events)
    ensures Uniform(events, Representatives(u))
  {
    if events != [] {
      var n := |events| - 1;
      LegalIsUniform(u, events[..n]);
      forall i | 0 <= i < |events| && events[i].Start?
        ensures SameThresholds(events[i].opts, Representatives(u)(events[i].name))
      {
        if i < n { assert events[i] == events[..n][i]; }
      }
    }
  }

  lemma CompatibleAgree(u: Usage, events: seq<Event>)
    requires Compatible(u) && Legal(u, events)
    ensures Bisimilar(LiveRun(events), FixedRun(events))
  {
    LegalFailuresCount(u, events);
    LegalIsUniform(u, events);
    ServicesAreBisimilar(events, Representatives(u));
  }

  // --------------------------------------------------- runs that part the services

  /** After a legal run by a proper clock, at this moment, nothing is under way and the circuit is in these two
      states. */
  ghost predicate Reaches(u: Usage, events: seq<Event>, name: string, now: int, live: Circuit, fixed: Circuit) {
    && Legal(u, events) && Clocked(events) && LastTime(events) == now
    && LiveRun(events).calls == map[] == FixedRun(events).calls
    && name in LiveRun(events).circuits && name in FixedRun(events).circuits
    && LiveRun(events).circuits[name] == live && FixedRun(events).circuits[name] == fixed
  }

  lemma Extend(u: Usage, events: seq<Event>, e: Event)
    requires Legal(u, events) && LegalNext(u, LiveRun(events), e)
    requires Clocked(events) && !e.Reset? && LastTime(events) <= e.now
    ensures Legal(u, events + [e]) && Clocked(events + [e]) && LastTime(events + [e]) == e.now
    ensures LiveRun(events + [e]) == LiveStep(LiveRun(events), e)
    ensures FixedRun(events + [e]) == FixedStep(FixedRun(events), e)
  {
    assert (events + [e])[..|events|] == events;
  }

  /** The settling of a call, at a moment late enough for it: by success or by an error. */
  datatype Ending = Success | Failure(kind: ErrorKind)

  function Settling(opts: Options, start: int, ending: Ending): Event {
    match ending
    case Success => Resolve(0, start)
    case Failure(kind) =>
      if kind == TIMED_OUT then Expire(0, if opts.timeout < 0 then start else start + opts.timeout)
      else Reject(0, kind, start)
  }

  function LiveAfter(c: Circuit, opts: Options, start: int, ending: Ending): Circuit {
    var e := Settling(opts, start, ending);
    if ending.Success? then LiveSuccess(Gate(c, opts, start).0, opts)
    else LiveFailure(Gate(c, opts, start).0, opts, ending.kind, e.now)
  }

  function FixedAfter(c: Circuit, opts: Options, start: int, ending: Ending): Circuit {
    var e := Settling(opts, start, ending);
    if ending.Success? then FixedSuccess(Gate(c, opts, start).0)
    else FixedFailure(Gate(c, opts, start).0, e.now)
  }

  /** A whole call, started after the last event and settled with nothing in between. */
  lemma OneCall(u: Usage, events: seq<Event>, name: string, now: int, live: Circuit, fixed: Circuit,
                opts: Options, start: int, ending: Ending) returns (more: seq<Event>)
    requires Reaches(u, events, name, now, live, fixed) && u.brings(name, opts) && now <= start
    requires ending.Failure? ==> Possible(u, name, ending.kind)
    requires Gate(live, opts, start).1 && Gate(fixed, opts, start).1
    ensures Reaches(u, more, name, Settling(opts, start, ending).now,
                    LiveAfter(live, opts, start, ending), FixedAfter(fixed, opts, start, ending))
  {
    var first, second := Start(0, name, opts, start), Settling(opts, start, ending);
    Extend(u, events, first);
    var w := LiveRun(events + [first]);
    assert w.calls == map[0 := Call(name, opts, start)] == FixedRun(events + [first]).calls;
    Extend(u, events + [first], second);
    more := events + [first] + [second];
    assert LiveRun(more).calls == map[] == FixedRun(more).calls;
  }

  /** The run that creates the circuit with the given options. */
  lemma FirstCall(u: Usage, name: string, opts: Options) returns (events: seq<Event>)
    requires u.brings(name, opts)
    ensures Reaches(u, events, name, 0, NewCircuit(opts), NewCircuit(opts))
  {
    var first, second := Start(0, name, opts, 0), Resolve(0, 0);
    Extend(u, [], first);
    assert [] + [first] == [first];
    assert LiveRun([first]).calls == map[0 := Call(name, opts, 0)] == FixedRun([first]).calls;
    Extend(u, [first], second);
    events := [first] + [second];
    assert LiveRun(events).calls == map[] == FixedRun(events).calls;
  }

  predicate OpenFrom(c: Circuit, failures: int, threshold: int) {
    c.failures == failures && c.state == if failures >= threshold then OPEN else CLOSED
  }

  /** Timeouts of calls with options `a` on a circuit that was created with options `b`. */
  lemma {:induction false} TimeOutTimes(u: Usage, name: string, a: Options, b: Options, n: nat)
      returns (events: seq<Event>, now: int, live: Circuit, fixed: Circuit)
    requires u.brings(name, a) && u.brings(name, b) && Counts(a, TIMED_OUT)
    requires n <= Threshold(a.failureThreshold) && n <= Threshold(b.failureThreshold)
    ensures Reaches(u, events, name, now, live, fixed)
    ensures OpenFrom(live, n, Threshold(a.failureThreshold)) && OpenFrom(fixed, n, Threshold(b.failureThreshold))
    ensures live.options == fixed.options == b && live.lastFailure == fixed.lastFailure
    decreases n
  {
    if n == 0 {
      events := FirstCall(u, name, b);
      now, live, fixed := 0, NewCircuit(b), NewCircuit(b);
    } else {
      events, now, live, fixed := TimeOutTimes(u, name, a, b, n - 1);
      var ending := Failure(TIMED_OUT);
      events := OneCall(u, events, name, now, live, fixed, a, now, ending);
      live, fixed := LiveAfter(live, a, now, ending), FixedAfter(fixed, a, now, ending);
      now := Settling(a, now, ending).now;
    }
  }

  /** Errors that do not count for calls with options `a`. */
  lemma {:induction false} IgnoreTimes(u: Usage, name: string, a: Options, kind: ErrorKind, n: nat)
      returns (events: seq<Event>, now: int, fixed: Circuit)
    requires u.brings(name, a) && Possible(u, name, kind) && !Counts(a, kind)
    requires n <= Threshold(a.failureThreshold)
    ensures Reaches(u, events, name, now, NewCircuit(a), fixed)
    ensures OpenFrom(fixed, n, Threshold(a.failureThreshold)) && fixed.options == a
    decreases n
  {
    if n == 0 {
      events := FirstCall(u, name, a);
      now, fixed := 0, NewCircuit(a);
    } else {
      events, now, fixed := IgnoreTimes(u, name, a, kind, n - 1);
      events := OneCall(u, events, name, now, NewCircuit(a), fixed, a, now, Failure(kind));
      fixed := FixedAfter(fixed, a, now, Failure(kind));
      now := Settling(a, now, Failure(kind)).now;
    }
  }

  predicate ClosedFrom(c: Circuit, successes: int, threshold: int) {
    if successes >= threshold then c.state == CLOSED else c.state == HALF_OPEN && c.successes == successes
  }

  /** Successes of calls with options `a` after both circuits, created with options `b`, have opened. */
  lemma {:induction false} SucceedTimes(u: Usage, name: string, a: Options, b: Options, n: nat)
      returns (events: seq<Event>, now: int, live: Circuit, fixed: Circuit)
    requires u.brings(name, a) && u.brings(name, b) && Counts(b, TIMED_OUT)
    requires 0 < n <= Threshold(a.successThreshold) && n <= Threshold(b.successThreshold)
    ensures Reaches(u, events, name, now, live, fixed)
    ensures ClosedFrom(live, n, Threshold(a.successThreshold)) && ClosedFrom(fixed, n, Threshold(b.successThreshold))
    ensures live.options == fixed.options == b
    decreases n
  {
    var start: int;
    if n == 1 {
      events, now, live, fixed := TimeOutTimes(u, name, b, b, Threshold(b.failureThreshold));
      start := live.lastFailure + a.resetTimeout;
      if start < now { start := now; }
    } else {
      events, now, live, fixed := SucceedTimes(u, name, a, b, n - 1);
      start := now;
    }
    events := OneCall(u, events, name, now, live, fixed, a, start, Success);
    live, fixed, now := LiveAfter(live, a, start, Success), FixedAfter(fixed, a, start, Success), start;
  }

  ghost predicate PartedBy(u: Usage, events: seq<Event>, name: string) {
    && Legal(u, events) && Clocked(events) && name in LiveRun(events).circuits && name in FixedRun(events).circuits
    && LiveRun(events).circuits[name].state != FixedRun(events).circuits[name].state
  }

  /** Thresholds that differ by more than their name, or an error that fails to count, put the circuit into different
      states in some run by a proper clock, and calls with just these options are enough for it. */
  lemma DifferentOptionsDiverge(u: Usage, name: string, a: Options, b: Options, kind: ErrorKind)
      returns (events: seq<Event>)
    requires u.brings(name, a) && u.brings(name, b) && Possible(u, name, kind)
    requires !SameThresholds(a, b) || !Counts(a, kind)
    ensures PartedBy(u, events, name)
  {
    var now: int, live: Circuit, fixed: Circuit;
    if !Counts(a, kind) {
      events, now, fixed := IgnoreTimes(u, name, a, kind, Threshold(a.failureThreshold));
    } else if !Counts(a, TIMED_OUT) {
      events, now, fixed := IgnoreTimes(u, name, a, TIMED_OUT, Threshold(a.failureThreshold));
    } else if !Counts(b, TIMED_OUT) {
      events, now, fixed := IgnoreTimes(u, name, b, TIMED_OUT, Threshold(b.failureThreshold));
    } else if Threshold(a.failureThreshold) < Threshold(b.failureThreshold) {
      events, now, live, fixed := TimeOutTimes(u, name, a, b, Threshold(a.failureThreshold));
    } else if Threshold(b.failureThreshold) < Threshold(a.failureThreshold) {
      events, now, live, fixed := TimeOutTimes(u, name, b, a, Threshold(b.failureThreshold));
    } else if Threshold(a.successThreshold) < Threshold(b.successThreshold) {
      events, now, live, fixed := SucceedTimes(u, name, a, b, Threshold(a.successThreshold));
    } else {
      events, now, live, fixed := SucceedTimes(u, name, b, a, Threshold(b.successThreshold));
    }
  }

  ghost predicate AlwaysBisimilar(u: Usage) {
    forall events :: Legal(u, events) && Clocked(events) ==> Bisimilar(LiveRun(events), FixedRun(events))
  }

  ghost predicate AlwaysSameStates(u: Usage) {
    forall events :: Legal(u, events) && Clocked(events) ==> SameStates(LiveRun(events), FixedRun(events))
  }

  /** The exact condition: all interleavings by a proper clock keep the two services together, or just every circuit's
      state the same, if and only if each circuit's calls agree on the two thresholds and no possible error fails to
      count. Then they stay together by any clock. */
  lemma ServicesAgreeIff(u: Usage)
    ensures AlwaysBisimilar(u) <==> Compatible(u)
    ensures AlwaysSameStates(u) <==> Compatible(u)
    ensures Compatible(u) <==> forall events :: Legal(u, events) ==> Bisimilar(LiveRun(events), FixedRun(events))
  {
    if Compatible(u) {
      forall events | Legal(u, events)
        ensures Bisimilar(LiveRun(events), FixedRun(events)) && SameStates(LiveRun(events), FixedRun(events))
      {
        CompatibleAgree(u, events);
      }
    } else {
      var name: string, a: Options, b: Options, kind: ErrorKind := "", DEFAULT_OPTIONS, DEFAULT_OPTIONS, TIMED_OUT;
      if exists n, x, y :: u.brings(n, x) && u.brings(n, y) && !SameThresholds(x, y) {
        name, a, b :| u.brings(name, a) && u.brings(name, b) && !SameThresholds(a, b);
      } else {
        name, a, kind :| u.brings(name, a) && Possible(u, name, kind) && !Counts(a, kind);
        b := a;
      }
      var events := DifferentOptionsDiverge(u, name, a, b, kind);
      assert Legal(u, events) && Clocked(events) && !SameStates(LiveRun(events), FixedRun(events));
      assert !Bisimilar(LiveRun(events), FixedRun(events));
    }
  }

  // ------------------------------------------------------- what history decides

  /** Counted failures since the last success or reset. */
  function FailuresSince(h: seq<Mark>): nat {
    if h == [] then 0
    else
      match h[|h| - 1]
      case Failed(_) => FailuresSince(h[..|h| - 1]) + 1
      case Probe => FailuresSince(h[..|h| - 1])
      case _ => 0
  }

  /** Successes since the last probe. */
  function SuccessesSinceProbe(h: seq<Mark>): nat {
    if h == [] then 0
    else
      match h[|h| - 1]
      case Succeeded => SuccessesSinceProbe(h[..|h| - 1]) + 1
      case Probe => 0
      case _ => SuccessesSinceProbe(h[..|h| - 1])
  }

  /** Nothing but successes since the last probe. */
  predicate OnlySuccessesSinceProbe(h: seq<Mark>) {
    h != [] && (h[|h| - 1].Probe? || (h[|h| - 1].Succeeded? && OnlySuccessesSinceProbe(h[..|h| - 1])))
  }

  function LastFailure(h: seq<Mark>): int {
    if h == [] then 0
    else if h[|h| - 1].Failed? then h[|h| - 1].at
    else LastFailure(h[..|h| - 1])
  }

  /** What the fields of a circuit mean in terms of its history, whatever options its calls bring. */
  predicate Explained(c: Circuit, h: seq<Mark>) {
    && c.lastFailure == LastFailure(h)
    && (c.state == CLOSED ==> c.failures == FailuresSince(h))
    && (c.state == HALF_OPEN ==> c.successes == SuccessesSinceProbe(h))
  }

  ghost predicate AllExplained(w: World) {
    && w.history.Keys <= w.circuits.Keys
    && forall name :: name in w.circuits ==> Explained(w.circuits[name], HistoryOf(w, name))
  }

  /** Each transition of a circuit goes with its mark. */
  lemma TransitionsExplained(c: Circuit, h: seq<Mark>, opts: Options, kind: ErrorKind, now: int)
    requires Explained(c, h)
    ensures Explained(LiveSuccess(c, opts), h + [Succeeded])
    ensures Explained(LiveFailure(c, opts, kind, now), if Counts(opts, kind) then h + [Failed(now)] else h)
    ensures Explained(ResetTo(c), h + [WasReset])
    ensures var (after, admitted) := Gate(c, opts, now);
      Explained(after, if c.state == OPEN && admitted then h + [Probe] else h)
  {
    forall m: Mark ensures (h + [m])[..|h|] == h && (h + [m])[|h|] == m {}
  }

  /** A step that writes one circuit and its history explains all if it explains that one. */
  lemma OneCircuitExplained(w: World, w': World, name: string, c: Circuit, h: seq<Mark>)
    requires AllExplained(w) && Explained(c, h)
    requires w'.circuits == w.circuits[name := c]
    requires w'.history == w.history[name := h] || (w'.history == w.history && h == HistoryOf(w, name))
    ensures AllExplained(w')
  {
    forall other | other in w'.circuits ensures Explained(w'.circuits[other], HistoryOf(w', other)) {
      assert other != name ==> HistoryOf(w', other) == HistoryOf(w, other);
    }
  }

  lemma StartExplained(w: World, call: CallId, name: string, opts: Options, now: int)
    requires AllExplained(w)
    ensures AllExplained(Begin(w, call, name, opts, now))
  {
    var before, h := Before(w, name, opts), HistoryOf(w, name);
    var (after, admitted) := Gate(before, opts, now);
    TransitionsExplained(before, h, opts, TIMED_OUT, now);
    OneCircuitExplained(w, Begin(w, call, name, opts, now), name, after,
                        if before.state == OPEN && admitted then h + [Probe] else h);
  }

  lemma SettleExplained(w: World, e: Event)
    requires AllExplained(w) && Settles(w, e)
    ensures AllExplained(LiveStep(w, e))
  {
    var name, opts := w.calls[e.call].name, w.calls[e.call].opts;
    var c, h := w.circuits[name], HistoryOf(w, name);
    TransitionsExplained(c, h, opts, KindOf(e), e.now);
    if e.Resolve? {
      OneCircuitExplained(w, LiveStep(w, e), name, LiveSuccess(c, opts), h + [Succeeded]);
    } else {
      OneCircuitExplained(w, LiveStep(w, e), name, LiveFailure(c, opts, KindOf(e), e.now),
                          if Counts(opts, KindOf(e)) then h + [Failed(e.now)] else h);
    }
  }

  lemma ExplainedStep(w: World, e: Event)
    requires AllExplained(w)
    ensures AllExplained(LiveStep(w, e))
  {
    if e.Start? {
      StartExplained(w, e.call, e.name, e.opts, e.now);
    } else if e.Reset? {
      if e.name in w.circuits {
        TransitionsExplained(w.circuits[e.name], HistoryOf(w, e.name), w.circuits[e.name].options, TIMED_OUT, 0);
        OneCircuitExplained(w, LiveStep(w, e), e.name, ResetTo(w.circuits[e.name]), HistoryOf(w, e.name) + [WasReset]);
      }
    } else if Settles(w, e) {
      SettleExplained(w, e);
    }
  }

  /** In every reachable state of the live service, whatever options the calls bring: a closed circuit has counted the
      failures since the last success, close or reset, and a half-open one the successes since its probe. */
  lemma {:induction false} HistoryExplainsCircuit(events: seq<Event>)
    ensures AllExplained(LiveRun(events))
  {
    if events != [] {
      var n := |events| - 1;
      HistoryExplainsCircuit(events[..n]);
      ExplainedStep(LiveRun(events[..n]), events[n]);
    }
  }

  /** While a circuit is open, a call is admitted exactly once its own reset timeout has passed since the latest
      counted failure; in the other states every call is admitted. */
  lemma AdmittedIff(events: seq<Event>, call: CallId, name: string, opts: Options, now: int)
    requires name in LiveRun(events).circuits && call !in LiveRun(events).calls
    ensures var w := LiveRun(events);
      var after := LiveStep(w, Start(call, name, opts, now));
      (call in after.calls <==>
         (w.circuits[name].state == OPEN ==> now - LastFailure(HistoryOf(w, name)) >= opts.resetTimeout))
  {
    HistoryExplainsCircuit(events);
    assert Explained(LiveRun(events).circuits[name], HistoryOf(LiveRun(events), name));
  }

  /** A call settles on a half-open circuit. */
  predicate SettlesHalfOpen(w: World, e: Event) {
    Settles(w, e) && w.circuits[w.calls[e.call].name].state == HALF_OPEN
  }

  /** A call that settles on a half-open circuit decides by its own thresholds: a success closes the circuit exactly if
      it completes the call's success threshold, and a failure opens it exactly if it counts for the call and reaches
      the call's failure threshold. */
  lemma HalfOpenDecides(events: seq<Event>, e: Event)
    requires SettlesHalfOpen(LiveRun(events), e)
    ensures var w := LiveRun(events);
      var call := w.calls[e.call];
      var after := LiveStep(w, e).circuits[call.name].state;
      if e.Resolve? then
        after == if SuccessesSinceProbe(HistoryOf(w, call.name)) + 1 >= call.opts.successThreshold
                 then CLOSED else HALF_OPEN
      else
        after == if Counts(call.opts, KindOf(e)) && w.circuits[call.name].failures + 1 >= call.opts.failureThreshold
                 then OPEN else HALF_OPEN
    ensures var w := LiveRun(events);
      var c, after := w.circuits[w.calls[e.call].name], LiveStep(w, e).circuits[w.calls[e.call].name];
      && (e.Resolve? && after.state == CLOSED ==> after.failures == after.successes == 0)
      && (e.Resolve? && after.state == HALF_OPEN ==> after == c.(successes := c.successes + 1))
  {
    HistoryExplainsCircuit(events);
    var w := LiveRun(events);
    assert Explained(w.circuits[w.calls[e.call].name], HistoryOf(w, w.calls[e.call].name));
  }

  /** The whole decision of a settling call, by its own options and the circuit's history. A success clears the failures
      of a closed circuit and does nothing to an open one, however late it comes; a counted failure opens a closed
      circuit exactly if it is the one that completes the call's failure threshold, and is on record in every state; an
      error that does not count changes nothing. */
  lemma SettlingDecides(events: seq<Event>, e: Event)
    requires Settles(LiveRun(events), e)
    ensures var w := LiveRun(events);
      var call := w.calls[e.call];
      var c, after, h := w.circuits[call.name], LiveStep(w, e).circuits[call.name], HistoryOf(w, call.name);
      && after.options == c.options
      && (e.Resolve? && c.state == OPEN ==> after == c)
      && (e.Resolve? && c.state == CLOSED ==> after.state == CLOSED && after.failures == 0)
      && (e.Resolve? ==> after.lastFailure == c.lastFailure)
      && (!e.Resolve? && !Counts(call.opts, KindOf(e)) ==> after == c)
      && (!e.Resolve? && Counts(call.opts, KindOf(e)) ==>
            && after.lastFailure == e.now && after.failures == c.failures + 1 && after.successes == c.successes
            && (c.state == OPEN ==> after.state == OPEN)
            && (c.state == CLOSED ==>
                  after.state == if FailuresSince(h) + 1 >= call.opts.failureThreshold then OPEN else CLOSED))
  {
    HistoryExplainsCircuit(events);
    var w := LiveRun(events);
    assert Explained(w.circuits[w.calls[e.call].name], HistoryOf(w, w.calls[e.call].name));
  }

  /** The same in the service that goes by the options of the circuit's first call: a half-open circuit closes with its
      last missing success and opens again with any failure, a closed one opens with the failure that completes its
      threshold, and an open one stays open. Every failure is on record. */
  lemma FixedSettlingDecides(w: World, e: Event)
    requires Settles(w, e)
    ensures var c, after := w.circuits[w.calls[e.call].name], FixedStep(w, e).circuits[w.calls[e.call].name];
      && after.options == c.options
      && (e.Resolve? ==>
            && after.lastFailure == c.lastFailure
            && (after.state == CLOSED <==>
                  c.state == CLOSED || (c.state == HALF_OPEN && c.successes + 1 >= c.options.successThreshold))
            && (after.state == CLOSED ==> after.failures == 0)
            && (after.state == HALF_OPEN ==> after == c.(successes := c.successes + 1))
            && (c.state == OPEN ==> after == c))
      && (!e.Resolve? ==>
            && after.lastFailure == e.now && after.failures == c.failures + 1
            && (after.state == OPEN <==> c.state != CLOSED || c.failures + 1 >= c.options.failureThreshold)
            && (after.state != OPEN ==> after.state == CLOSED && after.successes == c.successes))
  {
  }

  ghost predicate CountsProbesOnly(w: World) {
    forall name :: name in w.circuits && w.circuits[name].state != HALF_OPEN ==> w.circuits[name].successes == 0
  }

  /** In the corrected service only half-open circuits count successes, on every run. */
  lemma {:induction false} FixedCountsProbesOnly(events: seq<Event>)
    ensures CountsProbesOnly(FixedRun(events))
  {
    if events != [] { FixedCountsProbesOnly(events[..|events| - 1]); }
  }

  /** A settling call is over, and no other circuit and no other call is different, in both services. */
  lemma SettlingTouchesOneCircuit(w: World, e: Event)
    requires Settles(w, e)
    ensures forall w' | w' == LiveStep(w, e) || w' == FixedStep(w, e) ::
      && w'.calls == w.calls - {e.call} && w'.answers == w.answers && w'.circuits.Keys == w.circuits.Keys
      && forall other :: other in w.circuits && other != w.calls[e.call].name ==>
           w'.circuits[other] == w.circuits[other]
  {
  }

  /** What a start does: it makes a circuit that has none, closed and with zero counters; an admitted call is under way;
      on an open circuit it is a probe, which leaves the circuit half-open with no successes yet; a refused call leaves
      the circuit as it is. The two services do the same. */
  lemma StartDecides(w: World, call: CallId, name: string, opts: Options, now: int)
    requires call !in w.calls
    ensures var w' := LiveStep(w, Start(call, name, opts, now));
      && FixedStep(w, Start(call, name, opts, now)) == w'
      && name in w'.circuits && (forall other :: other in w.circuits && other != name ==>
                                   other in w'.circuits && w'.circuits[other] == w.circuits[other])
      && (name !in w.circuits ==> w'.circuits[name] == Circuit(CLOSED, 0, 0, 0, opts) && call in w'.calls)
      && (call in w'.calls ==> w'.calls == w.calls[call := Call(name, opts, now)])
      && (call !in w'.calls ==> w'.calls == w.calls && w'.circuits == w.circuits)
      && (name in w.circuits && call in w'.calls ==>
            w'.circuits[name] == if w.circuits[name].state != OPEN then w.circuits[name]
                                 else w.circuits[name].(state := HALF_OPEN, successes := 0))
      && w'.answers == w.answers + [(call, call in w'.calls)]
  {
    if name in w.circuits { assert w.circuits[name := w.circuits[name]] == w.circuits; }
  }

  /** A reset closes an existing circuit from any state, clears both counters and keeps the time of the last failure;
      the next call is admitted at any time and with any options; no other circuit and no call is different. Both
      services do the same, and neither makes a circuit for a reset. */
  lemma ResetCloses(w: World, name: string, call: CallId, opts: Options, now: int)
    ensures forall w' | w' == LiveStep(w, Reset(name)) || w' == FixedStep(w, Reset(name)) ::
      && w'.circuits.Keys == w.circuits.Keys && w'.calls == w.calls && w'.answers == w.answers
      && (forall other :: other in w.circuits && other != name ==> w'.circuits[other] == w.circuits[other])
      && (name in w.circuits ==>
            && w'.circuits[name].state == CLOSED && w'.circuits[name].failures == w'.circuits[name].successes == 0
            && w'.circuits[name].lastFailure == w.circuits[name].lastFailure
            && w'.circuits[name].options == w.circuits[name].options
            && (call !in w.calls ==>
                  && call in LiveStep(w', Start(call, name, opts, now)).calls
                  && call in FixedStep(w', Start(call, name, opts, now)).calls))
  {
  }

  // ----------------------------------- when a half-open circuit has seen no failure

  ghost predicate PureHalfOpen(w: World) {
    forall name :: name in w.circuits && w.circuits[name].state == HALF_OPEN ==>
      OnlySuccessesSinceProbe(HistoryOf(w, name))
  }

  /** In every state on the way, half-open circuits have seen nothing but successes since their probe. */
  ghost predicate AlwaysPure(events: seq<Event>) {
    PureHalfOpen(LiveRun(events)) && (events == [] || AlwaysPure(events[..|events| - 1]))
  }

  /** If the event is a counted failure on a half-open circuit, it reaches the failure threshold its call brings. */
  predicate Trips(w: World, e: Event) {
    SettlesHalfOpen(w, e) && !e.Resolve? && Counts(w.calls[e.call].opts, KindOf(e)) ==>
      w.circuits[w.calls[e.call].name].failures + 1 >= w.calls[e.call].opts.failureThreshold
  }

  predicate AlwaysTrips(events: seq<Event>) {
    events == [] ||
    (AlwaysTrips(events[..|events| - 1]) && Trips(LiveRun(events[..|events| - 1]), events[|events| - 1]))
  }

  lemma PureAppend(h: seq<Mark>, m: Mark)
    ensures OnlySuccessesSinceProbe(h + [m]) <==> m.Probe? || (m.Succeeded? && OnlySuccessesSinceProbe(h))
  {
    assert (h + [m])[..|h|] == h && (h + [m])[|h|] == m;
  }

  /** A failure that does not trip leaves a half-open circuit behind that has seen it. */
  lemma PureStepIff(w: World, e: Event)
    requires PureHalfOpen(w) && w.history.Keys <= w.circuits.Keys
    ensures PureHalfOpen(LiveStep(w, e)) <==> Trips(w, e)
  {
    var w' := LiveStep(w, e);
    forall name, m: Mark
      ensures OnlySuccessesSinceProbe(HistoryOf(w, name) + [m])
         <==> m.Probe? || (m.Succeeded? && OnlySuccessesSinceProbe(HistoryOf(w, name)))
    {
      PureAppend(HistoryOf(w, name), m);
    }
    if !Trips(w, e) {
      var name := w.calls[e.call].name;
      assert w'.circuits[name].state == HALF_OPEN && HistoryOf(w', name) == HistoryOf(w, name) + [Failed(e.now)];
    }
  }

  /** The exact condition: half-open circuits have always seen only successes since their probe if and only if every
      counted failure on a half-open circuit reached the threshold its own call brought. */
  lemma {:induction false} AlwaysPureIff(events: seq<Event>)
    ensures AlwaysPure(events) <==> AlwaysTrips(events)
  {
    if events != [] {
      var n := |events| - 1;
      AlwaysPureIff(events[..n]);
      HistoryExplainsCircuit(events[..n]);
      if AlwaysPure(events[..n]) { PureStepIff(LiveRun(events[..n]), events[n]); }
    }
  }

  lemma {:induction false} UniformTrips(events: seq<Event>, config: string -> Options)
    requires Uniform(events, config)
    ensures AlwaysTrips(events)
  {
    if events != [] {
      var n := |events| - 1;
      UniformTrips(events[..n], config);
      LiveStaysConfigured(events[..n], config);
    }
  }

  /** If the calls of each circuit bring the same thresholds, a half-open circuit has seen only successes since its
      probe and fewer than the threshold; so it closes with exactly the success that completes it, and opens with the
      first failure that counts. */
  lemma UniformHalfOpen(events: seq<Event>, config: string -> Options, name: string)
    requires Uniform(events, config)
    requires name in LiveRun(events).circuits && LiveRun(events).circuits[name].state == HALF_OPEN
    ensures var h := HistoryOf(LiveRun(events), name);
      OnlySuccessesSinceProbe(h) && SuccessesSinceProbe(h) < Threshold(config(name).successThreshold)
    ensures LiveRun(events).circuits[name].failures >= Threshold(config(name).failureThreshold)
  {
    UniformTrips(events, config);
    AlwaysPureIff(events);
    HistoryExplainsCircuit(events);
    LiveStaysConfigured(events, config);
    ClosedIffBelowThreshold(events, config, name);
    assert Explained(LiveRun(events).circuits[name], HistoryOf(LiveRun(events), name));
  }

  /** Nothing is under way, and the live circuit and its history are these. */
  ghost predicate Stands(events: seq<Event>, name: string, now: int, c: Circuit, h: seq<Mark>) {
    && Clocked(events) && LastTime(events) == now
    && LiveRun(events).calls == map[] && name in LiveRun(events).circuits
    && LiveRun(events).circuits[name] == c && HistoryOf(LiveRun(events), name) == h
  }

  lemma Append(events: seq<Event>, e: Event)
    requires Clocked(events) && !e.Reset? && LastTime(events) <= e.now
    ensures Clocked(events + [e]) && LastTime(events + [e]) == e.now
    ensures LiveRun(events + [e]) == LiveStep(LiveRun(events), e)
  {
    assert (events + [e])[..|events|] == events;
  }

  /** The first half of a single call: the gate lets it through. */
  lemma LiveStart(w: World, name: string, opts: Options, now: int)
    requires w.calls == map[] && Gate(Before(w, name, opts), opts, now).1
    ensures var w', c := LiveStep(w, Start(0, name, opts, now)), Before(w, name, opts);
      && w'.calls == map[0 := Call(name, opts, now)]
      && name in w'.circuits && w'.circuits[name] == Gate(c, opts, now).0
      && HistoryOf(w', name) == if c.state == OPEN then HistoryOf(w, name) + [Probe] else HistoryOf(w, name)
  {
  }

  /** The second half: it settles. */
  lemma LiveSettle(w: World, name: string, opts: Options, now: int, succeeds: bool)
    requires w.calls == map[0 := Call(name, opts, now)] && name in w.circuits && opts.failureTypes == {}
    ensures var w', c := LiveStep(w, if succeeds then Resolve(0, now) else Reject(0, 1, now)), w.circuits[name];
      && w'.calls == map[] && name in w'.circuits
      && w'.circuits[name] == (if succeeds then LiveSuccess(c, opts) else LiveFailure(c, opts, 1, now))
      && HistoryOf(w', name) == HistoryOf(w, name) + [if succeeds then Succeeded else Failed(now)]
  {
  }

  /** A whole call on the live service, in one moment. */
  lemma LiveCall(events: seq<Event>, name: string, now: int, c: Circuit, h: seq<Mark>, opts: Options, start: int,
                 succeeds: bool) returns (more: seq<Event>)
    requires Stands(events, name, now, c, h) || (events == [] && now == 0 && c == NewCircuit(opts) && h == [])
    requires now <= start && Gate(c, opts, start).1 && opts.failureTypes == {}
    ensures var gated := Gate(c, opts, start).0;
      var probed := if c.state == OPEN then h + [Probe] else h;
      if succeeds then Stands(more, name, start, LiveSuccess(gated, opts), probed + [Succeeded])
      else Stands(more, name, start, LiveFailure(gated, opts, 1, start), probed + [Failed(start)])
  {
    var first := Start(0, name, opts, start);
    var second := if succeeds then Resolve(0, start) else Reject(0, 1, start);
    Append(events, first);
    LiveStart(LiveRun(events), name, opts, start);
    Append(events + [first], second);
    LiveSettle(LiveRun(events + [first]), name, opts, start, succeeds);
    more := events + [first] + [second];
  }

  /** From the start, with a strict and a lenient failure threshold on one circuit: a failure opens it, a success
      follows the probe, a counted failure of a lenient call leaves it half-open, and the next success closes it. */
  lemma LenientFailureDoesNotTrip(name: string) returns (events: seq<Event>)
    ensures Clocked(events) && name in LiveRun(events).circuits && LiveRun(events).circuits[name].state == CLOSED
    ensures HistoryOf(LiveRun(events), name) == [Failed(0), Probe, Succeeded, Failed(10), Succeeded]
  {
    var strict, lenient := Options(1, 10, 2, 10_000, {}), Options(9, 10, 2, 10_000, {});
    var c := NewCircuit(strict);
    events := LiveCall([], name, 0, c, [], strict, 0, false);
    c := c.(state := OPEN, failures := 1);
    events := LiveCall(events, name, 0, c, [Failed(0)], strict, 10, true);
    c := c.(state := HALF_OPEN, successes := 1);
    events := LiveCall(events, name, 10, c, [Failed(0), Probe, Succeeded], lenient, 10, false);
    c := c.(failures := 2, lastFailure := 10);
    events := LiveCall(events, name, 10, c, [Failed(0), Probe, Succeeded, Failed(10)], strict, 10, true);
  }
}
