/** Relay authorization: the shared policy cache of relay/auth.go and the watcher of relay/main.go. */
module RelayAuth {
  import opened Wrappers

  datatype Target = Target(address: string, port: nat)

  /** A policy lets flows of its own relay origin reach the addresses it allows, and guests their portal. */
  datatype Policy = Policy(url: string, allowed: set<string>, portal: Option<Target>)

  datatype Answer = Granted(policy: Policy) | Denied | Unavailable

  /** Times are in the clock's units; a check ends within `timeout`, a success is reused for `ttl`. */
  datatype Params = Params(ttl: int, timeout: nat, recheck: nat, capacity: nat)

  /** A call of authorizeBackend; `asked` is the time at which the backend decided. */
  datatype Check =
    | Pending(token: string, started: int, shared: bool)
    | Done(token: string, started: int, shared: bool, answer: Answer, asked: int, ended: int)

  /** The policies map, and every check ever begun; an entry of the map names a shared check. */
  datatype Cache = Cache(policies: map<string, nat>, checks: seq<Check>)

  predicate WellFormed(token: string) { |token| <= 512 && |token| >= 7 && token[..7] == "Bearer " }

  predicate Expired(p: Params, check: Check, now: int) { check.Done? && now >= check.ended + p.ttl }

  ghost predicate InRange(c: Cache) { forall k <- c.policies :: c.policies[k] < |c.checks| }

  function Sweep(p: Params, c: Cache, now: int): map<string, nat>
    requires InRange(c)
  {
    map k | k in c.policies && !Expired(p, c.checks[c.policies[k]], now) :: c.policies[k]
  }

  /** The part of authorize under the lock: the check this call waits for, and the cache afterwards. */
  function Lookup(p: Params, c: Cache, token: string, now: int): (Cache, nat)
    requires InRange(c)
  {
    var id := |c.checks|;
    if p.ttl <= 0 then (c.(checks := c.checks + [Pending(token, now, false)]), id)
    else if token in c.policies && !Expired(p, c.checks[c.policies[token]], now) then (c, c.policies[token])
    else
      var policies := if |c.policies| >= p.capacity then Sweep(p, c, now) else c.policies;
      if |policies| >= p.capacity then (Cache(policies, c.checks + [Pending(token, now, false)]), id)
      else (Cache(policies[token := id], c.checks + [Pending(token, now, true)]), id)
  }

  /** The end of a check; an error removes the entry of its token. */
  function Complete(c: Cache, id: nat, answer: Answer, asked: int, now: int): Cache
    requires id < |c.checks|
  {
    var check := c.checks[id];
    var done := Done(check.token, check.started, check.shared, answer, asked, now);
    Cache(if check.shared && !answer.Granted? then c.policies - {check.token} else c.policies, c.checks[id := done])
  }

  class Authorizer {
    const p: Params
    var policies: map<string, nat>
    var checks: seq<Check>

    ghost function Contents(): Cache
      reads this
    {
      Cache(policies, checks)
    }

    constructor (p: Params)
      ensures this.p == p && Contents() == Cache(map[], [])
    {
      this.p := p;
      policies, checks := map[], [];
    }

    /** relay/auth.go:23-58 up to the wait: `refused` for a token that is not a bearer token of at most 512 characters. */
    method Authorize(token: string, now: int) returns (refused: bool, id: nat)
      requires InRange(Contents())
      modifies this
      ensures refused <==> |token| > 512 || !("Bearer " <= token)
      ensures refused ==> Contents() == old(Contents())
      ensures !refused ==> (Contents(), id) == Lookup(p, old(Contents()), token, now)
    {
      refused, id := !WellFormed(token), |checks|;
      assert WellFormed(token) ==> "Bearer " == token[..7];
      if refused { return; }
      if p.ttl <= 0 {
        checks := checks + [Pending(token, now, false)];
        return;
      }
      if token in policies && (checks[policies[token]].Pending? || now < checks[policies[token]].ended + p.ttl) {
        id := policies[token];
        return;
      }
      if |policies| >= p.capacity {
        RemoveExpired(now);
        if |policies| >= p.capacity {
          checks := checks + [Pending(token, now, false)];
          return;
        }
      }
      policies := policies[token := id];
      checks := checks + [Pending(token, now, true)];
    }

    /** relay/auth.go:46-50 */
    method RemoveExpired(now: int)
      requires InRange(Contents())
      modifies this`policies
      ensures policies == Sweep(p, old(Contents()), now)
    {
      var rest := policies.Keys;
      while rest != {}
        invariant forall k <- policies :: k in old(policies) && policies[k] == old(policies)[k]
        invariant forall k <- old(policies) :: k in policies <==> k in rest || !Expired(p, checks[old(policies)[k]], now)
        decreases |rest|
      {
        var k :| k in rest;
        rest := rest - {k};
        if k in policies && Expired(p, checks[policies[k]], now) {
          policies := policies - {k};
        }
      }
    }

    /** relay/auth.go:64-72 */
    method Finish(id: nat, answer: Answer, asked: int, now: int)
      requires id < |checks|
      modifies this
      ensures Contents() == Complete(old(Contents()), id, answer, asked, now)
    {
      var check := checks[id];
      checks := checks[id := Done(check.token, check.started, check.shared, answer, asked, now)];
      if check.shared && !answer.Granted? {
        policies := policies - {check.token};
      }
    }
  }

  // ---- what the cache keeps -----------------------------------------------

  /** What the backend answers about a token at each moment. */
  type Backend = (string, int) -> Answer

  /** A check belongs to the past, was answered within its timeout, and a grant is one the backend gave meanwhile. */
  ghost predicate CheckOk(p: Params, backend: Backend, check: Check, now: int) {
    match check
    case Pending(_, started, _) => started <= now <= started + p.timeout
    case Done(token, started, _, answer, asked, ended) =>
      started <= asked <= ended <= now && ended <= started + p.timeout
      && (answer.Granted? ==> answer == backend(token, asked))
  }

  ghost predicate EntryOk(c: Cache, k: string)
    requires k in c.policies
  {
    c.policies[k] < |c.checks|
    && var check := c.checks[c.policies[k]];
       check.token == k && check.shared && (check.Done? ==> check.answer.Granted?)
  }

  /** A shared check in flight is the map's entry for its token. */
  ghost predicate InFlightOk(c: Cache, id: nat)
    requires id < |c.checks|
  {
    var check := c.checks[id];
    check.Pending? && check.shared ==> check.token in c.policies && c.policies[check.token] == id
  }

  ghost predicate CacheOk(p: Params, backend: Backend, c: Cache, now: int) {
    && |c.policies| <= p.capacity
    && (forall k <- c.policies :: EntryOk(c, k))
    && (forall id :: 0 <= id < |c.checks| ==> InFlightOk(c, id))
    && (forall id :: 0 <= id < |c.checks| ==> CheckOk(p, backend, c.checks[id], now))
  }

  lemma SweepSmaller(p: Params, c: Cache, now: int)
    requires InRange(c)
    ensures |Sweep(p, c, now)| <= |c.policies|
  {
    SubsetSize(Sweep(p, c, now).Keys, c.policies.Keys);
  }

  /** A lookup keeps the cache in order and never grows it above its capacity. */
  lemma LookupKeeps(p: Params, backend: Backend, c: Cache, token: string, now: int)
    requires CacheOk(p, backend, c, now) && InRange(c)
    ensures CacheOk(p, backend, Lookup(p, c, token, now).0, now)
  {
    var (c', id) := Lookup(p, c, token, now);
    SweepSmaller(p, c, now);
    if c'.checks != c.checks {
      forall i | 0 <= i < |c'.checks| ensures InFlightOk(c', i) {
        if i < |c.checks| { assert InFlightOk(c, i); }
      }
      forall k | k in c'.policies ensures EntryOk(c', k) {
        if k in c.policies { assert EntryOk(c, k); }
      }
    }
  }

  /** A check that ends removes no entry but its own, and leaves the cache in order. */
  lemma CompleteKeeps(p: Params, backend: Backend, c: Cache, id: nat, answer: Answer, asked: int, now: int)
    requires CacheOk(p, backend, c, now) && id < |c.checks| && c.checks[id].Pending?
    requires c.checks[id].started <= asked <= now
    requires answer.Granted? ==> answer == backend(c.checks[id].token, asked)
    ensures CacheOk(p, backend, Complete(c, id, answer, asked, now), now)
    ensures forall k <- c.policies :: k !in Complete(c, id, answer, asked, now).policies ==> c.policies[k] == id
  {
    var c' := Complete(c, id, answer, asked, now);
    assert InFlightOk(c, id);
    SubsetSize(c'.policies.Keys, c.policies.Keys);
    forall i | 0 <= i < |c'.checks| ensures InFlightOk(c', i) {
      assert InFlightOk(c, i);
    }
    forall k | k in c'.policies ensures EntryOk(c', k) {
      assert EntryOk(c, k);
    }
  }

  // ---- callers, watched flows and time ------------------------------------

  /** A call of authorize: the check it waits for. */
  datatype Call = Call(token: string, at: int, check: nat)

  /** Between two ticks, waiting for the answer to a tick, or closed. */
  datatype Phase = Idle(nextTick: int) | Waiting(call: nat) | Closed

  /** A flow under watch, to its portal if it was opened as such; `good` is the last tick whose answer let it go on. */
  datatype Flow = Flow(token: string, address: string, origin: string, portal: Option<Target>, since: int, good: Option<nat>,
                       phase: Phase)

  datatype State = State(now: int, cache: Cache, calls: seq<Call>, flows: seq<Flow>)

  predicate Permits(answer: Answer, f: Flow) {
    && answer.Granted? && answer.policy.url == f.origin
    && (f.address in answer.policy.allowed || PortalFlow(answer.policy, f))
  }

  /** relay/portal.go:72-80 */
  predicate PortalFlow(policy: Policy, f: Flow) {
    f.portal.Some? && policy.portal == f.portal && f.portal.value.address == f.address
  }

  datatype Event =
    | Advance(dt: nat)                                // time passes
    | Request(token: string)                          // a new flow asks for authorization
    | Reply(id: nat, answer: Answer, asked: int)      // a check ends
    | Watch(flow: Flow)                               // a flow comes under watch
    | Tick(i: nat)                                    // its ticker fires
    | Settle(i: nat)                                  // its answer is there
    | Cancel(i: nat)                                  // it ends by itself

  /** The time of the tick, or of the opening, that a flow's next tick is counted from. */
  function Base(s: State, f: Flow): int {
    if f.good.Some? && f.good.value < |s.calls| then s.calls[f.good.value].at else f.since
  }

  ghost predicate Answered(s: State, call: nat) {
    call < |s.calls| && s.calls[call].check < |s.cache.checks| && s.cache.checks[s.calls[call].check].Done?
  }

  /** Time does not pass a deadline: a check ends in time, a ticker fires when due, an answer is taken at once. */
  ghost predicate MayAdvance(p: Params, s: State, to: int) {
    && (forall id :: 0 <= id < |s.cache.checks| && s.cache.checks[id].Pending? ==> to <= s.cache.checks[id].started + p.timeout)
    && (forall i :: 0 <= i < |s.flows| && s.flows[i].phase.Idle? ==> to <= s.flows[i].phase.nextTick)
    && (forall i :: 0 <= i < |s.flows| && s.flows[i].phase.Waiting? ==> !Answered(s, s.flows[i].phase.call))
  }

  ghost predicate Enabled(p: Params, backend: Backend, s: State, e: Event) {
    match e
    case Advance(dt) => MayAdvance(p, s, s.now + dt)
    case Request(token) => WellFormed(token)
    case Reply(id, answer, asked) =>
      id < |s.cache.checks| && s.cache.checks[id].Pending? && s.cache.checks[id].started <= asked <= s.now
      && (answer.Granted? ==> answer == backend(s.cache.checks[id].token, asked))
    case Watch(f) => f.since == s.now && f.good == None && f.phase == Idle(s.now + p.recheck) && WellFormed(f.token)
    case Tick(i) => i < |s.flows| && s.flows[i].phase == Idle(s.now)
    case Settle(i) => i < |s.flows| && s.flows[i].phase.Waiting? && Answered(s, s.flows[i].phase.call)
    case Cancel(i) => i < |s.flows|
  }

  ghost function Ask(p: Params, s: State, token: string): State
    requires InRange(s.cache)
  {
    var (cache, id) := Lookup(p, s.cache, token, s.now);
    s.(cache := cache, calls := s.calls + [Call(token, s.now, id)])
  }

  ghost function Apply(p: Params, backend: Backend, s: State, e: Event): State
    requires InRange(s.cache) && Enabled(p, backend, s, e)
  {
    match e
    case Advance(dt) => s.(now := s.now + dt)
    case Request(token) => Ask(p, s, token)
    case Reply(id, answer, asked) => s.(cache := Complete(s.cache, id, answer, asked, s.now))
    case Watch(f) => s.(flows := s.flows + [f])
    case Tick(i) =>
      Ask(p, s, s.flows[i].token).(flows := s.flows[i := s.flows[i].(phase := Waiting(|s.calls|))])
    case Settle(i) =>
      var f, call := s.flows[i], s.calls[s.flows[i].phase.call];
      var go := Permits(s.cache.checks[call.check].answer, f);
      s.(flows := s.flows[i :=
        if go then f.(good := Some(f.phase.call), phase := Idle(call.at + p.recheck)) else f.(phase := Closed)])
    case Cancel(i) => s.(flows := s.flows[i := s.flows[i].(phase := Closed)])
  }

  /** A call waits for a check of its own token that was in flight when it asked, or had succeeded less than ttl before. */
  ghost predicate CallOk(p: Params, s: State, call: Call) {
    call.check < |s.cache.checks|
    && var check := s.cache.checks[call.check];
       check.token == call.token && check.started <= call.at <= s.now
       && (check.Done? ==> call.at <= check.ended || (check.answer.Granted? && call.at < check.ended + p.ttl))
  }

  ghost predicate GoodOk(s: State, f: Flow) {
    f.good.Some? ==>
      Answered(s, f.good.value)
      && var call := s.calls[f.good.value];
         call.token == f.token && Permits(s.cache.checks[call.check].answer, f)
  }

  ghost predicate PhaseOk(p: Params, s: State, f: Flow) {
    match f.phase
    case Idle(nextTick) => s.now <= nextTick == Base(s, f) + p.recheck
    case Waiting(call) =>
      call < |s.calls| && s.calls[call].token == f.token
      && s.calls[call].at == Base(s, f) + p.recheck && s.now <= s.calls[call].at + p.timeout
    case Closed => true
  }

  /** The cache and the calls that wait on it, whatever the timings are. */
  ghost predicate Shared(p: Params, backend: Backend, s: State) {
    && CacheOk(p, backend, s.cache, s.now)
    && (forall i :: 0 <= i < |s.calls| ==> CallOk(p, s, s.calls[i]))
  }

  ghost predicate Inv(p: Params, backend: Backend, s: State) {
    && Shared(p, backend, s)
    && (forall i :: 0 <= i < |s.flows| ==> GoodOk(s, s.flows[i]) && PhaseOk(p, s, s.flows[i]))
  }

  lemma SharedInRange(p: Params, backend: Backend, s: State)
    requires Shared(p, backend, s)
    ensures InRange(s.cache)
  {
    forall k | k in s.cache.policies ensures s.cache.policies[k] < |s.cache.checks| {
      assert EntryOk(s.cache, k);
    }
  }

  lemma AdvanceShared(p: Params, backend: Backend, s: State, dt: nat)
    requires Shared(p, backend, s) && Enabled(p, backend, s, Advance(dt))
    ensures Shared(p, backend, s.(now := s.now + dt))
  {
    var s' := s.(now := s.now + dt);
    forall id | 0 <= id < |s.cache.checks| ensures CheckOk(p, backend, s.cache.checks[id], s'.now) {
      assert CheckOk(p, backend, s.cache.checks[id], s.now);
    }
    forall i | 0 <= i < |s.calls| ensures CallOk(p, s', s.calls[i]) {
      assert CallOk(p, s, s.calls[i]);
    }
  }

  lemma AdvanceKeeps(p: Params, backend: Backend, s: State, dt: nat)
    requires Inv(p, backend, s) && Enabled(p, backend, s, Advance(dt))
    ensures Inv(p, backend, s.(now := s.now + dt))
  {
    var s' := s.(now := s.now + dt);
    AdvanceShared(p, backend, s, dt);
    forall i | 0 <= i < |s.flows| ensures GoodOk(s', s.flows[i]) && PhaseOk(p, s', s.flows[i]) {
      var f := s.flows[i];
      assert GoodOk(s, f) && PhaseOk(p, s, f);
      if f.phase.Waiting? {
        assert CallOk(p, s, s.calls[f.phase.call]);
      }
    }
  }

  /** The call that a lookup adds waits for a check as it should. */
  lemma AskCall(p: Params, backend: Backend, s: State, token: string)
    requires Shared(p, backend, s) && InRange(s.cache)
    ensures var s' := Ask(p, s, token); CallOk(p, s', s'.calls[|s.calls|])
  {
    if token in s.cache.policies {
      assert EntryOk(s.cache, token);
      assert CheckOk(p, backend, s.cache.checks[s.cache.policies[token]], s.now);
    }
  }

  /** A lookup changes no earlier check. */
  lemma AskExtends(p: Params, s: State, token: string)
    requires InRange(s.cache)
    ensures var s' := Ask(p, s, token); s.cache.checks <= s'.cache.checks && s.calls <= s'.calls
  {
  }

  lemma AskShared(p: Params, backend: Backend, s: State, token: string)
    requires Shared(p, backend, s) && InRange(s.cache)
    ensures Shared(p, backend, Ask(p, s, token))
  {
    var s' := Ask(p, s, token);
    LookupKeeps(p, backend, s.cache, token, s.now);
    AskExtends(p, s, token);
    AskCall(p, backend, s, token);
    forall i | 0 <= i < |s'.calls| ensures CallOk(p, s', s'.calls[i]) {
      if i < |s.calls| { assert CallOk(p, s, s.calls[i]); }
    }
  }

  lemma AskKeeps(p: Params, backend: Backend, s: State, token: string)
    requires Inv(p, backend, s) && InRange(s.cache)
    ensures Inv(p, backend, Ask(p, s, token))
  {
    var s' := Ask(p, s, token);
    AskShared(p, backend, s, token);
    AskExtends(p, s, token);
    forall i | 0 <= i < |s.flows| ensures GoodOk(s', s.flows[i]) && PhaseOk(p, s', s.flows[i]) {
      assert GoodOk(s, s.flows[i]) && PhaseOk(p, s, s.flows[i]);
    }
  }

  lemma ReplyShared(p: Params, backend: Backend, s: State, id: nat, answer: Answer, asked: int)
    requires Shared(p, backend, s) && Enabled(p, backend, s, Reply(id, answer, asked))
    ensures Shared(p, backend, s.(cache := Complete(s.cache, id, answer, asked, s.now)))
  {
    var s' := s.(cache := Complete(s.cache, id, answer, asked, s.now));
    CompleteKeeps(p, backend, s.cache, id, answer, asked, s.now);
    forall i | 0 <= i < |s.calls| ensures CallOk(p, s', s.calls[i]) {
      assert CallOk(p, s, s.calls[i]);
    }
  }

  lemma ReplyKeeps(p: Params, backend: Backend, s: State, id: nat, answer: Answer, asked: int)
    requires Inv(p, backend, s) && Enabled(p, backend, s, Reply(id, answer, asked))
    ensures Inv(p, backend, s.(cache := Complete(s.cache, id, answer, asked, s.now)))
  {
    var s' := s.(cache := Complete(s.cache, id, answer, asked, s.now));
    ReplyShared(p, backend, s, id, answer, asked);
    forall i | 0 <= i < |s.flows| ensures GoodOk(s', s.flows[i]) && PhaseOk(p, s', s.flows[i]) {
      assert GoodOk(s, s.flows[i]) && PhaseOk(p, s, s.flows[i]);
    }
  }

  /** The cache and its calls do not depend on the flows. */
  lemma FlowsShared(p: Params, backend: Backend, s: State, flows: seq<Flow>)
    requires Shared(p, backend, s)
    ensures Shared(p, backend, s.(flows := flows))
  {
    forall j | 0 <= j < |s.calls| ensures CallOk(p, s.(flows := flows), s.calls[j]) {
      assert CallOk(p, s, s.calls[j]);
    }
  }

  /** One flow changes, the rest of the state does not. */
  lemma FlowKeeps(p: Params, backend: Backend, s: State, flows: seq<Flow>, i: nat)
    requires Inv(p, backend, s) && i < |flows| && |s.flows| <= |flows|
    requires forall j {:trigger flows[j]} :: 0 <= j < |flows| && j != i ==> j < |s.flows| && flows[j] == s.flows[j]
    requires GoodOk(s, flows[i]) && PhaseOk(p, s, flows[i])
    ensures Inv(p, backend, s.(flows := flows))
  {
    var s' := s.(flows := flows);
    forall j | 0 <= j < |flows| ensures GoodOk(s', flows[j]) && PhaseOk(p, s', flows[j]) {
      var f := flows[j];
      if j != i { assert f == s.flows[j]; }
    }
    FlowsShared(p, backend, s, flows);
  }

  lemma TickKeeps(p: Params, backend: Backend, s: State, i: nat)
    requires Inv(p, backend, s) && InRange(s.cache) && Enabled(p, backend, s, Tick(i))
    ensures Inv(p, backend, Apply(p, backend, s, Tick(i)))
  {
    var f, asked := s.flows[i], Ask(p, s, s.flows[i].token);
    assert GoodOk(s, f) && PhaseOk(p, s, f);
    AskKeeps(p, backend, s, f.token);
    AskExtends(p, s, f.token);
    FlowKeeps(p, backend, asked, s.flows[i := f.(phase := Waiting(|s.calls|))], i);
  }

  lemma SettleKeeps(p: Params, backend: Backend, s: State, i: nat)
    requires p.timeout < p.recheck && Inv(p, backend, s) && InRange(s.cache) && Enabled(p, backend, s, Settle(i))
    ensures Inv(p, backend, Apply(p, backend, s, Settle(i)))
  {
    assert GoodOk(s, s.flows[i]) && PhaseOk(p, s, s.flows[i]);
    FlowKeeps(p, backend, s, Apply(p, backend, s, Settle(i)).flows, i);
  }

  /** Every step keeps the cache in order, with any timings. */
  lemma StepShared(p: Params, backend: Backend, s: State, e: Event)
    requires Shared(p, backend, s) && InRange(s.cache) && Enabled(p, backend, s, e)
    ensures Shared(p, backend, Apply(p, backend, s, e))
  {
    hide Shared, Ask, Complete;
    var s' := Apply(p, backend, s, e);
    match e
    case Advance(dt) => AdvanceShared(p, backend, s, dt);
    case Request(token) => AskShared(p, backend, s, token);
    case Reply(id, answer, asked) => ReplyShared(p, backend, s, id, answer, asked);
    case Watch(_) => FlowsShared(p, backend, s, s'.flows);
    case Tick(i) =>
      AskShared(p, backend, s, s.flows[i].token);
      FlowsShared(p, backend, Ask(p, s, s.flows[i].token), s'.flows);
    case Settle(_) => FlowsShared(p, backend, s, s'.flows);
    case Cancel(_) => FlowsShared(p, backend, s, s'.flows);
  }

  /** Every step keeps the invariant, given that a check ends before the next tick of its flow. */
  lemma StepKeeps(p: Params, backend: Backend, s: State, e: Event)
    requires p.timeout < p.recheck && Inv(p, backend, s) && InRange(s.cache) && Enabled(p, backend, s, e)
    ensures Inv(p, backend, Apply(p, backend, s, e))
  {
    match e
    case Advance(dt) => AdvanceKeeps(p, backend, s, dt);
    case Request(token) => AskKeeps(p, backend, s, token);
    case Reply(id, answer, asked) => ReplyKeeps(p, backend, s, id, answer, asked);
    case Watch(f) => FlowKeeps(p, backend, s, s.flows + [f], |s.flows|);
    case Tick(i) => TickKeeps(p, backend, s, i);
    case Settle(i) => SettleKeeps(p, backend, s, i);
    case Cancel(i) =>
      assert GoodOk(s, s.flows[i]);
      FlowKeeps(p, backend, s, s.flows[i := s.flows[i].(phase := Closed)], i);
  }

  // ---- every run ----------------------------------------------------------

  /** Any interleaving of requests, replies, ticks and the passing of time, from an idle relay. */
  datatype Run = Run(p: Params, backend: Backend, events: seq<Event>, states: seq<State>) {
    ghost predicate Valid() {
      && |states| == |events| + 1
      && states[0].cache == Cache(map[], []) && states[0].calls == [] && states[0].flows == []
      && forall i :: 0 <= i < |events| ==> Step(i)
    }

    ghost predicate Step(i: nat)
      requires i < |events| && |states| == |events| + 1
    {
      InRange(states[i].cache) && Enabled(p, backend, states[i], events[i])
      && states[i + 1] == Apply(p, backend, states[i], events[i])
    }
  }

  lemma {:induction false} ReachableCache(run: Run, n: nat)
    requires run.Valid() && n < |run.states|
    ensures Shared(run.p, run.backend, run.states[n])
  {
    if n > 0 {
      ReachableCache(run, n - 1);
      assert run.Step(n - 1);
      StepShared(run.p, run.backend, run.states[n - 1], run.events[n - 1]);
    }
  }

  /** In every reachable state every event that the relay allows can happen, so that runs are all there are. */
  lemma EveryEventPossible(run: Run, e: Event)
    requires run.Valid() && Enabled(run.p, run.backend, run.states[|run.events|], e)
    ensures InRange(run.states[|run.events|].cache)
    ensures var s := Apply(run.p, run.backend, run.states[|run.events|], e);
      Run(run.p, run.backend, run.events + [e], run.states + [s]).Valid()
  {
    var n := |run.events|;
    ReachableCache(run, n);
    SharedInRange(run.p, run.backend, run.states[n]);
    var longer := Run(run.p, run.backend, run.events + [e], run.states + [Apply(run.p, run.backend, run.states[n], e)]);
    forall i | 0 <= i < n + 1 ensures longer.Step(i) {
      if i < n { assert run.Step(i); }
    }
  }

  lemma {:induction false} Reachable(run: Run, n: nat)
    requires run.Valid() && run.p.timeout < run.p.recheck && n < |run.states|
    ensures Inv(run.p, run.backend, run.states[n])
  {
    if n > 0 {
      Reachable(run, n - 1);
      assert run.Step(n - 1);
      StepKeeps(run.p, run.backend, run.states[n - 1], run.events[n - 1]);
    }
  }

  /** A check in flight is the only entry of its token; the map is bounded; an entry that ended had succeeded. */
  lemma OneCheckPerToken(run: Run, n: nat, id: nat)
    requires run.Valid() && n < |run.states| && id < |run.states[n].cache.checks|
    ensures var c := run.states[n].cache;
      && |c.policies| <= run.p.capacity
      && (c.checks[id].Pending? && c.checks[id].shared ==>
            c.checks[id].token in c.policies && c.policies[c.checks[id].token] == id)
      && (forall k <- c.policies :: c.policies[k] < |c.checks| && c.checks[c.policies[k]].token == k)
  {
    ReachableCache(run, n);
    var c := run.states[n].cache;
    assert InFlightOk(c, id);
    forall k | k in c.policies ensures c.policies[k] < |c.checks| && c.checks[c.policies[k]].token == k {
      assert EntryOk(c, k);
    }
  }

  /** Without a time to live nothing is shared: every call has a check of its own, begun when it asks. */
  lemma {:induction false} NothingShared(run: Run, n: nat)
    requires run.Valid() && n < |run.states| && run.p.ttl <= 0
    ensures var s := run.states[n];
      && s.cache.policies == map[]
      && (forall i :: 0 <= i < |s.calls| ==>
            s.calls[i].check < |s.cache.checks| && s.cache.checks[s.calls[i].check].started == s.calls[i].at)
      && (forall i, j :: 0 <= i < j < |s.calls| ==> s.calls[i].check != s.calls[j].check)
  {
    if n > 0 {
      NothingShared(run, n - 1);
      assert run.Step(n - 1);
    }
  }

  /**
   * A call gets the answer of a check of its own token: an error only of one it joined in flight, else a success
   * younger than ttl.
   */
  lemma AnswersAreOwn(run: Run, n: nat, i: nat)
    requires run.Valid() && n < |run.states| && i < |run.states[n].calls|
    requires Answered(run.states[n], i)
    ensures var s := run.states[n];
      var call, check := s.calls[i], s.cache.checks[s.calls[i].check];
      && check.token == call.token && check.started <= call.at
      && (!check.answer.Granted? ==> call.at <= check.ended)
      && (check.answer.Granted? ==> call.at < check.ended + run.p.ttl || call.at <= check.ended)
      && (check.answer.Granted? ==> check.answer == run.backend(call.token, check.asked))
  {
    ReachableCache(run, n);
    var s := run.states[n];
    assert CallOk(run.p, s, s.calls[i]);
    assert CheckOk(run.p, run.backend, s.cache.checks[s.calls[i].check], s.now);
  }

  /** An answer on which a flow may not go on: an error, another relay, or a policy that neither allows nor is its portal. */
  predicate Refuses(answer: Answer, f: Flow) {
    match answer
    case Granted(Policy(url, allowed, portal)) =>
      url != f.origin || (f.address !in allowed && (f.portal.None? || f.portal.value.address != f.address || portal != f.portal))
    case _ => true
  }

  /** From `from` on the backend gives no other answer about the flow's token. */
  ghost predicate RevokedFrom(backend: Backend, f: Flow, from: int) {
    forall t :: t >= from ==> Refuses(backend(f.token, t), f)
  }

  /**
   * A flow ends by itself, or by a tick whose answer refuses it; that answer is about its own token, and a tick with any
   * other answer lets it go on until the next.
   */
  lemma ClosedForCause(run: Run, n: nat, i: nat)
    requires run.Valid() && run.p.timeout < run.p.recheck && n < |run.events|
    requires i < |run.states[n].flows| && run.states[n].flows[i].phase != Closed
    ensures i < |run.states[n + 1].flows|
    ensures var e, s, f, f' := run.events[n], run.states[n], run.states[n].flows[i], run.states[n + 1].flows[i];
      && (e == Settle(i) ==>
            && f.phase.Waiting? && Answered(s, f.phase.call) && s.calls[f.phase.call].token == f.token
            && var answer := s.cache.checks[s.calls[f.phase.call].check].answer;
               && (answer.Granted? ==> AnswerGiven(run.backend, s, f.phase.call))
               && f'.phase == if Refuses(answer, f) then Closed else Idle(s.calls[f.phase.call].at + run.p.recheck))
      && (f'.phase == Closed ==> e == Cancel(i) || e == Settle(i))
  {
    assert run.Step(n);
    Reachable(run, n);
    var s, f := run.states[n], run.states[n].flows[i];
    assert GoodOk(s, f) && PhaseOk(run.p, s, f);
    if run.events[n] == Settle(i) { AnswersAreOwn(run, n, f.phase.call); }
  }

  /** The backend gave this answer to the call's token, when the check asked. */
  ghost predicate AnswerGiven(backend: Backend, s: State, call: nat)
    requires Answered(s, call)
  {
    var check := s.cache.checks[s.calls[call].check]; check.answer == backend(s.calls[call].token, check.asked)
  }

  function Max(a: int, b: int): int { if a > b then a else b }

  /** The last moment at which an answer given before `from` can still be handed out. */
  function LastGrant(p: Params, from: int): int { from - 1 + p.timeout + if p.ttl > 0 then p.ttl - 1 else 0 }

  lemma GoodBefore(p: Params, backend: Backend, s: State, i: nat, from: int)
    requires Inv(p, backend, s) && i < |s.flows| && RevokedFrom(backend, s.flows[i], from)
    ensures Base(s, s.flows[i]) <= Max(s.flows[i].since, LastGrant(p, from))
  {
    var f := s.flows[i];
    assert GoodOk(s, f);
    if f.good.Some? {
      var call := s.calls[f.good.value];
      assert CallOk(p, s, call);
      var check := s.cache.checks[call.check];
      assert CheckOk(p, backend, check, s.now);
      assert check.asked < from;
    }
  }

  /** A flow whose permission ends is closed after at most one more tick and one more check. */
  lemma ClosedInTime(run: Run, n: nat, i: nat, from: int)
    requires run.Valid() && run.p.timeout < run.p.recheck && n < |run.states| && i < |run.states[n].flows|
    requires RevokedFrom(run.backend, run.states[n].flows[i], from) && run.states[n].flows[i].phase != Closed
    ensures run.states[n].now <= Max(run.states[n].flows[i].since, LastGrant(run.p, from)) + run.p.recheck + run.p.timeout
  {
    var s := run.states[n];
    Reachable(run, n);
    GoodBefore(run.p, run.backend, s, i, from);
    assert PhaseOk(run.p, s, s.flows[i]);
  }

  /** A flow under watch when its permission ends stays open less than recheck + ttl + 2 * timeout. */
  lemma RevocationBound(run: Run, n: nat, i: nat, from: int)
    requires run.Valid() && 0 < run.p.timeout < run.p.recheck && run.p.ttl > 0
    requires n < |run.states| && i < |run.states[n].flows| && run.states[n].flows[i].since <= from
    requires RevokedFrom(run.backend, run.states[n].flows[i], from)
    requires run.states[n].now >= from + run.p.recheck + run.p.ttl + 2 * run.p.timeout - 1
    ensures run.states[n].flows[i].phase == Closed
  {
    if run.states[n].flows[i].phase != Closed {
      ClosedInTime(run, n, i, from);
      assert false;
    }
  }

  // ---- the bound is reached -----------------------------------------------

  const TOKEN := "Bearer t"
  const POLICY := Policy("https://relay.example", {"192.0.2.1"}, None)

  /** Access ends at time 1. */
  function EndsAtOne(token: string, t: int): Answer { if t < 1 then Granted(POLICY) else Denied }

  function WatchedFlow(since: int, good: Option<nat>, phase: Phase): Flow {
    Flow(TOKEN, "192.0.2.1", "https://relay.example", None, since, good, phase)
  }

  ghost function Last(run: Run): State
    requires |run.states| > 0
  {
    run.states[|run.states| - 1]
  }

  lemma Append(run: Run, e: Event) returns (longer: Run)
    requires run.Valid() && Enabled(run.p, run.backend, Last(run), e)
    ensures InRange(Last(run).cache)
    ensures longer.Valid() && longer.p == run.p && longer.backend == run.backend
    ensures Last(longer) == Apply(run.p, run.backend, Last(run), e)
  {
    EveryEventPossible(run, e);
    longer := Run(run.p, run.backend, run.events + [e], run.states + [Apply(run.p, run.backend, Last(run), e)]);
  }

  /** The relay's timings: a check ends before the next tick, successes are shared. */
  predicate Timings(p: Params) { 0 < p.timeout < p.recheck && p.ttl > 0 && p.capacity > 0 }

  /** The only check so far is one that a success ended at `timeout`; the flow waits for its tick at `next`. */
  ghost predicate Served(run: Run, p: Params, since: int, next: int) {
    && run.p == p && run.backend == EndsAtOne && run.Valid()
    && var s := Last(run);
       && s.now <= next && s.cache == Cache(map[TOKEN := 0], [Done(TOKEN, 0, true, Granted(POLICY), 0, p.timeout)])
       && |s.flows| == 1 && s.flows[0] == WatchedFlow(since, s.flows[0].good, Idle(next))
  }

  /** A flow under watch, and just before access ends a check begins. */
  lemma CheckBegins(p: Params, since: int) returns (run: Run)
    requires Timings(p) && since <= 0 < since + p.recheck
    ensures run.p == p && run.backend == EndsAtOne && run.Valid()
    ensures Last(run) == State(0, Cache(map[TOKEN := 0], [Pending(TOKEN, 0, true)]), [Call(TOKEN, 0, 0)],
                               [WatchedFlow(since, None, Idle(since + p.recheck))])
  {
    run := Run(p, EndsAtOne, [], [State(since, Cache(map[], []), [], [])]);
    run := Append(run, Watch(WatchedFlow(since, None, Idle(since + p.recheck))));
    run := Append(run, Advance(-since));
    run := Append(run, Request(TOKEN));
  }

  /** A tick meanwhile joins the check. */
  lemma TickJoins(run: Run, p: Params, since: int, tick: int) returns (longer: Run)
    requires Timings(p) && run.p == p && run.backend == EndsAtOne && run.Valid() && 0 <= tick < p.timeout
    requires Last(run) == State(0, Cache(map[TOKEN := 0], [Pending(TOKEN, 0, true)]), [Call(TOKEN, 0, 0)],
                                [WatchedFlow(since, None, Idle(tick))])
    ensures Served(longer, p, since, tick + p.recheck)
  {
    longer := Append(run, Advance(tick));
    longer := Append(longer, Tick(0));
    assert Last(longer) == State(tick, Last(run).cache, [Call(TOKEN, 0, 0), Call(TOKEN, tick, 0)],
                                 [WatchedFlow(since, None, Waiting(1))]);
    longer := Append(longer, Advance(p.timeout - tick));
    longer := Append(longer, Reply(0, Granted(POLICY), 0));
    longer := Append(longer, Settle(0));
  }

  /** The check takes its whole timeout and succeeds. */
  lemma CheckEnds(run: Run, p: Params, since: int, tick: int) returns (longer: Run)
    requires Timings(p) && run.p == p && run.backend == EndsAtOne && run.Valid() && p.timeout <= tick
    requires Last(run) == State(0, Cache(map[TOKEN := 0], [Pending(TOKEN, 0, true)]), [Call(TOKEN, 0, 0)],
                                [WatchedFlow(since, None, Idle(tick))])
    ensures Served(longer, p, since, tick)
  {
    longer := Append(run, Advance(p.timeout));
    longer := Append(longer, Reply(0, Granted(POLICY), 0));
  }

  /** A tick before the success expires is served from the cache. */
  lemma TickServed(run: Run, p: Params, since: int, next: int) returns (longer: Run)
    requires Timings(p) && Served(run, p, since, next) && next < p.timeout + p.ttl
    ensures Served(longer, p, since, next + p.recheck) && Last(longer).now == next
  {
    longer := Append(run, Advance(next - Last(run).now));
    longer := Append(longer, Tick(0));
    assert Last(longer).cache == Last(run).cache && Answered(Last(longer), |Last(run).calls|);
    longer := Append(longer, Settle(0));
  }

  /** `m` ticks, `r` apart. */
  function Span(r: nat, m: nat): nat { if m == 0 then 0 else r + Span(r, m - 1) }

  lemma {:induction false} TicksServed(run: Run, p: Params, since: int, next: int, m: nat) returns (longer: Run)
    requires Timings(p) && Served(run, p, since, next) && next + Span(p.recheck, m) == p.timeout + p.ttl - 1
    ensures Served(longer, p, since, p.timeout + p.ttl - 1 + p.recheck)
    decreases m
  {
    longer := TickServed(run, p, since, next);
    if m > 0 { longer := TicksServed(longer, p, since, next + p.recheck, m - 1); }
  }

  lemma CheckAgain(p: Params, c: Cache, now: int)
    requires Timings(p) && c.policies == map[TOKEN := 0] && |c.checks| == 1 && Expired(p, c.checks[0], now)
    ensures Lookup(p, c, TOKEN, now).0.checks == c.checks + [Pending(TOKEN, now, true)]
  {
    assert Sweep(p, c, now) == map[];
  }

  /** The check of the tick after that again takes its whole timeout. */
  lemma LastCheck(run: Run, p: Params, since: int, next: int) returns (longer: Run)
    requires Timings(p) && Served(run, p, since, next) && next >= p.timeout + p.ttl
    ensures longer.p == p && longer.backend == EndsAtOne && longer.Valid()
    ensures var s := Last(longer);
      && s.now == next + p.timeout && |s.flows| == 1 && s.flows[0].phase.Waiting?
      && s.flows[0] == WatchedFlow(since, s.flows[0].good, s.flows[0].phase)
  {
    longer := Append(run, Advance(next - Last(run).now));
    CheckAgain(p, Last(longer).cache, next);
    longer := Append(longer, Tick(0));
    longer := Append(longer, Advance(p.timeout));
  }

  /** Any moment is a first tick after 0 and some ticks more. */
  lemma {:induction false} FirstTick(at: nat, r: nat) returns (since: int, m: nat)
    requires r > 0 && at > 0
    ensures since <= 0 < since + r && since + r + Span(r, m) == at
  {
    if at <= r {
      since, m := at - r, 0;
    } else {
      since, m := FirstTick(at - r, r);
      m := m + 1;
    }
  }

  /** A run with one flow, under watch when its access ends at time 1 and still open at `at`. */
  ghost predicate OpenAt(run: Run, p: Params, at: int) {
    && run.p == p && run.Valid()
    && var s := Last(run);
       |s.flows| == 1 && s.flows[0].since <= 1 && s.flows[0].phase != Closed
       && RevokedFrom(run.backend, s.flows[0], 1) && s.now == at
  }

  ghost predicate StaysOpen(p: Params, at: int) { exists run: Run :: OpenAt(run, p, at) }

  /** The bound is exact, with any timings: in some run a flow is still open one unit before it. */
  lemma BoundIsReached(p: Params)
    requires Timings(p)
    ensures StaysOpen(p, 1 + p.recheck + p.ttl + 2 * p.timeout - 2)
  {
    hide Served;
    var since, m := FirstTick(p.timeout + p.ttl - 1, p.recheck);
    var run := CheckBegins(p, since);
    var tick := since + p.recheck;
    if tick < p.timeout {
      run := TickJoins(run, p, since, tick);
      run := TicksServed(run, p, since, tick + p.recheck, m - 1);
    } else {
      run := CheckEnds(run, p, since, tick);
      run := TicksServed(run, p, since, tick, m);
    }
    run := LastCheck(run, p, since, p.timeout + p.ttl - 1 + p.recheck);
    assert OpenAt(run, p, 1 + p.recheck + p.ttl + 2 * p.timeout - 2);
  }

  /** With the deployed timings, in milliseconds, a flow can outlive its permission by almost twelve seconds. */
  lemma LongerThanNineSeconds()
    ensures StaysOpen(Params(1000, 3000, 5000, 1024), 1 + 11998)
  {
    BoundIsReached(Params(1000, 3000, 5000, 1024));
  }
}
