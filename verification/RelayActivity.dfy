/** Relay accounting: flows, sessions and clients of relay/activity.go, relay/sessions.go and relay/clients.go. */
module RelayActivity {
  import opened Wrappers

  const IDLE_SECONDS := 5 * 60
  const MAX_SESSIONS := 2048
  const MAX_CLIENTS := 2048

  datatype Phase = New | Open | Ended

  /**
   * A flowLog; its ID is its place in the log. `session` is 0 before it has one. `paid` are the counters that
   * finish recorded, and `row` is the client row in which it recorded them.
   */
  datatype Flow = Flow(client: string, identity: string, counted: bool, phase: Phase, wasOpen: bool, session: nat,
                       traffic: Bytes, paid: Bytes, row: nat)

  datatype Bytes = Bytes(up: int, down: int) {
    function Get(dir: bool): int { if dir then up else down }
  }

  const ZERO := Bytes(0, 0)

  function Plus(a: Bytes, b: Bytes): Bytes { Bytes(a.up + b.up, a.down + b.down) }

  /** The client and the credential that a session belongs to. */
  datatype Key = Key(client: string, identity: string)

  datatype Session = Session(key: Key, startedAt: int, lastSeen: int, active: int, accepted: nat, denied: nat, failed: nat,
                             bytes: Bytes, uncounted: int)

  /** A clientActivity; `serial` tells apart the rows that a name has had over time. */
  datatype Client = Client(serial: nat, open: int, accepted: nat, denied: nat, failed: nat,
                           bytes: Bytes, uncounted: int, lastSeen: int)

  /** An activityLog. Session IDs count from 1. */
  datatype Log = Log(flows: seq<Flow>, sessions: map<nat, Session>, current: map<Key, nat>, sequence: nat,
                     clients: map<string, Client>, rows: nat)

  const EMPTY := Log([], map[], map[], 0, map[], 0)

  function KeyOf(f: Flow): Key { Key(f.client, f.identity) }

  function Max(a: int, b: int): int { if a > b then a else b }

  // ---- eviction -----------------------------------------------------------

  /** The row that a full table gives up: the idle one seen longest ago, if any is idle. */
  ghost predicate SessionVictim(sessions: map<nat, Session>, v: Option<nat>) {
    match v
    case None => |sessions| < MAX_SESSIONS || forall id <- sessions :: sessions[id].active != 0
    case Some(x) =>
      |sessions| >= MAX_SESSIONS && x in sessions && sessions[x].active == 0
      && forall id <- sessions :: sessions[id].active == 0 ==> sessions[x].lastSeen <= sessions[id].lastSeen
  }

  ghost predicate ClientVictim(clients: map<string, Client>, v: Option<string>) {
    match v
    case None => |clients| < MAX_CLIENTS || forall c <- clients :: clients[c].open != 0
    case Some(x) =>
      |clients| >= MAX_CLIENTS && x in clients && clients[x].open == 0
      && forall c <- clients :: clients[c].open == 0 ==> clients[x].lastSeen <= clients[c].lastSeen
  }

  /** relay/sessions.go:48-54 */
  method OldestSession(sessions: map<nat, Session>) returns (oldest: Option<nat>)
    ensures SessionVictim(sessions, oldest)
  {
    oldest := None;
    if |sessions| < MAX_SESSIONS { return; }
    var rest := sessions.Keys;
    while rest != {}
      invariant rest <= sessions.Keys
      invariant oldest.None? ==> forall id <- sessions :: id in rest || sessions[id].active != 0
      invariant oldest.Some? ==> oldest.value in sessions && sessions[oldest.value].active == 0
      invariant oldest.Some? ==> forall id <- sessions ::
        id in rest || sessions[id].active != 0 || sessions[oldest.value].lastSeen <= sessions[id].lastSeen
      decreases |rest|
    {
      var id :| id in rest;
      rest := rest - {id};
      if sessions[id].active == 0 && (oldest.None? || sessions[id].lastSeen < sessions[oldest.value].lastSeen) {
        oldest := Some(id);
      }
    }
  }

  ghost predicate AllSeen(clients: map<string, Client>) { forall c <- clients :: clients[c].lastSeen != 0 }

  /** relay/clients.go:37-47; a time of 0 stands for "none yet", so that the oldest is found if no row was seen at time 0. */
  method OldestClient(clients: map<string, Client>) returns (oldest: Option<string>)
    ensures AllSeen(clients) ==> ClientVictim(clients, oldest)
    ensures oldest.Some? ==> |clients| >= MAX_CLIENTS && oldest.value in clients && clients[oldest.value].open == 0
  {
    oldest := None;
    if |clients| < MAX_CLIENTS { return; }
    var rest, name, timestamp := clients.Keys, "", 0;
    while rest != {}
      invariant rest <= clients.Keys
      invariant timestamp == 0 && AllSeen(clients) ==> forall c <- clients :: c in rest || clients[c].open != 0
      invariant timestamp != 0 ==> name in clients && clients[name].open == 0 && clients[name].lastSeen == timestamp
      invariant timestamp != 0 && AllSeen(clients) ==> forall c <- clients ::
        c in rest || clients[c].open != 0 || timestamp <= clients[c].lastSeen
      decreases |rest|
    {
      var c :| c in rest;
      rest := rest - {c};
      if clients[c].open == 0 && (timestamp == 0 || clients[c].lastSeen < timestamp) {
        name, timestamp := c, clients[c].lastSeen;
      }
    }
    if timestamp != 0 { oldest := Some(name); }
  }

  // ---- steps --------------------------------------------------------------

  /** The current session of a key is gone, or has been idle too long to go on. */
  predicate Stale(log: Log, key: Key, now: int) {
    || key !in log.current || log.current[key] !in log.sessions
    || (log.sessions[log.current[key]].active == 0 && now - log.sessions[log.current[key]].lastSeen > IDLE_SECONDS)
  }

  /** Gives up a session, and its place as the current one. */
  function Evict(log: Log, victim: nat): Log
    requires victim in log.sessions
  {
    var key := log.sessions[victim].key;
    log.(sessions := log.sessions - {victim},
         current := if key in log.current && log.current[key] == victim then log.current - {key} else log.current)
  }

  /** relay/sessions.go:63-67 */
  function OpenSession(log: Log, key: Key, now: int): Log {
    var id := log.sequence + 1;
    log.(sessions := log.sessions[id := Session(key, now, now, 0, 0, 0, 0, ZERO, 0)],
         current := log.current[key := id], sequence := id)
  }

  /** relay/sessions.go:46-68: the log afterwards, in which the key has a current session. */
  function Renew(log: Log, key: Key, now: int, victim: Option<nat>): (l: Log)
    requires victim.Some? ==> victim.value in log.sessions
    ensures key in l.current && l.current[key] in l.sessions
    ensures l.flows == log.flows && l.clients == log.clients && l.rows == log.rows
  {
    if Stale(log, key, now) then OpenSession(if victim.Some? then Evict(log, victim.value) else log, key, now) else log
  }

  /** relay/sessions.go:69-70 */
  function Join(log: Log, i: nat, id: nat, now: int): Log
    requires i < |log.flows| && id in log.sessions
  {
    log.(flows := log.flows[i := log.flows[i].(session := id)],
         sessions := log.sessions[id := log.sessions[id].(lastSeen := Max(log.sessions[id].lastSeen, now))])
  }

  /** relay/sessions.go:34-72 for flow i: the log afterwards, in which the flow has its session. */
  function Attach(log: Log, i: nat, now: int, victim: Option<nat>): (l: Log)
    requires i < |log.flows| && (victim.Some? ==> victim.value in log.sessions)
    ensures l.clients == log.clients && l.rows == log.rows
    ensures |l.flows| == |log.flows| && l.flows == log.flows[i := log.flows[i].(session := l.flows[i].session)]
  {
    var f := log.flows[i];
    if f.client == "" || f.session != 0 then log
    else
      var l := Renew(log, KeyOf(f), now, victim);
      Join(l, i, l.current[KeyOf(f)], now)
  }

  function DropClient(log: Log, client: string): Log { log.(clients := log.clients - {client}) }

  /** relay/clients.go:50-51 */
  function AddClient(log: Log, client: string, now: int): Log {
    log.(clients := log.clients[client := Client(log.rows + 1, 0, 0, 0, 0, ZERO, 0, now)], rows := log.rows + 1)
  }

  /** relay/clients.go:30-53: the log afterwards, in which the client has a row. */
  function Admit(log: Log, client: string, now: int, victim: Option<string>): (l: Log)
    ensures l.flows == log.flows && l.sessions == log.sessions && l.current == log.current && l.sequence == log.sequence
    ensures client in l.clients
  {
    if client in log.clients then log.(clients := log.clients[client := log.clients[client].(lastSeen := now)])
    else AddClient(if victim.Some? then DropClient(log, victim.value) else log, client, now)
  }

  /** How an unopened flow ended; an opened one is Done. */
  datatype Kind = Done | Denied | Failed

  function KindOf(f: Flow, status: int): Kind {
    if f.wasOpen then Done else if status >= 500 then Failed else Denied
  }

  function One(b: bool): nat { if b then 1 else 0 }

  /** The end of flow i in the rows of its session and client. */
  function PaySession(s: Session, f: Flow, kind: Kind, now: int): Session {
    s.(lastSeen := now, active := s.active - One(f.wasOpen), denied := s.denied + One(kind == Denied),
       failed := s.failed + One(kind == Failed), bytes := if f.counted then Plus(s.bytes, f.traffic) else s.bytes,
       uncounted := s.uncounted + One(!f.counted && f.wasOpen))
  }

  function PayClient(c: Client, f: Flow, kind: Kind): Client {
    c.(open := c.open - One(f.wasOpen), denied := c.denied + One(kind == Denied), failed := c.failed + One(kind == Failed),
       bytes := if f.counted then Plus(c.bytes, f.traffic) else c.bytes, uncounted := c.uncounted + One(!f.counted && f.wasOpen))
  }

  /** Replaces flow i, the row of its session if it has one, and the row of its client. */
  function Book(log: Log, i: nat, f: Flow, s: Session, c: Client): Log
    requires i < |log.flows|
  {
    log.(flows := log.flows[i := f],
         sessions := if f.session in log.sessions then log.sessions[f.session := s] else log.sessions,
         clients := log.clients[f.client := c])
  }

  const NO_SESSION := Session(Key("", ""), 0, 0, 0, 0, 0, 0, ZERO, 0)

  function SessionOf(log: Log, f: Flow): Session { if f.session in log.sessions then log.sessions[f.session] else NO_SESSION }

  /** relay/activity.go:106-114 */
  function Begin(log: Log): Log {
    log.(flows := log.flows + [Flow("", "", false, New, false, 0, ZERO, ZERO, 0)])
  }

  /** The request names its client and target; relay/main.go:113-162. */
  function Identify(log: Log, i: nat, client: string, identity: string, counted: bool): Log
    requires i < |log.flows|
  {
    log.(flows := log.flows[i := log.flows[i].(client := client, identity := identity, counted := counted)])
  }

  /** Flow i is open, in the rows of its session and its client. */
  function Opened(log: Log, i: nat): Log
    requires i < |log.flows| && log.flows[i].client in log.clients
  {
    var f := log.flows[i];
    var s, c := SessionOf(log, f), log.clients[f.client];
    Book(log, i, f.(phase := Open, wasOpen := true), s.(active := s.active + 1, accepted := s.accepted + 1),
         c.(open := c.open + 1, accepted := c.accepted + 1))
  }

  /** Flow i has ended, in the rows of its session and its client. */
  function Closed(log: Log, i: nat, status: int, now: int): (l: Log)
    requires i < |log.flows| && log.flows[i].client in log.clients
    ensures log.flows[i].client in l.clients
  {
    var f := log.flows[i];
    var kind, s, c := KindOf(f, status), SessionOf(log, f), log.clients[f.client];
    Book(log, i, f.(phase := Ended, paid := f.traffic, row := c.serial), PaySession(s, f, kind, now), PayClient(c, f, kind))
  }

  /** relay/activity.go:116-136 */
  function Connect(log: Log, i: nat, start: int, now: int, v: Option<nat>, cv: Option<string>): Log
    requires i < |log.flows| && (v.Some? ==> v.value in log.sessions)
  {
    Opened(Admit(Attach(log, i, start, v), log.flows[i].client, now, cv), i)
  }

  /** Traffic of flow i; relay/activity.go:94-100 */
  function Add(log: Log, i: nat, b: Bytes): Log
    requires i < |log.flows|
  {
    log.(flows := log.flows[i := log.flows[i].(traffic := Plus(log.flows[i].traffic, b))])
  }

  /** The rows that flow i ends in; relay/activity.go:209, 230. */
  function Settle(log: Log, i: nat, now: int, v: Option<nat>, cv: Option<string>): (l: Log)
    requires i < |log.flows| && (v.Some? ==> v.value in log.sessions)
    ensures log.flows[i].client in l.clients
    ensures |l.flows| == |log.flows| && l.flows == log.flows[i := log.flows[i].(session := l.flows[i].session)]
  {
    Attach(Admit(log, log.flows[i].client, now, cv), i, now, v)
  }

  /** relay/activity.go:248-250 */
  function Trim(log: Log, client: string): Log
    requires client in log.clients
  {
    if |log.clients| > MAX_CLIENTS && log.clients[client].open == 0 then DropClient(log, client) else log
  }

  /** relay/activity.go:179-251 */
  function Finish(log: Log, i: nat, status: int, now: int, v: Option<nat>, cv: Option<string>): Log
    requires i < |log.flows| && (v.Some? ==> v.value in log.sessions)
  {
    if log.flows[i].phase == Ended then log
    else
      Trim(Closed(Settle(log, i, now, v, cv), i, status, now), log.flows[i].client)
  }

  // ---- counting flows -----------------------------------------------------

  /** Numbers that flows add up to. */
  datatype Measure =
    | Active(id: nat)                                    // open flows of a session
    | Paid(id: nat, dir: bool)                           // bytes of its finished counted flows
    | Uncounted(id: nat)                                 // its finished flows without counters
    | Live(id: nat, dir: bool)                           // bytes of its open counted flows
    | OpenOf(client: string)                             // the same for a client, or one row of it
    | PaidOf(client: string, row: nat, dir: bool)
    | UncountedOf(client: string, row: nat)
    | LiveOf(client: string, dir: bool)
    | LiveUncounted(id: nat)                             // open flows without counters
    | LiveUncountedOf(client: string)

  function Weigh(m: Measure, f: Flow): int {
    match m
    case Active(id) => One(f.phase == Open && f.session == id)
    case Paid(id, dir) => if f.phase == Ended && f.counted && f.session == id then f.paid.Get(dir) else 0
    case Uncounted(id) => One(f.phase == Ended && f.wasOpen && !f.counted && f.session == id)
    case Live(id, dir) => if f.phase == Open && f.counted && f.session == id then f.traffic.Get(dir) else 0
    case OpenOf(c) => One(f.phase == Open && f.client == c)
    case PaidOf(c, row, dir) => if f.phase == Ended && f.counted && f.client == c && f.row == row then f.paid.Get(dir) else 0
    case UncountedOf(c, row) => One(f.phase == Ended && f.wasOpen && !f.counted && f.client == c && f.row == row)
    case LiveOf(c, dir) => if f.phase == Open && f.counted && f.client == c then f.traffic.Get(dir) else 0
    case LiveUncounted(id) => One(f.phase == Open && !f.counted && f.session == id)
    case LiveUncountedOf(c) => One(f.phase == Open && !f.counted && f.client == c)
  }

  ghost function Total(flows: seq<Flow>, m: Measure): int {
    if flows == [] then 0 else Total(flows[..|flows| - 1], m) + Weigh(m, flows[|flows| - 1])
  }

  lemma {:induction false} TotalReplace(flows: seq<Flow>, i: nat, f: Flow, m: Measure)
    requires i < |flows|
    ensures Total(flows[i := f], m) == Total(flows, m) - Weigh(m, flows[i]) + Weigh(m, f)
  {
    var n := |flows| - 1;
    if i == n {
      assert flows[i := f][..n] == flows[..n];
    } else {
      assert flows[i := f][..n] == flows[..n][i := f];
      TotalReplace(flows[..n], i, f, m);
    }
  }

  lemma TotalAppend(flows: seq<Flow>, f: Flow, m: Measure)
    ensures Total(flows + [f], m) == Total(flows, m) + Weigh(m, f)
  {
    assert (flows + [f])[..|flows|] == flows;
  }

  lemma {:induction false} TotalZero(flows: seq<Flow>, m: Measure)
    requires forall i :: 0 <= i < |flows| ==> Weigh(m, flows[i]) == 0
    ensures Total(flows, m) == 0
  {
    if flows != [] { TotalZero(flows[..|flows| - 1], m); }
  }

  /** A count that is zero counts nothing. */
  lemma {:induction false} TotalCounts(flows: seq<Flow>, m: Measure, i: nat)
    requires (m.Active? || m.OpenOf?) && i < |flows|
    ensures 0 <= Weigh(m, flows[i]) <= Total(flows, m)
  {
    var n := |flows| - 1;
    if i < n {
      TotalCounts(flows[..n], m, i);
    } else if n > 0 {
      TotalCounts(flows[..n], m, 0);
    }
  }

  // ---- the invariant ------------------------------------------------------

  /** A session row: its open flows, and the bytes of its finished ones; while it has open flows it is the current one. */
  ghost predicate SessionOk(flows: seq<Flow>, id: nat, s: Session, current: map<Key, nat>, sequence: nat) {
    && 0 < id <= sequence
    && s.active == Total(flows, Active(id))
    && s.bytes == Bytes(Total(flows, Paid(id, true)), Total(flows, Paid(id, false)))
    && s.uncounted == Total(flows, Uncounted(id))
    && (s.active > 0 ==> s.key in current && current[s.key] == id)
  }

  ghost predicate SessionsOk(flows: seq<Flow>, sessions: map<nat, Session>, current: map<Key, nat>, sequence: nat) {
    forall id <- sessions :: SessionOk(flows, id, sessions[id], current, sequence)
  }

  ghost predicate CurrentOk(sessions: map<nat, Session>, current: map<Key, nat>) {
    forall key <- current :: current[key] in sessions && sessions[current[key]].key == key
  }

  /** A client row: its open flows, and the bytes of the flows that finished in it. */
  ghost predicate ClientOk(flows: seq<Flow>, c: string, r: Client, rows: nat) {
    && 0 < r.serial <= rows
    && r.open == Total(flows, OpenOf(c))
    && r.bytes == Bytes(Total(flows, PaidOf(c, r.serial, true)), Total(flows, PaidOf(c, r.serial, false)))
    && r.uncounted == Total(flows, UncountedOf(c, r.serial))
  }

  ghost predicate ClientsOk(flows: seq<Flow>, clients: map<string, Client>, rows: nat) {
    forall c <- clients :: ClientOk(flows, c, clients[c], rows)
  }

  /** An open flow has a session of its client and credential. */
  ghost predicate InSession(f: Flow, sessions: map<nat, Session>, sequence: nat) {
    && f.session <= sequence
    && (f.client == "" ==> f.session == 0)
    && (f.phase == Open && f.client != "" ==> f.session in sessions && sessions[f.session].key == KeyOf(f))
  }

  /** An open flow has a client row. */
  ghost predicate HasClient(f: Flow, clients: map<string, Client>, rows: nat) {
    && f.row <= rows
    && (f.phase == New ==> !f.wasOpen)
    && (f.phase == Open ==> f.wasOpen && f.client in clients)
  }

  ghost predicate FlowsOk(log: Log) {
    && (forall i :: 0 <= i < |log.flows| ==> InSession(log.flows[i], log.sessions, log.sequence))
    && (forall i :: 0 <= i < |log.flows| ==> HasClient(log.flows[i], log.clients, log.rows))
  }

  ghost predicate Inv(log: Log) {
    && SessionsOk(log.flows, log.sessions, log.current, log.sequence)
    && CurrentOk(log.sessions, log.current)
    && ClientsOk(log.flows, log.clients, log.rows)
    && FlowsOk(log)
  }

  /** A flow gets its session when it connects or ends. */
  ghost predicate Fresh(log: Log) {
    forall i :: 0 <= i < |log.flows| && log.flows[i].phase == New ==> log.flows[i].session == 0
  }

  // ---- each step keeps it -------------------------------------------------

  ghost function Change(m: Measure, f: Flow, g: Flow): int { Weigh(m, g) - Weigh(m, f) }

  /** The row of a session after one of its flows went from f to g. */
  ghost predicate SessionFollows(s: Session, s': Session, id: nat, f: Flow, g: Flow) {
    && s'.key == s.key
    && s'.active == s.active + Change(Active(id), f, g)
    && s'.bytes == Plus(s.bytes, Bytes(Change(Paid(id, true), f, g), Change(Paid(id, false), f, g)))
    && s'.uncounted == s.uncounted + Change(Uncounted(id), f, g)
  }

  ghost predicate ClientFollows(c: string, r: Client, r': Client, f: Flow, g: Flow) {
    && r'.serial == r.serial
    && r'.open == r.open + Change(OpenOf(c), f, g)
    && r'.bytes == Plus(r.bytes, Bytes(Change(PaidOf(c, r.serial, true), f, g), Change(PaidOf(c, r.serial, false), f, g)))
    && r'.uncounted == r.uncounted + Change(UncountedOf(c, r.serial), f, g)
  }

  lemma SessionStep(flows: seq<Flow>, i: nat, g: Flow, id: nat, s: Session, s': Session, current: map<Key, nat>, sequence: nat)
    requires i < |flows| && SessionOk(flows, id, s, current, sequence)
    requires SessionFollows(s, s', id, flows[i], g)
    requires s'.active > s.active ==> s.key in current && current[s.key] == id
    ensures SessionOk(flows[i := g], id, s', current, sequence)
  {
    hide Total, Weigh;
    TotalReplace(flows, i, g, Active(id));
    TotalReplace(flows, i, g, Paid(id, true));
    TotalReplace(flows, i, g, Paid(id, false));
    TotalReplace(flows, i, g, Uncounted(id));
  }

  lemma ClientStep(flows: seq<Flow>, i: nat, g: Flow, c: string, r: Client, r': Client, rows: nat)
    requires i < |flows| && ClientOk(flows, c, r, rows) && ClientFollows(c, r, r', flows[i], g)
    ensures ClientOk(flows[i := g], c, r', rows)
  {
    hide Total, Weigh;
    TotalReplace(flows, i, g, OpenOf(c));
    TotalReplace(flows, i, g, PaidOf(c, r.serial, true));
    TotalReplace(flows, i, g, PaidOf(c, r.serial, false));
    TotalReplace(flows, i, g, UncountedOf(c, r.serial));
  }

  /** Giving up a session that has no open flow. */
  lemma EvictKeeps(log: Log, v: nat)
    requires Inv(log) && v in log.sessions && log.sessions[v].active == 0
    ensures Inv(Evict(log, v))
  {
    var l := Evict(log, v);
    forall x | x in l.sessions ensures SessionOk(l.flows, x, l.sessions[x], l.current, l.sequence) {
      assert SessionOk(log.flows, x, log.sessions[x], log.current, log.sequence);
    }
    forall i | 0 <= i < |l.flows| ensures InSession(l.flows[i], l.sessions, l.sequence) {
      assert InSession(log.flows[i], log.sessions, log.sequence);
      if log.flows[i].phase == Open {
        assert SessionOk(log.flows, v, log.sessions[v], log.current, log.sequence);
        TotalCounts(log.flows, Active(v), i);
      }
    }
  }

  lemma NewSessionOk(flows: seq<Flow>, id: nat, key: Key, now: int, current: map<Key, nat>)
    requires 0 < id && forall i :: 0 <= i < |flows| ==> flows[i].session != id
    ensures SessionOk(flows, id, Session(key, now, now, 0, 0, 0, 0, ZERO, 0), current, id)
  {
    TotalZero(flows, Active(id));
    TotalZero(flows, Paid(id, true));
    TotalZero(flows, Paid(id, false));
    TotalZero(flows, Uncounted(id));
  }

  /** A new session takes over from one that has no open flow. */
  lemma OpenSessionKeeps(log: Log, key: Key, now: int)
    requires Inv(log)
    requires key in log.current ==> log.sessions[log.current[key]].active == 0
    ensures Inv(OpenSession(log, key, now))
  {
    hide Total;
    var l := OpenSession(log, key, now);
    var id := l.sequence;
    forall i | 0 <= i < |log.flows| ensures log.flows[i].session != id && InSession(l.flows[i], l.sessions, l.sequence) {
      assert InSession(log.flows[i], log.sessions, log.sequence);
    }
    NewSessionOk(log.flows, id, key, now, l.current);
    forall x | x in l.sessions ensures SessionOk(l.flows, x, l.sessions[x], l.current, l.sequence) {
      if x != id { assert SessionOk(log.flows, x, log.sessions[x], log.current, log.sequence); }
    }
  }

  /** A change that no row records: of a flow that has not connected, or of the counters of one that has. */
  ghost predicate Quiet(f: Flow, g: Flow) {
    f.phase == g.phase && (f.phase == New || g == f.(traffic := g.traffic))
  }

  lemma QuietKeeps(log: Log, i: nat, g: Flow)
    requires Inv(log) && i < |log.flows| && Quiet(log.flows[i], g)
    requires InSession(g, log.sessions, log.sequence) && HasClient(g, log.clients, log.rows)
    ensures Inv(log.(flows := log.flows[i := g]))
  {
    hide Total;
    var l := log.(flows := log.flows[i := g]);
    forall x | x in l.sessions ensures SessionOk(l.flows, x, l.sessions[x], l.current, l.sequence) {
      SessionStep(log.flows, i, g, x, log.sessions[x], log.sessions[x], log.current, log.sequence);
    }
    forall c | c in l.clients ensures ClientOk(l.flows, c, l.clients[c], l.rows) {
      ClientStep(log.flows, i, g, c, log.clients[c], log.clients[c], log.rows);
    }
  }

  lemma RenewKeeps(log: Log, key: Key, now: int, v: Option<nat>)
    requires Inv(log) && SessionVictim(log.sessions, v)
    ensures Inv(Renew(log, key, now, v))
  {
    if Stale(log, key, now) {
      if v.Some? {
        EvictKeeps(log, v.value);
        OpenSessionKeeps(Evict(log, v.value), key, now);
      } else {
        OpenSessionKeeps(log, key, now);
      }
    }
  }

  lemma SeenKeeps(log: Log, id: nat, at: int)
    requires Inv(log) && id in log.sessions
    ensures Inv(log.(sessions := log.sessions[id := log.sessions[id].(lastSeen := at)]))
  {
    var l := log.(sessions := log.sessions[id := log.sessions[id].(lastSeen := at)]);
    forall x | x in l.sessions ensures SessionOk(l.flows, x, l.sessions[x], l.current, l.sequence) {
      assert SessionOk(log.flows, x, log.sessions[x], log.current, log.sequence);
    }
    forall i | 0 <= i < |l.flows| ensures InSession(l.flows[i], l.sessions, l.sequence) {
      assert InSession(log.flows[i], log.sessions, log.sequence);
    }
  }

  lemma JoinKeeps(log: Log, i: nat, id: nat, now: int)
    requires Inv(log) && i < |log.flows| && log.flows[i].phase == New && log.flows[i].client != "" && id in log.sessions
    ensures Inv(Join(log, i, id, now))
  {
    assert SessionOk(log.flows, id, log.sessions[id], log.current, log.sequence);
    assert HasClient(log.flows[i], log.clients, log.rows);
    var f := log.flows[i].(session := id);
    QuietKeeps(log, i, f);
    SeenKeeps(log.(flows := log.flows[i := f]), id, Max(log.sessions[id].lastSeen, now));
  }

  /** The flow is in the session that is current for its client and credential. */
  ghost predicate InCurrent(log: Log, f: Flow) {
    f.client != "" ==> KeyOf(f) in log.current && log.current[KeyOf(f)] == f.session && f.session in log.sessions
  }

  lemma AttachKeeps(log: Log, i: nat, now: int, v: Option<nat>)
    requires Inv(log) && i < |log.flows| && log.flows[i].phase == New && log.flows[i].session == 0
    requires SessionVictim(log.sessions, v)
    ensures var l := Attach(log, i, now, v);
      Inv(l) && InCurrent(l, l.flows[i])
  {
    var f := log.flows[i];
    if f.client != "" {
      var l := Renew(log, KeyOf(f), now, v);
      RenewKeeps(log, KeyOf(f), now, v);
      JoinKeeps(l, i, l.current[KeyOf(f)], now);
    }
  }

  /** Giving up a client that has no open flow. */
  lemma DropClientKeeps(log: Log, c: string)
    requires Inv(log) && c in log.clients && log.clients[c].open == 0
    ensures Inv(DropClient(log, c))
  {
    var l := DropClient(log, c);
    forall x | x in l.clients ensures ClientOk(l.flows, x, l.clients[x], l.rows) {
      assert ClientOk(log.flows, x, log.clients[x], log.rows);
    }
    forall i | 0 <= i < |l.flows| ensures HasClient(l.flows[i], l.clients, l.rows) {
      assert HasClient(log.flows[i], log.clients, log.rows);
      assert ClientOk(log.flows, c, log.clients[c], log.rows);
      TotalCounts(log.flows, OpenOf(c), i);
    }
  }

  lemma AddClientKeeps(log: Log, c: string, now: int)
    requires Inv(log) && c !in log.clients
    ensures Inv(AddClient(log, c, now))
  {
    var l := AddClient(log, c, now);
    forall i | 0 <= i < |l.flows|
      ensures HasClient(l.flows[i], l.clients, l.rows) && log.flows[i].row <= log.rows && Weigh(OpenOf(c), log.flows[i]) == 0
    {
      assert HasClient(log.flows[i], log.clients, log.rows);
    }
    TotalZero(l.flows, OpenOf(c));
    TotalZero(l.flows, PaidOf(c, l.rows, true));
    TotalZero(l.flows, PaidOf(c, l.rows, false));
    TotalZero(l.flows, UncountedOf(c, l.rows));
    forall x | x in l.clients ensures ClientOk(l.flows, x, l.clients[x], l.rows) {
      if x != c { assert ClientOk(log.flows, x, log.clients[x], log.rows); }
    }
  }

  lemma AdmitKeeps(log: Log, c: string, now: int, cv: Option<string>)
    requires Inv(log) && ClientVictim(log.clients, cv)
    ensures Inv(Admit(log, c, now, cv))
  {
    if c in log.clients {
      var l := Admit(log, c, now, cv);
      forall x | x in l.clients ensures ClientOk(l.flows, x, l.clients[x], l.rows) {
        assert ClientOk(log.flows, x, log.clients[x], log.rows);
      }
      forall i | 0 <= i < |l.flows| ensures HasClient(l.flows[i], l.clients, l.rows) {
        assert HasClient(log.flows[i], log.clients, log.rows);
      }
    } else if cv.Some? {
      DropClientKeeps(log, cv.value);
      AddClientKeeps(DropClient(log, cv.value), c, now);
    } else {
      AddClientKeeps(log, c, now);
    }
  }

  /** Booking keeps the session rows if the flow's own row follows it: the flow weighs nothing in the others. */
  lemma BookSessions(log: Log, i: nat, g: Flow, s: Session, c: Client)
    requires Inv(log) && i < |log.flows| && g.session == log.flows[i].session
    requires g.session in log.sessions ==>
      && SessionFollows(log.sessions[g.session], s, g.session, log.flows[i], g)
      && (s.active > log.sessions[g.session].active ==> s.key in log.current && log.current[s.key] == g.session)
    ensures var l := Book(log, i, g, s, c);
      SessionsOk(l.flows, l.sessions, l.current, l.sequence) && CurrentOk(l.sessions, l.current)
  {
    hide Total;
    var l := Book(log, i, g, s, c);
    forall x | x in l.sessions ensures SessionOk(l.flows, x, l.sessions[x], l.current, l.sequence) {
      SessionStep(log.flows, i, g, x, log.sessions[x], l.sessions[x], log.current, log.sequence);
    }
  }

  lemma BookClients(log: Log, i: nat, g: Flow, s: Session, c: Client)
    requires Inv(log) && i < |log.flows| && g.client == log.flows[i].client && g.client in log.clients
    requires ClientFollows(g.client, log.clients[g.client], c, log.flows[i], g)
    ensures var l := Book(log, i, g, s, c); ClientsOk(l.flows, l.clients, l.rows)
  {
    var l := Book(log, i, g, s, c);
    forall x | x in l.clients ensures ClientOk(l.flows, x, l.clients[x], l.rows) {
      ClientStep(log.flows, i, g, x, log.clients[x], l.clients[x], log.rows);
    }
  }

  lemma BookKeeps(log: Log, i: nat, g: Flow, s: Session, c: Client)
    requires Inv(log) && i < |log.flows|
    requires g.session == log.flows[i].session && g.client == log.flows[i].client && g.client in log.clients
    requires g.session in log.sessions ==>
      && SessionFollows(log.sessions[g.session], s, g.session, log.flows[i], g)
      && (s.active > log.sessions[g.session].active ==> s.key in log.current && log.current[s.key] == g.session)
    requires ClientFollows(g.client, log.clients[g.client], c, log.flows[i], g)
    requires InSession(g, log.sessions, log.sequence) && HasClient(g, log.clients, log.rows)
    ensures Inv(Book(log, i, g, s, c))
  {
    var l := Book(log, i, g, s, c);
    BookSessions(log, i, g, s, c);
    BookClients(log, i, g, s, c);
    forall j | 0 <= j < |l.flows| ensures InSession(l.flows[j], l.sessions, l.sequence) {
      assert j != i ==> InSession(log.flows[j], log.sessions, log.sequence);
    }
    forall j | 0 <= j < |l.flows| ensures HasClient(l.flows[j], l.clients, l.rows) {
      assert j != i ==> HasClient(log.flows[j], log.clients, log.rows);
    }
  }

  lemma BeginKeeps(log: Log)
    requires Inv(log)
    ensures Inv(Begin(log))
  {
    var l := Begin(log);
    var f := l.flows[|log.flows|];
    forall m ensures Total(l.flows, m) == Total(log.flows, m) {
      TotalAppend(log.flows, f, m);
    }
    forall x | x in l.sessions ensures SessionOk(l.flows, x, l.sessions[x], l.current, l.sequence) {
      assert SessionOk(log.flows, x, log.sessions[x], log.current, log.sequence);
    }
    forall c | c in l.clients ensures ClientOk(l.flows, c, l.clients[c], l.rows) {
      assert ClientOk(log.flows, c, log.clients[c], log.rows);
    }
  }

  lemma OpenedKeeps(log: Log, i: nat)
    requires Inv(log) && i < |log.flows| && log.flows[i].phase == New
    requires log.flows[i].client in log.clients && InCurrent(log, log.flows[i])
    ensures Inv(Opened(log, i))
  {
    hide Total, Book;
    var f := log.flows[i];
    var s, c := SessionOf(log, f), log.clients[f.client];
    assert InSession(f, log.sessions, log.sequence) && HasClient(f, log.clients, log.rows);
    BookKeeps(log, i, f.(phase := Open, wasOpen := true), s.(active := s.active + 1, accepted := s.accepted + 1),
              c.(open := c.open + 1, accepted := c.accepted + 1));
  }

  lemma ConnectKeeps(log: Log, i: nat, start: int, now: int, v: Option<nat>, cv: Option<string>)
    requires Inv(log) && i < |log.flows| && log.flows[i].phase == New && log.flows[i].session == 0
    requires SessionVictim(log.sessions, v) && ClientVictim(log.clients, cv)
    ensures Inv(Connect(log, i, start, now, v, cv))
  {
    hide Attach, Admit, Inv;
    AttachKeeps(log, i, start, v);
    var l := Attach(log, i, start, v);
    AdmitKeeps(l, log.flows[i].client, now, cv);
    OpenedKeeps(Admit(l, log.flows[i].client, now, cv), i);
  }

  lemma ClosedKeeps(log: Log, i: nat, status: int, now: int)
    requires Inv(log) && i < |log.flows| && log.flows[i].phase != Ended && log.flows[i].client in log.clients
    ensures Inv(Closed(log, i, status, now))
  {
    hide Total, Book;
    var f := log.flows[i];
    var kind, s, c := KindOf(f, status), SessionOf(log, f), log.clients[f.client];
    assert InSession(f, log.sessions, log.sequence) && HasClient(f, log.clients, log.rows);
    assert ClientOk(log.flows, f.client, c, log.rows);
    BookKeeps(log, i, f.(phase := Ended, paid := f.traffic, row := c.serial), PaySession(s, f, kind, now), PayClient(c, f, kind));
  }

  lemma SettleKeeps(log: Log, i: nat, now: int, v: Option<nat>, cv: Option<string>)
    requires Inv(log) && i < |log.flows| && log.flows[i].phase != Ended
    requires log.flows[i].phase == New ==> log.flows[i].session == 0
    requires SessionVictim(log.sessions, v) && ClientVictim(log.clients, cv)
    ensures Inv(Settle(log, i, now, v, cv))
  {
    var f := log.flows[i];
    AdmitKeeps(log, f.client, now, cv);
    if f.phase == New {
      AttachKeeps(Admit(log, f.client, now, cv), i, now, v);
    } else if f.client != "" {
      assert InSession(f, log.sessions, log.sequence);
      assert SessionOk(log.flows, f.session, log.sessions[f.session], log.current, log.sequence);
    }
  }

  lemma FinishKeeps(log: Log, i: nat, status: int, now: int, v: Option<nat>, cv: Option<string>)
    requires Inv(log) && i < |log.flows| && (log.flows[i].phase == New ==> log.flows[i].session == 0)
    requires SessionVictim(log.sessions, v) && ClientVictim(log.clients, cv)
    ensures Inv(Finish(log, i, status, now, v, cv))
  {
    hide Settle, Inv;
    if log.flows[i].phase != Ended {
      SettleKeeps(log, i, now, v, cv);
      var l := Settle(log, i, now, v, cv);
      ClosedKeeps(l, i, status, now);
      var l' := Closed(l, i, status, now);
      if l'.clients[l.flows[i].client].open == 0 { DropClientKeeps(l', l.flows[i].client); }
    }
  }
}
