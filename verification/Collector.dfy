/** The VPN collector and its store: poll, run and _handle_down of ui/app/collector.py. */
module Collector {
  import opened Traffic
  import opened Wrappers

  /** A connection as the collector tells it from others. */
  datatype Key = Key(cid: int, since: int, cn: string)

  /** A client of the OpenVPN status. */
  datatype Client = Client(key: Key, vpnIp: string, bytes: Bytes)

  /** A turn of the collector: its number, and what the clock shows. */
  datatype Moment = Moment(turn: nat, clock: int)

  /**
   * A row of vpn_sessions; rows made from the log alone have no cid. Its id is its place. Of `lastSeen` the table has the
   * clock; the turn says which poll it was.
   */
  datatype Session = Session(client: string, cid: Option<int>, connectedAt: int, bytes: Bytes, lastSeen: Moment,
                             closed: Option<int>)

  /** What the collector remembers about a connection. */
  datatype Entry = Entry(session: nat, bytes: Bytes)

  datatype Db = Db(sessions: seq<Session>, traffic: Store)

  /** The database, and the memory of the collector's thread. */
  datatype World = World(db: Db, active: map<Key, Entry>, resync: bool)

  predicate Listed(cl: Client) { cl.key.cn != "" && cl.key.cn != "UNDEF" && cl.vpnIp != "" }

  predicate IsRow(s: Session, cn: string, cid: int, at: int) {
    s.client == cn && s.cid == Some(cid) && s.connectedAt == at
  }

  /** The most recent row of a connection. */
  function FindSession(rows: seq<Session>, cn: string, cid: int, at: int): (r: Option<nat>)
    ensures r.Some? ==> r.value < |rows| && IsRow(rows[r.value], cn, cid, at)
    ensures r.None? ==> forall i :: 0 <= i < |rows| ==> !IsRow(rows[i], cn, cid, at)
  {
    if rows == [] then None
    else if IsRow(rows[|rows| - 1], cn, cid, at) then Some(|rows| - 1)
    else FindSession(rows[..|rows| - 1], cn, cid, at)
  }

  /** Growth of a counter since a stored value; nothing when it went back. */
  function Gain(now: Bytes, before: Bytes): Bytes {
    Bytes(if now.received < before.received then 0 else now.received - before.received,
          if now.sent < before.sent then 0 else now.sent - before.sent)
  }

  /** Growth of a counter since the last poll; one that went back has started again. */
  function Restarted(now: Bytes, before: Bytes): Bytes {
    Bytes(if now.received < before.received then now.received else now.received - before.received,
          if now.sent < before.sent then now.sent else now.sent - before.sent)
  }

  /** Adds the growth of a connection to the minute of the poll. */
  function Credit(traffic: Store, now: int, client: string, d: Bytes): Store {
    traffic.(minute := AddTraffic(traffic.minute, now - now % 60, client, d))
  }

  /** The entries of the memory name rows of the table. */
  ghost predicate Refers(active: map<Key, Entry>, rows: seq<Session>) {
    forall k <- active :: active[k].session < |rows|
  }

  /** One client of the status: its row, its traffic and its entry. */
  function Observe(db: Db, active: map<Key, Entry>, cl: Client, now: Moment): (Db, map<Key, Entry>)
    requires Refers(active, db.sessions)
  {
    var k, rows := cl.key, db.sessions;
    if !Listed(cl) then (db, active)
    else if k in active then
      var i, d := active[k].session, Restarted(cl.bytes, active[k].bytes);
      (Db(rows[i := rows[i].(lastSeen := now, bytes := cl.bytes)], Credit(db.traffic, now.clock, k.cn, d)),
       active[k := Entry(i, cl.bytes)])
    else
      var at := if k.since != 0 then k.since else now.clock;
      match FindSession(rows, k.cn, k.cid, at)
      case Some(i) =>
        var d := Gain(cl.bytes, rows[i].bytes);
        (Db(rows[i := rows[i].(closed := None, lastSeen := now, bytes := cl.bytes)],
            Credit(db.traffic, now.clock, k.cn, d)),
         active[k := Entry(i, cl.bytes)])
      case None =>
        (Db(rows + [Session(k.cn, Some(k.cid), at, cl.bytes, now, None)],
            Credit(db.traffic, now.clock, k.cn, cl.bytes)),
         active[k := Entry(|rows|, cl.bytes)])
  }

  lemma ObserveRefers(db: Db, active: map<Key, Entry>, cl: Client, now: Moment)
    requires Refers(active, db.sessions)
    ensures var (db', active') := Observe(db, active, cl, now); Refers(active', db'.sessions)
  {
  }

  function ObserveAll(db: Db, active: map<Key, Entry>, clients: seq<Client>, now: Moment): (r: (Db, map<Key, Entry>))
    requires Refers(active, db.sessions)
    ensures Refers(r.1, r.0.sessions)
  {
    if clients == [] then (db, active)
    else
      var (db', active') := ObserveAll(db, active, clients[..|clients| - 1], now);
      ObserveRefers(db', active', clients[|clients| - 1], now);
      Observe(db', active', clients[|clients| - 1], now)
  }

  /** The connections that the status lists. */
  function Seen(clients: seq<Client>): set<Key> { set cl <- clients | Listed(cl) :: cl.key }

  /** A session ends at the given time, or when it was last seen; the first end stands. */
  function Ended(s: Session, at: Option<int>): Session {
    if s.closed.Some? then s else s.(closed := Some(if at.Some? then at.value else s.lastSeen.clock))
  }

  /** Ends the open sessions with these ids. */
  function Close(rows: seq<Session>, ids: set<nat>, at: Option<int>): (r: seq<Session>)
    ensures |r| == |rows|
    ensures forall i :: 0 <= i < |rows| ==> r[i] == (if i in ids then Ended(rows[i], at) else rows[i])
  {
    seq(|rows|, i requires 0 <= i < |rows| => if i in ids then Ended(rows[i], at) else rows[i])
  }

  /** The rows of some connections. */
  function SessionsOf(active: map<Key, Entry>, keys: set<Key>): set<nat> {
    set k | k in keys && k in active :: active[k].session
  }

  function Ids(active: map<Key, Entry>): set<nat> { SessionsOf(active, active.Keys) }

  function Others(rows: seq<Session>, ids: set<nat>): set<nat> { set i: nat | i < |rows| && i !in ids }

  /** The transaction of poll; None when PostgreSQL refuses the resync statement, whose list of ids may not be empty. */
  function PollTx(w: World, clients: seq<Client>, now: Moment): Option<World>
    requires Refers(w.active, w.db.sessions)
  {
    var (db, active) := ObserveAll(w.db, w.active, clients, now);
    var gone := active.Keys - Seen(clients);
    var left := active - gone;
    var rows := Close(db.sessions, SessionsOf(active, gone), Some(now.clock));
    if !w.resync then Some(World(db.(sessions := rows), left, false))
    else if left == map[] then None
    else Some(World(db.(sessions := Close(rows, Others(rows, Ids(left)), None)), left, false))
  }

  /** After a failed write the thread forgets what it believes is stored. */
  function Failed(w: World): World { World(w.db, map[], true) }

  /** What becomes of a transaction: an error may come after the commit, and then the thread does not know of it. */
  datatype Outcome = Commits | Fails | Lost

  /** A turn of poll. */
  function Poll(w: World, clients: seq<Client>, now: Moment, outcome: Outcome): World
    requires Refers(w.active, w.db.sessions)
  {
    var r := PollTx(w, clients, now);
    if r.None? || outcome == Fails then Failed(w)
    else if outcome == Lost then Failed(r.value)
    else r.value
  }

  /** A turn in which OpenVPN cannot be reached: every session the thread knows ends. */
  function HandleDown(w: World, now: Moment, outcome: Outcome): World {
    var closed := w.db.(sessions := Close(w.db.sessions, Ids(w.active), Some(now.clock)));
    if w.active == map[] then w
    else if outcome == Fails then Failed(w)
    else if outcome == Lost then Failed(w.(db := closed))
    else World(closed, map[], w.resync)
  }

  /** A new collector: sessions left open by its predecessor end, if the database lets it. */
  function Start(w: World, outcome: Outcome): World {
    var rows := w.db.sessions;
    World(if outcome == Fails then w.db else w.db.(sessions := Close(rows, Others(rows, {}), None)), map[], false)
  }

  /** A session shorter than the status interval, known from the log only. */
  function LogSession(w: World, client: string, at: int, end: int): World {
    w.(db := w.db.(sessions := w.db.sessions + [Session(client, None, at, ZERO, Moment(0, end), Some(end))]))
  }

  // ---- the thread ---------------------------------------------------------

  lemma CloseOne(rows: seq<Session>, ids: set<nat>, i: nat, at: Option<int>)
    requires i < |rows|
    ensures Close(rows, ids, at)[i := Ended(Close(rows, ids, at)[i], at)] == Close(rows, ids + {i}, at)
  {
  }

  lemma CloseNothing(rows: seq<Session>, active: map<Key, Entry>, at: Option<int>)
    ensures Close(rows, SessionsOf(active, {}), at) == rows
  {
  }

  lemma CloseStep(rows: seq<Session>, active: map<Key, Entry>, done: set<Key>, k: Key, at: Option<int>)
    requires k in active && k !in done && active[k].session < |rows|
    ensures var i, before := active[k].session, Close(rows, SessionsOf(active, done), at);
      before[i := Ended(before[i], at)] == Close(rows, SessionsOf(active, done + {k}), at)
    ensures k in active - done && active - done - {k} == active - (done + {k})
  {
    assert SessionsOf(active, done + {k}) == SessionsOf(active, done) + {active[k].session};
    CloseOne(rows, SessionsOf(active, done), active[k].session, at);
  }

  /** ui/app/collector.py:356-360: ends the sessions of some connections and drops them from the memory. */
  method CloseSessions(rows: seq<Session>, active: map<Key, Entry>, keys: set<Key>, at: int)
    returns (rows': seq<Session>, active': map<Key, Entry>)
    requires Refers(active, rows) && keys <= active.Keys
    ensures rows' == Close(rows, SessionsOf(active, keys), Some(at)) && active' == active - keys
  {
    hide Close, SessionsOf, Ended;
    rows', active' := rows, active;
    var rest := keys;
    ghost var done: set<Key> := {};
    CloseNothing(rows, active, Some(at));
    while rest != {}
      invariant done + rest == keys && done !! rest
      invariant active' == active - done && rows' == Close(rows, SessionsOf(active, done), Some(at))
      decreases |rest|
    {
      var k :| k in rest;
      CloseStep(rows, active, done, k, Some(at));
      var i := active'[k].session;
      rows', active' := rows'[i := Ended(rows'[i], Some(at))], active' - {k};
      rest, done := rest - {k}, done + {k};
    }
    assert done == keys;
  }

  /** ui/app/collector.py:286-344: the statements of a poll, up to the commit. */
  method Transact(w: World, clients: seq<Client>, now: Moment) returns (r: Option<World>)
    requires Refers(w.active, w.db.sessions)
    ensures r == PollTx(w, clients, now)
  {
    var db, active := w.db, w.active;
    for i := 0 to |clients|
      invariant Refers(active, db.sessions) && (db, active) == ObserveAll(w.db, w.active, clients[..i], now)
    {
      assert clients[..i + 1][..i] == clients[..i];
      ObserveRefers(db, active, clients[i], now);
      var o := Observe(db, active, clients[i], now);
      db, active := o.0, o.1;
    }
    assert clients[..|clients|] == clients;
    var rows, left := CloseSessions(db.sessions, active, active.Keys - Seen(clients), now.clock);
    if w.resync {
      if left == map[] { return None; }
      rows := Close(rows, Others(rows, Ids(left)), None);
    }
    return Some(World(db.(sessions := rows), left, false));
  }

  /** The state of the collector's thread, and the database it writes. */
  class Thread {
    var db: Db
    var active: map<Key, Entry>
    var resync: bool
    var statusTime: Option<int>
    var connected: bool

    ghost function Contents(): World
      reads this
    {
      World(db, active, resync)
    }

    /** A status is remembered only while OpenVPN is connected, so that the test of `connected` decides nothing. */
    ghost predicate Valid()
      reads this
    {
      Refers(active, db.sessions) && (statusTime.Some? ==> connected)
    }

    /** ui/app/collector.py:84-110 and 144-150 */
    constructor (stored: Db, outcome: Outcome)
      ensures Valid() && Contents() == Start(World(stored, map[], false), outcome) && statusTime == None && !connected
    {
      var rows := stored.sessions;
      db := if outcome == Fails then stored else stored.(sessions := Close(rows, Others(rows, {}), None));
      active, resync, statusTime, connected := map[], false, None, false;
    }

    /** ui/app/collector.py:163-169 */
    method Forget()
      modifies this`active, this`resync, this`statusTime
      ensures Contents() == Failed(old(Contents())) && statusTime == None
    {
      active, resync, statusTime := map[], true, None;
    }

    /** ui/app/collector.py:271-354, with the handler at 163-169; `time` is that of the status, which may be from a file. */
    method PollOnce(fromFile: bool, time: int, clients: seq<Client>, now: Moment, outcome: Outcome)
      requires Valid()
      modifies this
      ensures Valid()
      ensures fromFile && old(statusTime) == Some(time) ==>
        Contents() == old(Contents()) && statusTime == old(statusTime) && connected == old(connected)
      ensures !(fromFile && old(statusTime) == Some(time)) ==>
        && Contents() == Poll(old(Contents()), clients, now, outcome)
        && statusTime == (if resync then None else Some(time)) && connected == (old(connected) || !resync)
    {
      if fromFile && statusTime == Some(time) && connected { return; }
      statusTime := Some(time);
      var r := Transact(World(db, active, resync), clients, now);
      if r.Some? && outcome != Fails { db := r.value.db; }
      if r.Some? && outcome == Commits {
        active, resync := r.value.active, false;
        connected := true;
      } else {
        Forget();
      }
    }

    /** ui/app/collector.py:362-369 */
    method GoDown(now: Moment, outcome: Outcome)
      requires Valid()
      modifies this
      ensures Valid() && Contents() == HandleDown(old(Contents()), now, outcome) && statusTime == None
      ensures connected == (old(connected) && old(active) != map[] && outcome != Commits)
    {
      statusTime := None;
      if active != map[] {
        assert active - active.Keys == map[];
        var rows, left := CloseSessions(db.sessions, active, active.Keys, now.clock);
        if outcome != Fails { db := db.(sessions := rows); }
        if outcome != Commits {
          Forget();
          return;
        }
        active := left;
      }
      connected := false;
    }
  }

  // ---- the ledger ---------------------------------------------------------

  /** The byte counters that OpenVPN keeps for its connections, as each turn finds them. */
  type Counters = (Key, nat) -> Bytes

  ghost predicate Monotone(truth: Counters) {
    && (forall k, t :: truth(k, t).received >= 0 && truth(k, t).sent >= 0)
    && (forall k, s, t :: s <= t ==> truth(k, s).received <= truth(k, t).received && truth(k, s).sent <= truth(k, t).sent)
  }

  /** A status: every listed connection with its start time and its counters. */
  ghost predicate Honest(clients: seq<Client>, truth: Counters, now: Moment) {
    forall i :: 0 <= i < |clients| && Listed(clients[i]) ==>
      clients[i].key.since != 0 && clients[i].bytes == truth(clients[i].key, now.turn)
  }

  function RowKey(s: Session): Key
    requires s.cid.Some?
  {
    Key(s.cid.value, s.connectedAt, s.client)
  }

  /** A row holds its connection's counters of the time it was last seen. */
  ghost predicate RowOk(s: Session, truth: Counters, now: Moment) {
    if s.cid.Some? then s.lastSeen.turn <= now.turn && s.bytes == truth(RowKey(s), s.lastSeen.turn) else s.bytes == ZERO
  }

  /** One row per connection. */
  ghost predicate Unique(rows: seq<Session>) {
    forall i, j :: 0 <= i < j < |rows| && rows[i].cid.Some? && rows[j].cid.Some? ==> RowKey(rows[i]) != RowKey(rows[j])
  }

  ghost function OfClient(cn: string): Slot -> bool { (s: Slot) => s.client == cn }

  /** The bytes of all sessions of a client. */
  ghost function SessionSum(rows: seq<Session>, cn: string, dir: bool): int {
    if rows == [] then 0
    else
      var before, s := SessionSum(rows[..|rows| - 1], cn, dir), rows[|rows| - 1];
      if s.client == cn then before + s.bytes.Get(dir) else before
  }

  /** The traffic of every client is the bytes of its sessions. */
  ghost predicate Balanced(db: Db) {
    forall cn, dir :: SumStore(db.traffic, OfClient(cn), dir) == SessionSum(db.sessions, cn, dir)
  }

  ghost predicate Ledger(db: Db, truth: Counters, now: Moment) {
    && Unique(db.sessions) && Balanced(db)
    && (forall i :: 0 <= i < |db.sessions| ==> RowOk(db.sessions[i], truth, now))
  }

  /** The memory's entry of a connection is its open row. */
  ghost predicate Linked(rows: seq<Session>, k: Key, e: Entry) {
    e.session < |rows|
    && var s := rows[e.session];
       s.cid.Some? && RowKey(s) == k && s.bytes == e.bytes && s.closed == None
  }

  ghost predicate AllLinked(db: Db, active: map<Key, Entry>) {
    forall k <- active :: Linked(db.sessions, k, active[k])
  }

  /** An open row is in the memory. */
  ghost predicate Covered(rows: seq<Session>, active: map<Key, Entry>, i: nat)
    requires i < |rows|
  {
    rows[i].closed == None ==> rows[i].cid.Some? && RowKey(rows[i]) in active && active[RowKey(rows[i])].session == i
  }

  ghost predicate AllCovered(db: Db, active: map<Key, Entry>) {
    forall i :: 0 <= i < |db.sessions| ==> Covered(db.sessions, active, i)
  }

  // ---- sums ---------------------------------------------------------------

  lemma {:induction false} SumReplace(rows: seq<Session>, i: nat, s: Session, cn: string, dir: bool)
    requires i < |rows| && s.client == rows[i].client
    ensures SessionSum(rows[i := s], cn, dir)
         == SessionSum(rows, cn, dir) + if s.client == cn then s.bytes.Get(dir) - rows[i].bytes.Get(dir) else 0
  {
    var n := |rows| - 1;
    if i == n {
      assert rows[i := s][..n] == rows[..n];
    } else {
      assert rows[i := s][..n] == rows[..n][i := s];
      SumReplace(rows[..n], i, s, cn, dir);
    }
  }

  lemma {:induction false} SumSame(rows: seq<Session>, rows': seq<Session>, cn: string, dir: bool)
    requires |rows| == |rows'|
    requires forall i :: 0 <= i < |rows| ==> rows'[i].client == rows[i].client && rows'[i].bytes == rows[i].bytes
    ensures SessionSum(rows', cn, dir) == SessionSum(rows, cn, dir)
  {
    if rows != [] { SumSame(rows[..|rows| - 1], rows'[..|rows| - 1], cn, dir); }
  }

  lemma CreditSum(traffic: Store, now: int, client: string, d: Bytes, cn: string, dir: bool)
    requires d.received >= 0 && d.sent >= 0
    ensures SumStore(Credit(traffic, now, client, d), OfClient(cn), dir)
         == SumStore(traffic, OfClient(cn), dir) + if client == cn then d.Get(dir) else 0
  {
    UpsertSum(traffic.minute, Slot(now - now % 60, client), Clamp(d), OfClient(cn), dir);
  }

  /** Crediting a client with what one of its rows grew by. */
  lemma CreditRow(db: Db, i: nat, s: Session, d: Bytes, now: int)
    requires Balanced(db) && i < |db.sessions| && s.client == db.sessions[i].client
    requires d.received == s.bytes.received - db.sessions[i].bytes.received >= 0
    requires d.sent == s.bytes.sent - db.sessions[i].bytes.sent >= 0
    ensures Balanced(Db(db.sessions[i := s], Credit(db.traffic, now, s.client, d)))
  {
    hide Credit;
    forall cn, dir
      ensures SumStore(Credit(db.traffic, now, s.client, d), OfClient(cn), dir) == SessionSum(db.sessions[i := s], cn, dir)
    {
      SumReplace(db.sessions, i, s, cn, dir);
      CreditSum(db.traffic, now, s.client, d, cn, dir);
    }
  }

  lemma CreditNew(db: Db, s: Session, now: int)
    requires Balanced(db) && s.bytes.received >= 0 && s.bytes.sent >= 0
    ensures Balanced(Db(db.sessions + [s], Credit(db.traffic, now, s.client, s.bytes)))
  {
    hide Credit;
    forall cn, dir
      ensures SumStore(Credit(db.traffic, now, s.client, s.bytes), OfClient(cn), dir)
           == SessionSum(db.sessions + [s], cn, dir)
    {
      assert (db.sessions + [s])[..|db.sessions|] == db.sessions;
      CreditSum(db.traffic, now, s.client, s.bytes, cn, dir);
    }
  }

  /** Moving rows to coarser buckets keeps the sums of clients. */
  lemma MoveKeepsClient(src: Table, dst: Table, cutoff: int, unit: Slot -> Slot, cn: string, dir: bool)
    requires forall s :: unit(s).client == s.client
    ensures Sum(Since(src, cutoff), OfClient(cn), dir) + Sum(Grouped(Before(src, cutoff), dst, unit), OfClient(cn), dir)
         == Sum(src, OfClient(cn), dir) + Sum(dst, OfClient(cn), dir)
  {
    GroupedSum(Before(src, cutoff), dst, unit, OfClient(cn), dir);
    SameSum(Before(src, cutoff), OfClient(cn), InGroup(unit, OfClient(cn)), dir);
    CutSum(src, cutoff, OfClient(cn), dir);
  }

  lemma RollupKeepsClient(db: Store, now: int, cn: string, dir: bool)
    ensures SumStore(Rollup(db, now), OfClient(cn), dir) == SumStore(db, OfClient(cn), dir)
  {
    var hour := Grouped(Before(db.minute, now - MINUTE_RETENTION), db.hour, ToHour);
    MoveKeepsClient(db.minute, db.hour, now - MINUTE_RETENTION, ToHour, cn, dir);
    MoveKeepsClient(hour, db.day, now - HOUR_RETENTION, ToDay, cn, dir);
  }

  // ---- one client ---------------------------------------------------------

  /** The row and the amount that observing a client comes down to. */
  lemma ObserveKnown(db: Db, active: map<Key, Entry>, i: nat, s: Session, d: Bytes, now: Moment, truth: Counters, k: Key)
    requires Monotone(truth) && Ledger(db, truth, now) && AllLinked(db, active)
    requires i < |db.sessions| && db.sessions[i].cid.Some? && RowKey(db.sessions[i]) == k
    requires s == db.sessions[i].(closed := None, lastSeen := now, bytes := truth(k, now.turn))
    requires d == Gain(s.bytes, db.sessions[i].bytes)
    ensures var db' := Db(db.sessions[i := s], Credit(db.traffic, now.clock, k.cn, d));
      var active' := active[k := Entry(i, s.bytes)];
      Ledger(db', truth, now) && AllLinked(db', active') && (AllCovered(db, active) ==> AllCovered(db', active'))
  {
    var rows := db.sessions;
    assert RowOk(rows[i], truth, now);
    CreditRow(db, i, s, d, now.clock);
    var db' := Db(rows[i := s], Credit(db.traffic, now.clock, k.cn, d));
    var active' := active[k := Entry(i, s.bytes)];
    forall x | x in active' ensures Linked(db'.sessions, x, active'[x]) {
      if x != k { assert Linked(rows, x, active[x]); }
    }
    if AllCovered(db, active) {
      forall j | 0 <= j < |rows| ensures Covered(db'.sessions, active', j) {
        assert Covered(rows, active, j);
        assert j != i && rows[j].cid.Some? ==> RowKey(rows[j]) != k;
      }
    }
  }

  lemma ObserveNew(db: Db, active: map<Key, Entry>, s: Session, now: Moment, truth: Counters, k: Key)
    requires Monotone(truth) && Ledger(db, truth, now) && AllLinked(db, active) && k !in active
    requires FindSession(db.sessions, k.cn, k.cid, k.since).None?
    requires s == Session(k.cn, Some(k.cid), k.since, truth(k, now.turn), now, None)
    ensures var db' := Db(db.sessions + [s], Credit(db.traffic, now.clock, k.cn, s.bytes));
      var active' := active[k := Entry(|db.sessions|, s.bytes)];
      Ledger(db', truth, now) && AllLinked(db', active') && (AllCovered(db, active) ==> AllCovered(db', active'))
  {
    var rows := db.sessions;
    CreditNew(db, s, now.clock);
    var db' := Db(rows + [s], Credit(db.traffic, now.clock, k.cn, s.bytes));
    var active' := active[k := Entry(|rows|, s.bytes)];
    forall j | 0 <= j < |rows| && rows[j].cid.Some? ensures RowKey(rows[j]) != k {
      assert !IsRow(rows[j], k.cn, k.cid, k.since);
    }
    forall x | x in active' ensures Linked(db'.sessions, x, active'[x]) {
      if x != k { assert Linked(rows, x, active[x]); }
    }
    if AllCovered(db, active) {
      forall j | 0 <= j < |db'.sessions| ensures Covered(db'.sessions, active', j) {
        if j < |rows| { assert Covered(rows, active, j); }
      }
    }
  }

  lemma ObserveKeeps(db: Db, active: map<Key, Entry>, cl: Client, now: Moment, truth: Counters)
    requires Monotone(truth) && Ledger(db, truth, now) && AllLinked(db, active) && Refers(active, db.sessions)
    requires Listed(cl) ==> cl.key.since != 0 && cl.bytes == truth(cl.key, now.turn)
    ensures var (db', active') := Observe(db, active, cl, now);
      Ledger(db', truth, now) && AllLinked(db', active') && (AllCovered(db, active) ==> AllCovered(db', active'))
  {
    var k, rows := cl.key, db.sessions;
    if Listed(cl) {
      if k in active {
        var i := active[k].session;
        assert Linked(rows, k, active[k]) && RowOk(rows[i], truth, now);
        var s := rows[i].(closed := None, lastSeen := now, bytes := cl.bytes);
        ObserveKnown(db, active, i, s, Gain(cl.bytes, rows[i].bytes), now, truth, k);
      } else {
        match FindSession(rows, k.cn, k.cid, k.since)
        case Some(i) =>
          var s := rows[i].(closed := None, lastSeen := now, bytes := cl.bytes);
          ObserveKnown(db, active, i, s, Gain(cl.bytes, rows[i].bytes), now, truth, k);
        case None =>
          ObserveNew(db, active, Session(k.cn, Some(k.cid), k.since, cl.bytes, now, None), now, truth, k);
      }
    }
  }

  // ---- one turn -----------------------------------------------------------

  lemma {:induction false} ObserveAllKeeps(db: Db, active: map<Key, Entry>, clients: seq<Client>, now: Moment, truth: Counters)
    requires Monotone(truth) && Ledger(db, truth, now) && AllLinked(db, active) && Refers(active, db.sessions)
    requires Honest(clients, truth, now)
    ensures var (db', active') := ObserveAll(db, active, clients, now);
      && Ledger(db', truth, now) && AllLinked(db', active') && (AllCovered(db, active) ==> AllCovered(db', active'))
  {
    if clients != [] {
      var rest, cl := clients[..|clients| - 1], clients[|clients| - 1];
      ObserveAllKeeps(db, active, rest, now, truth);
      var (db', active') := ObserveAll(db, active, rest, now);
      ObserveKeeps(db', active', cl, now, truth);
    }
  }

  /** Every listed connection is in the memory afterwards. */
  lemma {:induction false} ObserveAllKeys(db: Db, active: map<Key, Entry>, clients: seq<Client>, now: Moment)
    requires Refers(active, db.sessions)
    ensures ObserveAll(db, active, clients, now).1.Keys == active.Keys + Seen(clients)
  {
    if clients == [] {
      assert Seen(clients) == {};
    } else {
      var rest, cl := clients[..|clients| - 1], clients[|clients| - 1];
      ObserveAllKeys(db, active, rest, now);
      assert clients == rest + [cl];
      assert Seen(clients) == Seen(rest) + if Listed(cl) then {cl.key} else {};
    }
  }

  /** Ending sessions changes no counter. */
  lemma CloseKeeps(db: Db, ids: set<nat>, at: Option<int>, truth: Counters, now: Moment)
    requires Ledger(db, truth, now)
    ensures Ledger(db.(sessions := Close(db.sessions, ids, at)), truth, now)
  {
    var rows := Close(db.sessions, ids, at);
    forall cn, dir ensures SumStore(db.traffic, OfClient(cn), dir) == SessionSum(rows, cn, dir) {
      SumSame(db.sessions, rows, cn, dir);
    }
    forall i | 0 <= i < |rows| ensures RowOk(rows[i], truth, now) {
      assert RowOk(db.sessions[i], truth, now);
    }
  }

  /** Different connections have different rows. */
  lemma OneRowEach(db: Db, active: map<Key, Entry>, k: Key, x: Key)
    requires AllLinked(db, active) && k in active && x in active && active[k].session == active[x].session
    ensures k == x
  {
    assert Linked(db.sessions, k, active[k]) && Linked(db.sessions, x, active[x]);
  }

  /** Ending the sessions of some entries and dropping these keeps memory and table in step. */
  lemma DropKeeps(db: Db, active: map<Key, Entry>, left: map<Key, Entry>, ids: set<nat>, at: Option<int>)
    requires AllLinked(db, active)
    requires forall k <- left :: k in active && left[k] == active[k]
    requires forall k <- active :: k in left || active[k].session in ids
    requires forall i <- ids :: exists k :: k in active && k !in left && active[k].session == i
    ensures var db' := db.(sessions := Close(db.sessions, ids, at));
      AllLinked(db', left) && (AllCovered(db, active) ==> AllCovered(db', left))
  {
    var db' := db.(sessions := Close(db.sessions, ids, at));
    forall k | k in left ensures Linked(db'.sessions, k, left[k]) {
      assert Linked(db.sessions, k, active[k]);
      forall x | x in active && x !in left ensures active[x].session != left[k].session {
        if active[x].session == left[k].session { OneRowEach(db, active, k, x); }
      }
    }
    if AllCovered(db, active) {
      forall i | 0 <= i < |db'.sessions| ensures Covered(db'.sessions, left, i) {
        assert Covered(db.sessions, active, i);
      }
    }
  }

  /** The resync statement ends exactly the open sessions that the memory does not know. */
  lemma ResyncCovers(db: Db, left: map<Key, Entry>)
    requires AllLinked(db, left)
    ensures var db' := db.(sessions := Close(db.sessions, Others(db.sessions, Ids(left)), None));
      AllLinked(db', left) && AllCovered(db', left)
  {
    var db' := db.(sessions := Close(db.sessions, Others(db.sessions, Ids(left)), None));
    forall k | k in left ensures Linked(db'.sessions, k, left[k]) {
      assert Linked(db.sessions, k, left[k]);
      assert left[k].session in Ids(left);
    }
    forall i | 0 <= i < |db'.sessions| ensures Covered(db'.sessions, left, i) {
      if i in Ids(left) {
        var k :| k in left && left[k].session == i;
        assert Linked(db.sessions, k, left[k]);
      }
    }
  }

  /** What holds between turns. */
  ghost predicate Inv(w: World, truth: Counters, now: Moment) {
    Ledger(w.db, truth, now) && AllLinked(w.db, w.active) && (w.resync ==> w.active == map[])
  }

  /** Exactly the connections in the memory have open rows, unless a resync is due. */
  ghost predicate InStep(w: World) { !w.resync ==> AllCovered(w.db, w.active) }

  lemma LaterLedger(db: Db, truth: Counters, now: Moment, later: Moment)
    requires Ledger(db, truth, now) && now.turn <= later.turn
    ensures Ledger(db, truth, later)
  {
    forall i | 0 <= i < |db.sessions| ensures RowOk(db.sessions[i], truth, later) {
      assert RowOk(db.sessions[i], truth, now);
    }
  }

  lemma InvRefers(w: World, truth: Counters, now: Moment)
    requires Inv(w, truth, now)
    ensures Refers(w.active, w.db.sessions)
  {
    forall k | k in w.active ensures w.active[k].session < |w.db.sessions| {
      assert Linked(w.db.sessions, k, w.active[k]);
    }
  }

  lemma PollTxKeeps(w: World, clients: seq<Client>, now: Moment, truth: Counters)
    requires Monotone(truth) && Inv(w, truth, now) && Refers(w.active, w.db.sessions) && Honest(clients, truth, now)
    ensures var r := PollTx(w, clients, now);
      r.Some? ==> Inv(r.value, truth, now) && !r.value.resync && (InStep(w) ==> InStep(r.value))
  {
    ObserveAllKeeps(w.db, w.active, clients, now, truth);
    var (db, active) := ObserveAll(w.db, w.active, clients, now);
    var left := active - (active.Keys - Seen(clients));
    var ids := SessionsOf(active, active.Keys - Seen(clients));
    CloseKeeps(db, ids, Some(now.clock), truth, now);
    DropKeeps(db, active, left, ids, Some(now.clock));
    if w.resync && left != map[] {
      var closed := db.(sessions := Close(db.sessions, ids, Some(now.clock)));
      CloseKeeps(closed, Others(closed.sessions, Ids(left)), None, truth, now);
      ResyncCovers(closed, left);
    }
  }

  /** A poll cannot commit just when a resync is due and the status lists no client. */
  lemma ResyncNeedsAClient(w: World, clients: seq<Client>, now: Moment, truth: Counters)
    requires Inv(w, truth, now) && Refers(w.active, w.db.sessions)
    ensures PollTx(w, clients, now).None? <==> w.resync && Seen(clients) == {}
  {
    ObserveAllKeys(w.db, w.active, clients, now);
    var active := ObserveAll(w.db, w.active, clients, now).1;
    var left := active - (active.Keys - Seen(clients));
    assert left.Keys == Seen(clients) * active.Keys;
    assert left == map[] <==> left.Keys == {};
  }

  /** After a committed poll the memory is exactly the listed connections. */
  lemma PollKeys(w: World, clients: seq<Client>, now: Moment, outcome: Outcome)
    requires Refers(w.active, w.db.sessions) && !Poll(w, clients, now, outcome).resync
    ensures Poll(w, clients, now, outcome).active.Keys == Seen(clients) && outcome == Commits
  {
    ObserveAllKeys(w.db, w.active, clients, now);
  }

  lemma DownKeeps(w: World, now: Moment, outcome: Outcome, truth: Counters)
    requires Inv(w, truth, now)
    ensures Inv(HandleDown(w, now, outcome), truth, now) && (InStep(w) ==> InStep(HandleDown(w, now, outcome)))
  {
    if w.active != map[] && outcome != Fails {
      CloseKeeps(w.db, Ids(w.active), Some(now.clock), truth, now);
      DropKeeps(w.db, w.active, map[], Ids(w.active), Some(now.clock));
    }
  }

  lemma StartKeeps(w: World, outcome: Outcome, truth: Counters, now: Moment)
    requires Inv(w, truth, now)
    ensures Inv(Start(w, outcome), truth, now) && (outcome != Fails ==> InStep(Start(w, outcome)))
  {
    CloseKeeps(w.db, Others(w.db.sessions, {}), None, truth, now);
    var w' := Start(w, outcome);
    if outcome != Fails {
      forall i | 0 <= i < |w'.db.sessions| ensures Covered(w'.db.sessions, map[], i) {
      }
    }
  }

  lemma LogKeeps(w: World, client: string, at: int, end: int, truth: Counters, now: Moment)
    requires Inv(w, truth, now)
    ensures var w' := LogSession(w, client, at, end); Inv(w', truth, now) && (InStep(w) ==> InStep(w'))
  {
    var w', rows := LogSession(w, client, at, end), w.db.sessions;
    forall cn, dir ensures SessionSum(w'.db.sessions, cn, dir) == SessionSum(rows, cn, dir) {
      assert w'.db.sessions[..|rows|] == rows;
    }
    forall k | k in w.active ensures Linked(w'.db.sessions, k, w.active[k]) {
      assert Linked(rows, k, w.active[k]);
    }
    forall i | 0 <= i < |rows| ensures RowOk(w'.db.sessions[i], truth, now) {
      assert RowOk(rows[i], truth, now);
    }
    if AllCovered(w.db, w.active) {
      forall i | 0 <= i < |w'.db.sessions| ensures Covered(w'.db.sessions, w.active, i) {
        if i < |rows| { assert Covered(rows, w.active, i); }
      }
    }
  }

  lemma RollKeeps(w: World, truth: Counters, now: Moment, at: int)
    requires Inv(w, truth, now)
    ensures Inv(w.(db := w.db.(traffic := Rollup(w.db.traffic, at))), truth, now)
  {
    hide Rollup;
    var db := w.db.(traffic := Rollup(w.db.traffic, at));
    forall cn, dir ensures SumStore(db.traffic, OfClient(cn), dir) == SessionSum(db.sessions, cn, dir) {
      RollupKeepsClient(w.db.traffic, at, cn, dir);
    }
    forall k | k in w.active ensures Linked(db.sessions, k, w.active[k]) {
      assert Linked(w.db.sessions, k, w.active[k]);
    }
  }

  // ---- the row of a connection --------------------------------------------

  predicate IsOf(s: Session, k: Key) { s.cid.Some? && RowKey(s) == k }

  ghost predicate HasRow(rows: seq<Session>, k: Key, t: Moment) {
    exists i :: 0 <= i < |rows| && IsOf(rows[i], k) && rows[i].lastSeen == t
  }

  /** The connection has a row that says when it was last seen, or it has none. */
  ghost predicate Timed(rows: seq<Session>, k: Key, t: Option<Moment>) {
    match t
    case None => forall i :: 0 <= i < |rows| ==> !IsOf(rows[i], k)
    case Some(x) => HasRow(rows, k, x)
  }

  lemma ReplaceTimed(rows: seq<Session>, i: nat, s: Session, k: Key, x: Key, t: Option<Moment>)
    requires i < |rows| && IsOf(rows[i], x) && IsOf(s, x) && Timed(rows, k, t)
    ensures Timed(rows[i := s], k, if x == k then Some(s.lastSeen) else t)
  {
    if x == k {
      assert IsOf(rows[i := s][i], k);
    } else if t.Some? {
      var j :| 0 <= j < |rows| && IsOf(rows[j], k) && rows[j].lastSeen == t.value;
      assert rows[i := s][j] == rows[j];
    }
  }

  lemma AppendTimed(rows: seq<Session>, s: Session, k: Key, t: Option<Moment>)
    requires Timed(rows, k, t)
    ensures Timed(rows + [s], k, if IsOf(s, k) then Some(s.lastSeen) else t)
  {
    if IsOf(s, k) {
      assert (rows + [s])[|rows|] == s;
    } else if t.Some? {
      var j :| 0 <= j < |rows| && IsOf(rows[j], k) && rows[j].lastSeen == t.value;
      assert (rows + [s])[j] == rows[j];
    }
  }

  lemma CloseTimed(rows: seq<Session>, ids: set<nat>, at: Option<int>, k: Key, t: Option<Moment>)
    requires Timed(rows, k, t)
    ensures Timed(Close(rows, ids, at), k, t)
  {
    var rows' := Close(rows, ids, at);
    if t.Some? {
      var j :| 0 <= j < |rows| && IsOf(rows[j], k) && rows[j].lastSeen == t.value;
      assert IsOf(rows'[j], k) && rows'[j].lastSeen == t.value;
    }
  }

  /** Observing a client times the row of its connection, and no other. */
  lemma ObserveTimed(db: Db, active: map<Key, Entry>, cl: Client, now: Moment, k: Key, t: Option<Moment>)
    requires AllLinked(db, active) && Refers(active, db.sessions) && (Listed(cl) ==> cl.key.since != 0)
    requires Timed(db.sessions, k, t)
    ensures Timed(Observe(db, active, cl, now).0.sessions, k, if Listed(cl) && cl.key == k then Some(now) else t)
  {
    hide Credit, Timed;
    var x, rows := cl.key, db.sessions;
    if Listed(cl) {
      if x in active {
        var i := active[x].session;
        assert Linked(rows, x, active[x]);
        ReplaceTimed(rows, i, rows[i].(lastSeen := now, bytes := cl.bytes), k, x, t);
      } else {
        match FindSession(rows, x.cn, x.cid, x.since)
        case Some(i) => ReplaceTimed(rows, i, rows[i].(closed := None, lastSeen := now, bytes := cl.bytes), k, x, t);
        case None => AppendTimed(rows, Session(x.cn, Some(x.cid), x.since, cl.bytes, now, None), k, t);
      }
    }
  }

  lemma {:induction false} ObserveAllTimed(db: Db, active: map<Key, Entry>, clients: seq<Client>, now: Moment, truth: Counters,
                                           k: Key, t: Option<Moment>)
    requires Monotone(truth) && Ledger(db, truth, now) && AllLinked(db, active) && Refers(active, db.sessions)
    requires Honest(clients, truth, now) && Timed(db.sessions, k, t)
    ensures Timed(ObserveAll(db, active, clients, now).0.sessions, k, if k in Seen(clients) then Some(now) else t)
  {
    hide Timed, Observe, Monotone, Ledger, AllLinked;
    if clients == [] {
      assert Seen(clients) == {};
    } else {
      var rest, cl := clients[..|clients| - 1], clients[|clients| - 1];
      ObserveAllTimed(db, active, rest, now, truth, k, t);
      ObserveAllKeeps(db, active, rest, now, truth);
      var (db', active') := ObserveAll(db, active, rest, now);
      ObserveTimed(db', active', cl, now, k, if k in Seen(rest) then Some(now) else t);
      assert clients == rest + [cl];
      assert Seen(clients) == Seen(rest) + if Listed(cl) then {cl.key} else {};
    }
  }

  lemma PollTxTimed(w: World, clients: seq<Client>, now: Moment, truth: Counters, k: Key, t: Option<Moment>)
    requires Monotone(truth) && Inv(w, truth, now) && Refers(w.active, w.db.sessions) && Honest(clients, truth, now)
    requires Timed(w.db.sessions, k, t) && PollTx(w, clients, now).Some?
    ensures Timed(PollTx(w, clients, now).value.db.sessions, k, if k in Seen(clients) then Some(now) else t)
  {
    hide Timed, ObserveAll, Close, Seen, Ledger, AllLinked;
    ObserveAllTimed(w.db, w.active, clients, now, truth, k, t);
    var (db, active) := ObserveAll(w.db, w.active, clients, now);
    var ids, t' := SessionsOf(active, active.Keys - Seen(clients)), if k in Seen(clients) then Some(now) else t;
    CloseTimed(db.sessions, ids, Some(now.clock), k, t');
    var rows, left := Close(db.sessions, ids, Some(now.clock)), active - (active.Keys - Seen(clients));
    CloseTimed(rows, Others(rows, Ids(left)), None, k, t');
  }

  // ---- every run ----------------------------------------------------------

  datatype Turn =
    | PollTurn(clients: seq<Client>, now: Moment, outcome: Outcome)
    | SkipTurn(now: Moment)
    | DownTurn(now: Moment, outcome: Outcome)
    | StartTurn(now: Moment, outcome: Outcome)
    | LogTurn(client: string, at: int, end: int, now: Moment)
    | RollTurn(now: Moment, at: int)
  {
    /** The turn stores a status that lists the connection. */
    predicate Lists(k: Key) { PollTurn? && outcome != Fails && k in Seen(clients) }
  }

  function After(w: World, t: Turn): World
    requires Refers(w.active, w.db.sessions)
  {
    match t
    case PollTurn(clients, now, outcome) => Poll(w, clients, now, outcome)
    case SkipTurn(_) => w
    case DownTurn(now, outcome) => HandleDown(w, now, outcome)
    case StartTurn(_, outcome) => Start(w, outcome)
    case LogTurn(client, at, end, _) => LogSession(w, client, at, end)
    case RollTurn(_, at) => w.(db := w.db.(traffic := Rollup(w.db.traffic, at)))
  }

  ghost predicate Next(w: World, t: Turn, w': World, truth: Counters) {
    && (t.PollTurn? ==> Honest(t.clients, truth, t.now))
    && Refers(w.active, w.db.sessions) && w' == After(w, t)
  }

  const EMPTY := World(Db([], Store([], [], [])), map[], false)

  /** Any schedule of polls, outages, failed transactions, roll-ups and restarts, on an empty database. */
  datatype Run = Run(truth: Counters, turns: seq<Turn>, worlds: seq<World>) {
    ghost predicate Valid() {
      && Monotone(truth) && |worlds| == |turns| + 1 && worlds[0] == EMPTY
      && (forall i :: 0 <= i < |turns| ==> Step(i))
      && (forall i :: 0 <= i < |turns| ==> turns[i].now.turn == i)
    }

    ghost predicate Step(i: nat)
      requires i < |turns| && |worlds| == |turns| + 1
    {
      Next(worlds[i], turns[i], worlds[i + 1], truth)
    }

    /** The last start could close the sessions of its predecessor, or a turn has failed since and asked for a resync. */
    ghost predicate Clean(n: nat)
      requires n <= |turns| && |worlds| == |turns| + 1
    {
      n == 0 || if turns[n - 1].StartTurn? then turns[n - 1].outcome != Fails else worlds[n].resync || Clean(n - 1)
    }

    /** The turn whose stored status last listed the connection. */
    ghost function LastListed(n: nat, k: Key): Option<Moment>
      requires n <= |turns|
    {
      if n == 0 then None else if turns[n - 1].Lists(k) then Some(turns[n - 1].now) else LastListed(n - 1, k)
    }
  }

  lemma TurnKeeps(w: World, t: Turn, w': World, truth: Counters)
    requires Monotone(truth) && Inv(w, truth, t.now) && Next(w, t, w', truth)
    ensures Inv(w', truth, t.now)
    ensures (if t.StartTurn? then t.outcome != Fails else w'.resync || InStep(w)) ==> InStep(w')
  {
    match t
    case PollTurn(clients, now, _) => PollTxKeeps(w, clients, now, truth);
    case SkipTurn(_) =>
    case DownTurn(now, outcome) => DownKeeps(w, now, outcome, truth);
    case StartTurn(now, outcome) => StartKeeps(w, outcome, truth, now);
    case LogTurn(client, at, end, now) => LogKeeps(w, client, at, end, truth, now);
    case RollTurn(now, at) => RollKeeps(w, truth, now, at);
  }

  lemma TurnTimed(w: World, t: Turn, w': World, truth: Counters, k: Key, d: Option<Moment>)
    requires Monotone(truth) && Inv(w, truth, t.now) && Next(w, t, w', truth) && Timed(w.db.sessions, k, d)
    ensures Timed(w'.db.sessions, k, if t.Lists(k) then Some(t.now) else d)
  {
    hide Timed, PollTx, Close, Rollup;
    match t
    case PollTurn(clients, now, outcome) =>
      ResyncNeedsAClient(w, clients, now, truth);
      if PollTx(w, clients, now).Some? { PollTxTimed(w, clients, now, truth, k, d); }
    case SkipTurn(_) =>
    case DownTurn(now, _) => CloseTimed(w.db.sessions, Ids(w.active), Some(now.clock), k, d);
    case StartTurn(_, _) => CloseTimed(w.db.sessions, Others(w.db.sessions, {}), None, k, d);
    case LogTurn(client, at, end, _) =>
      AppendTimed(w.db.sessions, Session(client, None, at, ZERO, Moment(0, end), Some(end)), k, d);
    case RollTurn(_, _) =>
  }

  lemma {:induction false} Reachable(run: Run, n: nat, now: Moment)
    requires run.Valid() && n < |run.worlds| && n <= now.turn + 1
    ensures Inv(run.worlds[n], run.truth, now)
    ensures run.Clean(n) ==> InStep(run.worlds[n])
  {
    if n == 0 {
      forall cn, dir ensures SumStore(EMPTY.db.traffic, OfClient(cn), dir) == SessionSum(EMPTY.db.sessions, cn, dir) {
      }
    } else {
      var w, t := run.worlds[n - 1], run.turns[n - 1];
      Reachable(run, n - 1, t.now);
      assert run.Step(n - 1);
      TurnKeeps(w, t, run.worlds[n], run.truth);
      LaterLedger(run.worlds[n].db, run.truth, t.now, now);
    }
  }

  lemma {:induction false} RowsAreTimed(run: Run, n: nat, k: Key)
    requires run.Valid() && n < |run.worlds|
    ensures Timed(run.worlds[n].db.sessions, k, run.LastListed(n, k))
  {
    if n > 0 {
      RowsAreTimed(run, n - 1, k);
      var w, t := run.worlds[n - 1], run.turns[n - 1];
      Reachable(run, n - 1, t.now);
      assert run.Step(n - 1);
      TurnTimed(w, t, run.worlds[n], run.truth, k, run.LastListed(n - 1, k));
    }
  }

  /** Every turn is possible in every reachable world, so that runs are all there are. */
  lemma EveryTurnPossible(run: Run, t: Turn)
    requires run.Valid() && t.now.turn == |run.turns| && (t.PollTurn? ==> Honest(t.clients, run.truth, t.now))
    ensures var w := run.worlds[|run.turns|]; Refers(w.active, w.db.sessions)
    ensures Run(run.truth, run.turns + [t], run.worlds + [After(run.worlds[|run.turns|], t)]).Valid()
  {
    hide After, Honest, Monotone;
    var n := |run.turns|;
    Reachable(run, n, t.now);
    InvRefers(run.worlds[n], run.truth, t.now);
    var longer := Run(run.truth, run.turns + [t], run.worlds + [After(run.worlds[n], t)]);
    forall i | 0 <= i < n + 1 ensures longer.Step(i) {
      if i < n { assert run.Step(i); }
    }
  }

  /** The one row of a connection has the counters of that time; no row if there is no time. */
  ghost predicate Holds(rows: seq<Session>, k: Key, t: Option<Moment>, truth: Counters) {
    match t
    case None => forall i :: 0 <= i < |rows| ==> !IsOf(rows[i], k)
    case Some(x) => exists i :: 0 <= i < |rows| && IsRowAt(rows, i, k, x, truth)
  }

  ghost predicate IsRowAt(rows: seq<Session>, i: nat, k: Key, t: Moment, truth: Counters)
    requires i < |rows|
  {
    && IsOf(rows[i], k) && rows[i].lastSeen == t && rows[i].bytes == truth(k, t.turn)
    && forall j :: 0 <= j < |rows| && j != i ==> !IsOf(rows[j], k)
  }

  /**
   * Through any run: the traffic of each client is the bytes of its sessions, and each connection that a stored status
   * has listed has one session, with the counters of the last such status. No byte is lost or counted twice.
   */
  lemma EveryByteOnce(run: Run, n: nat, cn: string, dir: bool, k: Key)
    requires run.Valid() && n < |run.worlds|
    ensures var db := run.worlds[n].db;
      && SumStore(db.traffic, OfClient(cn), dir) == SessionSum(db.sessions, cn, dir)
      && Holds(db.sessions, k, run.LastListed(n, k), run.truth)
  {
    var now := Moment(n, 0);
    Reachable(run, n, now);
    RowsAreTimed(run, n, k);
    var rows, t := run.worlds[n].db.sessions, run.LastListed(n, k);
    if t.Some? {
      var i :| 0 <= i < |rows| && IsOf(rows[i], k) && rows[i].lastSeen == t.value;
      assert RowOk(rows[i], run.truth, now);
      assert IsRowAt(rows, i, k, t.value, run.truth);
    }
  }

  /** Rows that no status listed hold no bytes. */
  lemma OnlyListedHoldBytes(run: Run, n: nat, i: nat)
    requires run.Valid() && n < |run.worlds| && i < |run.worlds[n].db.sessions|
    ensures var s := run.worlds[n].db.sessions[i];
      if s.cid.Some? then run.LastListed(n, RowKey(s)) == Some(s.lastSeen) else s.bytes == ZERO
  {
    var s := run.worlds[n].db.sessions[i];
    var now := Moment(n, 0);
    Reachable(run, n, now);
    assert RowOk(s, run.truth, now);
    if s.cid.Some? { EveryByteOnce(run, n, s.client, true, RowKey(s)); }
  }

  /** After a committed poll the memory is the listed connections, each with its open row and its counters of the poll. */
  lemma PollIsCurrent(run: Run, n: nat, k: Key)
    requires run.Valid() && n < |run.turns| && run.turns[n].PollTurn? && !run.worlds[n + 1].resync
    ensures k in run.worlds[n + 1].active <==> k in Seen(run.turns[n].clients)
    ensures k in run.worlds[n + 1].active ==>
      var w, now := run.worlds[n + 1], run.turns[n].now;
      && Linked(w.db.sessions, k, w.active[k]) && w.active[k].bytes == run.truth(k, now.turn)
      && w.db.sessions[w.active[k].session].lastSeen == now
  {
    hide PollTx, Ledger, InStep;
    assert run.Step(n);
    Reachable(run, n + 1, run.turns[n].now);
    PollKeys(run.worlds[n], run.turns[n].clients, run.turns[n].now, run.turns[n].outcome);
    if k in Seen(run.turns[n].clients) {
      EveryByteOnce(run, n + 1, k.cn, true, k);
      assert Linked(run.worlds[n + 1].db.sessions, k, run.worlds[n + 1].active[k]);
    }
  }

  /** Once the last start was clean, every committed poll leaves exactly the rows of the memory open, with its bytes. */
  lemma MemoryMatchesRows(run: Run, n: nat, i: nat)
    requires run.Valid() && n < |run.worlds| && run.Clean(n) && !run.worlds[n].resync
    requires i < |run.worlds[n].db.sessions|
    ensures var w := run.worlds[n];
      && (w.db.sessions[i].closed == None <==> exists k :: k in w.active && w.active[k].session == i)
      && (forall k <- w.active ::
            w.active[k].session < |w.db.sessions| && w.db.sessions[w.active[k].session].bytes == w.active[k].bytes)
  {
    Reachable(run, n, Moment(n, 0));
    var w := run.worlds[n];
    assert Covered(w.db.sessions, w.active, i);
    forall k | k in w.active
      ensures w.active[k].session < |w.db.sessions| && w.db.sessions[w.active[k].session].bytes == w.active[k].bytes
      ensures w.db.sessions[w.active[k].session].closed == None
    {
      assert Linked(w.db.sessions, k, w.active[k]);
    }
  }

  // ---- without a start time -----------------------------------------------

  /**
   * A connection without a start time is seen, the memory is lost, and it is seen again with counters that have not
   * fallen. Its traffic is its counters if the two polls are of the same second; otherwise the first ones count twice.
   */
  lemma NoStartTimeCountsAgain(db: Db, k: Key, ip: string, b1: Bytes, b2: Bytes, t1: Moment, t2: Moment, dir: bool)
    requires k.since == 0 && Listed(Client(k, ip, b1)) && 0 <= b1.received <= b2.received && 0 <= b1.sent <= b2.sent
    requires FindSession(db.sessions, k.cn, k.cid, t1.clock).None? && FindSession(db.sessions, k.cn, k.cid, t2.clock).None?
    ensures var once := Observe(db, map[], Client(k, ip, b1), t1).0;
      var again := Observe(once, map[], Client(k, ip, b2), t2).0;
      SumStore(again.traffic, OfClient(k.cn), dir)
      == SumStore(db.traffic, OfClient(k.cn), dir) + b2.Get(dir) + if t1.clock == t2.clock then 0 else b1.Get(dir)
  {
    hide Credit;
    var once := Observe(db, map[], Client(k, ip, b1), t1).0;
    CreditSum(db.traffic, t1.clock, k.cn, b1, k.cn, dir);
    assert once.sessions[..|db.sessions|] == db.sessions;
    assert FindSession(once.sessions, k.cn, k.cid, t2.clock) == if t1.clock == t2.clock then Some(|db.sessions|) else None;
    CreditSum(once.traffic, t2.clock, k.cn, if t1.clock == t2.clock then Gain(b2, b1) else b2, k.cn, dir);
  }
}
