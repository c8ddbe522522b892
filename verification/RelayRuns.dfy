/** What the relay's accounting keeps over whole runs, and what it reports. */
module RelayRuns {
  import opened RelayActivity
  import opened Wrappers

  datatype Event =
    | Begun
    | Identified(i: nat, client: string, identity: string, counted: bool)
    | Connected(i: nat, start: int, now: int)
    | Added(i: nat, bytes: Bytes)
    | Finished(i: nat, status: int, now: int)

  ghost predicate Connects(a: Log, i: nat, start: int, now: int, v: Option<nat>, cv: Option<string>, b: Log)
    requires i < |a.flows|
  {
    SessionVictim(a.sessions, v) && ClientVictim(a.clients, cv) && b == Connect(a, i, start, now, v, cv)
  }

  ghost predicate Finishes(a: Log, i: nat, status: int, now: int, v: Option<nat>, cv: Option<string>, b: Log)
    requires i < |a.flows|
  {
    SessionVictim(a.sessions, v) && ClientVictim(a.clients, cv) && b == Finish(a, i, status, now, v, cv)
  }

  /** A flow is named before it connects, connects at most once, and may carry traffic or end at any time. */
  ghost predicate Step(a: Log, e: Event, b: Log) {
    match e
    case Begun => b == Begin(a)
    case Identified(i, client, identity, counted) =>
      i < |a.flows| && a.flows[i].phase == New && b == Identify(a, i, client, identity, counted)
    case Connected(i, start, now) =>
      i < |a.flows| && a.flows[i].phase == New && exists v, cv :: Connects(a, i, start, now, v, cv, b)
    case Added(i, bytes) => i < |a.flows| && b == Add(a, i, bytes)
    case Finished(i, status, now) => i < |a.flows| && exists v, cv :: Finishes(a, i, status, now, v, cv, b)
  }

  /** Client rows are bounded unless every one of them is in use. */
  ghost predicate Bounded(log: Log) {
    |log.clients| <= MAX_CLIENTS || forall c <- log.clients :: log.clients[c].open > 0
  }

  ghost predicate Good(log: Log) { Inv(log) && Fresh(log) && Bounded(log) }

  lemma OpenIsCount(log: Log, c: string)
    requires Inv(log) && c in log.clients
    ensures log.clients[c].open >= 0
  {
    assert ClientOk(log.flows, c, log.clients[c], log.rows);
    if log.flows == [] { TotalZero(log.flows, OpenOf(c)); } else { TotalCounts(log.flows, OpenOf(c), 0); }
  }

  lemma AdmitBounded(log: Log, c: string, now: int, cv: Option<string>)
    requires Inv(log) && Bounded(log) && ClientVictim(log.clients, cv)
    ensures var l := Admit(log, c, now, cv);
      |l.clients| <= MAX_CLIENTS || forall x <- l.clients :: x == c || l.clients[x].open > 0
    ensures var l := Admit(log, c, now, cv);
      c in log.clients ==> l.clients[c].open == log.clients[c].open && |l.clients| == |log.clients|
  {
    forall x | x in log.clients ensures log.clients[x].open >= 0 {
      OpenIsCount(log, x);
    }
    if c in log.clients {
      assert log.clients[c := log.clients[c].(lastSeen := now)].Keys == log.clients.Keys;
    } else if cv.Some? {
      assert (log.clients - {cv.value}).Keys == log.clients.Keys - {cv.value};
    }
  }

  lemma ConnectBounded(log: Log, i: nat, start: int, now: int, v: Option<nat>, cv: Option<string>)
    requires Good(log) && i < |log.flows| && log.flows[i].phase == New
    requires SessionVictim(log.sessions, v) && ClientVictim(log.clients, cv)
    ensures Bounded(Connect(log, i, start, now, v, cv))
  {
    hide Attach, Admit, Inv;
    AttachKeeps(log, i, start, v);
    var c := log.flows[i].client;
    var l := Attach(log, i, start, v);
    AdmitBounded(l, c, now, cv);
    AdmitKeeps(l, c, now, cv);
    var l' := Admit(l, c, now, cv);
    OpenIsCount(l', c);
    assert Opened(l', i).clients.Keys == l'.clients.Keys;
  }

  lemma FinishBounded(log: Log, i: nat, status: int, now: int, v: Option<nat>, cv: Option<string>)
    requires Good(log) && i < |log.flows|
    requires SessionVictim(log.sessions, v) && ClientVictim(log.clients, cv)
    ensures Bounded(Finish(log, i, status, now, v, cv))
  {
    hide Admit, Attach, Inv, PaySession, SessionOf;
    if log.flows[i].phase != Ended {
      var c := log.flows[i].client;
      AdmitBounded(log, c, now, cv);
      SettleKeeps(log, i, now, v, cv);
      var l := Settle(log, i, now, v, cv);
      ClosedKeeps(l, i, status, now);
      var l' := Closed(l, i, status, now);
      OpenIsCount(l', c);
      assert l'.clients.Keys == l.clients.Keys;
    }
  }

  /** Connecting and ending change only the flow concerned, and it is not new afterwards. */
  lemma ConnectFlows(log: Log, i: nat, start: int, now: int, v: Option<nat>, cv: Option<string>)
    requires i < |log.flows| && SessionVictim(log.sessions, v)
    ensures var l := Connect(log, i, start, now, v, cv);
      && |l.flows| == |log.flows|
      && l.flows == log.flows[i := log.flows[i].(session := l.flows[i].session, phase := Open, wasOpen := true)]
  {
    hide Attach, Admit;
  }

  lemma FinishFlows(log: Log, i: nat, status: int, now: int, v: Option<nat>, cv: Option<string>)
    requires i < |log.flows| && log.flows[i].phase != Ended && SessionVictim(log.sessions, v)
    ensures var l, f := Finish(log, i, status, now, v, cv), log.flows[i];
      && |l.flows| == |log.flows|
      && l.flows == log.flows[i := f.(session := l.flows[i].session, phase := Ended, paid := f.traffic, row := l.flows[i].row)]
  {
    hide Settle;
  }

  /** An open flow ends in the session that it connected in. */
  lemma FinishOpen(log: Log, i: nat, status: int, now: int, v: Option<nat>, cv: Option<string>)
    requires Inv(log) && i < |log.flows| && log.flows[i].phase == Open && SessionVictim(log.sessions, v)
    ensures var l := Finish(log, i, status, now, v, cv);
      && |l.flows| == |log.flows| && l.flows[i].session == log.flows[i].session
      && l.sessions.Keys == log.sessions.Keys
  {
    hide Inv, Admit, PaySession, PayClient, KindOf;
    var f := log.flows[i];
    OpenHasSession(log, i);
    assert Settle(log, i, now, v, cv) == Admit(log, f.client, now, cv);
  }

  lemma OpenHasSession(log: Log, i: nat)
    requires Inv(log) && i < |log.flows| && log.flows[i].phase == Open
    ensures log.flows[i].client != "" ==> log.flows[i].session != 0 && log.flows[i].session in log.sessions
  {
    assert InSession(log.flows[i], log.sessions, log.sequence);
    if log.flows[i].client != "" {
      var id := log.flows[i].session;
      assert SessionOk(log.flows, id, log.sessions[id], log.current, log.sequence);
    }
  }

  lemma QuietStep(a: Log, e: Event, b: Log)
    requires Good(a) && Step(a, e, b) && (e.Identified? || e.Added?)
    ensures Good(b)
  {
    assert InSession(a.flows[e.i], a.sessions, a.sequence) && HasClient(a.flows[e.i], a.clients, a.rows);
    QuietKeeps(a, e.i, b.flows[e.i]);
  }

  lemma StepKeeps(a: Log, e: Event, b: Log)
    requires Good(a) && Step(a, e, b)
    ensures Good(b)
  {
    hide Inv, Connect, Finish, SessionVictim, ClientVictim;
    match e
    case Begun => BeginKeeps(a);
    case Identified(_, _, _, _) => QuietStep(a, e, b);
    case Added(_, _) => QuietStep(a, e, b);
    case Connected(i, start, now) =>
      var v, cv :| Connects(a, i, start, now, v, cv, b);
      ConnectKeeps(a, i, start, now, v, cv);
      ConnectBounded(a, i, start, now, v, cv);
      ConnectFlows(a, i, start, now, v, cv);
    case Finished(i, status, now) =>
      var v, cv :| Finishes(a, i, status, now, v, cv, b);
      FinishKeeps(a, i, status, now, v, cv);
      FinishBounded(a, i, status, now, v, cv);
      if a.flows[i].phase != Ended { FinishFlows(a, i, status, now, v, cv); } else { EndedStays(a, i, status, now, v, cv); }
  }

  /** Ending a flow again changes nothing. */
  lemma EndedStays(log: Log, i: nat, status: int, now: int, v: Option<nat>, cv: Option<string>)
    requires i < |log.flows| && log.flows[i].phase == Ended && SessionVictim(log.sessions, v)
    ensures Finish(log, i, status, now, v, cv) == log
  {
  }

  datatype Run = Run(events: seq<Event>, states: seq<Log>) {
    ghost predicate Valid() {
      && |states| == |events| + 1 && states[0] == EMPTY
      && forall i :: 0 <= i < |events| ==> StepAt(i)
    }

    ghost predicate StepAt(i: nat)
      requires i < |events| && |states| == |events| + 1
    {
      Step(states[i], events[i], states[i + 1])
    }
  }

  lemma {:induction false} Reachable(run: Run, n: nat)
    requires run.Valid() && n < |run.states|
    ensures Good(run.states[n])
  {
    if n > 0 {
      Reachable(run, n - 1);
      assert run.StepAt(n - 1);
      StepKeeps(run.states[n - 1], run.events[n - 1], run.states[n]);
    }
  }

  // ---- one active session per client and credential ------------------------

  /** At most one session of a client and credential has open flows, and it is the one that new flows join. */
  lemma OneActiveSession(run: Run, n: nat, x: nat, y: nat)
    requires run.Valid() && n < |run.states|
    requires x in run.states[n].sessions && y in run.states[n].sessions
    requires run.states[n].sessions[x].active > 0 && run.states[n].sessions[y].active > 0
    requires run.states[n].sessions[x].key == run.states[n].sessions[y].key
    ensures x == y
  {
    Reachable(run, n);
    var log := run.states[n];
    assert SessionOk(log.flows, x, log.sessions[x], log.current, log.sequence);
    assert SessionOk(log.flows, y, log.sessions[y], log.current, log.sequence);
  }

  /** Every open flow of a known client is counted in a row of its session and in a row of its client. */
  lemma OpenIsCounted(run: Run, n: nat, i: nat)
    requires run.Valid() && n < |run.states| && i < |run.states[n].flows| && run.states[n].flows[i].phase == Open
    ensures var log := run.states[n]; var f := log.flows[i];
      && f.client in log.clients && log.clients[f.client].open > 0
      && (f.client != "" ==>
            f.session in log.sessions && log.sessions[f.session].key == KeyOf(f) && log.sessions[f.session].active > 0)
  {
    hide Total, Step;
    Reachable(run, n);
    var log := run.states[n];
    var f := log.flows[i];
    assert InSession(f, log.sessions, log.sequence) && HasClient(f, log.clients, log.rows);
    assert ClientOk(log.flows, f.client, log.clients[f.client], log.rows);
    TotalCounts(log.flows, OpenOf(f.client), i);
    if f.client != "" {
      assert SessionOk(log.flows, f.session, log.sessions[f.session], log.current, log.sequence);
      TotalCounts(log.flows, Active(f.session), i);
    }
  }

  // ---- what is reported ----------------------------------------------------

  /** What the status page shows for a session: the bytes in its row and those of its open flows. */
  ghost function Reported(log: Log, id: nat, dir: bool): int
    requires id in log.sessions
  {
    log.sessions[id].bytes.Get(dir) + Total(log.flows, Live(id, dir))
  }

  ghost function ClientReported(log: Log, c: string, dir: bool): int
    requires c in log.clients
  {
    log.clients[c].bytes.Get(dir) + Total(log.flows, LiveOf(c, dir))
  }

  lemma ReportedIs(log: Log, id: nat, dir: bool)
    requires Inv(log) && id in log.sessions
    ensures Reported(log, id, dir) == Total(log.flows, Paid(id, dir)) + Total(log.flows, Live(id, dir))
  {
    assert SessionOk(log.flows, id, log.sessions[id], log.current, log.sequence);
  }

  lemma ClientReportedIs(log: Log, c: string, dir: bool)
    requires Inv(log) && c in log.clients
    ensures ClientReported(log, c, dir)
         == Total(log.flows, PaidOf(c, log.clients[c].serial, dir)) + Total(log.flows, LiveOf(c, dir))
  {
    assert ClientOk(log.flows, c, log.clients[c], log.rows);
  }

  /** What a flow that ends without having connected adds to what is reported: it was not live before. */
  function Late(f: Flow, dir: bool): int { if f.phase == New && f.counted then f.traffic.Get(dir) else 0 }

  /**
   * Ending a flow moves its bytes into the rows: no session reports more or less for it, ended once or again. A flow
   * that never connected adds its bytes to the session that it ends in.
   */
  lemma FinishReports(log: Log, i: nat, status: int, now: int, v: Option<nat>, cv: Option<string>, id: nat, dir: bool)
    requires Good(log) && i < |log.flows| && id in log.sessions
    requires SessionVictim(log.sessions, v) && ClientVictim(log.clients, cv)
    ensures var l := Finish(log, i, status, now, v, cv);
      && |l.flows| == |log.flows| && (log.flows[i].phase != New ==> id in l.sessions)
      && (id in l.sessions ==>
            Reported(l, id, dir) == Reported(log, id, dir) + if l.flows[i].session == id then Late(log.flows[i], dir) else 0)
  {
    hide Inv, Settle, Closed, Trim, Reported;
    if log.flows[i].phase != Ended {
      FinishKeeps(log, i, status, now, v, cv);
      FinishFlows(log, i, status, now, v, cv);
      if log.flows[i].phase == Open { FinishOpen(log, i, status, now, v, cv); }
      var l := Finish(log, i, status, now, v, cv);
      ReportedIs(log, id, dir);
      if id in l.sessions {
        ReportedIs(l, id, dir);
        TotalReplace(log.flows, i, l.flows[i], Paid(id, dir));
        TotalReplace(log.flows, i, l.flows[i], Live(id, dir));
      }
    }
  }

  /** So it is with clients, whose rows go only from a full table and without open flows. */
  lemma FinishClientReports(log: Log, i: nat, status: int, now: int, v: Option<nat>, cv: Option<string>, c: string, dir: bool)
    requires Good(log) && i < |log.flows| && c in log.clients
    requires SessionVictim(log.sessions, v) && ClientVictim(log.clients, cv)
    ensures var l, f := Finish(log, i, status, now, v, cv), log.flows[i];
      && (c in l.clients ==>
            ClientReported(l, c, dir) == ClientReported(log, c, dir) + if f.client == c then Late(f, dir) else 0)
      && (c !in l.clients ==> |log.clients| >= MAX_CLIENTS + One(f.phase == Open) && Total(l.flows, OpenOf(c)) == 0)
  {
    hide Inv, ClientReported, Finish;
    if log.flows[i].phase != Ended {
      FinishKeeps(log, i, status, now, v, cv);
      FinishFlows(log, i, status, now, v, cv);
      FinishRow(log, i, status, now, v, cv, c);
      var l := Finish(log, i, status, now, v, cv);
      ClientReportedIs(log, c, dir);
      if c in l.clients {
        ClientReportedIs(l, c, dir);
        TotalReplace(log.flows, i, l.flows[i], PaidOf(c, log.clients[c].serial, dir));
        TotalReplace(log.flows, i, l.flows[i], LiveOf(c, dir));
      }
    } else {
      EndedStays(log, i, status, now, v, cv);
    }
  }

  lemma OpenHasRow(log: Log, i: nat)
    requires Inv(log) && i < |log.flows| && log.flows[i].phase == Open
    ensures log.flows[i].client in log.clients && log.flows[i].wasOpen
  {
    assert HasClient(log.flows[i], log.clients, log.rows);
  }

  lemma RowOk(log: Log, c: string)
    requires Inv(log) && c in log.clients
    ensures ClientOk(log.flows, c, log.clients[c], log.rows)
  {
  }

  /** A client's row stays the same while it is kept; the row given up for a new client has no open flows. */
  lemma AdmitRow(log: Log, client: string, now: int, cv: Option<string>, c: string)
    requires c in log.clients && ClientVictim(log.clients, cv)
    ensures var l := Admit(log, client, now, cv);
      && (c in l.clients ==> l.clients[c] == log.clients[c].(lastSeen := l.clients[c].lastSeen))
      && (c !in l.clients ==> |log.clients| >= MAX_CLIENTS && log.clients[c].open == 0 && client !in log.clients)
      && (client in log.clients ==> l.clients.Keys == log.clients.Keys)
  {
  }

  /** A flow ends in the row of its client; a row goes only from a full table, and when nothing is open. */
  lemma FinishRow(log: Log, i: nat, status: int, now: int, v: Option<nat>, cv: Option<string>, c: string)
    requires Good(log) && i < |log.flows| && log.flows[i].phase != Ended && c in log.clients
    requires SessionVictim(log.sessions, v) && ClientVictim(log.clients, cv)
    ensures var l, f := Finish(log, i, status, now, v, cv), log.flows[i];
      && |l.flows| == |log.flows| && (f.client == c ==> l.flows[i].row == log.clients[c].serial)
      && (c in l.clients ==> l.clients[c].serial == log.clients[c].serial)
      && (c !in l.clients ==> |log.clients| >= MAX_CLIENTS + One(f.phase == Open) && Total(l.flows, OpenOf(c)) == 0)
  {
    hide Inv, Attach, Admit, Bounded, Closed, Trim;
    var f := log.flows[i];
    if f.phase == Open { OpenHasRow(log, i); }
    AdmitRow(log, f.client, now, cv, c);
    SettleKeeps(log, i, now, v, cv);
    var l := Settle(log, i, now, v, cv);
    ClosedRow(l, i, status, now, c);
    if c !in l.clients {
      RowOk(log, c);
      var l' := Finish(log, i, status, now, v, cv);
      FinishFlows(log, i, status, now, v, cv);
      TotalReplace(log.flows, i, l'.flows[i], OpenOf(c));
    } else if f.client in log.clients {
      SameSize(l.clients, log.clients);
    }
  }

  lemma SameSize(a: map<string, Client>, b: map<string, Client>)
    requires a.Keys == b.Keys
    ensures |a| == |b|
  {
  }

  /** The end of a flow leaves all rows, but that of its own client if the table is over-full and nothing is open. */
  lemma ClosedRow(log: Log, i: nat, status: int, now: int, c: string)
    requires Inv(log) && i < |log.flows| && log.flows[i].phase != Ended && log.flows[i].client in log.clients
    ensures var l, f := Trim(Closed(log, i, status, now), log.flows[i].client), log.flows[i];
      && |l.flows| == |log.flows| && l.flows[i].row == log.clients[f.client].serial
      && (c in l.clients ==> c in log.clients && l.clients[c].serial == log.clients[c].serial)
      && (c !in l.clients && c in log.clients ==> c == f.client && |log.clients| > MAX_CLIENTS && Total(l.flows, OpenOf(c)) == 0)
  {
    hide Inv, Total;
    ClosedKeeps(log, i, status, now);
    var l := Closed(log, i, status, now);
    RowOk(l, log.flows[i].client);
    SameSize(l.clients, log.clients);
  }

  /** Traffic shows at once, in the session of the open flow and nowhere else; after the end it changes nothing. */
  lemma AddReports(log: Log, i: nat, b: Bytes, id: nat, dir: bool)
    requires i < |log.flows| && id in log.sessions
    ensures Reported(Add(log, i, b), id, dir) == Reported(log, id, dir)
      + if log.flows[i].phase == Open && log.flows[i].counted && log.flows[i].session == id then b.Get(dir) else 0
  {
    var l := Add(log, i, b);
    TotalReplace(log.flows, i, l.flows[i], Live(id, dir));
  }

  // ---- what is kept --------------------------------------------------------

  /** What a step may do to the session rows: give up the victim, add one, and change all but the keys of the rest. */
  ghost predicate Moves(a: map<nat, Session>, v: Option<nat>, b: map<nat, Session>) {
    && (forall id <- a :: v == Some(id) || (id in b && b[id].key == a[id].key))
    && (|b| <= |a| || (v.None? && |b| == |a| + 1))
  }

  lemma EvictMoves(log: Log, v: nat)
    requires v in log.sessions
    ensures var b := Evict(log, v).sessions;
      |b| == |log.sessions| - 1 && forall id <- log.sessions :: id == v || (id in b && b[id] == log.sessions[id])
    ensures Evict(log, v).sequence == log.sequence && Evict(log, v).sessions.Keys <= log.sessions.Keys
  {
    assert Evict(log, v).sessions.Keys == log.sessions.Keys - {v};
  }

  lemma OpenSessionMoves(log: Log, key: Key, now: int)
    requires forall id <- log.sessions :: id <= log.sequence
    ensures var b := OpenSession(log, key, now).sessions;
      |b| == |log.sessions| + 1 && forall id <- log.sessions :: id in b && b[id] == log.sessions[id]
  {
    var id := log.sequence + 1;
    assert id !in log.sessions;
    AddedRow(log.sessions, id, Session(key, now, now, 0, 0, 0, 0, ZERO, 0));
  }

  lemma AddedRow(rows: map<nat, Session>, id: nat, s: Session)
    requires id !in rows
    ensures |rows[id := s]| == |rows| + 1
  {
    assert rows[id := s].Keys == rows.Keys + {id};
  }

  lemma RenewMoves(log: Log, key: Key, now: int, v: Option<nat>)
    requires SessionVictim(log.sessions, v) && forall id <- log.sessions :: id <= log.sequence
    ensures Moves(log.sessions, v, Renew(log, key, now, v).sessions)
  {
    hide Evict, OpenSession, Stale;
    if Stale(log, key, now) {
      if v.Some? {
        EvictMoves(log, v.value);
        OpenSessionMoves(Evict(log, v.value), key, now);
      } else {
        OpenSessionMoves(log, key, now);
      }
    }
  }

  lemma AttachMoves(log: Log, i: nat, now: int, v: Option<nat>)
    requires i < |log.flows| && SessionVictim(log.sessions, v) && forall id <- log.sessions :: id <= log.sequence
    ensures Moves(log.sessions, v, Attach(log, i, now, v).sessions)
  {
    hide Renew;
    var f := log.flows[i];
    if f.client != "" && f.session == 0 {
      RenewMoves(log, KeyOf(f), now, v);
      var l := Renew(log, KeyOf(f), now, v);
      assert Join(l, i, l.current[KeyOf(f)], now).sessions.Keys == l.sessions.Keys;
    }
  }

  lemma BookMoves(log: Log, i: nat, g: Flow, s: Session, c: Client, a: map<nat, Session>, v: Option<nat>)
    requires i < |log.flows| && Moves(a, v, log.sessions)
    requires g.session in log.sessions ==> s.key == log.sessions[g.session].key
    ensures Moves(a, v, Book(log, i, g, s, c).sessions)
  {
    assert Book(log, i, g, s, c).sessions.Keys == log.sessions.Keys;
  }

  lemma ConnectMoves(log: Log, i: nat, start: int, now: int, v: Option<nat>, cv: Option<string>)
    requires i < |log.flows| && SessionVictim(log.sessions, v) && forall id <- log.sessions :: id <= log.sequence
    ensures Moves(log.sessions, v, Connect(log, i, start, now, v, cv).sessions)
  {
    hide Attach, Admit, Moves, Book;
    AttachMoves(log, i, start, v);
    var l := Admit(Attach(log, i, start, v), log.flows[i].client, now, cv);
    var f := l.flows[i];
    var s, c := SessionOf(l, f), l.clients[f.client];
    BookMoves(l, i, f.(phase := Open, wasOpen := true), s.(active := s.active + 1, accepted := s.accepted + 1),
              c.(open := c.open + 1, accepted := c.accepted + 1), log.sessions, v);
  }

  lemma FinishMoves(log: Log, i: nat, status: int, now: int, v: Option<nat>, cv: Option<string>)
    requires i < |log.flows| && SessionVictim(log.sessions, v) && forall id <- log.sessions :: id <= log.sequence
    requires log.flows[i].phase != Ended
    ensures Moves(log.sessions, v, Finish(log, i, status, now, v, cv).sessions)
  {
    hide Attach, Admit, Moves, Book;
    AttachMoves(Admit(log, log.flows[i].client, now, cv), i, now, v);
    var l := Settle(log, i, now, v, cv);
    var f := l.flows[i];
    var kind, s, c := KindOf(f, status), SessionOf(l, f), l.clients[f.client];
    BookMoves(l, i, f.(phase := Ended, paid := f.traffic, row := c.serial), PaySession(s, f, kind, now),
              PayClient(c, f, kind), log.sessions, v);
  }

  lemma SequenceBounds(log: Log)
    requires Inv(log)
    ensures forall id <- log.sessions :: id <= log.sequence
  {
    forall id | id in log.sessions ensures id <= log.sequence {
      assert SessionOk(log.flows, id, log.sessions[id], log.current, log.sequence);
    }
  }

  ghost predicate Kept(a: Log, b: Log) {
    forall id <- a.sessions :: a.sessions[id].active > 0 ==> id in b.sessions && b.sessions[id].key == a.sessions[id].key
  }

  /** A session that has open flows is never given up, in any step. */
  lemma ActiveSessionsStay(a: Log, e: Event, b: Log)
    requires Good(a) && Step(a, e, b)
    ensures Kept(a, b)
    ensures |b.sessions| > |a.sessions| ==> |b.sessions| == |a.sessions| + 1 && SessionVictim(a.sessions, None)
  {
    hide Inv, Connect, Finish, Fresh, Bounded, ClientVictim;
    SequenceBounds(a);
    match e
    case Begun =>
    case Identified(_, _, _, _) =>
    case Added(_, _) =>
    case Connected(i, start, now) =>
      var v, cv :| Connects(a, i, start, now, v, cv, b);
      ConnectMoves(a, i, start, now, v, cv);
    case Finished(i, status, now) =>
      var v, cv :| Finishes(a, i, status, now, v, cv, b);
      if a.flows[i].phase != Ended { FinishMoves(a, i, status, now, v, cv); } else { EndedStays(a, i, status, now, v, cv); }
  }

  function OpenFlows(flows: seq<Flow>): nat {
    if flows == [] then 0 else OpenFlows(flows[..|flows| - 1]) + One(flows[|flows| - 1].phase == Open)
  }

  lemma {:induction false} Pigeonhole(flows: seq<Flow>, ids: set<nat>)
    requires forall id <- ids :: Total(flows, Active(id)) > 0
    ensures |ids| <= OpenFlows(flows)
  {
    if flows == [] {
      assert forall id <- ids :: Total([], Active(id)) > 0;
      assert ids == {};
    } else {
      var f := flows[|flows| - 1];
      var rest := ids - {f.session};
      if f.phase == Open {
        Pigeonhole(flows[..|flows| - 1], rest);
        assert ids <= rest + {f.session};
        SubsetSize(ids, rest + {f.session});
      } else {
        Pigeonhole(flows[..|flows| - 1], ids);
      }
    }
  }

  /**
   * Session rows stay within the limit as long as fewer flows are open than that; if `peak` flows were open at once
   * there may be one row more than that. Rows are not given up when the flows end.
   */
  lemma {:induction false} SessionsBounded(run: Run, n: nat, peak: nat)
    requires run.Valid() && n < |run.states|
    requires forall k :: 0 <= k < n ==> OpenFlows(run.states[k].flows) <= peak
    ensures |run.states[n].sessions| <= Max(MAX_SESSIONS, peak + 1)
  {
    hide Inv, Fresh, Bounded, Step, OpenFlows, Kept;
    if n > 0 {
      var a := run.states[n - 1];
      SessionsBounded(run, n - 1, peak);
      Reachable(run, n - 1);
      assert run.StepAt(n - 1);
      ActiveSessionsStay(a, run.events[n - 1], run.states[n]);
      if |a.sessions| >= MAX_SESSIONS && SessionVictim(a.sessions, None) {
        AllActive(a);
      }
    }
  }

  lemma AllActive(log: Log)
    requires Inv(log) && forall id <- log.sessions :: log.sessions[id].active != 0
    ensures |log.sessions| <= OpenFlows(log.flows)
  {
    forall id | id in log.sessions.Keys ensures Total(log.flows, Active(id)) > 0 {
      assert SessionOk(log.flows, id, log.sessions[id], log.current, log.sequence);
      if log.flows == [] { TotalZero(log.flows, Active(id)); } else { TotalCounts(log.flows, Active(id), 0); }
    }
    Pigeonhole(log.flows, log.sessions.Keys);
  }

  /** Client rows: within the limit, or every one of them belongs to a client that is connected. */
  lemma ClientsBounded(run: Run, n: nat, c: string)
    requires run.Valid() && n < |run.states| && |run.states[n].clients| > MAX_CLIENTS && c in run.states[n].clients
    ensures Total(run.states[n].flows, OpenOf(c)) > 0
  {
    Reachable(run, n);
    RowOk(run.states[n], c);
  }

  // ---- every reachable row --------------------------------------------------

  /** A session row counts the open flows that carry its ID, and reports the bytes of its flows. */
  lemma SessionRows(run: Run, n: nat, id: nat, dir: bool)
    requires run.Valid() && n < |run.states| && id in run.states[n].sessions
    ensures var log := run.states[n];
      && log.sessions[id].active == Total(log.flows, Active(id)) >= 0
      && Reported(log, id, dir) == Total(log.flows, Paid(id, dir)) + Total(log.flows, Live(id, dir))
  {
    hide Total, Step;
    Reachable(run, n);
    var log := run.states[n];
    assert SessionOk(log.flows, id, log.sessions[id], log.current, log.sequence);
    ReportedIs(log, id, dir);
    ActiveIsCount(log.flows, id);
  }

  lemma ActiveIsCount(flows: seq<Flow>, id: nat)
    ensures Total(flows, Active(id)) >= 0
  {
    if flows != [] { TotalCounts(flows, Active(id), 0); }
  }

  /** So does a client row, for the flows that ended in it. */
  lemma ClientRows(run: Run, n: nat, c: string, dir: bool)
    requires run.Valid() && n < |run.states| && c in run.states[n].clients
    ensures var log := run.states[n];
      && log.clients[c].open == Total(log.flows, OpenOf(c)) >= 0
      && ClientReported(log, c, dir)
         == Total(log.flows, PaidOf(c, log.clients[c].serial, dir)) + Total(log.flows, LiveOf(c, dir))
  {
    hide Total, Step;
    Reachable(run, n);
    RowOk(run.states[n], c);
    OpenIsCount(run.states[n], c);
    ClientReportedIs(run.states[n], c, dir);
  }

  /** The current session of a client and credential is a stored session of theirs. */
  lemma CurrentIsStored(run: Run, n: nat, key: Key)
    requires run.Valid() && n < |run.states| && key in run.states[n].current
    ensures var log := run.states[n]; log.current[key] in log.sessions && log.sessions[log.current[key]].key == key
  {
    hide Total, Step;
    Reachable(run, n);
  }
}
