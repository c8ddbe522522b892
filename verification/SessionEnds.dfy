/** When the collector opens and ends the rows of sessions (ui/app/collector.py:293-366, ui/app/db.py:420-427). */
module SessionEnds {
  import opened Collector
  import opened Traffic
  import opened Wrappers

  /** The row of a connection that the status lists. */
  predicate IsListed(s: Session, clients: seq<Client>) { s.cid.Some? && RowKey(s) in Seen(clients) }

  /** Rows of listed connections are open, and the others as they were. */
  ghost predicate Opens(rows: seq<Session>, rows': seq<Session>, clients: seq<Client>) {
    && |rows| <= |rows'|
    && (forall i :: 0 <= i < |rows| ==> if IsListed(rows[i], clients) then rows'[i].closed == None && SameKey(rows[i], rows'[i])
                                        else rows'[i] == rows[i])
    && (forall i :: |rows| <= i < |rows'| ==> rows'[i].closed == None && IsListed(rows'[i], clients))
  }

  predicate SameKey(s: Session, s': Session) { s'.cid == s.cid && s'.client == s.client && s'.connectedAt == s.connectedAt }

  lemma ObserveOpens(db: Db, active: map<Key, Entry>, cl: Client, now: Moment)
    requires AllLinked(db, active) && Refers(active, db.sessions) && (Listed(cl) ==> cl.key.since != 0)
    requires Unique(db.sessions)
    ensures Opens(db.sessions, Observe(db, active, cl, now).0.sessions, [cl])
  {
    hide Credit;
    var k, rows, rows' := cl.key, db.sessions, Observe(db, active, cl, now).0.sessions;
    assert Seen([cl]) == if Listed(cl) then {k} else {} by { assert cl in [cl]; }
    if Listed(cl) {
      if k in active {
        assert Linked(rows, k, active[k]);
        TheRow(rows, k, active[k].session);
      } else {
        match FindSession(rows, k.cn, k.cid, k.since)
        case Some(i) => TheRow(rows, k, i);
        case None =>
          forall i | 0 <= i < |rows| ensures !IsListed(rows[i], [cl]) { assert !IsRow(rows[i], k.cn, k.cid, k.since); }
      }
    }
  }

  lemma TheRow(rows: seq<Session>, k: Key, i: nat)
    requires Unique(rows) && i < |rows| && IsOf(rows[i], k)
    ensures forall j :: 0 <= j < |rows| && IsOf(rows[j], k) ==> j == i
  {
  }

  lemma OpensAgain(a: seq<Session>, b: seq<Session>, c: seq<Session>, rest: seq<Client>, cl: Client)
    requires Opens(a, b, rest) && Opens(b, c, [cl])
    ensures Opens(a, c, rest + [cl])
  {
    hide Listed;
    forall s: Session ensures IsListed(s, rest + [cl]) <==> IsListed(s, rest) || IsListed(s, [cl]) {
      SeenBoth(rest, cl);
    }
  }

  lemma SeenBoth(rest: seq<Client>, cl: Client)
    ensures Seen(rest + [cl]) == Seen(rest) + Seen([cl])
  {
    assert cl in [cl];
  }

  lemma {:induction false} ObserveAllOpens(db: Db, active: map<Key, Entry>, clients: seq<Client>, now: Moment, truth: Counters)
    requires Monotone(truth) && Ledger(db, truth, now) && AllLinked(db, active) && Refers(active, db.sessions)
    requires Honest(clients, truth, now)
    ensures Opens(db.sessions, ObserveAll(db, active, clients, now).0.sessions, clients)
  {
    hide Opens, Observe, Monotone, AllLinked;
    if clients == [] {
      NothingOpens(db.sessions);
    } else {
      var rest, cl := clients[..|clients| - 1], clients[|clients| - 1];
      ObserveAllOpens(db, active, rest, now, truth);
      ObserveAllKeeps(db, active, rest, now, truth);
      var (db', active') := ObserveAll(db, active, rest, now);
      ObserveOpens(db', active', cl, now);
      OpensAgain(db.sessions, db'.sessions, Observe(db', active', cl, now).0.sessions, rest, cl);
      assert clients == rest + [cl];
    }
  }

  lemma NothingOpens(rows: seq<Session>)
    ensures Opens(rows, rows, [])
  {
    assert Seen([]) == {};
  }

  /** The end of a row after a poll: none while it is listed; when it is missed, the clock if the memory knows it. */
  function EndAfterPoll(w: World, s: Session, clients: seq<Client>, clock: int): Option<int> {
    if IsListed(s, clients) then None
    else if s.closed.Some? then s.closed
    else if s.cid.Some? && RowKey(s) in w.active then Some(clock)
    else if w.resync then Some(s.lastSeen.clock)
    else None
  }

  lemma PollEnds(w: World, clients: seq<Client>, now: Moment, truth: Counters, i: nat)
    requires Monotone(truth) && Inv(w, truth, now) && Refers(w.active, w.db.sessions) && Honest(clients, truth, now)
    requires PollTx(w, clients, now).Some?
    ensures var rows, rows' := w.db.sessions, PollTx(w, clients, now).value.db.sessions;
      && |rows| <= |rows'|
      && (i < |rows| ==> rows'[i].closed == EndAfterPoll(w, rows[i], clients, now.clock))
      && (|rows| <= i < |rows'| ==> rows'[i].closed == None)
  {
    hide ObserveAll, Monotone, Honest, Ledger, Observe, Seen, SessionsOf, AllLinked, AllCovered;
    ObserveAllOpens(w.db, w.active, clients, now, truth);
    ObserveAllKeeps(w.db, w.active, clients, now, truth);
    ObserveAllKeys(w.db, w.active, clients, now);
    var (db, active) := ObserveAll(w.db, w.active, clients, now);
    var gone := active.Keys - Seen(clients);
    assert PollTx(w, clients, now).value.active == active - gone;
    if i < |db.sessions| {
      InMemory(db, active, truth, now, i);
      OfGone(db, active, gone, i);
      OfGone(db, active, Seen(clients), i);
      LeftIds(active, gone, i);
    }
  }

  lemma LeftIds(active: map<Key, Entry>, gone: set<Key>, i: nat)
    ensures i in Ids(active - gone) <==> i in SessionsOf(active, active.Keys - gone)
  {
  }

  /** A row is that of an entry of the memory exactly if its connection is in the memory. */
  lemma InMemory(db: Db, active: map<Key, Entry>, truth: Counters, now: Moment, i: nat)
    requires Ledger(db, truth, now) && AllLinked(db, active) && i < |db.sessions|
    ensures forall k <- active :: active[k].session == i <==> db.sessions[i].cid.Some? && RowKey(db.sessions[i]) == k
  {
    forall k | k in active ensures active[k].session == i <==> db.sessions[i].cid.Some? && RowKey(db.sessions[i]) == k {
      assert Linked(db.sessions, k, active[k]);
      TheRow(db.sessions, k, active[k].session);
    }
  }

  lemma OfGone(db: Db, active: map<Key, Entry>, keys: set<Key>, i: nat)
    requires i < |db.sessions|
    requires forall k <- active :: active[k].session == i <==> db.sessions[i].cid.Some? && RowKey(db.sessions[i]) == k
    ensures i in SessionsOf(active, keys) <==>
      db.sessions[i].cid.Some? && RowKey(db.sessions[i]) in active && RowKey(db.sessions[i]) in keys
  {
    if db.sessions[i].cid.Some? && RowKey(db.sessions[i]) in active && RowKey(db.sessions[i]) in keys {
      assert active[RowKey(db.sessions[i])].session == i;
    }
  }

  /** The end of a row after a turn. */
  ghost function EndAfter(w: World, t: Turn, s: Session): Option<int> {
    match t
    case PollTurn(clients, now, outcome) =>
      if outcome == Fails || (w.resync && Seen(clients) == {}) then s.closed else EndAfterPoll(w, s, clients, now.clock)
    case DownTurn(now, outcome) =>
      if s.closed.None? && outcome != Fails && s.cid.Some? && RowKey(s) in w.active then Some(now.clock) else s.closed
    case StartTurn(_, outcome) => if s.closed.None? && outcome != Fails then Some(s.lastSeen.clock) else s.closed
    case _ => s.closed
  }

  /**
   * In every run a row is open or ended as the turn says, and a new row is open, but for one that the log alone knows,
   * which has its times from there.
   */
  lemma EndsAre(run: Run, n: nat, i: nat)
    requires run.Valid() && n < |run.turns|
    ensures var w, t, w' := run.worlds[n], run.turns[n], run.worlds[n + 1];
      var rows, rows' := w.db.sessions, w'.db.sessions;
      && |rows| <= |rows'|
      && (i < |rows| ==> rows'[i].closed == EndAfter(w, t, rows[i]))
      && (|rows| <= i < |rows'| ==>
            if t.LogTurn? then rows'[i].closed == Some(t.end) && rows'[i].connectedAt == t.at && rows'[i].lastSeen.clock == t.end
            else rows'[i].closed == None)
  {
    hide PollTx, Monotone, Honest, Ledger, EndAfterPoll;
    assert run.Step(n);
    var w, t := run.worlds[n], run.turns[n];
    Reachable(run, n, t.now);
    match t
    case PollTurn(clients, now, outcome) =>
      ResyncNeedsAClient(w, clients, now, run.truth);
      if PollTx(w, clients, now).Some? { PollEnds(w, clients, now, run.truth, i); }
    case DownTurn(now, outcome) =>
      if i < |w.db.sessions| {
        InMemory(w.db, w.active, run.truth, now, i);
        OfGone(w.db, w.active, w.active.Keys, i);
      }
    case _ =>
  }

  // ---- when a resync is due -----------------------------------------------

  /** A write of the turn failed, or its commit was not confirmed. */
  ghost predicate WriteFailed(w: World, t: Turn) {
    || (t.PollTurn? && (t.outcome != Commits || (w.resync && Seen(t.clients) == {})))
    || (t.DownTurn? && t.outcome != Commits && w.active != map[])
  }

  /** The turn brings the memory and the rows into step: a new thread, or a poll that commits. */
  ghost predicate Recovers(w: World, t: Turn) { t.StartTurn? || (t.PollTurn? && !WriteFailed(w, t)) }

  ghost predicate FailedSince(run: Run, m: nat, n: nat)
    requires |run.worlds| == |run.turns| + 1 && m < n <= |run.turns|
  {
    WriteFailed(run.worlds[m], run.turns[m]) && forall k :: m < k < n ==> !Recovers(run.worlds[k], run.turns[k])
  }

  lemma ResyncStep(run: Run, n: nat)
    requires run.Valid() && n < |run.turns|
    ensures var w, t := run.worlds[n], run.turns[n];
      run.worlds[n + 1].resync <==> WriteFailed(w, t) || (w.resync && !Recovers(w, t))
  {
    hide PollTx, Monotone, Honest, Ledger, Close;
    assert run.Step(n);
    var w, t := run.worlds[n], run.turns[n];
    Reachable(run, n, t.now);
    if t.PollTurn? {
      ResyncNeedsAClient(w, t.clients, t.now, run.truth);
      PollResync(w, t.clients, t.now);
    }
  }

  lemma PollResync(w: World, clients: seq<Client>, now: Moment)
    requires Refers(w.active, w.db.sessions)
    ensures var r := PollTx(w, clients, now); r.Some? ==> !r.value.resync
  {
  }

  /** In every run a resync is due exactly if a write failed, and neither a poll has committed since nor a new thread begun. */
  lemma {:induction false} ResyncIsDue(run: Run, n: nat)
    requires run.Valid() && n <= |run.turns|
    ensures run.worlds[n].resync <==> exists m: nat :: m < n && FailedSince(run, m, n)
  {
    hide WriteFailed, Recovers;
    if n > 0 {
      ResyncIsDue(run, n - 1);
      ResyncStep(run, n - 1);
      if run.worlds[n].resync {
        if WriteFailed(run.worlds[n - 1], run.turns[n - 1]) {
          assert FailedSince(run, n - 1, n);
        } else {
          var m: nat :| m < n - 1 && FailedSince(run, m, n - 1);
          assert FailedSince(run, m, n);
        }
      }
      if m: nat :| m < n && FailedSince(run, m, n) {
        if m < n - 1 { assert FailedSince(run, m, n - 1); }
      }
    }
  }
}
