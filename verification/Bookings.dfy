/** When the collector books its traffic: each byte in the minute of the poll that saw it (ui/app/collector.py:279-334). */
module Bookings {
  import opened Collector
  import opened Traffic
  import opened Wrappers

  /** A client in the TLS handshake; ui/app/collector.py:288. */
  predicate Handshake(cl: Client) { cl.key.cn in {"", "UNDEF"} || cl.vpnIp == "" }

  predicate Mentions(clients: seq<Client>, k: Key) {
    exists i :: 0 <= i < |clients| && clients[i].key == k && !Handshake(clients[i])
  }

  /** The counters of the turn that last listed the connection. */
  ghost function Earlier(truth: Counters, k: Key, t: Option<Moment>): Bytes {
    if t.None? then ZERO else truth(k, t.value.turn)
  }

  /** What the connections of a status, each once, have grown by since they were last listed. */
  ghost function Growth(truth: Counters, clients: seq<Client>, turn: nat, last: Key -> Option<Moment>, client: string,
                        dir: bool): int
  {
    if clients == [] then 0
    else
      var rest, cl := clients[..|clients| - 1], clients[|clients| - 1];
      Growth(truth, rest, turn, last, client, dir)
      + if Handshake(cl) || Mentions(rest, cl.key) || (client != "" && client != cl.key.cn) then 0
        else truth(cl.key, turn).Get(dir) - Earlier(truth, cl.key, last(cl.key)).Get(dir)
  }

  /** The growth that the stored polls saw in minutes of the range. */
  ghost function Booked(run: Run, n: nat, q: Range, dir: bool): int
    requires n <= |run.turns|
  {
    if n == 0 then 0
    else
      var t := run.turns[n - 1];
      Booked(run, n - 1, q, dir)
      + if t.PollTurn? && t.outcome != Fails && q.start <= t.now.clock - t.now.clock % 60 < q.end
        then Growth(run.truth, t.clients, n - 1, k => run.LastListed(n - 1, k), q.client, dir) else 0
  }

  ghost predicate Since1970(run: Run, n: nat)
    requires n <= |run.turns|
  {
    forall i :: 0 <= i < n && run.turns[i].PollTurn? ==> run.turns[i].now.clock >= 0
  }

  /** Every roll-up so far leaves the range alone. */
  ghost predicate Undisturbed(run: Run, n: nat, q: Range)
    requires n <= |run.turns|
  {
    forall i :: 0 <= i < n && run.turns[i].RollTurn? ==> Aligned(q, run.turns[i].at) && Since1970(run, i)
  }

  lemma MentionsIs(clients: seq<Client>, k: Key)
    ensures Mentions(clients, k) <==> k in Seen(clients)
  {
    if k in Seen(clients) {
      var cl :| cl in clients && Listed(cl) && cl.key == k;
      var i :| 0 <= i < |clients| && clients[i] == cl;
      assert !Handshake(clients[i]);
    }
    if Mentions(clients, k) {
      var i :| 0 <= i < |clients| && clients[i].key == k && !Handshake(clients[i]);
      assert clients[i] in clients && Listed(clients[i]);
    }
  }

  ghost predicate InMinute(q: Range, now: int, cn: string) {
    q.start <= now - now % 60 < q.end && (q.client == "" || q.client == cn)
  }

  lemma CreditTotals(traffic: Store, now: int, client: string, d: Bytes, q: Range, dir: bool)
    requires d.received >= 0 && d.sent >= 0
    ensures Totals(Credit(traffic, now, client, d), q, dir)
         == Totals(traffic, q, dir) + if InMinute(q, now, client) then d.Get(dir) else 0
    ensures Dated(traffic) && now >= 0 ==> Dated(Credit(traffic, now, client, d))
  {
    UpsertSum(traffic.minute, Slot(now - now % 60, client), Clamp(d), q.Has, dir);
    if Dated(traffic) && now >= 0 { UpsertDated(traffic.minute, Slot(now - now % 60, client), Clamp(d)); }
  }

  /** The row of a connection has the counters of the turn that last listed it. */
  lemma RowIs(db: Db, truth: Counters, now: Moment, k: Key, t: Option<Moment>, i: nat)
    requires Monotone(truth) && Ledger(db, truth, now) && Timed(db.sessions, k, t)
    requires i < |db.sessions| && IsOf(db.sessions[i], k)
    ensures t.Some? && db.sessions[i].bytes == Earlier(truth, k, t)
    ensures forall dir :: db.sessions[i].bytes.Get(dir) <= truth(k, now.turn).Get(dir)
  {
    assert RowOk(db.sessions[i], truth, now);
    if t.Some? {
      var j :| 0 <= j < |db.sessions| && IsOf(db.sessions[j], k) && db.sessions[j].lastSeen == t.value;
      assert i == j;
    }
  }

  /** Observing a client books its growth since it was last listed. */
  lemma ObserveBooks(db: Db, active: map<Key, Entry>, cl: Client, now: Moment, truth: Counters, t: Option<Moment>, q: Range,
                     dir: bool)
    requires Monotone(truth) && Ledger(db, truth, now) && AllLinked(db, active) && Refers(active, db.sessions)
    requires Listed(cl) ==> cl.key.since != 0 && cl.bytes == truth(cl.key, now.turn)
    requires Timed(db.sessions, cl.key, t)
    ensures var (db', _) := Observe(db, active, cl, now);
      && Totals(db'.traffic, q, dir) == Totals(db.traffic, q, dir)
           + (if Listed(cl) && InMinute(q, now.clock, cl.key.cn)
              then truth(cl.key, now.turn).Get(dir) - Earlier(truth, cl.key, t).Get(dir) else 0)
      && (Dated(db.traffic) && now.clock >= 0 ==> Dated(db'.traffic))
  {
    hide Totals, Credit, Dated, Ledger, Monotone, Timed;
    var k, rows := cl.key, db.sessions;
    if Listed(cl) {
      Positive(truth, k, now.turn);
      if k in active {
        assert Linked(rows, k, active[k]);
        RowIs(db, truth, now, k, t, active[k].session);
        Difference(cl.bytes, active[k].bytes);
        CreditTotals(db.traffic, now.clock, k.cn, Restarted(cl.bytes, active[k].bytes), q, dir);
      } else {
        match FindSession(rows, k.cn, k.cid, k.since)
        case Some(i) =>
          RowIs(db, truth, now, k, t, i);
          Difference(cl.bytes, rows[i].bytes);
          CreditTotals(db.traffic, now.clock, k.cn, Gain(cl.bytes, rows[i].bytes), q, dir);
        case None =>
          NotSeen(rows, k, t);
          CreditTotals(db.traffic, now.clock, k.cn, cl.bytes, q, dir);
      }
    }
  }

  lemma Positive(truth: Counters, k: Key, turn: nat)
    requires Monotone(truth)
    ensures truth(k, turn).received >= 0 && truth(k, turn).sent >= 0
  {
  }

  lemma Difference(now: Bytes, before: Bytes)
    requires forall dir :: before.Get(dir) <= now.Get(dir)
    ensures Restarted(now, before) == Gain(now, before)
    ensures forall dir :: Gain(now, before).Get(dir) == now.Get(dir) - before.Get(dir) >= 0
    ensures Gain(now, before).received >= 0 && Gain(now, before).sent >= 0
  {
    assert before.Get(true) <= now.Get(true) && before.Get(false) <= now.Get(false);
  }

  lemma NotSeen(rows: seq<Session>, k: Key, t: Option<Moment>)
    requires FindSession(rows, k.cn, k.cid, k.since).None? && Timed(rows, k, t)
    ensures t.None?
  {
  }

  lemma {:induction false} ObserveAllBooks(db: Db, active: map<Key, Entry>, clients: seq<Client>, now: Moment, truth: Counters,
                                           last: Key -> Option<Moment>, q: Range, dir: bool)
    requires Monotone(truth) && Ledger(db, truth, now) && AllLinked(db, active) && Refers(active, db.sessions)
    requires Honest(clients, truth, now) && forall k :: Timed(db.sessions, k, last(k))
    ensures var (db', _) := ObserveAll(db, active, clients, now);
      && Totals(db'.traffic, q, dir) == Totals(db.traffic, q, dir)
           + (if q.start <= now.clock - now.clock % 60 < q.end then Growth(truth, clients, now.turn, last, q.client, dir) else 0)
      && (Dated(db.traffic) && now.clock >= 0 ==> Dated(db'.traffic))
  {
    hide Totals, Dated, Ledger, Monotone, AllLinked, Timed, Observe, Seen, Mentions;
    if clients != [] {
      var rest, cl := clients[..|clients| - 1], clients[|clients| - 1];
      ObserveAllBooks(db, active, rest, now, truth, last, q, dir);
      ObserveAllKeeps(db, active, rest, now, truth);
      ObserveAllTimed(db, active, rest, now, truth, cl.key, last(cl.key));
      MentionsIs(rest, cl.key);
      var (db', active') := ObserveAll(db, active, rest, now);
      var t := if cl.key in Seen(rest) then Some(now) else last(cl.key);
      ObserveBooks(db', active', cl, now, truth, t, q, dir);
    }
  }

  lemma {:induction false} NothingGrows(truth: Counters, clients: seq<Client>, turn: nat, last: Key -> Option<Moment>,
                                        client: string, dir: bool)
    requires Seen(clients) == {}
    ensures Growth(truth, clients, turn, last, client, dir) == 0
  {
    if clients != [] {
      var rest, cl := clients[..|clients| - 1], clients[|clients| - 1];
      assert forall x <- rest :: x in clients;
      assert Seen(rest) <= Seen(clients);
      assert cl in clients;
      assert Listed(cl) ==> cl.key in Seen(clients);
      NothingGrows(truth, rest, turn, last, client, dir);
    }
  }

  lemma PollBooks(w: World, clients: seq<Client>, now: Moment, outcome: Outcome, truth: Counters, last: Key -> Option<Moment>,
                  q: Range, dir: bool)
    requires Monotone(truth) && Inv(w, truth, now) && Refers(w.active, w.db.sessions) && Honest(clients, truth, now)
    requires forall k :: Timed(w.db.sessions, k, last(k))
    ensures var w' := Poll(w, clients, now, outcome);
      && Totals(w'.db.traffic, q, dir) == Totals(w.db.traffic, q, dir)
           + (if outcome != Fails && q.start <= now.clock - now.clock % 60 < q.end
              then Growth(truth, clients, now.turn, last, q.client, dir) else 0)
      && (Dated(w.db.traffic) && now.clock >= 0 ==> Dated(w'.db.traffic))
  {
    hide Totals, Dated, Monotone, Timed, ObserveAll, Seen, Growth, Ledger, AllLinked, Honest;
    ResyncNeedsAClient(w, clients, now, truth);
    ObserveAllBooks(w.db, w.active, clients, now, truth, last, q, dir);
    if PollTx(w, clients, now).None? { NothingGrows(truth, clients, now.turn, last, q.client, dir); }
  }

  /** The traffic of a client or of all, in any range that roll-ups leave alone, is the growth seen in its minutes. */
  lemma {:induction false} BookedWhenSeen(run: Run, n: nat, q: Range, dir: bool)
    requires run.Valid() && n <= |run.turns| && Undisturbed(run, n, q)
    ensures Totals(run.worlds[n].db.traffic, q, dir) == Booked(run, n, q, dir)
    ensures Since1970(run, n) ==> Dated(run.worlds[n].db.traffic)
  {
    hide Totals, Dated, Rollup, Monotone, Timed, Poll, Inv, Honest, Growth;
    if n == 0 {
      NothingBooked(q, dir);
    } else {
      BookedWhenSeen(run, n - 1, q, dir);
      var w, t := run.worlds[n - 1], run.turns[n - 1];
      assert run.Step(n - 1);
      Reachable(run, n - 1, t.now);
      var last := k => run.LastListed(n - 1, k);
      forall k ensures Timed(w.db.sessions, k, last(k)) { RowsAreTimed(run, n - 1, k); }
      match t
      case PollTurn(clients, now, outcome) =>
        PollBooks(w, clients, now, outcome, run.truth, last, q, dir);
      case RollTurn(_, at) => RollupKeepsTotals(w.db.traffic, at, q, dir);
      case _ =>
    }
  }

  lemma NothingBooked(q: Range, dir: bool)
    ensures Totals(Collector.EMPTY.db.traffic, q, dir) == 0 && Dated(Collector.EMPTY.db.traffic)
  {
  }

  /**
   * A counter of a known connection that has fallen counts as started again, one of a reopened connection as nothing:
   * what a client adds to a range, whatever its counters are.
   */
  lemma AnyCounters(db: Db, active: map<Key, Entry>, cl: Client, now: Moment, q: Range, dir: bool)
    requires Refers(active, db.sessions) && Listed(cl) && cl.bytes.received >= 0 && cl.bytes.sent >= 0
    requires cl.key.since != 0 && InMinute(q, now.clock, cl.key.cn)
    requires forall k <- active :: active[k].bytes.received >= 0 && active[k].bytes.sent >= 0
    ensures var k, counter := cl.key, cl.bytes.Get(dir);
      var gain := Totals(Observe(db, active, cl, now).0.traffic, q, dir) - Totals(db.traffic, q, dir);
      if k in active then
        gain == if counter < active[k].bytes.Get(dir) then counter else counter - active[k].bytes.Get(dir)
      else
        match FindSession(db.sessions, k.cn, k.cid, k.since)
        case Some(i) => gain == if counter < db.sessions[i].bytes.Get(dir) then 0 else counter - db.sessions[i].bytes.Get(dir)
        case None => gain == counter
  {
    hide Totals, Credit;
    var k := cl.key;
    if k in active {
      CreditTotals(db.traffic, now.clock, k.cn, Restarted(cl.bytes, active[k].bytes), q, dir);
    } else {
      match FindSession(db.sessions, k.cn, k.cid, k.since)
      case Some(i) => CreditTotals(db.traffic, now.clock, k.cn, Gain(cl.bytes, db.sessions[i].bytes), q, dir);
      case None => CreditTotals(db.traffic, now.clock, k.cn, cl.bytes, q, dir);
    }
  }
}
