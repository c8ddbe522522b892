/** What the rows of the relay's sessions say about the past, and which session a flow joins (relay/sessions.go:34-72). */
module RelaySeen {
  import opened RelayActivity
  import opened RelayRuns
  import opened Wrappers

  /** What an event means for the row of a session: the time that it was seen, and a flow accepted, denied or failed. */
  datatype Visit = Visit(time: int, accepted: nat, denied: nat, failed: nat)

  /** The visit of flow i, if it connects or ends in this event; one that ends without having connected was denied or failed. */
  ghost function VisitOf(a: Log, e: Event): Option<Visit> {
    match e
    case Connected(_, start, _) => Some(Visit(start, 1, 0, 0))
    case Finished(i, status, now) =>
      if i >= |a.flows| || a.flows[i].phase == Ended then None
      else if a.flows[i].phase == Open then Some(Visit(now, 0, 0, 0))
      else if status >= 500 then Some(Visit(now, 0, 0, 1))
      else Some(Visit(now, 0, 1, 0))
    case _ => None
  }

  /** The event is a visit of a flow that carries the session's ID. */
  ghost predicate Visits(a: Log, e: Event, b: Log, id: nat) {
    VisitOf(a, e).Some? && e.i < |b.flows| && b.flows[e.i].session == id
  }

  /** The row after a visit, but for the time it was last seen. */
  ghost predicate Follows(s: Session, s': Session, x: Visit) {
    && s'.key == s.key && s'.startedAt == s.startedAt
    && s'.accepted == s.accepted + x.accepted && s'.denied == s.denied + x.denied && s'.failed == s.failed + x.failed
  }

  /** What a step makes of the row of a session: nothing, or what the visit says; a row begins with its first visit. */
  ghost predicate RowStep(a: Log, e: Event, b: Log, id: nat)
    requires id in b.sessions
  {
    var s' := b.sessions[id];
    if Visits(a, e, b, id) then
      var x := VisitOf(a, e).value;
      if id in a.sessions then
        Follows(a.sessions[id], s', x)
        && s'.lastSeen == if e.Finished? then x.time else Max(a.sessions[id].lastSeen, x.time)
      else
        id == a.sequence + 1 && s'.startedAt == s'.lastSeen == x.time
        && s'.accepted == x.accepted && s'.denied == x.denied && s'.failed == x.failed
    else
      id in a.sessions && Follows(a.sessions[id], s', Visit(0, 0, 0, 0)) && s'.lastSeen == a.sessions[id].lastSeen
  }

  /** What attaching a flow makes of the session rows. */
  lemma AttachRows(log: Log, i: nat, now: int, v: Option<nat>)
    requires Inv(log) && i < |log.flows| && log.flows[i].client != "" && log.flows[i].session == 0
    requires SessionVictim(log.sessions, v)
    ensures var l, key := Attach(log, i, now, v), KeyOf(log.flows[i]);
      var id := l.flows[i].session;
      && id in l.sessions && key in l.current && id == l.current[key] && l.sessions[id].key == key
      && (forall x <- l.sessions :: x != id ==> x in log.sessions && l.sessions[x] == log.sessions[x])
      && (if Stale(log, key, now) then id == log.sequence + 1 && l.sessions[id] == Session(key, now, now, 0, 0, 0, 0, ZERO, 0)
          else id in log.sessions && l.sessions[id] == log.sessions[id].(lastSeen := Max(log.sessions[id].lastSeen, now))
               && l.current == log.current)
      && l.sequence >= log.sequence
  {
    SequenceBounds(log);
  }

  lemma OpenedRows(log: Log, i: nat)
    requires i < |log.flows| && log.flows[i].client in log.clients
    ensures var l, id := Opened(log, i), log.flows[i].session;
      && l.sessions.Keys == log.sessions.Keys && l.current == log.current && l.sequence == log.sequence
      && |l.flows| == |log.flows| && l.flows[i].session == id
      && (forall x <- log.sessions :: x != id ==> l.sessions[x] == log.sessions[x])
      && (id in log.sessions ==>
            var s := log.sessions[id]; l.sessions[id] == s.(active := s.active + 1, accepted := s.accepted + 1))
  {
  }

  lemma ClosedRows(log: Log, i: nat, status: int, now: int)
    requires i < |log.flows| && log.flows[i].client in log.clients
    ensures var l, f := Closed(log, i, status, now), log.flows[i];
      && l.sessions.Keys == log.sessions.Keys && l.current == log.current && l.sequence == log.sequence
      && |l.flows| == |log.flows| && l.flows[i].session == f.session
      && (forall x <- log.sessions :: x != f.session ==> l.sessions[x] == log.sessions[x])
      && (f.session in log.sessions ==>
            var s, s' := log.sessions[f.session], l.sessions[f.session];
            && s'.lastSeen == now && s'.key == s.key && s'.startedAt == s.startedAt && s'.accepted == s.accepted
            && s'.denied == s.denied + One(!f.wasOpen && status < 500) && s'.failed == s.failed + One(!f.wasOpen && status >= 500)
            && s'.active == s.active - One(f.wasOpen))
  {
  }

  /** A flow without a client has no session, and 0 is none. */
  lemma NoSession(log: Log)
    requires Inv(log)
    ensures 0 !in log.sessions
  {
  }

  lemma ConnectRows(a: Log, i: nat, start: int, now: int, v: Option<nat>, cv: Option<string>, id: nat)
    requires Good(a) && i < |a.flows| && a.flows[i].phase == New
    requires SessionVictim(a.sessions, v) && ClientVictim(a.clients, cv)
    requires id in Connect(a, i, start, now, v, cv).sessions
    ensures RowStep(a, Connected(i, start, now), Connect(a, i, start, now, v, cv), id)
  {
    hide Attach, Admit, Opened, Inv, Stale, Bounded;
    var f := a.flows[i];
    NoSession(a);
    if f.client != "" { AttachRows(a, i, start, v); } else { AttachNothing(a, i, start, v); }
    OpenedRows(Admit(Attach(a, i, start, v), f.client, now, cv), i);
    SequenceBounds(a);
  }

  lemma AttachNothing(log: Log, i: nat, now: int, v: Option<nat>)
    requires i < |log.flows| && (log.flows[i].client == "" || log.flows[i].session != 0) && SessionVictim(log.sessions, v)
    ensures Attach(log, i, now, v) == log
  {
  }

  lemma FinishRows(a: Log, i: nat, status: int, now: int, v: Option<nat>, cv: Option<string>, id: nat)
    requires Good(a) && i < |a.flows| && a.flows[i].phase != Ended
    requires SessionVictim(a.sessions, v) && ClientVictim(a.clients, cv)
    requires id in Finish(a, i, status, now, v, cv).sessions
    ensures RowStep(a, Finished(i, status, now), Finish(a, i, status, now, v, cv), id)
  {
    hide Attach, Admit, Closed, Inv, Stale, Bounded, SessionVictim, ClientVictim, KeyOf;
    if v.Some? { VictimIdle(a, v.value); }
    var f := a.flows[i];
    NoSession(a);
    var l := Admit(a, f.client, now, cv);
    AdmitKeeps(a, f.client, now, cv);
    OpenFlow(a, i);
    if f.client != "" && f.phase == New { AttachRows(l, i, now, v); } else { AttachNothing(l, i, now, v); }
    ClosedRows(Attach(l, i, now, v), i, status, now);
    SequenceBounds(a);
  }

  /** An open flow was accepted, and one with a client is in its session. */
  lemma OpenFlow(log: Log, i: nat)
    requires Inv(log) && i < |log.flows|
    ensures var f := log.flows[i];
      && (f.phase == New ==> !f.wasOpen) && (f.phase == Open ==> f.wasOpen) && (f.client == "" ==> f.session == 0)
      && (f.phase == Open && f.client != "" ==> f.session != 0 && f.session in log.sessions && log.sessions[f.session].active > 0)
  {
    assert InSession(log.flows[i], log.sessions, log.sequence) && HasClient(log.flows[i], log.clients, log.rows);
    if log.flows[i].phase == Open && log.flows[i].client != "" {
      OpenHasSession(log, i);
      var id := log.flows[i].session;
      assert SessionOk(log.flows, id, log.sessions[id], log.current, log.sequence);
      TotalCounts(log.flows, Active(id), i);
    }
  }

  lemma StepRows(a: Log, e: Event, b: Log, id: nat)
    requires Good(a) && Step(a, e, b) && id in b.sessions
    ensures RowStep(a, e, b, id)
  {
    hide Good, Connect, Finish, SessionVictim, ClientVictim;
    match e
    case Begun =>
    case Identified(_, _, _, _) =>
    case Added(_, _) =>
    case Connected(i, start, now) =>
      var v, cv :| Connects(a, i, start, now, v, cv, b);
      ConnectRows(a, i, start, now, v, cv, id);
    case Finished(i, status, now) =>
      var v, cv :| Finishes(a, i, status, now, v, cv, b);
      if a.flows[i].phase != Ended { FinishRows(a, i, status, now, v, cv, id); } else { EndedStays(a, i, status, now, v, cv); }
  }

  // ---- what a row says ----------------------------------------------------

  ghost predicate VisitsAt(run: Run, m: nat, id: nat)
    requires m < |run.events| < |run.states|
  {
    Visits(run.states[m], run.events[m], run.states[m + 1], id)
  }

  ghost function VisitAt(run: Run, m: nat): Visit
    requires m < |run.events| < |run.states| && VisitOf(run.states[m], run.events[m]).Some?
  {
    VisitOf(run.states[m], run.events[m]).value
  }

  /** The flows of a session that were accepted, denied and failed in the first n events. */
  ghost function Tally(run: Run, n: nat, id: nat): Visit
    requires n <= |run.events| < |run.states|
  {
    if n == 0 then Visit(0, 0, 0, 0)
    else
      var before := Tally(run, n - 1, id);
      if !VisitsAt(run, n - 1, id) then before
      else
        var x := VisitAt(run, n - 1);
        Visit(0, before.accepted + x.accepted, before.denied + x.denied, before.failed + x.failed)
  }

  lemma StepSequence(a: Log, e: Event, b: Log)
    requires Good(a) && Step(a, e, b)
    ensures b.sequence >= a.sequence
  {
    hide Inv, Bounded, Admit, Stale, Evict, OpenSession, SessionVictim, ClientVictim;
    match e
    case Connected(i, start, now) =>
      var v, cv :| Connects(a, i, start, now, v, cv, b);
      AttachSequence(a, i, start, v);
    case Finished(i, status, now) =>
      var v, cv :| Finishes(a, i, status, now, v, cv, b);
      if a.flows[i].phase != Ended { AttachSequence(Admit(a, a.flows[i].client, now, cv), i, now, v); }
    case _ =>
  }

  lemma AttachSequence(log: Log, i: nat, now: int, v: Option<nat>)
    requires i < |log.flows| && SessionVictim(log.sessions, v)
    ensures Attach(log, i, now, v).sequence >= log.sequence
  {
  }

  lemma FlowBounds(log: Log)
    requires Good(log)
    ensures forall i :: 0 <= i < |log.flows| ==> log.flows[i].session <= log.sequence
  {
    forall i | 0 <= i < |log.flows| ensures log.flows[i].session <= log.sequence {
      assert InSession(log.flows[i], log.sessions, log.sequence);
    }
  }

  /** No flow has a session that was not opened yet. */
  lemma {:induction false} NotYet(run: Run, n: nat, id: nat)
    requires run.Valid() && n < |run.states| && id > run.states[n].sequence
    ensures (forall m: nat :: m < n ==> !VisitsAt(run, m, id)) && Tally(run, n, id) == Visit(0, 0, 0, 0)
  {
    hide Step;
    if n > 0 {
      Reachable(run, n - 1);
      Reachable(run, n);
      assert run.StepAt(n - 1);
      StepSequence(run.states[n - 1], run.events[n - 1], run.states[n]);
      NotYet(run, n - 1, id);
      FlowBounds(run.states[n]);
    }
  }

  /** In every run a stored session has counted the flows that carry its ID: accepted, denied and failed. */
  lemma {:induction false} RowCounts(run: Run, n: nat, id: nat)
    requires run.Valid() && n < |run.states| && id in run.states[n].sessions
    ensures var s, x := run.states[n].sessions[id], Tally(run, n, id);
      s.accepted == x.accepted && s.denied == x.denied && s.failed == x.failed
  {
    hide Step, VisitOf;
    if n > 0 {
      Reachable(run, n - 1);
      assert run.StepAt(n - 1);
      StepRows(run.states[n - 1], run.events[n - 1], run.states[n], id);
      if id in run.states[n - 1].sessions {
        RowCounts(run, n - 1, id);
      } else {
        NotYet(run, n - 1, id);
      }
    }
  }

  /** The clock does not go back, and a flow starts before it connects. */
  ghost predicate Clocked(run: Run) {
    && (forall m :: 0 <= m < |run.events| && run.events[m].Connected? ==> run.events[m].start <= run.events[m].now)
    && (forall m, n :: 0 <= m < n < |run.events| && Timed(run.events[m]) && Timed(run.events[n]) ==>
          run.events[m].now <= run.events[n].now)
  }

  predicate Timed(e: Event) { e.Connected? || e.Finished? }

  lemma VisitTime(run: Run, m: nat, n: nat)
    requires run.Valid() && Clocked(run) && m <= n < |run.events| && VisitOf(run.states[m], run.events[m]).Some?
    requires Timed(run.events[n])
    ensures VisitAt(run, m).time <= run.events[n].now
  {
  }

  ghost predicate SeenAt(run: Run, n: nat, id: nat, t: int)
    requires n <= |run.events| < |run.states|
  {
    exists m: nat :: m < n && VisitsAt(run, m, id) && VisitAt(run, m).time == t
  }

  /** It was last seen at the latest start or end of a flow that carries its ID, and opened at one of these times. */
  lemma {:induction false} RowTimes(run: Run, n: nat, id: nat)
    requires run.Valid() && Clocked(run) && n < |run.states| && id in run.states[n].sessions
    ensures var s := run.states[n].sessions[id];
      && SeenAt(run, n, id, s.lastSeen) && SeenAt(run, n, id, s.startedAt)
      && forall m: nat :: m < n && VisitsAt(run, m, id) ==> VisitAt(run, m).time <= s.lastSeen
  {
    hide Step, VisitOf, Good;
    if n > 0 {
      Reachable(run, n - 1);
      assert run.StepAt(n - 1);
      var a, e, b := run.states[n - 1], run.events[n - 1], run.states[n];
      StepRows(a, e, b, id);
      if id in a.sessions {
        RowTimes(run, n - 1, id);
        SeenLonger(run, n, id, a.sessions[id].lastSeen);
        SeenLonger(run, n, id, a.sessions[id].startedAt);
      } else {
        Bounds(a);
        NotYet(run, n - 1, id);
      }
      if VisitsAt(run, n - 1, id) {
        assert SeenAt(run, n, id, VisitAt(run, n - 1).time);
        forall m: nat | m < n && VisitsAt(run, m, id) ensures VisitAt(run, m).time <= b.sessions[id].lastSeen {
          if e.Finished? { VisitEnds(run, m, n - 1); }
        }
      }
    }
  }

  lemma VisitEnds(run: Run, m: nat, n: nat)
    requires run.Valid() && Clocked(run) && m <= n < |run.events| && run.events[n].Finished?
    requires VisitOf(run.states[m], run.events[m]).Some? && VisitOf(run.states[n], run.events[n]).Some?
    ensures VisitAt(run, m).time <= VisitAt(run, n).time
  {
  }

  lemma Bounds(log: Log)
    requires Good(log)
    ensures forall id <- log.sessions :: id <= log.sequence
  {
    SequenceBounds(log);
  }

  lemma SeenLonger(run: Run, n: nat, id: nat, t: int)
    requires 0 < n <= |run.events| < |run.states| && SeenAt(run, n - 1, id, t)
    ensures SeenAt(run, n, id, t)
  {
    var m: nat :| m < n - 1 && VisitsAt(run, m, id) && VisitAt(run, m).time == t;
  }

  // ---- the sessions of a key ----------------------------------------------

  /** A session is the current one of its key, or was seen for the last time 300 seconds before that was opened. */
  ghost predicate Ranked(log: Log, x: nat)
    requires x in log.sessions
  {
    var s := log.sessions[x];
    && s.key in log.current && log.current[s.key] in log.sessions
    && (x == log.current[s.key]
        || (x < log.current[s.key] && s.lastSeen + 300 < log.sessions[log.current[s.key]].startedAt))
  }

  ghost predicate Ordered(log: Log) {
    forall x <- log.sessions :: Ranked(log, x) && log.sessions[x].startedAt <= log.sessions[x].lastSeen
  }

  lemma EvictOrdered(log: Log, v: nat)
    requires Inv(log) && Ordered(log) && SessionVictim(log.sessions, Some(v))
    ensures Ordered(Evict(log, v))
  {
    var l := Evict(log, v);
    forall x | x in l.sessions ensures Ranked(l, x) {
      assert Ranked(log, x) && Ranked(log, v);
      assert SessionOk(log.flows, x, log.sessions[x], log.current, log.sequence);
      ActiveIsCount(log.flows, x);
    }
  }

  lemma OpenOrdered(log: Log, key: Key, now: int)
    requires Inv(log) && Ordered(log)
    requires key in log.current ==> log.sessions[log.current[key]].lastSeen + 300 < now
    ensures Ordered(OpenSession(log, key, now))
  {
    var l := OpenSession(log, key, now);
    SequenceBounds(log);
    forall x | x in l.sessions ensures Ranked(l, x) && l.sessions[x].startedAt <= l.sessions[x].lastSeen {
      if x in log.sessions { assert Ranked(log, x); }
    }
  }

  /** The row of a current session changes; it is seen later and begins when it did. */
  lemma RowOrdered(log: Log, l: Log, id: nat)
    requires Ordered(log) && l.current == log.current && l.sessions.Keys == log.sessions.Keys
    requires forall x <- log.sessions :: x != id ==> l.sessions[x] == log.sessions[x]
    requires id in log.sessions ==>
      var s, s' := log.sessions[id], l.sessions[id];
      && s'.key == s.key && s'.startedAt == s.startedAt && s'.lastSeen >= s.lastSeen
      && (s'.lastSeen == s.lastSeen || (s.key in log.current && log.current[s.key] == id))
    ensures Ordered(l)
  {
    forall x | x in l.sessions ensures Ranked(l, x) && l.sessions[x].startedAt <= l.sessions[x].lastSeen {
      assert Ranked(log, x);
    }
  }

  lemma AttachOrdered(log: Log, i: nat, now: int, v: Option<nat>)
    requires Inv(log) && Ordered(log) && i < |log.flows| && SessionVictim(log.sessions, v)
    ensures Ordered(Attach(log, i, now, v))
  {
    hide Inv, Ordered, SessionVictim;
    if v.Some? { VictimIdle(log, v.value); }
    var f, key := log.flows[i], KeyOf(log.flows[i]);
    if f.client != "" && f.session == 0 {
      var l := Renew(log, key, now, v);
      if Stale(log, key, now) {
        Current(log);
        var cut := if v.Some? then Evict(log, v.value) else log;
        if v.Some? {
          EvictOrdered(log, v.value);
          EvictKeeps(log, v.value);
          Current(cut);
        }
        OpenOrdered(cut, key, now);
      } else {
        Current(log);
      }
      RowOrdered(l, Attach(log, i, now, v), l.current[key]);
    }
  }

  lemma VictimIdle(log: Log, v: nat)
    requires SessionVictim(log.sessions, Some(v))
    ensures v in log.sessions && log.sessions[v].active == 0
  {
  }

  lemma Current(log: Log)
    requires Inv(log)
    ensures CurrentOk(log.sessions, log.current)
  {
  }

  lemma ConnectOrdered(a: Log, i: nat, start: int, now: int, v: Option<nat>, cv: Option<string>)
    requires Inv(a) && Ordered(a) && i < |a.flows| && SessionVictim(a.sessions, v)
    ensures Ordered(Connect(a, i, start, now, v, cv))
  {
    hide Inv, Ordered, Attach, Admit, Opened, SessionVictim;
    if v.Some? { VictimIdle(a, v.value); }
    AttachOrdered(a, i, start, v);
    var l := Admit(Attach(a, i, start, v), a.flows[i].client, now, cv);
    OpenedRows(l, i);
    SameOrder(Attach(a, i, start, v), l);
    RowOrdered(l, Opened(l, i), l.flows[i].session);
  }

  lemma SameOrder(log: Log, l: Log)
    requires Ordered(log) && l.sessions == log.sessions && l.current == log.current
    ensures Ordered(l)
  {
    forall x | x in l.sessions ensures Ranked(l, x) { assert Ranked(log, x); }
  }

  /** A flow that ends is in the current session of its key. */
  lemma EndsInCurrent(a: Log, i: nat, now: int, v: Option<nat>)
    requires Inv(a) && i < |a.flows| && a.flows[i].phase != Ended && SessionVictim(a.sessions, v)
    requires a.flows[i].phase == New ==> a.flows[i].session == 0
    ensures var l := Attach(a, i, now, v); var id := l.flows[i].session;
      id in l.sessions ==> l.sessions[id].key in l.current && l.current[l.sessions[id].key] == id
  {
    hide Attach, SessionVictim, Stale;
    if v.Some? { VictimIdle(a, v.value); }
    var f := a.flows[i];
    NoSession(a);
    OpenFlow(a, i);
    if f.client != "" && f.phase == New {
      AttachRows(a, i, now, v);
    } else {
      AttachNothing(a, i, now, v);
      if f.session in a.sessions { assert SessionOk(a.flows, f.session, a.sessions[f.session], a.current, a.sequence); }
    }
  }

  ghost predicate Before(log: Log, now: int) { forall x <- log.sessions :: log.sessions[x].lastSeen <= now }

  lemma AttachBefore(log: Log, i: nat, now: int, v: Option<nat>)
    requires Inv(log) && Before(log, now) && i < |log.flows| && SessionVictim(log.sessions, v)
    ensures Before(Attach(log, i, now, v), now)
  {
    var f := log.flows[i];
    if f.client != "" && f.session == 0 { AttachRows(log, i, now, v); }
  }

  lemma FinishOrdered(a: Log, i: nat, status: int, now: int, v: Option<nat>, cv: Option<string>)
    requires Good(a) && Ordered(a) && Before(a, now) && i < |a.flows| && a.flows[i].phase != Ended
    requires SessionVictim(a.sessions, v) && ClientVictim(a.clients, cv)
    ensures Ordered(Finish(a, i, status, now, v, cv))
  {
    hide Inv, Ordered, Attach, Admit, Closed, SessionVictim, ClientVictim, Bounded;
    if v.Some? { VictimIdle(a, v.value); }
    var f := a.flows[i];
    var b := Admit(a, f.client, now, cv);
    SameOrder(a, b);
    AdmitGood(a, f.client, now, cv);
    AttachOrdered(b, i, now, v);
    AttachBefore(b, i, now, v);
    EndsInCurrent(b, i, now, v);
    var l := Attach(b, i, now, v);
    ClosedRows(l, i, status, now);
    var l' := Closed(l, i, status, now);
    RowOrdered(l, l', l.flows[i].session);
    SameOrder(l', Finish(a, i, status, now, v, cv));
  }

  lemma AdmitGood(a: Log, c: string, now: int, cv: Option<string>)
    requires Inv(a) && ClientVictim(a.clients, cv)
    ensures Inv(Admit(a, c, now, cv))
  {
    AdmitKeeps(a, c, now, cv);
  }

  lemma StepOrdered(a: Log, e: Event, b: Log)
    requires Good(a) && Step(a, e, b) && Ordered(a) && (e.Finished? ==> Before(a, e.now))
    ensures Ordered(b)
  {
    hide Inv, Ordered, Connect, Finish, SessionVictim, ClientVictim, Bounded;
    match e
    case Connected(i, start, now) =>
      var v, cv :| Connects(a, i, start, now, v, cv, b);
      ConnectOrdered(a, i, start, now, v, cv);
    case Finished(i, status, now) =>
      var v, cv :| Finishes(a, i, status, now, v, cv, b);
      if a.flows[i].phase != Ended { FinishOrdered(a, i, status, now, v, cv); } else { EndedStays(a, i, status, now, v, cv); }
    case _ => SameOrder(a, b);
  }

  /** In every run the sessions of a key are apart: each was opened more than 300 seconds after the last was seen. */
  lemma {:induction false} SessionsApart(run: Run, n: nat)
    requires run.Valid() && Clocked(run) && n < |run.states|
    ensures Ordered(run.states[n])
  {
    hide Step, Good, Ranked;
    if n > 0 {
      SessionsApart(run, n - 1);
      Reachable(run, n - 1);
      assert run.StepAt(n - 1);
      var a, e := run.states[n - 1], run.events[n - 1];
      if e.Finished? {
        forall x | x in a.sessions ensures a.sessions[x].lastSeen <= e.now { SeenBefore(run, n - 1, x); }
      }
      StepOrdered(a, e, run.states[n]);
    }
  }

  lemma SeenBefore(run: Run, n: nat, id: nat)
    requires run.Valid() && Clocked(run) && n < |run.events| && id in run.states[n].sessions && Timed(run.events[n])
    ensures run.states[n].sessions[id].lastSeen <= run.events[n].now
  {
    RowTimes(run, n, id);
    var m: nat :| m < n && VisitsAt(run, m, id) && VisitAt(run, m).time == run.states[n].sessions[id].lastSeen;
    VisitTime(run, m, n);
  }

  // ---- which session a flow joins -----------------------------------------

  /** Flow i gets its session in this event: it connects, or ends without having connected; s is its time. */
  ghost predicate Arrives(a: Log, e: Event, i: nat, s: int)
  {
    && i < |a.flows| && a.flows[i].phase == New && a.flows[i].client != ""
    && ((e.Connected? && e.i == i && e.start == s) || (e.Finished? && e.i == i && e.now == s))
  }

  ghost predicate Newest(log: Log, x: nat)
    requires x in log.sessions
  {
    forall y <- log.sessions :: log.sessions[y].key == log.sessions[x].key ==> y <= x
  }

  ghost predicate HasOpenFlow(log: Log, x: nat) {
    exists j :: 0 <= j < |log.flows| && log.flows[j].phase == Open && log.flows[j].session == x
  }

  ghost predicate SeenWithin(run: Run, n: nat, x: nat, s: int)
    requires n <= |run.events| < |run.states|
  {
    exists m: nat :: m < n && VisitsAt(run, m, x) && s - VisitAt(run, m).time <= 300
  }

  lemma {:induction false} SomeOpen(flows: seq<Flow>, x: nat)
    requires Total(flows, Active(x)) != 0
    ensures exists j :: 0 <= j < |flows| && flows[j].phase == Open && flows[j].session == x
  {
    var n := |flows| - 1;
    if !(flows[n].phase == Open && flows[n].session == x) {
      SomeOpen(flows[..n], x);
      var j :| 0 <= j < n && flows[..n][j].phase == Open && flows[..n][j].session == x;
      assert flows[j].session == x;
    }
  }

  lemma ActiveIsOpen(log: Log, x: nat)
    requires Inv(log) && x in log.sessions
    ensures log.sessions[x].active != 0 <==> HasOpenFlow(log, x)
    ensures HasOpenFlow(log, x) ==> log.sessions[x].key in log.current && log.current[log.sessions[x].key] == x
  {
    assert SessionOk(log.flows, x, log.sessions[x], log.current, log.sequence);
    ActiveIsCount(log.flows, x);
    if log.sessions[x].active != 0 { SomeOpen(log.flows, x); }
    if j :| 0 <= j < |log.flows| && log.flows[j].phase == Open && log.flows[j].session == x {
      TotalCounts(log.flows, Active(x), j);
    }
  }

  /** Where an arriving flow is put: in a new session, or the current one of its key. */
  ghost predicate PutIn(a: Log, key: Key, s: int, id: nat) {
    if Stale(a, key, s) then id !in a.sessions else key in a.current && id == a.current[key]
  }

  lemma ConnectsIn(a: Log, i: nat, start: int, now: int, v: Option<nat>, cv: Option<string>)
    requires Good(a) && i < |a.flows| && a.flows[i].phase == New && a.flows[i].client != "" && SessionVictim(a.sessions, v)
    ensures var b := Connect(a, i, start, now, v, cv);
      |b.flows| == |a.flows| && PutIn(a, KeyOf(a.flows[i]), start, b.flows[i].session)
  {
    hide Inv, Attach, Admit, Opened, Bounded, SessionVictim, Stale;
    if v.Some? { VictimIdle(a, v.value); }
    SequenceBounds(a);
    AttachRows(a, i, start, v);
    OpenedRows(Admit(Attach(a, i, start, v), a.flows[i].client, now, cv), i);
    SameStale(a, a, KeyOf(a.flows[i]), start);
  }

  lemma FinishesIn(a: Log, i: nat, status: int, now: int, v: Option<nat>, cv: Option<string>)
    requires Good(a) && i < |a.flows| && a.flows[i].phase == New && a.flows[i].client != ""
    requires SessionVictim(a.sessions, v) && ClientVictim(a.clients, cv)
    ensures var b := Finish(a, i, status, now, v, cv);
      |b.flows| == |a.flows| && PutIn(a, KeyOf(a.flows[i]), now, b.flows[i].session)
  {
    hide Inv, Attach, Admit, Closed, Bounded, SessionVictim, ClientVictim, Stale;
    if v.Some? { VictimIdle(a, v.value); }
    SequenceBounds(a);
    var l := Admit(a, a.flows[i].client, now, cv);
    AdmitGood(a, a.flows[i].client, now, cv);
    AttachRows(l, i, now, v);
    SameStale(a, l, KeyOf(a.flows[i]), now);
    ClosedRows(Attach(l, i, now, v), i, status, now);
  }

  lemma ArrivesIn(a: Log, e: Event, b: Log, i: nat, s: int)
    requires Good(a) && Step(a, e, b) && Arrives(a, e, i, s)
    ensures i < |b.flows| && PutIn(a, KeyOf(a.flows[i]), s, b.flows[i].session)
  {
    hide Good, Connect, Finish, SessionVictim, ClientVictim, PutIn;
    if e.Connected? {
      var v, cv :| Connects(a, i, e.start, e.now, v, cv, b);
      ConnectsIn(a, i, s, e.now, v, cv);
    } else {
      var v, cv :| Finishes(a, i, e.status, s, v, cv, b);
      FinishesIn(a, i, e.status, s, v, cv);
    }
  }

  lemma SameStale(a: Log, l: Log, key: Key, s: int)
    requires l.sessions == a.sessions && l.current == a.current
    ensures Stale(a, key, s) == Stale(l, key, s)
    ensures !Stale(a, key, s) ==> key in a.current
  {
  }

  lemma SeenWithinIs(run: Run, n: nat, x: nat, s: int)
    requires run.Valid() && Clocked(run) && n < |run.states| && x in run.states[n].sessions
    ensures SeenWithin(run, n, x, s) <==> s - run.states[n].sessions[x].lastSeen <= 300
  {
    hide Step, VisitOf;
    RowTimes(run, n, x);
  }

  lemma NewestIsCurrent(log: Log, x: nat)
    requires Inv(log) && Ordered(log) && x in log.sessions
    ensures Newest(log, x) <==> log.sessions[x].key in log.current && log.current[log.sessions[x].key] == x
  {
    assert Ranked(log, x);
    forall y | y in log.sessions && log.sessions[y].key == log.sessions[x].key
      ensures y <= log.current[log.sessions[x].key]
    {
      assert Ranked(log, y);
    }
  }

  /**
   * In every run a flow that connects, or ends unconnected, joins a stored session of its client and credential exactly if
   * that is their newest, and has an open flow or one that started or ended no more than 300 seconds before.
   */
  lemma JoinsRecent(run: Run, n: nat, i: nat, s: int, x: nat)
    requires run.Valid() && Clocked(run) && n < |run.events| && Arrives(run.states[n], run.events[n], i, s)
    requires x in run.states[n].sessions && run.states[n].sessions[x].key == KeyOf(run.states[n].flows[i])
    ensures i < |run.states[n + 1].flows|
    ensures run.states[n + 1].flows[i].session == x <==>
      Newest(run.states[n], x) && (HasOpenFlow(run.states[n], x) || SeenWithin(run, n, x, s))
  {
    hide Step, Ordered, Newest, HasOpenFlow, SeenWithin, Total, VisitOf;
    var a, key := run.states[n], KeyOf(run.states[n].flows[i]);
    Reachable(run, n);
    assert run.StepAt(n);
    SessionsApart(run, n);
    ArrivesIn(a, run.events[n], run.states[n + 1], i, s);
    NewestIsCurrent(a, x);
    ActiveIsOpen(a, x);
    SeenWithinIs(run, n, x, s);
  }

  /** A flow that starts after all that was seen of its client and credential needs no more than that. */
  lemma JoinsInOrder(run: Run, n: nat, i: nat, s: int, x: nat)
    requires run.Valid() && Clocked(run) && n < |run.events| && Arrives(run.states[n], run.events[n], i, s)
    requires x in run.states[n].sessions && run.states[n].sessions[x].key == KeyOf(run.states[n].flows[i])
    requires forall y <- run.states[n].sessions, m: nat :: m < n && VisitsAt(run, m, y) ==> VisitAt(run, m).time <= s
    ensures i < |run.states[n + 1].flows|
    ensures run.states[n + 1].flows[i].session == x <==> HasOpenFlow(run.states[n], x) || SeenWithin(run, n, x, s)
  {
    hide Step, Newest, HasOpenFlow, SeenWithin, Total, VisitOf;
    JoinsRecent(run, n, i, s, x);
    var a := run.states[n];
    Reachable(run, n);
    SessionsApart(run, n);
    NewestIsCurrent(a, x);
    ActiveIsOpen(a, x);
    SeenWithinIs(run, n, x, s);
    assert Ranked(a, x);
    var y := a.current[a.sessions[x].key];
    RowTimes(run, n, y);
    var m: nat :| m < n && VisitsAt(run, m, y) && VisitAt(run, m).time == a.sessions[y].lastSeen;
  }

  // ---- the rows of clients ------------------------------------------------

  /** The event is a visit of one of the client's flows. */
  ghost predicate VisitsClient(a: Log, e: Event, c: string) {
    VisitOf(a, e).Some? && e.i < |a.flows| && a.flows[e.i].client == c
  }

  ghost predicate ClientFollows(r: Client, r': Client, x: Visit) {
    && r'.serial == r.serial
    && r'.accepted == r.accepted + x.accepted && r'.denied == r.denied + x.denied && r'.failed == r.failed + x.failed
  }

  /** What a step makes of the row of a client. */
  ghost predicate ClientStep(a: Log, e: Event, b: Log, c: string)
    requires c in b.clients
  {
    if VisitsClient(a, e, c) then
      var r := if c in a.clients then a.clients[c] else Client(a.rows + 1, 0, 0, 0, 0, ZERO, 0, 0);
      ClientFollows(r, b.clients[c], VisitOf(a, e).value) && b.clients[c].lastSeen == e.now
    else c in a.clients && b.clients[c] == a.clients[c]
  }

  lemma ConnectClients(a: Log, i: nat, start: int, now: int, v: Option<nat>, cv: Option<string>, c: string)
    requires Good(a) && i < |a.flows| && a.flows[i].phase == New && SessionVictim(a.sessions, v)
    requires c in Connect(a, i, start, now, v, cv).clients
    ensures ClientStep(a, Connected(i, start, now), Connect(a, i, start, now, v, cv), c)
  {
    hide Attach, Admit, Inv, Bounded, SessionVictim;
    if v.Some? { VictimIdle(a, v.value); }
    AdmitRows(Attach(a, i, start, v), a.flows[i].client, now, cv, c);
  }

  lemma AdmitRows(log: Log, client: string, now: int, cv: Option<string>, c: string)
    requires c in Admit(log, client, now, cv).clients
    ensures var r := Admit(log, client, now, cv).clients[c];
      if c != client then c in log.clients && r == log.clients[c]
      else if c in log.clients then r == log.clients[c].(lastSeen := now)
      else r == Client(log.rows + 1, 0, 0, 0, 0, ZERO, 0, now)
  {
  }

  lemma ClosedClients(log: Log, i: nat, status: int, now: int, c: string)
    requires i < |log.flows| && log.flows[i].client in log.clients && c in Closed(log, i, status, now).clients
    ensures c in log.clients
    ensures var r, r', f := log.clients[c], Closed(log, i, status, now).clients[c], log.flows[i];
      if c != f.client then r' == r
      else
        && r'.serial == r.serial && r'.lastSeen == r.lastSeen && r'.accepted == r.accepted
        && r'.denied == r.denied + One(!f.wasOpen && status < 500) && r'.failed == r.failed + One(!f.wasOpen && status >= 500)
  {
  }

  lemma TrimClients(log: Log, client: string, c: string)
    requires client in log.clients && c in Trim(log, client).clients
    ensures c in log.clients && Trim(log, client).clients[c] == log.clients[c]
  {
  }

  lemma FinishClients(a: Log, i: nat, status: int, now: int, v: Option<nat>, cv: Option<string>, c: string)
    requires Good(a) && i < |a.flows| && a.flows[i].phase != Ended && SessionVictim(a.sessions, v)
    requires c in Finish(a, i, status, now, v, cv).clients
    ensures ClientStep(a, Finished(i, status, now), Finish(a, i, status, now, v, cv), c)
  {
    hide Attach, Admit, Closed, Trim, Inv, Bounded, SessionVictim;
    if v.Some? { VictimIdle(a, v.value); }
    OpenFlow(a, i);
    var client := a.flows[i].client;
    var l := Settle(a, i, now, v, cv);
    TrimClients(Closed(l, i, status, now), client, c);
    ClosedClients(l, i, status, now, c);
    AdmitRows(a, client, now, cv, c);
  }

  lemma StepClients(a: Log, e: Event, b: Log, c: string)
    requires Good(a) && Step(a, e, b) && c in b.clients
    ensures ClientStep(a, e, b, c)
  {
    hide Good, Connect, Finish, SessionVictim, ClientVictim;
    match e
    case Connected(i, start, now) =>
      var v, cv :| Connects(a, i, start, now, v, cv, b);
      ConnectClients(a, i, start, now, v, cv, c);
    case Finished(i, status, now) =>
      var v, cv :| Finishes(a, i, status, now, v, cv, b);
      if a.flows[i].phase != Ended { FinishClients(a, i, status, now, v, cv, c); } else { EndedStays(a, i, status, now, v, cv); }
    case _ =>
  }

  /** The event is one of the client's, and is counted in the row with this serial number. */
  ghost predicate CountedIn(run: Run, m: nat, c: string, serial: nat)
    requires m < |run.events| < |run.states|
  {
    && VisitsClient(run.states[m], run.events[m], c)
    && c in run.states[m + 1].clients && run.states[m + 1].clients[c].serial == serial
  }

  ghost function ClientTally(run: Run, n: nat, c: string, serial: nat): Visit
    requires n <= |run.events| < |run.states|
  {
    if n == 0 then Visit(0, 0, 0, 0)
    else
      var before := ClientTally(run, n - 1, c, serial);
      if !CountedIn(run, n - 1, c, serial) then before
      else
        var x := VisitAt(run, n - 1);
        Visit(0, before.accepted + x.accepted, before.denied + x.denied, before.failed + x.failed)
  }

  lemma StepRowsUsed(a: Log, e: Event, b: Log)
    requires Good(a) && Step(a, e, b)
    ensures b.rows >= a.rows && forall c <- b.clients :: b.clients[c].serial <= b.rows
  {
    hide Inv, Attach, Bounded, SessionVictim, ClientVictim, Trim, PaySession;
    StepKeeps(a, e, b);
    ClientBounds(b);
    match e
    case Connected(i, start, now) =>
      var v, cv :| Connects(a, i, start, now, v, cv, b);
      if v.Some? { VictimIdle(a, v.value); }
    case Finished(i, status, now) =>
      var v, cv :| Finishes(a, i, status, now, v, cv, b);
      if v.Some? { VictimIdle(a, v.value); }
      if a.flows[i].phase != Ended { TrimRows(Closed(Settle(a, i, now, v, cv), i, status, now), a.flows[i].client); }
    case _ =>
  }

  lemma TrimRows(log: Log, c: string)
    requires c in log.clients
    ensures Trim(log, c).rows == log.rows
  {
  }

  lemma ClientBounds(log: Log)
    requires Good(log)
    ensures forall c <- log.clients :: log.clients[c].serial <= log.rows
  {
    forall c | c in log.clients ensures log.clients[c].serial <= log.rows { RowOk(log, c); }
  }

  lemma {:induction false} NoRowYet(run: Run, n: nat, c: string, serial: nat)
    requires run.Valid() && n < |run.states| && serial > run.states[n].rows
    ensures ClientTally(run, n, c, serial) == Visit(0, 0, 0, 0)
  {
    hide Step, Good, VisitOf;
    if n > 0 {
      Reachable(run, n - 1);
      assert run.StepAt(n - 1);
      StepRowsUsed(run.states[n - 1], run.events[n - 1], run.states[n]);
      NoRowYet(run, n - 1, c, serial);
    }
  }

  /** In every run a client's row has counted its flows since it was made, and was last seen at the last such event. */
  lemma {:induction false} ClientCounts(run: Run, n: nat, c: string) returns (last: nat)
    requires run.Valid() && n < |run.states| && c in run.states[n].clients
    ensures var r := run.states[n].clients[c];
      var x := ClientTally(run, n, c, r.serial);
      && r.accepted == x.accepted && r.denied == x.denied && r.failed == x.failed
      && last < n && VisitsClient(run.states[last], run.events[last], c) && r.lastSeen == run.events[last].now
      && forall m: nat :: last < m < n ==> !VisitsClient(run.states[m], run.events[m], c)
  {
    hide Step, VisitOf, Good;
    Reachable(run, n - 1);
    assert run.StepAt(n - 1);
    var a, e, b := run.states[n - 1], run.events[n - 1], run.states[n];
    StepClients(a, e, b, c);
    if c in a.clients {
      last := ClientCounts(run, n - 1, c);
    } else {
      NoRowYet(run, n - 1, c, a.rows + 1);
    }
    if VisitsClient(a, e, c) { last := n - 1; }
  }
}
