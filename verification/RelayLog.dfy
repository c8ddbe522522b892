/** The activity log as the relay runs it, and the status that it serves. */
module RelayLog {
  import opened RelayActivity
  import opened RelayRuns
  import opened Wrappers

  /** relay/activity.go:213-229 */
  method ChargeClient(row: Client, f: Flow, kind: Kind) returns (c: Client)
    ensures c == PayClient(row, f, kind)
  {
    c := row;
    if kind == Denied { c := c.(denied := c.denied + 1); } else if kind == Failed { c := c.(failed := c.failed + 1); }
    if f.counted { c := c.(bytes := Plus(c.bytes, f.traffic)); } else if f.wasOpen { c := c.(uncounted := c.uncounted + 1); }
    if f.wasOpen { c := c.(open := c.open - 1); }
  }

  /** relay/activity.go:231-246 */
  method ChargeSession(row: Session, f: Flow, kind: Kind, now: int) returns (s: Session)
    ensures s == PaySession(row, f, kind, now)
  {
    s := row.(lastSeen := now);
    if f.wasOpen { s := s.(active := s.active - 1); }
    if kind == Denied { s := s.(denied := s.denied + 1); }
    if kind == Failed { s := s.(failed := s.failed + 1); }
    if f.counted { s := s.(bytes := Plus(s.bytes, f.traffic)); } else if f.wasOpen { s := s.(uncounted := s.uncounted + 1); }
  }

  // ---- what the status page shows -----------------------------------------

  /** relay/activity.go:295-300: the open flows. */
  method ActiveFlows(flows: seq<Flow>) returns (active: seq<Flow>)
    ensures forall k :: 0 <= k < |active| ==> active[k].phase == Open
    ensures SameOpen(active, flows)
  {
    active := [];
    for k := 0 to |flows|
      invariant forall j :: 0 <= j < |active| ==> active[j].phase == Open
      invariant SameOpen(active, flows[..k])
    {
      assert flows[..k + 1] == flows[..k] + [flows[k]];
      forall m | OfOpen(m)
        ensures Total(flows[..k + 1], m) == Total(flows[..k], m) + Weigh(m, flows[k])
        ensures Total(active + [flows[k]], m) == Total(active, m) + Weigh(m, flows[k])
      {
        TotalAppend(flows[..k], flows[k], m);
        TotalAppend(active, flows[k], m);
      }
      if flows[k].phase == Open { active := active + [flows[k]]; }
    }
    assert flows[..|flows|] == flows;
  }

  /** The measures in which only open flows weigh. */
  predicate OfOpen(m: Measure) {
    m.Active? || m.Live? || m.LiveUncounted? || m.OpenOf? || m.LiveOf? || m.LiveUncountedOf?
  }

  /** A session row with its open flows. */
  ghost function WithOpen(s: Session, id: nat, flows: seq<Flow>, now: int): Session {
    s.(bytes := Plus(s.bytes, Bytes(Total(flows, Live(id, true)), Total(flows, Live(id, false)))),
       uncounted := s.uncounted + Total(flows, LiveUncounted(id)),
       lastSeen := if Total(flows, Active(id)) > 0 then now else s.lastSeen)
  }

  datatype State = Busy | Idle | Over

  datatype Shown = Shown(row: Session, state: State, endedAt: int)

  function Show(s: Session, now: int): Shown {
    if s.active > 0 then Shown(s, Busy, 0)
    else if now - s.lastSeen > IDLE_SECONDS then Shown(s, Over, s.lastSeen)
    else Shown(s, Idle, 0)
  }

  /** relay/sessions.go:74-92 */
  method AddOpenFlows(history: map<nat, Session>, flows: seq<Flow>, now: int) returns (rows: map<nat, Session>)
    requires forall k :: 0 <= k < |flows| ==> flows[k].phase == Open
    ensures rows.Keys == history.Keys && forall id <- rows :: rows[id] == WithOpen(history[id], id, flows, now)
  {
    rows := history;
    for k := 0 to |flows|
      invariant rows.Keys == history.Keys && forall id <- rows :: rows[id] == WithOpen(history[id], id, flows[..k], now)
    {
      var f := flows[k];
      forall id | id in history
        ensures WithOpen(history[id], id, flows[..k + 1], now) == LiveStep(WithOpen(history[id], id, flows[..k], now), id, f, now)
      {
        assert flows[..k + 1] == flows[..k] + [f];
        LiveAppend(history[id], id, flows[..k], f, now);
      }
      if f.session in rows {
        var row := rows[f.session].(lastSeen := now);
        if f.counted { row := row.(bytes := Plus(row.bytes, f.traffic)); } else { row := row.(uncounted := row.uncounted + 1); }
        rows := rows[f.session := row];
      }
    }
    assert flows[..|flows|] == flows;
  }

  /** What one more open flow adds. */
  function LiveStep(s: Session, id: nat, f: Flow, now: int): Session {
    if f.session != id then s
    else if f.counted then s.(bytes := Plus(s.bytes, f.traffic), lastSeen := now)
    else s.(uncounted := s.uncounted + 1, lastSeen := now)
  }

  lemma LiveAppend(s: Session, id: nat, flows: seq<Flow>, f: Flow, now: int)
    requires f.phase == Open
    ensures WithOpen(s, id, flows + [f], now) == LiveStep(WithOpen(s, id, flows, now), id, f, now)
  {
    TotalAppend(flows, f, Live(id, true));
    TotalAppend(flows, f, Live(id, false));
    TotalAppend(flows, f, LiveUncounted(id));
    TotalAppend(flows, f, Active(id));
    if |flows| > 0 { TotalCounts(flows, Active(id), 0); }
  }

  /** relay/sessions.go:74-106 */
  method SessionSnapshot(history: map<nat, Session>, flows: seq<Flow>, now: int) returns (result: map<nat, Shown>)
    requires forall k :: 0 <= k < |flows| ==> flows[k].phase == Open
    ensures result.Keys == history.Keys && forall id <- result :: result[id] == Show(WithOpen(history[id], id, flows, now), now)
  {
    var rows := AddOpenFlows(history, flows, now);
    var rest := rows.Keys;
    result := map[];
    while rest != {}
      invariant rest <= rows.Keys && result.Keys == rows.Keys - rest
      invariant forall id <- result :: result[id] == Show(rows[id], now)
      decreases |rest|
    {
      var id :| id in rest;
      rest := rest - {id};
      var row := rows[id];
      var shown := Shown(row, Idle, 0);
      if row.active > 0 {
        shown := shown.(state := Busy);
      } else if now - row.lastSeen > IDLE_SECONDS {
        shown := shown.(state := Over, endedAt := row.lastSeen);
      }
      result := result[id := shown];
    }
  }

  /** What a client row shows, open flows included. */
  datatype Summary = Summary(active: int, bytes: Bytes, uncounted: int)

  function Stored(history: map<string, Client>, c: string): Summary {
    if c in history then Summary(0, history[c].bytes, history[c].uncounted) else NOTHING
  }

  const NOTHING := Summary(0, ZERO, 0)

  ghost function OpenPart(flows: seq<Flow>, c: string): Summary {
    Summary(Total(flows, OpenOf(c)), Bytes(Total(flows, LiveOf(c, true)), Total(flows, LiveOf(c, false))),
            Total(flows, LiveUncountedOf(c)))
  }

  function Merge(a: Summary, b: Summary): Summary {
    Summary(a.active + b.active, Plus(a.bytes, b.bytes), a.uncounted + b.uncounted)
  }

  ghost function Summed(history: map<string, Client>, flows: seq<Flow>, c: string): Summary {
    Merge(Stored(history, c), OpenPart(flows, c))
  }

  lemma OpenPartAppend(flows: seq<Flow>, f: Flow, c: string)
    requires f.phase == Open
    ensures OpenPart(flows + [f], c) == if f.client == c then SumStep(OpenPart(flows, c), f) else OpenPart(flows, c)
  {
    hide Total;
    TotalAppend(flows, f, OpenOf(c));
    TotalAppend(flows, f, LiveOf(c, true));
    TotalAppend(flows, f, LiveOf(c, false));
    TotalAppend(flows, f, LiveUncountedOf(c));
  }

  lemma SummedAppend(history: map<string, Client>, flows: seq<Flow>, f: Flow, c: string)
    requires f.phase == Open
    ensures var s := Summed(history, flows, c); Summed(history, flows + [f], c) == if f.client == c then SumStep(s, f) else s
  {
    hide OpenPart, Stored;
    OpenPartAppend(flows, f, c);
  }

  function SumStep(row: Summary, f: Flow): Summary {
    Summary(row.active + 1, if f.counted then Plus(row.bytes, f.traffic) else row.bytes,
            if f.counted then row.uncounted else row.uncounted + 1)
  }

  /** relay/clients.go:63-79 for one open flow. */
  method SumFlow(before: map<string, Summary>, f: Flow) returns (rows: map<string, Summary>)
    ensures rows.Keys == before.Keys + {f.client}
    ensures rows[f.client] == SumStep(if f.client in before then before[f.client] else NOTHING, f)
    ensures forall c <- before :: c != f.client ==> rows[c] == before[c]
  {
    rows := before;
    if f.client !in rows { rows := rows[f.client := NOTHING]; }
    var row := rows[f.client];
    row := row.(active := row.active + 1);
    if f.counted { row := row.(bytes := Plus(row.bytes, f.traffic)); } else { row := row.(uncounted := row.uncounted + 1); }
    rows := rows[f.client := row];
  }

  ghost predicate HasOpen(flows: seq<Flow>, c: string) { Total(flows, OpenOf(c)) > 0 }

  /** The rows: one for each client that has a stored row or an open flow. */
  ghost predicate Sums(rows: map<string, Summary>, history: map<string, Client>, flows: seq<Flow>) {
    && (forall c {:trigger c in rows} :: c in rows <==> c in history || HasOpen(flows, c))
    && (forall c <- rows :: rows[c] == Summed(history, flows, c))
  }

  /** relay/clients.go:55-84 */
  method SummarizeClients(history: map<string, Client>, flows: seq<Flow>) returns (rows: map<string, Summary>)
    requires forall k :: 0 <= k < |flows| ==> flows[k].phase == Open
    ensures Sums(rows, history, flows)
  {
    rows := map c | c in history :: Summary(0, history[c].bytes, history[c].uncounted);
    for k := 0 to |flows|
      invariant Sums(rows, history, flows[..k])
    {
      ghost var before := rows;
      rows := SumFlow(rows, flows[k]);
      assert flows[..k + 1] == flows[..k] + [flows[k]];
      SumsStep(before, rows, history, flows[..k], flows[k]);
    }
    assert flows[..|flows|] == flows;
  }

  lemma SumsStep(before: map<string, Summary>, rows: map<string, Summary>, history: map<string, Client>,
                 flows: seq<Flow>, f: Flow)
    requires Sums(before, history, flows) && f.phase == Open && forall k :: 0 <= k < |flows| ==> flows[k].phase == Open
    requires rows.Keys == before.Keys + {f.client}
    requires rows[f.client] == SumStep(if f.client in before then before[f.client] else NOTHING, f)
    requires forall c <- before :: c != f.client ==> rows[c] == before[c]
    ensures Sums(rows, history, flows + [f])
  {
    hide Summed, OpenPart, HasOpen;
    forall c ensures c in rows <==> c in history || HasOpen(flows + [f], c) {
      OpenAppend(flows, f, c);
      assert c in rows <==> c in before || c == f.client;
    }
    forall c | c in rows ensures rows[c] == Summed(history, flows + [f], c) {
      SummedAppend(history, flows, f, c);
      if c !in before {
        NoOpenPart(flows, c);
        UnseenClient(history, flows, c);
      }
    }
  }

  lemma OpenAppend(flows: seq<Flow>, f: Flow, c: string)
    requires f.phase == Open
    ensures HasOpen(flows + [f], c) <==> f.client == c || HasOpen(flows, c)
  {
    TotalAppend(flows, f, OpenOf(c));
    if |flows| > 0 { TotalCounts(flows, OpenOf(c), 0); }
  }

  /** A client with no open flow weighs nothing in the totals of open flows. */
  lemma {:induction false} NothingOpen(flows: seq<Flow>, c: string, m: Measure)
    requires !HasOpen(flows, c)
    requires (m.OpenOf? || m.LiveOf? || m.LiveUncountedOf?) && m.client == c
    ensures Total(flows, m) == 0
  {
    hide Total;
    forall k | 0 <= k < |flows| ensures Weigh(m, flows[k]) == 0 {
      TotalCounts(flows, OpenOf(c), k);
    }
    TotalZero(flows, m);
  }

  lemma {:induction false} NoOpenPart(flows: seq<Flow>, c: string)
    requires !HasOpen(flows, c)
    ensures OpenPart(flows, c) == NOTHING
  {
    hide Total;
    NothingOpen(flows, c, OpenOf(c));
    NothingOpen(flows, c, LiveOf(c, true));
    NothingOpen(flows, c, LiveOf(c, false));
    NothingOpen(flows, c, LiveUncountedOf(c));
  }

  lemma UnseenClient(history: map<string, Client>, flows: seq<Flow>, c: string)
    requires c !in history && OpenPart(flows, c) == NOTHING
    ensures Summed(history, flows, c) == NOTHING
  {
    hide OpenPart;
  }

  // ---- what it means ------------------------------------------------------

  ghost function ShownAs(log: Log, id: nat, flows: seq<Flow>, now: int): Shown
    requires id in log.sessions
  {
    Show(WithOpen(log.sessions[id], id, flows, now), now)
  }

  /** A session is shown as active, and as seen now, exactly while it has open flows; open flows without counters count. */
  lemma BusyMeansOpen(log: Log, id: nat, now: int)
    requires Inv(log) && id in log.sessions
    ensures var shown, busy := ShownAs(log, id, log.flows, now), Total(log.flows, Active(id)) > 0;
      && (shown.state == Busy <==> busy) && shown.row.lastSeen == (if busy then now else log.sessions[id].lastSeen)
      && shown.row.uncounted == Total(log.flows, Uncounted(id)) + Total(log.flows, LiveUncounted(id))
  {
    hide Total;
    assert SessionOk(log.flows, id, log.sessions[id], log.current, log.sequence);
  }

  /** The latest session of a client and credential is shown as ended exactly when its next flow would begin a new one. */
  lemma OverMeansNew(log: Log, key: Key, now: int)
    requires Inv(log) && key in log.current
    ensures log.current[key] in log.sessions
    ensures var shown := ShownAs(log, log.current[key], log.flows, now);
      && (shown.state == Over <==> Stale(log, key, now))
      && shown.endedAt == if Stale(log, key, now) then log.sessions[log.current[key]].lastSeen else 0
  {
    hide Total;
    var id := log.current[key];
    assert SessionOk(log.flows, id, log.sessions[id], log.current, log.sequence);
    ActiveIsCount(log.flows, id);
  }

  /** Every client with an open flow has a stored row. */
  lemma OpenHasStored(log: Log, c: string)
    requires Inv(log) && HasOpen(log.flows, c)
    ensures c in log.clients
  {
    if c !in log.clients {
      forall i | 0 <= i < |log.flows| ensures Weigh(OpenOf(c), log.flows[i]) == 0 {
        assert HasClient(log.flows[i], log.clients, log.rows);
      }
      TotalZero(log.flows, OpenOf(c));
    }
  }

  ghost predicate SameOpen(active: seq<Flow>, flows: seq<Flow>) {
    forall m {:trigger Total(active, m)} :: OfOpen(m) ==> Total(active, m) == Total(flows, m)
  }

  lemma ShownRow(log: Log, active: seq<Flow>, id: nat, now: int)
    requires SameOpen(active, log.flows) && id in log.sessions
    ensures var s := log.sessions[id]; WithOpen(s, id, active, now) == WithOpen(s, id, log.flows, now)
    ensures WithOpen(log.sessions[id], id, active, now).bytes == Bytes(Reported(log, id, true), Reported(log, id, false))
  {
    hide Total;
  }

  lemma SummaryRow(log: Log, active: seq<Flow>, c: string)
    requires Inv(log) && SameOpen(active, log.flows) && c in log.clients
    ensures var s := Summed(log.clients, active, c);
      s.active == log.clients[c].open && s.bytes == Bytes(ClientReported(log, c, true), ClientReported(log, c, false))
  {
    hide Inv, Total;
    RowOk(log, c);
  }

  class ActivityLog {
    var flows: seq<Flow>
    var sessions: map<nat, Session>
    var currentSessions: map<Key, nat>
    var sequence: nat
    var clients: map<string, Client>
    var rows: nat

    ghost function Value(): Log
      reads this
    {
      Log(flows, sessions, currentSessions, sequence, clients, rows)
    }

    ghost predicate Seen()
      reads this
    {
      AllSeen(clients)
    }

    ghost predicate Valid()
      reads this
    {
      Good(Value()) && Seen()
    }

    /** relay/activity.go:102-104 */
    constructor ()
      ensures Value() == EMPTY && Valid()
    {
      flows, sessions, currentSessions, sequence, clients, rows := [], map[], map[], 0, map[], 0;
    }

    /** relay/activity.go:106-114 */
    method Begin() returns (i: nat)
      requires Valid()
      modifies this
      ensures Valid() && Step(old(Value()), Begun, Value())
      ensures i == |old(flows)| && flows[..i] == old(flows)
    {
      i := |flows|;
      flows := flows + [Flow("", "", false, New, false, 0, ZERO, ZERO, 0)];
      StepKeeps(old(Value()), Begun, Value());
    }

    /** relay/main.go:113-162 */
    method Identify(i: nat, client: string, identity: string, counted: bool)
      requires Valid() && i < |flows| && flows[i].phase == New
      modifies this
      ensures Valid() && Step(old(Value()), Identified(i, client, identity, counted), Value())
    {
      flows := flows[i := flows[i].(client := client, identity := identity, counted := counted)];
      StepKeeps(old(Value()), Identified(i, client, identity, counted), Value());
    }

    /** relay/activity.go:94-100 */
    method Add(i: nat, up: int, down: int)
      requires Valid() && i < |flows|
      modifies this
      ensures Valid() && Step(old(Value()), Added(i, Bytes(up, down)), Value())
    {
      flows := flows[i := flows[i].(traffic := Plus(flows[i].traffic, Bytes(up, down)))];
      StepKeeps(old(Value()), Added(i, Bytes(up, down)), Value());
    }

    /** relay/sessions.go:48-62, with `oldest` the row that was found. */
    method EvictLocked(oldest: nat)
      requires oldest in sessions
      modifies this
      ensures Value() == Evict(old(Value()), oldest)
    {
      var key := sessions[oldest].key;
      sessions := sessions - {oldest};
      if key in currentSessions && currentSessions[key] == oldest { currentSessions := currentSessions - {key}; }
    }

    /** relay/sessions.go:46-68; the search for a victim only reads, so it comes first. */
    method RenewLocked(key: Key, now: int) returns (current: nat, ghost v: Option<nat>)
      modifies this
      ensures SessionVictim(old(sessions), v) && Value() == Renew(old(Value()), key, now, v)
      ensures key in currentSessions && current == currentSessions[key]
    {
      hide Evict;
      var oldest := OldestSession(sessions);
      v := oldest;
      if key in currentSessions && currentSessions[key] in sessions {
        current := currentSessions[key];
        if sessions[current].active != 0 || now - sessions[current].lastSeen <= IDLE_SECONDS { return; }
      }
      if oldest.Some? { EvictLocked(oldest.value); }
      sequence := sequence + 1;
      current := sequence;
      sessions := sessions[current := Session(key, now, now, 0, 0, 0, 0, ZERO, 0)];
      currentSessions := currentSessions[key := current];
    }

    /** relay/sessions.go:34-72 */
    method SessionLocked(i: nat, now: int) returns (ghost v: Option<nat>)
      requires i < |flows|
      modifies this
      ensures SessionVictim(old(sessions), v) && Value() == Attach(old(Value()), i, now, v)
    {
      hide Renew;
      var f := flows[i];
      if f.client == "" || f.session != 0 {
        v := OldestSession(sessions);
        return;
      }
      var current;
      current, v := RenewLocked(KeyOf(f), now);
      flows := flows[i := f.(session := current)];
      sessions := sessions[current := sessions[current].(lastSeen := Max(sessions[current].lastSeen, now))];
    }

    /** relay/clients.go:30-53 */
    method ClientLocked(client: string, now: int) returns (ghost cv: Option<string>)
      requires Seen() && now != 0
      modifies this
      ensures ClientVictim(old(clients), cv) && Value() == Admit(old(Value()), client, now, cv) && Seen()
    {
      var oldest := OldestClient(clients);
      cv := oldest;
      if client in clients {
        clients := clients[client := clients[client].(lastSeen := now)];
        return;
      }
      if oldest.Some? { clients := clients - {oldest.value}; }
      rows := rows + 1;
      clients := clients[client := Client(rows, 0, 0, 0, 0, ZERO, 0, now)];
    }

    /** relay/activity.go:116-136 */
    method Connected(i: nat, start: int, now: int)
      requires Valid() && i < |flows| && flows[i].phase == New && now != 0
      modifies this
      ensures Valid() && Step(old(Value()), Event.Connected(i, start, now), Value())
    {
      hide Attach, Admit, Good;
      ghost var v := SessionLocked(i, start);
      ghost var cv := ClientLocked(flows[i].client, now);
      var f := flows[i];
      if f.session in sessions {
        var s := sessions[f.session];
        sessions := sessions[f.session := s.(active := s.active + 1, accepted := s.accepted + 1)];
      }
      var c := clients[f.client];
      clients := clients[f.client := c.(open := c.open + 1, accepted := c.accepted + 1)];
      flows := flows[i := f.(phase := Open, wasOpen := true)];
      assert Connects(old(Value()), i, start, now, v, cv, Value());
      StepKeeps(old(Value()), Event.Connected(i, start, now), Value());
    }

    /** relay/activity.go:179-251 */
    method Finish(i: nat, status: int, now: int)
      requires Valid() && i < |flows| && now != 0
      modifies this
      ensures Valid() && Step(old(Value()), Finished(i, status, now), Value())
    {
      hide Attach, Admit, Good;
      ghost var v, cv;
      if flows[i].phase == Ended {
        v := OldestSession(sessions);
        cv := OldestClient(clients);
      } else {
        cv := ClientLocked(flows[i].client, now);
        v := SessionLocked(i, now);
        Settled(i, status, now);
      }
      assert Finishes(old(Value()), i, status, now, v, cv, Value());
      StepKeeps(old(Value()), Finished(i, status, now), Value());
    }

    /** relay/activity.go:193-250: what the rows of flow i record at its end. */
    method Settled(i: nat, status: int, now: int)
      requires Seen() && i < |flows| && flows[i].client in clients
      modifies this
      ensures Seen() && Value() == Trim(Closed(old(Value()), i, status, now), old(flows[i].client))
    {
      var f := flows[i];
      var kind := KindOf(f, status);
      var c := clients[f.client];
      flows := flows[i := f.(phase := Ended, paid := f.traffic, row := c.serial)];
      c := ChargeClient(c, f, kind);
      clients := clients[f.client := c];
      if f.session in sessions {
        var s := ChargeSession(sessions[f.session], f, kind, now);
        sessions := sessions[f.session := s];
      }
      if |clients| > MAX_CLIENTS && c.open == 0 { clients := clients - {f.client}; }
    }

    /** relay/activity.go:283-317: the sessions and clients that the status page shows. */
    method Status(now: int) returns (shown: map<nat, Shown>, summaries: map<string, Summary>)
      requires Valid()
      ensures shown.Keys == sessions.Keys && summaries.Keys == clients.Keys
      ensures forall id <- shown ::
        shown[id].row.bytes == Bytes(Reported(Value(), id, true), Reported(Value(), id, false))
        && shown[id] == ShownAs(Value(), id, flows, now)
      ensures forall c <- summaries ::
        summaries[c].bytes == Bytes(ClientReported(Value(), c, true), ClientReported(Value(), c, false))
        && summaries[c].active == clients[c].open
    {
      hide Inv, Total, Summed, WithOpen;
      var active := ActiveFlows(flows);
      shown := SessionSnapshot(sessions, active, now);
      summaries := SummarizeClients(clients, active);
      forall c ensures c in summaries <==> c in clients {
        if HasOpen(flows, c) { OpenHasStored(Value(), c); }
      }
      forall id | id in sessions { ShownRow(Value(), active, id, now); }
      forall c | c in clients { SummaryRow(Value(), active, c); }
    }
  }
}
