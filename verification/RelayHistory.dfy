/** Relay sessions as the database keeps them: ui/app/relay_history.py. */
module RelayHistory {
  import opened Wrappers

  const IDLE_SECONDS := 300
  const POLL_SECONDS := 5
  const RETENTION := 365 * 86400

  /** A session ID: the relay process that issued it and its number there. */
  datatype Id = Id(instance: string, number: nat)

  datatype Field = LastSeen | Accepted | Denied | Failed | Up | Down | Uncounted

  datatype Counters = Counters(lastSeen: int, accepted: int, denied: int, failed: int, up: int, down: int, uncounted: int) {
    function Get(f: Field): int {
      match f
      case LastSeen => lastSeen
      case Accepted => accepted
      case Denied => denied
      case Failed => failed
      case Up => up
      case Down => down
      case Uncounted => uncounted
    }
  }

  function Greatest(a: int, b: int): int { if a >= b then a else b }

  function Join(a: Counters, b: Counters): Counters {
    Counters(Greatest(a.lastSeen, b.lastSeen), Greatest(a.accepted, b.accepted), Greatest(a.denied, b.denied),
             Greatest(a.failed, b.failed), Greatest(a.up, b.up), Greatest(a.down, b.down), Greatest(a.uncounted, b.uncounted))
  }

  /** A session as the relay's status shows it; `state` and `ended` are compared but not recorded. */
  datatype Snapshot = Snapshot(id: Id, client: string, credential: string, transport: string, started: int, active: int,
                               counters: Counters, state: string, ended: int)

  datatype Row = Row(grp: Id, client: string, credential: string, transport: string, started: int, sampled: int, active: int,
                     counters: Counters)

  type Table = map<Id, Row>

  /** A snapshot, and the group that the database finds for it if it is new. */
  datatype Sample = Sample(s: Snapshot, pick: Option<Id>)

  predicate Usable(s: Snapshot) { s.client != "" && s.credential != "" }

  // ---- record -------------------------------------------------------------

  /** Rows of the same client and credential that a visit may go on from. */
  predicate Candidate(r: Row, s: Snapshot) {
    && r.client == s.client && r.credential == s.credential
    && r.counters.lastSeen >= s.started - IDLE_SECONDS && r.started <= s.started
  }

  /** The candidate seen last; the database may choose among equals. */
  ghost predicate Latest(t: Table, s: Snapshot, x: Id)
    requires x in t
  {
    Candidate(t[x], s) && forall y <- t :: Candidate(t[y], s) ==> t[y].counters.lastSeen <= t[x].counters.lastSeen
  }

  ghost predicate PickOk(t: Table, s: Snapshot, pick: Option<Id>) {
    match pick
    case None => forall x <- t :: !Candidate(t[x], s)
    case Some(g) => exists x :: x in t && Latest(t, s, x) && t[x].grp == g
  }

  /** ui/app/relay_history.py:26-48 */
  function Upsert(t: Table, x: Sample, now: int): Table {
    var s := x.s;
    if !Usable(s) then t
    else if s.id in t then t[s.id := t[s.id].(counters := Join(t[s.id].counters, s.counters), sampled := now, active := s.active)]
    else
      var grp := if x.pick.Some? then x.pick.value else s.id;
      t[s.id := Row(grp, s.client, s.credential, s.transport, s.started, now, s.active, s.counters)]
  }

  function Apply(t: Table, xs: seq<Sample>, now: int): Table {
    if xs == [] then t else Upsert(Apply(t, xs[..|xs| - 1], now), xs[|xs| - 1], now)
  }

  /** Every new row got its group from the database as it was then. */
  ghost predicate Picked(t: Table, xs: seq<Sample>, now: int) {
    xs == [] ||
    var n := |xs| - 1;
    Picked(t, xs[..n], now) && PickFor(Apply(t, xs[..n], now), xs[n])
  }

  ghost predicate PickFor(t: Table, x: Sample) {
    Usable(x.s) && x.s.id !in t ==> PickOk(t, x.s, x.pick)
  }

  /** A new relay process has no flows of the one before; ui/app/relay_history.py:20-22. */
  function Reset(t: Table, instance: string): Table {
    if instance == "" then t
    else map id | id in t :: if id.instance != instance && t[id].active > 0 then t[id].(active := 0) else t[id]
  }

  function Purge(t: Table, now: int): Table {
    map id | id in t && t[id].counters.lastSeen >= now - RETENTION :: t[id]
  }

  /** ui/app/relay_history.py:18-49 */
  function Record(t: Table, instance: string, xs: seq<Sample>, now: int): Table {
    Purge(Apply(Reset(t, instance), xs, now), now)
  }

  // ---- the maximum of what was recorded -----------------------------------

  ghost predicate IsMax(c: Counters, heard: set<Counters>) {
    forall f: Field :: (forall h <- heard :: h.Get(f) <= c.Get(f)) && Attained(c, heard, f)
  }

  ghost predicate Attained(c: Counters, heard: set<Counters>, f: Field) {
    exists h :: h in heard && h.Get(f) == c.Get(f)
  }

  /** The counters that were recorded for each row since it was inserted. */
  type Heard = map<Id, set<Counters>>

  ghost function Hear(h: Heard, s: Snapshot): Heard {
    if !Usable(s) then h else h[s.id := (if s.id in h then h[s.id] else {}) + {s.counters}]
  }

  ghost function HearAll(h: Heard, xs: seq<Sample>): Heard {
    if xs == [] then h else Hear(HearAll(h, xs[..|xs| - 1]), xs[|xs| - 1].s)
  }

  /** Each row holds, field by field, the greatest value recorded for it. */
  ghost predicate Faithful(t: Table, h: Heard) {
    t.Keys == h.Keys && forall id <- t :: IsMax(t[id].counters, h[id])
  }

  lemma JoinIsMax(c: Counters, heard: set<Counters>, d: Counters)
    requires IsMax(c, heard)
    ensures IsMax(Join(c, d), heard + {d})
  {
    forall f: Field
      ensures Attained(Join(c, d), heard + {d}, f) && forall h <- heard + {d} :: h.Get(f) <= Join(c, d).Get(f)
    {
      assert Join(c, d).Get(f) == Greatest(c.Get(f), d.Get(f));
      assert Attained(c, heard, f);
      var h :| h in heard && h.Get(f) == c.Get(f);
      assert h in heard + {d} && d in heard + {d};
    }
  }

  lemma SingleIsMax(d: Counters)
    ensures IsMax(d, {d})
  {
    forall f: Field ensures Attained(d, {d}, f) {
      assert d in {d};
    }
  }

  lemma UpsertFaithful(t: Table, h: Heard, x: Sample, now: int)
    requires Faithful(t, h)
    ensures Faithful(Upsert(t, x, now), Hear(h, x.s))
  {
    var s := x.s;
    if Usable(s) {
      if s.id in t {
        JoinIsMax(t[s.id].counters, h[s.id], s.counters);
      } else {
        SingleIsMax(s.counters);
        assert {} + {s.counters} == {s.counters};
      }
    }
  }

  lemma {:induction false} ApplyFaithful(t: Table, h: Heard, xs: seq<Sample>, now: int)
    requires Faithful(t, h)
    ensures Faithful(Apply(t, xs, now), HearAll(h, xs))
  {
    if xs != [] {
      ApplyFaithful(t, h, xs[..|xs| - 1], now);
      UpsertFaithful(Apply(t, xs[..|xs| - 1], now), HearAll(h, xs[..|xs| - 1]), xs[|xs| - 1], now);
    }
  }

  /** One call of record that went through. */
  datatype Call = Call(instance: string, xs: seq<Sample>, now: int)

  function TableAfter(calls: seq<Call>): Table {
    if calls == [] then map[]
    else var c := calls[|calls| - 1]; Record(TableAfter(calls[..|calls| - 1]), c.instance, c.xs, c.now)
  }

  /** What was recorded for each row that is still there, since it was inserted. */
  ghost function HeardAfter(calls: seq<Call>): Heard {
    if calls == [] then map[]
    else
      var all := HearAll(HeardAfter(calls[..|calls| - 1]), calls[|calls| - 1].xs);
      map id | id in all && id in TableAfter(calls) :: all[id]
  }

  /** A stored row is the maximum of what was recorded since it appeared, whatever the order and however often. */
  lemma {:induction false} StoredIsMax(calls: seq<Call>)
    ensures Faithful(TableAfter(calls), HeardAfter(calls))
  {
    if calls != [] {
      var before, c := calls[..|calls| - 1], calls[|calls| - 1];
      StoredIsMax(before);
      var t := Reset(TableAfter(before), c.instance);
      assert Faithful(t, HeardAfter(before));
      ApplyFaithful(t, HeardAfter(before), c.xs, c.now);
    }
  }

  /** Such a maximum is unique. */
  lemma MaxIsUnique(c: Counters, d: Counters, heard: set<Counters>)
    requires IsMax(c, heard) && IsMax(d, heard)
    ensures c == d
  {
    forall f: Field ensures c.Get(f) == d.Get(f) {
      assert Attained(c, heard, f) && Attained(d, heard, f);
    }
    assert c.Get(LastSeen) == d.Get(LastSeen) && c.Get(Accepted) == d.Get(Accepted) && c.Get(Denied) == d.Get(Denied)
      && c.Get(Failed) == d.Get(Failed) && c.Get(Up) == d.Get(Up) && c.Get(Down) == d.Get(Down)
      && c.Get(Uncounted) == d.Get(Uncounted);
  }

  // ---- recording only what changed ----------------------------------------

  /** The same table but for the times of the samples. */
  ghost predicate Same(t: Table, u: Table) {
    t.Keys == u.Keys && forall id <- t :: t[id].(sampled := 0) == u[id].(sampled := 0)
  }

  /** The table already says what the snapshot would say. */
  ghost predicate Covers(t: Table, s: Snapshot) {
    Usable(s) ==> s.id in t && t[s.id].active == s.active && Join(t[s.id].counters, s.counters) == t[s.id].counters
  }

  /** ui/app/relay_history.py:84 */
  predicate Unchanged(seen: map<Id, Snapshot>, s: Snapshot) { s.id in seen && seen[s.id] == s }

  function Changed(xs: seq<Sample>, seen: map<Id, Snapshot>): seq<Sample> {
    if xs == [] then []
    else
      var x := xs[|xs| - 1];
      Changed(xs[..|xs| - 1], seen) + if Unchanged(seen, x.s) then [] else [x]
  }

  /** The rows of a dictionary: no ID twice. */
  ghost predicate Distinct(xs: seq<Sample>) {
    forall i, j :: 0 <= i < j < |xs| ==> xs[i].s.id != xs[j].s.id
  }

  lemma CandidatesSame(t: Table, u: Table, s: Snapshot, x: Id)
    requires Same(t, u) && x in t
    ensures Candidate(t[x], s) == Candidate(u[x], s) && t[x].counters == u[x].counters && t[x].grp == u[x].grp
  {
    var r, q := t[x].(sampled := 0), u[x].(sampled := 0);
    assert r == q;
  }

  lemma PickSame(t: Table, u: Table, s: Snapshot, pick: Option<Id>)
    requires Same(t, u) && PickOk(t, s, pick)
    ensures PickOk(u, s, pick)
  {
    forall x | x in t ensures Candidate(t[x], s) == Candidate(u[x], s) && t[x].counters == u[x].counters && t[x].grp == u[x].grp {
      CandidatesSame(t, u, s, x);
    }
    if pick.Some? {
      var x :| x in t && Latest(t, s, x) && t[x].grp == pick.value;
      assert Latest(u, s, x);
    }
  }

  lemma UpsertSame(t: Table, u: Table, x: Sample, now: int)
    requires Same(t, u)
    ensures Same(Upsert(t, x, now), Upsert(u, x, now)) && PickFor(t, x) == PickFor(u, x)
  {
    if PickOk(t, x.s, x.pick) { PickSame(t, u, x.s, x.pick); }
    if PickOk(u, x.s, x.pick) { PickSame(u, t, x.s, x.pick); }
    if x.s.id in t {
      var r, q := t[x.s.id].(sampled := 0), u[x.s.id].(sampled := 0);
      assert r == q;
    }
  }

  /** Recording what the table says already changes only the time of the sample. */
  lemma UpsertCovered(t: Table, u: Table, x: Sample, now: int)
    requires Same(t, u) && Covers(t, x.s)
    ensures Same(t, Upsert(u, x, now)) && PickFor(u, x)
  {
    if Usable(x.s) {
      var r, q := t[x.s.id].(sampled := 0), u[x.s.id].(sampled := 0);
      assert r == q;
    }
  }

  lemma UpsertOther(t: Table, x: Sample, now: int, s: Snapshot)
    requires Covers(t, s) && x.s.id != s.id
    ensures Covers(Upsert(t, x, now), s)
  {
  }

  lemma UpsertCovers(t: Table, x: Sample, now: int)
    ensures Covers(Upsert(t, x, now), x.s)
  {
  }

  /** Covered snapshots that are not recorded again stay covered. */
  lemma {:induction false} ApplyOthers(t: Table, xs: seq<Sample>, now: int, s: Snapshot)
    requires Covers(t, s) && forall i :: 0 <= i < |xs| ==> xs[i].s.id != s.id
    ensures Covers(Apply(t, xs, now), s)
  {
    if xs != [] {
      ApplyOthers(t, xs[..|xs| - 1], now, s);
      UpsertOther(Apply(t, xs[..|xs| - 1], now), xs[|xs| - 1], now, s);
    }
  }

  lemma {:induction false} ChangedIds(xs: seq<Sample>, seen: map<Id, Snapshot>, id: Id)
    requires forall i :: 0 <= i < |xs| ==> xs[i].s.id != id
    ensures forall i :: 0 <= i < |Changed(xs, seen)| ==> Changed(xs, seen)[i].s.id != id
  {
    if xs != [] { ChangedIds(xs[..|xs| - 1], seen, id); }
  }

  /** What the collector has seen is in the table. */
  ghost predicate Kept(t: Table, xs: seq<Sample>, seen: map<Id, Snapshot>) {
    forall i :: 0 <= i < |xs| && Unchanged(seen, xs[i].s) ==> Covers(t, xs[i].s)
  }

  /** Upserting the changed rows alone: the same table, from the same choices of groups, and all rows are covered. */
  lemma {:induction false} ApplyChanged(t: Table, u: Table, xs: seq<Sample>, seen: map<Id, Snapshot>, now: int)
    requires Same(t, u) && Distinct(xs) && Kept(t, xs, seen)
    ensures Same(Apply(t, Changed(xs, seen), now), Apply(u, xs, now))
    ensures Picked(t, Changed(xs, seen), now) == Picked(u, xs, now)
    ensures forall i :: 0 <= i < |xs| ==> Covers(Apply(t, Changed(xs, seen), now), xs[i].s)
  {
    hide Same, Covers, Upsert, PickFor;
    if xs != [] {
      var n := |xs| - 1;
      var x, rest := xs[n], xs[..n];
      ApplyChanged(t, u, rest, seen, now);
      var a, b := Apply(t, Changed(rest, seen), now), Apply(u, rest, now);
      if Unchanged(seen, x.s) {
        ChangedIds(rest, seen, x.s.id);
        ApplyOthers(t, Changed(rest, seen), now, x.s);
        UpsertCovered(a, b, x, now);
        assert Changed(xs, seen) == Changed(rest, seen);
      } else {
        assert Changed(xs, seen) == Changed(rest, seen) + [x];
        assert Changed(xs, seen)[..|Changed(rest, seen)|] == Changed(rest, seen);
        UpsertSame(a, b, x, now);
        UpsertCovers(a, x, now);
        forall i | 0 <= i < n ensures Covers(Upsert(a, x, now), xs[i].s) {
          assert rest[i] == xs[i];
          UpsertOther(a, x, now, xs[i].s);
        }
      }
    }
  }

  // ---- whole runs of the collector ----------------------------------------

  predicate Recent(s: Snapshot, now: int) { s.counters.lastSeen >= now - RETENTION }

  /** Resetting the rows of other processes does not touch the row of the snapshot. */
  predicate Safe(instance: string, s: Snapshot) { instance == "" || s.id.instance == instance || s.active <= 0 || !Usable(s) }

  lemma ResetCovers(t: Table, instance: string, s: Snapshot)
    requires Covers(t, s) && Safe(instance, s)
    ensures Covers(Reset(t, instance), s)
  {
  }

  lemma PurgeCovers(t: Table, now: int, s: Snapshot)
    requires Covers(t, s) && Recent(s, now)
    ensures Covers(Purge(t, now), s)
  {
  }

  lemma PurgeSame(t: Table, u: Table, now: int)
    requires Same(t, u)
    ensures Same(Purge(t, now), Purge(u, now))
  {
    forall id | id in t ensures t[id].(sampled := 0) == u[id].(sampled := 0) && t[id].counters == u[id].counters {
      var r, q := t[id].(sampled := 0), u[id].(sampled := 0);
      assert r == q;
    }
  }

  lemma ResetSame(t: Table, u: Table, instance: string)
    requires Same(t, u)
    ensures Same(Reset(t, instance), Reset(u, instance))
  {
    forall id | id in t ensures t[id].(sampled := 0) == u[id].(sampled := 0) && t[id].active == u[id].active {
      var r, q := t[id].(sampled := 0), u[id].(sampled := 0);
      assert r == q;
    }
  }

  /** Recording the changed rows is recording all rows, if the rows left out belong to the process that answered. */
  lemma RecordChanged(t: Table, u: Table, instance: string, xs: seq<Sample>, seen: map<Id, Snapshot>, now: int)
    requires Same(t, u) && Distinct(xs) && Kept(t, xs, seen)
    requires forall i :: 0 <= i < |xs| && Unchanged(seen, xs[i].s) ==> Safe(instance, xs[i].s)
    ensures Same(Record(t, instance, Changed(xs, seen), now), Record(u, instance, xs, now))
    ensures Picked(Reset(t, instance), Changed(xs, seen), now) == Picked(Reset(u, instance), xs, now)
    ensures forall i :: 0 <= i < |xs| && Recent(xs[i].s, now) ==> Covers(Record(t, instance, Changed(xs, seen), now), xs[i].s)
  {
    hide Same, Covers, Reset, Purge, Apply, Picked, Changed, Unchanged, Safe;
    var t', u' := Reset(t, instance), Reset(u, instance);
    ResetSame(t, u, instance);
    forall i | 0 <= i < |xs| && Unchanged(seen, xs[i].s) ensures Covers(t', xs[i].s) {
      ResetCovers(t, instance, xs[i].s);
    }
    ApplyChanged(t', u', xs, seen, now);
    var t'' := Apply(t', Changed(xs, seen), now);
    PurgeSame(t'', Apply(u', xs, now), now);
    forall i | 0 <= i < |xs| && Recent(xs[i].s, now) ensures Covers(Purge(t'', now), xs[i].s) {
      PurgeCovers(t'', now, xs[i].s);
    }
  }

  function SeenIn(xs: seq<Sample>): map<Id, Snapshot> {
    if xs == [] then map[] else SeenIn(xs[..|xs| - 1])[xs[|xs| - 1].s.id := xs[|xs| - 1].s]
  }

  /** A poll that went through, one that failed, or a restart, which forgets what was seen. */
  datatype Event = Poll(instance: string, xs: seq<Sample>, now: int) | Failure | Restart

  /** The collector, and beside it the table in which every row is recorded every time. */
  datatype State = State(table: Table, seen: map<Id, Snapshot>, all: Table)

  ghost predicate Step(a: State, e: Event, b: State) {
    match e
    case Poll(instance, xs, now) =>
      && Picked(Reset(a.table, instance), Changed(xs, a.seen), now)
      && b == State(Record(a.table, instance, Changed(xs, a.seen), now), SeenIn(xs), Record(a.all, instance, xs, now))
    case Failure => b == a
    case Restart => b == a.(seen := map[])
  }

  /** A status lists each session once, of the process that answers, and none that is past its retention. */
  ghost predicate Proper(e: Event) {
    e.Poll? ==> Distinct(e.xs) && forall i :: 0 <= i < |e.xs| ==> Safe(e.instance, e.xs[i].s) && Recent(e.xs[i].s, e.now)
  }

  ghost predicate Good(a: State) {
    Same(a.table, a.all) && forall id <- a.seen :: a.seen[id].id == id && Covers(a.table, a.seen[id])
  }

  lemma {:induction false} SeenIs(xs: seq<Sample>, id: Id)
    requires id in SeenIn(xs)
    ensures exists i :: 0 <= i < |xs| && xs[i].s == SeenIn(xs)[id] && xs[i].s.id == id
  {
    var n := |xs| - 1;
    if xs[n].s.id != id {
      SeenIs(xs[..n], id);
      var i :| 0 <= i < n && xs[..n][i].s == SeenIn(xs[..n])[id] && xs[..n][i].s.id == id;
      assert xs[i].s.id == id;
    }
  }

  lemma StepKeeps(a: State, e: Event, b: State)
    requires Good(a) && Proper(e) && Step(a, e, b)
    ensures Good(b) && (e.Poll? ==> Picked(Reset(a.all, e.instance), e.xs, e.now))
  {
    hide Same, Covers, Record, Picked, Reset, Changed, SeenIn;
    if e.Poll? {
      RecordChanged(a.table, a.all, e.instance, e.xs, a.seen, e.now);
      forall id | id in b.seen ensures b.seen[id].id == id && Covers(b.table, b.seen[id]) {
        SeenIs(e.xs, id);
      }
    }
  }

  datatype Run = Run(events: seq<Event>, states: seq<State>) {
    ghost predicate Valid() {
      && |states| == |events| + 1 && states[0] == State(map[], map[], map[])
      && forall i :: 0 <= i < |events| ==> StepAt(i)
    }

    ghost predicate StepAt(i: nat)
      requires i < |events| && |states| == |events| + 1
    {
      Proper(events[i]) && Step(states[i], events[i], states[i + 1])
    }
  }

  /** At every moment the table is the one in which all rows would have been recorded, but for the sample times. */
  lemma {:induction false} ChangedIsEnough(run: Run, n: nat)
    requires run.Valid() && n < |run.states|
    ensures Good(run.states[n])
    ensures Same(run.states[n].table, run.states[n].all)
  {
    if n > 0 {
      ChangedIsEnough(run, n - 1);
      assert run.StepAt(n - 1);
      StepKeeps(run.states[n - 1], run.events[n - 1], run.states[n]);
    }
  }

  ghost predicate Unlisted(xs: seq<Sample>, id: Id) { forall i :: 0 <= i < |xs| ==> xs[i].s.id != id || !Usable(xs[i].s) }

  lemma {:induction false} ApplyUntouched(t: Table, xs: seq<Sample>, now: int, id: Id)
    requires id in t && Unlisted(xs, id)
    ensures id in Apply(t, xs, now) && Apply(t, xs, now)[id] == t[id]
  {
    if xs != [] { ApplyUntouched(t, xs[..|xs| - 1], now, id); }
  }

  lemma {:induction false} ChangedIsChanged(xs: seq<Sample>, seen: map<Id, Snapshot>, x: Sample)
    requires Distinct(xs) && x in xs && Unchanged(seen, x.s)
    ensures forall i :: 0 <= i < |Changed(xs, seen)| ==> Changed(xs, seen)[i].s.id != x.s.id
  {
    var n := |xs| - 1;
    if xs[n] == x {
      ChangedIds(xs[..n], seen, x.s.id);
    } else {
      ChangedIsChanged(xs[..n], seen, x);
    }
  }

  lemma DistinctCovers(t: Table, xs: seq<Sample>, now: int, i: nat)
    requires Distinct(xs) && i < |xs|
    ensures Covers(Apply(t, xs, now), xs[i].s)
  {
    var none: map<Id, Snapshot> := map[];
    ApplyChanged(t, t, xs, none, now);
    NothingSeen(xs);
  }

  lemma {:induction false} NothingSeen(xs: seq<Sample>)
    ensures Changed(xs, map[]) == xs
  {
    if xs != [] { NothingSeen(xs[..|xs| - 1]); }
  }

  /** The condition is needed: an open session of another process, unchanged, would be closed and not opened again. */
  lemma ForeignDiffers(t: Table, u: Table, instance: string, xs: seq<Sample>, seen: map<Id, Snapshot>, now: int, i: nat)
    requires Same(t, u) && Distinct(xs) && Kept(t, xs, seen)
    requires i < |xs| && Unchanged(seen, xs[i].s) && Recent(xs[i].s, now) && !Safe(instance, xs[i].s)
    ensures !Same(Record(t, instance, Changed(xs, seen), now), Record(u, instance, xs, now))
  {
    hide Apply, Changed, Same;
    var s := xs[i].s;
    var t', u' := Reset(t, instance), Reset(u, instance);
    assert Covers(t, s) && t'[s.id].active == 0;
    ChangedIsChanged(xs, seen, xs[i]);
    ApplyUntouched(t', Changed(xs, seen), now, s.id);
    DistinctCovers(u', xs, now, i);
    var b := Record(u, instance, xs, now);
    PurgeCovers(Apply(u', xs, now), now, s);
    assert s.id in b && b[s.id].active > 0;
    if Same(Record(t, instance, Changed(xs, seen), now), b) {
      SameActive(Record(t, instance, Changed(xs, seen), now), b, s.id);
    }
  }

  lemma SameActive(t: Table, u: Table, id: Id)
    requires Same(t, u) && (id in t || id in u)
    ensures id in t && id in u && t[id].active == u[id].active
  {
    var r, q := t[id].(sampled := 0), u[id].(sampled := 0);
    assert r == q;
  }

  // ---- which rows there are ------------------------------------------------

  /** After a poll every session of the status that has a client and a credential has a row with its open flows. */
  lemma ListedIsStored(run: Run, n: nat, i: nat, f: Field)
    requires run.Valid() && n < |run.events| && run.events[n].Poll? && i < |run.events[n].xs|
    requires run.events[n].xs[i].s.client != "" && run.events[n].xs[i].s.credential != ""
    ensures var s, t := run.events[n].xs[i].s, run.states[n + 1].table;
      s.id in t && t[s.id].active == s.active && t[s.id].counters.Get(f) >= s.counters.Get(f)
  {
    hide Apply, Changed, SeenIn, Picked;
    var a, e := run.states[n], run.events[n];
    assert run.StepAt(n);
    ChangedIsEnough(run, n);
    RecordChanged(a.table, a.all, e.instance, e.xs, a.seen, e.now);
    var s := e.xs[i].s;
    assert Covers(run.states[n + 1].table, s);
    JoinAbove(run.states[n + 1].table[s.id].counters, s.counters, f);
  }

  lemma JoinAbove(c: Counters, d: Counters, f: Field)
    ensures Join(c, d).Get(f) >= d.Get(f)
  {
  }

  /** A poll leaves the rows seen in the last year, and only these. */
  lemma YearIsKept(run: Run, n: nat, id: Id)
    requires run.Valid() && n < |run.events| && run.events[n].Poll?
    ensures var now, t, t' := run.events[n].now, run.states[n].table, run.states[n + 1].table;
      && (id in t' ==> t'[id].counters.lastSeen >= now - 365 * 86400)
      && (id in t && t[id].counters.lastSeen >= now - 365 * 86400 ==> id in t')
  {
    hide Apply, Changed, SeenIn, Picked, Proper;
    var a, e := run.states[n], run.events[n];
    assert run.StepAt(n);
    if id in a.table { ApplyLater(Reset(a.table, e.instance), Changed(e.xs, a.seen), e.now, id); }
  }

  lemma {:induction false} ApplyLater(t: Table, xs: seq<Sample>, now: int, id: Id)
    requires id in t
    ensures id in Apply(t, xs, now) && Apply(t, xs, now)[id].counters.lastSeen >= t[id].counters.lastSeen
  {
    if xs != [] { ApplyLater(t, xs[..|xs| - 1], now, id); }
  }

  /** What does not change about a session. */
  datatype Facts = Facts(client: string, credential: string, transport: string, started: int)

  ghost predicate Told(t: Table, facts: Id -> Facts) {
    forall id <- t :: Facts(t[id].client, t[id].credential, t[id].transport, t[id].started) == facts(id)
      && facts(id).client != "" && facts(id).credential != ""
  }

  ghost predicate Tells(xs: seq<Sample>, facts: Id -> Facts) {
    forall i :: 0 <= i < |xs| ==> TellsOne(xs[i].s, facts)
  }

  ghost predicate TellsOne(s: Snapshot, facts: Id -> Facts) {
    Facts(s.client, s.credential, s.transport, s.started) == facts(s.id)
  }

  lemma {:induction false} ApplyTold(t: Table, xs: seq<Sample>, now: int, facts: Id -> Facts)
    requires Told(t, facts) && Tells(xs, facts)
    ensures Told(Apply(t, xs, now), facts)
  {
    if xs != [] {
      ApplyTold(t, xs[..|xs| - 1], now, facts);
      assert TellsOne(xs[|xs| - 1].s, facts);
    }
  }

  lemma {:induction false} ChangedTells(xs: seq<Sample>, seen: map<Id, Snapshot>, facts: Id -> Facts)
    requires Tells(xs, facts)
    ensures Tells(Changed(xs, seen), facts)
  {
    if xs != [] {
      var n := |xs| - 1;
      assert TellsOne(xs[n].s, facts);
      ChangedTells(xs[..n], seen, facts);
    }
  }

  /** In every run a row is one of a session with a client and a credential, and tells its facts. */
  lemma {:induction false} RowsAreSessions(run: Run, n: nat, facts: Id -> Facts)
    requires run.Valid() && n < |run.states|
    requires forall k :: 0 <= k < |run.events| && run.events[k].Poll? ==> Tells(run.events[k].xs, facts)
    ensures Told(run.states[n].table, facts)
  {
    hide Apply, Changed, Picked, Proper, Tells, SeenIn;
    if n > 0 {
      RowsAreSessions(run, n - 1, facts);
      assert run.StepAt(n - 1);
      var a, e := run.states[n - 1], run.events[n - 1];
      if e.Poll? {
        ChangedTells(e.xs, a.seen, facts);
        ApplyTold(Reset(a.table, e.instance), Changed(e.xs, a.seen), e.now, facts);
      }
    }
  }

  // ---- the times of the samples -------------------------------------------

  /** What a row adds to the open flows of its visit: ui/app/relay_history.py:60. */
  function ActiveAt(r: Row, now: int): int { if r.sampled >= now - 3 * POLL_SECONDS then r.active else 0 }

  /** Rows with open flows have the same sample times. */
  ghost predicate Alike(t: Table, u: Table) {
    forall id <- t :: id in u && (t[id].active != 0 ==> t[id].sampled == u[id].sampled)
  }

  lemma UpsertSampled(t: Table, x: Sample, now: int)
    requires Usable(x.s)
    ensures x.s.id in Upsert(t, x, now) && Upsert(t, x, now)[x.s.id].sampled == now
  {
  }

  lemma UpsertLeaves(t: Table, x: Sample, now: int, id: Id)
    requires id in t && x.s.id != id
    ensures id in Upsert(t, x, now) && Upsert(t, x, now)[id] == t[id]
  {
  }

  lemma ApplyLast(t: Table, xs: seq<Sample>, x: Sample, now: int)
    ensures Apply(t, xs + [x], now) == Upsert(Apply(t, xs, now), x, now)
  {
    assert (xs + [x])[..|xs|] == xs;
  }

  /** A row that changed is recorded: its sample is of this poll. */
  lemma {:induction false} ChangedSampled(t: Table, xs: seq<Sample>, seen: map<Id, Snapshot>, now: int, i: nat)
    requires Distinct(xs) && i < |xs| && Usable(xs[i].s) && !Unchanged(seen, xs[i].s)
    ensures xs[i].s.id in Apply(t, Changed(xs, seen), now) && Apply(t, Changed(xs, seen), now)[xs[i].s.id].sampled == now
  {
    hide Upsert, Apply, Usable, Unchanged;
    var n := |xs| - 1;
    var x, rest := xs[n], xs[..n];
    var a := Apply(t, Changed(rest, seen), now);
    if Unchanged(seen, x.s) {
      assert Changed(xs, seen) == Changed(rest, seen);
    } else {
      assert Changed(xs, seen) == Changed(rest, seen) + [x];
      ApplyLast(t, Changed(rest, seen), x, now);
    }
    if i == n {
      UpsertSampled(a, x, now);
    } else {
      ChangedSampled(t, rest, seen, now, i);
      UpsertLeaves(a, x, now, xs[i].s.id);
    }
  }

  lemma AllSampled(t: Table, xs: seq<Sample>, now: int, i: nat)
    requires Distinct(xs) && i < |xs| && Usable(xs[i].s)
    ensures xs[i].s.id in Apply(t, xs, now) && Apply(t, xs, now)[xs[i].s.id].sampled == now
  {
    ChangedSampled(t, xs, map[], now, i);
    NothingSeen(xs);
  }

  lemma {:induction false} ChangedUnlisted(xs: seq<Sample>, seen: map<Id, Snapshot>, id: Id)
    requires Unlisted(xs, id)
    ensures Unlisted(Changed(xs, seen), id)
  {
    if xs != [] { ChangedUnlisted(xs[..|xs| - 1], seen, id); }
  }

  /** Rows appear only for sessions that are recorded. */
  lemma {:induction false} ApplyAbsent(t: Table, xs: seq<Sample>, now: int, id: Id)
    requires id !in t && Unlisted(xs, id)
    ensures id !in Apply(t, xs, now)
  {
    if xs != [] { ApplyAbsent(t, xs[..|xs| - 1], now, id); }
  }

  /** One row: listed and changed, listed and without open flows, or not listed. */
  lemma ApplyAlike(t: Table, u: Table, xs: seq<Sample>, seen: map<Id, Snapshot>, now: int, id: Id)
    requires Same(t, u) && Alike(t, u) && Distinct(xs) && Kept(t, xs, seen)
    requires forall i :: 0 <= i < |xs| && Unchanged(seen, xs[i].s) ==> xs[i].s.active == 0
    requires id in Apply(t, Changed(xs, seen), now) && Apply(t, Changed(xs, seen), now)[id].active != 0
    ensures id in Apply(u, xs, now) && Apply(t, Changed(xs, seen), now)[id].sampled == Apply(u, xs, now)[id].sampled
  {
    hide Apply, Changed, Kept, Distinct;
    if i :| 0 <= i < |xs| && xs[i].s.id == id && Usable(xs[i].s) {
      AllSampled(u, xs, now, i);
      if Unchanged(seen, xs[i].s) {
        ApplyChanged(t, u, xs, seen, now);
        assert false;
      } else {
        ChangedSampled(t, xs, seen, now, i);
      }
    } else {
      ChangedUnlisted(xs, seen, id);
      if id in t {
        ApplyUntouched(t, Changed(xs, seen), now, id);
        ApplyUntouched(u, xs, now, id);
      } else {
        ApplyAbsent(t, Changed(xs, seen), now, id);
      }
    }
  }

  lemma ResetAlike(t: Table, u: Table, instance: string)
    requires Alike(t, u)
    ensures Alike(Reset(t, instance), Reset(u, instance))
  {
  }

  lemma RecordAlike(t: Table, u: Table, instance: string, xs: seq<Sample>, seen: map<Id, Snapshot>, now: int)
    requires Same(t, u) && Alike(t, u) && Distinct(xs) && Kept(t, xs, seen)
    requires forall i :: 0 <= i < |xs| && Unchanged(seen, xs[i].s) ==> Safe(instance, xs[i].s) && xs[i].s.active == 0
    ensures Alike(Record(t, instance, Changed(xs, seen), now), Record(u, instance, xs, now))
  {
    hide Same, Reset, Apply, Changed, Unchanged, Safe, Covers, Distinct, Usable;
    var t', u' := Reset(t, instance), Reset(u, instance);
    ResetSame(t, u, instance);
    ResetAlike(t, u, instance);
    forall i | 0 <= i < |xs| && Unchanged(seen, xs[i].s) ensures Covers(t', xs[i].s) {
      ResetCovers(t, instance, xs[i].s);
    }
    RecordChanged(t, u, instance, xs, seen, now);
    var a, b := Record(t, instance, Changed(xs, seen), now), Record(u, instance, xs, now);
    forall id | id in a ensures id in b && (a[id].active != 0 ==> a[id].sampled == b[id].sampled) {
      assert id in b by { SameActive(a, b, id); }
      if a[id].active != 0 { ApplyAlike(t', u', xs, seen, now, id); }
    }
  }

  /** The relay's clock goes on between polls, and shows a session with open flows as seen now: relay/sessions.go:85. */
  ghost predicate Stamped(run: Run, clock: nat -> int) {
    && (forall n :: 0 <= n < |run.events| && run.events[n].Poll? ==> StampedAt(run.events[n].xs, clock(n)))
    && (forall m, n :: 0 <= m < n < |run.events| ==> clock(m) < clock(n))
  }

  ghost predicate StampedAt(xs: seq<Sample>, at: int) {
    forall i :: 0 <= i < |xs| ==> xs[i].s.counters.lastSeen <= at && (xs[i].s.active != 0 ==> xs[i].s.counters.lastSeen == at)
  }

  /** What was seen is of before. */
  lemma {:induction false} SeenIsEarlier(run: Run, clock: nat -> int, n: nat, at: int)
    requires run.Valid() && Stamped(run, clock) && n < |run.states| && forall m: nat :: m < n ==> clock(m) < at
    ensures forall id <- run.states[n].seen :: run.states[n].seen[id].counters.lastSeen < at
  {
    if n > 0 {
      SeenIsEarlier(run, clock, n - 1, at);
      assert run.StepAt(n - 1);
      var e := run.events[n - 1];
      if e.Poll? {
        assert StampedAt(e.xs, clock(n - 1));
        forall id | id in SeenIn(e.xs) ensures SeenIn(e.xs)[id].counters.lastSeen < at {
          SeenIs(e.xs, id);
        }
      }
    }
  }

  /** A session with open flows is never unchanged. */
  lemma OpenHasChanged(run: Run, clock: nat -> int, n: nat, i: nat)
    requires run.Valid() && Stamped(run, clock) && n < |run.events| && run.events[n].Poll? && i < |run.events[n].xs|
    requires run.events[n].xs[i].s.active != 0
    ensures !Unchanged(run.states[n].seen, run.events[n].xs[i].s)
  {
    assert StampedAt(run.events[n].xs, clock(n));
    SeenIsEarlier(run, clock, n, clock(n));
  }

  /**
   * So every poll that goes through samples every session with open flows, although only changed rows are recorded, and
   * shows them for 15 seconds if no other follows.
   */
  lemma OpenIsSampled(run: Run, clock: nat -> int, n: nat, i: nat)
    requires run.Valid() && Stamped(run, clock) && n < |run.events| && run.events[n].Poll? && i < |run.events[n].xs|
    requires run.events[n].xs[i].s.active != 0 && Usable(run.events[n].xs[i].s)
    ensures var e, t := run.events[n], run.states[n + 1].table;
      && e.xs[i].s.id in t && t[e.xs[i].s.id].sampled == e.now
      && forall now :: ActiveAt(t[e.xs[i].s.id], now) == if now <= e.now + 15 then e.xs[i].s.active else 0
  {
    hide Apply, Changed, SeenIn, Picked;
    var a, e := run.states[n], run.events[n];
    assert run.StepAt(n);
    ChangedIsEnough(run, n);
    OpenHasChanged(run, clock, n, i);
    ChangedSampled(Reset(a.table, e.instance), e.xs, a.seen, e.now, i);
    RecordChanged(a.table, a.all, e.instance, e.xs, a.seen, e.now);
    assert Covers(run.states[n + 1].table, e.xs[i].s);
  }

  /** At every moment, and for every later one, the table shows the open flows that it would if all rows were recorded. */
  lemma {:induction false} ShowsAllFlows(run: Run, clock: nat -> int, n: nat)
    requires run.Valid() && Stamped(run, clock) && n < |run.states|
    ensures Same(run.states[n].table, run.states[n].all) && Alike(run.states[n].table, run.states[n].all)
    ensures var s := run.states[n];
      forall id <- s.table, now: int :: id in s.all && ActiveAt(s.table[id], now) == ActiveAt(s.all[id], now)
  {
    hide Record, Changed, SeenIn, Picked, Reset, Distinct, Covers;
    ChangedIsEnough(run, n);
    var s := run.states[n];
    if n > 0 {
      ShowsAllFlows(run, clock, n - 1);
      ChangedIsEnough(run, n - 1);
      assert run.StepAt(n - 1);
      var a, e := run.states[n - 1], run.events[n - 1];
      if e.Poll? {
        forall i | 0 <= i < |e.xs| && Unchanged(a.seen, e.xs[i].s) ensures e.xs[i].s.active == 0 {
          if e.xs[i].s.active != 0 { OpenHasChanged(run, clock, n - 1, i); }
        }
        RecordAlike(a.table, a.all, e.instance, e.xs, a.seen, e.now);
      }
    }
    forall id, now: int | id in s.table ensures id in s.all && ActiveAt(s.table[id], now) == ActiveAt(s.all[id], now) {
      SameActive(s.table, s.all, id);
    }
  }

  // ---- visits -------------------------------------------------------------

  datatype Owner = Owner(client: string, credential: string)

  /** The rows of a group all belong to the owner of the session that the group is named after. */
  ghost predicate Grouped(t: Table, owner: Id -> Owner) {
    forall id <- t :: Owner(t[id].client, t[id].credential) == owner(id) == owner(t[id].grp)
  }

  ghost predicate Owned(xs: seq<Sample>, owner: Id -> Owner) {
    forall i :: 0 <= i < |xs| ==> Owner(xs[i].s.client, xs[i].s.credential) == owner(xs[i].s.id)
  }

  lemma {:induction false} ApplyGrouped(t: Table, xs: seq<Sample>, now: int, owner: Id -> Owner)
    requires Grouped(t, owner) && Owned(xs, owner) && Picked(t, xs, now)
    ensures Grouped(Apply(t, xs, now), owner)
  {
    if xs != [] {
      var n := |xs| - 1;
      ApplyGrouped(t, xs[..n], now, owner);
      var u, x := Apply(t, xs[..n], now), xs[n];
      if Usable(x.s) && x.s.id !in u && x.pick.Some? {
        var y :| y in u && Latest(u, x.s, y) && u[y].grp == x.pick.value;
      }
    }
  }

  /** A call of record keeps visits apart: no group ever mixes clients or credentials. */
  lemma RecordGrouped(t: Table, instance: string, xs: seq<Sample>, now: int, owner: Id -> Owner)
    requires Grouped(t, owner) && Owned(xs, owner) && Picked(Reset(t, instance), xs, now)
    ensures Grouped(Record(t, instance, xs, now), owner)
  {
    hide Apply, Picked;
    ApplyGrouped(Reset(t, instance), xs, now, owner);
  }

  lemma {:induction false} ChangedOwned(xs: seq<Sample>, seen: map<Id, Snapshot>, owner: Id -> Owner)
    requires Owned(xs, owner)
    ensures Owned(Changed(xs, seen), owner)
  {
    if xs != [] { ChangedOwned(xs[..|xs| - 1], seen, owner); }
  }

  /** In every run, as long as a session keeps its client and credential. */
  lemma {:induction false} GroupsAreOwn(run: Run, n: nat, owner: Id -> Owner)
    requires run.Valid() && n < |run.states|
    requires forall k :: 0 <= k < |run.events| && run.events[k].Poll? ==> Owned(run.events[k].xs, owner)
    ensures Grouped(run.states[n].table, owner)
  {
    hide Record, Changed, Picked, Reset, Proper, Owned, Grouped;
    if n > 0 {
      GroupsAreOwn(run, n - 1, owner);
      assert run.StepAt(n - 1);
      var a, e := run.states[n - 1], run.events[n - 1];
      if e.Poll? {
        ChangedOwned(e.xs, a.seen, owner);
        RecordGrouped(a.table, e.instance, Changed(e.xs, a.seen), e.now, owner);
      }
    } else {
      EmptyGrouped(owner);
    }
  }

  /** The session goes on from the row: it started after it, and no more than 300 seconds after that was last seen. */
  predicate GoesOn(r: Row, s: Snapshot) {
    r.client == s.client && r.credential == s.credential && r.started <= s.started <= r.counters.lastSeen + 300
  }

  /** The visit of a new session: that of the row it goes on from that was seen last, or else its own. */
  ghost predicate VisitIs(t: Table, s: Snapshot, g: Id) {
    if exists x :: x in t && GoesOn(t[x], s) then exists x :: x in t && LastOfVisit(t, s, x) && t[x].grp == g else g == s.id
  }

  ghost predicate LastOfVisit(t: Table, s: Snapshot, x: Id)
    requires x in t
  {
    GoesOn(t[x], s) && forall y <- t :: GoesOn(t[y], s) ==> t[y].counters.lastSeen <= t[x].counters.lastSeen
  }

  lemma {:induction false} PickedAt(t: Table, xs: seq<Sample>, now: int, k: nat)
    requires Picked(t, xs, now) && k < |xs|
    ensures PickFor(Apply(t, xs[..k], now), xs[k])
  {
    var n := |xs| - 1;
    if k < n {
      PickedAt(t, xs[..n], now, k);
      assert xs[..n][..k] == xs[..k];
    }
  }

  /** A stored row keeps its visit. */
  lemma {:induction false} ApplyKeepsVisit(t: Table, xs: seq<Sample>, now: int, k: nat, id: Id)
    requires k <= |xs| && id in Apply(t, xs[..k], now)
    ensures id in Apply(t, xs, now) && Apply(t, xs, now)[id].grp == Apply(t, xs[..k], now)[id].grp
  {
    if k == |xs| {
      assert xs[..k] == xs;
    } else {
      assert xs[..|xs| - 1][..k] == xs[..k];
      ApplyKeepsVisit(t, xs[..|xs| - 1], now, k, id);
    }
  }

  lemma UpsertVisit(t: Table, x: Sample, now: int)
    requires Usable(x.s) && x.s.id !in t && PickFor(t, x)
    ensures x.s.id in Upsert(t, x, now) && VisitIs(t, x.s, Upsert(t, x, now)[x.s.id].grp)
  {
    assert forall y <- t :: Candidate(t[y], x.s) <==> GoesOn(t[y], x.s);
    if x.pick.Some? {
      var y :| y in t && Latest(t, x.s, y) && t[y].grp == x.pick.value;
      assert LastOfVisit(t, x.s, y);
    }
  }

  /** In every run a session that is new when it is recorded gets its visit by the times of the rows that are there then. */
  lemma NewInVisit(run: Run, n: nat, k: nat)
    requires run.Valid() && n < |run.events| && run.events[n].Poll?
    requires var ys := Changed(run.events[n].xs, run.states[n].seen);
      && k < |ys| && Usable(ys[k].s) && ys[k].s.id in run.states[n + 1].table
      && ys[k].s.id !in Apply(Reset(run.states[n].table, run.events[n].instance), ys[..k], run.events[n].now)
    ensures var a, e := run.states[n], run.events[n];
      var ys := Changed(e.xs, a.seen);
      VisitIs(Apply(Reset(a.table, e.instance), ys[..k], e.now), ys[k].s, run.states[n + 1].table[ys[k].s.id].grp)
  {
    hide Upsert, VisitIs, PickFor, Changed, Usable, Proper;
    assert run.StepAt(n);
    var a, e := run.states[n], run.events[n];
    var ys, t := Changed(e.xs, a.seen), Reset(a.table, e.instance);
    PickedAt(t, ys, e.now, k);
    UpsertVisit(Apply(t, ys[..k], e.now), ys[k], e.now);
    assert ys[..k + 1][..k] == ys[..k];
    ApplyKeepsVisit(t, ys, e.now, k + 1, ys[k].s.id);
  }

  /** And keeps it while its row is stored. */
  lemma VisitStays(run: Run, n: nat, id: Id)
    requires run.Valid() && n < |run.events| && id in run.states[n].table && id in run.states[n + 1].table
    ensures run.states[n + 1].table[id].grp == run.states[n].table[id].grp
  {
    hide Apply, Changed, Picked, Proper;
    assert run.StepAt(n);
    var a, e := run.states[n], run.events[n];
    if e.Poll? {
      var ys, t := Changed(e.xs, a.seen), Reset(a.table, e.instance);
      NoneApplied(t, ys, e.now);
      ApplyKeepsVisit(t, ys, e.now, 0, id);
    }
  }

  lemma NoneApplied(t: Table, xs: seq<Sample>, now: int)
    ensures Apply(t, xs[..0], now) == t
  {
  }

  lemma EmptyGrouped(owner: Id -> Owner)
    ensures Grouped(map[], owner)
  {
  }

  // ---- as the service runs it ---------------------------------------------

  /** ui/app/relay_history.py:29-32 */
  method Previous(t: Table, s: Snapshot) returns (pick: Option<Id>)
    ensures PickOk(t, s, pick)
  {
    var rest, best := t.Keys, None;
    while rest != {}
      invariant rest <= t.Keys
      invariant best.None? ==> forall x <- t :: x in rest || !Candidate(t[x], s)
      invariant best.Some? ==> best.value in t && Candidate(t[best.value], s)
      invariant best.Some? ==> forall x <- t ::
        x in rest || !Candidate(t[x], s) || t[x].counters.lastSeen <= t[best.value].counters.lastSeen
      decreases |rest|
    {
      var x :| x in rest;
      rest := rest - {x};
      if Candidate(t[x], s) && (best.None? || t[x].counters.lastSeen > t[best.value].counters.lastSeen) { best := Some(x); }
    }
    pick := if best.Some? then Some(t[best.value].grp) else None;
    assert best.Some? ==> Latest(t, s, best.value);
  }

  /** ui/app/relay_history.py:26-48 for one row. */
  method Save(t: Table, s: Snapshot, now: int) returns (u: Table, ghost x: Sample)
    ensures x.s == s && PickFor(t, x) && u == Upsert(t, x, now)
  {
    x := Sample(s, None);
    if s.client == "" || s.credential == "" { return t, x; }
    if s.id in t {
      var row := t[s.id];
      u := t[s.id := row.(counters := Join(row.counters, s.counters), sampled := now, active := s.active)];
    } else {
      var previous := Previous(t, s);
      x := Sample(s, previous);
      var grp := if previous.Some? then previous.value else s.id;
      u := t[s.id := Row(grp, s.client, s.credential, s.transport, s.started, now, s.active, s.counters)];
    }
  }

  ghost predicate Samples(xs: seq<Sample>, rows: seq<Snapshot>) {
    |xs| == |rows| && forall i :: 0 <= i < |rows| ==> xs[i].s == rows[i]
  }

  /** ui/app/relay_history.py:14-49 */
  method RecordRows(before: Table, ready: bool, instance: string, rows: seq<Snapshot>, now: int)
    returns (t: Table, ghost xs: seq<Sample>)
    ensures !ready ==> t == before
    ensures ready ==> Samples(xs, rows) && Picked(Reset(before, instance), xs, now) && t == Record(before, instance, xs, now)
  {
    t, xs := before, [];
    if !ready { return; }
    if instance != "" { t := Reset(t, instance); }
    for k := 0 to |rows|
      invariant Samples(xs, rows[..k])
      invariant Picked(Reset(before, instance), xs, now) && t == Apply(Reset(before, instance), xs, now)
    {
      ghost var x;
      t, x := Save(t, rows[k], now);
      assert (xs + [x])[..|xs|] == xs;
      xs := xs + [x];
    }
    t := Purge(t, now);
  }

  /** Rows by their IDs, in the order in which the IDs first came. */
  ghost predicate Dictionary(order: seq<Id>, snapshots: map<Id, Snapshot>) {
    && (forall k :: 0 <= k < |order| ==> order[k] in snapshots && snapshots[order[k]].id == order[k])
    && (forall id <- snapshots :: id in order)
    && (forall j, k :: 0 <= j < k < |order| ==> order[j] != order[k])
  }

  /** ui/app/relay_history.py:83 */
  method ById(rows: seq<Snapshot>) returns (order: seq<Id>, snapshots: map<Id, Snapshot>)
    ensures Dictionary(order, snapshots)
    ensures forall k :: 0 <= k < |rows| ==> rows[k].id in snapshots
    ensures forall id <- snapshots :: snapshots[id] in rows
  {
    order, snapshots := [], map[];
    for k := 0 to |rows|
      invariant Dictionary(order, snapshots)
      invariant forall j :: 0 <= j < k ==> rows[j].id in snapshots
      invariant forall id <- snapshots :: snapshots[id] in rows
    {
      if rows[k].id !in snapshots { order := order + [rows[k].id]; }
      snapshots := snapshots[rows[k].id := rows[k]];
    }
  }

  function ChangedRows(rows: seq<Snapshot>, seen: map<Id, Snapshot>): seq<Snapshot> {
    if rows == [] then []
    else
      var s := rows[|rows| - 1];
      ChangedRows(rows[..|rows| - 1], seen) + if Unchanged(seen, s) then [] else [s]
  }

  /** The samples of the changed rows are the changed ones among samples of all rows. */
  lemma {:induction false} Weave(rows: seq<Snapshot>, seen: map<Id, Snapshot>, ys: seq<Sample>) returns (xs: seq<Sample>)
    requires Samples(ys, ChangedRows(rows, seen))
    ensures Samples(xs, rows) && Changed(xs, seen) == ys
  {
    if rows == [] {
      xs := [];
    } else {
      var n := |rows| - 1;
      var last := rows[n];
      var tail := if Unchanged(seen, last) then ys else ys[..|ys| - 1];
      var rest := Weave(rows[..n], seen, tail);
      xs := rest + [if Unchanged(seen, last) then Sample(last, None) else ys[|ys| - 1]];
      assert xs[..n] == rest;
    }
  }

  lemma {:induction false} SeenInDictionary(xs: seq<Sample>, order: seq<Id>, snapshots: map<Id, Snapshot>, n: nat)
    requires Dictionary(order, snapshots) && n <= |order| == |xs| && forall k :: 0 <= k < |xs| ==> xs[k].s == snapshots[order[k]]
    ensures forall k :: 0 <= k < n ==> order[k] in SeenIn(xs[..n])
    ensures forall id <- SeenIn(xs[..n]) :: id in snapshots && SeenIn(xs[..n])[id] == snapshots[id]
  {
    if n > 0 {
      SeenInDictionary(xs, order, snapshots, n - 1);
      assert xs[..n][..n - 1] == xs[..n - 1];
    }
  }

  lemma DictionaryIsSeen(xs: seq<Sample>, order: seq<Id>, snapshots: map<Id, Snapshot>)
    requires Dictionary(order, snapshots) && |order| == |xs| && forall k :: 0 <= k < |xs| ==> xs[k].s == snapshots[order[k]]
    ensures SeenIn(xs) == snapshots && Distinct(xs)
  {
    SeenInDictionary(xs, order, snapshots, |order|);
    assert xs[..|order|] == xs;
  }

  lemma ChangedAppend(rows: seq<Snapshot>, s: Snapshot, seen: map<Id, Snapshot>)
    ensures ChangedRows(rows + [s], seen) == ChangedRows(rows, seen) + if Unchanged(seen, s) then [] else [s]
  {
    assert (rows + [s])[..|rows|] == rows;
  }

  lemma NoRows(seen: map<Id, Snapshot>)
    ensures ChangedRows([], seen) == []
  {
  }

  ghost predicate InOrder(all: seq<Snapshot>, order: seq<Id>, snapshots: map<Id, Snapshot>) {
    |all| <= |order| && forall k :: 0 <= k < |all| ==> order[k] in snapshots && all[k] == snapshots[order[k]]
  }

  /** ui/app/relay_history.py:84 */
  method Compare(order: seq<Id>, snapshots: map<Id, Snapshot>, seen: map<Id, Snapshot>)
    returns (changed: seq<Snapshot>, ghost all: seq<Snapshot>)
    requires Dictionary(order, snapshots)
    ensures |all| == |order| && InOrder(all, order, snapshots) && changed == ChangedRows(all, seen)
  {
    hide ChangedRows;
    NoRows(seen);
    changed, all := [], [];
    for k := 0 to |order|
      invariant |all| == k && InOrder(all, order, snapshots) && changed == ChangedRows(all, seen)
    {
      var s := snapshots[order[k]];
      ChangedAppend(all, s, seen);
      all := all + [s];
      if order[k] !in seen || seen[order[k]] != s { changed := changed + [s]; }
    }
  }

  class RelayCollector {
    var table: Table
    var seen: map<Id, Snapshot>

    /** ui/app/relay_history.py:72-76 */
    constructor (stored: Table)
      ensures table == stored && seen == map[]
    {
      table, seen := stored, map[];
    }

    /** One turn of ui/app/relay_history.py:78-89; `commits` is false if the transaction fails and is rolled back. */
    method Turn(ready: bool, instance: string, rows: seq<Snapshot>, now: int, commits: bool) returns (ghost xs: seq<Sample>)
      modifies this
      ensures !(ready && commits) ==> table == old(table) && seen == old(seen)
      ensures ready && commits ==>
        && Distinct(xs) && seen == SeenIn(xs)
        && (forall k :: 0 <= k < |xs| ==> xs[k].s in rows) && (forall k :: 0 <= k < |rows| ==> rows[k].id in seen)
        && Picked(Reset(old(table), instance), Changed(xs, old(seen)), now)
        && table == Record(old(table), instance, Changed(xs, old(seen)), now)
    {
      hide Record, Picked, Reset, Changed, SeenIn, ChangedRows, Distinct;
      xs := [];
      if !ready { return; }
      var order, snapshots := ById(rows);
      ghost var all;
      var changed;
      changed, all := Compare(order, snapshots, seen);
      ghost var ys;
      var t;
      t, ys := RecordRows(table, true, instance, changed, now);
      if !commits { return; }
      xs := Weave(all, seen, ys);
      DictionaryIsSeen(xs, order, snapshots);
      table, seen := t, snapshots;
    }
  }
}
