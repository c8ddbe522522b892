/** Traffic buckets: roll-ups, totals and the filled chart series (ui/app/db.py, ui/app/main.py). */
module Traffic {
  const MINUTE_RETENTION := 2 * 86400
  const HOUR_RETENTION := 90 * 86400
  const HOUR := 3600
  const DAY := 86400

  datatype Slot = Slot(ts: int, client: string)

  datatype Bytes = Bytes(received: int, sent: int) {
    /** One of the two counters. */
    function Get(dir: bool): int { if dir then received else sent }
  }

  datatype Row = Row(slot: Slot, bytes: Bytes)

  /** The rows of a traffic table; (ts, client_name) is its primary key. */
  type Table = seq<Row>

  datatype Store = Store(minute: Table, hour: Table, day: Table)

  const ZERO := Bytes(0, 0)

  function Plus(a: Bytes, b: Bytes): Bytes { Bytes(a.received + b.received, a.sent + b.sent) }

  /** Integer division of PostgreSQL: towards zero. */
  function SqlDiv(a: int, b: int): int
    requires b > 0
  {
    if a >= 0 then a / b else -(-a / b)
  }

  // ---- tables -------------------------------------------------------------

  /** SUM over the rows that meet a condition. */
  ghost function Sum(t: Table, has: Slot -> bool, dir: bool): int {
    if t == [] then 0
    else (if has(t[0].slot) then t[0].bytes.Get(dir) else 0) + Sum(t[1..], has, dir)
  }

  /** Inserts a row, or adds to the one that has its key. */
  function Upsert(t: Table, s: Slot, b: Bytes): Table {
    if t == [] then [Row(s, b)]
    else if t[0].slot == s then [Row(s, Plus(t[0].bytes, b))] + t[1..]
    else [t[0]] + Upsert(t[1..], s, b)
  }

  lemma {:induction false} UpsertSum(t: Table, s: Slot, b: Bytes, has: Slot -> bool, dir: bool)
    ensures Sum(Upsert(t, s, b), has, dir) == Sum(t, has, dir) + if has(s) then b.Get(dir) else 0
  {
    if t != [] && t[0].slot != s {
      UpsertSum(t[1..], s, b, has, dir);
      assert Upsert(t, s, b)[1..] == Upsert(t[1..], s, b);
    }
  }

  ghost function Slots(t: Table): set<Slot> { set r <- t :: r.slot }

  /** The primary key holds. */
  ghost predicate Keyed(t: Table) {
    t == [] || (t[0].slot !in Slots(t[1..]) && Keyed(t[1..]))
  }

  lemma {:induction false} UpsertKeyed(t: Table, s: Slot, b: Bytes)
    requires Keyed(t)
    ensures Keyed(Upsert(t, s, b)) && Slots(Upsert(t, s, b)) == Slots(t) + {s}
  {
    if t == [] {
      assert Slots([Row(s, b)]) == {s};
    } else {
      SlotsOf(t[0], t[1..]);
      assert t == [t[0]] + t[1..];
      if t[0].slot == s {
        SlotsOf(Row(s, Plus(t[0].bytes, b)), t[1..]);
      } else {
        UpsertKeyed(t[1..], s, b);
        SlotsOf(t[0], Upsert(t[1..], s, b));
      }
    }
  }

  lemma SlotsOf(r: Row, t: Table)
    ensures Slots([r] + t) == {r.slot} + Slots(t) && ([r] + t)[1..] == t
  {
    assert forall x :: x in [r] + t <==> x == r || x in t;
  }

  /** Adds the rows of src to dst, each under the key of its group. */
  function Grouped(src: Table, dst: Table, unit: Slot -> Slot): Table {
    if src == [] then dst
    else Grouped(src[1..], Upsert(dst, unit(src[0].slot), src[0].bytes), unit)
  }

  ghost function InGroup(unit: Slot -> Slot, has: Slot -> bool): Slot -> bool { s => has(unit(s)) }

  /** Grouping, as a condition on groups sees it: the rows of dst and, under their group, the rows of src. */
  lemma {:induction false} GroupedSum(src: Table, dst: Table, unit: Slot -> Slot, has: Slot -> bool, dir: bool)
    ensures Sum(Grouped(src, dst, unit), has, dir) == Sum(dst, has, dir) + Sum(src, InGroup(unit, has), dir)
  {
    if src != [] {
      UpsertSum(dst, unit(src[0].slot), src[0].bytes, has, dir);
      GroupedSum(src[1..], Upsert(dst, unit(src[0].slot), src[0].bytes), unit, has, dir);
    }
  }

  lemma {:induction false} GroupedKeyed(src: Table, dst: Table, unit: Slot -> Slot)
    requires Keyed(dst)
    ensures Keyed(Grouped(src, dst, unit))
  {
    if src != [] {
      UpsertKeyed(dst, unit(src[0].slot), src[0].bytes);
      GroupedKeyed(src[1..], Upsert(dst, unit(src[0].slot), src[0].bytes), unit);
    }
  }

  lemma {:induction false} SameSum(t: Table, a: Slot -> bool, b: Slot -> bool, dir: bool)
    requires forall r <- t :: a(r.slot) <==> b(r.slot)
    ensures Sum(t, a, dir) == Sum(t, b, dir)
  {
    if t != [] { SameSum(t[1..], a, b, dir); }
  }

  /** A condition that is the disjoint union of two others. */
  lemma {:induction false} SplitSum(t: Table, a: Slot -> bool, b: Slot -> bool, both: Slot -> bool, dir: bool)
    requires forall r <- t :: !(a(r.slot) && b(r.slot)) && (both(r.slot) <==> a(r.slot) || b(r.slot))
    ensures Sum(t, both, dir) == Sum(t, a, dir) + Sum(t, b, dir)
  {
    if t != [] { SplitSum(t[1..], a, b, both, dir); }
  }

  lemma {:induction false} NoRows(t: Table, has: Slot -> bool, dir: bool)
    requires forall r <- t :: !has(r.slot)
    ensures Sum(t, has, dir) == 0
  {
    if t != [] { NoRows(t[1..], has, dir); }
  }

  // ---- writes, roll-ups and totals ----------------------------------------

  function Before(t: Table, cutoff: int): (r: Table)
    ensures forall x <- r :: x in t
  {
    if t == [] then []
    else (if t[0].slot.ts < cutoff then [t[0]] else []) + Before(t[1..], cutoff)
  }

  function Since(t: Table, cutoff: int): (r: Table)
    ensures forall x <- r :: x in t
  {
    if t == [] then []
    else (if t[0].slot.ts >= cutoff then [t[0]] else []) + Since(t[1..], cutoff)
  }

  lemma {:induction false} CutSum(t: Table, cutoff: int, has: Slot -> bool, dir: bool)
    ensures Sum(t, has, dir) == Sum(Before(t, cutoff), has, dir) + Sum(Since(t, cutoff), has, dir)
  {
    if t != [] {
      CutSum(t[1..], cutoff, has, dir);
      if t[0].slot.ts < cutoff {
        assert Before(t, cutoff)[1..] == Before(t[1..], cutoff) && Since(t, cutoff) == Since(t[1..], cutoff);
      } else {
        assert Since(t, cutoff)[1..] == Since(t[1..], cutoff) && Before(t, cutoff) == Before(t[1..], cutoff);
      }
    }
  }

  /** The start of the hour and of the day of a row. */
  function ToHour(s: Slot): Slot { Slot(SqlDiv(s.ts, HOUR) * HOUR, s.client) }
  function ToDay(s: Slot): Slot { Slot(SqlDiv(s.ts, DAY) * DAY, s.client) }

  function Rollup(db: Store, now: int): Store {
    var hour := Grouped(Before(db.minute, now - MINUTE_RETENTION), db.hour, ToHour);
    var day := Grouped(Before(hour, now - HOUR_RETENTION), db.day, ToDay);
    Store(Since(db.minute, now - MINUTE_RETENTION), Since(hour, now - HOUR_RETENTION), day)
  }

  function Clamp(d: Bytes): Bytes {
    Bytes(if d.received > 0 then d.received else 0, if d.sent > 0 then d.sent else 0)
  }

  function AddTraffic(t: Table, minute: int, client: string, d: Bytes): Table {
    if d.received <= 0 && d.sent <= 0 then t else Upsert(t, Slot(minute, client), Clamp(d))
  }

  /** Times from start up to end, of one client; "" stands for all clients. */
  datatype Range = Range(start: int, end: int, client: string) {
    predicate Has(s: Slot) { start <= s.ts < end && (client == "" || client == s.client) }
  }

  ghost function SumStore(db: Store, has: Slot -> bool, dir: bool): int {
    Sum(db.minute, has, dir) + Sum(db.hour, has, dir) + Sum(db.day, has, dir)
  }

  ghost function Totals(db: Store, q: Range, dir: bool): int { SumStore(db, q.Has, dir) }

  /** The traffic tables of the database. */
  class Database {
    var minute: Table
    var hour: Table
    var day: Table

    ghost function Contents(): Store
      reads this
    {
      Store(minute, hour, day)
    }

    /** ui/app/db.py:292-301 */
    method Add(ts: int, client: string, d: Bytes)
      modifies this
      ensures Contents() == old(Contents()).(minute := AddTraffic(old(minute), ts, client, d))
    {
      if d.received <= 0 && d.sent <= 0 { return; }
      minute := Upsert(minute, Slot(ts, client), Clamp(d));
    }

    /** ui/app/db.py:342-367 */
    method RollUp(now: int)
      modifies this
      ensures Contents() == Rollup(old(Contents()), now)
    {
      var cutoff := now - MINUTE_RETENTION;
      hour := Grouped(Before(minute, cutoff), hour, ToHour);
      minute := Since(minute, cutoff);
      cutoff := now - HOUR_RETENTION;
      day := Grouped(Before(hour, cutoff), day, ToDay);
      hour := Since(hour, cutoff);
    }
  }

  ghost predicate NonNegative(t: Table) { forall r <- t :: r.slot.ts >= 0 }

  ghost predicate Dated(db: Store) { NonNegative(db.minute) && NonNegative(db.hour) && NonNegative(db.day) }

  /** A time that no roll-up moves a row across: a midnight in UTC, a full hour that is recent, or one more recent. */
  predicate Fixed(bound: int, now: int) {
    bound % 86400 == 0 || (bound % 3600 == 0 && bound >= now - 90 * 86400) || bound >= now - 2 * 86400
  }

  /** A range between two such times, as far as it is after 1970 began, or one that is empty there. */
  predicate Aligned(q: Range, now: int) {
    var start := if q.start < 0 then 0 else q.start;
    q.end <= start || (Fixed(start, now) && Fixed(q.end, now))
  }

  /** Rounding down to the hour or the day crosses no multiple of it. */
  lemma Rounded(ts: int, bound: int, width: int)
    requires ts >= 0 && width > 0 && bound % width == 0
    ensures bound <= ts <==> bound <= SqlDiv(ts, width) * width
    ensures SqlDiv(ts, width) * width == ts - ts % width
  {
    var k, m := bound / width, ts / width;
    assert bound == k * width && ts == m * width + ts % width;
    Blocks(k, m, width);
  }

  lemma Blocks(k: int, m: int, width: int)
    requires width > 0
    ensures if k <= m then k * width <= m * width else k * width >= m * width + width
  {
    var d := if k <= m then m - k else k - m - 1;
    assert d * width >= 0;
  }

  lemma HourOfDay(bound: int)
    requires bound % DAY == 0
    ensures bound % HOUR == 0
  {
    assert bound == 24 * (bound / DAY) * HOUR;
  }

  lemma FixedHour(ts: int, bound: int, now: int)
    requires Fixed(bound, now) && 0 <= ts < now - MINUTE_RETENTION
    ensures bound <= ts <==> bound <= SqlDiv(ts, HOUR) * HOUR
  {
    if bound % DAY == 0 { HourOfDay(bound); }
    if bound % HOUR == 0 { Rounded(ts, bound, HOUR); } else { Rounded(ts, 0, HOUR); }
  }

  lemma FixedDay(ts: int, bound: int, now: int)
    requires Fixed(bound, now) && 0 <= ts < now - HOUR_RETENTION
    ensures bound <= ts <==> bound <= SqlDiv(ts, DAY) * DAY
  {
    if bound % DAY == 0 { Rounded(ts, bound, DAY); } else { Rounded(ts, 0, DAY); }
  }

  lemma SameHour(q: Range, s: Slot, now: int)
    requires Aligned(q, now) && 0 <= s.ts < now - MINUTE_RETENTION
    ensures (q.Has(s) <==> q.Has(ToHour(s))) && ToHour(s).ts >= 0
  {
    hide Fixed;
    var start := if q.start < 0 then 0 else q.start;
    Rounded(s.ts, 0, HOUR);
    if start < q.end {
      FixedHour(s.ts, start, now);
      FixedHour(s.ts, q.end, now);
    }
  }

  lemma SameDay(q: Range, s: Slot, now: int)
    requires Aligned(q, now) && 0 <= s.ts < now - HOUR_RETENTION
    ensures (q.Has(s) <==> q.Has(ToDay(s))) && ToDay(s).ts >= 0
  {
    hide Fixed;
    var start := if q.start < 0 then 0 else q.start;
    Rounded(s.ts, 0, DAY);
    if start < q.end {
      FixedDay(s.ts, start, now);
      FixedDay(s.ts, q.end, now);
    }
  }

  lemma {:induction false} GroupedDated(src: Table, dst: Table, unit: Slot -> Slot)
    requires NonNegative(dst) && forall r <- src :: unit(r.slot).ts >= 0
    ensures NonNegative(Grouped(src, dst, unit))
  {
    if src != [] {
      UpsertDated(dst, unit(src[0].slot), src[0].bytes);
      GroupedDated(src[1..], Upsert(dst, unit(src[0].slot), src[0].bytes), unit);
    }
  }

  lemma {:induction false} UpsertDated(t: Table, s: Slot, b: Bytes)
    requires NonNegative(t) && s.ts >= 0
    ensures NonNegative(Upsert(t, s, b))
  {
    if t != [] { UpsertDated(t[1..], s, b); }
  }

  /** Rounding a time before the cutoff leaves it inside the range, or outside. */
  ghost predicate SameSide(q: Range, unit: Slot -> Slot, cutoff: int) {
    forall s: Slot :: 0 <= s.ts < cutoff ==> (q.Has(s) <==> q.Has(unit(s))) && unit(s).ts >= 0
  }

  /** Moving the rows before a cutoff into coarser buckets on the same side of the range's bounds. */
  lemma {:induction false} MoveKeepsTotal(src: Table, dst: Table, cutoff: int, unit: Slot -> Slot, q: Range, dir: bool)
    requires NonNegative(src) && NonNegative(dst)
    requires SameSide(q, unit, cutoff)
    ensures var dst' := Grouped(Before(src, cutoff), dst, unit);
      && NonNegative(dst')
      && Sum(Since(src, cutoff), q.Has, dir) + Sum(dst', q.Has, dir) == Sum(src, q.Has, dir) + Sum(dst, q.Has, dir)
  {
    BeforeCutoff(src, cutoff);
    GroupedDated(Before(src, cutoff), dst, unit);
    GroupedSum(Before(src, cutoff), dst, unit, q.Has, dir);
    SameSum(Before(src, cutoff), q.Has, InGroup(unit, q.Has), dir);
    CutSum(src, cutoff, q.Has, dir);
  }

  lemma SameSides(q: Range, now: int)
    requires Aligned(q, now)
    ensures SameSide(q, ToHour, now - MINUTE_RETENTION) && SameSide(q, ToDay, now - HOUR_RETENTION)
  {
    hide Aligned, ToHour, ToDay;
    forall s: Slot | 0 <= s.ts < now - MINUTE_RETENTION ensures (q.Has(s) <==> q.Has(ToHour(s))) && ToHour(s).ts >= 0 {
      SameHour(q, s, now);
    }
    forall s: Slot | 0 <= s.ts < now - HOUR_RETENTION ensures (q.Has(s) <==> q.Has(ToDay(s))) && ToDay(s).ts >= 0 {
      SameDay(q, s, now);
    }
  }

  lemma {:induction false} BeforeCutoff(t: Table, cutoff: int)
    ensures forall r <- Before(t, cutoff) :: r.slot.ts < cutoff
  {
    if t != [] { BeforeCutoff(t[1..], cutoff); }
  }

  /** A roll-up keeps every total between such times, of one client or of all: whole days, and recent hours and minutes. */
  lemma {:induction false} RollupKeepsTotals(db: Store, now: int, q: Range, dir: bool)
    requires Dated(db) && Aligned(q, now)
    ensures Dated(Rollup(db, now)) && Totals(Rollup(db, now), q, dir) == Totals(db, q, dir)
  {
    hide Aligned, SqlDiv, SameSide, Grouped, Before, Since, Sum;
    SameSides(q, now);
    MoveKeepsTotal(db.minute, db.hour, now - MINUTE_RETENTION, ToHour, q, dir);
    var hour := Grouped(Before(db.minute, now - MINUTE_RETENTION), db.hour, ToHour);
    MoveKeepsTotal(hour, db.day, now - HOUR_RETENTION, ToDay, q, dir);
  }

  lemma OneGrouped(r: Row, unit: Slot -> Slot)
    ensures Grouped([r], [], unit) == [Row(unit(r.slot), r.bytes)]
  {
    assert [r][1..] == [];
  }

  lemma OneSum(r: Row, has: Slot -> bool, dir: bool)
    ensures Sum([r], has, dir) == (if has(r.slot) then r.bytes.Get(dir) else 0) && Sum([], has, dir) == 0
  {
    assert [r][1..] == [];
  }

  lemma OneCut(r: Row, cutoff: int)
    ensures if r.slot.ts < cutoff then Before([r], cutoff) == [r] && Since([r], cutoff) == []
            else Before([r], cutoff) == [] && Since([r], cutoff) == [r]
  {
    assert [r][1..] == [];
  }

  lemma HourThenDay(t: int)
    requires t >= 0
    ensures var h := SqlDiv(t, HOUR) * HOUR; h == t - t % HOUR && SqlDiv(h, DAY) * DAY == t - t % DAY
  {
    var h := SqlDiv(t, HOUR) * HOUR;
    Rounded(t, 0, HOUR);
    Rounded(t, 0, DAY);
    HourOfDay(t - t % DAY);
    Rounded(t, t - t % DAY, HOUR);
    Rounded(h, 0, DAY);
    Rounded(h, t - t % DAY, DAY);
  }

  /** Where a row of a minute that is over goes: to its hour, and if that is over, too, to its day. */
  function Rolled(t: int, now: int): int { if t - t % HOUR < now - HOUR_RETENTION then t - t % DAY else t - t % HOUR }

  lemma OneRowRolled(t: int, client: string, now: int)
    requires 0 <= t < now - MINUTE_RETENTION
    ensures var r := Row(Slot(Rolled(t, now), client), Bytes(1, 1));
      var db := Rollup(Store([r.(slot := Slot(t, client))], [], []), now);
      db == Store([], [r], []) || db == Store([], [], [r])
  {
    hide Grouped, Before, Since, SqlDiv;
    var r := Row(Slot(t, client), Bytes(1, 1));
    var h := Row(ToHour(r.slot), r.bytes);
    HourThenDay(t);
    OneCut(r, now - MINUTE_RETENTION);
    OneGrouped(r, ToHour);
    OneCut(h, now - HOUR_RETENTION);
    OneGrouped(h, ToDay);
    NoneGrouped(ToDay);
  }

  lemma NoneGrouped(unit: Slot -> Slot)
    ensures Grouped([], [], unit) == []
  {
  }

  /** A row at a time that is not fixed crosses it, and no fixed time before it. */
  lemma NotFixed(t: int, start: int, now: int)
    requires 0 <= start <= t && !Fixed(t, now)
    ensures Rolled(t, now) < t && (start < t && Fixed(start, now) ==> start <= Rolled(t, now))
  {
    HourOfDay(t - t % DAY);
    Rounded(t, t - t % DAY, HOUR);
    assert t - t % DAY <= t - t % HOUR;
    assert Rolled(t, now) < t;
    if start < t && Fixed(start, now) {
      if start % DAY == 0 {
        Rounded(t, start, DAY);
        assert start <= t - t % DAY <= t - t % HOUR;
      } else {
        Rounded(t, start, HOUR);
        assert start <= t - t % HOUR;
      }
    }
  }

  /** A roll-up at any time changes some total over every other range: a row moves out over its start, or in over its end. */
  lemma RollupChangesOthers(q: Range, now: int, dir: bool) returns (db: Store)
    requires !Aligned(q, now)
    ensures Dated(db) && Totals(Rollup(db, now), q, dir) != Totals(db, q, dir)
  {
    hide Rollup, Sum, Rolled;
    var start := if q.start < 0 then 0 else q.start;
    var t := if !Fixed(start, now) then start else q.end;
    var r, r' := Row(Slot(t, q.client), Bytes(1, 1)), Row(Slot(Rolled(t, now), q.client), Bytes(1, 1));
    db := Store([r], [], []);
    NotFixed(t, start, now);
    OneRowRolled(t, q.client, now);
    OneSum(r, q.Has, dir);
    OneSum(r', q.Has, dir);
  }

  datatype Op = Write(minute: int, client: string, d: Bytes) | Roll(now: int)

  ghost function Run(db: Store, ops: seq<Op>): Store {
    if ops == [] then db
    else
      var before := Run(db, ops[..|ops| - 1]);
      match ops[|ops| - 1]
      case Write(minute, client, d) => before.(minute := AddTraffic(before.minute, minute, client, d))
      case Roll(now) => Rollup(before, now)
  }

  /** The bytes that a list of operations writes into a range. */
  ghost function Written(ops: seq<Op>, q: Range, dir: bool): int {
    if ops == [] then 0
    else
      var op := ops[|ops| - 1];
      Written(ops[..|ops| - 1], q, dir)
      + if op.Write? && q.Has(Slot(op.minute, op.client)) && op.d.Get(dir) > 0 then op.d.Get(dir) else 0
  }

  /** Through any mix of writes and roll-ups, a total between fixed times is what was written: no byte lost or repeated. */
  lemma {:induction false} TotalsAreWrites(db: Store, ops: seq<Op>, q: Range, dir: bool)
    requires Dated(db) && forall op <- ops :: if op.Write? then op.minute >= 0 else Aligned(q, op.now)
    ensures Dated(Run(db, ops)) && Totals(Run(db, ops), q, dir) == Totals(db, q, dir) + Written(ops, q, dir)
  {
    if ops != [] {
      var rest, op := ops[..|ops| - 1], ops[|ops| - 1];
      TotalsAreWrites(db, rest, q, dir);
      var before := Run(db, rest);
      match op
      case Write(minute, client, d) =>
        UpsertSum(before.minute, Slot(minute, client), Clamp(d), q.Has, dir);
        UpsertDated(before.minute, Slot(minute, client), Clamp(d));
      case Roll(now) =>
        RollupKeepsTotals(before, now, q, dir);
    }
  }

  ghost predicate KeyedStore(db: Store) { Keyed(db.minute) && Keyed(db.hour) && Keyed(db.day) }

  lemma {:induction false} SinceKeyed(t: Table, cutoff: int)
    requires Keyed(t)
    ensures Keyed(Since(t, cutoff)) && Slots(Since(t, cutoff)) <= Slots(t)
  {
    if t != [] {
      var rest := Since(t[1..], cutoff);
      SinceKeyed(t[1..], cutoff);
      SlotsOf(t[0], t[1..]);
      assert t == [t[0]] + t[1..];
      if t[0].slot.ts >= cutoff {
        SlotsOf(t[0], rest);
        assert Since(t, cutoff) == [t[0]] + rest;
      } else {
        assert Since(t, cutoff) == rest;
      }
    }
  }

  /** Through any mix of writes and roll-ups, each table has one row per time and client. */
  lemma {:induction false} RunKeyed(db: Store, ops: seq<Op>)
    requires KeyedStore(db)
    ensures KeyedStore(Run(db, ops))
  {
    if ops != [] {
      var rest := ops[..|ops| - 1];
      RunKeyed(db, rest);
      var before := Run(db, rest);
      match ops[|ops| - 1]
      case Write(minute, client, d) => UpsertKeyed(before.minute, Slot(minute, client), Clamp(d));
      case Roll(now) => RollupKeyed(before, now);
    }
  }

  lemma RollupKeyed(db: Store, now: int)
    requires KeyedStore(db)
    ensures KeyedStore(Rollup(db, now))
  {
    var hour := Grouped(Before(db.minute, now - MINUTE_RETENTION), db.hour, ToHour);
    GroupedKeyed(Before(db.minute, now - MINUTE_RETENTION), db.hour, ToHour);
    GroupedKeyed(Before(hour, now - HOUR_RETENTION), db.day, ToDay);
    SinceKeyed(db.minute, now - MINUTE_RETENTION);
    SinceKeyed(hour, now - HOUR_RETENTION);
  }

  /** A row that says something: no counter is negative, and one is not zero. */
  predicate Positive(b: Bytes) { b.received >= 0 && b.sent >= 0 && b.received + b.sent > 0 }

  ghost predicate AllPositive(t: Table) { forall r <- t :: Positive(r.bytes) }

  lemma {:induction false} UpsertPositive(t: Table, s: Slot, b: Bytes)
    requires AllPositive(t) && Positive(b)
    ensures AllPositive(Upsert(t, s, b))
  {
    if t != [] { UpsertPositive(t[1..], s, b); }
  }

  lemma {:induction false} GroupedPositive(src: Table, dst: Table, unit: Slot -> Slot)
    requires AllPositive(src) && AllPositive(dst)
    ensures AllPositive(Grouped(src, dst, unit))
  {
    if src != [] {
      UpsertPositive(dst, unit(src[0].slot), src[0].bytes);
      GroupedPositive(src[1..], Upsert(dst, unit(src[0].slot), src[0].bytes), unit);
    }
  }

  ghost predicate PositiveStore(db: Store) { AllPositive(db.minute) && AllPositive(db.hour) && AllPositive(db.day) }

  /** Through any mix of writes and roll-ups there are no rows without traffic, so that every point of a chart has some. */
  lemma {:induction false} RunPositive(db: Store, ops: seq<Op>)
    requires PositiveStore(db)
    ensures PositiveStore(Run(db, ops))
  {
    hide Rollup, Upsert;
    if ops != [] {
      var rest := ops[..|ops| - 1];
      RunPositive(db, rest);
      var before := Run(db, rest);
      match ops[|ops| - 1]
      case Write(minute, client, d) =>
        if Positive(Clamp(d)) { UpsertPositive(before.minute, Slot(minute, client), Clamp(d)); }
      case Roll(now) => RollupPositive(before, now);
    }
  }

  lemma RollupPositive(db: Store, now: int)
    requires PositiveStore(db)
    ensures PositiveStore(Rollup(db, now))
  {
    hide Grouped, Before, Since, Positive;
    var hour := Grouped(Before(db.minute, now - MINUTE_RETENTION), db.hour, ToHour);
    GroupedPositive(Before(db.minute, now - MINUTE_RETENTION), db.hour, ToHour);
    GroupedPositive(Before(hour, now - HOUR_RETENTION), db.day, ToDay);
  }

  // ---- the chart ----------------------------------------------------------

  datatype Point = Point(ts: int, bytes: Bytes)

  /** Chart buckets of a width above zero, shifted to a time zone. */
  datatype Grid = Grid(width: int, tz: int) {
    /** (ts + tz) / bucket in the series query */
    function Index(ts: int): int
      requires width > 0
    {
      SqlDiv(ts + tz, width)
    }

    /** The time at which bucket number k starts. */
    function Tick(k: int): int { k * width - tz }

    /** The bucket of `start` in the chart; here the division rounds down. */
    function First(start: int): int
      requires width > 0
    {
      (start + tz) / width
    }
  }

  ghost function InBucket(q: Range, grid: Grid, k: int): Slot -> bool
    requires grid.width > 0
  {
    s => q.Has(s) && grid.Index(s.ts) == k
  }

  ghost function BelowBucket(q: Range, grid: Grid, k: int): Slot -> bool
    requires grid.width > 0
  {
    s => q.Has(s) && grid.Index(s.ts) < k
  }

  /** What a chart shows at time t: the point of that time, or zero when there is none. */
  ghost predicate Shows(points: seq<Point>, t: int, b: Bytes) {
    if exists p <- points :: p.ts == t then Point(t, b) in points else b == ZERO
  }

  /** A result of the series query: one point per bucket that has rows, with their sums. */
  ghost predicate IsSeries(points: seq<Point>, db: Store, q: Range, grid: Grid)
    requires grid.width > 0
  {
    forall k, b, dir :: Shows(points, grid.Tick(k), b) ==> b.Get(dir) == SumStore(db, InBucket(q, grid, k), dir)
  }

  /** The rows of a range. */
  function Pick(t: Table, q: Range): Table {
    if t == [] then [] else (if q.Has(t[0].slot) then [t[0]] else []) + Pick(t[1..], q)
  }

  function Bucket(grid: Grid, s: Slot): Slot
    requires grid.width > 0
  {
    Slot(grid.Tick(grid.Index(s.ts)), "")
  }

  function Points(t: Table): seq<Point> { seq(|t|, i requires 0 <= i < |t| => Point(t[i].slot.ts, t[i].bytes)) }

  function Insert(points: seq<Point>, p: Point): seq<Point> {
    if points == [] || p.ts <= points[0].ts then [p] + points else [points[0]] + Insert(points[1..], p)
  }

  /** The points in order of time. */
  function Sorted(points: seq<Point>): seq<Point> {
    if points == [] then [] else Insert(Sorted(points[1..]), points[0])
  }

  function Selected(db: Store, q: Range): Table { Pick(db.minute, q) + Pick(db.hour, q) + Pick(db.day, q) }

  /** ui/app/db.py:321-333: the rows of the range in all three tables, summed by bucket, in order. */
  function Series(db: Store, q: Range, grid: Grid): seq<Point>
    requires grid.width > 0
  {
    Sorted(Points(Grouped(Selected(db, q), [], s => Bucket(grid, s))))
  }

  ghost predicate Increasing(points: seq<Point>) { forall i, j :: 0 <= i < j < |points| ==> points[i].ts < points[j].ts }

  lemma {:induction false} InsertIs(points: seq<Point>, p: Point)
    requires Increasing(points) && forall x <- points :: x.ts != p.ts
    ensures Increasing(Insert(points, p)) && forall x :: x in Insert(points, p) <==> x == p || x in points
  {
    if points != [] && p.ts > points[0].ts {
      InsertIs(points[1..], p);
      assert points == [points[0]] + points[1..];
      var rest := Insert(points[1..], p);
      forall j | 0 <= j < |rest| ensures points[0].ts < rest[j].ts {
        assert rest[j] in rest;
      }
    }
  }

  lemma {:induction false} SortedIs(points: seq<Point>)
    requires forall i, j :: 0 <= i < j < |points| ==> points[i].ts != points[j].ts
    ensures Increasing(Sorted(points)) && forall x :: x in Sorted(points) <==> x in points
  {
    if points != [] {
      SortedIs(points[1..]);
      assert points == [points[0]] + points[1..];
      InsertIs(Sorted(points[1..]), points[0]);
    }
  }

  lemma {:induction false} GroupedSlots(src: Table, dst: Table, unit: Slot -> Slot)
    requires Keyed(dst)
    ensures Slots(Grouped(src, dst, unit)) == Slots(dst) + set r <- src :: unit(r.slot)
  {
    hide Keyed, Upsert;
    if src != [] {
      UpsertKeyed(dst, unit(src[0].slot), src[0].bytes);
      GroupedSlots(src[1..], Upsert(dst, unit(src[0].slot), src[0].bytes), unit);
      assert src == [src[0]] + src[1..];
      assert (set r <- src :: unit(r.slot)) == {unit(src[0].slot)} + set r <- src[1..] :: unit(r.slot);
    }
  }

  /** Rows of a keyed table without clients have different times. */
  lemma {:induction false} KeyedTimes(t: Table, i: nat, j: nat)
    requires Keyed(t) && i < j < |t| && forall r <- t :: r.slot.client == ""
    ensures t[i].slot.ts != t[j].slot.ts
  {
    if i == 0 {
      assert t[j] in t[1..] && t[j].slot in Slots(t[1..]);
      assert t[0].slot.client == t[j].slot.client;
    } else {
      KeyedTimes(t[1..], i - 1, j - 1);
    }
  }

  lemma {:induction false} PickSum(t: Table, q: Range, has: Slot -> bool, both: Slot -> bool, dir: bool)
    requires forall r <- t :: both(r.slot) <==> q.Has(r.slot) && has(r.slot)
    ensures Sum(Pick(t, q), has, dir) == Sum(t, both, dir)
  {
    if t != [] {
      PickSum(t[1..], q, has, both, dir);
      assert if q.Has(t[0].slot) then Pick(t, q)[1..] == Pick(t[1..], q) else Pick(t, q) == Pick(t[1..], q);
    }
  }

  lemma {:induction false} SumConcat(a: Table, b: Table, has: Slot -> bool, dir: bool)
    ensures Sum(a + b, has, dir) == Sum(a, has, dir) + Sum(b, has, dir)
  {
    if a == [] {
      assert a + b == b;
    } else {
      assert (a + b)[1..] == a[1..] + b;
      SumConcat(a[1..], b, has, dir);
    }
  }

  /** In a table with a primary key, the sum over one key is its row. */
  lemma {:induction false} KeyedSum(t: Table, r: Row, has: Slot -> bool, dir: bool)
    requires Keyed(t) && r in t && forall x <- t :: has(x.slot) <==> x.slot == r.slot
    ensures Sum(t, has, dir) == r.bytes.Get(dir)
  {
    if t[0] == r {
      forall x | x in t[1..] ensures !has(x.slot) {
        assert x.slot in Slots(t[1..]);
      }
      NoRows(t[1..], has, dir);
    } else {
      assert r in t[1..] && r.slot in Slots(t[1..]);
      KeyedSum(t[1..], r, has, dir);
    }
  }

  lemma {:induction false} GroupedBlank(src: Table, dst: Table, unit: Slot -> Slot)
    requires (forall r <- dst :: r.slot.client == "") && forall r <- src :: unit(r.slot).client == ""
    ensures forall r <- Grouped(src, dst, unit) :: r.slot.client == ""
  {
    if src != [] {
      UpsertBlank(dst, unit(src[0].slot), src[0].bytes);
      GroupedBlank(src[1..], Upsert(dst, unit(src[0].slot), src[0].bytes), unit);
    }
  }

  lemma {:induction false} UpsertBlank(t: Table, s: Slot, b: Bytes)
    requires (forall r <- t :: r.slot.client == "") && s.client == ""
    ensures forall r <- Upsert(t, s, b) :: r.slot.client == ""
  {
    if t != [] { UpsertBlank(t[1..], s, b); }
  }

  ghost function AtTick(grid: Grid, k: int): Slot -> bool { (s: Slot) => s.ts == grid.Tick(k) }

  lemma SameTick(grid: Grid, j: int, k: int)
    requires grid.width > 0 && grid.Tick(j) == grid.Tick(k)
    ensures j == k
  {
    if j < k { Times(k, j + 1, grid.width); } else if k < j { Times(j, k + 1, grid.width); }
  }

  lemma InBucketIs(t: Table, q: Range, grid: Grid, unit: Slot -> Slot, k: int, dir: bool)
    requires grid.width > 0 && forall s :: unit(s) == Bucket(grid, s)
    ensures Sum(Pick(t, q), InGroup(unit, AtTick(grid, k)), dir) == Sum(t, InBucket(q, grid, k), dir)
  {
    forall r | r in t ensures InBucket(q, grid, k)(r.slot) <==> q.Has(r.slot) && InGroup(unit, AtTick(grid, k))(r.slot) {
      if grid.Tick(grid.Index(r.slot.ts)) == grid.Tick(k) { SameTick(grid, grid.Index(r.slot.ts), k); }
    }
    PickSum(t, q, InGroup(unit, AtTick(grid, k)), InBucket(q, grid, k), dir);
  }

  /** The sums of the grouped table, bucket by bucket, are the sums of the three tables. */
  lemma BucketSums(db: Store, q: Range, grid: Grid, unit: Slot -> Slot, k: int, dir: bool)
    requires grid.width > 0 && forall s :: unit(s) == Bucket(grid, s)
    ensures Sum(Grouped(Selected(db, q), [], unit), AtTick(grid, k), dir) == SumStore(db, InBucket(q, grid, k), dir)
  {
    var at, recent := AtTick(grid, k), Pick(db.minute, q) + Pick(db.hour, q);
    GroupedSum(recent + Pick(db.day, q), [], unit, at, dir);
    SumConcat(recent, Pick(db.day, q), InGroup(unit, at), dir);
    SumConcat(Pick(db.minute, q), Pick(db.hour, q), InGroup(unit, at), dir);
    InBucketIs(db.minute, q, grid, unit, k, dir);
    InBucketIs(db.hour, q, grid, unit, k, dir);
    InBucketIs(db.day, q, grid, unit, k, dir);
  }

  /** The buckets that have rows. */
  ghost predicate HasRows(db: Store, q: Range, grid: Grid, k: int)
    requires grid.width > 0
  {
    exists r :: r in Selected(db, q) && grid.Index(r.slot.ts) == k
  }

  lemma PointsAre(db: Store, q: Range, grid: Grid, t: Table, points: seq<Point>)
    requires grid.width > 0 && t == Grouped(Selected(db, q), [], s => Bucket(grid, s)) && points == Series(db, q, grid)
    ensures Keyed(t) && forall r <- t :: r.slot.client == ""
    ensures Increasing(points) && forall x :: x in points <==> x in Points(t)
  {
    GroupedKeyed(Selected(db, q), [], s => Bucket(grid, s));
    GroupedBlank(Selected(db, q), [], s => Bucket(grid, s));
    forall i, j | 0 <= i < j < |t| ensures Points(t)[i].ts != Points(t)[j].ts {
      KeyedTimes(t, i, j);
    }
    SortedIs(Points(t));
  }

  /** The query has, in order of time, one point for each bucket with rows and none besides, and it is their sum. */
  lemma SeriesIs(db: Store, q: Range, grid: Grid)
    requires grid.width > 0
    ensures IsSeries(Series(db, q, grid), db, q, grid) && Increasing(Series(db, q, grid))
    ensures forall k :: (exists p <- Series(db, q, grid) :: p.ts == grid.Tick(k)) <==> HasRows(db, q, grid, k)
    ensures forall p <- Series(db, q, grid) :: exists k :: p.ts == grid.Tick(k)
  {
    hide Series, Keyed, Grouped;
    var src, unit := Selected(db, q), (s: Slot) => Bucket(grid, s);
    var t, points := Grouped(src, [], unit), Series(db, q, grid);
    PointsAre(db, q, grid, t, points);
    forall k, b, dir | Shows(points, grid.Tick(k), b) ensures b.Get(dir) == SumStore(db, InBucket(q, grid, k), dir) {
      BucketSums(db, q, grid, unit, k, dir);
      assert Shows(Points(t), grid.Tick(k), b);
      PointIs(t, grid, k, b, dir);
    }
    forall k ensures (exists p <- points :: p.ts == grid.Tick(k)) <==> HasRows(db, q, grid, k) {
      TicksAre(db, q, grid, unit, k);
      assert (exists p <- points :: p.ts == grid.Tick(k)) <==> exists p <- Points(t) :: p.ts == grid.Tick(k);
    }
    forall p | p in points ensures exists k :: p.ts == grid.Tick(k) {
      OnGrid(db, q, grid, unit, p);
    }
  }

  lemma SlotOfPoint(t: Table, ts: int)
    requires forall r <- t :: r.slot.client == ""
    ensures (exists p <- Points(t) :: p.ts == ts) <==> Slot(ts, "") in Slots(t)
  {
    if p :| p in Points(t) && p.ts == ts {
      var i :| 0 <= i < |t| && Points(t)[i] == p;
      assert t[i].slot == Slot(ts, "") && t[i] in t;
    }
    if r :| r in t && r.slot == Slot(ts, "") {
      var i :| 0 <= i < |t| && t[i] == r;
      assert Points(t)[i] in Points(t);
    }
  }

  lemma SeriesSlots(src: Table, grid: Grid, unit: Slot -> Slot)
    requires grid.width > 0 && forall s :: unit(s) == Bucket(grid, s)
    ensures var t := Grouped(src, [], unit);
      (forall r <- t :: r.slot.client == "") && Slots(t) == set r <- src :: Bucket(grid, r.slot)
  {
    GroupedBlank(src, [], unit);
    GroupedSlots(src, [], unit);
    assert (set r <- src :: unit(r.slot)) == set r <- src :: Bucket(grid, r.slot);
  }

  lemma TicksAre(db: Store, q: Range, grid: Grid, unit: Slot -> Slot, k: int)
    requires grid.width > 0 && forall s :: unit(s) == Bucket(grid, s)
    ensures (exists p <- Points(Grouped(Selected(db, q), [], unit)) :: p.ts == grid.Tick(k)) <==> HasRows(db, q, grid, k)
  {
    hide Grouped;
    var src := Selected(db, q);
    SeriesSlots(src, grid, unit);
    SlotOfPoint(Grouped(src, [], unit), grid.Tick(k));
    if r :| r in src && Bucket(grid, r.slot) == Slot(grid.Tick(k), "") { SameTick(grid, grid.Index(r.slot.ts), k); }
    if r :| r in src && grid.Index(r.slot.ts) == k { assert Bucket(grid, r.slot) == Slot(grid.Tick(k), ""); }
  }

  lemma OnGrid(db: Store, q: Range, grid: Grid, unit: Slot -> Slot, p: Point)
    requires grid.width > 0 && (forall s :: unit(s) == Bucket(grid, s)) && p in Points(Grouped(Selected(db, q), [], unit))
    ensures exists k :: p.ts == grid.Tick(k)
  {
    hide Grouped;
    SeriesSlots(Selected(db, q), grid, unit);
    SlotOfPoint(Grouped(Selected(db, q), [], unit), p.ts);
    var r :| r in Selected(db, q) && Bucket(grid, r.slot) == Slot(p.ts, "");
  }

  lemma PointIs(t: Table, grid: Grid, k: int, b: Bytes, dir: bool)
    requires Keyed(t) && (forall r <- t :: r.slot.client == "") && Shows(Points(t), grid.Tick(k), b)
    ensures b.Get(dir) == Sum(t, AtTick(grid, k), dir)
  {
    if p :| p in Points(t) && p.ts == grid.Tick(k) {
      var i :| 0 <= i < |t| && Points(t)[i] == Point(grid.Tick(k), b);
      KeyedSum(t, t[i], AtTick(grid, k), dir);
    } else {
      forall r | r in t ensures r.slot.ts != grid.Tick(k) {
        var i :| 0 <= i < |t| && t[i] == r;
        assert Points(t)[i] in Points(t);
      }
      NoRows(t, AtTick(grid, k), dir);
    }
  }

  /** A chart with one point for every bucket from the one that holds `start` to the last before `end`. */
  ghost predicate IsChart(out: seq<Point>, points: seq<Point>, start: int, end: int, grid: Grid)
    requires grid.width > 0
  {
    && (forall i :: 0 <= i < |out| ==> out[i].ts == grid.Tick(grid.First(start) + i) < end)
    && (forall i :: 0 <= i < |out| ==> Shows(points, out[i].ts, out[i].bytes))
    && grid.Tick(grid.First(start) + |out|) >= end
  }

  /** ui/app/main.py:369-378 */
  method FillSeries(points: seq<Point>, start: int, end: int, grid: Grid) returns (out: seq<Point>)
    requires grid.width > 0
    ensures IsChart(out, points, start, end, grid)
  {
    var byTs: map<int, Bytes> := map[];
    for i := 0 to |points|
      invariant forall t <- byTs :: Point(t, byTs[t]) in points
      invariant forall j :: 0 <= j < i ==> points[j].ts in byTs
    {
      byTs := byTs[points[i].ts := points[i].bytes];
    }
    out := [];
    var t := (start + grid.tz) / grid.width * grid.width - grid.tz;
    while t < end
      invariant t == grid.Tick(grid.First(start) + |out|)
      invariant forall i :: 0 <= i < |out| ==> out[i].ts == grid.Tick(grid.First(start) + i) < end
      invariant forall i :: 0 <= i < |out| ==> Shows(points, out[i].ts, out[i].bytes)
      decreases end - t
    {
      var b := if t in byTs then byTs[t] else ZERO;
      assert Shows(points, t, b);
      out := out + [Point(t, b)];
      NextTick(grid, grid.First(start) + |out| - 1);
      t := t + grid.width;
    }
  }

  lemma NextTick(grid: Grid, k: int)
    ensures grid.Tick(k + 1) == grid.Tick(k) + grid.width
  {
  }

  ghost function ChartSum(out: seq<Point>, dir: bool): int {
    if out == [] then 0 else ChartSum(out[..|out| - 1], dir) + out[|out| - 1].bytes.Get(dir)
  }

  ghost predicate InStore(db: Store, s: Slot) {
    exists r: Row :: (r in db.minute || r in db.hour || r in db.day) && r.slot == s
  }

  /** No row of the range is before the epoch in local time. */
  ghost predicate East(db: Store, q: Range, tz: int) {
    forall s :: InStore(db, s) && q.Has(s) ==> s.ts + tz >= 0
  }

  lemma SplitBelow(t: Table, q: Range, grid: Grid, k: int, dir: bool)
    requires grid.width > 0
    ensures Sum(t, BelowBucket(q, grid, k + 1), dir)
         == Sum(t, BelowBucket(q, grid, k), dir) + Sum(t, InBucket(q, grid, k), dir)
  {
    SplitSum(t, BelowBucket(q, grid, k), InBucket(q, grid, k), BelowBucket(q, grid, k + 1), dir);
  }

  lemma Times(x: int, y: int, d: int)
    requires x >= y && d > 0
    ensures x * d >= y * d
  {
  }

  lemma Floor(a: int, b: int, d: int)
    requires d > 0 && a <= b
    ensures a / d <= b / d
  {
    if a / d > b / d {
      Times(a / d, b / d + 1, d);
      assert false;
    }
  }

  lemma EmptyBelow(t: Table, q: Range, grid: Grid, dir: bool)
    requires grid.width > 0 && forall r <- t :: q.Has(r.slot) ==> r.slot.ts + grid.tz >= 0
    ensures Sum(t, BelowBucket(q, grid, grid.First(q.start)), dir) == 0
  {
    var below := BelowBucket(q, grid, grid.First(q.start));
    forall r | r in t ensures !below(r.slot) {
      if q.Has(r.slot) { Floor(q.start + grid.tz, r.slot.ts + grid.tz, grid.width); }
    }
    NoRows(t, below, dir);
  }

  lemma LastBucket(ts: int, k: int, grid: Grid)
    requires grid.width > 0 && ts + grid.tz >= 0 && ts < grid.Tick(k)
    ensures grid.Index(ts) < k
  {
    var d := (ts + grid.tz) / grid.width;
    if d >= k {
      Times(d, k, grid.width);
      assert false;
    }
  }

  lemma AllBelow(t: Table, q: Range, grid: Grid, k: int, dir: bool)
    requires grid.width > 0 && (forall r <- t :: q.Has(r.slot) ==> r.slot.ts + grid.tz >= 0) && q.end <= grid.Tick(k)
    ensures Sum(t, BelowBucket(q, grid, k), dir) == Sum(t, q.Has, dir)
  {
    forall r | r in t ensures BelowBucket(q, grid, k)(r.slot) <==> q.Has(r.slot) {
      if q.Has(r.slot) { LastBucket(r.slot.ts, k, grid); }
    }
    SameSum(t, BelowBucket(q, grid, k), q.Has, dir);
  }

  lemma {:induction false} PartSums(points: seq<Point>, out: seq<Point>, db: Store, q: Range, grid: Grid, dir: bool)
    requires grid.width > 0 && East(db, q, grid.tz) && IsSeries(points, db, q, grid)
    requires forall i :: 0 <= i < |out| ==> out[i].ts == grid.Tick(grid.First(q.start) + i)
    requires forall i :: 0 <= i < |out| ==> Shows(points, out[i].ts, out[i].bytes)
    ensures ChartSum(out, dir) == SumStore(db, BelowBucket(q, grid, grid.First(q.start) + |out|), dir)
  {
    if out == [] {
      EmptyBelow(db.minute, q, grid, dir);
      EmptyBelow(db.hour, q, grid, dir);
      EmptyBelow(db.day, q, grid, dir);
    } else {
      var n := |out| - 1;
      PartSums(points, out[..n], db, q, grid, dir);
      var k := grid.First(q.start) + n;
      SplitBelow(db.minute, q, grid, k, dir);
      SplitBelow(db.hour, q, grid, k, dir);
      SplitBelow(db.day, q, grid, k, dir);
    }
  }

  /** The filled chart of the query sums to the totals of its range: every bucket of the range once, none besides. */
  lemma ChartSumsToTotals(out: seq<Point>, db: Store, q: Range, grid: Grid, dir: bool)
    requires grid.width > 0 && East(db, q, grid.tz) && IsChart(out, Series(db, q, grid), q.start, q.end, grid)
    ensures ChartSum(out, dir) == Totals(db, q, dir)
  {
    hide Series;
    SeriesIs(db, q, grid);
    PartSums(Series(db, q, grid), out, db, q, grid, dir);
    var k := grid.First(q.start) + |out|;
    AllBelow(db.minute, q, grid, k, dir);
    AllBelow(db.hour, q, grid, k, dir);
    AllBelow(db.day, q, grid, k, dir);
  }
}
