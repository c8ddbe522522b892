/** Login back-off: LoginLimiter in ui/app/auth.py. */
module LoginLimiter {
  /** One key of the table: failed attempts in a row, and the time before which it is held back. */
  datatype Entry = Entry(key: string, failures: nat, until: real)

  /** A key that an attempt counts for, with its threshold. */
  datatype Limit = Limit(key: string, threshold: int)

  datatype Params = Params(maxDelay: nat, maxKeys: nat, forget: nat)

  /** Keys in dictionary order, the oldest attempt first. */
  type Table = seq<Entry>

  ghost predicate Distinct(limits: seq<Limit>) {
    forall i, j :: 0 <= i < j < |limits| ==> limits[i].key != limits[j].key
  }

  function Find(t: Table, key: string): (i: nat)
    ensures i <= |t| && (i < |t| ==> t[i].key == key) && forall j :: 0 <= j < i ==> t[j].key != key
  {
    if t == [] || t[0].key == key then 0 else 1 + Find(t[1..], key)
  }

  /** The entry of a key; no failures if it has none. */
  function Get(t: Table, key: string): Entry {
    var i := Find(t, key);
    if i < |t| then t[i] else Entry(key, 0, 0.0)
  }

  /** The table without a key. */
  function Pop(t: Table, key: string): Table {
    var i := Find(t, key);
    if i < |t| then t[..i] + t[i + 1..] else t
  }

  function Pow2(n: nat): (p: nat)
    ensures p >= 1
  {
    if n == 0 then 1 else 2 * Pow2(n - 1)
  }

  function Delay(p: Params, threshold: int, failures: nat): nat {
    if failures < threshold then 0
    else if Pow2(failures - threshold + 1) < p.maxDelay then Pow2(failures - threshold + 1) else p.maxDelay
  }

  /** The entry of a key after one more attempt at `now`. */
  function Counted(p: Params, e: Entry, l: Limit, now: real): Entry {
    var failures := (if now - e.until > p.forget as real then 0 else e.failures) + 1;
    Entry(l.key, failures, now + Delay(p, l.threshold, failures) as real)
  }

  function CountLimit(p: Params, t: Table, l: Limit, now: real): Table {
    Pop(t, l.key) + [Counted(p, Get(t, l.key), l, now)]
  }

  function CountAll(p: Params, t: Table, limits: seq<Limit>, now: real): Table {
    if limits == [] then t
    else
      CountLimit(p, CountAll(p, t, limits[..|limits| - 1], now), limits[|limits| - 1], now)
  }

  function Newest(t: Table, n: nat): Table { if |t| > n then t[|t| - n..] else t }

  /** No key of the attempt is held back. */
  predicate Free(t: Table, limits: seq<Limit>, now: real) {
    forall i :: 0 <= i < |limits| ==> Get(t, limits[i].key).until <= now
  }

  function Attempted(p: Params, t: Table, limits: seq<Limit>, now: real): Table {
    if Free(t, limits, now) then Newest(CountAll(p, t, limits, now), p.maxKeys) else t
  }

  /** The shortest wait after which none of the keys is held back. */
  ghost predicate IsWait(t: Table, limits: seq<Limit>, now: real, wait: real) {
    && (forall i :: 0 <= i < |limits| ==> Get(t, limits[i].key).until - now <= wait)
    && (exists i :: 0 <= i < |limits| && Get(t, limits[i].key).until - now == wait)
  }

  method LongestWait(t: Table, limits: seq<Limit>, now: real) returns (wait: real)
    requires limits != []
    ensures IsWait(t, limits, now, wait) && (wait > 0.0 <==> !Free(t, limits, now))
  {
    wait := Get(t, limits[0].key).until - now;
    ghost var at := 0;
    for i := 1 to |limits|
      invariant at < i && Get(t, limits[at].key).until - now == wait
      invariant forall j :: 0 <= j < i ==> Get(t, limits[j].key).until - now <= wait
    {
      var w := Get(t, limits[i].key).until - now;
      if w > wait { wait, at := w, i; }
    }
  }

  method CountKey(p: Params, table: Table, l: Limit, now: real) returns (t: Table)
    ensures t == CountLimit(p, table, l, now)
  {
    var e := Get(table, l.key);
    var failures := e.failures;
    if now - e.until > p.forget as real { failures := 0; }
    failures := failures + 1;
    t := Pop(table, l.key) + [Entry(l.key, failures, now + Delay(p, l.threshold, failures) as real)];
  }

  method CountKeys(p: Params, table: Table, limits: seq<Limit>, now: real) returns (t: Table)
    ensures t == CountAll(p, table, limits, now)
  {
    t := table;
    for i := 0 to |limits|
      invariant t == CountAll(p, table, limits[..i], now)
    {
      assert limits[..i + 1][..i] == limits[..i];
      t := CountKey(p, t, limits[i], now);
    }
    assert limits[..|limits|] == limits;
  }

  /** ui/app/auth.py:133-134 */
  method DropOldest(table: Table, n: nat) returns (t: Table)
    ensures t == Newest(table, n)
  {
    t := table;
    while |t| > n
      invariant Newest(t, n) == Newest(table, n)
      decreases |t|
    {
      t := t[1..];
    }
  }

  class Limiter {
    const p: Params
    var table: Table

    /** A key has one entry, and there are no more entries than the limiter keeps. */
    ghost predicate Valid()
      reads this
    {
      DistinctKeys(table) && |table| <= p.maxKeys
    }

    constructor (p: Params)
      ensures this.p == p && table == [] && Valid()
    {
      this.p := p;
      table := [];
    }

    /** ui/app/auth.py:116-135: 0 when the attempt may go ahead, else the seconds to wait. */
    method Attempt(limits: seq<Limit>, now: real) returns (seconds: int)
      requires Valid() && limits != [] && Distinct(limits)
      modifies this
      ensures Valid()
      ensures table == Attempted(p, old(table), limits, now)
      ensures seconds >= 0 && (seconds == 0 <==> Free(old(table), limits, now))
      ensures seconds > 0 ==> exists wait: real :: IsWait(old(table), limits, now, wait) && seconds == wait.Floor + 1
    {
      hide CountAll, DistinctKeys, Get;
      var wait := LongestWait(table, limits, now);
      if wait > 0.0 { return wait.Floor + 1; }
      var t := CountKeys(p, table, limits, now);
      CountAllEntries(p, table, limits, now, "");
      NewestEntry(t, p.maxKeys, "");
      t := DropOldest(t, p.maxKeys);
      table := t;
      return 0;
    }

    /** ui/app/auth.py:137-139 */
    method Success(key: string)
      requires Valid()
      modifies this
      ensures Valid() && table == Pop(old(table), key) && !Has(table, key)
      ensures forall k :: k != key ==> Has(table, k) == Has(old(table), k) && Get(table, k) == Get(old(table), k)
    {
      PopEntry(table, key);
      table := Pop(table, key);
    }
  }

  /** An attempt repeated after the announced seconds goes ahead, and none does a second earlier. */
  lemma RetryGoesAhead(t: Table, limits: seq<Limit>, now: real, wait: real, later: real)
    requires IsWait(t, limits, now, wait)
    ensures later >= now + (wait.Floor + 1) as real ==> Free(t, limits, later)
    ensures later < now + wait.Floor as real ==> !Free(t, limits, later)
  {
  }

  // ---- runs ---------------------------------------------------------------

  datatype Event = Attempt(limits: seq<Limit>, now: real) | Success(key: string)

  ghost function Next(p: Params, t: Table, e: Event): Table {
    match e
    case Attempt(limits, now) => Attempted(p, t, limits, now)
    case Success(key) => Pop(t, key)
  }

  /** Any sequence of calls on a new limiter, with the table before and after each of them. */
  datatype Run = Run(p: Params, events: seq<Event>, tables: seq<Table>) {
    ghost predicate Valid() {
      && |tables| == |events| + 1 && tables[0] == []
      && forall i :: 0 <= i < |events| ==> Step(i)
    }

    ghost predicate Step(i: nat)
      requires i < |events| && |tables| == |events| + 1
    {
      tables[i + 1] == Next(p, tables[i], events[i]) && (events[i].Attempt? ==> Distinct(events[i].limits))
    }

    ghost predicate Admits(n: nat)
      requires n < |events| < |tables|
    {
      events[n].Attempt? && Free(tables[n], events[n].limits, events[n].now)
    }

    /** The keys of all admitted attempts, in order. */
    ghost function Admitted(n: nat): seq<string>
      requires n <= |events| < |tables|
    {
      if n == 0 then []
      else if Admits(n - 1) then Admitted(n - 1) + Keys(events[n - 1].limits)
      else Admitted(n - 1)
    }

    /** The keys that succeeded after their last admitted attempt. */
    ghost function Cleared(n: nat): set<string>
      requires n <= |events| < |tables|
    {
      if n == 0 then {}
      else if Admits(n - 1) then Cleared(n - 1) - KeySet(events[n - 1].limits)
      else if events[n - 1].Success? then Cleared(n - 1) + {events[n - 1].key}
      else Cleared(n - 1)
    }
  }

  ghost function KeySet(limits: seq<Limit>): set<string> { set l <- limits :: l.key }

  function Keys(limits: seq<Limit>): seq<string> {
    if limits == [] then [] else Keys(limits[..|limits| - 1]) + [limits[|limits| - 1].key]
  }

  // ---- order and size of the table ----------------------------------------

  /** Where a key occurs last in a list; -1 when it does not. */
  function Last(s: seq<string>, key: string): (i: int)
    ensures -1 <= i < |s| && (i >= 0 ==> s[i] == key) && forall j :: i < j < |s| ==> s[j] != key
  {
    if s == [] then -1
    else if s[|s| - 1] == key then |s| - 1
    else Last(s[..|s| - 1], key)
  }

  /** The keys of a table, by their last admitted attempt. */
  ghost predicate ByLastAttempt(t: Table, admitted: seq<string>) {
    && (forall i :: 0 <= i < |t| ==> t[i].key in admitted)
    && (forall i, j :: 0 <= i < j < |t| ==> Last(admitted, t[i].key) < Last(admitted, t[j].key))
  }

  lemma LastAppend(s: seq<string>, k: string, key: string)
    ensures Last(s + [k], key) == if key == k then |s| else Last(s, key)
  {
    assert (s + [k])[..|s|] == s;
  }

  /** Pop leaves the other entries in their order. */
  lemma PopAt(t: Table, key: string, i: nat) returns (j: nat)
    requires i < |Pop(t, key)|
    ensures j == (if i < Find(t, key) then i else i + 1) && j < |t| && j != Find(t, key)
    ensures Pop(t, key)[i] == t[j]
  {
    j := if i < Find(t, key) then i else i + 1;
  }

  lemma PopKeepsOrder(t: Table, admitted: seq<string>, key: string)
    requires ByLastAttempt(t, admitted)
    ensures ByLastAttempt(Pop(t, key), admitted)
    ensures forall i :: 0 <= i < |Pop(t, key)| ==> Pop(t, key)[i].key != key
  {
    var t' := Pop(t, key);
    forall i | 0 <= i < |t'|
      ensures t'[i].key in admitted && t'[i].key != key
    {
      var j := PopAt(t, key, i);
      assert Find(t, key) < |t| ==> Last(admitted, t[j].key) != Last(admitted, key);
    }
    forall a, b | 0 <= a < b < |t'|
      ensures Last(admitted, t'[a].key) < Last(admitted, t'[b].key)
    {
      var i := PopAt(t, key, a);
      var j := PopAt(t, key, b);
    }
  }

  lemma CountKeepsOrder(t: Table, admitted: seq<string>, e: Entry)
    requires ByLastAttempt(t, admitted)
    ensures ByLastAttempt(Pop(t, e.key) + [e], admitted + [e.key])
  {
    PopKeepsOrder(t, admitted, e.key);
    var t' := Pop(t, e.key);
    forall i | 0 <= i < |t'|
      ensures Last(admitted + [e.key], t'[i].key) == Last(admitted, t'[i].key) < |admitted|
    {
      LastAppend(admitted, e.key, t'[i].key);
    }
    LastAppend(admitted, e.key, e.key);
  }

  lemma {:induction false} CountAllKeepsOrder(p: Params, t: Table, admitted: seq<string>, limits: seq<Limit>, now: real)
    requires ByLastAttempt(t, admitted)
    ensures ByLastAttempt(CountAll(p, t, limits, now), admitted + Keys(limits))
  {
    if limits == [] {
      assert admitted + Keys(limits) == admitted;
    } else {
      var l, rest := limits[|limits| - 1], limits[..|limits| - 1];
      CountAllKeepsOrder(p, t, admitted, rest, now);
      var before := CountAll(p, t, rest, now);
      CountKeepsOrder(before, admitted + Keys(rest), Counted(p, Get(before, l.key), l, now));
      assert admitted + Keys(rest) + [l.key] == admitted + Keys(limits);
    }
  }

  lemma StepKeepsOrder(p: Params, t: Table, admitted: seq<string>, e: Event)
    requires ByLastAttempt(t, admitted) && |t| <= p.maxKeys
    ensures |Next(p, t, e)| <= p.maxKeys
    ensures ByLastAttempt(Next(p, t, e), if e.Attempt? && Free(t, e.limits, e.now) then admitted + Keys(e.limits) else admitted)
  {
    match e
    case Attempt(limits, now) => CountAllKeepsOrder(p, t, admitted, limits, now);
    case Success(key) => PopKeepsOrder(t, admitted, key);
  }

  /** The table is sorted by last admitted attempt, and bounded. */
  lemma {:induction false} OldestFirst(run: Run, n: nat)
    requires run.Valid() && n <= |run.events|
    ensures ByLastAttempt(run.tables[n], run.Admitted(n)) && |run.tables[n]| <= run.p.maxKeys
  {
    if n > 0 {
      OldestFirst(run, n - 1);
      assert run.Step(n - 1);
      StepKeepsOrder(run.p, run.tables[n - 1], run.Admitted(n - 1), run.events[n - 1]);
    }
  }

  // ---- what is evicted ----------------------------------------------------

  predicate Has(t: Table, key: string) { Find(t, key) < |t| }

  /** The last attempt on the key was before those on all keys of the table. */
  ghost predicate Older(t: Table, admitted: seq<string>, key: string) {
    forall i :: 0 <= i < |t| ==> Last(admitted, key) < Last(admitted, t[i].key)
  }

  /** A key that was attempted is in the table, was cleared, or is older than all that are there. */
  ghost predicate Kept(t: Table, admitted: seq<string>, cleared: set<string>) {
    forall key <- admitted :: key in cleared || Has(t, key) || Older(t, admitted, key)
  }

  lemma PopHas(t: Table, key: string, k: string)
    requires Has(t, k) && k != key
    ensures Has(Pop(t, key), k)
  {
    var i, f, t' := Find(t, k), Find(t, key), Pop(t, key);
    assert t'[if i < f then i else i - 1] == t[i];
  }

  lemma PopOlder(t: Table, admitted: seq<string>, key: string, k: string)
    requires Older(t, admitted, k)
    ensures Older(Pop(t, key), admitted, k)
  {
    forall i | 0 <= i < |Pop(t, key)| ensures Last(admitted, k) < Last(admitted, Pop(t, key)[i].key) {
      var j := PopAt(t, key, i);
    }
  }

  lemma PopKept(t: Table, admitted: seq<string>, cleared: set<string>, key: string)
    requires Kept(t, admitted, cleared)
    ensures Kept(Pop(t, key), admitted, cleared + {key})
  {
    forall k | k in admitted && k !in cleared && k != key ensures Has(Pop(t, key), k) || Older(Pop(t, key), admitted, k) {
      if Has(t, k) { PopHas(t, key, k); } else { PopOlder(t, admitted, key, k); }
    }
  }

  lemma AppendHas(t: Table, e: Entry, key: string)
    requires key == e.key || Has(t, key)
    ensures Has(t + [e], key)
  {
    assert (t + [e])[|t|] == e;
    if Has(t, key) { assert (t + [e])[Find(t, key)].key == key; }
  }

  lemma CountKept(t: Table, admitted: seq<string>, cleared: set<string>, e: Entry)
    requires Kept(t, admitted, cleared)
    ensures Kept(Pop(t, e.key) + [e], admitted + [e.key], cleared - {e.key})
  {
    PopKept(t, admitted, cleared, e.key);
    var t', admitted' := Pop(t, e.key), admitted + [e.key];
    forall k | k in admitted' && k !in cleared - {e.key} ensures Has(t' + [e], k) || Older(t' + [e], admitted', k) {
      if k == e.key || Has(t', k) { AppendHas(t', e, k); } else { AppendOlder(t', admitted, e, k); }
    }
  }

  lemma AppendOlder(t: Table, admitted: seq<string>, e: Entry, k: string)
    requires Older(t, admitted, k) && k != e.key
    ensures Older(t + [e], admitted + [e.key], k)
  {
    LastAppend(admitted, e.key, k);
    LastAppend(admitted, e.key, e.key);
    forall i | 0 <= i < |t| ensures Last(admitted + [e.key], k) < Last(admitted + [e.key], t[i].key) {
      LastAppend(admitted, e.key, t[i].key);
    }
  }

  lemma {:induction false} CountAllKept(p: Params, t: Table, admitted: seq<string>, cleared: set<string>,
                                        limits: seq<Limit>, now: real)
    requires Kept(t, admitted, cleared)
    ensures Kept(CountAll(p, t, limits, now), admitted + Keys(limits), cleared - KeySet(limits))
  {
    if limits == [] {
      assert admitted + Keys(limits) == admitted && cleared - KeySet(limits) == cleared;
    } else {
      var l, rest := limits[|limits| - 1], limits[..|limits| - 1];
      CountAllKept(p, t, admitted, cleared, rest, now);
      var before := CountAll(p, t, rest, now);
      CountKept(before, admitted + Keys(rest), cleared - KeySet(rest), Counted(p, Get(before, l.key), l, now));
      assert admitted + Keys(rest) + [l.key] == admitted + Keys(limits);
      assert limits == rest + [l];
      assert cleared - KeySet(rest) - {l.key} == cleared - KeySet(limits);
    }
  }

  /** Dropping entries from the front drops the oldest. */
  lemma NewestKept(t: Table, admitted: seq<string>, cleared: set<string>, n: nat)
    requires ByLastAttempt(t, admitted) && Kept(t, admitted, cleared)
    ensures Kept(Newest(t, n), admitted, cleared)
  {
    var t' := Newest(t, n);
    forall k | k in admitted && k !in cleared ensures Has(t', k) || Older(t', admitted, k) {
      if Has(t, k) && Find(t, k) >= |t| - |t'| { assert t'[Find(t, k) - (|t| - |t'|)].key == k; }
    }
  }

  lemma {:induction false} TableKept(run: Run, n: nat)
    requires run.Valid() && n <= |run.events|
    ensures Kept(run.tables[n], run.Admitted(n), run.Cleared(n))
  {
    if n > 0 {
      TableKept(run, n - 1);
      OldestFirst(run, n - 1);
      assert run.Step(n - 1);
      var t, admitted, cleared := run.tables[n - 1], run.Admitted(n - 1), run.Cleared(n - 1);
      match run.events[n - 1]
      case Success(key) => PopKept(t, admitted, cleared, key);
      case Attempt(limits, now) =>
        if run.Admits(n - 1) {
          CountAllKept(run.p, t, admitted, cleared, limits, now);
          CountAllKeepsOrder(run.p, t, admitted, limits, now);
          NewestKept(CountAll(run.p, t, limits, now), run.Admitted(n), run.Cleared(n), run.p.maxKeys);
        }
    }
  }

  /** Eviction drops the oldest: an attempted key that is gone, but not by a success, is older than every key that stayed. */
  lemma EvictedIsOldest(run: Run, n: nat, key: string, i: nat)
    requires run.Valid() && n <= |run.events| && i < |run.tables[n]|
    requires key in run.Admitted(n) && key !in run.Cleared(n) && !Has(run.tables[n], key)
    ensures Last(run.Admitted(n), key) < Last(run.Admitted(n), run.tables[n][i].key)
  {
    TableKept(run, n);
  }

  lemma {:induction false} CountAllHas(p: Params, t: Table, limits: seq<Limit>, now: real, key: string)
    requires Has(t, key)
    ensures Has(CountAll(p, t, limits, now), key)
  {
    if limits != [] {
      var l, before := limits[|limits| - 1], CountAll(p, t, limits[..|limits| - 1], now);
      CountAllHas(p, t, limits[..|limits| - 1], now, key);
      if l.key != key { PopHas(before, l.key, key); }
      AppendHas(Pop(before, l.key), Counted(p, Get(before, l.key), l, now), key);
    }
  }

  /** A key goes only by its success, or from a table that is full afterwards. */
  lemma EvictedWhenFull(run: Run, n: nat, key: string)
    requires run.Valid() && n < |run.events| && Has(run.tables[n], key) && !Has(run.tables[n + 1], key)
    ensures run.events[n] == Success(key) || (run.Admits(n) && |run.tables[n + 1]| == run.p.maxKeys)
  {
    assert run.Step(n);
    match run.events[n]
    case Success(k) => if k != key { PopHas(run.tables[n], k, key); }
    case Attempt(limits, now) => CountAllHas(run.p, run.tables[n], limits, now, key);
  }

  // ---- the back-off -------------------------------------------------------

  function Power(base: nat, n: nat): nat { if n == 0 then 1 else base * Power(base, n - 1) }

  function Lesser(a: nat, b: nat): nat { if a < b then a else b }

  /** The least time that n attempts in a row take: min(maxDelay, 2^(j - threshold + 1)) for each j from the threshold to n-1. */
  function Span(p: Params, threshold: int, n: nat): nat {
    if n <= 1 || n <= threshold then 0
    else Span(p, threshold, n - 1) + Lesser(p.maxDelay, Power(2, n - threshold))
  }

  /** How long a key is held back after n attempts in a row. */
  function HeldBack(p: Params, threshold: int, n: nat): nat {
    if n < threshold then 0 else Lesser(p.maxDelay, Power(2, n - threshold + 1))
  }

  lemma {:induction false} Pow2Is(n: nat)
    ensures Pow2(n) == Power(2, n)
  {
    if n > 0 { Pow2Is(n - 1); }
  }

  lemma DelayIs(p: Params, threshold: int, n: nat)
    ensures Delay(p, threshold, n) == HeldBack(p, threshold, n)
    ensures n > 0 ==> Span(p, threshold, n + 1) == Span(p, threshold, n) + Delay(p, threshold, n)
  {
    if n >= threshold { Pow2Is(n - threshold + 1); }
    if n > 0 && n < threshold {
      assert Span(p, threshold, n) == 0;
    }
  }

  lemma {:induction false} Pow2Monotone(a: nat, b: nat)
    requires a <= b
    ensures Pow2(a) <= Pow2(b)
  {
    if a < b { Pow2Monotone(a, b - 1); }
  }

  lemma DelayMonotone(p: Params, threshold: int, a: nat, b: nat)
    requires a <= b
    ensures Delay(p, threshold, a) <= Delay(p, threshold, b)
  {
    if a >= threshold { Pow2Monotone(a - threshold + 1, b - threshold + 1); }
  }

  /** The attempt counts for the key, with this threshold. */
  ghost predicate Counts(e: Event, key: string, threshold: int) {
    e.Attempt? && exists i :: 0 <= i < |e.limits| && e.limits[i] == Limit(key, threshold)
  }

  /** Admitted attempts on a key among events a to b. */
  ghost function Attempts(run: Run, key: string, threshold: int, a: nat, b: nat): nat
    requires a <= b <= |run.events| < |run.tables|
  {
    if a == b then 0
    else
      var before := Attempts(run, key, threshold, a, b - 1);
      if Counts(run.events[b - 1], key, threshold) && run.Admits(b - 1) then before + 1 else before
  }

  /** The key always has this threshold. */
  ghost predicate Uniform(run: Run, key: string, threshold: int) {
    forall n :: 0 <= n < |run.events| && run.events[n].Attempt? ==>
      forall i :: 0 <= i < |run.events[n].limits| && run.events[n].limits[i].key == key ==>
        run.events[n].limits[i].threshold == threshold
  }

  /** After event n the key is still in the table; the event neither cleared nor forgot it. */
  ghost predicate Keeps(run: Run, key: string, n: nat)
    requires n < |run.events| < |run.tables|
  {
    var e := run.events[n];
    && Has(run.tables[n + 1], key)
    && (e.Success? ==> e.key != key)
    && (e.Attempt? ==> e.now - Get(run.tables[n], key).until <= run.p.forget as real)
  }

  ghost predicate DistinctKeys(t: Table) { forall i, j :: 0 <= i < j < |t| ==> t[i].key != t[j].key }

  lemma GetIs(t: Table, e: Entry)
    requires DistinctKeys(t) && e in t
    ensures Has(t, e.key) && Get(t, e.key) == e
  {
  }

  lemma PopDistinct(t: Table, key: string)
    requires DistinctKeys(t)
    ensures DistinctKeys(Pop(t, key)) && !Has(Pop(t, key), key)
  {
    var f, t' := Find(t, key), Pop(t, key);
    assert forall i :: 0 <= i < |t'| ==> t'[i] == t[if i < f then i else i + 1];
  }

  lemma PopOther(t: Table, key: string, k: string)
    requires DistinctKeys(t) && k != key
    ensures Has(Pop(t, key), k) == Has(t, k) && Get(Pop(t, key), k) == Get(t, k)
  {
    PopDistinct(t, key);
    var i, f, t' := Find(t, k), Find(t, key), Pop(t, key);
    if Has(t, k) {
      assert t'[if i < f then i else i - 1] == t[i];
      GetIs(t', t[i]);
    } else if Has(t', k) {
      var j := PopAt(t, key, Find(t', k));
    }
  }

  lemma PopEntry(t: Table, key: string)
    requires DistinctKeys(t)
    ensures DistinctKeys(Pop(t, key)) && !Has(Pop(t, key), key)
    ensures forall k :: k != key ==> Has(Pop(t, key), k) == Has(t, k) && Get(Pop(t, key), k) == Get(t, k)
  {
    hide Pop, Has, Get, DistinctKeys;
    PopDistinct(t, key);
    forall k | k != key ensures Has(Pop(t, key), k) == Has(t, k) && Get(Pop(t, key), k) == Get(t, k) {
      PopOther(t, key, k);
    }
  }

  lemma AppendEntry(t: Table, e: Entry)
    requires DistinctKeys(t) && !Has(t, e.key)
    ensures DistinctKeys(t + [e]) && Has(t + [e], e.key) && Get(t + [e], e.key) == e
    ensures forall k :: k != e.key ==> Has(t + [e], k) == Has(t, k) && Get(t + [e], k) == Get(t, k)
  {
    GetIs(t + [e], e);
    forall k | k != e.key ensures Has(t + [e], k) == Has(t, k) && Get(t + [e], k) == Get(t, k) {
      if Has(t, k) { GetIs(t + [e], t[Find(t, k)]); }
    }
  }

  lemma CountOne(p: Params, t: Table, l: Limit, now: real, key: string)
    requires DistinctKeys(t)
    ensures var t' := CountLimit(p, t, l, now);
      && DistinctKeys(t')
      && Get(t', key) == if key == l.key then Counted(p, Get(t, key), l, now) else Get(t, key)
  {
    PopEntry(t, l.key);
    AppendEntry(Pop(t, l.key), Counted(p, Get(t, l.key), l, now));
  }

  /** What an attempt makes of the entry of one key. */
  function Renewed(p: Params, e: Entry, limits: seq<Limit>, now: real, key: string): Entry {
    if limits == [] then e
    else
      var before, l := Renewed(p, e, limits[..|limits| - 1], now, key), limits[|limits| - 1];
      if l.key == key then Counted(p, before, l, now) else before
  }

  lemma {:induction false} CountAllEntries(p: Params, t: Table, limits: seq<Limit>, now: real, key: string)
    requires DistinctKeys(t)
    ensures DistinctKeys(CountAll(p, t, limits, now))
    ensures Get(CountAll(p, t, limits, now), key) == Renewed(p, Get(t, key), limits, now, key)
  {
    if limits != [] {
      var rest := limits[..|limits| - 1];
      CountAllEntries(p, t, rest, now, key);
      CountOne(p, CountAll(p, t, rest, now), limits[|limits| - 1], now, key);
    }
  }

  lemma {:induction false} RenewedOther(p: Params, e: Entry, limits: seq<Limit>, now: real, key: string)
    requires forall i :: 0 <= i < |limits| ==> limits[i].key != key
    ensures Renewed(p, e, limits, now, key) == e
  {
    if limits != [] { RenewedOther(p, e, limits[..|limits| - 1], now, key); }
  }

  /** Counting an attempt renews the entries of its keys once, and no other. */
  lemma {:induction false} RenewedOnce(p: Params, e: Entry, limits: seq<Limit>, now: real, i: nat)
    requires Distinct(limits) && i < |limits|
    ensures Renewed(p, e, limits, now, limits[i].key) == Counted(p, e, limits[i], now)
  {
    var n := |limits| - 1;
    if i == n {
      RenewedOther(p, e, limits[..n], now, limits[i].key);
    } else {
      RenewedOnce(p, e, limits[..n], now, i);
    }
  }

  lemma NewestEntry(t: Table, n: nat, key: string)
    requires DistinctKeys(t)
    ensures DistinctKeys(Newest(t, n))
    ensures Has(Newest(t, n), key) ==> Get(Newest(t, n), key) == Get(t, key)
  {
    var t' := Newest(t, n);
    if Has(t', key) {
      assert t'[Find(t', key)] in t;
      GetIs(t, t'[Find(t', key)]);
    }
  }

  lemma {:induction false} TableDistinct(run: Run, n: nat)
    requires run.Valid() && n <= |run.events|
    ensures DistinctKeys(run.tables[n])
  {
    if n > 0 {
      TableDistinct(run, n - 1);
      assert run.Step(n - 1);
      match run.events[n - 1]
      case Attempt(limits, now) =>
        CountAllEntries(run.p, run.tables[n - 1], limits, now, "");
        NewestEntry(CountAll(run.p, run.tables[n - 1], limits, now), run.p.maxKeys, "");
      case Success(key) => PopEntry(run.tables[n - 1], key);
    }
  }

  /** What one event does to the entry of a key that stays in the table. */
  lemma EntryStep(run: Run, key: string, threshold: int, n: nat)
    requires run.Valid() && Uniform(run, key, threshold) && n < |run.events| && Has(run.tables[n + 1], key)
    requires run.events[n].Success? ==> run.events[n].key != key
    ensures var e, e' := Get(run.tables[n], key), Get(run.tables[n + 1], key);
      if Counts(run.events[n], key, threshold) && run.Admits(n)
      then e.until <= run.events[n].now && e' == Counted(run.p, e, Limit(key, threshold), run.events[n].now)
      else e' == e
  {
    TableDistinct(run, n);
    assert run.Step(n);
    var t := run.tables[n];
    match run.events[n]
    case Success(k) => PopEntry(t, k);
    case Attempt(limits, now) =>
      if run.Admits(n) {
        CountAllEntries(run.p, t, limits, now, key);
        NewestEntry(CountAll(run.p, t, limits, now), run.p.maxKeys, key);
        if i :| 0 <= i < |limits| && limits[i].key == key {
          assert limits[i] == Limit(key, threshold);
          RenewedOnce(run.p, Get(t, key), limits, now, i);
        } else {
          RenewedOther(run.p, Get(t, key), limits, now, key);
        }
      }
  }

  /** The time of the last admitted attempt on the key from event a on. */
  ghost function LastTime(run: Run, key: string, threshold: int, a: nat, b: nat): real
    requires a < b <= |run.events| < |run.tables| && run.events[a].Attempt?
  {
    if Counts(run.events[b - 1], key, threshold) && run.Admits(b - 1) then run.events[b - 1].now
    else if b == a + 1 then run.events[a].now
    else LastTime(run, key, threshold, a, b - 1)
  }

  /** The key had no entry at event a, or one that was forgotten. */
  ghost predicate First(run: Run, key: string, a: nat)
    requires a < |run.events| < |run.tables| && run.events[a].Attempt?
  {
    !Has(run.tables[a], key) || run.events[a].now - Get(run.tables[a], key).until > run.p.forget as real
  }

  lemma {:induction false} BackoffStep(run: Run, key: string, threshold: int, a: nat, b: nat)
    requires run.Valid() && Uniform(run, key, threshold) && a < b <= |run.events|
    requires Counts(run.events[a], key, threshold) && run.Admits(a) && Has(run.tables[a + 1], key)
    requires forall i :: a < i < b ==> Keeps(run, key, i)
    ensures Has(run.tables[b], key)
    ensures var e, n, last := Get(run.tables[b], key), Attempts(run, key, threshold, a, b), LastTime(run, key, threshold, a, b);
      && 1 <= n <= e.failures
      && e.until == last + Delay(run.p, threshold, e.failures) as real
      && (First(run, key, a) ==> e.failures == n)
      && last - run.events[a].now >= Span(run.p, threshold, n) as real
  {
    assert b > a + 1 ==> Keeps(run, key, b - 1);
    EntryStep(run, key, threshold, b - 1);
    if b == a + 1 {
      assert Attempts(run, key, threshold, a, a) == 0;
    } else {
      BackoffStep(run, key, threshold, a, b - 1);
      var n := Attempts(run, key, threshold, a, b - 1);
      DelayMonotone(run.p, threshold, n, Get(run.tables[b - 1], key).failures);
      DelayIs(run.p, threshold, n);
    }
  }

  /**
   * N admitted attempts on a key, with no success, eviction or forgetting between, take at least the delays
   * min(maxDelay, 2^(j - threshold + 1)) for j from the threshold to N - 1.
   */
  lemma Backoff(run: Run, key: string, threshold: int, a: nat, b: nat)
    requires run.Valid() && Uniform(run, key, threshold) && a < b < |run.events|
    requires Counts(run.events[a], key, threshold) && run.Admits(a) && Has(run.tables[a + 1], key)
    requires Counts(run.events[b], key, threshold) && run.Admits(b)
    requires forall i :: a < i <= b ==> Keeps(run, key, i)
    ensures run.events[b].now - run.events[a].now
         >= Span(run.p, threshold, Attempts(run, key, threshold, a, b + 1)) as real
  {
    BackoffStep(run, key, threshold, a, b + 1);
  }

  /**
   * The delays are exact: after N attempts in a row, the first of them counted anew, the next one on the key alone goes
   * ahead exactly if min(maxDelay, 2^(N - threshold + 1)) seconds have passed since the last, and at once below the threshold.
   */
  lemma NextAttempt(run: Run, key: string, threshold: int, a: nat, b: nat)
    requires run.Valid() && Uniform(run, key, threshold) && a < b < |run.events|
    requires Counts(run.events[a], key, threshold) && run.Admits(a) && Has(run.tables[a + 1], key) && First(run, key, a)
    requires forall i :: a < i < b ==> Keeps(run, key, i)
    requires run.events[b].Attempt? && run.events[b].limits == [Limit(key, threshold)]
    ensures var n, last := Attempts(run, key, threshold, a, b), LastTime(run, key, threshold, a, b);
      run.Admits(b) <==> run.events[b].now >= last + HeldBack(run.p, threshold, n) as real
  {
    BackoffStep(run, key, threshold, a, b);
    DelayIs(run.p, threshold, Attempts(run, key, threshold, a, b));
    assert run.events[b].limits[0].key == key;
  }
}
