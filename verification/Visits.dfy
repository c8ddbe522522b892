/** Reconnects merged into visits: session_group, insert_session and group_sessions of ui/app/db.py. */
module Visits {
  const MERGE_GAP := 15 * 60
  const RECENT := 20

  /** A client and the IP it came from. */
  datatype Key = Key(client: string, ip: string)

  datatype Session = Session(key: Key, start: int, end: int)

  /** Sessions in the order of the query, (connected_at, id); a session's id is its place. */
  ghost predicate Ordered(rows: seq<Session>) {
    && (forall i, j :: 0 <= i < j < |rows| ==> rows[i].start <= rows[j].start)
    && (forall i :: 0 <= i < |rows| ==> 0 <= rows[i].start <= rows[i].end)
  }

  // ---- what a visit is ----------------------------------------------------

  /** Row j starts at most MERGE_GAP after the earlier row i of the same client and IP has ended. */
  ghost predicate Continues(rows: seq<Session>, i: int, j: int) {
    0 <= i < j < |rows| && rows[i].key == rows[j].key && rows[j].start - rows[i].end <= MERGE_GAP
  }

  /** A labelling with visits: linked rows share one, and each is held together by such links from its first row. */
  ghost predicate IsVisits(rows: seq<Session>, grp: seq<nat>) {
    && |grp| == |rows|
    && (forall i, j :: Continues(rows, i, j) ==> grp[i] == grp[j])
    && (forall j {:trigger Held(rows, grp, j)} :: 0 <= j < |rows| ==> Held(rows, grp, j))
  }

  /** Row j is the first of its visit, or continues an earlier row of it. */
  ghost predicate Held(rows: seq<Session>, grp: seq<nat>, j: nat)
    requires j < |rows| == |grp|
  {
    grp[j] == j || exists i :: Continues(rows, i, j) && grp[i] == grp[j]
  }

  /** The visits are determined: two labellings agree on every row. */
  lemma {:induction false} VisitsAreUnique(rows: seq<Session>, a: seq<nat>, b: seq<nat>, j: nat)
    requires IsVisits(rows, a) && IsVisits(rows, b) && j < |rows|
    ensures a[j] == b[j]
  {
    assert Held(rows, a, j) && Held(rows, b, j);
    if exists i :: Continues(rows, i, j) {
      var i :| Continues(rows, i, j);
      VisitsAreUnique(rows, a, b, i);
    }
  }

  lemma {:induction false} FirstOfVisit(rows: seq<Session>, grp: seq<nat>, j: nat)
    requires IsVisits(rows, grp) && j < |rows|
    ensures grp[j] <= j && grp[grp[j]] == grp[j] && rows[grp[j]].key == rows[j].key
  {
    assert Held(rows, grp, j);
    if grp[j] != j {
      var i :| Continues(rows, i, j) && grp[i] == grp[j];
      FirstOfVisit(rows, grp, i);
    }
  }

  /** Different visits of one client and IP are more than MERGE_GAP apart. */
  lemma VisitsApart(rows: seq<Session>, grp: seq<nat>, i: nat, j: nat)
    requires IsVisits(rows, grp) && i < j < |rows| && rows[i].key == rows[j].key && grp[i] != grp[j]
    ensures rows[j].start - rows[i].end > MERGE_GAP
  {
    assert !Continues(rows, i, j);
  }

  // ---- batch grouping -----------------------------------------------------

  /** The visit of a key that can go on, and the latest end of its sessions. */
  datatype Entry = Entry(grp: nat, ended: int)

  /** What the dictionary knows after n rows: for each key the visit that can go on, and its latest end. */
  ghost predicate Tracks(rows: seq<Session>, grp: seq<nat>, n: nat, last: map<Key, Entry>)
    requires n <= |rows| && n <= |grp|
  {
    && (forall i :: 0 <= i < n ==> rows[i].key in last && Known(rows, grp, n, last[rows[i].key], i))
    && (forall key {:trigger HasLatest(rows, grp, n, last, key)} :: key in last ==> HasLatest(rows, grp, n, last, key))
  }

  ghost predicate HasLatest(rows: seq<Session>, grp: seq<nat>, n: nat, last: map<Key, Entry>, key: Key)
    requires n <= |rows| && n <= |grp| && key in last
  {
    exists i :: 0 <= i < n && Latest(rows[i], grp[i], key, last[key])
  }

  /** Row i has ended by the recorded time, and is of the open visit or too long over to be continued. */
  ghost predicate Known(rows: seq<Session>, grp: seq<nat>, n: nat, entry: Entry, i: nat)
    requires i < n <= |rows| && n <= |grp|
  {
    rows[i].end <= entry.ended && (grp[i] == entry.grp || rows[n - 1].start - rows[i].end > MERGE_GAP)
  }

  ghost predicate Latest(r: Session, g: nat, key: Key, entry: Entry) {
    r.key == key && r.end == entry.ended && g == entry.grp
  }

  /** The visit a row joins, given the entry of its key. */
  function Join(last: map<Key, Entry>, r: Session, id: nat): nat {
    var key := r.key;
    if key in last && r.start - last[key].ended <= MERGE_GAP then last[key].grp else id
  }

  function Update(last: map<Key, Entry>, r: Session, id: nat): map<Key, Entry> {
    var key := r.key;
    var ended := if key in last then last[key].ended else 0;
    last[key := Entry(Join(last, r, id), if ended > r.end then ended else r.end)]
  }

  lemma {:induction false} JoinIsVisit(rows: seq<Session>, grp: seq<nat>, n: nat, last: map<Key, Entry>)
    requires Ordered(rows) && n < |rows| && |grp| == n && IsVisits(rows[..n], grp) && Tracks(rows, grp, n, last)
    ensures IsVisits(rows[..n + 1], grp + [Join(last, rows[n], n)])
  {
    var now, before, g := rows[..n + 1], rows[..n], Join(last, rows[n], n);
    var grp' := grp + [g];
    forall i, j | Continues(now, i, j)
      ensures grp'[i] == grp'[j]
    {
      if j < n {
        assert Continues(before, i, j);
      } else {
        assert Known(rows, grp, n, last[rows[i].key], i) && rows[i].key == rows[n].key;
      }
    }
    forall j | 0 <= j < n + 1
      ensures Held(now, grp', j)
    {
      if j < n && grp[j] != j {
        assert Held(before, grp, j);
        var i :| Continues(before, i, j) && grp[i] == grp[j];
        assert Continues(now, i, j);
      } else if j == n && g != n {
        assert HasLatest(rows, grp, n, last, rows[n].key);
        var i :| 0 <= i < n && Latest(rows[i], grp[i], rows[n].key, last[rows[n].key]);
        assert Continues(now, i, n);
      }
    }
  }

  lemma {:induction false} JoinKnown(rows: seq<Session>, grp: seq<nat>, n: nat, last: map<Key, Entry>, i: nat)
    requires Ordered(rows) && i <= n < |rows| && |grp| == n && Tracks(rows, grp, n, last)
    ensures rows[i].key in Update(last, rows[n], n)
    ensures Known(rows, grp + [Join(last, rows[n], n)], n + 1, Update(last, rows[n], n)[rows[i].key], i)
  {
    if i < n {
      assert Known(rows, grp, n, last[rows[i].key], i);
      assert rows[n - 1].start <= rows[n].start;
    }
  }

  lemma {:induction false} JoinLatest(rows: seq<Session>, grp: seq<nat>, n: nat, last: map<Key, Entry>, k: Key)
    returns (i: nat)
    requires Ordered(rows) && n < |rows| && |grp| == n && Tracks(rows, grp, n, last)
    requires k in Update(last, rows[n], n)
    ensures i <= n && Latest(rows[i], (grp + [Join(last, rows[n], n)])[i], k, Update(last, rows[n], n)[k])
  {
    i := n;
    if k in last && (k != rows[n].key || last[k].ended > rows[n].end) {
      assert HasLatest(rows, grp, n, last, k);
      i :| 0 <= i < n && Latest(rows[i], grp[i], k, last[k]);
    }
  }

  lemma {:induction false} JoinTracks(rows: seq<Session>, grp: seq<nat>, n: nat, last: map<Key, Entry>)
    requires Ordered(rows) && n < |rows| && |grp| == n && Tracks(rows, grp, n, last)
    ensures Tracks(rows, grp + [Join(last, rows[n], n)], n + 1, Update(last, rows[n], n))
  {
    var grp', last' := grp + [Join(last, rows[n], n)], Update(last, rows[n], n);
    forall i | 0 <= i < n + 1
      ensures rows[i].key in last' && Known(rows, grp', n + 1, last'[rows[i].key], i)
    {
      JoinKnown(rows, grp, n, last, i);
    }
    forall k | k in last'
      ensures HasLatest(rows, grp', n + 1, last', k)
    {
      var i := JoinLatest(rows, grp, n, last, k);
    }
  }

  /** ui/app/db.py:476-491 */
  method GroupSessions(rows: seq<Session>) returns (grp: seq<nat>)
    requires Ordered(rows)
    ensures IsVisits(rows, grp)
  {
    var last: map<Key, Entry> := map[];
    grp := [];
    for n := 0 to |rows|
      invariant |grp| == n
      invariant IsVisits(rows[..n], grp)
      invariant Tracks(rows, grp, n, last)
    {
      var r := rows[n];
      var key := r.key;
      var g, ended := n, 0;
      if key in last {
        g, ended := last[key].grp, last[key].ended;
        if r.start - ended > MERGE_GAP { g := n; }
      }
      JoinIsVisit(rows, grp, n, last);
      JoinTracks(rows, grp, n, last);
      assert g == Join(last, r, n);
      last := last[key := Entry(g, if ended > r.end then ended else r.end)];
      grp := grp + [g];
    }
    assert rows[..|rows|] == rows;
  }

  // ---- insert-time grouping -----------------------------------------------

  ghost predicate Within(ids: seq<nat>, n: nat) { forall k :: 0 <= k < |ids| ==> ids[k] < n }

  /** Sessions of one client, among the first n. */
  ghost predicate AllOf(rows: seq<Session>, client: string, ids: seq<nat>, n: nat)
    requires n <= |rows|
  {
    Within(ids, n) && forall k :: 0 <= k < |ids| ==> rows[ids[k]].key.client == client
  }

  /** Puts the newest id into a list sorted by (connected_at, id), latest first. */
  function Place(rows: seq<Session>, order: seq<nat>, id: nat): seq<nat>
    requires id < |rows| && Within(order, |rows|)
  {
    if order == [] || rows[order[0]].start <= rows[id].start then [id] + order
    else [order[0]] + Place(rows, order[1..], id)
  }

  /** The sessions of a client among the first n rows, latest start and highest id first. */
  function OfClient(rows: seq<Session>, client: string, n: nat): (ids: seq<nat>)
    requires n <= |rows|
    ensures AllOf(rows, client, ids, n)
  {
    if n == 0 then []
    else
      var before := OfClient(rows, client, n - 1);
      if rows[n - 1].key.client != client then before
      else PlaceIn(rows, client, before, n - 1); Place(rows, before, n - 1)
  }

  lemma {:induction false} PlaceIn(rows: seq<Session>, client: string, order: seq<nat>, id: nat)
    requires id < |rows| && rows[id].key.client == client
    requires AllOf(rows, client, order, id)
    ensures AllOf(rows, client, Place(rows, order, id), id + 1)
  {
    if order != [] && rows[order[0]].start > rows[id].start {
      PlaceIn(rows, client, order[1..], id);
    }
  }

  function Recent(rows: seq<Session>, client: string, n: nat): (ids: seq<nat>)
    requires n <= |rows|
    ensures AllOf(rows, client, ids, n)
  {
    var ids := OfClient(rows, client, n);
    if |ids| > RECENT then ids[..RECENT] else ids
  }

  /** The visit a new session continues, or its own id when it starts one; `ends` are the ends as the table has them. */
  function SessionGroup(rows: seq<Session>, ends: seq<int>, grp: seq<nat>, ids: seq<nat>, s: Session, id: nat): nat
    requires |grp| <= |rows| && |grp| <= |ends| && Within(ids, |grp|)
  {
    if ids == [] then id
    else if rows[ids[0]].key.ip == s.key.ip then
      if s.start - ends[ids[0]] <= MERGE_GAP then grp[ids[0]] else id
    else SessionGroup(rows, ends, grp, ids[1..], s, id)
  }

  function Ends(rows: seq<Session>): seq<int> { seq(|rows|, i requires 0 <= i < |rows| => rows[i].end) }

  /** ui/app/db.py:451-474 */
  method InsertSession(rows: seq<Session>, grp: seq<nat>, s: Session) returns (rows': seq<Session>, grp': seq<nat>)
    requires |grp| == |rows|
    ensures rows' == rows + [s]
    ensures grp' == grp + [SessionGroup(rows, Ends(rows), grp, Recent(rows, s.key.client, |rows|), s, |rows|)]
  {
    var ids := Recent(rows, s.key.client, |rows|);
    var g := |rows|;
    var k := 0;
    while k < |ids|
      invariant 0 <= k <= |ids| && g == |rows|
      invariant SessionGroup(rows, Ends(rows), grp, ids, s, |rows|) == SessionGroup(rows, Ends(rows), grp, ids[k..], s, |rows|)
    {
      if rows[ids[k]].key.ip == s.key.ip {
        if s.start - rows[ids[k]].end <= MERGE_GAP { g := grp[ids[k]]; }
        break;
      }
      k := k + 1;
    }
    return rows + [s], grp + [g];
  }

  /**
   * The ends of earlier sessions that the table has when each session is inserted. They may move later: a session that
   * is open, or that is reopened after an outage, ends at last where `rows` says.
   */
  ghost predicate Stored(rows: seq<Session>, ends: seq<seq<int>>) {
    && |ends| == |rows| && (forall j :: 0 <= j < |ends| ==> |ends[j]| == j)
    && (forall i, j :: 0 <= i < j < |rows| ==> ends[j][i] <= rows[i].end)
  }

  /** The visits of sessions that were inserted one after the other. */
  function Inserted(rows: seq<Session>, ends: seq<seq<int>>, n: nat): (grp: seq<nat>)
    requires n <= |rows| && n <= |ends| && forall j :: 0 <= j < n ==> |ends[j]| >= j
    ensures |grp| == n
  {
    if n == 0 then []
    else
      var grp := Inserted(rows, ends, n - 1);
      grp + [SessionGroup(rows, ends[n - 1], grp, Recent(rows, rows[n - 1].key.client, n - 1), rows[n - 1], n - 1)]
  }

  /** Row i is the last before row j of the same client and IP. */
  ghost predicate Predecessor(rows: seq<Session>, i: int, j: int) {
    && 0 <= i < j < |rows| && rows[i].key == rows[j].key
    && (forall k :: i < k < j ==> rows[k].key != rows[j].key)
  }

  ghost predicate Falling(ids: seq<nat>) { forall a, b :: 0 <= a < b < |ids| ==> ids[a] > ids[b] }

  /** In start order, the query returns the latest ids first. */
  lemma {:induction false} LatestFirst(rows: seq<Session>, client: string, n: nat)
    requires Ordered(rows) && n <= |rows|
    ensures Falling(OfClient(rows, client, n))
  {
    if n > 0 { LatestFirst(rows, client, n - 1); }
  }

  /** The scan stops at the predecessor, and finds nothing when there is none. */
  lemma {:induction false} ScanFinds(rows: seq<Session>, ends: seq<int>, grp: seq<nat>, ids: seq<nat>, n: nat, i: int)
    requires n < |rows| && |grp| == n <= |ends| && Falling(ids)
    requires AllOf(rows, rows[n].key.client, ids, n)
    requires if i in ids then Predecessor(rows, i, n) else forall x <- ids :: rows[x].key != rows[n].key
    ensures SessionGroup(rows, ends, grp, ids, rows[n], n)
         == if i in ids && rows[n].start - ends[i] <= MERGE_GAP then grp[i] else n
  {
    if ids != [] && ids[0] != i {
      assert rows[ids[0]].key != rows[n].key by {
        if i in ids {
          var a :| 0 <= a < |ids| && ids[a] == i;
          assert ids[0] > i;
        }
      }
      assert ids == [ids[0]] + ids[1..];
      ScanFinds(rows, ends, grp, ids[1..], n, i);
    }
  }

  lemma {:induction false} FindPredecessor(rows: seq<Session>, n: nat, m: nat) returns (i: int)
    requires m <= n < |rows| && forall k :: m <= k < n ==> rows[k].key != rows[n].key
    ensures Predecessor(rows, i, n) || (i == -1 && forall k :: 0 <= k < n ==> rows[k].key != rows[n].key)
  {
    if m == 0 {
      i := -1;
    } else if rows[m - 1].key == rows[n].key {
      i := m - 1;
    } else {
      i := FindPredecessor(rows, n, m - 1);
    }
  }

  /** Every session of the client is in the list. */
  lemma {:induction false} OfClientHas(rows: seq<Session>, client: string, n: nat, i: nat)
    requires i < n <= |rows| && rows[i].key.client == client
    ensures i in OfClient(rows, client, n)
  {
    var before := OfClient(rows, client, n - 1);
    if rows[n - 1].key.client == client { PlaceHas(rows, before, n - 1, i); }
    if i < n - 1 { OfClientHas(rows, client, n - 1, i); }
  }

  lemma {:induction false} PlaceHas(rows: seq<Session>, order: seq<nat>, id: nat, i: nat)
    requires id < |rows| && Within(order, |rows|)
    ensures i in Place(rows, order, id) <==> i == id || i in order
  {
    if order != [] {
      assert order == [order[0]] + order[1..];
      if rows[order[0]].start > rows[id].start { PlaceHas(rows, order[1..], id, i); }
    }
  }

  /** If the last 20 sessions of the client hold one of the key, they hold the latest. */
  lemma RecentHas(rows: seq<Session>, n: nat, p: nat, x: nat)
    requires Ordered(rows) && n < |rows| && Predecessor(rows, p, n)
    requires x in Recent(rows, rows[n].key.client, n) && rows[x].key == rows[n].key
    ensures p in Recent(rows, rows[n].key.client, n)
  {
    var client := rows[n].key.client;
    var all := OfClient(rows, client, n);
    OfClientHas(rows, client, n, p);
    LatestFirst(rows, client, n);
    var a :| 0 <= a < |all| && all[a] == p;
    var b :| 0 <= b < |Recent(rows, client, n)| && Recent(rows, client, n)[b] == x;
    assert all[b] == x <= p;
    assert a <= b;
  }

  /** The sessions of a client from row p up to row n. */
  function Later(rows: seq<Session>, client: string, p: nat, n: nat): nat
    requires p <= n <= |rows|
  {
    if p == n then 0 else Later(rows, client, p, n - 1) + if rows[n - 1].key.client == client then 1 else 0
  }

  lemma FrontPlace(rows: seq<Session>, order: seq<nat>, id: nat)
    requires id < |rows| && Within(order, |rows|) && forall x <- order :: rows[x].start <= rows[id].start
    ensures Place(rows, order, id) == [id] + order
  {
  }

  lemma ListGrows(rows: seq<Session>, client: string, n: nat)
    requires Ordered(rows) && 0 < n <= |rows|
    ensures OfClient(rows, client, n)
         == (if rows[n - 1].key.client == client then [n - 1] else []) + OfClient(rows, client, n - 1)
  {
    var before := OfClient(rows, client, n - 1);
    if rows[n - 1].key.client == client { FrontPlace(rows, before, n - 1); } else { assert [] + before == before; }
  }

  /** In start order a session is as far down the list as there are later ones of the client. */
  lemma {:induction false} PlaceInList(rows: seq<Session>, client: string, n: nat, p: nat)
    requires Ordered(rows) && p < n <= |rows| && rows[p].key.client == client
    ensures var ids, k := OfClient(rows, client, n), Later(rows, client, p + 1, n); k < |ids| && ids[k] == p
  {
    hide OfClient, Ordered;
    ListGrows(rows, client, n);
    if p < n - 1 {
      PlaceInList(rows, client, n - 1, p);
    } else {
      assert Later(rows, client, n, n) == 0;
    }
  }

  /** The query finds a session exactly if fewer than 20 of the client are later. */
  lemma RecentIs(rows: seq<Session>, client: string, n: nat, p: nat)
    requires Ordered(rows) && n <= |rows|
    ensures p in Recent(rows, client, n) <==> p < n && rows[p].key.client == client && Later(rows, client, p + 1, n) < 20
  {
    var ids := OfClient(rows, client, n);
    LatestFirst(rows, client, n);
    if p < n && rows[p].key.client == client { PlaceInList(rows, client, n, p); }
    if p in Recent(rows, client, n) {
      var k :| 0 <= k < |Recent(rows, client, n)| && Recent(rows, client, n)[k] == p;
      assert ids[k] == p;
    }
  }

  /** The table shows, when row n is inserted, that it continues row p. */
  predicate Joins(rows: seq<Session>, ends: seq<seq<int>>, p: int, n: nat)
    requires n < |rows| && n < |ends| && |ends[n]| >= n
  {
    0 <= p < n && p in Recent(rows, rows[n].key.client, n) && rows[n].start - ends[n][p] <= MERGE_GAP
  }

  /** What the insertion of row n, in start order, makes of its predecessor. */
  lemma InsertedAt(rows: seq<Session>, ends: seq<seq<int>>, n: nat, p: int)
    requires Ordered(rows) && Stored(rows, ends) && n < |rows|
    requires Predecessor(rows, p, n) || (p == -1 && forall k :: 0 <= k < n ==> rows[k].key != rows[n].key)
    ensures Inserted(rows, ends, n + 1)[n] == if Joins(rows, ends, p, n) then Inserted(rows, ends, n)[p] else n
  {
    var client := rows[n].key.client;
    var ids := Recent(rows, client, n);
    LatestFirst(rows, client, n);
    if p !in ids {
      forall x | x in ids ensures rows[x].key != rows[n].key {
        if rows[x].key == rows[n].key && p >= 0 { RecentHas(rows, n, p, x); }
      }
    }
    ScanFinds(rows, ends[n], Inserted(rows, ends, n), ids, n, p);
  }

  /**
   * A session that continues any other continues the latest of its key, as far as the table shows, and that is among the
   * last 20 of the client.
   */
  ghost predicate Chained(rows: seq<Session>, ends: seq<seq<int>>, j: nat)
    requires j < |rows| && j < |ends| && |ends[j]| >= j
  {
    (exists i :: Continues(rows, i, j)) ==> exists p: nat :: Predecessor(rows, p, j) && Joins(rows, ends, p, j)
  }

  ghost predicate AllChained(rows: seq<Session>, ends: seq<seq<int>>, n: nat)
    requires n <= |rows| && Stored(rows, ends)
  {
    forall j: nat {:trigger Chained(rows, ends, j)} :: j < n ==> Chained(rows, ends, j)
  }

  /** Joining the predecessor is joining every session that the new one continues. */
  lemma ExtendVisits(rows: seq<Session>, grp: seq<nat>, n: nat, p: int, g: nat)
    requires Ordered(rows) && n < |rows| && |grp| == n && IsVisits(rows[..n], grp)
    requires if p >= 0 then Predecessor(rows, p, n) && Continues(rows, p, n) && g == grp[p]
             else g == n && forall i :: !Continues(rows, i, n)
    ensures IsVisits(rows[..n + 1], grp + [g])
  {
    var now, before, grp' := rows[..n + 1], rows[..n], grp + [g];
    forall a, b | Continues(now, a, b)
      ensures grp'[a] == grp'[b]
    {
      if b < n {
        assert Continues(before, a, b);
      } else {
        assert Continues(rows, a, n);
        if a != p { assert Continues(before, a, p); }
      }
    }
    forall j | 0 <= j < n + 1
      ensures Held(now, grp', j)
    {
      if j < n && grp[j] != j {
        assert Held(before, grp, j);
        var k :| Continues(before, k, j) && grp[k] == grp[j];
        assert Continues(now, k, j);
      } else if j == n && g != n {
        assert Continues(now, p, n);
      }
    }
  }

  lemma ChainedExtends(rows: seq<Session>, ends: seq<seq<int>>, n: nat)
    requires Ordered(rows) && Stored(rows, ends) && n < |rows|
    requires Chained(rows, ends, n) && IsVisits(rows[..n], Inserted(rows, ends, n))
    ensures IsVisits(rows[..n + 1], Inserted(rows, ends, n + 1))
  {
    hide SessionGroup, Recent, IsVisits, Ordered;
    var p := FindPredecessor(rows, n, n);
    InsertedAt(rows, ends, n, p);
    var g := Inserted(rows, ends, n + 1)[n];
    assert Inserted(rows, ends, n + 1) == Inserted(rows, ends, n) + [g];
    if p >= 0 && Continues(rows, p, n) {
      assert forall q :: Predecessor(rows, q, n) ==> q == p;
      ExtendVisits(rows, Inserted(rows, ends, n), n, p, g);
    } else {
      ExtendVisits(rows, Inserted(rows, ends, n), n, -1, g);
    }
  }

  lemma NoVisits(rows: seq<Session>, ends: seq<seq<int>>)
    ensures IsVisits(rows[..0], Inserted(rows, ends, 0))
  {
  }

  /** Chained sessions that are inserted in start order form the maximal visits. */
  lemma {:induction false} InsertedAreVisits(rows: seq<Session>, ends: seq<seq<int>>, n: nat)
    requires Ordered(rows) && Stored(rows, ends) && n <= |rows| && AllChained(rows, ends, n)
    ensures IsVisits(rows[..n], Inserted(rows, ends, n))
  {
    hide Inserted, IsVisits, Chained, Ordered;
    if n == 0 {
      NoVisits(rows, ends);
    } else {
      InsertedAreVisits(rows, ends, n - 1);
      assert Chained(rows, ends, n - 1);
      ChainedExtends(rows, ends, n - 1);
    }
  }

  lemma {:induction false} InsertedPrefix(rows: seq<Session>, ends: seq<seq<int>>, n: nat, j: nat)
    requires j < n <= |rows| && Stored(rows, ends)
    ensures Inserted(rows, ends, n)[j] == Inserted(rows, ends, j + 1)[j]
  {
    hide SessionGroup, Recent;
    if j < n - 1 { InsertedPrefix(rows, ends, n - 1, j); }
  }

  /** A session that is not chained starts a visit of its own, which batch grouping does not give it. */
  lemma UnchainedDiffers(rows: seq<Session>, ends: seq<seq<int>>, batch: seq<nat>, j: nat)
    requires Ordered(rows) && Stored(rows, ends) && IsVisits(rows, batch) && j < |rows| && !Chained(rows, ends, j)
    ensures Inserted(rows, ends, |rows|)[j] == j && batch[j] < j
  {
    var p := FindPredecessor(rows, j, j);
    InsertedAt(rows, ends, j, p);
    InsertedPrefix(rows, ends, |rows|, j);
    var i :| Continues(rows, i, j);
    FirstOfVisit(rows, batch, i);
  }

  /** Insert-time and batch grouping agree on sessions in start order exactly if all of them are chained. */
  lemma InsertedAgrees(rows: seq<Session>, ends: seq<seq<int>>, batch: seq<nat>)
    requires Ordered(rows) && Stored(rows, ends) && IsVisits(rows, batch)
    ensures Inserted(rows, ends, |rows|) == batch <==> AllChained(rows, ends, |rows|)
  {
    if AllChained(rows, ends, |rows|) {
      InsertedAreVisits(rows, ends, |rows|);
      assert rows[..|rows|] == rows;
      forall j | 0 <= j < |rows| ensures Inserted(rows, ends, |rows|)[j] == batch[j] {
        VisitsAreUnique(rows, Inserted(rows, ends, |rows|), batch, j);
      }
    } else {
      var j: nat :| j < |rows| && !Chained(rows, ends, j);
      UnchainedDiffers(rows, ends, batch, j);
    }
  }

  /**
   * Sessions of one client and IP that do not overlap are chained, if each has its predecessor among the last 20 and was
   * inserted after that had ended for good.
   */
  lemma SeparateChained(rows: seq<Session>, ends: seq<seq<int>>, j: nat)
    requires Ordered(rows) && Stored(rows, ends) && j < |rows|
    requires forall i, k :: 0 <= i < k < j && rows[i].key == rows[k].key == rows[j].key ==> rows[i].end <= rows[k].start
    requires forall p :: Predecessor(rows, p, j) ==> p in Recent(rows, rows[j].key.client, j) && ends[j][p] == rows[p].end
    ensures Chained(rows, ends, j)
  {
    if i :| Continues(rows, i, j) {
      var p := FindPredecessor(rows, j, j);
      assert rows[i].end <= rows[p].end;
      assert Predecessor(rows, p, j) && Joins(rows, ends, p, j);
    }
  }

  /** The ends, if none of them moves after a later session was inserted. */
  function Settled(rows: seq<Session>): (ends: seq<seq<int>>)
    ensures Stored(rows, ends) && forall i, j :: 0 <= i < j < |rows| ==> ends[j][i] == rows[i].end
  {
    var ends := seq(|rows|, j requires 0 <= j < |rows| => Ends(rows)[..j]);
    assert forall j :: 0 <= j < |rows| ==> ends[j] == Ends(rows)[..j];
    ends
  }

  /** The table does not show that a session continues the latest of its key, but it continues some session. */
  lemma Hidden(rows: seq<Session>, ends: seq<seq<int>>, i: nat, p: nat, j: nat)
    requires Stored(rows, ends) && j < |rows| && Continues(rows, i, j) && Predecessor(rows, p, j) && !Joins(rows, ends, p, j)
    ensures !Chained(rows, ends, j)
  {
    assert forall q :: Predecessor(rows, q, j) ==> q == p;
  }

  /** A list of sessions on which the two groupings differ. */
  ghost predicate Differ(rows: seq<Session>, ends: seq<seq<int>>) {
    && Ordered(rows) && Stored(rows, ends)
    && exists batch :: IsVisits(rows, batch) && batch != Inserted(rows, ends, |rows|)
  }

  /** They differ when a session outlasts a later one: that hides it from the next. */
  lemma OverlapDiffers()
    ensures exists rows: seq<Session> :: |rows| == 3 && Differ(rows, Settled(rows))
  {
    hide Inserted, Chained, Settled;
    var rows := [Session(HOME, 0, 10000), Session(HOME, 10, 20), Session(HOME, 2000, 2100)];
    var batch: seq<nat> := [0, 0, 0];
    assert Continues(rows, 0, 1) && Continues(rows, 0, 2);
    assert Held(rows, batch, 0) && Held(rows, batch, 1) && Held(rows, batch, 2);
    Hidden(rows, Settled(rows), 0, 1, 2);
    UnchainedDiffers(rows, Settled(rows), batch, 2);
  }

  /** They differ when an outage ends a session, another one is inserted, and the first is reopened after that. */
  lemma ReopenedDiffers()
    ensures exists rows: seq<Session>, ends :: |rows| == 2 && Differ(rows, ends)
  {
    hide Inserted, Chained;
    var rows := [Session(HOME, 0, 5000), Session(HOME, 2000, 2100)];
    var ends: seq<seq<int>> := [[], [100]];
    var batch: seq<nat> := [0, 0];
    assert Continues(rows, 0, 1);
    assert Held(rows, batch, 0) && Held(rows, batch, 1);
    Hidden(rows, ends, 0, 0, 1);
    UnchainedDiffers(rows, ends, batch, 1);
    assert Differ(rows, ends);
  }

  lemma {:induction false} OfClientSize(rows: seq<Session>, client: string, n: nat)
    requires n <= |rows| && forall i :: 0 <= i < n ==> rows[i].key.client == client
    ensures |OfClient(rows, client, n)| == n
  {
    if n > 0 {
      OfClientSize(rows, client, n - 1);
      PlaceSize(rows, OfClient(rows, client, n - 1), n - 1);
    }
  }

  lemma {:induction false} PlaceSize(rows: seq<Session>, order: seq<nat>, id: nat)
    requires id < |rows| && Within(order, |rows|)
    ensures |Place(rows, order, id)| == |order| + 1
  {
    if order != [] && rows[order[0]].start > rows[id].start { PlaceSize(rows, order[1..], id); }
  }

  /** The first of more than 20 sessions of a client is not among the last 20. */
  lemma NotRecent(rows: seq<Session>, client: string, n: nat)
    requires Ordered(rows) && RECENT < n <= |rows| && forall i :: 0 <= i < n ==> rows[i].key.client == client
    ensures 0 !in Recent(rows, client, n)
  {
    OfClientSize(rows, client, n);
    LatestFirst(rows, client, n);
    var all := OfClient(rows, client, n);
    forall k | 0 <= k < RECENT ensures all[k] != 0 {
      assert all[k] > all[RECENT];
    }
  }

  const HOME := Key("phone", "192.0.2.7")
  const AWAY := Key("phone", "198.51.100.9")

  /** One session at home, 20 elsewhere, and one at home again, none of them at the same time. */
  function BusyRows(): seq<Session> {
    seq(RECENT + 2, i => Session(if 0 < i <= RECENT then AWAY else HOME, 10 * i, 10 * i + 5))
  }

  function BusyVisits(): seq<nat> { seq(RECENT + 2, i => if 0 < i <= RECENT then 1 else 0) }

  lemma BusyIsVisits()
    ensures |BusyRows()| == |BusyVisits()| && Ordered(BusyRows()) && IsVisits(BusyRows(), BusyVisits())
  {
    var rows, batch := BusyRows(), BusyVisits();
    forall j | 0 <= j < |rows| ensures Held(rows, batch, j) {
      if j > RECENT {
        assert Continues(rows, 0, j) && batch[0] == batch[j];
      } else if j > 1 {
        assert Continues(rows, 1, j) && batch[1] == batch[j];
      }
    }
  }

  ghost predicate Apart(rows: seq<Session>) { forall i, j :: 0 <= i < j < |rows| ==> rows[i].end <= rows[j].start }

  /** They differ, too, when 20 sessions from elsewhere come between two that belong together. */
  lemma BusyDiffers()
    ensures exists rows: seq<Session> :: Apart(rows) && Differ(rows, Settled(rows))
  {
    hide Inserted, IsVisits, Chained, BusyRows, BusyVisits, Settled, Stored, Ordered;
    BusyIsVisits();
    BusyUnchained();
    UnchainedDiffers(BusyRows(), Settled(BusyRows()), BusyVisits(), RECENT + 1);
    assert Apart(BusyRows());
  }

  lemma BusyUnchained()
    ensures |BusyRows()| == RECENT + 2 && Apart(BusyRows()) && !Chained(BusyRows(), Settled(BusyRows()), RECENT + 1)
  {
    hide Recent, Settled, Chained;
    var rows, j := BusyRows(), RECENT + 1;
    assert Continues(rows, 0, j);
    NotRecent(rows, "phone", j);
    assert Predecessor(rows, 0, j);
    Hidden(rows, Settled(rows), 0, 0, j);
  }
}
