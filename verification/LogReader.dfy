/** Reading appended log lines exactly once: Collector.read_logs and add_rejection (ui/app/collector.py, ui/app/db.py). */
module LogReader {
  import opened Lines
  import opened Wrappers

  /** A refused connection, as a log line describes it. */
  datatype Rejection = Rejection(ts: nat, client: string, reason: string, address: string)

  /** What parse_rejection makes of a line. */
  type Parser = string -> Option<Rejection>

  /** The primary key of the rejections table. */
  datatype Key = Key(day: int, client: string, reason: string, address: string)

  datatype Count = Count(n: nat, lastTs: nat)

  type Table = map<Key, Count>

  function KeyOf(r: Rejection): Key { Key(r.ts - r.ts % 86400, r.client, r.reason, r.address) }

  function AddRejection(t: Table, r: Rejection): Table {
    var k := KeyOf(r);
    if k in t then t[k := Count(t[k].n + 1, if t[k].lastTs > r.ts then t[k].lastTs else r.ts)]
    else t[k := Count(1, r.ts)]
  }

  // ---- counting -----------------------------------------------------------

  function Counted(t: Table, lines: seq<string>, parse: Parser): Table {
    if lines == [] then t
    else
      var before := Counted(t, lines[..|lines| - 1], parse);
      match parse(lines[|lines| - 1])
      case None => before
      case Some(r) => AddRejection(before, r)
  }

  /** The line describes a rejection of this client, reason and address on this day in UTC. */
  predicate Describes(line: string, parse: Parser, k: Key) {
    match parse(line)
    case None => false
    case Some(Rejection(ts, client, reason, address)) =>
      && k.client == client && k.reason == reason && k.address == address
      && k.day % 86400 == 0 && k.day <= ts < k.day + 86400
  }

  /** How many of the lines describe a rejection with this key, and the time of the latest. */
  function Hits(lines: seq<string>, parse: Parser, k: Key): nat {
    if lines == [] then 0 else Hits(lines[..|lines| - 1], parse, k) + if Describes(lines[|lines| - 1], parse, k) then 1 else 0
  }

  function LastHit(lines: seq<string>, parse: Parser, k: Key): nat {
    if lines == [] then 0
    else
      var line, before := lines[|lines| - 1], LastHit(lines[..|lines| - 1], parse, k);
      if Describes(line, parse, k) && parse(line).value.ts > before then parse(line).value.ts else before
  }

  function CountOf(t: Table, k: Key): nat { if k in t then t[k].n else 0 }

  function LastOf(t: Table, k: Key): nat { if k in t then t[k].lastTs else 0 }

  function Later(a: nat, b: nat): nat { if a > b then a else b }

  lemma KeyIs(line: string, parse: Parser, k: Key)
    ensures Describes(line, parse, k) <==> parse(line).Some? && KeyOf(parse(line).value) == k
  {
    if parse(line).Some? {
      var ts := parse(line).value.ts;
      if k.day % 86400 == 0 && k.day <= ts < k.day + 86400 { DayIs(ts, k.day); }
    }
  }

  lemma DayIs(ts: nat, day: int)
    requires day % 86400 == 0 && day <= ts < day + 86400
    ensures day == ts - ts % 86400
  {
    var q := day / 86400;
    assert day == q * 86400 && ts / 86400 == q;
  }

  /** Counting lines raises the number of every key by the lines that describe it, and keeps the latest time. */
  lemma {:induction false} CountsAreHits(t: Table, lines: seq<string>, parse: Parser, k: Key)
    ensures CountOf(Counted(t, lines, parse), k) == CountOf(t, k) + Hits(lines, parse, k)
    ensures LastOf(Counted(t, lines, parse), k) == Later(LastOf(t, k), LastHit(lines, parse, k))
  {
    if lines != [] {
      CountsAreHits(t, lines[..|lines| - 1], parse, k);
      KeyIs(lines[|lines| - 1], parse, k);
    }
  }

  lemma {:induction false} HitsConcat(a: seq<string>, b: seq<string>, parse: Parser, k: Key)
    ensures Hits(a + b, parse, k) == Hits(a, parse, k) + Hits(b, parse, k)
    ensures LastHit(a + b, parse, k) == Later(LastHit(a, parse, k), LastHit(b, parse, k))
  {
    if b == [] {
      assert a + b == a;
    } else {
      assert (a + b)[..|a + b| - 1] == a + b[..|b| - 1];
      HitsConcat(a, b[..|b| - 1], parse, k);
    }
  }

  /** The rows of a day before the cutoff go; ui/app/db.py:369. */
  function Purged(t: Table, cutoff: int): Table { map k | k in t && k.day >= cutoff :: t[k] }

  // ---- one call of read_logs ----------------------------------------------

  /** Reads a chunk and finds the place after its last newline; 0 when it has none. */
  method ReadChunk(file: string, pos: nat, maxBytes: nat) returns (data: string, end: nat)
    requires pos <= |file|
    ensures ChunkEnd(file, pos, maxBytes, end) && end <= |data| && data[..end] == file[pos..pos + end]
  {
    data := file[pos..if pos + maxBytes < |file| then pos + maxBytes else |file|];
    end := |data|;
    while end > 0 && data[end - 1] != NEWLINE
      invariant end <= |data| && forall i :: pos + end <= i < pos + |data| ==> file[i] != NEWLINE
    {
      end := end - 1;
      assert data[end] == file[pos + end];
    }
    assert data[..end] == file[pos..pos + end];
  }

  datatype File = File(inode: nat, text: string)

  /** What the database holds about one log, written in one transaction; `lines` is the history of committed lines. */
  datatype Db = Db(inode: nat, pos: nat, counts: Table, lines: seq<string>)

  const EMPTY := Db(0, 0, map[], [])

  /** Where reading goes on: at the stored position of this file, or at the start of a replaced or shorter one. */
  function StartAt(db: Db, file: File): (pos: nat)
    ensures pos <= |file.text|
  {
    if db.inode == file.inode && db.pos <= |file.text| then db.pos else 0
  }

  class Reader {
    var db: Db

    constructor ()
      ensures db == EMPTY
    {
      db := EMPTY;
    }

    /** ui/app/collector.py:184-208; `commits` tells whether the transaction succeeds. */
    method ReadLog(file: File, maxBytes: nat, parse: Parser, commits: bool)
      modifies this
      ensures exists end :: ReadStep(old(db), file, maxBytes, parse, commits, end, db)
    {
      hide SplitLines, Counted;
      var pos := if db.inode == file.inode && db.pos <= |file.text| then db.pos else 0;
      var data, end := ReadChunk(file.text, pos, maxBytes);
      ghost var before := db;
      if end > 0 && commits {
        var lines := SplitLines(data[..end]);
        var counts := CountLines(db.counts, lines, parse);
        db := Db(file.inode, pos + end, counts, db.lines + lines);
      }
      assert ReadStep(before, file, maxBytes, parse, commits, end, db);
    }

    /** ui/app/db.py:369 */
    method PurgeRejections(cutoff: int)
      modifies this
      ensures db == old(db).(counts := Purged(old(db).counts, cutoff))
      ensures forall k <- old(db).counts :: k in db.counts <==> k.day >= cutoff
    {
      db := db.(counts := map k | k in db.counts && k.day >= cutoff :: db.counts[k]);
    }
  }

  method CountLines(t: Table, lines: seq<string>, parse: Parser) returns (counts: Table)
    ensures counts == Counted(t, lines, parse)
  {
    counts := t;
    for i := 0 to |lines|
      invariant counts == Counted(t, lines[..i], parse)
    {
      assert lines[..i + 1][..i] == lines[..i];
      match parse(lines[i]) {
        case None =>
        case Some(r) => counts := AddRejection(counts, r);
      }
    }
    assert lines[..|lines|] == lines;
  }

  /** One transaction: the effects of the lines of a text and the position after it. */
  ghost function Commit(db: Db, inode: nat, text: string, pos: nat, parse: Parser): Db {
    var lines := SplitLines(text);
    Db(inode, pos, Counted(db.counts, lines, parse), db.lines + lines)
  }

  /** The chunk at pos holds `end` characters of whole lines, and no newline after them. */
  ghost predicate ChunkEnd(file: string, pos: nat, maxBytes: nat, end: nat) {
    && pos + end <= |file| && end <= maxBytes
    && Whole(file[pos..pos + end])
    && (forall i :: pos + end <= i < |file| && i < pos + maxBytes ==> file[i] != NEWLINE)
  }

  /** A call of read_logs: the whole lines of the chunk take effect together with the position, or not at all. */
  ghost predicate ReadStep(db: Db, file: File, maxBytes: nat, parse: Parser, commits: bool, end: nat, db': Db) {
    var pos := StartAt(db, file);
    && ChunkEnd(file.text, pos, maxBytes, end)
    && db' == if end == 0 || !commits then db else Commit(db, file.inode, file.text[pos..pos + end], pos + end, parse)
  }

  // ---- every schedule -----------------------------------------------------

  datatype Event =
    | Grow(text: string)                                    // OpenVPN appends to the log
    | Renew(inode: nat)                                     // the log is truncated, or replaced by a new file
    | Read(maxBytes: nat, commits: bool, end: nat)          // a turn of the collector; a restart changes nothing here
    | Purge(cutoff: int)                                    // old rejections are deleted

  /** A log, and the piece of it that was committed. */
  datatype Part = Part(text: string, from: nat, to: nat) {
    predicate Valid() { from <= to <= |text| && Whole(text[..to]) && (from < to || to == 0) }

    function Lines(): seq<string>
      requires Valid()
    {
      SplitLines(text[from..to])
    }
  }

  /**
   * `past` are the logs that were renewed. Of the present one the text from `from` to the stored position was committed,
   * nothing if it is `stale`. `purged` is the greatest cutoff of a purge.
   */
  datatype World = World(file: File, db: Db, past: seq<Part>, from: nat, stale: bool, purged: Option<int>)

  function LaterCutoff(purged: Option<int>, cutoff: int): Option<int> {
    if purged.Some? && purged.value > cutoff then purged else Some(cutoff)
  }

  ghost predicate Next(w: World, e: Event, w': World, parse: Parser) {
    match e
    case Grow(text) => w' == w.(file := w.file.(text := w.file.text + text))
    case Renew(inode) => w' == w.(file := File(inode, ""), past := w.past + [Present(w)], stale := true)
    case Read(maxBytes, commits, end) =>
      && ReadStep(w.db, w.file, maxBytes, parse, commits, end, w'.db)
      && w' == if end == 0 || !commits then w
               else w.(db := w'.db, stale := false, from := if w.stale then StartAt(w.db, w.file) else w.from)
    case Purge(cutoff) =>
      w' == w.(db := w.db.(counts := Purged(w.db.counts, cutoff)), purged := LaterCutoff(w.purged, cutoff))
  }

  function Present(w: World): Part { if w.stale then Part(w.file.text, 0, 0) else Part(w.file.text, w.from, w.db.pos) }

  ghost predicate IsRun(worlds: seq<World>, events: seq<Event>, parse: Parser) {
    && |worlds| == |events| + 1
    && worlds[0].file.text == "" && worlds[0] == World(worlds[0].file, EMPTY, [], 0, true, None)
    && forall i :: 0 <= i < |events| ==> Next(worlds[i], events[i], worlds[i + 1], parse)
  }

  // ---- what was committed -------------------------------------------------

  ghost predicate AllValid(parts: seq<Part>) { forall i :: 0 <= i < |parts| ==> parts[i].Valid() }

  ghost function LinesOf(parts: seq<Part>): seq<string>
    requires AllValid(parts)
  {
    if parts == [] then [] else LinesOf(parts[..|parts| - 1]) + parts[|parts| - 1].Lines()
  }

  /** A key has the number of its lines and the time of the latest, or at most that if its day is before a cutoff. */
  ghost predicate KeyTallied(db: Db, purged: Option<int>, parse: Parser, k: Key) {
    && CountOf(db.counts, k) <= Hits(db.lines, parse, k) && LastOf(db.counts, k) <= LastHit(db.lines, parse, k)
    && (purged.None? || k.day >= purged.value ==>
          CountOf(db.counts, k) == Hits(db.lines, parse, k) && LastOf(db.counts, k) == LastHit(db.lines, parse, k))
  }

  ghost predicate Tallied(db: Db, purged: Option<int>, parse: Parser) {
    forall k :: KeyTallied(db, purged, parse, k)
  }

  ghost predicate Consistent(w: World, parse: Parser) {
    && (w.stale || (w.db.inode == w.file.inode && w.from < w.db.pos))
    && AllValid(w.past) && Present(w).Valid()
    && w.db.lines == LinesOf(w.past) + Present(w).Lines()
    && Tallied(w.db, w.purged, parse)
  }

  lemma CommitTallied(db: Db, purged: Option<int>, inode: nat, text: string, pos: nat, parse: Parser)
    requires Tallied(db, purged, parse)
    ensures Tallied(Commit(db, inode, text, pos, parse), purged, parse)
  {
    hide SplitLines, Counted, Hits, LastHit;
    var lines, db' := SplitLines(text), Commit(db, inode, text, pos, parse);
    forall k ensures KeyTallied(db', purged, parse, k) {
      assert KeyTallied(db, purged, parse, k);
      CountsAreHits(db.counts, lines, parse, k);
      HitsConcat(db.lines, lines, parse, k);
    }
  }

  /** A read commits the next piece of the log after those before it, or begins with a new one where it starts. */
  lemma ReadKeeps(w: World, maxBytes: nat, commits: bool, end: nat, w': World, parse: Parser)
    requires Consistent(w, parse) && Next(w, Read(maxBytes, commits, end), w', parse)
    ensures Consistent(w', parse)
  {
    hide SplitLines, Counted, LinesOf, Tallied;
    var pos, text := StartAt(w.db, w.file), w.file.text;
    if end > 0 && commits {
      var chunk := text[pos..pos + end];
      CommitTallied(w.db, w.purged, w.file.inode, chunk, pos + end, parse);
      assert text[..pos + end][pos + end - 1] == chunk[end - 1];
      if w.stale {
        assert SplitLines(text[0..0]) == [] by { NoLines(); }
        assert w.db.lines + SplitLines(chunk) == LinesOf(w.past) + SplitLines(chunk);
      } else {
        assert text[w.from..pos] + chunk == text[w.from..pos + end];
        assert text[w.from..pos][pos - w.from - 1] == text[..pos][pos - 1];
        SplitConcat(text[w.from..pos], chunk);
      }
    }
  }

  lemma NoLines()
    ensures SplitLines([]) == []
  {
  }

  lemma GrowKeeps(w: World, text: string, w': World, parse: Parser)
    requires Consistent(w, parse) && Next(w, Grow(text), w', parse)
    ensures Consistent(w', parse)
  {
    hide SplitLines, LinesOf, Tallied;
    var p, p' := Present(w), Present(w');
    assert p'.text[..p.to] == p.text[..p.to] && p'.text[p.from..p.to] == p.text[p.from..p.to];
  }

  lemma LinesOfLast(parts: seq<Part>, p: Part)
    requires AllValid(parts) && p.Valid()
    ensures AllValid(parts + [p]) && LinesOf(parts + [p]) == LinesOf(parts) + p.Lines()
  {
    assert (parts + [p])[..|parts|] == parts;
  }

  lemma RenewKeeps(w: World, inode: nat, w': World, parse: Parser)
    requires Consistent(w, parse) && Next(w, Renew(inode), w', parse)
    ensures Consistent(w', parse)
  {
    hide SplitLines, Tallied, LinesOf, AllValid;
    NoLines();
    LinesOfLast(w.past, Present(w));
    assert w'.file.text[0..0] == [];
    assert w.db.lines + [] == w.db.lines;
  }

  lemma PurgeKeeps(w: World, cutoff: int, w': World, parse: Parser)
    requires Consistent(w, parse) && Next(w, Purge(cutoff), w', parse)
    ensures Consistent(w', parse)
  {
    hide SplitLines, LinesOf, Hits, LastHit;
    assert Present(w') == Present(w);
    forall k ensures KeyTallied(w'.db, w'.purged, parse, k) { assert KeyTallied(w.db, w.purged, parse, k); }
  }

  /** In every run, whatever is read, renewed, purged or rolled back, one piece of each log was committed, once and in order. */
  lemma {:induction false} PiecesOnce(worlds: seq<World>, events: seq<Event>, parse: Parser, n: nat)
    requires IsRun(worlds, events, parse) && n < |worlds|
    ensures Consistent(worlds[n], parse)
  {
    if n == 0 {
      NoLines();
      assert worlds[0].file.text[0..0] == [];
    } else {
      hide Consistent;
      PiecesOnce(worlds, events, parse, n - 1);
      var w, w' := worlds[n - 1], worlds[n];
      assert Next(w, events[n - 1], w', parse);
      match events[n - 1]
      case Grow(text) => GrowKeeps(w, text, w', parse);
      case Renew(inode) => RenewKeeps(w, inode, w', parse);
      case Read(maxBytes, commits, end) => ReadKeeps(w, maxBytes, commits, end, w', parse);
      case Purge(cutoff) => PurgeKeeps(w, cutoff, w', parse);
    }
  }

  /** In every run the stored number and time of rejections are those of the committed lines, for days that were not purged. */
  lemma RejectionsAreLines(worlds: seq<World>, events: seq<Event>, parse: Parser, n: nat, k: Key)
    requires IsRun(worlds, events, parse) && n < |worlds|
    ensures var w := worlds[n];
      && CountOf(w.db.counts, k) <= Hits(w.db.lines, parse, k)
      && (w.purged.None? || k.day >= w.purged.value ==>
            CountOf(w.db.counts, k) == Hits(w.db.lines, parse, k) && LastOf(w.db.counts, k) == LastHit(w.db.lines, parse, k))
  {
    PiecesOnce(worlds, events, parse, n);
    assert KeyTallied(worlds[n].db, worlds[n].purged, parse, k);
  }

  // ---- what is lost -------------------------------------------------------

  /** The length of the whole lines of a text. */
  function Ending(s: string): (n: nat)
    ensures n <= |s| && Whole(s[..n]) && forall i :: n <= i < |s| ==> s[i] != NEWLINE
  {
    if s == [] || s[|s| - 1] == NEWLINE then |s|
    else
      assert s[..|s| - 1][..Ending(s[..|s| - 1])] == s[..Ending(s[..|s| - 1])];
      Ending(s[..|s| - 1])
  }

  ghost function WholeLines(p: Part): seq<string> { SplitLines(p.text[..Ending(p.text)]) }

  /** Nothing is left behind the piece, and nothing before it but half a line end. */
  predicate Complete(p: Part) {
    p.to == Ending(p.text) && (p.from == 0 || (p.from == 1 && |p.text| > 1 && HalfBreak(p.text[0], p.text[1..])))
  }

  /** The committed lines of a log are no more than its whole lines, and all of them exactly if the piece is complete. */
  lemma CompleteIs(p: Part)
    requires p.Valid()
    ensures Measure(p.Lines()) <= Measure(WholeLines(p))
    ensures Measure(p.Lines()) == Measure(WholeLines(p)) ==> Complete(p)
    ensures Complete(p) ==> p.Lines() == WholeLines(p)
    ensures p.from == 0 ==> WholeLines(p) == p.Lines() + SplitLines(p.text[p.to..Ending(p.text)])
  {
    hide SplitLines, Measure;
    var n := Ending(p.text);
    assert p.to == 0 || p.text[..p.to][p.to - 1] == p.text[p.to - 1];
    var before, piece, after := p.text[..p.from], p.text[p.from..p.to], p.text[p.to..n];
    assert p.text[..n] == p.text[..p.to] + after && p.text[..p.to] == before + piece;
    SplitConcat(p.text[..p.to], after);
    MeasureConcat(SplitLines(p.text[..p.to]), SplitLines(after));
    if after == [] {
      NoLines();
      assert SplitLines(p.text[..p.to]) + [] == SplitLines(p.text[..p.to]);
    } else {
      MeasureSome(after);
    }
    if piece == [] { NoLines(); } else { PieceIs(p); }
  }

  lemma PieceIs(p: Part)
    requires p.Valid() && p.from < p.to
    ensures var whole := SplitLines(p.text[..p.to]);
      && Measure(p.Lines()) <= Measure(whole)
      && (Measure(p.Lines()) == Measure(whole) <==> p.from == 0 || (p.from == 1 && HalfBreak(p.text[0], p.text[1..])))
      && (p.from == 0 || (p.from == 1 && HalfBreak(p.text[0], p.text[1..])) ==> p.Lines() == whole)
  {
    hide SplitLines, Measure;
    var before, piece := p.text[..p.from], p.text[p.from..p.to];
    assert p.text[..p.to] == before + piece;
    assert piece[0] == p.text[p.from];
    Longer(before, piece);
    if p.from == 1 {
      assert before == [p.text[0]] && p.text[1..][0] == piece[0];
      Prepend(p.text[0], piece);
    } else if p.from == 0 {
      assert p.text[..p.to] == piece;
    }
  }

  ghost function WholeLinesOf(parts: seq<Part>): seq<string> {
    if parts == [] then [] else WholeLinesOf(parts[..|parts| - 1]) + WholeLines(parts[|parts| - 1])
  }

  lemma {:induction false} AllComplete(parts: seq<Part>)
    requires AllValid(parts)
    ensures Measure(LinesOf(parts)) <= Measure(WholeLinesOf(parts))
    ensures LinesOf(parts) == WholeLinesOf(parts) <==> forall i :: 0 <= i < |parts| ==> Complete(parts[i])
    ensures Measure(LinesOf(parts)) == Measure(WholeLinesOf(parts)) ==> LinesOf(parts) == WholeLinesOf(parts)
  {
    hide SplitLines, Measure, Complete, WholeLines;
    if parts != [] {
      var rest, p := parts[..|parts| - 1], parts[|parts| - 1];
      AllComplete(rest);
      CompleteIs(p);
      MeasureConcat(LinesOf(rest), p.Lines());
      MeasureConcat(WholeLinesOf(rest), WholeLines(p));
      assert forall i :: 0 <= i < |rest| ==> parts[i] == rest[i];
    }
  }

  /** The logs, the present one up to the stored position. */
  function Logs(w: World): seq<Part> {
    w.past + [if w.stale || w.db.pos > |w.file.text| then Part("", 0, 0) else Part(w.file.text[..w.db.pos], w.from, w.db.pos)]
  }

  lemma LogsAre(w: World, parse: Parser)
    requires Consistent(w, parse)
    ensures AllValid(Logs(w)) && w.db.lines == LinesOf(Logs(w))
  {
    hide SplitLines, Tallied;
    var p, q := Present(w), Logs(w)[|w.past|];
    assert Logs(w)[..|w.past|] == w.past;
    assert q.text[..q.to] == p.text[..p.to] && q.text[q.from..q.to] == p.text[p.from..p.to];
  }

  /**
   * In every run the committed lines are the whole lines of all logs, each once and in order, exactly if each log was
   * read from its start, and up to its last newline before it was renewed. Other lines are lost.
   */
  lemma EveryLineOnce(worlds: seq<World>, events: seq<Event>, parse: Parser, n: nat)
    requires IsRun(worlds, events, parse) && n < |worlds|
    ensures var logs := Logs(worlds[n]);
      worlds[n].db.lines == WholeLinesOf(logs) <==> forall i :: 0 <= i < |logs| ==> Complete(logs[i])
  {
    PiecesOnce(worlds, events, parse, n);
    LogsAre(worlds[n], parse);
    AllComplete(Logs(worlds[n]));
  }

  // ---- renewals that show -------------------------------------------------

  /** A renewed log shows that it is: by its inode, or by being shorter than the stored position. */
  predicate Noticed(w: World) {
    w.stale ==> w.db.inode != w.file.inode || |w.file.text| < w.db.pos || w.db.pos == 0
  }

  /**
   * The first commit from a new log takes all its lines up to the position exactly if the renewal shows, or only half a
   * line end is skipped.
   */
  lemma NoticedIsExact(w: World, maxBytes: nat, end: nat, w': World, parse: Parser)
    requires Consistent(w, parse) && w.stale && end > 0 && Next(w, Read(maxBytes, true, end), w', parse)
    ensures Present(w').Valid() && w'.db.pos <= |w.file.text|
    ensures Present(w').Lines() == SplitLines(w.file.text[..w'.db.pos]) <==>
      Noticed(w) || (w.db.pos == 1 && HalfBreak(w.file.text[0], w.file.text[1..]))
  {
    hide SplitLines;
    ReadKeeps(w, maxBytes, true, end, w', parse);
    PieceIs(Present(w'));
  }

  /** Whenever the collector reads, a renewal since its last commit shows. */
  ghost predicate AllNoticed(worlds: seq<World>, events: seq<Event>) {
    |worlds| > |events| && forall i :: 0 <= i < |events| && events[i].Read? ==> Noticed(worlds[i])
  }

  /** If all renewals show, every log is read from its start. */
  lemma {:induction false} NoticedFromStart(worlds: seq<World>, events: seq<Event>, parse: Parser, n: nat)
    requires IsRun(worlds, events, parse) && AllNoticed(worlds, events) && n < |worlds|
    ensures (worlds[n].stale || worlds[n].from == 0) && forall p <- worlds[n].past :: p.from == 0
  {
    hide SplitLines;
    if n > 0 {
      NoticedFromStart(worlds, events, parse, n - 1);
      assert Next(worlds[n - 1], events[n - 1], worlds[n], parse);
    }
  }

  /** Then a log loses exactly the whole lines that were not read when it was renewed. */
  lemma UnreadIsLost(worlds: seq<World>, events: seq<Event>, parse: Parser, n: nat, i: nat)
    requires IsRun(worlds, events, parse) && AllNoticed(worlds, events) && n < |worlds| && i < |worlds[n].past|
    ensures var p := worlds[n].past[i];
      p.Valid() && p.to <= Ending(p.text) && WholeLines(p) == p.Lines() + SplitLines(p.text[p.to..Ending(p.text)])
  {
    hide SplitLines, Tallied;
    PiecesOnce(worlds, events, parse, n);
    NoticedFromStart(worlds, events, parse, n);
    CompleteIs(worlds[n].past[i]);
  }

  ghost predicate NotRenewed(events: seq<Event>) { forall i :: 0 <= i < |events| ==> !events[i].Renew? }

  lemma {:induction false} GrowingFromStart(worlds: seq<World>, events: seq<Event>, parse: Parser, n: nat)
    requires IsRun(worlds, events, parse) && NotRenewed(events) && n < |worlds|
    ensures var w := worlds[n]; w.past == [] && w.from == 0 && (w.stale ==> w.db.pos == 0)
  {
    hide SplitLines;
    if n > 0 {
      GrowingFromStart(worlds, events, parse, n - 1);
      assert Next(worlds[n - 1], events[n - 1], worlds[n], parse);
    }
  }

  /** Of a log that only grows, each whole line before the position is committed once, in order. */
  lemma GrowingOnce(worlds: seq<World>, events: seq<Event>, parse: Parser, n: nat)
    requires IsRun(worlds, events, parse) && NotRenewed(events) && n < |worlds|
    ensures var w := worlds[n]; w.db.pos <= |w.file.text| && w.db.lines == SplitLines(w.file.text[..w.db.pos])
  {
    hide SplitLines, Tallied;
    PiecesOnce(worlds, events, parse, n);
    GrowingFromStart(worlds, events, parse, n);
    var w := worlds[n];
    assert w.file.text[0..w.db.pos] == w.file.text[..w.db.pos];
  }

  /** A committed read of a chunk that holds the end of the next line moves on, up to the chunk's last newline. */
  lemma ReadAdvances(w: World, maxBytes: nat, end: nat, w': World, parse: Parser, i: nat)
    requires Next(w, Read(maxBytes, true, end), w', parse)
    requires StartAt(w.db, w.file) <= i < |w.file.text| && i < StartAt(w.db, w.file) + maxBytes && w.file.text[i] == NEWLINE
    ensures w'.db.pos > i && w'.db.inode == w.file.inode
  {
  }
}
