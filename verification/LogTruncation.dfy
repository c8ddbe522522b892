/** Two ways in which a renewed log loses lines: truncated in place unnoticed, as docker-entrypoint.sh may, or unread. */
module LogTruncation {
  import opened Lines
  import opened LogReader
  import opened Wrappers

  const FIRST := "a\n"
  const SECOND := "b\nc\n"

  /** A log that is read, truncated, and has grown to the stored position again before the next read. */
  function Truncation(k: nat): Event {
    match k
    case 0 => Grow(FIRST)
    case 2 => Renew(1)
    case 3 => Grow(SECOND)
    case _ => Read(9, true, 2)
  }

  function Truncated(parse: Parser, k: nat): World {
    var first := Db(1, 2, Counted(map[], SplitLines(FIRST), parse), SplitLines(FIRST));
    var second := SplitLines(SECOND[2..4]);
    match k
    case 0 => World(File(1, ""), EMPTY, [], 0, true, None)
    case 1 => World(File(1, FIRST), EMPTY, [], 0, true, None)
    case 2 => World(File(1, FIRST), first, [], 0, false, None)
    case 3 => World(File(1, ""), first, [Part(FIRST, 0, 2)], 0, true, None)
    case 4 => World(File(1, SECOND), first, [Part(FIRST, 0, 2)], 0, true, None)
    case _ => World(File(1, SECOND), Db(1, 4, Counted(first.counts, second, parse), first.lines + second),
                    [Part(FIRST, 0, 2)], 2, false, None)
  }

  lemma TruncatedRuns(parse: Parser, k: nat)
    requires k < 5
    ensures Next(Truncated(parse, k), Truncation(k), Truncated(parse, k + 1), parse)
  {
    hide Counted, SplitLines;
    if k == 1 {
      assert FIRST[0..2] == FIRST && [] + SplitLines(FIRST) == SplitLines(FIRST);
    }
  }

  ghost predicate Loses(w: World) { w.db.lines != WholeLinesOf(Logs(w)) }

  /** A log whose truncation does not show loses what is before the old position. */
  lemma UnnoticedLoses(parse: Parser)
    ensures exists worlds, events :: |events| == 5 && IsRun(worlds, events, parse) && Loses(worlds[5])
  {
    hide Truncated, Next, Logs, WholeLinesOf;
    var worlds, events := seq(6, k requires 0 <= k < 6 => Truncated(parse, k)), seq(5, k requires 0 <= k < 5 => Truncation(k));
    forall i | 0 <= i < |events| ensures Next(worlds[i], events[i], worlds[i + 1], parse) {
      TruncatedRuns(parse, i);
    }
    TruncatedStarts(parse);
    assert worlds[0].file.text == "" && IsRun(worlds, events, parse);
    EveryLineOnce(worlds, events, parse, 5);
  }

  lemma TruncatedStarts(parse: Parser)
    ensures Truncated(parse, 0) == World(File(1, ""), EMPTY, [], 0, true, None)
    ensures |Logs(Truncated(parse, 5))| == 2 && !Complete(Logs(Truncated(parse, 5))[1])
  {
    hide SplitLines, Counted;
  }

  /** A log that is renewed before it is read to its end loses the rest. */
  lemma UnreadLoses(parse: Parser)
    ensures exists worlds, events ::
      |events| == 2 && IsRun(worlds, events, parse) && AllNoticed(worlds, events) && Loses(worlds[2])
  {
    hide WholeLinesOf, SplitLines;
    var start := World(File(1, ""), EMPTY, [], 0, true, None);
    var worlds := [start, start.(file := File(1, FIRST)), start.(file := File(2, ""), past := [Part(FIRST, 0, 0)])];
    var events := [Grow(FIRST), Renew(2)];
    assert IsRun(worlds, events, parse);
    EveryLineOnce(worlds, events, parse, 2);
    assert !Complete(Logs(worlds[2])[0]);
  }
}
