/** Crash and resume (secwatch/web.py `tail_task`, secwatch/detect.py `maybe_flush`): the
    counters and the tail offsets are committed together, so that the committed counters
    always count exactly the complete lines before the committed offsets. */
module CrashSafety {
  import opened Collections
  import opened Windows
  import opened Detect
  import opened Traffic
  import opened Engine
  import opened Tail
  import opened EngineObject

  /** What survives a crash: the counter tables and the `tail:` rows of `meta`. */
  datatype Db = Db(table: Tallies, marks: map<string, Mark>)

  /** What does not: the buffers, the engine's offsets and the file cursors. */
  datatype Memory = Memory(
    buffer: Tallies, tail: map<string, Mark>, flushed: map<string, Mark>, lastFlush: Time,
    cursors: map<string, int>)

  datatype World = World(files: map<string, File>, db: Db, mem: Memory)

  /** A log source's parser: the record of a line, or None. */
  type Parser = (string, string) -> Option<Record>

  datatype Act =
    | Grow(key: string, more: string)          // another process appends to a log
    | Poll(key: string, now: Time)             // one round of a source's tail task
    | Sync(now: Time, force: bool)             // another caller of maybe_flush
    | Crash                                    // the process dies and starts again

  function SavedAt(db: Db, key: string): int {
    if key in db.marks then db.marks[key].off else 0
  }

  function Booted(files: map<string, File>, db: Db): Memory {
    Memory(NO_TALLIES, map[], map[], 0.0,
           map k | k in files :: StartAt(if k in db.marks then Some(db.marks[k]) else None, files[k], false))
  }

  function MaybeFlushed(w: World, now: Time, force: bool): World {
    if !force && now - w.mem.lastFlush < FLUSH_SECS then w
    else
      var unsaved := Unsaved(w.mem.tail, w.mem.flushed);
      World(w.files, Db(Merged(w.db.table, w.mem.buffer), w.db.marks + unsaved),
            w.mem.(buffer := NO_TALLIES, flushed := w.mem.flushed + unsaved, lastFlush := now))
  }

  /** The body of `tail_task` for what `follow` yielded. */
  function Consumed(parse: Parser, w: World, key: string, y: Yield, pos: int, now: Time): World
    requires key in w.files
  {
    if y == Partial then w
    else
      var mark := Mark(w.files[key].ino, pos);
      var buffer :=
        if y.Line? && parse(key, y.text).Some? then Tallied(w.mem.buffer, Sighting(now, parse(key, y.text).value))
        else w.mem.buffer;
      w.(mem := w.mem.(buffer := buffer, cursors := w.mem.cursors[key := pos], tail := w.mem.tail[key := mark]))
  }

  function Acted(parse: Parser, w: World, a: Act): World {
    match a
    case Grow(key, more) =>
      if key in w.files then w.(files := w.files[key := File(w.files[key].ino, w.files[key].text + more)]) else w
    case Poll(key, now) =>
      if key in w.files && key in w.mem.cursors && 0 <= w.mem.cursors[key] <= |w.files[key].text| then
        var (y, pos) := Yielded(w.files[key].text, w.mem.cursors[key]);
        if y == Partial then w else MaybeFlushed(Consumed(parse, w, key, y, pos, now), now, false)
      else w
    case Sync(now, force) => MaybeFlushed(w, now, force)
    case Crash => w.(mem := Booted(w.files, w.db))
  }

  function Acts(parse: Parser, w: World, acts: seq<Act>): World {
    if acts == [] then w else Acted(parse, Acts(parse, w, acts[..|acts| - 1]), acts[|acts| - 1])
  }

  /** A first start over some log files. */
  function Fresh(files: map<string, File>): World {
    World(files, Db(NO_TALLIES, map[]), Booted(files, Db(NO_TALLIES, map[])))
  }

  // ---- what the files say

  predicate CountedLine(parse: Parser, key: string, c: Column, line: string) {
    parse(key, line).Some? && Counts(c, parse(key, line).value)
  }

  function CountedLines(parse: Parser, key: string, c: Column, lines: seq<string>): int {
    if lines == [] then 0
    else CountedLines(parse, key, c, lines[..|lines| - 1]) + One(CountedLine(parse, key, c, lines[|lines| - 1]))
  }

  /** How many complete lines before the given offset of a file a column has to count. */
  function Before(parse: Parser, key: string, c: Column, text: string, off: int): int
    requires 0 <= off <= |text|
  {
    CountedLines(parse, key, c, Lines(text, 0, off))
  }

  predicate Within(files: map<string, File>, offs: map<string, int>) {
    offs.Keys == files.Keys && forall k :: k in files ==> AtLineStart(files[k].text, offs[k])
  }

  function PerFile(parse: Parser, c: Column, files: map<string, File>, offs: map<string, int>): map<string, int>
    requires Within(files, offs)
  {
    map k | k in files :: Before(parse, k, c, files[k].text, offs[k])
  }

  /** The same over all files. */
  ghost function AllBefore(parse: Parser, c: Column, files: map<string, File>, offs: map<string, int>): int
    requires Within(files, offs)
  {
    Sum(PerFile(parse, c, files, offs))
  }

  function Saved(w: World): map<string, int> {
    map k | k in w.files :: SavedAt(w.db, k)
  }

  // ---- the invariant

  ghost predicate Placed(w: World) {
    && Within(w.files, w.mem.cursors) && Within(w.files, Saved(w))
    && (forall k :: k in w.files ==>
          && (k in w.db.marks ==> w.db.marks[k].ino == w.files[k].ino)
          && (k in w.mem.tail ==> w.mem.tail[k] == Mark(w.files[k].ino, w.mem.cursors[k]))
          && (k !in w.mem.tail ==> w.mem.cursors[k] == SavedAt(w.db, k))
          && (k in w.mem.flushed ==> k in w.db.marks && w.db.marks[k] == w.mem.flushed[k]))
    && w.mem.tail.Keys <= w.files.Keys
  }

  /** The committed table counts the lines before the committed offsets, and table plus
      buffer those before the cursors. */
  ghost predicate Counted(parse: Parser, w: World, c: Column)
    requires Placed(w)
  {
    && Total(w.db.table, c) == AllBefore(parse, c, w.files, Saved(w))
    && Total(w.db.table, c) + Total(w.mem.buffer, c) == AllBefore(parse, c, w.files, w.mem.cursors)
  }

  lemma CountedLinesSnoc(parse: Parser, key: string, c: Column, lines: seq<string>, line: string)
    ensures CountedLines(parse, key, c, lines + [line])
         == CountedLines(parse, key, c, lines) + One(CountedLine(parse, key, c, line))
  {
    assert (lines + [line])[..|lines|] == lines;
  }

  lemma OneFileMore(a: map<string, int>, b: map<string, int>, key: string)
    requires a.Keys == b.Keys && key in a && forall k :: k in a && k != key ==> a[k] == b[k]
    ensures a == b[key := a[key]]
  {
  }

  lemma PerFileAt(parse: Parser, c: Column, files: map<string, File>, offs: map<string, int>, k: string)
    requires Within(files, offs) && k in files
    ensures k in PerFile(parse, c, files, offs) && PerFile(parse, c, files, offs)[k]
            == Before(parse, k, c, files[k].text, offs[k])
  {
  }

  /** Tables that differ in the text or the offset of one file. */
  lemma PerFileDiffers(parse: Parser, c: Column, files: map<string, File>, offs: map<string, int>,
                       files': map<string, File>, offs': map<string, int>, key: string)
    requires Within(files, offs) && Within(files', offs') && key in files && files'.Keys == files.Keys
    requires forall k :: k in files && k != key ==> files'[k] == files[k] && offs'[k] == offs[k]
    ensures PerFile(parse, c, files', offs')
         == PerFile(parse, c, files, offs)[key := Before(parse, key, c, files'[key].text, offs'[key])]
  {
    var before, after := PerFile(parse, c, files, offs), PerFile(parse, c, files', offs');
    forall k | k in after && k != key ensures after[k] == before[k] {
      PerFileAt(parse, c, files, offs, k);
      PerFileAt(parse, c, files', offs', k);
    }
    PerFileAt(parse, c, files', offs', key);
    OneFileMore(after, before, key);
  }

  lemma PerFileGrow(parse: Parser, c: Column, files: map<string, File>, offs: map<string, int>, key: string,
                    more: string)
    requires Within(files, offs) && key in files
    ensures var files' := files[key := File(files[key].ino, files[key].text + more)];
            Within(files', offs) && PerFile(parse, c, files', offs) == PerFile(parse, c, files, offs)
  {
    var files' := files[key := File(files[key].ino, files[key].text + more)];
    LinesGrow(files[key].text, more, 0, offs[key]);
    assert AtLineStart(files[key].text + more, offs[key]);
    PerFileDiffers(parse, c, files, offs, files', offs, key);
    PerFileAt(parse, c, files, offs, key);
    OneFileMore(PerFile(parse, c, files, offs), PerFile(parse, c, files, offs), key);
  }

  /** One complete line of one file. */
  lemma BeforeAdvances(parse: Parser, key: string, c: Column, text: string, pos: int)
    requires AtLineStart(text, pos) && LineEnd(text, pos).Some?
    ensures var end := LineEnd(text, pos).value;
            && AtLineStart(text, end)
            && Before(parse, key, c, text, end)
               == Before(parse, key, c, text, pos) + One(CountedLine(parse, key, c, text[pos..end]))
  {
    var end := LineEnd(text, pos).value;
    LinesSnoc(text, 0, pos);
    CountedLinesSnoc(parse, key, c, Lines(text, 0, pos), text[pos..end]);
  }

  lemma AllBeforeMoves(parse: Parser, c: Column, files: map<string, File>, offs: map<string, int>, key: string,
                       end: int)
    requires Within(files, offs) && key in files && AtLineStart(files[key].text, end)
    ensures Within(files, offs[key := end])
    ensures AllBefore(parse, c, files, offs[key := end])
         == AllBefore(parse, c, files, offs)
            + Before(parse, key, c, files[key].text, end) - Before(parse, key, c, files[key].text, offs[key])
  {
    PerFileMoves(parse, c, files, offs, key, end);
    SumReplaced(PerFile(parse, c, files, offs), key, Before(parse, key, c, files[key].text, end));
  }

  lemma WithinMoves(files: map<string, File>, offs: map<string, int>, key: string, end: int)
    requires Within(files, offs) && key in files && AtLineStart(files[key].text, end)
    ensures Within(files, offs[key := end])
  {
  }

  lemma PerFileMoves(parse: Parser, c: Column, files: map<string, File>, offs: map<string, int>, key: string, end: int)
    requires Within(files, offs) && key in files && AtLineStart(files[key].text, end)
    ensures Within(files, offs[key := end])
    ensures PerFile(parse, c, files, offs[key := end])
         == PerFile(parse, c, files, offs)[key := Before(parse, key, c, files[key].text, end)]
  {
    WithinMoves(files, offs, key, end);
    PerFileDiffers(parse, c, files, offs, files, offs[key := end], key);
  }

  // ---- the steps keep it

  lemma GrowKeeps(parse: Parser, w: World, key: string, more: string, c: Column)
    requires Placed(w) && Counted(parse, w, c)
    ensures Placed(Acted(parse, w, Grow(key, more))) && Counted(parse, Acted(parse, w, Grow(key, more)), c)
  {
    if key in w.files {
      var w' := Acted(parse, w, Grow(key, more));
      PerFileGrow(parse, c, w.files, w.mem.cursors, key, more);
      PerFileGrow(parse, c, w.files, Saved(w), key, more);
      assert Saved(w') == Saved(w);
    }
  }

  lemma ConsumePlaced(parse: Parser, w: World, key: string, now: Time)
    requires Placed(w) && key in w.files
    requires Yielded(w.files[key].text, w.mem.cursors[key]).0 != Partial
    ensures var (y, pos) := Yielded(w.files[key].text, w.mem.cursors[key]);
            var w' := Consumed(parse, w, key, y, pos, now);
            Placed(w') && Saved(w') == Saved(w)
  {
    var (y, pos) := Yielded(w.files[key].text, w.mem.cursors[key]);
    var w' := Consumed(parse, w, key, y, pos, now);
    assert Saved(w') == Saved(w);
    assert AtLineStart(w.files[key].text, pos);
  }

  lemma ConsumeKeeps(parse: Parser, w: World, key: string, now: Time, c: Column)
    requires Placed(w) && Counted(parse, w, c) && key in w.files
    requires Yielded(w.files[key].text, w.mem.cursors[key]).0 != Partial
    ensures var (y, pos) := Yielded(w.files[key].text, w.mem.cursors[key]);
            var w' := Consumed(parse, w, key, y, pos, now);
            Placed(w') && Counted(parse, w', c)
  {
    var text, from := w.files[key].text, w.mem.cursors[key];
    var (y, pos) := Yielded(text, from);
    ConsumePlaced(parse, w, key, now);
    AllBeforeMoves(parse, c, w.files, w.mem.cursors, key, pos);
    if y.Line? {
      BeforeAdvances(parse, key, c, text, from);
      if parse(key, y.text).Some? {
        TotalTallied(w.mem.buffer, Sighting(now, parse(key, y.text).value), c);
      }
    }
  }

  /** After a flush the committed offsets are the cursors. */
  lemma FlushSaves(w: World, now: Time)
    requires Placed(w)
    ensures Placed(MaybeFlushed(w, now, true)) && Saved(MaybeFlushed(w, now, true)) == w.mem.cursors
  {
    var w' := MaybeFlushed(w, now, true);
    forall k | k in w.files
      ensures SavedAt(w'.db, k) == w.mem.cursors[k]
    {
    }
  }

  lemma FlushKeeps(parse: Parser, w: World, now: Time, force: bool, c: Column)
    requires Placed(w) && Counted(parse, w, c)
    ensures Placed(MaybeFlushed(w, now, force)) && Counted(parse, MaybeFlushed(w, now, force), c)
  {
    if force || now - w.mem.lastFlush >= FLUSH_SECS {
      FlushSaves(w, now);
      TotalMerged(w.db.table, w.mem.buffer, c);
      TotalNone(c);
    }
  }

  lemma CrashKeeps(parse: Parser, w: World, c: Column)
    requires Placed(w) && Counted(parse, w, c)
    ensures Placed(Acted(parse, w, Crash)) && Counted(parse, Acted(parse, w, Crash), c)
  {
    var w' := Acted(parse, w, Crash);
    assert Saved(w') == Saved(w);
    assert w'.mem.cursors == Saved(w);
    TotalNone(c);
  }

  lemma PollKeeps(parse: Parser, w: World, key: string, now: Time, c: Column)
    requires Placed(w) && Counted(parse, w, c)
    ensures Placed(Acted(parse, w, Poll(key, now))) && Counted(parse, Acted(parse, w, Poll(key, now)), c)
  {
    if key in w.files {
      var (y, pos) := Yielded(w.files[key].text, w.mem.cursors[key]);
      if y != Partial {
        var w' := Consumed(parse, w, key, y, pos, now);
        assert Acted(parse, w, Poll(key, now)) == MaybeFlushed(w', now, false);
        ConsumeKeeps(parse, w, key, now, c);
        FlushKeeps(parse, w', now, false, c);
      } else {
        assert Acted(parse, w, Poll(key, now)) == w;
      }
    }
  }

  lemma ActKeeps(parse: Parser, w: World, a: Act, c: Column)
    requires Placed(w) && Counted(parse, w, c)
    ensures Placed(Acted(parse, w, a)) && Counted(parse, Acted(parse, w, a), c)
  {
    match a
    case Grow(key, more) => GrowKeeps(parse, w, key, more, c);
    case Poll(key, now) =>
      PollKeeps(parse, w, key, now, c);
    case Sync(now, force) => FlushKeeps(parse, w, now, force, c);
    case Crash => CrashKeeps(parse, w, c);
  }

  /** In every committed state, after any number of crashes and restarts: every column of
      the committed table counts exactly the complete parsable lines before the committed
      offsets, and the offsets are at line starts, so that a partial line is never counted
      and no line is counted twice. */
  lemma {:induction false} CommittedIsExact(parse: Parser, files: map<string, File>, acts: seq<Act>, c: Column)
    ensures var w := Acts(parse, Fresh(files), acts);
            && Placed(w)
            && Total(w.db.table, c) == AllBefore(parse, c, w.files, Saved(w))
            && Total(w.db.table, c) + Total(w.mem.buffer, c) == AllBefore(parse, c, w.files, w.mem.cursors)
  {
    if acts == [] {
      FreshCounted(parse, files, c);
    } else {
      CommittedIsExact(parse, files, acts[..|acts| - 1], c);
      ActKeeps(parse, Acts(parse, Fresh(files), acts[..|acts| - 1]), acts[|acts| - 1], c);
    }
  }

  lemma FreshCounted(parse: Parser, files: map<string, File>, c: Column)
    ensures Placed(Fresh(files)) && Counted(parse, Fresh(files), c)
  {
    var w := Fresh(files);
    TotalNone(c);
    assert w.mem.cursors == Saved(w);
    SumOfZeros(PerFile(parse, c, files, Saved(w)));
  }

  lemma {:induction false} SumOfZeros<K(!new)>(m: map<K, int>)
    requires forall k :: k in m ==> m[k] == 0
    ensures Sum(m) == 0
    decreases m.Keys
  {
    if m.Keys != {} {
      var k :| k in m.Keys;
      SumWithout(m, k);
      SumOfZeros(m - {k});
    }
  }

  /** Every complete line of every file has been read. */
  ghost predicate Drained(w: World)
    requires Placed(w)
  {
    forall k :: k in w.files ==> LineEnd(w.files[k].text, w.mem.cursors[k]) == None
  }

  /** Once the readers caught up and a flush ran, every complete line of every file is
      counted exactly once, however often the process died on the way. */
  lemma DrainedCountsOnce(parse: Parser, files: map<string, File>, acts: seq<Act>, now: Time, c: Column)
    requires Placed(Acts(parse, Fresh(files), acts)) && Drained(Acts(parse, Fresh(files), acts))
    ensures var w := Acts(parse, Fresh(files), acts + [Sync(now, true)]);
            Total(w.db.table, c)
            == Sum(map k | k in w.files :: Before(parse, k, c, w.files[k].text, |w.files[k].text|))
  {
    var w0 := Acts(parse, Fresh(files), acts);
    assert (acts + [Sync(now, true)])[..|acts|] == acts;
    var w := MaybeFlushed(w0, now, true);
    assert Acts(parse, Fresh(files), acts + [Sync(now, true)]) == w;
    CommittedIsExact(parse, files, acts + [Sync(now, true)], c);
    FlushSaves(w0, now);
    DrainedFiles(parse, w0, w, c);
  }

  lemma DrainedFiles(parse: Parser, w0: World, w: World, c: Column)
    requires Placed(w0) && Drained(w0) && w.files == w0.files && Saved(w) == w0.mem.cursors && Within(w.files, Saved(w))
    ensures PerFile(parse, c, w.files, Saved(w))
            == map k | k in w.files :: Before(parse, k, c, w.files[k].text, |w.files[k].text|)
  {
    forall k | k in w.files
      ensures Before(parse, k, c, w.files[k].text, Saved(w)[k])
              == Before(parse, k, c, w.files[k].text, |w.files[k].text|)
    {
      NothingAfter(w.files[k].text, 0, w0.mem.cursors[k]);
    }
  }

  lemma {:induction false} NothingAfter(text: string, from: nat, pos: nat)
    requires from <= pos <= |text| && AtLineStart(text, pos) && LineEnd(text, pos) == None
    ensures Lines(text, from, |text|) == Lines(text, from, pos)
    decreases |text| - from
  {
    if from < pos {
      var end := LineEnd(text, from);
      assert text[pos - 1] == '\n';
      assert end.Some? && end.value <= pos;
      NothingAfter(text, end.value, pos);
    }
  }

  // ---- the readers do catch up

  /** What is left to read. */
  function Unread(files: map<string, File>, offs: map<string, int>): map<string, int>
    requires offs.Keys == files.Keys
  {
    map k | k in files :: |files[k].text| - offs[k]
  }

  lemma FlushFrame(w: World, now: Time, force: bool)
    requires Placed(w)
    ensures var w' := MaybeFlushed(w, now, force);
            Placed(w') && w'.files == w.files && w'.mem.cursors == w.mem.cursors
  {
    if force || now - w.mem.lastFlush >= FLUSH_SECS {
      FlushSaves(w, now);
    }
  }

  lemma PollIs(parse: Parser, w: World, key: string, now: Time)
    requires key in w.files && key in w.mem.cursors && 0 <= w.mem.cursors[key] <= |w.files[key].text|
    requires LineEnd(w.files[key].text, w.mem.cursors[key]).Some?
    ensures var end := LineEnd(w.files[key].text, w.mem.cursors[key]).value;
            var line := Line(w.files[key].text[w.mem.cursors[key]..end]);
            Acted(parse, w, Poll(key, now)) == MaybeFlushed(Consumed(parse, w, key, line, end, now), now, false)
  {
  }

  /** Polling a source that has a complete line unread reads that line. */
  lemma PollReads(parse: Parser, w: World, key: string, now: Time)
    requires Placed(w) && key in w.files && key in w.mem.cursors
    requires 0 <= w.mem.cursors[key] <= |w.files[key].text|
    requires LineEnd(w.files[key].text, w.mem.cursors[key]).Some?
    ensures var w' := Acted(parse, w, Poll(key, now));
            && Placed(w') && w'.files == w.files
            && w'.mem.cursors == w.mem.cursors[key := LineEnd(w.files[key].text, w.mem.cursors[key]).value]
  {
    var text, from := w.files[key].text, w.mem.cursors[key];
    var end := LineEnd(text, from).value;
    PollIs(parse, w, key, now);
    ConsumePlaced(parse, w, key, now);
    FlushFrame(Consumed(parse, w, key, Line(text[from..end]), end, now), now, false);
  }

  lemma LessUnread(files: map<string, File>, offs: map<string, int>, key: string, end: int)
    requires Within(files, offs) && key in files && offs[key] < end <= |files[key].text|
    ensures 0 <= Sum(Unread(files, offs[key := end])) < Sum(Unread(files, offs))
  {
    var left := |files[key].text| - end;
    var after := Unread(files, offs[key := end]);
    assert after == Unread(files, offs)[key := left];
    SumReplaced(Unread(files, offs), key, left);
    forall k | k in after ensures after[k] >= 0 {
      assert k != key ==> AtLineStart(files[k].text, offs[k]);
    }
    SumNonNegative(after);
  }

  /** How much is left, of a state that is placed. */
  ghost function Left(w: World): int
    requires Placed(w)
  {
    Sum(Unread(w.files, w.mem.cursors))
  }

  /** One more line of some file is read, and less is left. */
  lemma ReadsOne(parse: Parser, w: World, now: Time) returns (key: string)
    requires Placed(w) && !Drained(w)
    ensures var w' := Acted(parse, w, Poll(key, now));
            Placed(w') && 0 <= Left(w') < Left(w)
  {
    key :| key in w.files && LineEnd(w.files[key].text, w.mem.cursors[key]) != None;
    PollReads(parse, w, key, now);
    LessUnread(w.files, w.mem.cursors, key, LineEnd(w.files[key].text, w.mem.cursors[key]).value);
  }

  ghost predicate OnlyPolls(acts: seq<Act>) { forall i :: 0 <= i < |acts| ==> acts[i].Poll? }

  lemma {:induction false} ActsOn(parse: Parser, w: World, first: Act, acts: seq<Act>)
    ensures Acts(parse, w, [first] + acts) == Acts(parse, Acted(parse, w, first), acts)
    decreases |acts|
  {
    if acts == [] {
      assert [first] + acts == [first] && [first][..0] == [];
      assert Acts(parse, w, []) == w;
    } else {
      ActsOn(parse, w, first, acts[..|acts| - 1]);
      assert ([first] + acts)[..|acts|] == [first] + acts[..|acts| - 1];
    }
  }

  /** From every state, polling alone reads every complete line of every file. */
  lemma {:induction false} CatchesUp(parse: Parser, w: World, now: Time) returns (acts: seq<Act>)
    requires Placed(w)
    ensures OnlyPolls(acts) && Placed(Acts(parse, w, acts)) && Drained(Acts(parse, w, acts))
    decreases Left(w)
  {
    if Drained(w) {
      acts := [];
    } else {
      var k := ReadsOne(parse, w, now);
      var rest := CatchesUp(parse, Acted(parse, w, Poll(k, now)), now);
      ActsOn(parse, w, Poll(k, now), rest);
      acts := [Poll(k, now)] + rest;
    }
  }

  lemma {:induction false} ActsThen(parse: Parser, w: World, acts: seq<Act>, more: seq<Act>)
    ensures Acts(parse, w, acts + more) == Acts(parse, Acts(parse, w, acts), more)
    decreases |more|
  {
    if more == [] {
      assert acts + more == acts;
    } else {
      ActsThen(parse, w, acts, more[..|more| - 1]);
      assert (acts + more)[..|acts + more| - 1] == acts + more[..|more| - 1];
    }
  }

  /** However a run went, it can be completed by polls and a flush, after which every complete
      line of every file is counted exactly once, in every column. */
  lemma EveryLineGetsCounted(parse: Parser, files: map<string, File>, acts: seq<Act>, now: Time)
    returns (polls: seq<Act>)
    ensures OnlyPolls(polls)
    ensures forall c :: var w := Acts(parse, Fresh(files), acts + polls + [Sync(now, true)]);
              Total(w.db.table, c)
              == Sum(map k | k in w.files :: Before(parse, k, c, w.files[k].text, |w.files[k].text|))
  {
    CommittedIsExact(parse, files, acts, AllRequests);
    polls := CatchesUp(parse, Acts(parse, Fresh(files), acts), now);
    ActsThen(parse, Fresh(files), acts, polls);
    forall c {
      DrainedCountsOnce(parse, files, acts + polls, now, c);
    }
  }

  // ---- the same steps as the engine object's

  /** The part of the engine object that this model looks at. */
  function Seen(w: Whole, files: map<string, File>, cursors: map<string, int>): World {
    World(files, Db(w.state.table, w.marks), Memory(w.state.buffer, w.tail, w.flushed, w.state.lastFlush, cursors))
  }

  /** What `DetectionEngine.TailRound` promises is the round that `Poll` takes here. */
  lemma TailRoundIsPoll(u: Setup, parse: Parser, w: Whole, files: map<string, File>, cursors: map<string, int>,
                        key: string,
                        now: Time, catchall: map<string, bool>, muted: set<string>)
    requires key in files && key in cursors && 0 <= cursors[key] <= |files[key].text|
    requires Yielded(files[key].text, cursors[key]).0 != Partial
    ensures var (y, pos) := Yielded(files[key].text, cursors[key]);
            var fed := AfterLine(u, w.state, line => parse(key, line), y, now, catchall, muted);
            var w' := FlushedWhole(All(fed, w.tail[key := Mark(files[key].ino, pos)], w.flushed, w.marks), now, false);
            Seen(w', files, cursors[key := pos]) == Acted(parse, Seen(w, files, cursors), Poll(key, now))
  {
  }
}
