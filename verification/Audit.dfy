/** The rotating audit log: one live file of lines, and archives that are only ever added. */
module Audit {
  import opened Options
  import opened Sequences

  /** Bytes of one character in UTF-8. */
  function Width(c: char): nat {
    var n := c as int;
    if n < 0x80 then 1 else if n < 0x800 then 2 else if n < 0x1_0000 then 3 else 4
  }

  function ByteLength(s: string): nat {
    if s == [] then 0 else Width(s[0]) + ByteLength(s[1..])
  }

  /** The size of a file of lines, each with its newline. */
  function Size(lines: seq<string>): nat {
    if lines == [] then 0 else Size(lines[..|lines| - 1]) + ByteLength(lines[|lines| - 1]) + 1
  }

  // --------------------------------------------------------------- archive names

  function Digits(n: nat): (r: string)
    ensures r != []
  {
    if n < 10 then [('0' as int + n) as char] else Digits(n / 10) + [('0' as int + n % 10) as char]
  }

  function Number(s: string): int {
    if s == [] then 0 else Number(s[..|s| - 1]) * 10 + (s[|s| - 1] as int - '0' as int)
  }

  lemma {:induction false} NumberOfDigits(n: nat)
    ensures Number(Digits(n)) == n
  {
    if n >= 10 {
      NumberOfDigits(n / 10);
      assert Digits(n)[..|Digits(n)| - 1] == Digits(n / 10);
    } else {
      assert Digits(n)[..0] == [];
    }
  }

  /** The file's name around the time stamp: stem and suffix. */
  datatype Naming = Naming(stem: string, suffix: string)

  /** The archive name for a time stamp; the first try has no counter. */
  function ArchiveName(naming: Naming, stamp: string, counter: nat): string {
    naming.stem + "-" + stamp + (if counter == 0 then "" else "-" + Digits(counter)) + naming.suffix
  }

  lemma ArchiveNamesDiffer(naming: Naming, stamp: string, i: nat, j: nat)
    requires i != j
    ensures ArchiveName(naming, stamp, i) != ArchiveName(naming, stamp, j)
  {
    var front := naming.stem + "-" + stamp;
    var x, y := if i == 0 then "" else "-" + Digits(i), if j == 0 then "" else "-" + Digits(j);
    if ArchiveName(naming, stamp, i) == ArchiveName(naming, stamp, j) {
      assert (front + x + naming.suffix)[|front|..|front| + |x|] == x;
      assert (front + y + naming.suffix)[|front|..|front| + |y|] == y;
      assert |front + x + naming.suffix| == |front| + |x| + |naming.suffix|;
      assert |front + y + naming.suffix| == |front| + |y| + |naming.suffix|;
      assert x == y;
      assert i != 0 && j != 0 && x[1..] == Digits(i) && y[1..] == Digits(j);
      NumberOfDigits(i);
      NumberOfDigits(j);
    }
  }

  function Tried(naming: Naming, stamp: string, counter: nat): set<string> {
    set k | 0 <= k < counter :: ArchiveName(naming, stamp, k)
  }

  /** Each taken name is a new one, so the search uses up the archives. */
  lemma OneLessToTry(names: set<string>, naming: Naming, stamp: string, counter: nat)
    requires ArchiveName(naming, stamp, counter) in names
    ensures |names - Tried(naming, stamp, counter + 1)| < |names - Tried(naming, stamp, counter)|
  {
    var name := ArchiveName(naming, stamp, counter);
    forall k | 0 <= k < counter
      ensures ArchiveName(naming, stamp, k) != name
    {
      ArchiveNamesDiffer(naming, stamp, k, counter);
    }
    var before, after := names - Tried(naming, stamp, counter), names - Tried(naming, stamp, counter + 1);
    assert name in before && name !in after;
    assert after <= before - {name};
    Smaller(after, before - {name});
  }

  lemma {:induction false} Smaller<T>(a: set<T>, b: set<T>)
    requires a <= b
    ensures |a| <= |b|
  {
    assert b == a + (b - a);
  }

  /** The first counter from `counter` on whose name is unused. */
  function FirstFree(names: set<string>, naming: Naming, stamp: string, counter: nat): (k: nat)
    ensures k >= counter && ArchiveName(naming, stamp, k) !in names
    ensures forall i | counter <= i < k :: ArchiveName(naming, stamp, i) in names
    decreases |names - Tried(naming, stamp, counter)|
  {
    if ArchiveName(naming, stamp, counter) !in names then counter
    else
      OneLessToTry(names, naming, stamp, counter);
      FirstFree(names, naming, stamp, counter + 1)
  }

  // ---------------------------------------------------------------------- the log

  /** The live file, if there is one, the archives, and the archives' names in the order they came about. */
  datatype Log = Log(live: Option<seq<string>>, archives: map<string, seq<string>>, order: seq<string>)

  const EMPTY := Log(None, map[], [])

  /** A line to record, and the clock's stamp should the file be rotated for it. */
  datatype Entry = Entry(line: string, stamp: string)

  predicate MustRotate(log: Log, maxBytes: int, line: string) {
    log.live.Some? && Size(log.live.value) + ByteLength(line) + 1 > maxBytes
  }

  function Rotated(log: Log, naming: Naming, stamp: string): Log
    requires log.live.Some?
  {
    var target := ArchiveName(naming, stamp, FirstFree(log.archives.Keys, naming, stamp, 0));
    Log(None, log.archives[target := log.live.value], log.order + [target])
  }

  function Lines(live: Option<seq<string>>): seq<string> {
    if live.Some? then live.value else []
  }

  function Recorded(log: Log, naming: Naming, maxBytes: int, e: Entry): Log {
    var ready := if MustRotate(log, maxBytes, e.line) then Rotated(log, naming, e.stamp) else log;
    ready.(live := Some(Lines(ready.live) + [e.line]))
  }

  function Run(log: Log, naming: Naming, maxBytes: int, entries: seq<Entry>): Log
    decreases entries
  {
    if entries == [] then log else Run(Recorded(log, naming, maxBytes, entries[0]), naming, maxBytes, entries[1..])
  }

  // ------------------------------------------------------------------ conservation

  /** Every archive is listed once, in the order of rotation. */
  ghost predicate OrderOk(log: Log) {
    && (forall i | 0 <= i < |log.order| :: log.order[i] in log.archives)
    && (forall i, j | 0 <= i < j < |log.order| :: log.order[i] != log.order[j])
    && (forall name | name in log.archives :: name in log.order)
  }

  predicate WithinBound(lines: seq<string>, maxBytes: int) {
    lines == [] || Size(lines) <= maxBytes || |lines| == 1
  }

  ghost predicate Bounded(log: Log, maxBytes: int) {
    && WithinBound(Lines(log.live), maxBytes)
    && forall name | name in log.archives :: WithinBound(log.archives[name], maxBytes)
  }

  function Archived(archives: map<string, seq<string>>, order: seq<string>): seq<string>
    requires forall i | 0 <= i < |order| :: order[i] in archives
  {
    if order == [] then []
    else Archived(archives, order[..|order| - 1]) + archives[order[|order| - 1]]
  }

  /** Everything ever recorded: the archives in rotation order, then the live file. */
  function AllLines(log: Log): seq<string>
    requires OrderOk(log)
  {
    Archived(log.archives, log.order) + Lines(log.live)
  }

  lemma {:induction false} ArchivedKeeps(archives: map<string, seq<string>>, order: seq<string>, name: string,
                                         lines: seq<string>)
    requires (forall i | 0 <= i < |order| :: order[i] in archives) && name !in order
    ensures Archived(archives[name := lines], order) == Archived(archives, order)
  {
    if order != [] {
      assert order[|order| - 1] in order;
      ArchivedKeeps(archives, order[..|order| - 1], name, lines);
    }
  }

  /** A rotation moves the live lines behind the archived ones and overwrites nothing. */
  lemma RotationConserves(log: Log, naming: Naming, stamp: string)
    requires OrderOk(log) && log.live.Some?
    ensures var r := Rotated(log, naming, stamp);
      && OrderOk(r) && AllLines(r) == AllLines(log)
      && forall name | name in log.archives :: name in r.archives && r.archives[name] == log.archives[name]
  {
    var target := ArchiveName(naming, stamp, FirstFree(log.archives.Keys, naming, stamp, 0));
    var r := Rotated(log, naming, stamp);
    assert target !in log.order;
    ArchivedKeeps(log.archives, log.order, target, log.live.value);
    assert r.order[..|r.order| - 1] == log.order;
    assert Lines(r.live) == [];
  }

  /** One record: its line comes last, and every archive stays as it was. */
  lemma RecordConserves(log: Log, naming: Naming, maxBytes: int, e: Entry)
    requires OrderOk(log)
    ensures var r := Recorded(log, naming, maxBytes, e);
      && OrderOk(r) && AllLines(r) == AllLines(log) + [e.line]
      && (forall name | name in log.archives :: name in r.archives && r.archives[name] == log.archives[name])
  {
    hide Rotated;
    var ready := if MustRotate(log, maxBytes, e.line) then Rotated(log, naming, e.stamp) else log;
    if MustRotate(log, maxBytes, e.line) {
      RotationConserves(log, naming, e.stamp);
    }
    Assoc(Archived(ready.archives, ready.order), Lines(ready.live), [e.line]);
  }

  function EntryLines(entries: seq<Entry>): seq<string> {
    if entries == [] then [] else [entries[0].line] + EntryLines(entries[1..])
  }

  /** Over every run the files together hold exactly the recorded lines, in order, and no archive changes. */
  lemma {:induction false} RunsConserve(log: Log, naming: Naming, maxBytes: int, entries: seq<Entry>)
    requires OrderOk(log)
    ensures var r := Run(log, naming, maxBytes, entries);
      && OrderOk(r) && AllLines(r) == AllLines(log) + EntryLines(entries)
      && (forall name | name in log.archives :: name in r.archives && r.archives[name] == log.archives[name])
    decreases entries
  {
    hide Recorded, OrderOk, AllLines;
    if entries != [] {
      var next := Recorded(log, naming, maxBytes, entries[0]);
      RecordConserves(log, naming, maxBytes, entries[0]);
      RunsConserve(next, naming, maxBytes, entries[1..]);
      Assoc(AllLines(log), [entries[0].line], EntryLines(entries[1..]));
    } else {
      assert AllLines(log) + [] == AllLines(log);
    }
  }

  /** No file, live or archived, exceeds the limit unless it is a single oversized line. */
  lemma RecordStaysBounded(log: Log, naming: Naming, maxBytes: int, e: Entry)
    requires Bounded(log, maxBytes)
    ensures Bounded(Recorded(log, naming, maxBytes, e), maxBytes)
  {
    var r := Recorded(log, naming, maxBytes, e);
    var live := Lines(r.live);
    assert live[..|live| - 1] + [e.line] == live;
  }

  lemma {:induction false} RunsStayBounded(naming: Naming, maxBytes: int, log: Log, entries: seq<Entry>)
    requires Bounded(log, maxBytes)
    ensures Bounded(Run(log, naming, maxBytes, entries), maxBytes)
    decreases entries
  {
    hide Recorded, Bounded;
    if entries != [] {
      RecordStaysBounded(log, naming, maxBytes, entries[0]);
      RunsStayBounded(naming, maxBytes, Recorded(log, naming, maxBytes, entries[0]), entries[1..]);
    }
  }

  /** Hence the live file is never larger than the limit or its own last line, whichever is more. */
  lemma LiveFileBound(naming: Naming, maxBytes: int, entries: seq<Entry>)
    ensures var live := Lines(Run(EMPTY, naming, maxBytes, entries).live);
      live == [] || Size(live) <= maxBytes || Size(live) == ByteLength(live[|live| - 1]) + 1
  {
    RunsStayBounded(naming, maxBytes, EMPTY, entries);
    var live := Lines(Run(EMPTY, naming, maxBytes, entries).live);
    if |live| == 1 {
      assert live[..0] == [];
    }
  }

  // ------------------------------------------------------------------- when it rotates

  lemma SizeOfMore(lines: seq<string>, line: string)
    ensures Size(lines + [line]) == Size(lines) + ByteLength(line) + 1
  {
    assert (lines + [line])[..|lines|] == lines;
  }

  /**
   * A record starts a new file exactly if there is a file and it would grow beyond the limit: then the whole
   * file becomes one archive under the first unused name. Otherwise the archives stay and the file grows.
   */
  lemma RotatesExactlyWhen(log: Log, naming: Naming, maxBytes: int, e: Entry)
    ensures var r := Recorded(log, naming, maxBytes, e);
      if log.live.None? || Size(log.live.value + [e.line]) <= maxBytes then
        r.archives == log.archives && r.order == log.order && r.live == Some(Lines(log.live) + [e.line])
      else
        && r.live == Some([e.line]) && |r.order| == |log.order| + 1 && r.order[..|log.order|] == log.order
        && var name := r.order[|log.order|];
           && name !in log.archives && r.archives == log.archives[name := log.live.value]
           && exists k :: 0 <= k && name == ArchiveName(naming, e.stamp, k)
                && forall i | 0 <= i < k :: ArchiveName(naming, e.stamp, i) in log.archives
  {
    hide Size, ByteLength, ArchiveName;
    if log.live.Some? {
      SizeOfMore(log.live.value, e.line);
      assert [] + [e.line] == [e.line];
    }
  }

  /** The file that follows the archive at place `i`: the next archive, or the live file. */
  function Following(log: Log, i: nat): seq<string>
    requires OrderOk(log) && i < |log.order|
  {
    if i + 1 < |log.order| then log.archives[log.order[i + 1]] else Lines(log.live)
  }

  /** No archive was closed early: it could not have taken the first line of the file that follows it. */
  ghost predicate Packed(log: Log, maxBytes: int) {
    && OrderOk(log) && (log.live.Some? ==> log.live.value != []) && (log.order != [] ==> log.live.Some?)
    && (forall i | 0 <= i < |log.order| :: Following(log, i) != [])
    && forall i | 0 <= i < |log.order| ::
         Size(log.archives[log.order[i]]) + ByteLength(Following(log, i)[0]) + 1 > maxBytes
  }

  /** The record that follows a rotation: the closed file is now the last archive. */
  lemma RotationStaysPacked(log: Log, r: Log, maxBytes: int, line: string, name: string)
    requires Packed(log, maxBytes) && OrderOk(r) && log.live.Some? && r.live == Some([line])
    requires r.order == log.order + [name] && name !in log.archives
    requires r.archives == log.archives[name := log.live.value]
    requires Size(log.live.value) + ByteLength(line) + 1 > maxBytes
    ensures Packed(r, maxBytes)
  {
    assert forall i | 0 <= i < |r.order| :: r.order[i] in r.archives;
    hide Size, ByteLength, OrderOk;
    var n := |log.order|;
    forall i | 0 <= i < |r.order|
      ensures Following(r, i) != []
      ensures Size(r.archives[r.order[i]]) + ByteLength(Following(r, i)[0]) + 1 > maxBytes
    {
      if i < n {
        OldArchive(log, r, name, i);
      } else {
        assert r.archives[r.order[i]] == log.live.value;
      }
    }
  }

  lemma OldArchive(log: Log, r: Log, name: string, i: nat)
    requires OrderOk(log) && OrderOk(r) && log.live.Some? && i < |log.order|
    requires r.order == log.order + [name] && name !in log.archives
    requires r.archives == log.archives[name := log.live.value]
    ensures r.order[i] == log.order[i] && log.order[i] in log.archives
    ensures r.archives[r.order[i]] == log.archives[log.order[i]] && Following(r, i) == Following(log, i)
  {
    if i + 1 < |log.order| {
      assert r.order[i + 1] == log.order[i + 1];
    }
  }

  lemma RecordStaysPacked(log: Log, naming: Naming, maxBytes: int, e: Entry)
    requires Packed(log, maxBytes)
    ensures Packed(Recorded(log, naming, maxBytes, e), maxBytes)
  {
    hide *;
    var r := Recorded(log, naming, maxBytes, e);
    assert OrderOk(log) by { PackedFacts(log, maxBytes); }
    RecordConserves(log, naming, maxBytes, e);
    RotatesExactlyWhen(log, naming, maxBytes, e);
    if log.live.None? || Size(log.live.value + [e.line]) <= maxBytes {
      LiveGrows(log, r, maxBytes, e.line);
    } else {
      SizeOfMore(log.live.value, e.line);
      assert r.order == log.order + [r.order[|log.order|]];
      RotationStaysPacked(log, r, maxBytes, e.line, r.order[|log.order|]);
    }
  }

  lemma PackedFacts(log: Log, maxBytes: int)
    requires Packed(log, maxBytes)
    ensures OrderOk(log)
  {
  }

  lemma LiveGrows(log: Log, r: Log, maxBytes: int, line: string)
    requires Packed(log, maxBytes) && OrderOk(r)
    requires r == Log(Some(Lines(log.live) + [line]), log.archives, log.order)
    ensures Packed(r, maxBytes)
  {
    assert OrderOk(log);
    hide Size, ByteLength, OrderOk;
    forall i | 0 <= i < |r.order|
      ensures Following(r, i) != [] && Following(r, i)[0] == Following(log, i)[0]
    {
      FollowingGrows(log, r, line, i);
    }
  }

  lemma FollowingGrows(log: Log, r: Log, line: string, i: nat)
    requires OrderOk(log) && OrderOk(r) && i < |log.order| && Following(log, i) != []
    requires r == Log(Some(Lines(log.live) + [line]), log.archives, log.order)
    ensures Following(r, i) != [] && Following(r, i)[0] == Following(log, i)[0]
  {
  }

  /** Over every run each archive is as full as the lines that came allowed, if it was so before. */
  lemma {:induction false} RunsStayPacked(log: Log, naming: Naming, maxBytes: int, entries: seq<Entry>)
    requires Packed(log, maxBytes)
    ensures Packed(Run(log, naming, maxBytes, entries), maxBytes)
    decreases entries
  {
    hide Recorded, Packed;
    if entries != [] {
      RecordStaysPacked(log, naming, maxBytes, entries[0]);
      RunsStayPacked(Recorded(log, naming, maxBytes, entries[0]), naming, maxBytes, entries[1..]);
    }
  }

  /** A log that started empty never closes a file early. */
  lemma RunsFromEmptyArePacked(naming: Naming, maxBytes: int, entries: seq<Entry>)
    ensures Packed(Run(EMPTY, naming, maxBytes, entries), maxBytes)
  {
    RunsStayPacked(EMPTY, naming, maxBytes, entries);
  }

  // ---------------------------------------------------------------------- reading

  /** Python's `lines[-limit:]`, for any limit. */
  function Tail(lines: seq<string>, limit: int): seq<string> {
    if limit > 0 then (if limit < |lines| then lines[|lines| - limit..] else lines)
    else if -limit <= |lines| then lines[-limit..] else []
  }

  /** The entries of some lines; blank and unreadable ones are skipped. */
  function EntriesOf<E>(parse: string -> Option<E>, lines: seq<string>): seq<E> {
    if lines == [] then []
    else
      var last := parse(lines[|lines| - 1]);
      EntriesOf(parse, lines[..|lines| - 1]) + if last.Some? then [last.value] else []
  }

  /** A positive limit yields a suffix of all that was recorded; archived lines are not looked at. */
  lemma TailIsTheNewest(log: Log, limit: int)
    requires OrderOk(log) && limit > 0
    ensures var t := Tail(Lines(log.live), limit);
      |t| == (if limit < |Lines(log.live)| then limit else |Lines(log.live)|)
      && t == AllLines(log)[|AllLines(log)| - |t|..]
  {
  }

  /** The limit bounds the answer exactly when it is positive or there is nothing to read: zero reads all. */
  lemma LimitZeroReadsEverything(lines: seq<string>, limit: nat)
    ensures |Tail(lines, limit)| <= limit <==> limit > 0 || lines == []
    ensures limit == 0 ==> Tail(lines, limit) == lines
  {
    assert lines[0..] == lines;
  }

  /** Readable lines are all read, in order; an unreadable one is skipped and hides no other. */
  lemma {:induction false} ReadableLinesAreRead<E>(parse: string -> Option<E>, lines: seq<string>)
    ensures (forall i | 0 <= i < |lines| :: parse(lines[i]).Some?) ==>
      |EntriesOf(parse, lines)| == |lines|
      && forall i | 0 <= i < |lines| :: Some(EntriesOf(parse, lines)[i]) == parse(lines[i])
  {
    if lines != [] {
      var init := lines[..|lines| - 1];
      ReadableLinesAreRead(parse, init);
      assert forall i | 0 <= i < |init| :: init[i] == lines[i];
    }
  }

  lemma {:induction false} UnreadableLineIsSkipped<E>(parse: string -> Option<E>, a: seq<string>, line: string,
                                                      b: seq<string>)
    requires parse(line).None?
    ensures EntriesOf(parse, a + [line] + b) == EntriesOf(parse, a + b)
    decreases |b|
  {
    if b == [] {
      assert (a + [line] + b)[..|a|] == a && a + b == a;
      assert EntriesOf(parse, a) + [] == EntriesOf(parse, a);
    } else {
      var n := |b| - 1;
      assert (a + [line] + b)[..|a| + 1 + n] == a + [line] + b[..n] && (a + b)[..|a| + n] == a + b[..n];
      UnreadableLineIsSkipped(parse, a, line, b[..n]);
    }
  }

  class AuditLogger {
    const naming: Naming
    const maxBytes: int
    var live: Option<seq<string>>
    var archives: map<string, seq<string>>
    /** Rotation order; the directory itself does not keep one. */
    ghost var order: seq<string>

    constructor (naming: Naming, maxBytes: int)
      ensures this.naming == naming && this.maxBytes == maxBytes && State() == EMPTY
    {
      this.naming, this.maxBytes := naming, maxBytes;
      live, archives, order := None, map[], [];
    }

    ghost function State(): Log
      reads this
    {
      Log(live, archives, order)
    }

    /** Move a full live file to an archive whose name nothing uses yet. */
    method RotateIfNeeded(line: string, stamp: string)
      modifies this
      ensures State() ==
        if MustRotate(old(State()), maxBytes, line) then Rotated(old(State()), naming, stamp) else old(State())
    {
      if live.None? || Size(live.value) + ByteLength(line) + 1 <= maxBytes {
        return;
      }
      var target := ArchiveName(naming, stamp, 0);
      var counter := 1;
      while target in archives
        invariant State() == old(State())
        invariant counter >= 1 && target == ArchiveName(naming, stamp, counter - 1)
        invariant FirstFree(archives.Keys, naming, stamp, counter - 1) == FirstFree(archives.Keys, naming, stamp, 0)
        decreases |archives.Keys - Tried(naming, stamp, counter - 1)|
      {
        OneLessToTry(archives.Keys, naming, stamp, counter - 1);
        target := ArchiveName(naming, stamp, counter);
        counter := counter + 1;
      }
      archives := archives[target := live.value];
      order := order + [target];
      live := None;
    }

    /** Append one line, after rotating if it would not fit. */
    method Record(line: string, stamp: string)
      modifies this
      ensures State() == Recorded(old(State()), naming, maxBytes, Entry(line, stamp))
    {
      RotateIfNeeded(line, stamp);
      live := Some((if live.Some? then live.value else []) + [line]);
    }

    method ReadEntries<E>(parse: string -> Option<E>, limit: int) returns (entries: seq<E>)
      ensures entries == EntriesOf(parse, Tail(Lines(live), limit))
    {
      entries := [];
      if live.None? {
        return;
      }
      var lines := Tail(live.value, limit);
      for i := 0 to |lines|
        invariant entries == EntriesOf(parse, lines[..i])
      {
        assert lines[..i + 1][..i] == lines[..i];
        var entry := parse(lines[i]);
        if entry.Some? {
          entries := entries + [entry.value];
        }
      }
      assert lines[..|lines|] == lines;
    }
  }
}
