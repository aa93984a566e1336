/** Log capture of src/container.cpp: a container's output cut into lines, written to
  * <name>.log and rotated to <name>.log.1 by size.
  */
module LogCapture {
  import opened TextLines

  // ---- the files ---------------------------------------------------------------------

  /** limit is LOG_SIZE_BYTES; whether renaming over .log.1 and reopening .log succeed. */
  datatype Disk = Disk(limit: nat, renames: bool, opens: bool)

  /** open: the write descriptor is; log and prev: contents of .log and .log.1.
    * Auxiliary: the text written since the last clear, and its longest line.
    */
  datatype Files = Files(open: bool, log: string, prev: string, written: string, longest: nat)

  /** The files and the incomplete trailing line. */
  datatype Capture = Capture(files: Files, partial: string)

  /** A log that has reached the limit is renamed away; if that fails it is emptied on
    * reopening, and if that fails too it stays as it is.
    */
  function Rotate(disk: Disk, f: Files): Files {
    if !f.open || |f.log| < disk.limit then f
    else
      f.(open := disk.opens, log := if disk.renames || disk.opens then "" else f.log,
         prev := if disk.renames then f.log else f.prev)
  }

  function Max(a: nat, b: nat): nat {
    if a < b then b else a
  }

  function Write(disk: Disk, f: Files, line: string): Files {
    if !f.open then f
    else
      var l := line + "\n";
      Rotate(disk, f.(log := f.log + l, written := f.written + l, longest := Max(f.longest, |l|)))
  }

  function WriteAll(disk: Disk, f: Files, lines: seq<string>): Files
    decreases lines
  {
    if lines == [] then f else WriteAll(disk, Write(disk, f, lines[0]), lines[1..])
  }

  lemma {:induction false} WriteAllConcat(disk: Disk, f: Files, a: seq<string>, b: seq<string>)
    ensures WriteAll(disk, f, a + b) == WriteAll(disk, WriteAll(disk, f, a), b)
    decreases a
  {
    if a == [] {
      assert a + b == b;
    } else {
      assert (a + b)[0] == a[0] && (a + b)[1..] == a[1..] + b;
      WriteAllConcat(disk, Write(disk, f, a[0]), a[1..], b);
    }
  }

  // ---- reads ------------------------------------------------------------------------------

  /** log_append */
  function Append(disk: Disk, c: Capture, data: string): Capture {
    var s := c.partial + data;
    Capture(WriteAll(disk, c.files, Lines(s)), Remainder(s))
  }

  function AppendAll(disk: Disk, c: Capture, chunks: seq<string>): Capture
    decreases chunks
  {
    if chunks == [] then c else AppendAll(disk, Append(disk, c, chunks[0]), chunks[1..])
  }

  lemma AppendTwice(disk: Disk, c: Capture, a: string, b: string)
    ensures Append(disk, Append(disk, c, a), b) == Append(disk, c, a + b)
  {
    var s := c.partial + a;
    assert c.partial + (a + b) == s + b;
    LinesGoOn(s, b);
    WriteAllConcat(disk, c.files, Lines(s), Lines(Remainder(s) + b));
  }

  /** However a stream is cut into reads, the files and the kept remainder come out as
    * if it had been read at once.
    */
  lemma {:induction false} ChunksDoNotMatter(disk: Disk, c: Capture, chunks: seq<string>)
    requires OneLine(c.partial)
    ensures AppendAll(disk, c, chunks) == Append(disk, c, Concat(chunks))
    decreases chunks
  {
    if chunks == [] {
      assert c.partial + "" == c.partial;
    } else {
      LinesAreLines(c.partial + chunks[0]);
      ChunksDoNotMatter(disk, Append(disk, c, chunks[0]), chunks[1..]);
      AppendTwice(disk, c, chunks[0], Concat(chunks[1..]));
    }
  }

  /** An open log that can be reopened takes every line. */
  lemma {:induction false} WriteAllTakes(disk: Disk, f: Files, lines: seq<string>)
    requires f.open && disk.opens
    ensures var g := WriteAll(disk, f, lines); g.open && g.written == f.written + Join(lines)
    decreases lines
  {
    if lines == [] {
      assert f.written + "" == f.written;
    } else {
      var l := lines[0] + "\n";
      WriteAllTakes(disk, Write(disk, f, lines[0]), lines[1..]);
      Assoc(f.written, l, Join(lines[1..]));
    }
  }

  lemma AppendTakes(disk: Disk, c: Capture, data: string)
    requires c.files.open && disk.opens
    ensures var d := Append(disk, c, data);
      d.files.open && d.files.written + d.partial == (c.files.written + c.partial) + data
  {
    var s := c.partial + data;
    WriteAllTakes(disk, c.files, Lines(s));
    LinesJoin(s);
    Assoc(c.files.written, Join(Lines(s)), Remainder(s));
    Assoc(c.files.written, c.partial, data);
  }

  /** Nothing of what a container says is lost on its way: what has been written and the
    * kept remainder are what was there before, followed by all data in order.
    */
  lemma {:induction false} NothingIsLost(disk: Disk, c: Capture, chunks: seq<string>)
    requires c.files.open && disk.opens
    ensures var d := AppendAll(disk, c, chunks);
      d.files.open && d.files.written + d.partial == (c.files.written + c.partial) + Concat(chunks)
    decreases chunks
  {
    if chunks == [] {
      assert (c.files.written + c.partial) + "" == c.files.written + c.partial;
    } else {
      var all := c.files.written + c.partial;
      AppendTakes(disk, c, chunks[0]);
      NothingIsLost(disk, Append(disk, c, chunks[0]), chunks[1..]);
      Assoc(all, chunks[0], Concat(chunks[1..]));
    }
  }

  // ---- bounds -----------------------------------------------------------------------------

  predicate Suffix(a: string, b: string) {
    |a| <= |b| && b[|b| - |a|..] == a
  }

  /** .log.1 followed by .log is the end of what was written; .log stays below the
    * limit, and .log.1 holds at least the limit once there is one.
    */
  predicate Bounded(limit: nat, f: Files) {
    && Suffix(f.prev + f.log, f.written) && |f.log| < limit
    && if f.prev == "" then f.log == f.written else limit <= |f.prev| < limit + f.longest
  }

  lemma WriteBounded(disk: Disk, f: Files, line: string)
    requires Bounded(disk.limit, f) && disk.renames
    ensures Bounded(disk.limit, Write(disk, f, line))
  {
    if f.open {
      var l := line + "\n";
      SuffixGrows(f.prev + f.log, f.written, l);
      assert (f.prev + f.log) + l == f.prev + (f.log + l);
      if |f.log + l| >= disk.limit {
        SuffixOfSuffix(f.prev, f.log + l, f.written + l);
        assert (f.log + l) + "" == f.log + l;
      }
    }
  }

  lemma SuffixGrows(a: string, b: string, l: string)
    requires Suffix(a, b)
    ensures Suffix(a + l, b + l)
  {
    assert (b + l)[|b| - |a|..] == b[|b| - |a|..] + l;
  }

  lemma SuffixOfSuffix(a: string, b: string, c: string)
    requires Suffix(a + b, c)
    ensures Suffix(b, c)
  {
    assert c[|c| - |b|..] == c[|c| - |a + b|..][|a|..];
  }

  lemma {:induction false} WriteAllBounded(disk: Disk, f: Files, lines: seq<string>)
    requires Bounded(disk.limit, f) && disk.renames
    ensures Bounded(disk.limit, WriteAll(disk, f, lines))
    decreases lines
  {
    if lines != [] {
      WriteBounded(disk, f, lines[0]);
      WriteAllBounded(disk, Write(disk, f, lines[0]), lines[1..]);
    }
  }

  /** What can happen to a container's log. */
  datatype Op = Open | Data(chunk: string) | Close | Clear

  function Do(disk: Disk, c: Capture, op: Op): Capture {
    match op
    case Open => if c.files.open then c else c.(files := c.files.(open := disk.opens))
    case Data(chunk) => Append(disk, c, chunk)
    case Close =>
      var f := if c.partial == "" then c.files else Write(disk, c.files, c.partial);
      Capture(f.(open := false), "")
    case Clear => Capture(c.files.(log := "", prev := "", written := "", longest := 0), "")
  }

  function DoAll(disk: Disk, c: Capture, ops: seq<Op>): Capture
    decreases ops
  {
    if ops == [] then c else DoAll(disk, Do(disk, c, ops[0]), ops[1..])
  }

  lemma {:induction false} RunBounded(disk: Disk, c: Capture, ops: seq<Op>)
    requires Bounded(disk.limit, c.files) && disk.renames && disk.limit > 0
    ensures Bounded(disk.limit, DoAll(disk, c, ops).files)
    decreases ops
  {
    if ops != [] {
      match ops[0] {
        case Open =>
        case Data(chunk) => WriteAllBounded(disk, c.files, Lines(c.partial + chunk));
        case Close => WriteBounded(disk, c.files, c.partial);
        case Clear =>
      }
      RunBounded(disk, Do(disk, c, ops[0]), ops[1..]);
    }
  }

  /** Whatever happens from a cleared log on, as long as renames succeed: the two files
    * together are the end of all that was written since the last clear, at least the
    * limit or everything, and less than twice the limit and the longest line.
    */
  lemma RecentTextIsKept(disk: Disk, c: Capture, ops: seq<Op>)
    requires disk.renames && disk.limit > 0
    ensures var f := DoAll(disk, Do(disk, c, Clear), ops).files;
      && Suffix(f.prev + f.log, f.written)
      && (f.prev + f.log == f.written || disk.limit <= |f.prev + f.log|)
      && |f.prev + f.log| < 2 * disk.limit + f.longest
  {
    var c0 := Do(disk, c, Clear);
    assert Bounded(disk.limit, c0.files);
    RunBounded(disk, c0, ops);
    var f := DoAll(disk, c0, ops).files;
    if f.prev == "" { assert f.prev + f.log == f.log; }
  }

  /** A cleared log holds what comes afterwards and nothing from before, not even the
    * beginning of a line.
    */
  lemma ClearForgets(disk: Disk, c: Capture, chunks: seq<string>)
    requires c.files.open && disk.opens
    ensures var d := AppendAll(disk, Do(disk, c, Clear), chunks);
      d.files.written + d.partial == Concat(chunks) && Suffix(d.files.log, d.files.written)
  {
    var c0 := Do(disk, c, Clear);
    NothingIsLost(disk, c0, chunks);
    assert (c0.files.written + c0.partial) + Concat(chunks) == Concat(chunks);
    AppendAllRecent(disk, c0, chunks);
  }

  lemma {:induction false} AppendAllRecent(disk: Disk, c: Capture, chunks: seq<string>)
    requires Suffix(c.files.log, c.files.written)
    ensures var f := AppendAll(disk, c, chunks).files; Suffix(f.log, f.written)
    decreases chunks
  {
    if chunks != [] {
      WriteAllRecent(disk, c.files, Lines(c.partial + chunks[0]));
      AppendAllRecent(disk, Append(disk, c, chunks[0]), chunks[1..]);
    }
  }

  lemma {:induction false} WriteAllRecent(disk: Disk, f: Files, lines: seq<string>)
    requires Suffix(f.log, f.written)
    ensures var g := WriteAll(disk, f, lines); Suffix(g.log, g.written)
    decreases lines
  {
    if lines != [] {
      SuffixGrows(f.log, f.written, lines[0] + "\n");
      WriteAllRecent(disk, Write(disk, f, lines[0]), lines[1..]);
    }
  }

  /** .log is below the limit; or it cannot be rotated, and either holds all that was
    * written or is no longer written to.
    */
  predicate Capped(disk: Disk, f: Files) {
    Suffix(f.log, f.written) && if disk.renames || disk.opens then |f.log| < disk.limit
    else f.log == f.written && (|f.log| < disk.limit || !f.open)
  }

  lemma {:induction false} WriteAllCapped(disk: Disk, f: Files, lines: seq<string>)
    requires Capped(disk, f) && disk.limit > 0
    ensures Capped(disk, WriteAll(disk, f, lines))
    decreases lines
  {
    if lines != [] {
      SuffixGrows(f.log, f.written, lines[0] + "\n");
      WriteAllCapped(disk, Write(disk, f, lines[0]), lines[1..]);
    }
  }

  lemma {:induction false} RunCapped(disk: Disk, c: Capture, ops: seq<Op>)
    requires Capped(disk, c.files) && disk.limit > 0
    ensures Capped(disk, DoAll(disk, c, ops).files)
    decreases ops
  {
    if ops != [] {
      if ops[0].Data? { WriteAllCapped(disk, c.files, Lines(c.partial + ops[0].chunk)); }
      if ops[0].Close? { SuffixGrows(c.files.log, c.files.written, c.partial + "\n"); }
      RunCapped(disk, Do(disk, c, ops[0]), ops[1..]);
    }
  }

  /** From a cleared log on, .log is below the limit if and only if renaming or emptying
    * it works, or less than the limit was written. It is the end of what was written, in
    * every case.
    */
  lemma LogIsCapped(disk: Disk, c: Capture, ops: seq<Op>)
    requires disk.limit > 0
    ensures var f := DoAll(disk, Do(disk, c, Clear), ops).files;
      && (|f.log| < disk.limit <==> disk.renames || disk.opens || |f.written| < disk.limit)
      && Suffix(f.log, f.written)
  {
    RunCapped(disk, Do(disk, c, Clear), ops);
  }

  /** One line can do it. */
  lemma CapCanFail()
    ensures var disk := Disk(4, false, false);
      |DoAll(disk, Capture(Files(true, "", "", "", 0), ""), [Data("full\n")]).files.log| >= disk.limit
  {
    var disk, c := Disk(4, false, false), Capture(Files(true, "", "", "", 0), "");
    assert "" + "full\n" == "full" + "\n" + "";
    LineInFront("full", "");
    OneWritten(disk, c.files, "full");
    assert DoAll(disk, c, [Data("full\n")]) == DoAll(disk, Append(disk, c, "full\n"), [Data("full\n")][1..]);
  }

  /** Closing writes the remainder as if its newline had come. */
  lemma CloseIsNewline(disk: Disk, c: Capture)
    requires OneLine(c.partial) && c.partial != ""
    ensures Do(disk, c, Close).files == Append(disk, c, "\n").files.(open := false)
    ensures Append(disk, c, "\n").partial == ""
  {
    assert c.partial + "\n" == c.partial + "\n" + "";
    LineInFront(c.partial, "");
    OneWritten(disk, c.files, c.partial);
  }

  lemma OneWritten(disk: Disk, f: Files, line: string)
    ensures WriteAll(disk, f, [line] + Lines("")) == Write(disk, f, line)
  {
    assert ([line] + Lines(""))[1..] == [];
  }

  /** Writing the complete lines in the buffer leads to `done`. */
  ghost predicate AppendsTo(disk: Disk, c: Capture, done: Capture) {
    Capture(WriteAll(disk, c.files, Lines(c.partial)), Remainder(c.partial)) == done
  }

  /** What TakeLine makes of c. */
  function LineTaken(disk: Disk, c: Capture): Capture
    requires Newline(c.partial) < |c.partial|
  {
    var i := Newline(c.partial);
    Capture(Write(disk, c.files, c.partial[..i]), c.partial[i + 1..])
  }

  lemma TakenAppends(disk: Disk, c: Capture, done: Capture)
    requires AppendsTo(disk, c, done) && Newline(c.partial) < |c.partial|
    ensures AppendsTo(disk, LineTaken(disk, c), done)
  {
    WriteCut(disk, c.files, c.partial);
  }

  lemma WriteCut(disk: Disk, f: Files, s: string)
    requires Newline(s) < |s|
    ensures var i := Newline(s);
      && WriteAll(disk, f, Lines(s)) == WriteAll(disk, Write(disk, f, s[..i]), Lines(s[i + 1..]))
      && Remainder(s) == Remainder(s[i + 1..])
  {
    WriteFirst(disk, f, s[..Newline(s)], Lines(s[Newline(s) + 1..]));
  }

  lemma WriteFirst(disk: Disk, f: Files, line: string, lines: seq<string>)
    ensures WriteAll(disk, f, [line] + lines) == WriteAll(disk, Write(disk, f, line), lines)
  {
    assert ([line] + lines)[1..] == lines;
  }

  // ---- as the daemon does it --------------------------------------------------------------

  class Log {
    const disk: Disk
    var open: bool
    var log: string
    var prev: string
    var partial: string
    ghost var written: string
    ghost var longest: nat

    ghost function Snapshot(): Capture
      reads this
    {
      Capture(Files(open, log, prev, written, longest), partial)
    }

    method LogOpen()
      modifies this
      ensures Snapshot() == Do(disk, old(Snapshot()), Open)
    {
      if !open { open := disk.opens; }
    }

    method LogRotate()
      modifies `open, `log, `prev
      ensures Snapshot() == old(Snapshot()).(files := Rotate(disk, old(Snapshot()).files))
    {
      if !open || |log| < disk.limit {
        return;
      }
      open := false;
      if disk.renames {
        prev := log;
      }
      if disk.renames || disk.opens {
        // renamed away, or truncated on reopening
        log := "";
      }
      open := disk.opens;
    }

    method LogWrite(line: string)
      modifies `open, `log, `prev, `written, `longest
      ensures Snapshot() == old(Snapshot()).(files := Write(disk, old(Snapshot()).files, line))
    {
      if !open {
        return;
      }
      var l := line + "\n";
      log := log + l;
      written := written + l;
      longest := Max(longest, |l|);
      LogRotate();
    }

    method TakeLine(pos: nat)
      requires pos < |partial| && pos == Newline(partial)
      modifies this
      ensures Snapshot() == LineTaken(disk, old(Snapshot())) && |partial| < |old(partial)|
    {
      LogWrite(partial[..pos]);
      partial := partial[pos + 1..];
    }

    method LogAppend(data: string)
      modifies this
      ensures Snapshot() == Append(disk, old(Snapshot()), data)
    {
      partial := partial + data;
      ghost var done := Append(disk, old(Snapshot()), data);
      var pos := Newline(partial);
      while pos < |partial|
        invariant pos == Newline(partial) && AppendsTo(disk, Snapshot(), done)
        decreases |partial|
      {
        TakenAppends(disk, Snapshot(), done);
        TakeLine(pos);
        pos := Newline(partial);
      }
      NoLine(partial);
    }

    method LogClose()
      modifies this
      ensures Snapshot() == Do(disk, old(Snapshot()), Close)
    {
      if partial != "" {
        LogWrite(partial);
        partial := "";
      }
      open := false;
    }

    method LogClear()
      modifies this
      ensures Snapshot() == Do(disk, old(Snapshot()), Clear)
    {
      log, prev, partial := "", "", "";
      written, longest := "", 0;
    }
  }
}
