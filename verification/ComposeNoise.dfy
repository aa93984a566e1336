/** What a compose file may hold besides its tree: comments, blank lines and document
  * marks, line ends of other systems, and lines that the reader only warns about.
  */
module ComposeNoise {
  import opened TextLines
  import opened Wrappers
  import opened ComposeYaml
  import opened ComposeRoundTrip

  // ---- comments ----------------------------------------------------------------------------

  /** Stripping keeps the front of a text up to its first comment, and all of it if there
    * is none.
    */
  lemma StripKeepsTheFront(t: string)
    ensures var s := StripComment(t);
      s <= t && NoComment(s) && (s == t || IsComment(t, |s|))
  {
    var s := StripComment(t);
    forall i | 0 <= i < |s| ensures !IsComment(s, i) { assert !IsComment(t, i) && s[..i] == t[..i]; }
  }

  lemma StripAt(t: string, i: nat)
    requires i <= |t| && NoComment(t[..i]) && (i < |t| ==> IsComment(t, i))
    ensures StripComment(t) == t[..i]
  {
    forall j | 0 <= j < i ensures !IsComment(t, j) { assert !IsComment(t[..i], j) && t[..i][..j] == t[..j]; }
    StripStops(t, i, 0);
  }

  lemma {:induction false} StripStops(t: string, i: nat, j: nat)
    requires j <= i <= |t| && (i < |t| ==> IsComment(t, i)) && forall k | j <= k < i :: !IsComment(t, k)
    ensures CommentFrom(t, j) == i
    decreases i - j
  {
    if j < i { StripStops(t, i, j + 1); }
  }

  predicate AllBlank(s: string) {
    forall i | 0 <= i < |s| :: Blank(s[i])
  }

  lemma {:induction false} BlanksKeepOpen(q: Quoting, s: string)
    requires AllBlank(s)
    ensures After(q, s) == q
    decreases s
  {
    if s != "" { BlanksKeepOpen(q, s[..|s| - 1]); }
  }

  lemma {:induction false} NoCommentInBlanks(t: string, b: string)
    requires NoComment(t) && AllBlank(b)
    ensures NoComment(t + b)
    decreases b
  {
    if b == "" {
      assert t + b == t;
    } else {
      NoCommentInBlanks(t, b[..|b| - 1]);
      NoCommentMark(t + b[..|b| - 1], b[|b| - 1]);
      assert t + b == t + b[..|b| - 1] + [b[|b| - 1]];
    }
  }

  lemma {:induction false} BlanksDrop(t: string, b: string)
    requires AllBlank(b) && (t == "" || !Blank(t[|t| - 1]))
    ensures DropTrailing(t + b) == t
    decreases b
  {
    if b == "" {
      assert t + b == t;
    } else {
      assert (t + b)[..|t + b| - 1] == t + b[..|b| - 1];
      BlanksDrop(t, b[..|b| - 1]);
    }
  }

  // ---- what may follow a line -----------------------------------------------------------------

  /** Blanks, a comment, and the carriage return of a foreign line end. */
  datatype Tail = Tail(blanks: string, comment: Option<string>, cr: bool)

  function Remark(t: Tail): string {
    match t.comment case None => "" case Some(c) => "#" + c
  }

  function TailText(t: Tail): string {
    t.blanks + Remark(t) + if t.cr then "\r" else ""
  }

  /** A comment is one only behind a blank and outside quotes. */
  predicate TailOk(text: string, t: Tail) {
    && AllBlank(t.blanks) && OneLine(t.blanks) && OneLine(Remark(t))
    && (t.comment != None ==> t.blanks != "" && After(OPEN, text) == OPEN)
    && (t.comment != None ==> Remark(t)[|Remark(t)| - 1] != '\r')
  }

  /** What is left of a text with a tail once the comment is gone. */
  lemma TailStrips(text: string, t: Tail)
    requires NoComment(text) && TailOk(text, t)
    ensures StripComment(text + (t.blanks + Remark(t))) == text + t.blanks
  {
    var all, front := text + (t.blanks + Remark(t)), text + t.blanks;
    assert all[..|front|] == front;
    NoCommentInBlanks(text, t.blanks);
    if t.comment != None {
      AfterConcat(OPEN, text, t.blanks);
      BlanksKeepOpen(OPEN, t.blanks);
      assert all[|front|] == '#' && all[|front| - 1] == t.blanks[|t.blanks| - 1];
    }
    StripAt(all, |front|);
  }

  lemma TailTrims(text: string, t: Tail)
    requires text != "" && !Blank(text[0]) && !Blank(text[|text| - 1]) && TailOk(text, t)
    ensures Trim(text + t.blanks) == text
  {
    assert (text + t.blanks)[0] == text[0];
    BlanksDrop(text, t.blanks);
  }

  lemma TailChomps(raw: string, t: Tail)
    requires raw == "" || raw[|raw| - 1] != '\r'
    ensures Chomp(raw + if t.cr then "\r" else "") == raw
  {
    if t.cr { assert (raw + "\r")[..|raw|] == raw; } else { assert raw + "" == raw; }
  }

  // ---- files with more in them than the tree -------------------------------------------------

  /** One raw line of a file: a line of the tree with its tail, or one that says nothing,
    * blank, commented out or a document mark.
    */
  datatype Raw = Says(line: Line, tail: Tail) | Silent(indent: nat, mark: string, tail: Tail)

  function RawText(r: Raw): string {
    match r
    case Says(l, tail) => Spaces(l.indent) + (l.text + TailText(tail))
    case Silent(k, mark, tail) => Spaces(k) + (mark + TailText(tail))
  }

  predicate RawOk(r: Raw) {
    match r
    case Says(l, tail) => Visible(l.text) && TailOk(l.text, tail)
    case Silent(_, mark, tail) =>
      if mark == "" then tail.blanks == "" && OneLine(Remark(tail)) && (tail.comment != None ==> Remark(tail)[|Remark(tail)| - 1] != '\r')
      else (mark == "---" || mark == "...") && TailOk(mark, tail)
  }

  lemma MarkIsOpen(mark: string)
    requires mark == "---" || mark == "..."
    ensures NoComment(mark) && OneLine(mark) && !Blank(mark[0]) && !Blank(mark[|mark| - 1])
  {
  }

  /** The content of a raw line with a tail is its text. */
  lemma ContentIs(indent: nat, text: string, t: Tail)
    requires text != "" && !Blank(text[0]) && !Blank(text[|text| - 1]) && text[|text| - 1] != '\r'
    requires NoComment(text) && TailOk(text, t)
    ensures LoadLine(Spaces(indent) + (text + TailText(t))) ==
      if text == "---" || text == "..." then Skip else Got(Line(indent, text))
  {
    var rest := text + (t.blanks + Remark(t));
    var raw := Spaces(indent) + rest;
    assert Spaces(indent) + (text + TailText(t)) == raw + if t.cr then "\r" else "";
    assert raw[|raw| - 1] == if t.comment != None then Remark(t)[|Remark(t)| - 1]
      else if t.blanks != "" then t.blanks[|t.blanks| - 1] else text[|text| - 1];
    TailChomps(raw, t);
    SpacesRead(indent, rest);
    assert raw[indent..] == rest;
    TailStrips(text, t);
    TailTrims(text, t);
  }

  lemma SpacesEnd(k: nat)
    ensures Indented(Spaces(k)) == Some(k)
  {
    if k > 0 {
      SpacesEnd(k - 1);
      assert Spaces(k)[1..] == Spaces(k - 1);
    }
  }

  lemma EmptyIs(indent: nat, t: Tail)
    requires RawOk(Silent(indent, "", t))
    ensures LoadLine(Spaces(indent) + ("" + TailText(t))) == Skip
  {
    var raw := Spaces(indent) + Remark(t);
    assert Spaces(indent) + ("" + TailText(t)) == raw + if t.cr then "\r" else "";
    RemarkIs(indent, t);
    TailChomps(raw, t);
  }

  lemma RemarkIs(indent: nat, t: Tail)
    requires RawOk(Silent(indent, "", t))
    ensures var raw := Spaces(indent) + Remark(t);
      (raw == "" || raw[|raw| - 1] != '\r') && Indented(raw) == Some(indent) && StripComment(raw[indent..]) == ""
  {
    var raw := Spaces(indent) + Remark(t);
    assert raw[indent..] == Remark(t);
    if t.comment != None {
      assert raw[|raw| - 1] == Remark(t)[|Remark(t)| - 1];
      SpacesRead(indent, Remark(t));
      StripAt(Remark(t), 0);
    } else {
      assert raw == Spaces(indent);
      SpacesEnd(indent);
    }
  }

  /** Every raw line is read as what it says, or as nothing. */
  lemma RawLoads(r: Raw)
    requires RawOk(r)
    ensures LoadLine(RawText(r)) == if r.Says? then Got(r.line) else Skip
  {
    match r
    case Says(l, tail) => ContentIs(l.indent, l.text, tail);
    case Silent(k, mark, tail) =>
      if mark == "" {
        EmptyIs(k, tail);
      } else {
        MarkIsOpen(mark);
        ContentIs(k, mark, tail);
      }
  }

  lemma RawOneLine(r: Raw)
    requires RawOk(r)
    ensures OneLine(RawText(r))
  {
    var text := if r.Says? then r.line.text else r.mark;
    TailOneLine(r.tail);
    assert OneLine(text + TailText(r.tail));
  }

  lemma TailOneLine(t: Tail)
    requires OneLine(t.blanks) && OneLine(Remark(t))
    ensures OneLine(TailText(t))
  {
  }

  function RawTexts(raws: seq<Raw>): seq<string> {
    if raws == [] then [] else [RawText(raws[0])] + RawTexts(raws[1..])
  }

  /** The lines of the tree among the raw ones. */
  function Said(raws: seq<Raw>): seq<Line> {
    if raws == [] then [] else (if raws[0].Says? then [raws[0].line] else []) + Said(raws[1..])
  }

  predicate AllRawOk(raws: seq<Raw>) {
    raws == [] || (RawOk(raws[0]) && AllRawOk(raws[1..]))
  }

  lemma {:induction false} RawsLoad(raws: seq<Raw>)
    requires AllRawOk(raws)
    ensures LoadLines(RawTexts(raws)) == Some(Said(raws)) && AllOneLine(RawTexts(raws))
  {
    if raws != [] {
      RawLoads(raws[0]);
      RawOneLine(raws[0]);
      RawsLoad(raws[1..]);
      FirstLoads(RawText(raws[0]), RawTexts(raws[1..]));
      assert raws[0].Silent? ==> Said(raws) == Said(raws[1..]);
    }
  }

  lemma FirstLoads(raw: string, raws: seq<string>)
    ensures AllOneLine([raw] + raws) <==> OneLine(raw) && AllOneLine(raws)
    ensures LoadLines([raw] + raws) == match LoadLine(raw)
      case TabIndent => None
      case Skip => LoadLines(raws)
      case Got(l) => match LoadLines(raws) case None => None case Some(ls) => Some([l] + ls)
  {
    assert ([raw] + raws)[1..] == raws;
  }

  /** Reading inverts writing whatever comments stand behind the lines, whatever silent
    * lines stand between them, and whichever line ends are used. Only behind a line that
    * leaves a quote open no comment can stand.
    */
  lemma ReadDespiteNoise(n: Node, indent: nat, step: nat, raws: seq<Raw>)
    requires Supported(n) && !n.Scalar? && step > 0
    requires AllRawOk(raws) && Said(raws) == Render(n, indent, step)
    ensures var loaded := LoadText(Join(RawTexts(raws)));
      loaded != None && Block(loaded.value, 0, 0) == Parsed(n, |loaded.value|, [])
  {
    RawsLoad(raws);
    GetLinesJoin(RawTexts(raws));
    ParseInvertsRender(n, indent, step);
  }

  /** The newline of the last line may be missing. */
  lemma LastNewlineIsOptional(lines: seq<string>, last: string)
    requires AllOneLine(lines) && OneLine(last) && last != ""
    ensures LoadText(Join(lines) + last) == LoadText(Join(lines + [last]))
  {
    JoinEnds(lines, last);
    LineLess(lines, last);
    GetLinesJoin(lines + [last]);
  }

  lemma {:induction false} JoinEnds(lines: seq<string>, last: string)
    requires AllOneLine(lines) && OneLine(last)
    ensures AllOneLine(lines + [last])
  {
    if lines == [] {
      assert lines + [last] == [last] && [last][1..] == [];
    } else {
      assert (lines + [last])[1..] == lines[1..] + [last];
      JoinEnds(lines[1..], last);
    }
  }

  lemma LineLess(lines: seq<string>, last: string)
    requires AllOneLine(lines) && OneLine(last) && last != ""
    ensures GetLines(Join(lines) + last) == lines + [last]
  {
    GetLinesJoin(lines);
    LinesGoOn(Join(lines), last);
    FindIs(last, '\n', |last|);
    NoLine(last);
    assert "" + last == last;
  }

  // ---- a quote that hides the comment ----------------------------------------------------------

  /** Behind a line that leaves a quote open the hash is part of the text. */
  lemma OpenQuoteHidesComment(l: Line, c: string)
    requires Visible(l.text) && OneLine(c) && (c == "" || c[|c| - 1] != '\r')
    ensures LoadLine(Spaces(l.indent) + (l.text + (" #" + c))) == Got(l) <==> After(OPEN, l.text) == OPEN
  {
    var tail := Tail(" ", Some(c), false);
    assert l.text + (" #" + c) == l.text + TailText(tail);
    if After(OPEN, l.text) == OPEN {
      ContentIs(l.indent, l.text, tail);
    } else {
      HiddenStays(l, c);
    }
  }

  lemma HiddenStays(l: Line, c: string)
    requires Visible(l.text) && (c == "" || c[|c| - 1] != '\r') && After(OPEN, l.text) != OPEN
    ensures LoadLine(Spaces(l.indent) + (l.text + (" #" + c))) != Got(l)
  {
    var rest := l.text + (" #" + c);
    var raw := Spaces(l.indent) + rest;
    assert raw[|raw| - 1] == if c == "" then '#' else c[|c| - 1];
    SpacesRead(l.indent, rest);
    assert raw[l.indent..] == rest;
    HashStays(l.text, c);
    KeepsHash(StripComment(rest), |l.text| + 1);
  }

  /** The hash is not where stripping ends. */
  lemma HashStays(text: string, c: string)
    requires NoComment(text) && After(OPEN, text) != OPEN
    ensures var rest, s := text + (" #" + c), StripComment(text + (" #" + c));
      |s| > |text| + 1 && s[..|text| + 2] == text + " #"
  {
    var rest := text + (" #" + c);
    assert rest[..|text|] == text && rest[..|text| + 1] == text + " ";
    assert (text + " ")[..|text|] == text;
    NoCommentInBlanks(text, " ");
    forall j | 0 <= j < |text| + 2 ensures !IsComment(rest, j) {
      if j < |text| + 1 { assert !IsComment(text + " ", j) && rest[..j] == (text + " ")[..j]; }
    }
    assert rest[..|text| + 2] == text + " #";
  }

  lemma {:induction false} KeepsHash(s: string, i: nat)
    requires i < |s| && s[i] == '#' && !Blank(s[0])
    ensures |Trim(s)| > i
  {
    HashLast(s, i);
  }

  lemma {:induction false} HashLast(s: string, i: nat)
    requires i < |s| && s[i] == '#'
    ensures |DropTrailing(s)| > i
    decreases s
  {
    if Blank(s[|s| - 1]) { HashLast(s[..|s| - 1], i); }
  }

  // ---- tabs -------------------------------------------------------------------------------------

  /** A tab among the blanks that a line begins with. */
  predicate TabFirst(line: string) {
    exists i | 0 <= i < |line| :: line[i] == '\t' && forall j | 0 <= j < i :: line[j] == ' '
  }

  lemma {:induction false} TabsInIndent(raw: string)
    ensures Indented(raw) == None <==> TabFirst(raw)
  {
    if raw != "" && raw[0] == ' ' {
      TabsInIndent(raw[1..]);
      if TabFirst(raw[1..]) {
        var i :| 0 <= i < |raw[1..]| && raw[1..][i] == '\t' && forall j | 0 <= j < i :: raw[1..][j] == ' ';
        assert raw[i + 1] == '\t' && forall j | 0 < j < i + 1 :: raw[j] == raw[1..][j - 1];
      }
      if TabFirst(raw) {
        var i :| 0 <= i < |raw| && raw[i] == '\t' && forall j | 0 <= j < i :: raw[j] == ' ';
        assert raw[1..][i - 1] == '\t';
      }
    } else if raw != "" && raw[0] == '\t' {
      assert TabFirst(raw);
    }
  }

  lemma ChompKeepsTabs(line: string)
    ensures TabFirst(Chomp(line)) <==> TabFirst(line)
  {
    var raw := Chomp(line);
    if TabFirst(line) {
      var i :| 0 <= i < |line| && line[i] == '\t' && forall j | 0 <= j < i :: line[j] == ' ';
      assert raw[i] == '\t';
    }
  }

  /** A file is refused if and only if some line of it, said or silent, is indented with a
    * tab.
    */
  lemma {:induction false} TabsAreRefused(lines: seq<string>)
    ensures LoadLines(lines) == None <==> exists l | l in lines :: TabFirst(l)
  {
    if lines != [] {
      var raw := Chomp(lines[0]);
      TabsInIndent(raw);
      ChompKeepsTabs(lines[0]);
      TabsAreRefused(lines[1..]);
      assert lines == [lines[0]] + lines[1..];
    }
  }

  // ---- lines that are only warned about ----------------------------------------------------------

  /** A line of a flat map: an entry with a scalar, or something that is none. */
  datatype MapLine = Pair(entry: Entry) | NoPair(text: string)

  predicate MapLineOk(m: MapLine) {
    match m
    case Pair(e) => Keyable(e.key) && e.value.Scalar?
    case NoPair(t) => !IsSeqItem(t) && forall i | 0 <= i < |t| :: !IsKeyColon(t, i)
  }

  function MapLineText(m: MapLine): string {
    match m case Pair(e) => EntryText(e) case NoPair(t) => t
  }

  function Pairs(ms: seq<MapLine>): seq<Entry> {
    if ms == [] then [] else (if ms[0].Pair? then [ms[0].entry] else []) + Pairs(ms[1..])
  }

  function PairWarnings(ms: seq<MapLine>): seq<string> {
    if ms == [] then [] else (if ms[0].Pair? then [] else ["skipped unparseable line: " + ms[0].text]) + PairWarnings(ms[1..])
  }

  /** From pos on the lines are these, all at one indentation, and no more. */
  predicate MapStands(lines: seq<Line>, pos: nat, ms: seq<MapLine>, indent: nat)
    decreases ms
  {
    if ms == [] then pos == |lines|
    else pos < |lines| && lines[pos] == Line(indent, MapLineText(ms[0])) && MapLineOk(ms[0]) && MapStands(lines, pos + 1, ms[1..], indent)
  }

  /** Whatever lines of a flat map cannot be read, the others are, in order, and exactly
    * those are warned about.
    */
  lemma {:induction false} MapSkipsJunk(lines: seq<Line>, pos: nat, ms: seq<MapLine>, indent: nat)
    requires MapStands(lines, pos, ms, indent)
    ensures Entries(lines, pos, indent) == Parsed(Pairs(ms), |lines|, PairWarnings(ms))
    decreases ms
  {
    if ms != [] {
      MapSkipsJunk(lines, pos + 1, ms[1..], indent);
      match ms[0]
      case Pair(e) => EntryLine(e); PairStep(lines, pos, e, indent);
      case NoPair(t) => JunkStep(lines, pos, indent);
    }
  }

  lemma PairStep(lines: seq<Line>, pos: nat, e: Entry, cur: nat)
    requires pos < |lines| && lines[pos].indent == cur && ReadsEntry(lines[pos].text, e) && e.value.Scalar?
    ensures var r := Entries(lines, pos + 1, cur);
      Entries(lines, pos, cur) == Parsed([e] + r.value, r.pos, [] + r.warnings)
  {
    var none: seq<string> := [];
    assert none + Entries(lines, pos + 1, cur).warnings == Entries(lines, pos + 1, cur).warnings;
  }

  lemma JunkStep(lines: seq<Line>, pos: nat, cur: nat)
    requires pos < |lines| && lines[pos].indent == cur && MapLineOk(NoPair(lines[pos].text))
    ensures var r := Entries(lines, pos + 1, cur);
      Entries(lines, pos, cur) == Parsed([] + r.value, r.pos, ["skipped unparseable line: " + lines[pos].text] + r.warnings)
  {
    var t, none: seq<Entry> := lines[pos].text, [];
    assert KeyColon(t) == |t|;
    assert none + Entries(lines, pos + 1, cur).value == Entries(lines, pos + 1, cur).value;
  }

  /** A line of a flat list: a scalar item, or one in the long form, which is not read. */
  datatype ListLine = Item(text: string) | LongForm(rest: string)

  predicate ListLineOk(l: ListLine) {
    l.LongForm? ==>
      && l.rest != "" && !Blank(l.rest[0]) && !Blank(l.rest[|l.rest| - 1])
      && exists i | 0 <= i < |l.rest| :: IsKeyColon(l.rest, i)
  }

  function ListLineText(l: ListLine): string {
    match l case Item(t) => ItemText(Scalar(t)) case LongForm(r) => "- " + r
  }

  function ItemsOf(ls: seq<ListLine>): seq<Node> {
    if ls == [] then [] else (if ls[0].Item? then [Scalar(ls[0].text)] else []) + ItemsOf(ls[1..])
  }

  function ItemWarnings(ls: seq<ListLine>): seq<string> {
    if ls == [] then []
    else (if ls[0].Item? then [] else ["long-form list item not supported, skipped: - " + ls[0].rest]) + ItemWarnings(ls[1..])
  }

  predicate ListStands(lines: seq<Line>, pos: nat, ls: seq<ListLine>, indent: nat)
    decreases ls
  {
    if ls == [] then pos == |lines|
    else pos < |lines| && lines[pos] == Line(indent, ListLineText(ls[0])) && ListLineOk(ls[0]) && ListStands(lines, pos + 1, ls[1..], indent)
  }

  /** Items in the long form are warned about, and the others are read in order. */
  lemma {:induction false} ListSkipsLongForm(lines: seq<Line>, pos: nat, ls: seq<ListLine>, indent: nat)
    requires ListStands(lines, pos, ls, indent)
    ensures Items(lines, pos, indent) == Parsed(ItemsOf(ls), |lines|, ItemWarnings(ls))
    decreases ls
  {
    if ls != [] {
      ListSkipsLongForm(lines, pos + 1, ls[1..], indent);
      match ls[0]
      case Item(t) => ItemLine(Scalar(t)); ItemStep(lines, pos, t, indent);
      case LongForm(r) => LongFormStep(lines, pos, r, indent);
    }
  }

  lemma ItemStep(lines: seq<Line>, pos: nat, t: string, cur: nat)
    requires pos < |lines| && lines[pos].indent == cur && ReadsItem(lines[pos].text, Scalar(t))
    ensures var r := Items(lines, pos + 1, cur);
      Items(lines, pos, cur) == Parsed([Scalar(t)] + r.value, r.pos, [] + r.warnings)
  {
    var none: seq<string> := [];
    assert none + Items(lines, pos + 1, cur).warnings == Items(lines, pos + 1, cur).warnings;
  }

  lemma LongFormStep(lines: seq<Line>, pos: nat, rest: string, cur: nat)
    requires pos < |lines| && lines[pos] == Line(cur, "- " + rest) && ListLineOk(LongForm(rest))
    ensures var r := Items(lines, pos + 1, cur);
      Items(lines, pos, cur) ==
        Parsed([] + r.value, r.pos, ["long-form list item not supported, skipped: - " + rest] + r.warnings)
  {
    var none: seq<Node> := [];
    LongFormLine(rest);
    assert none + Items(lines, pos + 1, cur).value == Items(lines, pos + 1, cur).value;
  }

  lemma LongFormLine(r: string)
    requires ListLineOk(LongForm(r))
    ensures IsSeqItem("- " + r) && Rest("- " + r) == r && KeyColon(r) < |r|
  {
    assert ("- " + r)[1..] == " " + r;
    BareTrims(r);
    var i :| 0 <= i < |r| && IsKeyColon(r, i);
  }
}
