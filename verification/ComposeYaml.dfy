/** The block-YAML subset that compose files are read with (src/compose.cpp): its
  * lexers, its indentation parser, and a rendering that the two invert.
  */
module ComposeYaml {
  import opened TextLines
  import opened Wrappers

  datatype Node = Scalar(text: string) | Map(entries: seq<Entry>) | Seq(items: seq<Node>)

  datatype Entry = Entry(key: string, value: Node)

  datatype Line = Line(indent: nat, text: string)

  // ---- lexers ------------------------------------------------------------------------

  predicate Blank(c: char) {
    c == ' ' || c == '\t'
  }

  function DropLeading(s: string): string {
    if s != "" && Blank(s[0]) then DropLeading(s[1..]) else s
  }

  function DropTrailing(s: string): string {
    if s != "" && Blank(s[|s| - 1]) then DropTrailing(s[..|s| - 1]) else s
  }

  function Trim(s: string): string {
    DropTrailing(DropLeading(s))
  }

  /** Inside single or double quotes? Never both. */
  datatype Quoting = Quoting(single: bool, double: bool)

  const OPEN := Quoting(false, false)

  function Toggle(q: Quoting, c: char): Quoting {
    if c == '\'' && !q.double then q.(single := !q.single)
    else if c == '"' && !q.single then q.(double := !q.double)
    else q
  }

  /** The quoting after reading s. */
  function After(q: Quoting, s: string): Quoting {
    if s == "" then q else Toggle(After(q, s[..|s| - 1]), s[|s| - 1])
  }

  /** A colon outside quotes that ends the text or has a space behind it. */
  predicate IsKeyColon(t: string, i: nat)
    requires i < |t|
  {
    t[i] == ':' && After(OPEN, t[..i]) == OPEN && (i + 1 == |t| || t[i + 1] == ' ')
  }

  /** A hash outside quotes that starts the text or has a blank before it. */
  predicate IsComment(t: string, i: nat)
    requires i < |t|
  {
    t[i] == '#' && After(OPEN, t[..i]) == OPEN && (i == 0 || Blank(t[i - 1]))
  }

  function KeyColonFrom(t: string, i: nat): (c: nat)
    requires i <= |t|
    ensures i <= c <= |t| && (c < |t| ==> IsKeyColon(t, c))
    ensures forall j | i <= j < c :: !IsKeyColon(t, j)
    decreases |t| - i
  {
    if i == |t| || IsKeyColon(t, i) then i else KeyColonFrom(t, i + 1)
  }

  /** The first key colon, or |t|. */
  function KeyColon(t: string): nat {
    KeyColonFrom(t, 0)
  }

  function CommentFrom(t: string, i: nat): (c: nat)
    requires i <= |t|
    ensures i <= c <= |t| && (c < |t| ==> IsComment(t, c))
    ensures forall j | i <= j < c :: !IsComment(t, j)
    decreases |t| - i
  {
    if i == |t| || IsComment(t, i) then i else CommentFrom(t, i + 1)
  }

  function StripComment(t: string): string {
    t[..CommentFrom(t, 0)]
  }

  predicate IsSeqItem(t: string) {
    t != "" && t[0] == '-' && (|t| == 1 || t[1] == ' ')
  }

  function Unescaped(c: char): char {
    if c == 'n' then '\n' else if c == 't' then '\t' else c
  }

  function Unescape(b: string): string {
    if b == "" then ""
    else if b[0] == '\\' && |b| > 1 then [Unescaped(b[1])] + Unescape(b[2..])
    else [b[0]] + Unescape(b[1..])
  }

  predicate QuotedBy(s: string, q: char) {
    |s| >= 2 && s[0] == q && s[|s| - 1] == q
  }

  function Unquote(t: string): string {
    var s := Trim(t);
    if QuotedBy(s, '"') then Unescape(s[1..|s| - 1])
    else if QuotedBy(s, '\'') then s[1..|s| - 1]
    else s
  }

  // ---- raw lines ---------------------------------------------------------------------------

  datatype Loaded = TabIndent | Skip | Got(line: Line)

  /** The indentation in spaces, unless there is a tab in it. */
  function Indented(raw: string): Option<nat> {
    if raw == "" || !Blank(raw[0]) then Some(0)
    else if raw[0] == '\t' then None
    else match Indented(raw[1..]) case None => None case Some(k) => Some(k + 1)
  }

  lemma IndentedFits(raw: string)
    ensures Indented(raw) != None ==> Indented(raw).value <= |raw|
  {
  }

  function Chomp(raw: string): string {
    if raw != "" && raw[|raw| - 1] == '\r' then raw[..|raw| - 1] else raw
  }

  function LoadLine(line: string): Loaded {
    var raw := Chomp(line);
    IndentedFits(raw);
    match Indented(raw)
    case None => TabIndent
    case Some(k) =>
      var content := Trim(StripComment(raw[k..]));
      if content == "" || content == "---" || content == "..." then Skip else Got(Line(k, content))
  }

  /** All visible lines, or None for the tab error. */
  function LoadLines(raws: seq<string>): Option<seq<Line>> {
    if raws == [] then Some([])
    else match LoadLine(raws[0])
      case TabIndent => None
      case Skip => LoadLines(raws[1..])
      case Got(l) => match LoadLines(raws[1..]) case None => None case Some(ls) => Some([l] + ls)
  }

  /** load_lines on the text of a file. */
  function LoadText(text: string): Option<seq<Line>> {
    LoadLines(GetLines(text))
  }

  // ---- the parser ------------------------------------------------------------------------

  datatype Parsed<T> = Parsed(value: T, pos: nat, warnings: seq<string>)

  function Rest(t: string): string
    requires IsSeqItem(t)
  {
    if |t| > 1 then Trim(t[1..]) else ""
  }

  function Value(t: string): string
    requires KeyColon(t) < |t|
  {
    if KeyColon(t) + 1 < |t| then Trim(t[KeyColon(t) + 1..]) else ""
  }

  const LONG_FORM := "long-form list item not supported, skipped: - "
  const UNPARSEABLE := "skipped unparseable line: "

  /** parse_block: the block at pos, if it is indented by at least min. */
  function Block(lines: seq<Line>, pos: nat, min: nat): (r: Parsed<Node>)
    requires pos <= |lines|
    ensures pos <= r.pos <= |lines|
    decreases |lines| - pos, 1
  {
    if pos == |lines| || lines[pos].indent < min then Parsed(Scalar(""), pos, [])
    else if IsSeqItem(lines[pos].text) then
      var r := Items(lines, pos, lines[pos].indent);
      Parsed(Seq(r.value), r.pos, r.warnings)
    else
      var r := Entries(lines, pos, lines[pos].indent);
      Parsed(Map(r.value), r.pos, r.warnings)
  }

  function Items(lines: seq<Line>, pos: nat, cur: nat): (r: Parsed<seq<Node>>)
    requires pos <= |lines|
    ensures pos <= r.pos <= |lines|
    decreases |lines| - pos, 0
  {
    if pos == |lines| || lines[pos].indent != cur || !IsSeqItem(lines[pos].text) then Parsed([], pos, [])
    else
      var rest := Rest(lines[pos].text);
      if rest == "" then
        var b := Block(lines, pos + 1, cur + 1);
        var r := Items(lines, b.pos, cur);
        Parsed([b.value] + r.value, r.pos, b.warnings + r.warnings)
      else
        var r := Items(lines, pos + 1, cur);
        if KeyColon(rest) < |rest| then Parsed(r.value, r.pos, [LONG_FORM + rest] + r.warnings)
        else Parsed([Scalar(Unquote(rest))] + r.value, r.pos, r.warnings)
  }

  function Entries(lines: seq<Line>, pos: nat, cur: nat): (r: Parsed<seq<Entry>>)
    requires pos <= |lines|
    ensures pos <= r.pos <= |lines|
    decreases |lines| - pos, 0
  {
    if pos == |lines| || lines[pos].indent != cur || IsSeqItem(lines[pos].text) then Parsed([], pos, [])
    else
      var t := lines[pos].text;
      var c := KeyColon(t);
      if c == |t| then
        var r := Entries(lines, pos + 1, cur);
        Parsed(r.value, r.pos, [UNPARSEABLE + t] + r.warnings)
      else
        var key, val := Unquote(t[..c]), Value(t);
        if val != "" then
          var r := Entries(lines, pos + 1, cur);
          Parsed([Entry(key, Scalar(Unquote(val)))] + r.value, r.pos, r.warnings)
        else
          var b := Block(lines, pos + 1, cur + 1);
          var r := Entries(lines, b.pos, cur);
          Parsed([Entry(key, b.value)] + r.value, r.pos, b.warnings + r.warnings)
  }

  // ---- rendering -----------------------------------------------------------------------------

  /** A backslash takes the meaning from any character; n and t stand for line end and tab. */
  function EscapeChar(c: char): string {
    if c == '\n' then "\\n" else if c == '\t' then "\\t" else if c in "\\\"# " then ['\\', c] else [c]
  }

  function Escape(s: string): string {
    if s == "" then "" else EscapeChar(s[0]) + Escape(s[1..])
  }

  function Quote(s: string): string {
    "\"" + Escape(s) + "\""
  }

  /** Cannot be mistaken for anything but a scalar, whatever quotes are open before it:
    * no comment can start in it and no key end.
    */
  predicate Inert(v: string) {
    && v != "" && !Blank(v[0]) && !Blank(v[|v| - 1]) && v[|v| - 1] != '\r' && OneLine(v)
    && forall i | 0 <= i < |v| :: InertAt(v, i)
  }

  predicate InertAt(v: string, i: nat)
    requires i < |v|
  {
    (v[i] == ':' ==> i + 1 < |v| && v[i + 1] != ' ') && (v[i] == '#' ==> i > 0 && !Blank(v[i - 1]))
  }

  /** Can stand without quotes. */
  predicate Plain(s: string) {
    Inert(s) && !QuotedBy(s, '"') && !QuotedBy(s, '\'')
  }

  function RenderScalar(s: string): string {
    if Plain(s) then s else Quote(s)
  }

  predicate NoComment(t: string) {
    forall i | 0 <= i < |t| :: !IsComment(t, i)
  }

  /** In front of a colon, t is read as the key k. Quotes that t leaves open would hide
    * the colon, and the lexers do not know an escaped quote from a closing one.
    */
  predicate Names(t: string, k: string) {
    && t != "" && !Blank(t[0]) && OneLine(t) && NoComment(t)
    && !IsSeqItem(t + ":") && KeyColon(t + ":") == |t| && Unquote(t) == k
  }

  /** Plain, in double quotes, or in single quotes. */
  predicate Keyable(k: string) {
    Names(k, k) || Names(Quote(k), k) || Names("'" + k + "'", k)
  }

  function RenderKey(k: string): string {
    if Names(k, k) then k else if Names(Quote(k), k) then Quote(k) else "'" + k + "'"
  }

  /** Maps and sequences with at least one element, any scalars, and keys that can be written. */
  predicate Supported(n: Node)
    decreases n
  {
    match n
    case Scalar(_) => true
    case Map(es) => es != [] && SupportedEntries(es)
    case Seq(ns) => ns != [] && SupportedItems(ns)
  }

  predicate SupportedEntries(es: seq<Entry>)
    decreases es
  {
    es == [] || (Keyable(es[0].key) && Supported(es[0].value) && SupportedEntries(es[1..]))
  }

  predicate SupportedItems(ns: seq<Node>)
    decreases ns
  {
    ns == [] || (Supported(ns[0]) && SupportedItems(ns[1..]))
  }

  function EntryText(e: Entry): string {
    RenderKey(e.key) + if e.value.Scalar? then ": " + RenderScalar(e.value.text) else ":"
  }

  function ItemText(n: Node): string {
    if n.Scalar? then "- " + RenderScalar(n.text) else "-"
  }

  /** The lines of a map or sequence at an indentation; children go `step` deeper. */
  function Render(n: Node, indent: nat, step: nat): seq<Line>
    decreases n
  {
    match n
    case Scalar(_) => []
    case Map(es) => RenderEntries(es, indent, step)
    case Seq(ns) => RenderItems(ns, indent, step)
  }

  function RenderEntries(es: seq<Entry>, indent: nat, step: nat): seq<Line>
    decreases es
  {
    if es == [] then []
    else [Line(indent, EntryText(es[0]))] + Render(es[0].value, indent + step, step) + RenderEntries(es[1..], indent, step)
  }

  function RenderItems(ns: seq<Node>, indent: nat, step: nat): seq<Line>
    decreases ns
  {
    if ns == [] then []
    else [Line(indent, ItemText(ns[0]))] + Render(ns[0], indent + step, step) + RenderItems(ns[1..], indent, step)
  }
}
