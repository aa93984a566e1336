/** The compose reader inverts the rendering: texts first, then blocks. */
module ComposeRoundTrip {
  import opened TextLines
  import opened Wrappers
  import opened ComposeYaml

  // ---- quoting -------------------------------------------------------------------------

  lemma {:induction false} AfterConcat(q: Quoting, a: string, b: string)
    ensures After(q, a + b) == After(After(q, a), b)
    decreases b
  {
    if b == "" {
      assert a + b == a;
    } else {
      assert (a + b)[..|a + b| - 1] == a + b[..|b| - 1];
      AfterConcat(q, a, b[..|b| - 1]);
    }
  }

  /** Escaping adds only characters that no lexer takes for a quote. */
  lemma {:induction false} EscapeKeepsQuoting(q: Quoting, s: string)
    ensures After(q, Escape(s)) == After(q, s)
    decreases s
  {
    if s != "" {
      CharKeepsQuoting(q, s[0]);
      AfterConcat(q, EscapeChar(s[0]), Escape(s[1..]));
      EscapeKeepsQuoting(After(q, [s[0]]), s[1..]);
      AfterConcat(q, [s[0]], s[1..]);
      assert [s[0]] + s[1..] == s;
    }
  }

  lemma CharKeepsQuoting(q: Quoting, c: char)
    ensures After(q, EscapeChar(c)) == After(q, [c]) == Toggle(q, c)
  {
    assert [c][..0] == "";
    if |EscapeChar(c)| == 2 {
      assert EscapeChar(c)[..1] == "\\";
      assert "\\"[..0] == "";
    }
  }

  lemma {:induction false} UnescapeInverts(s: string)
    ensures Unescape(Escape(s)) == s
  {
    if s != "" {
      UnescapeInverts(s[1..]);
      var e, rest := EscapeChar(s[0]), Escape(s[1..]);
      assert (e + rest)[|e|..] == rest;
    }
  }

  // ---- scalars ---------------------------------------------------------------------------

  lemma BareTrims(t: string)
    requires t != "" && !Blank(t[0]) && !Blank(t[|t| - 1])
    ensures Trim(t) == t && Trim(" " + t) == t
  {
    assert (" " + t)[1..] == t;
  }

  /** The inside of a quoted scalar. */
  predicate Calm(b: string) {
    && (b == "" || (b[0] != '#' && b[0] != ' '))
    && forall i | 0 <= i < |b| :: CalmAt(b, i)
  }

  predicate CalmAt(b: string, i: nat)
    requires i < |b|
  {
    && b[i] != '\n' && (b[i] == ':' ==> i + 1 == |b| || b[i + 1] != ' ')
    && (b[i] == '#' ==> i > 0 && b[i - 1] == '\\')
  }

  lemma CalmConcat(a: string, b: string)
    requires a != "" && Calm(a) && Calm(b)
    ensures Calm(a + b)
  {
    forall i | 0 <= i < |a + b| ensures CalmAt(a + b, i) {
      if i < |a| { assert CalmAt(a, i); } else { assert CalmAt(b, i - |a|); }
    }
  }

  lemma {:induction false} EscapeIsCalm(s: string)
    ensures Calm(Escape(s))
  {
    if s != "" {
      EscapeIsCalm(s[1..]);
      CalmConcat(EscapeChar(s[0]), Escape(s[1..]));
    }
  }

  /** Every text comes back from its quoted form, in which nothing else can begin. */
  lemma QuoteInverts(s: string)
    ensures Inert(Quote(s)) && Unquote(Quote(s)) == s
  {
    var b, t := Escape(s), Quote(s);
    EscapeIsCalm(s);
    UnescapeInverts(s);
    assert t[1..|t| - 1] == b;
    BareTrims(t);
    forall i | 0 <= i < |t| ensures t[i] != '\n' && InertAt(t, i) {
      if 0 < i < |t| - 1 { assert CalmAt(b, i - 1); }
    }
  }

  lemma ScalarInverts(s: string)
    ensures Inert(RenderScalar(s)) && Unquote(RenderScalar(s)) == s
  {
    if Plain(s) { BareTrims(s); } else { QuoteInverts(s); }
  }

  // ---- lines -------------------------------------------------------------------------------

  /** The first key colon behind a key is the one right after it. */
  lemma ColonAfterKey(t: string, k: string, rest: string)
    requires Names(t, k) && (rest == "" || rest[0] == ' ')
    ensures var l := t + ":" + rest; KeyColon(l) == |t| && l[..|t|] == t && !IsSeqItem(l)
  {
    var l, short := t + ":" + rest, t + ":";
    assert l[..|t|] == short[..|t|] == t;
    assert IsKeyColon(short, |t|) && IsKeyColon(l, |t|);
    forall i | 0 <= i < |t| ensures !IsKeyColon(l, i) {
      assert !IsKeyColon(short, i) && l[..i] == short[..i];
    }
  }

  lemma NoColonInInert(v: string)
    requires Inert(v)
    ensures KeyColon(v) == |v|
  {
    forall i | 0 <= i < |v| ensures !IsKeyColon(v, i) { assert InertAt(v, i); }
  }

  lemma ScalarEntryLine(t: string, k: string, v: string)
    requires Names(t, k) && Inert(v)
    ensures var l := t + (": " + v);
      !IsSeqItem(l) && KeyColon(l) == |t| && l[..|t|] == t && Value(l) == v
  {
    assert t + (": " + v) == t + ":" + (" " + v);
    ColonAfterKey(t, k, " " + v);
    assert (t + (": " + v))[|t| + 1..] == " " + v;
    BareTrims(v);
  }

  lemma BlockEntryLine(t: string, k: string)
    requires Names(t, k)
    ensures var l := t + ":";
      !IsSeqItem(l) && KeyColon(l) == |t| && l[..|t|] == t && Value(l) == ""
  {
    assert t + ":" == t + ":" + "";
    ColonAfterKey(t, k, "");
  }

  /** t is read as a line of a map with this key and, for a scalar, this value. */
  predicate ReadsEntry(t: string, e: Entry) {
    && !IsSeqItem(t) && KeyColon(t) < |t| && Unquote(t[..KeyColon(t)]) == e.key
    && if e.value.Scalar? then Value(t) != "" && Unquote(Value(t)) == e.value.text else Value(t) == ""
  }

  /** t is read as an item of a sequence: a scalar, or the start of a block. */
  predicate ReadsItem(t: string, n: Node) {
    && IsSeqItem(t)
    && if n.Scalar? then Rest(t) != "" && KeyColon(Rest(t)) == |Rest(t)| && Unquote(Rest(t)) == n.text else Rest(t) == ""
  }

  /** A rendered line of a map reads back. */
  lemma EntryLine(e: Entry)
    requires Keyable(e.key)
    ensures ReadsEntry(EntryText(e), e)
  {
    if e.value.Scalar? {
      ScalarInverts(e.value.text);
      ScalarEntryLine(RenderKey(e.key), e.key, RenderScalar(e.value.text));
    } else {
      BlockEntryLine(RenderKey(e.key), e.key);
    }
  }

  lemma ScalarItemLine(v: string)
    requires Inert(v)
    ensures var t := "- " + v; IsSeqItem(t) && Rest(t) == v && KeyColon(v) == |v|
  {
    assert ("- " + v)[1..] == " " + v;
    BareTrims(v);
    NoColonInInert(v);
  }

  /** And so does one of a sequence. */
  lemma ItemLine(n: Node)
    ensures ReadsItem(ItemText(n), n)
  {
    if n.Scalar? {
      ScalarInverts(n.text);
      ScalarItemLine(RenderScalar(n.text));
    }
  }

  // ---- blocks ---------------------------------------------------------------------------------

  predicate Stands(lines: seq<Line>, pos: nat, part: seq<Line>) {
    pos + |part| <= |lines| && lines[pos..pos + |part|] == part
  }

  /** What follows at p belongs to no block indented by `indent` or more. */
  predicate Ends(lines: seq<Line>, p: nat, indent: nat) {
    p == |lines| || (p < |lines| && lines[p].indent < indent)
  }

  lemma StandsSplit(lines: seq<Line>, pos: nat, a: seq<Line>, b: seq<Line>)
    requires Stands(lines, pos, a + b)
    ensures Stands(lines, pos, a) && Stands(lines, pos + |a|, b)
  {
    var ab := lines[pos..pos + |a + b|];
    assert ab[..|a|] == a && ab[|a|..] == b;
    assert lines[pos..pos + |a|] == ab[..|a|] && lines[pos + |a|..pos + |a| + |b|] == ab[|a|..];
  }

  /** parse_block returns the tree, reads exactly its lines and warns of nothing. */
  lemma {:induction false} BlockInverts(lines: seq<Line>, pos: nat, n: Node, indent: nat, step: nat, min: nat, q: nat)
    requires Supported(n) && !n.Scalar? && step > 0 && min <= indent
    requires Stands(lines, pos, Render(n, indent, step)) && q == pos + |Render(n, indent, step)| && Ends(lines, q, indent)
    ensures Block(lines, pos, min) == Parsed(n, q, [])
    decreases n
  {
    match n
    case Map(es) =>
      assert SupportedEntries(es) && Keyable(es[0].key) && Supported(es[0].value);
      EntryLine(es[0]);
      assert Render(n, indent, step)[0] == Line(indent, EntryText(es[0]));
      EntriesInvert(lines, pos, es, indent, step, q);
    case Seq(ns) =>
      assert SupportedItems(ns) && Supported(ns[0]);
      ItemLine(ns[0]);
      assert Render(n, indent, step)[0] == Line(indent, ItemText(ns[0]));
      ItemsInvert(lines, pos, ns, indent, step, q);
  }

  lemma EntriesStep(lines: seq<Line>, pos: nat, e: Entry, es: seq<Entry>, cur: nat, p: nat, q: nat)
    requires pos < |lines| && lines[pos].indent == cur && ReadsEntry(lines[pos].text, e) && p <= |lines|
    requires if e.value.Scalar? then p == pos + 1 else Block(lines, pos + 1, cur + 1) == Parsed(e.value, p, [])
    requires Entries(lines, p, cur) == Parsed(es, q, [])
    ensures Entries(lines, pos, cur) == Parsed([e] + es, q, [])
  {
    var none: seq<string> := [];
    assert none + none == none;
  }

  lemma ItemsStep(lines: seq<Line>, pos: nat, n: Node, ns: seq<Node>, cur: nat, p: nat, q: nat)
    requires pos < |lines| && lines[pos].indent == cur && ReadsItem(lines[pos].text, n) && p <= |lines|
    requires if n.Scalar? then p == pos + 1 else Block(lines, pos + 1, cur + 1) == Parsed(n, p, [])
    requires Items(lines, p, cur) == Parsed(ns, q, [])
    ensures Items(lines, pos, cur) == Parsed([n] + ns, q, [])
  {
    var none: seq<string> := [];
    assert none + none == none;
  }

  /** The three parts of a rendering: first line, child, siblings. */
  lemma StandsInParts(lines: seq<Line>, pos: nat, l: Line, child: seq<Line>, rest: seq<Line>)
    requires Stands(lines, pos, [l] + child + rest)
    ensures pos < |lines| && lines[pos] == l
    ensures Stands(lines, pos + 1, child) && Stands(lines, pos + 1 + |child|, rest)
  {
    StandsSplit(lines, pos, [l] + child, rest);
    StandsSplit(lines, pos, [l], child);
    assert lines[pos] == lines[pos..pos + 1][0];
  }

  lemma SiblingsAreLevel(es: seq<Entry>, ns: seq<Node>, indent: nat, step: nat)
    ensures RenderEntries(es, indent, step) != [] ==> RenderEntries(es, indent, step)[0].indent == indent
    ensures RenderItems(ns, indent, step) != [] ==> RenderItems(ns, indent, step)[0].indent == indent
  {
  }

  lemma EntriesInParts(lines: seq<Line>, pos: nat, es: seq<Entry>, indent: nat, step: nat, q: nat) returns (p: nat)
    requires es != [] && SupportedEntries(es)
    requires Stands(lines, pos, RenderEntries(es, indent, step)) && q == pos + |RenderEntries(es, indent, step)|
    ensures SupportedEntries(es[1..]) && Keyable(es[0].key) && Supported(es[0].value) && (es[0].value.Scalar? ==> p == pos + 1)
    ensures pos < |lines| && lines[pos] == Line(indent, EntryText(es[0]))
    ensures var child, rest := Render(es[0].value, indent + step, step), RenderEntries(es[1..], indent, step);
      && p == pos + 1 + |child| && q == p + |rest| && q <= |lines|
      && Stands(lines, pos + 1, child) && Stands(lines, p, rest)
      && (rest != [] ==> lines[p].indent == indent)
  {
    var child, rest := Render(es[0].value, indent + step, step), RenderEntries(es[1..], indent, step);
    p := pos + 1 + |child|;
    assert RenderEntries(es, indent, step) == [Line(indent, EntryText(es[0]))] + child + rest;
    StandsInParts(lines, pos, Line(indent, EntryText(es[0])), child, rest);
    SiblingsAreLevel(es[1..], [], indent, step);
    if rest != [] { assert lines[p] == lines[p..p + |rest|][0]; }
  }

  lemma EntriesJoin(lines: seq<Line>, pos: nat, es: seq<Entry>, cur: nat, p: nat, q: nat)
    requires es != [] && pos < |lines| && lines[pos].indent == cur && ReadsEntry(lines[pos].text, es[0]) && p <= |lines|
    requires if es[0].value.Scalar? then p == pos + 1 else Block(lines, pos + 1, cur + 1) == Parsed(es[0].value, p, [])
    requires Entries(lines, p, cur) == Parsed(es[1..], q, [])
    ensures Entries(lines, pos, cur) == Parsed(es, q, [])
  {
    EntriesStep(lines, pos, es[0], es[1..], cur, p, q);
    assert [es[0]] + es[1..] == es;
  }

  lemma {:induction false} EntriesInvert(lines: seq<Line>, pos: nat, es: seq<Entry>, indent: nat, step: nat, q: nat)
    requires step > 0 && SupportedEntries(es)
    requires Stands(lines, pos, RenderEntries(es, indent, step)) && q == pos + |RenderEntries(es, indent, step)| && Ends(lines, q, indent)
    ensures Entries(lines, pos, indent) == Parsed(es, q, [])
    decreases es
  {
    if es != [] {
      var p := EntriesInParts(lines, pos, es, indent, step, q);
      EntriesInvert(lines, p, es[1..], indent, step, q);
      if !es[0].value.Scalar? {
        BlockInverts(lines, pos + 1, es[0].value, indent + step, step, indent + 1, p);
      }
      EntryLine(es[0]);
      EntriesJoin(lines, pos, es, indent, p, q);
    }
  }

  lemma ItemsInParts(lines: seq<Line>, pos: nat, ns: seq<Node>, indent: nat, step: nat, q: nat) returns (p: nat)
    requires ns != [] && SupportedItems(ns)
    requires Stands(lines, pos, RenderItems(ns, indent, step)) && q == pos + |RenderItems(ns, indent, step)|
    ensures SupportedItems(ns[1..]) && Supported(ns[0]) && (ns[0].Scalar? ==> p == pos + 1)
    ensures pos < |lines| && lines[pos] == Line(indent, ItemText(ns[0]))
    ensures var child, rest := Render(ns[0], indent + step, step), RenderItems(ns[1..], indent, step);
      && p == pos + 1 + |child| && q == p + |rest| && q <= |lines|
      && Stands(lines, pos + 1, child) && Stands(lines, p, rest)
      && (rest != [] ==> lines[p].indent == indent)
  {
    var child, rest := Render(ns[0], indent + step, step), RenderItems(ns[1..], indent, step);
    p := pos + 1 + |child|;
    assert RenderItems(ns, indent, step) == [Line(indent, ItemText(ns[0]))] + child + rest;
    StandsInParts(lines, pos, Line(indent, ItemText(ns[0])), child, rest);
    SiblingsAreLevel([], ns[1..], indent, step);
    if rest != [] { assert lines[p] == lines[p..p + |rest|][0]; }
  }

  lemma ItemsJoin(lines: seq<Line>, pos: nat, ns: seq<Node>, cur: nat, p: nat, q: nat)
    requires ns != [] && pos < |lines| && lines[pos].indent == cur && ReadsItem(lines[pos].text, ns[0]) && p <= |lines|
    requires if ns[0].Scalar? then p == pos + 1 else Block(lines, pos + 1, cur + 1) == Parsed(ns[0], p, [])
    requires Items(lines, p, cur) == Parsed(ns[1..], q, [])
    ensures Items(lines, pos, cur) == Parsed(ns, q, [])
  {
    ItemsStep(lines, pos, ns[0], ns[1..], cur, p, q);
    assert [ns[0]] + ns[1..] == ns;
  }

  lemma {:induction false} ItemsInvert(lines: seq<Line>, pos: nat, ns: seq<Node>, indent: nat, step: nat, q: nat)
    requires step > 0 && SupportedItems(ns)
    requires Stands(lines, pos, RenderItems(ns, indent, step)) && q == pos + |RenderItems(ns, indent, step)| && Ends(lines, q, indent)
    ensures Items(lines, pos, indent) == Parsed(ns, q, [])
    decreases ns
  {
    if ns != [] {
      var p := ItemsInParts(lines, pos, ns, indent, step, q);
      ItemsInvert(lines, p, ns[1..], indent, step, q);
      if !ns[0].Scalar? {
        BlockInverts(lines, pos + 1, ns[0], indent + step, step, indent + 1, p);
      }
      ItemLine(ns[0]);
      ItemsJoin(lines, pos, ns, indent, p, q);
    }
  }

  /** The document as a whole: from any tree, at any indentation of the file, the
    * reader gets the tree back, with every line consumed.
    */
  lemma ParseInvertsRender(n: Node, indent: nat, step: nat)
    requires Supported(n) && !n.Scalar? && step > 0
    ensures Block(Render(n, indent, step), 0, 0) == Parsed(n, |Render(n, indent, step)|, [])
  {
    BlockInverts(Render(n, indent, step), 0, n, indent, step, 0, |Render(n, indent, step)|);
  }

  // ---- raw text -------------------------------------------------------------------------------

  function Spaces(k: nat): string {
    seq(k, i => ' ')
  }

  function Written(l: Line): string {
    Spaces(l.indent) + l.text
  }

  function WrittenAll(ls: seq<Line>): seq<string> {
    if ls == [] then [] else [Written(ls[0])] + WrittenAll(ls[1..])
  }

  /** A text that survives the comment filter and the trimming of a raw line. */
  predicate Visible(t: string) {
    && t != "" && !Blank(t[0]) && !Blank(t[|t| - 1]) && t[|t| - 1] != '\r'
    && t != "---" && t != "..." && NoComment(t) && OneLine(t)
  }

  /** No comment starts in an inert text behind a space, whatever comes before. */
  lemma NoCommentBehind(a: string, v: string)
    requires NoComment(a) && Inert(v)
    ensures NoComment(a + v)
  {
    forall i | 0 <= i < |a + v| ensures !IsComment(a + v, i) {
      if i < |a| {
        assert !IsComment(a, i) && (a + v)[..i] == a[..i];
      } else {
        assert InertAt(v, i - |a|);
      }
    }
  }

  lemma NoCommentMark(a: string, c: char)
    requires NoComment(a) && c != '#'
    ensures NoComment(a + [c])
  {
    forall i | 0 <= i < |a + [c]| ensures !IsComment(a + [c], i) {
      if i < |a| { assert !IsComment(a, i) && (a + [c])[..i] == a[..i]; }
    }
  }

  lemma KeyLineIsVisible(t: string, k: string)
    requires Names(t, k)
    ensures Visible(t + ":")
  {
    NoCommentMark(t, ':');
    assert (t + ":")[|t|] == ':';
  }

  lemma PairIsVisible(t: string, k: string, v: string)
    requires Names(t, k) && Inert(v)
    ensures Visible(t + (": " + v))
  {
    NoCommentMark(t, ':');
    NoCommentMark(t + ":", ' ');
    NoCommentBehind(t + ":" + " ", v);
    assert t + (": " + v) == t + ":" + " " + v;
    assert (t + (": " + v))[|t|] == ':';
  }

  lemma EntryIsVisible(e: Entry)
    requires Keyable(e.key)
    ensures Visible(EntryText(e))
  {
    if e.value.Scalar? {
      ScalarInverts(e.value.text);
      PairIsVisible(RenderKey(e.key), e.key, RenderScalar(e.value.text));
    } else {
      KeyLineIsVisible(RenderKey(e.key), e.key);
    }
  }

  lemma ItemIsVisible(n: Node)
    ensures Visible(ItemText(n))
  {
    if n.Scalar? {
      ScalarInverts(n.text);
      NoCommentBehind("- ", RenderScalar(n.text));
      assert ItemText(n)[1] == ' ' && ItemText(n)[0] == '-';
      assert ItemText(n)[|ItemText(n)| - 1] == RenderScalar(n.text)[|RenderScalar(n.text)| - 1];
    }
  }

  predicate AllVisible(ls: seq<Line>) {
    ls == [] || (Visible(ls[0].text) && AllVisible(ls[1..]))
  }

  lemma {:induction false} AllVisibleConcat(a: seq<Line>, b: seq<Line>)
    requires AllVisible(a) && AllVisible(b)
    ensures AllVisible(a + b)
  {
    if a == [] {
      assert a + b == b;
    } else {
      assert (a + b)[1..] == a[1..] + b;
      AllVisibleConcat(a[1..], b);
    }
  }

  lemma {:induction false} RenderIsVisible(n: Node, indent: nat, step: nat)
    requires Supported(n)
    ensures AllVisible(Render(n, indent, step))
    decreases n
  {
    match n
    case Scalar(_) =>
    case Map(es) => EntriesAreVisible(es, indent, step);
    case Seq(ns) => ItemsAreVisible(ns, indent, step);
  }

  lemma {:induction false} EntriesAreVisible(es: seq<Entry>, indent: nat, step: nat)
    requires SupportedEntries(es)
    ensures AllVisible(RenderEntries(es, indent, step))
    decreases es
  {
    if es != [] {
      var head := [Line(indent, EntryText(es[0]))];
      EntryIsVisible(es[0]);
      assert head[1..] == [] && AllVisible(head);
      RenderIsVisible(es[0].value, indent + step, step);
      EntriesAreVisible(es[1..], indent, step);
      AllVisibleConcat(head, Render(es[0].value, indent + step, step));
      AllVisibleConcat(head + Render(es[0].value, indent + step, step), RenderEntries(es[1..], indent, step));
    }
  }

  lemma {:induction false} ItemsAreVisible(ns: seq<Node>, indent: nat, step: nat)
    requires SupportedItems(ns)
    ensures AllVisible(RenderItems(ns, indent, step))
    decreases ns
  {
    if ns != [] {
      var head := [Line(indent, ItemText(ns[0]))];
      ItemIsVisible(ns[0]);
      assert head[1..] == [] && AllVisible(head);
      RenderIsVisible(ns[0], indent + step, step);
      ItemsAreVisible(ns[1..], indent, step);
      AllVisibleConcat(head, Render(ns[0], indent + step, step));
      AllVisibleConcat(head + Render(ns[0], indent + step, step), RenderItems(ns[1..], indent, step));
    }
  }

  lemma {:induction false} SpacesRead(k: nat, t: string)
    requires t != "" && !Blank(t[0])
    ensures Indented(Spaces(k) + t) == Some(k)
  {
    var raw := Spaces(k) + t;
    if k > 0 {
      assert raw[1..] == Spaces(k - 1) + t;
      SpacesRead(k - 1, t);
    } else {
      assert raw == t;
    }
  }

  lemma VisibleLineLoads(l: Line)
    requires Visible(l.text)
    ensures LoadLine(Written(l)) == Got(l) && OneLine(Written(l))
  {
    var raw := Written(l);
    assert raw[|raw| - 1] == l.text[|l.text| - 1];
    SpacesRead(l.indent, l.text);
    assert raw[l.indent..] == l.text;
    assert StripComment(l.text) == l.text;
    BareTrims(l.text);
  }

  lemma LoadFirst(ls: seq<Line>)
    requires ls != [] && LoadLine(Written(ls[0])) == Got(ls[0]) && LoadLines(WrittenAll(ls[1..])) == Some(ls[1..])
    ensures LoadLines(WrittenAll(ls)) == Some(ls)
  {
    var raws := WrittenAll(ls);
    assert raws[0] == Written(ls[0]) && raws[1..] == WrittenAll(ls[1..]);
    assert [ls[0]] + ls[1..] == ls;
  }

  lemma {:induction false} VisibleLinesLoad(ls: seq<Line>)
    requires AllVisible(ls)
    ensures LoadLines(WrittenAll(ls)) == Some(ls) && AllOneLine(WrittenAll(ls))
  {
    if ls != [] {
      VisibleLineLoads(ls[0]);
      VisibleLinesLoad(ls[1..]);
      LoadFirst(ls);
    }
  }

  /** From the text of a file: reading what was written line by line gives the tree back,
    * uses every line and warns of nothing.
    */
  lemma ReadInvertsWrite(n: Node, indent: nat, step: nat)
    requires Supported(n) && !n.Scalar? && step > 0
    ensures var loaded := LoadText(Join(WrittenAll(Render(n, indent, step))));
      loaded != None && Block(loaded.value, 0, 0) == Parsed(n, |loaded.value|, [])
  {
    RenderIsVisible(n, indent, step);
    VisibleLinesLoad(Render(n, indent, step));
    GetLinesJoin(WrittenAll(Render(n, indent, step)));
    ParseInvertsRender(n, indent, step);
  }
}
