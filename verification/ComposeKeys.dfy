/** Which keys a compose file can have: exactly those that the rendering can write. */
module ComposeKeys {
  import opened ComposeRoundTrip
  import opened ComposeYaml
  import opened TextLines

  const SINGLE := Quoting(true, false)
  const DOUBLE := Quoting(false, true)

  // ---- quotes around and inside a key ----------------------------------------------------

  /** Opening a quote and closing it again: closed at the end if the text in between
    * leaves it open.
    */
  lemma ClosesExactly(q: char, b: string)
    requires q == '\'' || q == '"'
    ensures var open := if q == '"' then DOUBLE else SINGLE;
      After(OPEN, [q] + b + [q]) == OPEN <==> After(open, b) == open
  {
    var open := if q == '"' then DOUBLE else SINGLE;
    assert [q][..0] == "";
    assert After(OPEN, [q]) == open;
    AfterConcat(OPEN, [q], b);
    assert ([q] + b + [q])[..|b| + 1] == [q] + b;
    NeverBoth(open, b);
  }

  lemma {:induction false} NeverBoth(q: Quoting, s: string)
    requires q != Quoting(true, true)
    ensures After(q, s) != Quoting(true, true)
    decreases s
  {
    if s != "" { NeverBoth(q, s[..|s| - 1]); }
  }

  /** What decoding drops or changes are no quotes. */
  lemma {:induction false} UnescapeKeepsQuoting(q: Quoting, b: string)
    ensures After(q, Unescape(b)) == After(q, b)
    decreases |b|
  {
    if b == "" {
    } else if b[0] == '\\' && |b| > 1 {
      DecodedChar(q, b[1]);
      UnescapeKeepsQuoting(After(q, b[..2]), b[2..]);
      AfterConcat(q, b[..2], b[2..]);
      AfterConcat(q, [Unescaped(b[1])], Unescape(b[2..]));
      assert b[..2] == ['\\', b[1]] && b[..2] + b[2..] == b;
    } else {
      UnescapeKeepsQuoting(After(q, [b[0]]), b[1..]);
      AfterConcat(q, [b[0]], b[1..]);
      AfterConcat(q, [b[0]], Unescape(b[1..]));
      assert [b[0]] + b[1..] == b;
    }
  }

  lemma DecodedChar(q: Quoting, c: char)
    ensures After(q, ['\\', c]) == After(q, [Unescaped(c)])
  {
    assert ['\\', c][..1] == ['\\'] && ['\\'][..0] == "" && [Unescaped(c)][..0] == "";
  }

  lemma {:induction false} BlanksKeepQuoting(s: string)
    ensures After(OPEN, DropTrailing(s)) == After(OPEN, s)
    decreases s
  {
    if s != "" && Blank(s[|s| - 1]) { BlanksKeepQuoting(s[..|s| - 1]); }
  }

  // ---- the three forms ---------------------------------------------------------------------

  /** Where no quotes are open, neither a key ends in k nor a comment starts. */
  predicate Gapless(q: Quoting, k: string) {
    forall i | 0 <= i < |k| :: GaplessAt(q, k, i)
  }

  predicate GaplessAt(q: Quoting, k: string, i: nat)
    requires i < |k|
  {
    After(q, k[..i]) == OPEN ==>
      && (k[i] == ':' ==> i + 1 == |k| || k[i + 1] != ' ')
      && (k[i] == '#' ==> i > 0 && !Blank(k[i - 1]))
  }

  /** t names something as soon as its quotes are closed and nothing in it is mistaken. */
  lemma NamesWhen(t: string)
    requires t != "" && !Blank(t[0]) && OneLine(t) && !IsSeqItem(t + ":")
    ensures NoComment(t) && KeyColon(t + ":") == |t| <==> After(OPEN, t) == OPEN && Gapless(OPEN, t)
  {
    var l := t + ":";
    assert l[..|t|] == t;
    assert IsKeyColon(l, |t|) <==> After(OPEN, t) == OPEN;
    forall i | 0 <= i < |t| ensures GaplessAt(OPEN, t, i) <==> !IsComment(t, i) && !IsKeyColon(l, i) {
      assert l[..i] == t[..i];
    }
    if After(OPEN, t) == OPEN && Gapless(OPEN, t) {
      assert forall i | 0 <= i < |t| :: GaplessAt(OPEN, t, i);
    }
  }

  /** A key stands plain exactly if it is trimmed and on one line, is not itself in quotes,
    * does not begin like a list item, closes its own quotes, and leaves no gap.
    */
  lemma PlainKeyExactly(k: string)
    ensures Names(k, k) <==>
      && k != "" && !Blank(k[0]) && !Blank(k[|k| - 1]) && OneLine(k) && !(k[0] == '-' && |k| > 1 && k[1] == ' ')
      && !QuotedBy(k, '"') && !QuotedBy(k, '\'') && After(OPEN, k) == OPEN && Gapless(OPEN, k)
  {
    if k != "" && !Blank(k[0]) && OneLine(k) {
      UnquotedExactly(k);
      if !IsSeqItem(k + ":") { NamesWhen(k); }
    }
  }

  lemma UnquotedExactly(k: string)
    requires k != "" && !Blank(k[0])
    ensures Unquote(k) == k <==> !Blank(k[|k| - 1]) && !QuotedBy(k, '"') && !QuotedBy(k, '\'')
  {
    TrimShrinks(k);
    UnescapeShrinks(if |Trim(k)| >= 2 then Trim(k)[1..|Trim(k)| - 1] else "");
  }

  lemma {:induction false} TrimShrinks(k: string)
    ensures |DropTrailing(k)| <= |k|
    ensures DropTrailing(k) == k <==> k == "" || !Blank(k[|k| - 1])
    decreases k
  {
    if k != "" && Blank(k[|k| - 1]) { TrimShrinks(k[..|k| - 1]); }
  }

  lemma {:induction false} UnescapeShrinks(b: string)
    ensures |Unescape(b)| <= |b|
    decreases |b|
  {
    if b == "" {
    } else if b[0] == '\\' && |b| > 1 {
      UnescapeShrinks(b[2..]);
    } else {
      UnescapeShrinks(b[1..]);
    }
  }

  /** In double quotes only the key's own quotes matter: read after an open double quote
    * they must leave it open. Everything else is escaped.
    */
  lemma DoubleKeyExactly(k: string)
    ensures Names(Quote(k), k) <==> After(DOUBLE, k) == DOUBLE
  {
    var t := Quote(k);
    QuoteInverts(k);
    EscapeKeepsQuoting(DOUBLE, k);
    ClosesExactly('"', Escape(k));
    assert t == ['"'] + Escape(k) + ['"'];
    NamesWhen(t);
    forall i | 0 <= i < |t| ensures GaplessAt(OPEN, t, i) { assert InertAt(t, i); }
  }

  /** In single quotes there are no escapes: its own quotes must leave the single quote
    * open, and where they have closed it nothing may be mistaken.
    */
  lemma SingleKeyExactly(k: string)
    ensures Names("'" + k + "'", k) <==> OneLine(k) && After(SINGLE, k) == SINGLE && Gapless(SINGLE, k)
  {
    var t := "'" + k + "'";
    assert t == ['\''] + k + ['\''];
    assert t[1..|t| - 1] == k;
    BareTrims(t);
    ClosesExactly('\'', k);
    InSingle(k);
    if OneLine(k) { NamesWhen(t); }
    if OneLine(t) { assert forall i | 0 <= i < |k| :: k[i] == t[i + 1]; }
  }

  lemma InSingle(k: string)
    ensures Gapless(OPEN, "'" + k + "'") <==> Gapless(SINGLE, k)
  {
    var t := "'" + k + "'";
    forall i | 0 <= i < |k| ensures GaplessAt(SINGLE, k, i) <==> GaplessAt(OPEN, t, i + 1) {
      assert t[..i + 1] == "'" + k[..i];
      assert "'"[..0] == "";
      AfterConcat(OPEN, "'", k[..i]);
      assert t[i + 1] == k[i];
    }
    assert GaplessAt(OPEN, t, 0) && GaplessAt(OPEN, t, |k| + 1);
    if Gapless(SINGLE, k) {
      forall i | 0 <= i < |t| ensures GaplessAt(OPEN, t, i) {
        if 0 < i <= |k| { assert GaplessAt(SINGLE, k, i - 1); }
      }
    }
    if Gapless(OPEN, t) {
      forall i | 0 <= i < |k| ensures GaplessAt(SINGLE, k, i) { assert GaplessAt(OPEN, t, i + 1); }
    }
  }

  /** A single quote and a double quote, in this order, cannot be a key. */
  lemma NotEveryTextIsAKey()
    ensures !Keyable("'\"")
  {
    var k := "'\"";
    assert k[..1] == "'" && "'"[..0] == "";
    PlainKeyExactly(k);
    DoubleKeyExactly(k);
    SingleKeyExactly(k);
  }

  // ---- every key that is read can be written ----------------------------------------------------

  /** The content of a loaded line: trimmed, on one line, without comment. */
  predicate Content(t: string) {
    t != "" && !Blank(t[0]) && OneLine(t) && NoComment(t)
  }

  lemma {:induction false} LeadingGone(s: string)
    ensures DropLeading(s) == "" || !Blank(DropLeading(s)[0])
  {
    if s != "" && Blank(s[0]) { LeadingGone(s[1..]); }
  }

  lemma {:induction false} TrailingIsPrefix(s: string)
    ensures var d := DropTrailing(s); |d| <= |s| && d == s[..|d|] && (d != "" ==> !Blank(d[|d| - 1]))
    decreases s
  {
    if s != "" && Blank(s[|s| - 1]) { TrailingIsPrefix(s[..|s| - 1]); }
  }

  lemma {:induction false} IndentEnds(raw: string)
    ensures Indented(raw) != Wrappers.None ==> var k := Indented(raw).value; k <= |raw| && (k < |raw| ==> !Blank(raw[k]))
  {
    if raw != "" && Blank(raw[0]) { IndentEnds(raw[1..]); }
  }

  lemma PrefixHasContent(s: string, n: nat)
    requires n <= |s| && OneLine(s) && s[..n] != "" && !Blank(s[0]) && NoComment(s)
    ensures Content(s[..n])
  {
    forall i | 0 <= i < n ensures !IsComment(s[..n], i) { assert !IsComment(s, i) && s[..n][..i] == s[..i]; }
  }

  lemma LoadedHasContent(line: string)
    requires OneLine(line) && LoadLine(line).Got?
    ensures Content(LoadLine(line).line.text)
  {
    var raw := Chomp(line);
    IndentEnds(raw);
    var text := raw[Indented(raw).value..];
    var bare := StripComment(text);
    assert bare != "" && !Blank(bare[0]);
    forall i | 0 <= i < |bare| ensures !IsComment(bare, i) { assert !IsComment(text, i) && bare[..i] == text[..i]; }
    TrailingIsPrefix(bare);
    PrefixHasContent(bare, |DropTrailing(bare)|);
  }

  /** What is in front of a key colon has closed its quotes and is trimmed on the left. */
  lemma InFront(t: string)
    requires Content(t) && 0 < KeyColon(t) < |t| && !IsSeqItem(t)
    ensures var c := KeyColon(t); var s := Trim(t[..c]);
      && s != "" && |s| <= c && s == t[..|s|] && !Blank(s[0]) && !Blank(s[|s| - 1])
      && After(OPEN, s) == OPEN && Content(s) && Gapless(OPEN, s) && !IsSeqItem(s + ":")
  {
    var c := KeyColon(t);
    var u := t[..c];
    TrailingIsPrefix(u);
    var s := Trim(u);
    assert s == DropTrailing(u);
    assert s != "" by { assert DropTrailing(u[..1]) == u[..1]; KeepsFirst(u); }
    assert s == t[..|s|];
    BlanksKeepQuoting(u);
    assert IsKeyColon(t, c);
    PrefixHasContent(t, |s|);
    forall i | 0 <= i < |s| ensures GaplessAt(OPEN, s, i) {
      assert !IsKeyColon(t, i) && !IsComment(t, i) && t[..i] == s[..i];
    }
  }

  lemma {:induction false} KeepsFirst(s: string)
    requires s != "" && !Blank(s[0])
    ensures DropTrailing(s) != ""
    decreases s
  {
    if Blank(s[|s| - 1]) { KeepsFirst(s[..|s| - 1]); }
  }

  /** Every key of a map line in any file can be written by one of the three forms. With
    * EntryLine, which reads those back, Keyable is exact.
    */
  lemma KeysAreKeyable(line: string)
    requires OneLine(line) && LoadLine(line).Got?
    requires var t := LoadLine(line).line.text; !IsSeqItem(t) && KeyColon(t) < |t|
    ensures var t := LoadLine(line).line.text; Keyable(Unquote(t[..KeyColon(t)]))
  {
    var t := LoadLine(line).line.text;
    LoadedHasContent(line);
    var c := KeyColon(t);
    if c == 0 {
      DoubleKeyExactly("");
    } else {
      InFront(t);
      TrimmedKeyable(t[..c], Trim(t[..c]));
    }
  }

  lemma TrimmedKeyable(u: string, s: string)
    requires s == Trim(u) && s != "" && !Blank(s[0]) && !Blank(s[|s| - 1])
    requires After(OPEN, s) == OPEN && Content(s) && Gapless(OPEN, s) && !IsSeqItem(s + ":")
    ensures Keyable(Unquote(u))
  {
    if QuotedBy(s, '"') {
      InDoubleKeyable(s);
    } else if QuotedBy(s, '\'') {
      InSingleKeyable(s);
    } else {
      PlainKeyable(s);
    }
  }

  lemma PlainKeyable(s: string)
    requires s != "" && !Blank(s[|s| - 1]) && !QuotedBy(s, '"') && !QuotedBy(s, '\'')
    requires After(OPEN, s) == OPEN && Content(s) && Gapless(OPEN, s) && !IsSeqItem(s + ":")
    ensures Keyable(s)
  {
    BareTrims(s);
    NamesWhen(s);
    assert Names(s, s);
  }

  lemma InSingleKeyable(s: string)
    requires QuotedBy(s, '\'') && After(OPEN, s) == OPEN && Content(s) && Gapless(OPEN, s)
    ensures Keyable(s[1..|s| - 1])
  {
    var k := s[1..|s| - 1];
    assert s == ['\''] + k + ['\''];
    ClosesExactly('\'', k);
    InSingle(k);
    assert OneLine(k) by { assert forall i | 0 <= i < |k| :: k[i] == s[i + 1]; }
    SingleKeyExactly(k);
  }

  lemma InDoubleKeyable(s: string)
    requires QuotedBy(s, '"') && After(OPEN, s) == OPEN
    ensures Keyable(Unescape(s[1..|s| - 1]))
  {
    var b := s[1..|s| - 1];
    assert s == ['"'] + b + ['"'];
    ClosesExactly('"', b);
    UnescapeKeepsQuoting(DOUBLE, b);
    DoubleKeyExactly(Unescape(b));
  }
}
