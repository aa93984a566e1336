/** The reader as src/compose.cpp runs it: index loops over quote flags, and a parser
  * that advances one shared position and pushes into one shared list of warnings.
  */
module ComposeReader {
  import opened TextLines
  import opened Wrappers
  import opened ComposeYaml

  /** key_colon */
  method FindKeyColon(t: string) returns (c: nat)
    ensures c == KeyColon(t)
  {
    var sq, dq := false, false;
    var i := 0;
    while i < |t|
      invariant 0 <= i <= |t| && Quoting(sq, dq) == After(OPEN, t[..i])
      invariant forall j | 0 <= j < i :: !IsKeyColon(t, j)
    {
      assert t[..i + 1][..i] == t[..i];
      if t[i] == '\'' && !dq {
        sq := !sq;
      } else if t[i] == '"' && !sq {
        dq := !dq;
      } else if t[i] == ':' && !sq && !dq && (i + 1 == |t| || t[i + 1] == ' ') {
        assert IsKeyColon(t, i);
        return i;
      }
      i := i + 1;
    }
    return |t|;
  }

  method WithoutComment(t: string) returns (s: string)
    ensures s == StripComment(t)
  {
    var sq, dq := false, false;
    var i := 0;
    while i < |t|
      invariant 0 <= i <= |t| && Quoting(sq, dq) == After(OPEN, t[..i])
      invariant forall j | 0 <= j < i :: !IsComment(t, j)
    {
      assert t[..i + 1][..i] == t[..i];
      if t[i] == '\'' && !dq {
        sq := !sq;
      } else if t[i] == '"' && !sq {
        dq := !dq;
      } else if t[i] == '#' && !sq && !dq && (i == 0 || Blank(t[i - 1])) {
        assert IsComment(t, i);
        return t[..i];
      }
      i := i + 1;
    }
    assert t[..|t|] == t;
    return t;
  }

  /** The escapes of a double-quoted scalar. */
  method Decoded(b: string) returns (o: string)
    ensures o == Unescape(b)
  {
    o := "";
    var i := 0;
    while i < |b|
      invariant 0 <= i <= |b|
      invariant o + Unescape(b[i..]) == Unescape(b)
    {
      ghost var rest := b[i..];
      if b[i] == '\\' && i + 1 < |b| {
        i := i + 1;
        assert rest[2..] == b[i + 1..];
        assert o + ([Unescaped(b[i])] + Unescape(b[i + 1..])) == (o + [Unescaped(b[i])]) + Unescape(b[i + 1..]);
        o := o + [if b[i] == 'n' then '\n' else if b[i] == 't' then '\t' else b[i]];
      } else {
        assert rest[1..] == b[i + 1..];
        assert o + ([b[i]] + Unescape(b[i + 1..])) == (o + [b[i]]) + Unescape(b[i + 1..]);
        o := o + [b[i]];
      }
      i := i + 1;
    }
  }

  method Unquoted(t: string) returns (o: string)
    ensures o == Unquote(t)
  {
    var s := Trim(t);
    if |s| >= 2 && ((s[0] == '"' && s[|s| - 1] == '"') || (s[0] == '\'' && s[|s| - 1] == '\'')) {
      var q := s[0];
      var b := s[1..|s| - 1];
      if q == '"' {
        o := Decoded(b);
        return;
      }
      return b;
    }
    return s;
  }

  /** The lines read so far, and those that come. */
  function Following(lines: seq<Line>, rest: Option<seq<Line>>): Option<seq<Line>> {
    match rest case None => None case Some(more) => Some(lines + more)
  }

  lemma FollowingLine(lines: seq<Line>, l: Line, rest: Option<seq<Line>>)
    ensures Following(lines, Following([l], rest)) == Following(lines + [l], rest)
  {
    if rest != None { assert lines + ([l] + rest.value) == (lines + [l]) + rest.value; }
  }

  lemma LoadGoesOn(text: string)
    requires text != ""
    ensures LoadText(text) == match LoadLine(text[..Newline(text)])
      case TabIndent => None
      case Skip => LoadText(AfterLine(text))
      case Got(l) => Following([l], LoadText(AfterLine(text)))
  {
    GetLinesFirst(text);
    assert GetLines(text)[1..] == GetLines(AfterLine(text));
  }

  /** load_lines: one line after the other. */
  method Load(text: string) returns (ok: bool, lines: seq<Line>)
    ensures ok <==> LoadText(text) != None
    ensures ok ==> lines == LoadText(text).value
  {
    lines := [];
    var left := text;
    assert forall more: seq<Line> :: lines + more == more;
    while left != ""
      invariant LoadText(text) == Following(lines, LoadText(left))
      decreases |left|
    {
      LoadGoesOn(left);
      GetLinesFirst(left);
      var loaded := LoadOne(left[..Newline(left)]);
      if loaded.TabIndent? {
        return false, lines;
      }
      left := AfterLine(left);
      if loaded.Got? {
        FollowingLine(lines, loaded.line, LoadText(left));
        lines := lines + [loaded.line];
      }
    }
    return true, lines;
  }

  method LoadOne(line: string) returns (r: Loaded)
    ensures r == LoadLine(line)
  {
    var raw := Chomp(line);
    var ind := Indentation(raw);
    if ind == None {
      return TabIndent;
    }
    IndentedFits(raw);
    var stripped := WithoutComment(raw[ind.value..]);
    var content := Trim(stripped);
    if content == "" || content == "---" || content == "..." {
      return Skip;
    }
    return Got(Line(ind.value, content));
  }

  method Indentation(raw: string) returns (ind: Option<nat>)
    ensures ind == Indented(raw)
  {
    var i := 0;
    while i < |raw| && Blank(raw[i])
      invariant 0 <= i <= |raw|
      invariant Indented(raw) == match Indented(raw[i..]) case None => None case Some(k) => Some(i + k)
    {
      assert raw[i..][1..] == raw[i + 1..];
      if raw[i] == '\t' {
        return None;
      }
      i := i + 1;
    }
    return Some(i);
  }

  lemma Regroup<T>(before: seq<T>, after: seq<T>, rest0: seq<T>, rest: seq<T>)
    requires before <= after && rest0 == after[|before|..] + rest
    ensures before + rest0 == after + rest
  {
  }

  class Parser {
    const lines: seq<Line>
    var pos: nat
    var warnings: seq<string>

    constructor (lines: seq<Line>)
      ensures this.lines == lines && pos == 0 && warnings == []
    {
      this.lines := lines;
      pos, warnings := 0, [];
    }

    /** parse_block, for every list of lines: it ends, and never moves back. */
    method ParseBlock(min: nat) returns (n: Node)
      requires pos <= |lines|
      modifies this
      ensures old(pos) <= pos <= |lines|
      ensures var r := Block(lines, old(pos), min);
        n == r.value && pos == r.pos && warnings == old(warnings) + r.warnings
      decreases |lines| - pos, 1
    {
      if pos >= |lines| || lines[pos].indent < min {
        return Scalar("");
      }
      if IsSeqItem(lines[pos].text) {
        var items := ParseItems(lines[pos].indent);
        return Seq(items);
      }
      var entries := ParseEntries(lines[pos].indent);
      return Map(entries);
    }

    method ParseItems(cur: nat) returns (items: seq<Node>)
      requires pos <= |lines|
      modifies this
      ensures old(pos) <= pos <= |lines|
      ensures var r := Items(lines, old(pos), cur);
        items == r.value && pos == r.pos && warnings == old(warnings) + r.warnings
      decreases |lines| - pos, 0, 1
    {
      items := [];
      while pos < |lines| && lines[pos].indent == cur && IsSeqItem(lines[pos].text)
        invariant old(pos) <= pos <= |lines|
        invariant var r0, r := Items(lines, old(pos), cur), Items(lines, pos, cur);
          && r0.value == items + r.value && r0.pos == r.pos
          && old(warnings) + r0.warnings == warnings + r.warnings
        decreases |lines| - pos
      {
        ghost var p0, w0, i0 := pos, warnings, items;
        var added := ParseItem(cur);
        items := items + added;
        Regroup(i0, items, Items(lines, p0, cur).value, Items(lines, pos, cur).value);
        Regroup(w0, warnings, Items(lines, p0, cur).warnings, Items(lines, pos, cur).warnings);
      }
    }

    /** One round of the sequence loop. */
    method ParseItem(cur: nat) returns (added: seq<Node>)
      requires pos < |lines| && lines[pos].indent == cur && IsSeqItem(lines[pos].text)
      modifies this
      ensures old(pos) < pos <= |lines| && old(warnings) <= warnings
      ensures var r0, r := Items(lines, old(pos), cur), Items(lines, pos, cur);
        && r0.value == added + r.value && r0.pos == r.pos
        && r0.warnings == warnings[|old(warnings)|..] + r.warnings
      decreases |lines| - pos, 0, 0
    {
      var rest := if |lines[pos].text| > 1 then Trim(lines[pos].text[1..]) else "";
      if rest == "" {
        pos := pos + 1;
        var b := ParseBlock(cur + 1);
        return [b];
      }
      var c := FindKeyColon(rest);
      if c < |rest| {
        warnings := warnings + [LONG_FORM + rest];
        pos := pos + 1;
        return [];
      }
      var s := Unquoted(rest);
      pos := pos + 1;
      return [Scalar(s)];
    }

    method ParseEntries(cur: nat) returns (entries: seq<Entry>)
      requires pos <= |lines|
      modifies this
      ensures old(pos) <= pos <= |lines|
      ensures var r := Entries(lines, old(pos), cur);
        entries == r.value && pos == r.pos && warnings == old(warnings) + r.warnings
      decreases |lines| - pos, 0, 1
    {
      entries := [];
      while pos < |lines| && lines[pos].indent == cur && !IsSeqItem(lines[pos].text)
        invariant old(pos) <= pos <= |lines|
        invariant var r0, r := Entries(lines, old(pos), cur), Entries(lines, pos, cur);
          && r0.value == entries + r.value && r0.pos == r.pos
          && old(warnings) + r0.warnings == warnings + r.warnings
        decreases |lines| - pos
      {
        ghost var p0, w0, e0 := pos, warnings, entries;
        var added := ParseEntry(cur);
        entries := entries + added;
        Regroup(e0, entries, Entries(lines, p0, cur).value, Entries(lines, pos, cur).value);
        Regroup(w0, warnings, Entries(lines, p0, cur).warnings, Entries(lines, pos, cur).warnings);
      }
    }

    /** One round of the map loop. */
    method ParseEntry(cur: nat) returns (added: seq<Entry>)
      requires pos < |lines| && lines[pos].indent == cur && !IsSeqItem(lines[pos].text)
      modifies this
      ensures old(pos) < pos <= |lines| && old(warnings) <= warnings
      ensures var r0, r := Entries(lines, old(pos), cur), Entries(lines, pos, cur);
        && r0.value == added + r.value && r0.pos == r.pos
        && r0.warnings == warnings[|old(warnings)|..] + r.warnings
      decreases |lines| - pos, 0, 0
    {
      var t := lines[pos].text;
      var c := FindKeyColon(t);
      if c == |t| {
        warnings := warnings + [UNPARSEABLE + t];
        pos := pos + 1;
        return [];
      }
      var key := Unquoted(t[..c]);
      var val := if c + 1 < |t| then Trim(t[c + 1..]) else "";
      pos := pos + 1;
      if val != "" {
        var s := Unquoted(val);
        return [Entry(key, Scalar(s))];
      }
      var b := ParseBlock(cur + 1);
      return [Entry(key, b)];
    }
  }
}
