/** Texts and their lines. */
module TextLines {

  /** Index of the first c, or |s|. */
  function Find(s: string, c: char): (i: nat)
    ensures i <= |s| && (i < |s| ==> s[i] == c) && forall k | 0 <= k < i :: s[k] != c
  {
    if s == "" || s[0] == c then 0
    else
      var j := Find(s[1..], c);
      assert forall k | 1 <= k < j + 1 :: s[k] == s[1..][k - 1];
      j + 1
  }

  lemma FindIs(s: string, c: char, i: nat)
    requires i <= |s| && (i < |s| ==> s[i] == c) && forall k | 0 <= k < i :: s[k] != c
    ensures Find(s, c) == i
  {
  }

  function Newline(s: string): nat {
    Find(s, '\n')
  }

  /** The complete lines of a text, without their newlines. */
  function Lines(s: string): seq<string> {
    var i := Newline(s);
    if i == |s| then [] else [s[..i]] + Lines(s[i + 1..])
  }

  /** What comes after the last newline. */
  function Remainder(s: string): string {
    var i := Newline(s);
    if i == |s| then s else Remainder(s[i + 1..])
  }

  function Join(lines: seq<string>): string {
    if lines == [] then "" else lines[0] + "\n" + Join(lines[1..])
  }

  function Concat(parts: seq<string>): string {
    if parts == [] then "" else parts[0] + Concat(parts[1..])
  }

  lemma Assoc(a: string, b: string, c: string)
    ensures a + b + c == a + (b + c)
  {
  }

  predicate OneLine(s: string) {
    forall k | 0 <= k < |s| :: s[k] != '\n'
  }

  lemma JoinFirst(l: string, lines: seq<string>, r: string)
    ensures Join([l] + lines) + r == l + "\n" + (Join(lines) + r)
  {
    assert ([l] + lines)[1..] == lines;
  }

  /** Cutting loses nothing. */
  lemma {:induction false} LinesJoin(s: string)
    ensures Join(Lines(s)) + Remainder(s) == s
    decreases |s|
  {
    var i := Newline(s);
    if i < |s| {
      var rest := s[i + 1..];
      LinesJoin(rest);
      JoinFirst(s[..i], Lines(rest), Remainder(rest));
      CutAt(s, i);
    }
  }

  lemma CutAt(s: string, i: nat)
    requires i < |s| && s[i] == '\n'
    ensures s == s[..i] + "\n" + s[i + 1..]
  {
  }

  predicate AllOneLine(lines: seq<string>) {
    lines == [] || (OneLine(lines[0]) && AllOneLine(lines[1..]))
  }

  /** No line contains a newline, and neither does the rest. */
  lemma {:induction false} LinesAreLines(s: string)
    ensures OneLine(Remainder(s)) && AllOneLine(Lines(s))
    decreases |s|
  {
    var i := Newline(s);
    if i < |s| {
      LinesAreLines(s[i + 1..]);
      assert Lines(s)[1..] == Lines(s[i + 1..]);
    }
  }

  lemma NewlineIn(s: string, t: string)
    requires Newline(s) < |s|
    ensures Newline(s + t) == Newline(s)
  {
    var i := Newline(s);
    assert (s + t)[i] == '\n' && forall k | 0 <= k < i :: (s + t)[k] == s[k];
  }

  lemma FirstLine(s: string, i: nat, rest: string)
    requires i < |s| && Newline(s) == i && s[i + 1..] == rest
    ensures Lines(s) == [s[..i]] + Lines(rest) && Remainder(s) == Remainder(rest)
  {
  }

  lemma Shifted(s: string, t: string, i: nat)
    requires i < |s|
    ensures (s + t)[..i] == s[..i] && (s + t)[i + 1..] == s[i + 1..] + t
  {
  }

  /** Cutting a longer text goes on from the remainder. */
  lemma {:induction false} LinesGoOn(s: string, t: string)
    ensures Lines(s + t) == Lines(s) + Lines(Remainder(s) + t)
    ensures Remainder(s + t) == Remainder(Remainder(s) + t)
    decreases |s|
  {
    if Newline(s) < |s| {
      var i := Newline(s);
      var rest := s[i + 1..];
      NewlineIn(s, t);
      Shifted(s, t, i);
      FirstLine(s, i, rest);
      FirstLine(s + t, i, rest + t);
      LinesGoOn(rest, t);
      ConsConcat(s[..i], Lines(rest), Lines(Remainder(rest) + t));
    }
  }

  lemma ConsConcat(l: string, a: seq<string>, b: seq<string>)
    ensures ([l] + a) + b == [l] + (a + b)
  {
  }

  // ---- getline -----------------------------------------------------------------------------

  /** What reading a text line by line yields: a last line needs no newline. */
  function GetLines(s: string): seq<string> {
    Lines(s) + if Remainder(s) == "" then [] else [Remainder(s)]
  }

  /** What is left after one line was read. */
  function AfterLine(s: string): string {
    if Newline(s) < |s| then s[Newline(s) + 1..] else ""
  }

  /** Reading goes on after the first line. */
  lemma GetLinesFirst(s: string)
    requires s != ""
    ensures GetLines(s) == [s[..Newline(s)]] + GetLines(AfterLine(s)) && |AfterLine(s)| < |s|
  {
    if Newline(s) < |s| {
      FirstLine(s, Newline(s), AfterLine(s));
      ConsConcat(s[..Newline(s)], Lines(AfterLine(s)), if Remainder(s) == "" then [] else [Remainder(s)]);
    } else {
      assert s[..|s|] == s;
    }
  }

  /** A line in front of a text is its first line. */
  lemma LineInFront(l: string, rest: string)
    requires OneLine(l)
    ensures var s := l + "\n" + rest;
      Lines(s) == [l] + Lines(rest) && Remainder(s) == Remainder(rest)
  {
    var s := l + "\n" + rest;
    FirstNewline(l, rest);
    FirstLine(s, |l|, rest);
  }

  lemma FirstNewline(l: string, rest: string)
    requires OneLine(l)
    ensures var s := l + "\n" + rest;
      |l| < |s| && Newline(s) == |l| && s[..|l|] == l && s[|l| + 1..] == rest
  {
    var s := l + "\n" + rest;
    assert s[|l|] == '\n';
    forall k | 0 <= k < |l| ensures s[k] != '\n' { assert s[k] == l[k]; }
  }

  /** A text without a newline has no complete line. */
  lemma NoLine(s: string)
    requires Newline(s) == |s|
    ensures Lines(s) == [] && Remainder(s) == s
  {
  }

  /** Lines that were joined are what is read. */
  lemma {:induction false} GetLinesJoin(lines: seq<string>)
    requires AllOneLine(lines)
    ensures Lines(Join(lines)) == lines && Remainder(Join(lines)) == "" && GetLines(Join(lines)) == lines
  {
    if lines != [] {
      GetLinesJoin(lines[1..]);
      LineInFront(lines[0], Join(lines[1..]));
      assert [lines[0]] + lines[1..] == lines;
    }
  }
}
