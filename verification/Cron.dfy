/** The cron matcher of src/container.cpp: its string loops against the sets that a
  * five-field rule denotes.
  */
module Cron {
  import opened TextLines

  // ---- numbers -----------------------------------------------------------------------

  predicate IsDigit(c: char) {
    '0' <= c <= '9'
  }

  predicate IsSpace(c: char) {
    c == ' ' || '\t' <= c <= '\r'
  }

  function DigitValue(c: char): nat
    requires IsDigit(c)
  {
    c as int - '0' as int
  }

  /** The digits at the front of s, read after acc. */
  function DigitsFrom(s: string, acc: nat): nat {
    if s == "" || !IsDigit(s[0]) then acc else DigitsFrom(s[1..], 10 * acc + DigitValue(s[0]))
  }

  /** atoi: white space, a sign, digits; whatever follows is ignored. */
  function Atoi(s: string): int {
    if s != "" && IsSpace(s[0]) then Atoi(s[1..])
    else if s != "" && s[0] == '-' then -(DigitsFrom(s[1..], 0) as int)
    else if s != "" && s[0] == '+' then DigitsFrom(s[1..], 0)
    else DigitsFrom(s, 0)
  }

  function Digit(n: nat): char
    requires n < 10
  {
    '0' + n as char
  }

  function Decimal(n: nat): string {
    if n < 10 then [Digit(n)] else Decimal(n / 10) + [Digit(n % 10)]
  }

  lemma {:induction false} DigitsConcat(n: nat, rest: string)
    ensures DigitsFrom(Decimal(n) + rest, 0) == DigitsFrom(rest, n)
  {
    var d := Digit(n % 10);
    assert IsDigit(d) && DigitValue(d) == n % 10;
    if n < 10 {
      assert (Decimal(n) + rest)[1..] == rest;
    } else {
      DigitsConcat(n / 10, [d] + rest);
      assert Decimal(n) + rest == Decimal(n / 10) + ([d] + rest);
      assert ([d] + rest)[1..] == rest;
      assert 10 * (n / 10) + n % 10 == n;
    }
  }

  lemma {:induction false} DecimalIsDigits(n: nat)
    ensures Decimal(n) != "" && forall i | 0 <= i < |Decimal(n)| :: IsDigit(Decimal(n)[i])
  {
    if n >= 10 { DecimalIsDigits(n / 10); }
  }

  /** A number in front of anything but a digit is read as itself. */
  lemma AtoiDecimal(n: nat, rest: string)
    requires rest == "" || !IsDigit(rest[0])
    ensures Atoi(Decimal(n) + rest) == n
  {
    DecimalIsDigits(n);
    assert IsDigit((Decimal(n) + rest)[0]);
    DigitsConcat(n, rest);
  }

  // ---- one field ----------------------------------------------------------------------

  type Positive = n: nat | n >= 1 witness 1

  datatype Span = Span(from: int, to: int, step: Positive)

  /** Every step-th value of the range, counted from its start. */
  predicate In(v: int, s: Span) {
    s.from <= v <= s.to && (v - s.from) % s.step == 0
  }

  /** What a list entry without its step part ranges over. */
  function Base(tok: string, lo: int, hi: int): (int, int) {
    if tok == "*" then (lo, hi)
    else
      var dash := Find(tok, '-');
      var a := Atoi(tok);
      (a, if dash < |tok| then Atoi(tok[dash + 1..]) else a)
  }

  function TokenSpan(tok: string, lo: int, hi: int): Span {
    var slash := Find(tok, '/');
    var step := if slash < |tok| then Atoi(tok[slash + 1..]) else 1;
    var base := Base(tok[..slash], lo, hi);
    Span(base.0, base.1, if step < 1 then 1 else step)
  }

  /** Some non-empty entry of the comma-separated list takes the value. */
  predicate FieldHas(spec: string, v: int, lo: int, hi: int)
    decreases |spec|
  {
    if spec == "" then false
    else
      var comma := Find(spec, ',');
      var tok := spec[..comma];
      (tok != "" && In(v, TokenSpan(tok, lo, hi)))
      || (comma < |spec| && FieldHas(spec[comma + 1..], v, lo, hi))
  }

  // ---- rendered fields ------------------------------------------------------------------

  datatype Items = Any | Number(n: nat) | Range(a: nat, b: nat)

  datatype Step = Each | Every(n: nat)

  /** One list entry: what it ranges over, and a step if it has one; a step of 0 counts as 1. */
  datatype Entry = Entry(items: Items, step: Step)

  function BaseText(i: Items): string {
    match i
    case Any => "*"
    case Number(n) => Decimal(n)
    case Range(a, b) => Decimal(a) + "-" + Decimal(b)
  }

  function EntryText(e: Entry): string {
    BaseText(e.items) + match e.step case Each => "" case Every(n) => "/" + Decimal(n)
  }

  function FieldText(es: seq<Entry>): string
    requires es != []
  {
    if |es| == 1 then EntryText(es[0]) else EntryText(es[0]) + "," + FieldText(es[1..])
  }

  function ItemsSpan(i: Items, step: Positive, lo: int, hi: int): Span {
    match i
    case Any => Span(lo, hi, step)
    case Number(n) => Span(n, n, step)
    case Range(a, b) => Span(a, b, step)
  }

  function EntrySpan(e: Entry, lo: int, hi: int): Span {
    ItemsSpan(e.items, match e.step case Each => 1 case Every(n) => if n == 0 then 1 else n, lo, hi)
  }

  /** The value is in the union of the stepped ranges. */
  predicate Denotes(es: seq<Entry>, v: int, lo: int, hi: int) {
    exists i | 0 <= i < |es| :: In(v, EntrySpan(es[i], lo, hi))
  }

  /** A text of digits, a star and a dash, as entries are made of. */
  predicate EntryChars(s: string) {
    forall i | 0 <= i < |s| :: IsDigit(s[i]) || s[i] == '*' || s[i] == '-'
  }

  lemma BaseReads(i: Items, lo: int, hi: int)
    ensures BaseText(i) != "" && EntryChars(BaseText(i))
    ensures Base(BaseText(i), lo, hi) == (ItemsSpan(i, 1, lo, hi).from, ItemsSpan(i, 1, lo, hi).to)
  {
    match i
    case Any =>
    case Number(n) => NumberReads(n, lo, hi);
    case Range(a, b) => RangeReads(a, b, lo, hi);
  }

  lemma NumberReads(n: nat, lo: int, hi: int)
    ensures var t := Decimal(n); t != "" && EntryChars(t) && Base(t, lo, hi) == (n as int, n as int)
  {
    var t := Decimal(n);
    DecimalIsDigits(n);
    FindIs(t, '-', |t|);
    AtoiDecimal(n, "");
    assert t + "" == t;
    assert IsDigit(t[0]);
  }

  lemma RangeReads(a: nat, b: nat, lo: int, hi: int)
    ensures var t := Decimal(a) + "-" + Decimal(b); t != "" && EntryChars(t) && Base(t, lo, hi) == (a as int, b as int)
  {
    var t := Decimal(a) + "-" + Decimal(b);
    RangeDash(a, b);
    RangeNumbers(a, b);
    assert t != "*" && Base(t, lo, hi).1 == Atoi(t[|Decimal(a)| + 1..]);
  }

  lemma RangeNumbers(a: nat, b: nat)
    ensures Atoi(Decimal(a) + "-" + Decimal(b)) == a && Atoi(Decimal(b)) == b
  {
    assert Decimal(a) + "-" + Decimal(b) == Decimal(a) + ("-" + Decimal(b));
    AtoiDecimal(a, "-" + Decimal(b));
    AtoiDecimal(b, "");
    assert Decimal(b) + "" == Decimal(b);
  }

  lemma RangeDash(a: nat, b: nat)
    ensures var t := Decimal(a) + "-" + Decimal(b);
      && t != "" && t[0] != '*' && EntryChars(t) && Find(t, '-') == |Decimal(a)| < |t| && t[|Decimal(a)| + 1..] == Decimal(b)
  {
    var t := Decimal(a) + "-" + Decimal(b);
    DecimalIsDigits(a);
    DecimalIsDigits(b);
    assert IsDigit(t[0]);
    FindIs(t, '-', |Decimal(a)|);
  }

  predicate NoComma(s: string) {
    forall i | 0 <= i < |s| :: s[i] != ','
  }

  /** One rendered entry is read as its stepped range. */
  lemma EntryReads(e: Entry, lo: int, hi: int)
    ensures EntryText(e) != "" && NoComma(EntryText(e)) && TokenSpan(EntryText(e), lo, hi) == EntrySpan(e, lo, hi)
  {
    var base, t := BaseText(e.items), EntryText(e);
    BaseReads(e.items, lo, hi);
    match e.step
    case Every(n) =>
      DecimalIsDigits(n);
      assert t == base + ("/" + Decimal(n));
      FindIs(t, '/', |base|);
      AtoiDecimal(n, "");
      assert t[..|base|] == base && t[|base| + 1..] == Decimal(n) == Decimal(n) + "";
    case Each =>
      assert t == base;
      FindIs(t, '/', |t|);
      assert t[..|t|] == t;
  }

  lemma HeadOrTail(es: seq<Entry>, v: int, lo: int, hi: int)
    requires es != []
    ensures Denotes(es, v, lo, hi) <==> In(v, EntrySpan(es[0], lo, hi)) || Denotes(es[1..], v, lo, hi)
  {
    if Denotes(es[1..], v, lo, hi) {
      var i :| 0 <= i < |es[1..]| && In(v, EntrySpan(es[1..][i], lo, hi));
      assert In(v, EntrySpan(es[i + 1], lo, hi));
    }
    if Denotes(es, v, lo, hi) && !In(v, EntrySpan(es[0], lo, hi)) {
      var i :| 0 <= i < |es| && In(v, EntrySpan(es[i], lo, hi));
      assert es[1..][i - 1] == es[i];
    }
  }

  lemma LoneEntry(t: string, v: int, lo: int, hi: int)
    requires t != "" && NoComma(t)
    ensures FieldHas(t, v, lo, hi) <==> In(v, TokenSpan(t, lo, hi))
  {
    FindIs(t, ',', |t|);
    assert t[..|t|] == t;
  }

  lemma LeadingEntry(t: string, rest: string, v: int, lo: int, hi: int)
    requires t != "" && NoComma(t)
    ensures FieldHas(t + "," + rest, v, lo, hi) <==> In(v, TokenSpan(t, lo, hi)) || FieldHas(rest, v, lo, hi)
  {
    var s := t + "," + rest;
    FindIs(s, ',', |t|);
    assert s[..|t|] == t && s[|t| + 1..] == rest;
  }

  /** cron_field on the rendering of a list takes exactly the values in the union of
    * its stepped ranges.
    */
  lemma {:induction false} FieldIsUnion(es: seq<Entry>, v: int, lo: int, hi: int)
    requires es != []
    ensures FieldHas(FieldText(es), v, lo, hi) <==> Denotes(es, v, lo, hi)
    decreases es
  {
    EntryReads(es[0], lo, hi);
    HeadOrTail(es, v, lo, hi);
    if |es| == 1 {
      LoneEntry(EntryText(es[0]), v, lo, hi);
    } else {
      FieldIsUnion(es[1..], v, lo, hi);
      LeadingEntry(EntryText(es[0]), FieldText(es[1..]), v, lo, hi);
    }
  }

  /** Empty entries say nothing, wherever they stand in a list. */
  lemma EmptyEntriesAreSkipped(t: string, rest: string, v: int, lo: int, hi: int)
    requires NoComma(t)
    ensures FieldHas("," + rest, v, lo, hi) <==> FieldHas(rest, v, lo, hi)
    ensures FieldHas(t + ",", v, lo, hi) <==> FieldHas(t, v, lo, hi)
    ensures t != "" ==> (FieldHas(t + "," + "," + rest, v, lo, hi) <==> FieldHas(t + "," + rest, v, lo, hi))
    ensures !FieldHas("", v, lo, hi)
  {
    EmptyFirst(rest, v, lo, hi);
    EmptyLast(t, v, lo, hi);
    if t != "" { EmptyBetween(t, rest, v, lo, hi); }
  }

  lemma EmptyLast(t: string, v: int, lo: int, hi: int)
    requires NoComma(t)
    ensures FieldHas(t + ",", v, lo, hi) <==> FieldHas(t, v, lo, hi)
  {
    if t != "" {
      assert t + "," + "" == t + ",";
      LeadingEntry(t, "", v, lo, hi);
      LoneEntry(t, v, lo, hi);
    } else {
      assert t + "," == "," + "";
      EmptyFirst("", v, lo, hi);
    }
  }

  lemma EmptyBetween(t: string, rest: string, v: int, lo: int, hi: int)
    requires t != "" && NoComma(t)
    ensures FieldHas(t + "," + "," + rest, v, lo, hi) <==> FieldHas(t + "," + rest, v, lo, hi)
  {
    assert t + "," + "," + rest == t + "," + ("," + rest);
    LeadingEntry(t, "," + rest, v, lo, hi);
    LeadingEntry(t, rest, v, lo, hi);
    EmptyFirst(rest, v, lo, hi);
  }

  lemma EmptyFirst(rest: string, v: int, lo: int, hi: int)
    ensures FieldHas("," + rest, v, lo, hi) <==> FieldHas(rest, v, lo, hi)
  {
    var s := "," + rest;
    FindIs(s, ',', 0);
    assert s[..0] == "" && s[1..] == rest;
  }

  // ---- five fields ------------------------------------------------------------------------

  /** Local time: minute, hour, day of month, month from 1, weekday from Sunday 0. */
  datatype Time = Time(minute: int, hour: int, mday: int, month: int, wday: int)

  /** The fields between runs of spaces. */
  function Fields(s: string): seq<string>
    decreases |s|
  {
    if s == "" then []
    else if s[0] == ' ' then Fields(s[1..])
    else
      var q := Find(s, ' ');
      [s[..q]] + Fields(s[q..])
  }

  predicate DayHas(dom: string, dow: string, t: Time) {
    var onDay := FieldHas(dom, t.mday, 1, 31);
    var onWeekday := FieldHas(dow, t.wday, 0, 7) || (t.wday == 0 && FieldHas(dow, 7, 0, 7));
    if dom != "*" && dow != "*" then onDay || onWeekday else onDay && onWeekday
  }

  predicate FieldsHave(minute: string, hour: string, dom: string, month: string, dow: string, t: Time) {
    && FieldHas(minute, t.minute, 0, 59) && FieldHas(hour, t.hour, 0, 23) && FieldHas(month, t.month, 1, 12)
    && DayHas(dom, dow, t)
  }

  /** cron_match */
  predicate Matches(cron: string, t: Time) {
    var f := Fields(cron);
    |f| == 5 && FieldsHave(f[0], f[1], f[2], f[3], f[4], t)
  }

  datatype Rule = Rule(minutes: seq<Entry>, hours: seq<Entry>, days: seq<Entry>, months: seq<Entry>, weekdays: seq<Entry>)

  /** No field is empty. */
  predicate Complete(r: Rule) {
    r.minutes != [] && r.hours != [] && r.days != [] && r.months != [] && r.weekdays != []
  }

  function RuleText(r: Rule): string
    requires Complete(r)
  {
    FieldText(r.minutes) + " " + (FieldText(r.hours) + " " + (FieldText(r.days) + " " +
      (FieldText(r.months) + " " + FieldText(r.weekdays))))
  }

  /** A field left open with a bare star. */
  predicate Unrestricted(es: seq<Entry>) {
    es == [Entry(Any, Each)]
  }

  predicate ValidTime(t: Time) {
    0 <= t.minute <= 59 && 0 <= t.hour <= 23 && 1 <= t.mday <= 31 && 1 <= t.month <= 12 && 0 <= t.wday <= 6
  }

  /** The weekday, with Sunday as 0 or 7. */
  predicate OnWeekday(r: Rule, t: Time) {
    Denotes(r.weekdays, t.wday, 0, 7) || (t.wday == 0 && Denotes(r.weekdays, 7, 0, 7))
  }

  /** The day rule: an open day or weekday field leaves it to the other one; when both
    * are restricted one of them is enough.
    */
  predicate OnDay(r: Rule, t: Time) {
    if Unrestricted(r.days) then OnWeekday(r, t)
    else if Unrestricted(r.weekdays) then Denotes(r.days, t.mday, 1, 31)
    else Denotes(r.days, t.mday, 1, 31) || OnWeekday(r, t)
  }

  predicate Due(r: Rule, t: Time) {
    && Denotes(r.minutes, t.minute, 0, 59) && Denotes(r.hours, t.hour, 0, 23)
    && Denotes(r.months, t.month, 1, 12) && OnDay(r, t)
  }

  predicate FieldChars(s: string) {
    s != "" && forall i | 0 <= i < |s| :: s[i] != ' '
  }

  lemma EntryHasNoSpace(e: Entry)
    ensures FieldChars(EntryText(e))
  {
    BaseReads(e.items, 0, 0);
    if e.step.Every? { DecimalIsDigits(e.step.n); }
  }

  lemma {:induction false} FieldHasNoSpace(es: seq<Entry>)
    requires es != []
    ensures FieldChars(FieldText(es))
    decreases es
  {
    EntryHasNoSpace(es[0]);
    if |es| > 1 { FieldHasNoSpace(es[1..]); }
  }

  lemma FirstField(a: string, rest: string)
    requires FieldChars(a)
    ensures Fields(a + " " + rest) == [a] + Fields(rest)
    ensures Fields(a) == [a]
  {
    var s := a + " " + rest;
    FindIs(s, ' ', |a|);
    assert s[..|a|] == a && s[|a|..] == " " + rest;
    assert (" " + rest)[1..] == rest;
    FindIs(a, ' ', |a|);
    assert a[..|a|] == a && a[|a|..] == "";
  }

  lemma RuleFields(r: Rule)
    requires Complete(r)
    ensures Fields(RuleText(r)) ==
      [FieldText(r.minutes), FieldText(r.hours), FieldText(r.days), FieldText(r.months), FieldText(r.weekdays)]
  {
    FieldHasNoSpace(r.minutes);
    FieldHasNoSpace(r.hours);
    FieldHasNoSpace(r.days);
    FieldHasNoSpace(r.months);
    FieldHasNoSpace(r.weekdays);
    FiveFields(FieldText(r.minutes), FieldText(r.hours), FieldText(r.days), FieldText(r.months), FieldText(r.weekdays));
  }

  lemma FiveFields(a: string, b: string, c: string, d: string, e: string)
    requires FieldChars(a) && FieldChars(b) && FieldChars(c) && FieldChars(d) && FieldChars(e)
    ensures Fields(a + " " + (b + " " + (c + " " + (d + " " + e)))) == [a, b, c, d, e]
  {
    FirstField(e, "");
    FirstField(d, e);
    FirstField(c, d + " " + e);
    FirstField(b, c + " " + (d + " " + e));
    FirstField(a, b + " " + (c + " " + (d + " " + e)));
  }

  /** Words with any number of spaces in front of each, and behind the last. */
  function Spaced(words: seq<string>, gaps: seq<nat>, last: nat): string
    requires |gaps| == |words|
  {
    if words == [] then seq(last, i => ' ') else seq(gaps[0] + 1, i => ' ') + (words[0] + Spaced(words[1..], gaps[1..], last))
  }

  predicate AllWords(words: seq<string>) {
    words == [] || (FieldChars(words[0]) && AllWords(words[1..]))
  }

  lemma {:induction false} SpacesSkip(k: nat, s: string)
    ensures Fields(seq(k, i => ' ') + s) == Fields(s)
  {
    if k == 0 {
      assert seq(k, i => ' ') + s == s;
    } else {
      assert (seq(k, i => ' ') + s)[1..] == seq(k - 1, i => ' ') + s;
      SpacesSkip(k - 1, s);
    }
  }

  lemma WordFirst(w: string, rest: string)
    requires FieldChars(w) && (rest == "" || rest[0] == ' ')
    ensures Fields(w + rest) == [w] + Fields(rest)
  {
    FindIs(w + rest, ' ', |w|);
    assert (w + rest)[..|w|] == w && (w + rest)[|w|..] == rest;
  }

  /** The fields are the words, however they are spaced. */
  lemma {:induction false} WordsAreFields(words: seq<string>, gaps: seq<nat>, last: nat)
    requires |gaps| == |words| && AllWords(words)
    ensures Fields(Spaced(words, gaps, last)) == words
  {
    if words == [] {
      SpacesSkip(last, "");
      assert seq(last, i => ' ') + "" == seq(last, i => ' ');
    } else {
      var rest := Spaced(words[1..], gaps[1..], last);
      WordsAreFields(words[1..], gaps[1..], last);
      WordFirst(words[0], rest);
      SpacesSkip(gaps[0] + 1, words[0] + rest);
      assert [words[0]] + words[1..] == words;
    }
  }

  /** A rule of fewer or more than five fields never matches. */
  lemma OnlyFiveFieldsMatch(words: seq<string>, gaps: seq<nat>, last: nat, t: Time)
    requires |gaps| == |words| && AllWords(words) && |words| != 5
    ensures !Matches(Spaced(words, gaps, last), t)
  {
    WordsAreFields(words, gaps, last);
  }

  /** Only the bare star reads as "*". */
  lemma StarIsUnrestricted(es: seq<Entry>)
    requires es != []
    ensures FieldText(es) == "*" <==> Unrestricted(es)
  {
    var e := es[0];
    BaseReads(e.items, 0, 0);
    if |es| > 1 {
      assert |FieldText(es)| >= 2;
    } else if e.step.Every? {
      assert |EntryText(e)| >= 2;
    } else {
      assert FieldText(es) == BaseText(e.items);
      match e.items {
        case Any => assert es == [e];
        case Number(n) => DecimalIsDigits(n);
        case Range(a, b) => assert |BaseText(e.items)| >= 2;
      }
    }
  }

  /** cron_match on the rendering of a rule is the five-field rule. */
  lemma MatchIsRule(r: Rule, t: Time)
    requires Complete(r) && ValidTime(t)
    ensures Matches(RuleText(r), t) <==> Due(r, t)
  {
    RuleFields(r);
    FieldsAreRule(r, t);
  }

  lemma FieldsAreRule(r: Rule, t: Time)
    requires Complete(r) && ValidTime(t)
    ensures var minute, hour, dom := FieldText(r.minutes), FieldText(r.hours), FieldText(r.days);
      FieldsHave(minute, hour, dom, FieldText(r.months), FieldText(r.weekdays), t) <==> Due(r, t)
  {
    FieldIsUnion(r.minutes, t.minute, 0, 59);
    FieldIsUnion(r.hours, t.hour, 0, 23);
    FieldIsUnion(r.months, t.month, 1, 12);
    DayIsRule(r, t);
  }

  lemma DayIsRule(r: Rule, t: Time)
    requires Complete(r) && ValidTime(t)
    ensures DayHas(FieldText(r.days), FieldText(r.weekdays), t) <==> OnDay(r, t)
  {
    FieldIsUnion(r.days, t.mday, 1, 31);
    FieldIsUnion(r.weekdays, t.wday, 0, 7);
    FieldIsUnion(r.weekdays, 7, 0, 7);
    StarIsUnrestricted(r.days);
    StarIsUnrestricted(r.weekdays);
    if Unrestricted(r.days) { OpenField(t.mday, 1, 31); }
    if Unrestricted(r.weekdays) { OpenField(t.wday, 0, 7); }
  }

  lemma OpenField(v: int, lo: int, hi: int)
    requires lo <= v <= hi
    ensures Denotes([Entry(Any, Each)], v, lo, hi)
  {
    var es := [Entry(Any, Each)];
    assert In(v, EntrySpan(es[0], lo, hi));
  }

  // ---- as the daemon does it ------------------------------------------------------------------

  /** One list entry of cron_field. */
  method CronToken(tok: string, value: int, lo: int, hi: int) returns (hit: bool)
    ensures hit == In(value, TokenSpan(tok, lo, hi))
  {
    var step := 1;
    var range := tok;
    var slash := Find(tok, '/');
    assert tok[..|tok|] == tok;
    if slash < |tok| {
      step := Atoi(tok[slash + 1..]);
      range := tok[..slash];
      if step < 1 { step := 1; }
    }
    var a, b := lo, hi;
    if range != "*" {
      var dash := Find(range, '-');
      a := Atoi(range);
      b := if dash < |range| then Atoi(range[dash + 1..]) else a;
    }
    if value < a || value > b { return false; }
    return (value - a) % step == 0;
  }

  /** The next list entry, and where the one after it starts. */
  method NextEntry(spec: string, start: nat, ghost value: int, ghost lo: int, ghost hi: int) returns (tok: string, next: nat)
    requires start < |spec|
    ensures start < next <= |spec|
    ensures FieldHas(spec[start..], value, lo, hi) <==>
      (tok != "" && In(value, TokenSpan(tok, lo, hi))) || FieldHas(spec[next..], value, lo, hi)
  {
    ghost var left := spec[start..];
    var comma := start + Find(spec[start..], ',');
    tok := spec[start..comma];
    next := if comma == |spec| then |spec| else comma + 1;
    assert tok == left[..comma - start];
    assert comma < |spec| ==> left[comma - start + 1..] == spec[next..];
    assert comma == |spec| ==> spec[next..] == "";
  }

  /** cron_field */
  method CronField(spec: string, value: int, lo: int, hi: int) returns (hit: bool)
    ensures hit == FieldHas(spec, value, lo, hi)
  {
    var start := 0;
    assert spec[0..] == spec;
    while start < |spec|
      invariant 0 <= start <= |spec|
      invariant FieldHas(spec, value, lo, hi) == FieldHas(spec[start..], value, lo, hi)
    {
      var tok;
      tok, start := NextEntry(spec, start, value, lo, hi);
      if tok == "" { continue; }
      var here := CronToken(tok, value, lo, hi);
      if here { return true; }
    }
    return false;
  }

  method SkipSpaces(cron: string, start: nat) returns (p: nat)
    requires start <= |cron|
    ensures start <= p <= |cron| && Fields(cron[p..]) == Fields(cron[start..])
    ensures p < |cron| ==> cron[p] != ' '
  {
    p := start;
    while p < |cron| && cron[p] == ' '
      invariant start <= p <= |cron| && Fields(cron[p..]) == Fields(cron[start..])
    {
      assert cron[p..][1..] == cron[p + 1..];
      p := p + 1;
    }
  }

  /** The splitting loop of cron_match. */
  method Split(cron: string) returns (f: seq<string>)
    ensures f == Fields(cron)
  {
    f := [];
    var p := 0;
    assert cron[0..] == cron;
    while p < |cron|
      invariant 0 <= p <= |cron|
      invariant f + Fields(cron[p..]) == Fields(cron)
    {
      p := SkipSpaces(cron, p);
      if p >= |cron| { break; }
      var q := p + Find(cron[p..], ' ');
      assert cron[p..][..q - p] == cron[p..q] && cron[p..][q - p..] == cron[q..];
      assert f + ([cron[p..q]] + Fields(cron[q..])) == (f + [cron[p..q]]) + Fields(cron[q..]);
      f := f + [cron[p..q]];
      p := q;
    }
    assert cron[p..] == "";
  }

  /** cron_match */
  method CronMatch(cron: string, t: Time) returns (hit: bool)
    ensures hit == Matches(cron, t)
  {
    var f := Split(cron);
    if |f| != 5 { return false; }
    var ok := CronField(f[0], t.minute, 0, 59);
    if !ok { return false; }
    ok := CronField(f[1], t.hour, 0, 23);
    if !ok { return false; }
    ok := CronField(f[3], t.month, 1, 12);
    if !ok { return false; }
    var onDay := CronField(f[2], t.mday, 1, 31);
    var onWeekday := CronField(f[4], t.wday, 0, 7);
    if !onWeekday && t.wday == 0 {
      onWeekday := CronField(f[4], 7, 0, 7);
    }
    if f[2] != "*" && f[4] != "*" {
      return onDay || onWeekday;
    }
    return onDay && onWeekday;
  }
}
