/** The exception list: its small line parser, and a printer that it undoes. */
module ExceptionList {
  import opened Relational
  import opened PyText

  type Entry = map<string, string>

  /** A value in matching quotes loses its first and last character; a lone quote is both. */
  function Unquote(v: string): string {
    if (StartsWith(v, "\"") && EndsWith(v, "\"")) || (StartsWith(v, "'") && EndsWith(v, "'"))
    then if |v| < 2 then "" else v[1..|v| - 1]
    else v
  }

  /** A key and its value; None when there is no colon to split at. */
  function SplitKv(line: string): Option<(string, string)> {
    var i := IndexOf(line, ':');
    if i == |line| then None else Some((Strip(line[..i]), Unquote(Strip(line[i + 1..]))))
  }

  /** The finished entries and the one being read. */
  datatype State = State(done: seq<Entry>, current: Option<Entry>) {
    /** An entry without keys is not kept. */
    function Flushed(): seq<Entry> {
      if current.Some? && current.value != map[] then done + [current.value] else done
    }
  }

  predicate Skipped(line: string) {
    line == "" || StartsWith(line, "#") || StartsWith(line, "version:") || StartsWith(line, "exceptions:")
  }

  /** One line of the file; None for the crash of an item without a colon. */
  function Step(s: State, raw: string): Option<State> {
    var line := Strip(raw);
    if Skipped(line) then Some(s)
    else if StartsWith(line, "- ") then
      var rest := Strip(line[2..]);
      if rest == "" then Some(State(s.Flushed(), Some(map[])))
      else
        var kv := SplitKv(rest);
        if kv.None? then None else Some(State(s.Flushed(), Some(map[kv.value.0 := kv.value.1])))
    else if s.current.Some? && ':' in line then
      var kv := SplitKv(line);
      Some(if kv.None? then s else s.(current := Some(s.current.value[kv.value.0 := kv.value.1])))
    else Some(s)
  }

  function ParseFrom(s: State, lines: seq<string>): Option<State>
    decreases |lines|
  {
    if lines == [] then Some(s)
    else
      var t := Step(s, lines[0]);
      if t.None? then None else ParseFrom(t.value, lines[1..])
  }

  /** The entries of a file; None if reading it crashes. */
  function Parse(text: string): Option<seq<Entry>> {
    var s := ParseFrom(State([], None), Lines(text));
    if s.None? then None else Some(s.value.Flushed())
  }

  method ParseExceptions(text: string) returns (exceptions: Option<seq<Entry>>)
    ensures exceptions == Parse(text)
  {
    var done: seq<Entry> := [];
    var current: Option<Entry> := None;
    var lines := Lines(text);
    for i := 0 to |lines|
      invariant ParseFrom(State(done, current), lines[i..]) == ParseFrom(State([], None), lines)
    {
      assert lines[i..][1..] == lines[i + 1..];
      var line := Strip(lines[i]);
      if line == "" || StartsWith(line, "#") {
        continue;
      }
      if StartsWith(line, "version:") || StartsWith(line, "exceptions:") {
        continue;
      }
      if StartsWith(line, "- ") {
        if current.Some? && current.value != map[] {
          done := done + [current.value];
        }
        current := Some(map[]);
        line := Strip(line[2..]);
        if line != "" {
          var kv := SplitKv(line);
          if kv.None? {
            return None;
          }
          current := Some(current.value[kv.value.0 := kv.value.1]);
        }
        continue;
      }
      if current.Some? && ':' in line {
        var kv := SplitKv(line);
        if kv.Some? {
          current := Some(current.value[kv.value.0 := kv.value.1]);
        }
      }
    }
    if current.Some? && current.value != map[] {
      done := done + [current.value];
    }
    return Some(done);
  }

  lemma SplitKvTotal(line: string)
    ensures SplitKv(line).None? <==> ':' !in line
  {
    var i := IndexOf(line, ':');
    if i == |line| { assert line[..i] == line; }
  }

  /** An item whose first key has no colon. */
  predicate Crashing(raw: string) {
    var line := Strip(raw);
    !Skipped(line) && StartsWith(line, "- ") && Strip(line[2..]) != "" && ':' !in Strip(line[2..])
  }

  lemma {:induction false} CrashFrom(s: State, lines: seq<string>)
    ensures ParseFrom(s, lines).None? <==> exists l :: l in lines && Crashing(l)
    decreases |lines|
  {
    if lines != [] {
      assert lines == [lines[0]] + lines[1..];
      SplitKvTotal(Strip(Strip(lines[0])[if |Strip(lines[0])| < 2 then 0 else 2..]));
      var t := Step(s, lines[0]);
      assert t.None? <==> Crashing(lines[0]);
      if t.Some? { CrashFrom(t.value, lines[1..]); }
    }
  }

  /** Reading a file crashes exactly when some item's own line has no colon; nothing else in a file can do that. */
  lemma {:induction false} CrashExact(text: string)
    ensures Parse(text).None? <==> exists l :: l in Lines(text) && Crashing(l)
  {
    CrashFrom(State([], None), Lines(text));
  }

  /** A file of one line, an item that is no pair. */
  lemma {:induction false} ItemWithoutColon()
    ensures Parse("- foo").None?
  {
    var text := "- foo";
    StripTrimmed(text);
    assert text[2..] == "foo";
    StripTrimmed("foo");
    assert LineLength(text) == |text|;
    assert text in Lines(text) && Crashing(text);
    CrashExact(text);
  }

  // ----- a printer -----

  datatype Quoting = Bare | Single | Double

  /** A line that says nothing. */
  datatype Noise = Blank(pad: string) | Comment(pad: string, text: string) | Version(pad: string, text: string)
                 | Exceptions(pad: string, text: string) | Words(pad: string, text: string)

  /** A key and its value as they are written: the spaces before the key, after it and before the value, and the lines
      that stand before them. */
  datatype Pair = Pair(key: string, value: string, quoting: Quoting, indent: string, gap: string, lead: string, before: seq<Noise>)

  function NoiseLine(n: Noise): string {
    match n
    case Blank(pad) => pad
    case Comment(pad, text) => pad + "#" + text
    case Version(pad, text) => pad + "version:" + text
    case Exceptions(pad, text) => pad + "exceptions:" + text
    case Words(pad, text) => pad + text
  }

  function NoiseLines(ns: seq<Noise>): seq<string> { Map(NoiseLine, ns) }

  function Quoted(p: Pair): string {
    match p.quoting
    case Bare => p.value
    case Single => "'" + p.value + "'"
    case Double => "\"" + p.value + "\""
  }

  function Head(p: Pair): string { p.key + p.gap }

  function Line(p: Pair): string { Head(p) + [':'] + (p.lead + Quoted(p)) }

  /** A pair opens an item or continues it. */
  function WholeLine(p: Pair, first: bool): string { p.indent + if first then "- " + Line(p) else Line(p) }

  function PairLines(p: Pair, first: bool): seq<string> { NoiseLines(p.before) + [WholeLine(p, first)] }

  /** Pairs that no item has been opened for. */
  function EarlyLines(ps: seq<Pair>): seq<string> {
    if ps == [] then [] else EarlyLines(ps[..|ps| - 1]) + PairLines(ps[|ps| - 1], false)
  }

  function ItemLines(ps: seq<Pair>): seq<string> {
    if ps == [] then [] else ItemLines(ps[..|ps| - 1]) + PairLines(ps[|ps| - 1], |ps| == 1)
  }

  function AllLines(items: seq<seq<Pair>>): seq<string> {
    if items == [] then [] else AllLines(items[..|items| - 1]) + ItemLines(items[|items| - 1])
  }

  function Print(early: seq<Pair>, items: seq<seq<Pair>>, after: seq<Noise>, end: char): string {
    Unlines(EarlyLines(early) + AllLines(items) + NoiseLines(after), end)
  }

  function EntryOf(ps: seq<Pair>): Entry {
    if ps == [] then map[] else EntryOf(ps[..|ps| - 1])[ps[|ps| - 1].key := ps[|ps| - 1].value]
  }

  /** A key that can stand first in an item. */
  predicate PlainKey(k: string) { Trimmed(k) && OneLine(k) && ':' !in k }

  /** A key that can also start a line. */
  predicate LineKey(k: string) {
    PlainKey(k) && !StartsWith(k, "#") && !StartsWith(k, "- ") && k != "version" && k != "exceptions"
  }

  /** A value that can stand without quotes. */
  predicate BareValue(v: string) {
    Trimmed(v) && (v != "" ==> !(v[0] == v[|v| - 1] == '\"') && !(v[0] == v[|v| - 1] == '\''))
  }

  predicate QuietNoise(n: Noise) {
    && Spaces(n.pad) && (!n.Blank? ==> OneLine(n.text))
    && (n.Words? ==> Trimmed(n.text) && ':' !in n.text && !StartsWith(n.text, "- "))
  }

  predicate PlainPair(p: Pair) {
    && PlainKey(p.key) && OneLine(p.value) && (p.quoting == Bare ==> BareValue(p.value))
    && Spaces(p.indent) && Spaces(p.gap) && Spaces(p.lead)
    && (p.key == "" || p.key == "-" ==> p.gap == "") && (Quoted(p) == "" ==> p.lead == "")
    && forall i | 0 <= i < |p.before| :: QuietNoise(p.before[i])
  }

  predicate Printable(ps: seq<Pair>) {
    && ps != []
    && (forall i | 0 <= i < |ps| :: PlainPair(ps[i]))
    && forall i | 0 < i < |ps| :: LineKey(ps[i].key)
  }

  lemma QuotedTrimmed(p: Pair)
    requires PlainPair(p)
    ensures Trimmed(Quoted(p)) && Unquote(Quoted(p)) == p.value
  {
    var q := Quoted(p);
    if p.quoting != Bare {
      assert q[|q| - 1..] == q[..1] && q[1..|q| - 1] == p.value;
    } else if q != "" {
      assert q[|q| - 1..] == [q[|q| - 1]] && q[..1] == [q[0]];
    }
  }

  lemma LineSplits(p: Pair)
    requires PlainPair(p)
    ensures SplitKv(Line(p)) == Some((p.key, p.value))
  {
    QuotedTrimmed(p);
    SpacesHaveNoColon(p.gap);
    SplitsAt(Head(p), p.lead + Quoted(p));
    StripBefore(p.key, p.gap);
    StripAfter(p.lead, Quoted(p));
  }

  lemma StripBefore(s: string, b: string)
    requires Trimmed(s) && Spaces(b)
    ensures Strip(s + b) == s
  {
    StripPadded("", s, b);
    assert "" + s + b == s + b;
  }

  lemma StripAfter(a: string, s: string)
    requires Trimmed(s) && Spaces(a)
    ensures Strip(a + s) == s
  {
    StripPadded(a, s, "");
    assert a + s + "" == a + s;
  }

  lemma SpacesHaveNoColon(s: string)
    requires Spaces(s)
    ensures ':' !in s
  {
  }

  lemma SplitsAt(head: string, tail: string)
    requires ':' !in head
    ensures SplitKv(head + [':'] + tail) == Some((Strip(head), Unquote(Strip(tail))))
  {
    var line := head + [':'] + tail;
    IndexOfAfter(head, ':', tail);
    assert line[..|head|] == head && line[|head| + 1..] == tail;
  }

  lemma LineTrimmed(p: Pair)
    requires PlainPair(p)
    ensures Trimmed(Line(p)) && Line(p) != ""
  {
    var line := Line(p);
    QuotedTrimmed(p);
    assert line[0] == if p.key == "" then ':' else p.key[0];
    assert line[|line| - 1] == if Quoted(p) == "" then ':' else Quoted(p)[|Quoted(p)| - 1];
  }

  lemma FirstLine(s: State, p: Pair)
    requires PlainPair(p)
    ensures Step(s, WholeLine(p, true)) == Some(State(s.Flushed(), Some(map[p.key := p.value])))
  {
    LineSplits(p);
    LineTrimmed(p);
    ItemStarts(s, p.indent, Line(p), p.key, p.value);
  }

  lemma ItemStarts(s: State, pad: string, rest: string, k: string, v: string)
    requires Spaces(pad) && Trimmed(rest) && rest != "" && SplitKv(rest) == Some((k, v))
    ensures Step(s, pad + ("- " + rest)) == Some(State(s.Flushed(), Some(map[k := v])))
  {
    var line := "- " + rest;
    assert line[0] == '-' && line[|line| - 1] == rest[|rest| - 1];
    StripAfter(pad, line);
    assert !Skipped(line) && line[2..] == rest;
    StripTrimmed(rest);
  }

  lemma NextLine(s: State, p: Pair)
    requires PlainPair(p) && LineKey(p.key)
    ensures Step(s, WholeLine(p, false))
         == Some(if s.current.Some? then s.(current := Some(s.current.value[p.key := p.value])) else s)
  {
    LineSplits(p);
    LineTrimmed(p);
    SpacesHaveNoColon(p.gap);
    NotSkipped(p.key, p.gap, p.lead + Quoted(p));
    ItemGoesOn(s, p.indent, Line(p), p.key, p.value);
  }

  lemma ItemGoesOn(s: State, pad: string, line: string, k: string, v: string)
    requires Spaces(pad) && Trimmed(line) && !Skipped(line) && !StartsWith(line, "- ") && SplitKv(line) == Some((k, v))
    ensures Step(s, pad + line) == Some(if s.current.Some? then s.(current := Some(s.current.value[k := v])) else s)
  {
    StripAfter(pad, line);
    SplitKvTotal(line);
  }

  lemma NotSkipped(k: string, gap: string, rest: string)
    requires LineKey(k) && Spaces(gap) && (k == "" || k == "-" ==> gap == "") && ':' !in gap
    ensures !Skipped(k + gap + [':'] + rest) && !StartsWith(k + gap + [':'] + rest, "- ")
  {
    var line := k + gap + [':'] + rest;
    KeyPrefix(k, gap, rest, "version");
    KeyPrefix(k, gap, rest, "exceptions");
    assert line[0] == if k == "" then ':' else k[0];
    if |k| == 1 {
      assert k[0] == '-' ==> k == "-";
      assert line[1] == if gap == "" then ':' else gap[0];
    } else if |k| > 1 {
      assert line[..2] == k[..2];
    }
  }

  lemma KeyPrefix(k: string, gap: string, rest: string, word: string)
    requires ':' !in k && ':' !in gap && ':' !in word && Spaces(gap) && Trimmed(word) && word != "" && Trimmed(k)
    ensures StartsWith(k + gap + [':'] + rest, word + ":") ==> k == word
  {
    var line := k + gap + [':'] + rest;
    IndexOfAfter(k + gap, ':', rest);
    if StartsWith(line, word + ":") {
      assert line == word + [':'] + line[|word| + 1..];
      IndexOfAfter(word, ':', line[|word| + 1..]);
      assert k + gap == line[..|k + gap|] && word == line[..|word|];
      StripBefore(k, gap);
      StripTrimmed(word);
    }
  }

  lemma NoiseSkipped(s: State, n: Noise)
    requires QuietNoise(n)
    ensures Step(s, NoiseLine(n)) == Some(s)
  {
    match n
    case Blank(pad) => StripSpaces(pad);
    case Comment(pad, text) => StripHead(pad, "#", text);
    case Version(pad, text) => StripHead(pad, "version:", text);
    case Exceptions(pad, text) => StripHead(pad, "exceptions:", text);
    case Words(pad, text) =>
      StripAfter(pad, text);
  }

  // ----- the round trip -----

  lemma {:induction false} ParseConcat(s: State, a: seq<string>, b: seq<string>)
    ensures ParseFrom(s, a + b) == var t := ParseFrom(s, a); if t.None? then None else ParseFrom(t.value, b)
    decreases |a|
  {
    if a == [] {
      assert a + b == b;
    } else {
      assert (a + b)[0] == a[0] && (a + b)[1..] == a[1..] + b;
      var t := Step(s, a[0]);
      if t.Some? { ParseConcat(t.value, a[1..], b); }
    }
  }

  lemma {:induction false} ParseOne(s: State, line: string)
    ensures ParseFrom(s, [line]) == Step(s, line)
  {
    assert [line][1..] == [];
  }

  lemma {:induction false} NoiseParses(s: State, ns: seq<Noise>)
    requires forall i | 0 <= i < |ns| :: QuietNoise(ns[i])
    ensures ParseFrom(s, NoiseLines(ns)) == Some(s)
  {
    if ns != [] {
      NoiseSkipped(s, ns[0]);
      assert NoiseLines(ns)[1..] == NoiseLines(ns[1..]);
      NoiseParses(s, ns[1..]);
    }
  }

  lemma {:induction false} PairParses(s: State, p: Pair, first: bool)
    requires PlainPair(p) && (!first ==> LineKey(p.key))
    ensures ParseFrom(s, PairLines(p, first))
         == Some(if first then State(s.Flushed(), Some(map[p.key := p.value]))
                 else if s.current.Some? then s.(current := Some(s.current.value[p.key := p.value])) else s)
  {
    NoiseParses(s, p.before);
    ParseConcat(s, NoiseLines(p.before), [WholeLine(p, first)]);
    ParseOne(s, WholeLine(p, first));
    if first { FirstLine(s, p); } else { NextLine(s, p); }
  }

  lemma {:induction false} StaysAsIs(s: State, a: seq<string>, b: seq<string>, all: seq<string>)
    requires all == a + b && ParseFrom(s, a) == Some(s) && ParseFrom(s, b) == Some(s)
    ensures ParseFrom(s, all) == Some(s)
  {
    ParseConcat(s, a, b);
  }

  lemma {:induction false} EarlyParses(s: State, ps: seq<Pair>)
    requires s.current.None? && forall i | 0 <= i < |ps| :: PlainPair(ps[i]) && LineKey(ps[i].key)
    ensures ParseFrom(s, EarlyLines(ps)) == Some(s)
  {
    if ps != [] {
      var n := |ps| - 1;
      var p, early := ps[n], EarlyLines(ps[..n]);
      assert forall i | 0 <= i < n :: ps[..n][i] == ps[i];
      assert EarlyLines(ps) == early + PairLines(p, false);
      EarlyParses(s, ps[..n]);
      PairParses(s, p, false);
      StaysAsIs(s, early, PairLines(p, false), EarlyLines(ps));
    }
  }

  lemma {:induction false} EntrySnoc(ps: seq<Pair>)
    requires ps != []
    ensures EntryOf(ps) == EntryOf(ps[..|ps| - 1])[ps[|ps| - 1].key := ps[|ps| - 1].value]
    ensures |ps| == 1 ==> EntryOf(ps) == map[ps[0].key := ps[0].value]
  {
  }

  lemma {:induction false} ItemParses(s: State, ps: seq<Pair>)
    requires Printable(ps)
    ensures ParseFrom(s, ItemLines(ps)) == Some(State(s.Flushed(), Some(EntryOf(ps))))
  {
    var n := |ps| - 1;
    EntrySnoc(ps);
    if n == 0 {
      assert ItemLines(ps) == PairLines(ps[0], true);
      PairParses(s, ps[0], true);
    } else {
      assert forall i | 0 <= i < n :: ps[..n][i] == ps[i];
      ItemParses(s, ps[..n]);
      ParseConcat(s, ItemLines(ps[..n]), PairLines(ps[n], false));
      PairParses(State(s.Flushed(), Some(EntryOf(ps[..n]))), ps[n], false);
    }
  }

  function Entries(items: seq<seq<Pair>>): (es: seq<Entry>)
    ensures |es| == |items|
  {
    seq(|items|, i requires 0 <= i < |items| => EntryOf(items[i]))
  }

  lemma {:induction false} EntryNotEmpty(ps: seq<Pair>)
    requires ps != []
    ensures EntryOf(ps) != map[]
  {
    assert ps[|ps| - 1].key in EntryOf(ps);
  }

  lemma {:induction false} AppendItem(start: State, lines: seq<string>, s: State, ps: seq<Pair>)
    requires ParseFrom(start, lines) == Some(s) && Printable(ps)
    ensures var t := ParseFrom(start, lines + ItemLines(ps)); t.Some? && t.value.Flushed() == s.Flushed() + [EntryOf(ps)]
  {
    ParseConcat(start, lines, ItemLines(ps));
    ItemParses(s, ps);
    EntryNotEmpty(ps);
  }

  lemma EntriesSnoc(items: seq<seq<Pair>>)
    requires items != []
    ensures Entries(items) == Entries(items[..|items| - 1]) + [EntryOf(items[|items| - 1])]
  {
  }

  lemma {:induction false} ItemsParse(items: seq<seq<Pair>>)
    requires forall i | 0 <= i < |items| :: Printable(items[i])
    ensures var s := ParseFrom(State([], None), AllLines(items)); s.Some? && s.value.Flushed() == Entries(items)
  {
    if items != [] {
      var init, last := items[..|items| - 1], items[|items| - 1];
      ItemsParse(init);
      AppendItem(State([], None), AllLines(init), ParseFrom(State([], None), AllLines(init)).value, last);
      EntriesSnoc(items);
    }
  }

  ghost predicate OneLines(lines: seq<string>) { forall i | 0 <= i < |lines| :: OneLine(lines[i]) }

  lemma OneLineConcat(a: string, b: string)
    requires OneLine(a) && OneLine(b)
    ensures OneLine(a + b)
  {
  }

  lemma SpacesOneLine(s: string)
    requires Spaces(s)
    ensures OneLine(s)
  {
  }

  lemma NoiseOneLine(n: Noise)
    requires QuietNoise(n)
    ensures OneLine(NoiseLine(n))
  {
    SpacesOneLine(n.pad);
    if !n.Blank? {
      var word := match n case Comment(_, _) => "#" case Version(_, _) => "version:" case Exceptions(_, _) => "exceptions:" case _ => "";
      OneLineConcat(n.pad, word);
      OneLineConcat(n.pad + word, n.text);
      assert NoiseLine(n) == n.pad + word + n.text;
    }
  }

  lemma LineOneLine(p: Pair, first: bool)
    requires PlainPair(p)
    ensures OneLine(WholeLine(p, first))
  {
    var q := if p.quoting == Single then "'" else "\"";
    SpacesOneLine(p.indent);
    SpacesOneLine(p.gap);
    SpacesOneLine(p.lead);
    OneLineConcat(q, p.value);
    OneLineConcat(q + p.value, q);
    OneLineConcat(p.lead, Quoted(p));
    OneLineConcat(p.key, p.gap);
    OneLineConcat(Head(p), [':']);
    OneLineConcat(Head(p) + [':'], p.lead + Quoted(p));
    OneLineConcat("- ", Line(p));
    OneLineConcat(p.indent, if first then "- " + Line(p) else Line(p));
  }

  lemma {:induction false} EarlyOneLines(ps: seq<Pair>)
    requires forall i | 0 <= i < |ps| :: PlainPair(ps[i])
    ensures OneLines(EarlyLines(ps))
  {
    if ps != [] {
      EarlyOneLines(ps[..|ps| - 1]);
      PairOneLines(ps[|ps| - 1], false);
    }
  }

  lemma PairOneLines(p: Pair, first: bool)
    requires PlainPair(p)
    ensures OneLines(PairLines(p, first))
  {
    forall i | 0 <= i < |p.before| ensures OneLine(NoiseLine(p.before[i])) { NoiseOneLine(p.before[i]); }
    LineOneLine(p, first);
  }

  lemma {:induction false} ItemOneLines(ps: seq<Pair>)
    requires forall i | 0 <= i < |ps| :: PlainPair(ps[i])
    ensures OneLines(ItemLines(ps))
  {
    if ps != [] {
      ItemOneLines(ps[..|ps| - 1]);
      PairOneLines(ps[|ps| - 1], |ps| == 1);
    }
  }

  lemma {:induction false} PrintedOneLine(items: seq<seq<Pair>>)
    requires forall i | 0 <= i < |items| :: Printable(items[i])
    ensures OneLines(AllLines(items))
  {
    if items != [] {
      PrintedOneLine(items[..|items| - 1]);
      ItemOneLines(items[|items| - 1]);
    }
  }

  /** The last value of a key is the one that counts; with distinct keys it is the only one. */
  lemma {:induction false} EntryHolds(ps: seq<Pair>, i: nat)
    requires i < |ps| && forall j | i < j < |ps| :: ps[j].key != ps[i].key
    ensures ps[i].key in EntryOf(ps) && EntryOf(ps)[ps[i].key] == ps[i].value
  {
    var n := |ps| - 1;
    if i < n {
      assert forall j | i < j < n :: ps[..n][j] == ps[j];
      EntryHolds(ps[..n], i);
    }
  }

  /** Parsing a printed list gives its entries back: however lines are indented and ended, values quoted, and colons set
      off, and whatever stands between the items. */
  lemma {:induction false} RoundTrip(early: seq<Pair>, items: seq<seq<Pair>>, after: seq<Noise>, end: char)
    requires end == '\n' || end == '\r'
    requires forall i | 0 <= i < |early| :: PlainPair(early[i]) && LineKey(early[i].key)
    requires forall i | 0 <= i < |items| :: Printable(items[i])
    requires forall i | 0 <= i < |after| :: QuietNoise(after[i])
    ensures Parse(Print(early, items, after, end)) == Some(Entries(items))
  {
    var start := State([], None);
    EarlyOneLines(early);
    PrintedOneLine(items);
    forall i | 0 <= i < |after| ensures OneLine(NoiseLines(after)[i]) { NoiseOneLine(after[i]); }
    LinesOfUnlines(EarlyLines(early) + AllLines(items) + NoiseLines(after), end);
    EarlyParses(start, early);
    ItemsParse(items);
    ParseConcat(start, EarlyLines(early), AllLines(items));
    ParseConcat(start, EarlyLines(early) + AllLines(items), NoiseLines(after));
    NoiseParses(ParseFrom(start, AllLines(items)).value, after);
  }

  /** A line of the repository's own list: a value without quotes. */
  lemma BareLine()
    ensures SplitKv("package: xlsx") == Some(("package", "xlsx"))
  {
    var p := Pair("package", "xlsx", Bare, "", "", " ", []);
    assert Line(p) == "package: xlsx";
    LineSplits(p);
  }
}
