/** The string operations of Python that the audit gate uses. */
module PyText {
  /** str.isspace. */
  predicate IsSpace(c: char) {
    var n := c as int;
    || 9 <= n <= 13 || 28 <= n <= 32 || n == 0x85 || n == 0xA0 || n == 0x1680 || 0x2000 <= n <= 0x200A
    || n == 0x2028 || n == 0x2029 || n == 0x202F || n == 0x205F || n == 0x3000
  }

  function StripLeft(s: string): string { if s != "" && IsSpace(s[0]) then StripLeft(s[1..]) else s }

  function StripRight(s: string): string { if s != "" && IsSpace(s[|s| - 1]) then StripRight(s[..|s| - 1]) else s }

  function Strip(s: string): string { StripRight(StripLeft(s)) }

  /** Nothing for strip to remove. */
  predicate Trimmed(s: string) { s == "" || (!IsSpace(s[0]) && !IsSpace(s[|s| - 1])) }

  predicate StartsWith(s: string, prefix: string) { prefix <= s }

  predicate EndsWith(s: string, suffix: string) { |suffix| <= |s| && s[|s| - |suffix|..] == suffix }

  /** The position of the first c, or the length if there is none. */
  function IndexOf(s: string, c: char): (i: nat)
    ensures i <= |s| && (i < |s| ==> s[i] == c) && c !in s[..i]
  {
    if s == "" || s[0] == c then 0
    else
      var i := 1 + IndexOf(s[1..], c);
      assert s[..i] == [s[0]] + s[1..][..i - 1];
      i
  }

  /** The first c splits a string whose part before it has none. */
  lemma {:induction false} IndexOfAfter(a: string, c: char, b: string)
    requires c !in a
    ensures IndexOf(a + [c] + b, c) == |a|
  {
    if a == "" {
      assert a + [c] + b == [c] + b;
    } else {
      assert (a + [c] + b)[1..] == a[1..] + [c] + b;
      IndexOfAfter(a[1..], c, b);
    }
  }

  predicate IsNewline(c: char) { c == '\n' || c == '\r' }

  predicate OneLine(s: string) { forall i | 0 <= i < |s| :: !IsNewline(s[i]) }

  /** The length of the text up to its first newline. */
  function LineLength(text: string): (n: nat)
    ensures n <= |text| && OneLine(text[..n]) && (n < |text| ==> IsNewline(text[n]))
  {
    if text == "" || IsNewline(text[0]) then 0
    else
      var n := 1 + LineLength(text[1..]);
      assert forall i | 0 < i < n :: text[i] == text[1..][i - 1];
      n
  }

  /** The lines of a file.  Reading CR LF as two line ends only adds an empty line. */
  function Lines(text: string): seq<string>
    decreases |text|
  {
    if text == "" then []
    else
      var n := LineLength(text);
      if n == |text| then [text] else [text[..n]] + Lines(text[n + 1..])
  }

  lemma {:induction false} LineLengthOf(l: string, end: char, rest: string)
    requires OneLine(l) && IsNewline(end)
    ensures LineLength(l + [end] + rest) == |l|
  {
    if l == "" {
      assert l + [end] + rest == [end] + rest;
    } else {
      assert (l + [end] + rest)[1..] == l[1..] + [end] + rest;
      assert forall i | 0 <= i < |l[1..]| :: l[1..][i] == l[i + 1];
      LineLengthOf(l[1..], end, rest);
    }
  }

  /** Each line and a line end. */
  function Unlines(lines: seq<string>, end: char): string {
    if lines == [] then "" else lines[0] + [end] + Unlines(lines[1..], end)
  }

  lemma {:induction false} LinesOfUnlines(lines: seq<string>, end: char)
    requires (end == '\n' || end == '\r') && forall i | 0 <= i < |lines| :: OneLine(lines[i])
    ensures Lines(Unlines(lines, end)) == lines
  {
    if lines != [] {
      var l, rest := lines[0], Unlines(lines[1..], end);
      assert forall i | 0 <= i < |lines[1..]| :: lines[1..][i] == lines[i + 1];
      LinesOfUnlines(lines[1..], end);
      LineLengthOf(l, end, rest);
      var text := l + [end] + rest;
      assert text[..|l|] == l && text[|l| + 1..] == rest;
      assert lines == [l] + lines[1..];
    }
  }

  lemma StripTrimmed(s: string)
    requires Trimmed(s)
    ensures Strip(s) == s
  {
  }

  /** Characters that strip removes and that end no line. */
  predicate Spaces(s: string) { forall i | 0 <= i < |s| :: IsSpace(s[i]) && !IsNewline(s[i]) }

  /** strip removes the spaces around a text and nothing else. */
  lemma {:induction false} StripPadded(a: string, s: string, b: string)
    requires Spaces(a) && Spaces(b) && Trimmed(s)
    ensures Strip(a + s + b) == s
    decreases |a|
  {
    if a != "" {
      assert (a + s + b)[1..] == a[1..] + s + b;
      StripPadded(a[1..], s, b);
    } else if s == "" {
      assert a + s + b == b;
      StripSpaces(b);
    } else {
      assert a + s + b == s + b;
      assert StripLeft(s + b) == s + b;
      StripEnd(s, b);
    }
  }

  lemma {:induction false} StripSpaces(b: string)
    requires Spaces(b)
    ensures Strip(b) == ""
  {
    if b != "" { StripSpaces(b[1..]); }
  }

  lemma {:induction false} StripEnd(s: string, b: string)
    requires Spaces(b) && Trimmed(s)
    ensures StripRight(s + b) == s
    decreases |b|
  {
    if b == "" {
      assert s + b == s;
    } else {
      assert (s + b)[..|s + b| - 1] == s + b[..|b| - 1];
      StripEnd(s, b[..|b| - 1]);
    }
  }

  /** The spaces of ASCII: tab, the line ends and their like, the four separators and the blank. */
  lemma AsciiSpaces(c: char)
    requires (c as int) < 128
    ensures IsSpace(c) <==> c in "\t\n\U{B}\U{C}\r\U{1C}\U{1D}\U{1E}\U{1F} "
  {
  }

  /** What strip leaves begins with the first word of the text, whatever follows it. */
  lemma {:induction false} StripHead(pad: string, word: string, rest: string)
    requires word != "" && !IsSpace(word[0]) && !IsSpace(word[|word| - 1])
    requires forall i | 0 <= i < |pad| :: IsSpace(pad[i])
    ensures StartsWith(Strip(pad + word + rest), word)
  {
    if pad == "" {
      assert pad + word + rest == word + rest;
      assert StripLeft(word + rest) == word + rest;
      StripRightHead(word, rest);
    } else {
      assert (pad + word + rest)[1..] == pad[1..] + word + rest;
      StripHead(pad[1..], word, rest);
    }
  }

  lemma {:induction false} StripRightHead(word: string, rest: string)
    requires word != "" && !IsSpace(word[|word| - 1])
    ensures StartsWith(StripRight(word + rest), word)
  {
    if rest != "" {
      assert (word + rest)[..|word + rest| - 1] == word + rest[..|rest| - 1];
      StripRightHead(word, rest[..|rest| - 1]);
    }
  }
}
