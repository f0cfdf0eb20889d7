/** The trailing comment of a configuration line (`_comment`, `_assignment`, src/balance.py), character by
    character: a rewritten key line has the comment of the line it replaces. */
module TomlComment {
  import opened Seqs

  // ---------------------------------------------------------------- finding the comment

  /** The quote that is open, whether the next character is escaped, and where a comment has been found. */
  datatype Scanner = Scanner(quote: Option<char>, escaped: bool, hit: Option<nat>)

  function Feed(s: Scanner, i: nat, c: char): Scanner {
    if s.hit.Some? then s
    else if s.escaped then s.(escaped := false)
    else if s.quote == Some('"') && c == '\\' then s.(escaped := true)
    else if s.quote.Some? then (if c == s.quote.value then s.(quote := None) else s)
    else if c == '"' || c == '\'' then s.(quote := Some(c))
    else if c == '#' then s.(hit := Some(i))
    else s
  }

  function Scan(line: string): (s: Scanner)
    ensures s.hit.Some? ==> s.hit.value < |line| && line[s.hit.value] == '#'
  {
    if line == [] then Scanner(None, false, None) else
    Feed(Scan(line[..|line| - 1]), |line| - 1, line[|line| - 1])
  }

  predicate Space(c: char) { c == ' ' || c == '\t' }

  /** From `i` back over blanks. */
  function Back(line: string, i: nat): (start: nat)
    requires i <= |line|
    ensures start <= i && forall k | start <= k < i :: Space(line[k])
    ensures start > 0 ==> !Space(line[start - 1])
  { if i > 0 && Space(line[i - 1]) then Back(line, i - 1) else i }

  predicate Break(c: char) { c == '\r' || c == '\n' }

  /** `rstrip("\r\n")` */
  function Chomp(s: string): (r: string)
    ensures r <= s && (r != [] ==> !Break(r[|r| - 1])) && forall k | |r| <= k < |s| :: Break(s[k])
  { if s != [] && Break(s[|s| - 1]) then Chomp(s[..|s| - 1]) else s }

  function Comment(line: string): string {
    var hit := Scan(line).hit;
    if hit.None? then "" else Chomp(line[Back(line, hit.value)..])
  }

  method FindComment(line: string) returns (r: string)
    ensures r == Comment(line)
  {
    var quote: Option<char> := None;
    var escaped := false;
    for i := 0 to |line|
      invariant Scan(line[..i]) == Scanner(quote, escaped, None)
    {
      assert line[..i + 1][..i] == line[..i];
      var c := line[i];
      if escaped { escaped := false; }
      else if quote == Some('"') && c == '\\' { escaped := true; }
      else if quote.Some? { if c == quote.value { quote := None; } }
      else if c == '"' || c == '\'' { quote := Some(c); }
      else if c == '#' {
        HitStays(line, i + 1);
        var start := i;
        while start > 0 && Space(line[start - 1])
          invariant start <= i && Back(line, start) == Back(line, i)
        {
          start := start - 1;
        }
        return Chomp(line[start..]);
      }
    }
    assert line[..|line|] == line;
    return "";
  }

  lemma {:induction false} HitStays(line: string, i: nat)
    requires i <= |line| && Scan(line[..i]).hit.Some?
    ensures Scan(line).hit == Scan(line[..i]).hit
    decreases |line|
  {
    if i == |line| { assert line[..i] == line; }
    else {
      assert line[..|line| - 1][..i] == line[..i];
      HitStays(line[..|line| - 1], i);
    }
  }

  // ---------------------------------------------------------------- what is written

  function Hex(n: nat): char
    requires n < 16
  { if n < 10 then ('0' as int + n) as char else ('a' as int + n - 10) as char }

  function Hex4(n: nat): string
    requires n < 0x10000
  { [Hex(n / 4096), Hex(n / 256 % 16), Hex(n / 16 % 16), Hex(n % 16)] }

  /** `json.dumps` of one character. */
  function EscapeChar(c: char): string {
    if c == '"' then "\\\"" else if c == '\\' then "\\\\"
    else if c == '\n' then "\\n" else if c == '\r' then "\\r" else if c == '\t' then "\\t"
    else if c as int == 8 then "\\b" else if c as int == 12 then "\\f"
    else if ' ' <= c <= '~' then [c]
    else if (c as int) < 0x10000 then "\\u" + Hex4(c as int)
    else
      var n := c as int - 0x10000;
      "\\u" + Hex4(0xD800 + n / 1024 % 1024) + ("\\u" + Hex4(0xDC00 + n % 1024))
  }

  function Escape(s: string): string {
    if s == [] then [] else Escape(s[..|s| - 1]) + EscapeChar(s[|s| - 1])
  }

  function Quoted(s: string): string { "\"" + Escape(s) + "\"" }

  /** The value written for a key: a string, or the inline table of a fallback. */
  datatype Written = Text(text: string) | Fallback(backend: string, model: string)

  function Assignment(key: string, v: Written): string {
    match v
    case Text(t) => key + " = " + Quoted(t)
    case Fallback(b, m) => key + " = { backend = " + Quoted(b) + ", model = " + Quoted(m) + " }"
  }

  const CLEAR := Scanner(None, false, None)
  const IN_STRING := Scanner(Some('"'), false, None)

  lemma ScanPush(a: string, c: char)
    ensures Scan(a + [c]) == Feed(Scan(a), |a|, c)
  { assert (a + [c])[..|a|] == a; }

  /** Text without quotes, backslashes or `#` changes nothing outside a string. */
  predicate Dull(s: string) { forall i | 0 <= i < |s| :: s[i] != '"' && s[i] != '\'' && s[i] != '#' && s[i] != '\\' }

  lemma {:induction false} ScanDull(a: string, s: string)
    requires Dull(s) && (Scan(a) == CLEAR || Scan(a) == IN_STRING)
    ensures Scan(a + s) == Scan(a)
  {
    hide Scan;
    if s == [] { assert a + s == a; }
    else {
      var init, c := s[..|s| - 1], s[|s| - 1];
      ScanDull(a, init);
      ScanPush(a + init, c);
      assert a + init + [c] == a + s;
    }
  }

  lemma HexDull(n: nat)
    requires n < 0x10000
    ensures Dull(Hex4(n))
  {}

  lemma ScanEscaped(a: string, c: char)
    requires Scan(a) == IN_STRING
    ensures Scan(a + ['\\', c]) == IN_STRING
  {
    ScanPush(a, '\\');
    ScanPush(a + ['\\'], c);
    assert a + ['\\'] + [c] == a + ['\\', c];
  }

  lemma ScanUnicode(a: string, n: nat)
    requires Scan(a) == IN_STRING && n < 0x10000
    ensures Scan(a + ("\\u" + Hex4(n))) == IN_STRING
  {
    ScanEscaped(a, 'u');
    HexDull(n);
    ScanDull(a + "\\u", Hex4(n));
    assert a + "\\u" + Hex4(n) == a + ("\\u" + Hex4(n));
  }

  /** Two pieces, one after the other. */
  lemma ScanThen(a: string, b: string, c: string, was: Scanner)
    requires Scan(a + b) == was && Scan(a + b + c) == was
    ensures Scan(a + (b + c)) == was
  {
    hide Scan;
    assert a + (b + c) == a + b + c;
  }

  lemma ScanPair(a: string, n: nat)
    requires Scan(a) == IN_STRING && n < 0x100000
    ensures Scan(a + ("\\u" + Hex4(0xD800 + n / 1024 % 1024) + ("\\u" + Hex4(0xDC00 + n % 1024)))) == IN_STRING
  {
    hide Scan, Hex4;
    var first := "\\u" + Hex4(0xD800 + n / 1024 % 1024);
    var second := "\\u" + Hex4(0xDC00 + n % 1024);
    ScanUnicode(a, 0xD800 + n / 1024 % 1024);
    ScanUnicode(a + first, 0xDC00 + n % 1024);
    ScanThen(a, first, second, IN_STRING);
  }

  lemma ScanChar(a: string, c: char)
    requires Scan(a) == IN_STRING
    ensures Scan(a + EscapeChar(c)) == IN_STRING
  {
    hide Scan, Hex4;
    if c == '"' { ScanEscaped(a, '"'); }
    else if c == '\\' { ScanEscaped(a, '\\'); }
    else if c == '\n' { ScanEscaped(a, 'n'); }
    else if c == '\r' { ScanEscaped(a, 'r'); }
    else if c == '\t' { ScanEscaped(a, 't'); }
    else if c as int == 8 { ScanEscaped(a, 'b'); }
    else if c as int == 12 { ScanEscaped(a, 'f'); }
    else if ' ' <= c <= '~' { ScanPush(a, c); }
    else if (c as int) < 0x10000 { ScanUnicode(a, c as int); }
    else { ScanPair(a, c as int - 0x10000); }
  }

  lemma EscapePush(s: string)
    requires s != []
    ensures Escape(s) == Escape(s[..|s| - 1]) + EscapeChar(s[|s| - 1])
  {}

  lemma {:induction false} ScanEscape(a: string, s: string)
    requires Scan(a) == IN_STRING
    ensures Scan(a + Escape(s)) == IN_STRING
  {
    hide Scan, Escape, EscapeChar;
    if s == [] { assert a + Escape(s) == a by { EscapeNone(); } }
    else {
      EscapePush(s);
      ScanEscape(a, s[..|s| - 1]);
      ScanChar(a + Escape(s[..|s| - 1]), s[|s| - 1]);
      ScanThen(a, Escape(s[..|s| - 1]), EscapeChar(s[|s| - 1]), IN_STRING);
    }
  }

  lemma EscapeNone()
    ensures Escape([]) == []
  {}

  /** A quoted string, whatever is in it, leaves the scanner as it was. */
  lemma ScanQuoted(a: string, s: string)
    requires Scan(a) == CLEAR
    ensures Scan(a + Quoted(s)) == CLEAR
  {
    hide Scan, Escape;
    ScanPush(a, '"');
    ScanEscape(a + "\"", s);
    ScanPush(a + "\"" + Escape(s), '"');
    assert a + "\"" + Escape(s) + ['"'] == a + Quoted(s);
  }

  lemma ScanText(key: string, t: string)
    requires Dull(key) && Scan(key) == CLEAR
    ensures Scan(key + " = " + Quoted(t)) == CLEAR
  {
    ScanDull(key, " = ");
    hide Scan, Quoted;
    ScanQuoted(key + " = ", t);
  }

  lemma ScanFallback(key: string, b: string, m: string)
    requires Dull(key) && Scan(key) == CLEAR
    ensures Scan(key + " = { backend = " + Quoted(b) + ", model = " + Quoted(m) + " }") == CLEAR
  {
    hide Scan, Quoted;
    ScanDull(key, " = { backend = ");
    ScanQuoted(key + " = { backend = ", b);
    ScanDull(key + " = { backend = " + Quoted(b), ", model = ");
    ScanQuoted(key + " = { backend = " + Quoted(b) + ", model = ", m);
    ScanDull(key + " = { backend = " + Quoted(b) + ", model = " + Quoted(m), " }");
  }

  predicate Tight(s: string) { s != [] && !Space(s[|s| - 1]) }

  lemma ScanAssignment(key: string, v: Written)
    requires Dull(key)
    ensures Scan(Assignment(key, v)) == CLEAR && Tight(Assignment(key, v))
  {
    ScanDull([], key);
    assert [] + key == key;
    hide Scan, Escape;
    match v
    case Text(t) => ScanText(key, t);
    case Fallback(b, m) => ScanFallback(key, b, m);
  }

  // ---------------------------------------------------------------- the round trip

  /** What `_comment` can return: nothing, or blanks, a `#` and text that does not end in a line break. */
  predicate CommentText(c: string) {
    c == "" || exists n: nat | n < |c| :: c[n] == '#' && (forall k | 0 <= k < n :: Space(c[k])) && !Break(c[|c| - 1])
  }

  lemma CommentIs(line: string)
    ensures CommentText(Comment(line))
  {
    var hit := Scan(line).hit;
    if hit.Some? {
      var start := Back(line, hit.value);
      var rest := line[start..];
      var n := hit.value - start;
      assert rest[n] == '#' && forall k | 0 <= k < n :: Space(rest[k]);
      assert !Break(rest[n]);
    }
  }

  predicate LineEnd(e: string) { e == "" || e == "\n" || e == "\r\n" }

  lemma {:induction false} ScanBlanks(a: string, s: string)
    requires Scan(a) == CLEAR && forall k | 0 <= k < |s| :: Space(s[k])
    ensures Scan(a + s) == CLEAR
  { ScanDull(a, s); }

  lemma ChompTo(c: string, e: string)
    requires LineEnd(e) && (c != [] ==> !Break(c[|c| - 1]))
    ensures Chomp(c + e) == c
  {
    assert Chomp(c) == c;
    if e == "\n" { assert (c + e)[..|c + e| - 1] == c; }
    else if e == "\r\n" {
      assert (c + e)[..|c + e| - 1] == c + "\r";
      assert (c + "\r")[..|c + "\r"| - 1] == c;
    } else { assert c + e == c; }
  }

  lemma {:induction false} BackTo(line: string, i: nat, start: nat)
    requires start <= i <= |line| && (forall k | start <= k < i :: Space(line[k])) && (start > 0 ==> !Space(line[start - 1]))
    ensures Back(line, i) == start
    decreases i
  { if i > start { BackTo(line, i - 1, start); } }

  lemma NoCommentAfter(a: string, e: string)
    requires Scan(a) == CLEAR && LineEnd(e)
    ensures Comment(a + e) == ""
  {
    hide Scan, Chomp, Back;
    assert Dull(e);
    ScanDull(a, e);
  }

  /** A line rewritten from `line` has the comment of `line`, whatever the value. */
  lemma CommentSurvives(key: string, v: Written, line: string, e: string)
    requires Dull(key) && LineEnd(e)
    ensures Comment(Assignment(key, v) + Comment(line) + e) == Comment(line)
  {
    var a, c := Assignment(key, v), Comment(line);
    ScanAssignment(key, v);
    CommentIs(line);
    hide Assignment, Comment;
    if c == "" { NoCommentAfter(a, e); assert a + c + e == a + e; }
    else { CommentFound(a, c, e); }
  }

  lemma HitAt(a: string, c: string, e: string, n: nat)
    requires Scan(a) == CLEAR && n < |c| && c[n] == '#' && forall k | 0 <= k < n :: Space(c[k])
    ensures Scan(a + c + e).hit == Some(|a| + n)
  {
    var line, i := a + c + e, |a| + n;
    ScanBlanks(a, c[..n]);
    ScanPush(a + c[..n], '#');
    assert line[..i + 1] == a + c[..n] + ['#'];
    hide Scan;
    HitStays(line, i + 1);
  }

  lemma BackAt(a: string, rest: string, n: nat)
    requires Tight(a) && n <= |rest| && forall k | 0 <= k < n :: Space(rest[k])
    ensures Back(a + rest, |a| + n) == |a| && (a + rest)[|a|..] == rest
  {
    var line := a + rest;
    assert line[|a| - 1] == a[|a| - 1];
    forall k | |a| <= k < |a| + n ensures Space(line[k]) { assert line[k] == rest[k - |a|]; }
    BackTo(line, |a| + n, |a|);
  }

  lemma CommentFound(a: string, c: string, e: string)
    requires Scan(a) == CLEAR && Tight(a) && CommentText(c) && c != "" && LineEnd(e)
    ensures Comment(a + c + e) == c
  {
    var n: nat :| n < |c| && c[n] == '#' && (forall k | 0 <= k < n :: Space(c[k])) && !Break(c[|c| - 1]);
    HitAt(a, c, e, n);
    assert forall k | 0 <= k < n :: Space((c + e)[k]);
    BackAt(a, c + e, n);
    assert a + (c + e) == a + c + e;
    ChompTo(c, e);
    hide Scan, Chomp, Back, CommentText, LineEnd, Tight;
  }
}
