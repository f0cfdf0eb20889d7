/** The bounded tail of a stream (`tail_add`, src/cron_run.py): what is kept does not depend on how it arrived. */
module Tail {

  const MAX_CHARS: nat := 2000
  const MAX_LINES: nat := 20

  function Newlines(s: string): nat {
    if s == [] then 0 else (if s[0] == '\n' then 1 else 0) + Newlines(s[1..])
  }

  predicate EndsLine(s: string) { s != [] && s[|s| - 1] == '\n' }

  /** Newlines a tail may hold: a last line that is ended does not count as begun. */
  function Allowed(s: string): nat { if EndsLine(s) then MAX_LINES else MAX_LINES - 1 }

  /** Within both bounds. */
  predicate Fits(s: string) { |s| <= MAX_CHARS && Newlines(s) <= Allowed(s) }

  /** The longest suffix within both bounds. */
  function Longest(s: string): string {
    if Fits(s) || s == [] then s else Longest(s[1..])
  }

  lemma LongestIs(s: string)
    ensures |Longest(s)| <= |s| && Longest(s) == s[|s| - |Longest(s)|..] && Fits(Longest(s))
    ensures forall i | 0 <= i < |s| - |Longest(s)| :: !Fits(s[i..])
  {
    if !Fits(s) && s != [] {
      LongestIs(s[1..]);
      forall i | 0 <= i < |s| - |Longest(s)| ensures !Fits(s[i..]) {
        if i == 0 { assert s[0..] == s; } else { assert s[1..][i - 1..] == s[i..]; }
      }
    }
  }

  // ---------------------------------------------------------------- the code's way

  function Split(s: string): (parts: seq<string>)
    ensures |parts| == Newlines(s) + 1
  {
    if s == [] then [""]
    else if s[0] == '\n' then [""] + Split(s[1..])
    else
      var rest := Split(s[1..]);
      [[s[0]] + rest[0]] + rest[1..]
  }

  function Join(parts: seq<string>): string
    requires parts != []
  {
    if |parts| == 1 then parts[0] else parts[0] + "\n" + Join(parts[1..])
  }

  function LastChars(s: string): string { if |s| <= MAX_CHARS then s else s[|s| - MAX_CHARS..] }

  method TailAdd(tail: string, text: string) returns (r: string)
    ensures r == Longest(tail + text)
  {
    r := LastChars(tail + text);
    var lines := Split(r);
    var keep := MAX_LINES + if lines[|lines| - 1] == "" then 1 else 0;
    LastPart(r);
    CharsFirst(tail + text);
    if |lines| > keep {
      var drop := |lines| - keep;
      JoinSplit(r, drop);
      LongestIsDrop(r, drop);
      r := Join(lines[drop..]);
    } else {
      JoinAll(r);
      r := Join(lines);
    }
  }

  /** What follows the first `n` newlines. */
  function Drop(s: string, n: nat): string
    requires n <= Newlines(s)
  {
    if n == 0 then s else if s[0] == '\n' then Drop(s[1..], n - 1) else Drop(s[1..], n)
  }

  lemma {:induction false} JoinAll(s: string)
    ensures Join(Split(s)) == s
  {
    if s != [] {
      var parts, rest := Split(s), Split(s[1..]);
      JoinAll(s[1..]);
      if s[0] == '\n' { assert parts[1..] == rest; } else { assert parts[1..] == rest[1..]; }
    }
  }

  lemma {:induction false} JoinSplit(s: string, n: nat)
    requires n <= Newlines(s)
    ensures Join(Split(s)[n..]) == Drop(s, n)
  {
    var parts := Split(s);
    if n == 0 {
      assert parts[0..] == parts;
      JoinAll(s);
    } else {
      hide Join;
      var rest, m := Split(s[1..]), if s[0] == '\n' then n - 1 else n;
      JoinSplit(s[1..], m);
      assert parts[n..] == rest[m..];
    }
  }

  lemma LastPart(s: string)
    ensures Split(s)[|Split(s)| - 1] == "" <==> s == [] || EndsLine(s)
  {}

  /** Dropping whole lines until the bound is met gives the longest suffix that meets it. */
  lemma {:induction false} LongestIsDrop(s: string, n: nat)
    requires |s| <= MAX_CHARS && Newlines(s) == Allowed(s) + n
    ensures Longest(s) == Drop(s, n)
  {
    if n > 0 {
      assert |s| > 1 by { FewNewlines(s); }
      assert EndsLine(s[1..]) == EndsLine(s);
      LongestIsDrop(s[1..], if s[0] == '\n' then n - 1 else n);
    }
  }

  lemma FewNewlines(s: string)
    ensures Newlines(s) <= |s|
  {}

  /** A text over the character bound has the tail of its last characters. */
  lemma CharsFirst(s: string)
    ensures Longest(s) == Longest(LastChars(s))
  {
    if |s| > MAX_CHARS {
      assert LastChars(s) == LastChars(s[1..]) by {
        if |s| > MAX_CHARS + 1 { assert s[1..][|s[1..]| - MAX_CHARS..] == s[|s| - MAX_CHARS..]; }
      }
      CharsFirst(s[1..]);
    }
  }

  // ---------------------------------------------------------------- any chunking gives the same tail

  lemma NewlinesSplit(a: string, b: string)
    ensures Newlines(a + b) == Newlines(a) + Newlines(b)
  {
    if a == [] { assert a + b == b; } else { assert (a + b)[1..] == a[1..] + b; }
  }

  /** What does not fit does not fit with more text after it. */
  lemma OverStaysOver(a: string, b: string)
    requires !Fits(a)
    ensures !Fits(a + b)
  {
    NewlinesSplit(a, b);
    if b == [] {
      assert a + b == a;
    } else if EndsLine(a + b) {
      assert b == b[..|b| - 1] + ['\n'];
      NewlinesSplit(b[..|b| - 1], ['\n']);
      assert Newlines(['\n']) == 1;
    }
  }

  lemma {:induction false} TailOfTail(a: string, b: string)
    ensures Longest(Longest(a) + b) == Longest(a + b)
  {
    if !Fits(a) && a != [] {
      OverStaysOver(a, b);
      assert (a + b)[1..] == a[1..] + b;
      TailOfTail(a[1..], b);
    }
  }

  function Concat(chunks: seq<string>): string {
    if chunks == [] then "" else Concat(chunks[..|chunks| - 1]) + chunks[|chunks| - 1]
  }

  /** The tail after the chunks of a stream, added one by one. */
  function Fed(chunks: seq<string>): string {
    if chunks == [] then "" else Longest(Fed(chunks[..|chunks| - 1]) + chunks[|chunks| - 1])
  }

  /** Feeds the chunks of a stream in turn. */
  method Feed(chunks: seq<string>) returns (tail: string)
    ensures tail == Fed(chunks) == Longest(Concat(chunks))
  {
    tail := "";
    for i := 0 to |chunks|
      invariant tail == Fed(chunks[..i])
    {
      assert chunks[..i + 1][..i] == chunks[..i];
      tail := TailAdd(tail, chunks[i]);
    }
    assert chunks[..|chunks|] == chunks;
    FedIs(chunks);
  }

  /** Adding a text piece by piece keeps the longest fitting suffix of the whole. */
  lemma {:induction false} FedIs(chunks: seq<string>)
    ensures Fed(chunks) == Longest(Concat(chunks))
  {
    if chunks != [] {
      FedIs(chunks[..|chunks| - 1]);
      TailOfTail(Concat(chunks[..|chunks| - 1]), chunks[|chunks| - 1]);
    }
  }

  /** Two chunkings of one text leave one tail. */
  lemma ChunkingIrrelevant(chunks: seq<string>, others: seq<string>)
    requires Concat(chunks) == Concat(others)
    ensures Fed(chunks) == Fed(others)
  {
    FedIs(chunks);
    FedIs(others);
  }

  /** The lines of a text: what its line breaks end, and what is left. */
  function Lines(s: string): nat {
    if s == [] then 0 else if '\n' !in s then 1
    else var i := Breaks(s); 1 + Lines(s[i + 1..])
  }

  /** The first line break. */
  function Breaks(s: string): (i: nat)
    requires '\n' in s
    ensures i < |s| && s[i] == '\n' && '\n' !in s[..i]
  {
    if s[0] == '\n' then 0
    else
      assert s == [s[0]] + s[1..];
      var i := 1 + Breaks(s[1..]);
      assert s[..i] == [s[0]] + s[1..][..i - 1];
      i
  }

  lemma {:induction false} NoBreaks(s: string)
    requires '\n' !in s
    ensures Newlines(s) == 0
  { if s != [] { NoBreaks(s[1..]); } }

  lemma LinesSplit(s: string, i: nat)
    requires i < |s| && s[i] == '\n' && '\n' !in s[..i]
    ensures Newlines(s) == 1 + Newlines(s[i + 1..]) && (EndsLine(s) <==> s[i + 1..] == [] || EndsLine(s[i + 1..]))
  {
    assert Newlines(['\n']) == 1;
    hide Newlines;
    NoBreaks(s[..i]);
    NewlinesSplit(s[..i], ['\n']);
    NewlinesSplit(s[..i] + ['\n'], s[i + 1..]);
    assert s == s[..i] + ['\n'] + s[i + 1..];
  }

  lemma {:induction false} LinesAre(s: string)
    ensures Lines(s) == Newlines(s) + if s == [] || EndsLine(s) then 0 else 1
    decreases |s|
  {
    hide Newlines;
    if '\n' !in s { NoBreaks(s); NoneBroken(s); }
    else {
      LinesAre(s[Breaks(s) + 1..]);
      LinesSplit(s, Breaks(s));
    }
  }

  lemma NoneBroken(s: string)
    requires '\n' !in s
    ensures !EndsLine(s) && (s == [] ==> Newlines(s) == 0)
  {}

  /** What the tail keeps to: two thousand characters and twenty lines. */
  lemma FitsIs(s: string)
    ensures Fits(s) <==> |s| <= 2000 && Lines(s) <= 20
  { LinesAre(s); }
}
