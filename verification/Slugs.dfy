/** Slugs of problem groups (`make_slug`, `SLUG_RE`, scripts/problem_backfill.py). */
module Slugs {

  const MIN_SLUG := 3
  const MAX_SLUG := 60

  predicate Digit(c: char) { '0' <= c <= '9' }

  predicate WordChar(c: char) { 'a' <= c <= 'z' || Digit(c) }

  predicate SlugChar(c: char) { WordChar(c) || c == '-' }

  predicate SlugText(s: string) { forall i | 0 <= i < |s| :: SlugChar(s[i]) }

  predicate Plain(s: string) { MIN_SLUG <= |s| <= MAX_SLUG && SlugText(s) }

  /** `SLUG_RE.match`: the pattern's end also accepts one final line break. */
  predicate Matches(s: string) {
    Plain(s) || (s != [] && s[|s| - 1] == '\n' && Plain(s[..|s| - 1]))
  }

  // ---------------------------------------------------------------- decimal numerals

  function Decimal(n: nat): string {
    if n < 10 then [('0' as int + n) as char] else Decimal(n / 10) + [('0' as int + n % 10) as char]
  }

  function Value(s: string): int {
    if s == [] then 0 else Value(s[..|s| - 1]) * 10 + (s[|s| - 1] as int - '0' as int)
  }

  lemma {:induction false} DecimalIs(n: nat)
    ensures Decimal(n) != [] && Value(Decimal(n)) == n && forall i | 0 <= i < |Decimal(n)| :: Digit(Decimal(n)[i])
  {
    if n < 10 {
      assert Value([]) == 0;
      assert Decimal(n)[..0] == [];
    } else {
      DecimalIs(n / 10);
      assert Decimal(n)[..|Decimal(n)| - 1] == Decimal(n / 10);
    }
  }

  // ---------------------------------------------------------------- the base of a slug

  function Join(words: seq<string>): string {
    if words == [] then "" else if |words| == 1 then words[0] else words[0] + "-" + Join(words[1..])
  }

  function Stripped(s: string): string {
    if s != [] && s[|s| - 1] == '-' then Stripped(s[..|s| - 1]) else s
  }

  function Take<T>(s: seq<T>, n: nat): seq<T> { if |s| <= n then s else s[..n] }

  function Head(words: seq<string>): string { Stripped(Take(Join(Take(words, 5)), MAX_SLUG)) }

  function Base(words: seq<string>, ordinal: nat): string {
    if |Head(words)| < MIN_SLUG then "problem-" + Decimal(ordinal) else Head(words)
  }

  predicate Words(words: seq<string>) {
    forall i | 0 <= i < |words| :: words[i] != [] && forall j | 0 <= j < |words[i]| :: WordChar(words[i][j])
  }

  lemma {:induction false} JoinText(words: seq<string>)
    requires Words(words)
    ensures SlugText(Join(words))
  { if |words| > 1 { JoinText(words[1..]); } }

  lemma {:induction false} StrippedText(s: string)
    requires SlugText(s)
    ensures SlugText(Stripped(s)) && |Stripped(s)| <= |s|
  { if s != [] && s[|s| - 1] == '-' { StrippedText(s[..|s| - 1]); } }

  lemma BaseText(words: seq<string>, ordinal: nat)
    requires Words(words)
    ensures SlugText(Base(words, ordinal)) && |Base(words, ordinal)| >= MIN_SLUG
    ensures |Head(words)| >= MIN_SLUG ==> |Base(words, ordinal)| <= MAX_SLUG
  {
    hide Head, Decimal;
    HeadText(words);
    DecimalIs(ordinal);
  }

  lemma HeadText(words: seq<string>)
    requires Words(words)
    ensures SlugText(Head(words)) && |Head(words)| <= MAX_SLUG
  {
    hide Join, Stripped;
    JoinText(Take(words, 5));
    StrippedText(Take(Join(Take(words, 5)), MAX_SLUG));
  }

  // ---------------------------------------------------------------- the first free suffix

  function Suffixed(base: string, k: nat): string { base + "-" + Decimal(k) }

  lemma SuffixedApart(base: string, j: nat, k: nat)
    requires j != k
    ensures Suffixed(base, j) != Suffixed(base, k)
  {
    DecimalIs(j); DecimalIs(k);
    assert Suffixed(base, j)[|base| + 1..] == Decimal(j) && Suffixed(base, k)[|base| + 1..] == Decimal(k);
  }

  predicate FirstFree(base: string, taken: set<string>, k: nat) {
    k >= 2 && Suffixed(base, k) !in taken && forall j | 2 <= j < k :: Suffixed(base, j) in taken
  }

  /** As many taken names as suffixes tried: the search goes at most one past the number of taken names. */
  lemma {:induction false} SuffixesFill(base: string, taken: set<string>, k: nat)
    requires k >= 2 && forall j | 2 <= j < k :: Suffixed(base, j) in taken
    ensures k - 2 <= |taken|
    decreases k
  {
    if k > 2 {
      var last := Suffixed(base, k - 1);
      forall j | 2 <= j < k - 1 ensures Suffixed(base, j) in taken - {last} { SuffixedApart(base, j, k - 1); }
      SuffixesFill(base, taken - {last}, k - 1);
      assert |taken - {last}| == |taken| - 1;
    }
  }

  lemma {:induction false} FreeFrom(base: string, taken: set<string>, k: nat)
    requires k >= 2 && forall j | 2 <= j < k :: Suffixed(base, j) in taken
    ensures exists free | k <= free :: FirstFree(base, taken, free)
    decreases |taken| + 2 - k
  {
    SuffixesFill(base, taken, k);
    if Suffixed(base, k) in taken {
      SuffixesFill(base, taken, k + 1);
      FreeFrom(base, taken, k + 1);
    } else {
      assert FirstFree(base, taken, k);
    }
  }

  ghost function Free(base: string, taken: set<string>): (k: nat)
    ensures FirstFree(base, taken, k)
  {
    FreeFrom(base, taken, 2);
    var k: nat :| FirstFree(base, taken, k);
    k
  }

  ghost function NewSlug(words: seq<string>, taken: set<string>, ordinal: nat): (slug: string)
    ensures slug !in taken
  {
    var base := Base(words, ordinal);
    if base in taken then Suffixed(base, Free(base, taken)) else base
  }

  /** `make_slug`: the suffix search ends, no later than one past the number of slugs taken. */
  method MakeSlug(words: seq<string>, taken: set<string>, ordinal: nat) returns (slug: string)
    ensures slug == NewSlug(words, taken, ordinal)
  {
    var base := Base(words, ordinal);
    slug := base;
    if base in taken {
      var suffix := 2;
      ghost var free := Free(base, taken);
      while Suffixed(base, suffix) in taken
        invariant 2 <= suffix <= free
        decreases free - suffix
      {
        suffix := suffix + 1;
      }
      slug := Suffixed(base, suffix);
    }
  }

  /** A free base is the slug; a taken one gets the least suffix from 2 on that is free. */
  lemma NewSlugIs(words: seq<string>, taken: set<string>, ordinal: nat)
    ensures var base, slug := Base(words, ordinal), NewSlug(words, taken, ordinal);
      && (base !in taken ==> slug == base)
      && (base in taken ==>
            exists k :: 2 <= k && slug == base + "-" + Decimal(k) && slug !in taken
                        && forall j | 2 <= j < k :: base + "-" + Decimal(j) in taken)
  {
    var base := Base(words, ordinal);
    hide Base;
    if base in taken {
      var k := Free(base, taken);
      assert Suffixed(base, k) == base + "-" + Decimal(k);
      forall j | 2 <= j < k ensures base + "-" + Decimal(j) in taken { assert Suffixed(base, j) in taken; }
    }
  }

  /** A new slug fits the pattern that pre-assigned slugs must fit exactly when it is not too long, and only a
      suffix, or a position of more than 52 digits, makes it so. */
  lemma NewSlugMatches(words: seq<string>, taken: set<string>, ordinal: nat)
    requires Words(words)
    ensures var base := Base(words, ordinal);
      Matches(NewSlug(words, taken, ordinal)) <==>
        (if base in taken then |base| + 1 + |Decimal(Free(base, taken))| <= 60 else |base| <= 60)
  {
    var base, slug := Base(words, ordinal), NewSlug(words, taken, ordinal);
    BaseText(words, ordinal);
    if base in taken { DecimalIs(Free(base, taken)); }
    assert SlugText(slug) && |slug| >= MIN_SLUG;
    assert SlugChar(slug[|slug| - 1]);
  }

  /** A larger number has no fewer digits. */
  lemma {:induction false} MoreDigits(m: nat, n: nat)
    requires m <= n
    ensures |Decimal(m)| <= |Decimal(n)|
  {
    if m >= 10 { MoreDigits(m / 10, n / 10); }
    else { DecimalIs(n); }
  }

  /** What can be said before the search: with a base short enough for the number of slugs taken, the slug fits;
      with a taken base of 59 characters or more it never does. */
  lemma NewSlugBound(words: seq<string>, taken: set<string>, ordinal: nat)
    requires Words(words)
    ensures var base := Base(words, ordinal);
      (|base| + 1 + |Decimal(|taken| + 1)| <= 60 ==> Matches(NewSlug(words, taken, ordinal)))
      && (base in taken && |base| >= 59 ==> !Matches(NewSlug(words, taken, ordinal)))
  {
    var base := Base(words, ordinal);
    NewSlugMatches(words, taken, ordinal);
    if base in taken {
      var k := Free(base, taken);
      DecimalIs(k);
      OneMore(base, taken, k);
      MoreDigits(k, |taken| + 1);
    }
  }

  /** The base is one of the taken names, so the free suffix is at most one past their number. */
  lemma OneMore(base: string, taken: set<string>, k: nat)
    requires FirstFree(base, taken, k) && base in taken
    ensures k <= |taken| + 1
  {
    forall j | 2 <= j < k ensures Suffixed(base, j) in taken - {base} { assert |Suffixed(base, j)| > |base|; }
    SuffixesFill(base, taken - {base}, k);
    assert |taken - {base}| == |taken| - 1;
  }

  /** A second group whose statement starts with the same long words gets a slug outside the pattern. */
  lemma SuffixOverflows(word: string, ordinal: nat)
    requires Words([word]) && 59 <= |word| <= 60
    ensures !Matches(NewSlug([word], {word}, ordinal))
  {
    assert Take([word], 5) == [word] && Join([word]) == word && Take(word, MAX_SLUG) == word;
    assert WordChar(word[|word| - 1]);
    assert Base([word], ordinal) == word;
    NewSlugMatches([word], {word}, ordinal);
    DecimalIs(Free(word, {word}));
  }

  // ---------------------------------------------------------------- the pattern and the base, letter by letter

  predicate Lower(c: char) { 'a' <= c <= 'z' || '0' <= c <= '9' || c == '-' }

  /** Three to sixty small letters, digits and dashes, and perhaps one line break. */
  ghost predicate Fits(s: string) {
    exists body | body == s || body + "\n" == s :: 3 <= |body| <= 60 && forall i | 0 <= i < |body| :: Lower(body[i])
  }

  lemma PatternIs(s: string)
    ensures Matches(s) <==> Fits(s)
    ensures Fits(s) ==> s != ""
  {
    if Matches(s) {
      if Plain(s) { assert forall i | 0 <= i < |s| :: Lower(s[i]); }
      else {
        var body := s[..|s| - 1];
        assert body + "\n" == s && forall i | 0 <= i < |body| :: Lower(body[i]);
      }
    }
    if body :| (body == s || body + "\n" == s) && 3 <= |body| <= 60 && forall i | 0 <= i < |body| :: Lower(body[i]) {
      assert Plain(body);
      if body + "\n" == s { assert s[..|s| - 1] == body; }
    }
  }

  lemma {:induction false} StrippedIs(s: string)
    ensures Stripped(s) <= s && (forall i | |Stripped(s)| <= i < |s| :: s[i] == '-')
    ensures Stripped(s) == [] || Stripped(s)[|Stripped(s)| - 1] != '-'
  { if s != [] && s[|s| - 1] == '-' { StrippedIs(s[..|s| - 1]); } }

  /** The first words, as many as there are up to five, joined by dashes. */
  predicate JoinedFive(words: seq<string>, text: string) {
    match |words|
    case 0 => text == ""
    case 1 => text == words[0]
    case 2 => text == words[0] + "-" + words[1]
    case 3 => text == words[0] + "-" + (words[1] + "-" + words[2])
    case 4 => text == words[0] + "-" + (words[1] + "-" + (words[2] + "-" + words[3]))
    case _ => text == words[0] + "-" + (words[1] + "-" + (words[2] + "-" + (words[3] + "-" + words[4])))
  }

  lemma {:induction false} JoinTail(words: seq<string>, k: nat)
    requires k < |words|
    ensures Join(words[k..]) == if k == |words| - 1 then words[k] else words[k] + "-" + Join(words[k + 1..])
  { assert words[k..][1..] == words[k + 1..]; }

  lemma JoinIs(words: seq<string>)
    ensures JoinedFive(words, Join(Take(words, 5)))
  {
    var first := Take(words, 5);
    assert first[0..] == first;
    if |first| > 0 { JoinTail(first, 0); }
    if |first| > 1 { JoinTail(first, 1); }
    if |first| > 2 { JoinTail(first, 2); }
    if |first| > 3 { JoinTail(first, 3); }
    if |first| > 4 { JoinTail(first, 4); }
    hide Join;
  }

  /** The base of a slug: the first five words joined, cut at sixty letters, without the dashes that then end it; or
      the lesson's place when that leaves fewer than three. */
  lemma BaseIs(words: seq<string>, ordinal: nat) returns (text: string, cut: string)
    ensures JoinedFive(words, text) && cut == if |text| <= 60 then text else text[..60]
    ensures var head := Head(words);
      && head <= cut && (forall i | |head| <= i < |cut| :: cut[i] == '-') && (head == [] || head[|head| - 1] != '-')
      && Base(words, ordinal) == if |head| < 3 then "problem-" + Decimal(ordinal) else head
  {
    text := Join(Take(words, 5));
    cut := Take(text, MAX_SLUG);
    JoinIs(words);
    StrippedIs(cut);
    hide Join, Stripped, Decimal, JoinedFive;
  }
}
