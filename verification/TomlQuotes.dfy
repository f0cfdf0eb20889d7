/** Where a comment starts, told by how a line is quoted and not by how it is scanned (`_comment`, src/balance.py). */
module TomlQuotes {
  import opened Seqs
  import opened TomlComment

  /** A character inside double quotes: itself, or escaped. */
  datatype Inner = Plain(c: char) | Escaped(c: char)

  /** A piece of a line before its comment: unquoted text, text in double quotes, text in single quotes. */
  datatype Piece = Bare(text: string) | Basic(inner: seq<Inner>) | Literal(text: string)

  /** Unquoted text has no quote and no `#`; in double quotes a quote or a backslash is escaped; in single quotes there
      is no single quote, and nothing is escaped. */
  predicate Good(p: Piece) {
    match p
    case Bare(t) => forall i | 0 <= i < |t| :: t[i] != '"' && t[i] != '\'' && t[i] != '#'
    case Basic(xs) => forall i | 0 <= i < |xs| && xs[i].Plain? :: xs[i].c != '"' && xs[i].c != '\\'
    case Literal(t) => forall i | 0 <= i < |t| :: t[i] != '\''
  }

  function InnerText(xs: seq<Inner>): string {
    if xs == [] then "" else
    var x := xs[|xs| - 1];
    InnerText(xs[..|xs| - 1]) + if x.Plain? then [x.c] else ['\\', x.c]
  }

  function PieceText(p: Piece): string {
    match p
    case Bare(t) => t
    case Basic(xs) => ['"'] + InnerText(xs) + ['"']
    case Literal(t) => ['\''] + t + ['\'']
  }

  function LineText(ps: seq<Piece>): string {
    if ps == [] then "" else LineText(ps[..|ps| - 1]) + PieceText(ps[|ps| - 1])
  }

  const IN_LITERAL := Scanner(Some('\''), false, None)

  lemma {:induction false} ScanBare(a: string, t: string)
    requires Scan(a) == CLEAR && Good(Bare(t))
    ensures Scan(a + t) == CLEAR
  {
    hide Scan;
    if t == [] { assert a + t == a; }
    else {
      var init, c := t[..|t| - 1], t[|t| - 1];
      assert t == init + [c];
      ScanBare(a, init);
      ScanPush(a + init, c);
      assert a + init + [c] == a + t;
    }
  }

  lemma {:induction false} ScanLiteral(a: string, t: string)
    requires Scan(a) == IN_LITERAL && Good(Literal(t))
    ensures Scan(a + t) == IN_LITERAL
  {
    hide Scan;
    if t == [] { assert a + t == a; }
    else {
      var init, c := t[..|t| - 1], t[|t| - 1];
      assert t == init + [c];
      ScanLiteral(a, init);
      ScanPush(a + init, c);
      assert a + init + [c] == a + t;
    }
  }

  lemma {:induction false} ScanInner(a: string, xs: seq<Inner>)
    requires Scan(a) == IN_STRING && Good(Basic(xs))
    ensures Scan(a + InnerText(xs)) == IN_STRING
  {
    hide Scan;
    if xs == [] { assert a + InnerText(xs) == a; }
    else {
      var init, x := xs[..|xs| - 1], xs[|xs| - 1];
      var b := a + InnerText(init);
      ScanInner(a, init);
      InnerIs(a, xs);
      hide InnerText;
      if x.Plain? { ScanPush(b, x.c); } else { ScanEscaped(b, x.c); }
    }
  }

  lemma Assoc<T>(a: seq<T>, b: seq<T>, c: seq<T>)
    ensures a + (b + c) == a + b + c
  {}

  lemma InnerIs(a: string, xs: seq<Inner>)
    requires xs != []
    ensures var x := xs[|xs| - 1];
      a + InnerText(xs) == a + InnerText(xs[..|xs| - 1]) + if x.Plain? then [x.c] else ['\\', x.c]
  {
    var x := xs[|xs| - 1];
    Assoc(a, InnerText(xs[..|xs| - 1]), if x.Plain? then [x.c] else ['\\', x.c]);
  }

  lemma ScanPiece(a: string, p: Piece)
    requires Scan(a) == CLEAR && Good(p)
    ensures Scan(a + PieceText(p)) == CLEAR
  {
    hide Scan, InnerText;
    match p
    case Bare(t) => ScanBare(a, t);
    case Basic(xs) =>
      ScanPush(a, '"');
      ScanInner(a + ['"'], xs);
      ScanPush(a + ['"'] + InnerText(xs), '"');
      assert a + ['"'] + InnerText(xs) + ['"'] == a + PieceText(p);
    case Literal(t) =>
      ScanPush(a, '\'');
      ScanLiteral(a + ['\''], t);
      ScanPush(a + ['\''] + t, '\'');
      assert a + ['\''] + t + ['\''] == a + PieceText(p);
  }

  lemma {:induction false} ScanLine(ps: seq<Piece>)
    requires forall p | p in ps :: Good(p)
    ensures Scan(LineText(ps)) == CLEAR
  {
    hide PieceText, Good;
    if ps != [] {
      ScanLine(ps[..|ps| - 1]);
      assert ps[|ps| - 1] in ps;
      ScanPiece(LineText(ps[..|ps| - 1]), ps[|ps| - 1]);
    }
  }

  predicate Blanks(s: string) { forall i | 0 <= i < |s| :: s[i] == ' ' || s[i] == '\t' }

  predicate Ending(e: string) { e == "" || e == "\n" || e == "\r\n" }

  /** However a line is quoted, its comment starts with the blanks before the first `#` outside its quotes, and ends
      before the line break. */
  lemma CommentAfter(ps: seq<Piece>, blanks: string, rest: string, e: string)
    requires forall p | p in ps :: Good(p)
    requires var text := LineText(ps); text != "" && text[|text| - 1] != ' ' && text[|text| - 1] != '\t'
    requires Blanks(blanks) && Ending(e) && (rest != "" ==> rest[|rest| - 1] != '\n' && rest[|rest| - 1] != '\r')
    ensures Comment(LineText(ps) + (blanks + "#" + rest) + e) == blanks + "#" + rest
  {
    var text, c := LineText(ps), blanks + "#" + rest;
    ScanLine(ps);
    BlanksText(blanks, rest);
    assert Tight(text) && LineEnd(e) && c != "";
    hide Scan, Comment, LineText, CommentText, Tight, LineEnd;
    CommentFound(text, c, e);
  }

  lemma BlanksText(blanks: string, rest: string)
    requires Blanks(blanks) && (rest != "" ==> rest[|rest| - 1] != '\n' && rest[|rest| - 1] != '\r')
    ensures CommentText(blanks + "#" + rest)
  {
    var c := blanks + "#" + rest;
    assert c[|blanks|] == '#' && forall k | 0 <= k < |blanks| :: c[k] == blanks[k];
    assert rest == "" ==> c[|c| - 1] == '#';
  }

  /** A line without such a `#` has none. */
  lemma NoComment(ps: seq<Piece>, e: string)
    requires (forall p | p in ps :: Good(p)) && Ending(e)
    ensures Comment(LineText(ps) + e) == ""
  {
    ScanLine(ps);
    NoCommentAfter(LineText(ps), e);
  }
}
