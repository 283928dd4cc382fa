/**
 The `$filter` text a list query compiles to (apps/server/src/entity-list.ts, packages/b1/src/query.ts
 `andFilter` and `escapeLiteral`), read back with the precedence of OData Version 4.0 Part 2: URL Conventions,
 section 5.1.1.9: `and` binds tighter than `or`, parentheses bind tightest.
 */
module ODataFilter {
  import opened Options

  // ---- Reading: characters to tokens -----------------------------------------------------------------

  datatype Token = Open | Close | Comma | Word(text: string) | Quoted(value: string)

  predicate Delimits(c: char) {
    c == ' ' || c == '(' || c == ')' || c == ',' || c == '\''
  }

  /** A name, an operator or a bare literal: nothing in it ends it. */
  predicate IsWord(s: string) {
    s != "" && forall i :: 0 <= i < |s| ==> !Delimits(s[i])
  }

  function WordLength(s: string): (n: nat)
    ensures n <= |s|
    ensures forall i :: 0 <= i < n ==> !Delimits(s[i])
    ensures n < |s| ==> Delimits(s[n])
  {
    if s == "" || Delimits(s[0]) then 0 else 1 + WordLength(s[1..])
  }

  /** A quoted value from behind its opening quote: a doubled quote stands for one. */
  function ReadQuoted(s: string): (r: Option<(string, string)>)
    ensures r.Some? ==> |r.value.1| < |s|
  {
    if s == "" then None
    else if s[0] == '\'' && (|s| == 1 || s[1] != '\'') then Some(("", s[1..]))
    else
      var rest := if s[0] == '\'' then s[2..] else s[1..];
      match ReadQuoted(rest)
      case None => None
      case Some(x) => Some(([s[0]] + x.0, x.1))
  }

  /** The first token of a text and the text behind it; a blank is none. */
  function FirstToken(s: string): (r: Option<(seq<Token>, string)>)
    requires s != ""
    ensures r.Some? ==> |r.value.1| < |s|
  {
    if s[0] == ' ' then Some(([], s[1..]))
    else if s[0] == '(' then Some(([Open], s[1..]))
    else if s[0] == ')' then Some(([Close], s[1..]))
    else if s[0] == ',' then Some(([Comma], s[1..]))
    else if s[0] == '\'' then
      match ReadQuoted(s[1..])
      case None => None
      case Some(x) => Some(([Quoted(x.0)], x.1))
    else Some(([Word(s[..WordLength(s)])], s[WordLength(s)..]))
  }

  function Lex(s: string): Option<seq<Token>>
    decreases |s|
  {
    if s == "" then Some([])
    else
      match FirstToken(s)
      case None => None
      case Some(x) =>
        match Lex(x.1)
        case None => None
        case Some(rest) => Some(x.0 + rest)
  }

  // ---- Reading: tokens to an expression ----------------------------------------------------------------

  datatype Lit = Bare(text: string) | Text(value: string)

  datatype Atom = Compare(path: string, op: string, lit: Lit) | Call(fn: string, path: string, value: string)

  datatype Expr = Leaf(atom: Atom) | And(Expr, Expr) | Or(Expr, Expr)

  type Parsed = Option<(Expr, seq<Token>)>

  function ParsePrimary(t: seq<Token>): (r: Parsed)
    ensures r.Some? ==> |r.value.1| < |t|
    decreases |t|, 0
  {
    if |t| >= 2 && t[0].Open? then
      match ParseOr(t[1..])
      case None => None
      case Some(x) => if x.1 != [] && x.1[0].Close? then Some((x.0, x.1[1..])) else None
    else if |t| >= 6 && t[0].Word? && t[1].Open? && t[2].Word? && t[3].Comma? && t[4].Quoted? && t[5].Close? then
      Some((Leaf(Call(t[0].text, t[2].text, t[4].value)), t[6..]))
    else if |t| >= 3 && t[0].Word? && t[1].Word? && t[2].Word? then
      Some((Leaf(Compare(t[0].text, t[1].text, Bare(t[2].text))), t[3..]))
    else if |t| >= 3 && t[0].Word? && t[1].Word? && t[2].Quoted? then
      Some((Leaf(Compare(t[0].text, t[1].text, Text(t[2].value))), t[3..]))
    else None
  }

  function ParseAnd(t: seq<Token>): (r: Parsed)
    ensures r.Some? ==> |r.value.1| < |t|
    decreases |t|, 1
  {
    match ParsePrimary(t)
    case None => None
    case Some(x) => AndTail(x.0, x.1)
  }

  function AndTail(e: Expr, t: seq<Token>): (r: Parsed)
    ensures r.Some? ==> |r.value.1| <= |t|
    decreases |t|, 2
  {
    if t != [] && t[0] == Word("and") then
      match ParsePrimary(t[1..])
      case None => None
      case Some(x) => AndTail(And(e, x.0), x.1)
    else Some((e, t))
  }

  function ParseOr(t: seq<Token>): (r: Parsed)
    ensures r.Some? ==> |r.value.1| < |t|
    decreases |t|, 3
  {
    match ParseAnd(t)
    case None => None
    case Some(x) => OrTail(x.0, x.1)
  }

  function OrTail(e: Expr, t: seq<Token>): (r: Parsed)
    ensures r.Some? ==> |r.value.1| <= |t|
    decreases |t|, 4
  {
    if t != [] && t[0] == Word("or") then
      match ParseAnd(t[1..])
      case None => None
      case Some(x) => OrTail(Or(e, x.0), x.1)
    else Some((e, t))
  }

  /** A whole text, or nothing. */
  function Parse(s: string): Option<Expr> {
    match Lex(s)
    case None => None
    case Some(t) =>
      match ParseOr(t)
      case None => None
      case Some(x) => if x.1 == [] then Some(x.0) else None
  }

  /** Which rows an expression lets through, given what each atom does. */
  predicate Admits(e: Expr, holds: Atom -> bool) {
    match e
    case Leaf(a) => holds(a)
    case And(x, y) => Admits(x, holds) && Admits(y, holds)
    case Or(x, y) => Admits(x, holds) || Admits(y, holds)
  }

  // ---- Texts joined to texts -------------------------------------------------------------------------------

  /** A text that may follow any other without running into it. */
  predicate Apart(s: string) {
    s == "" || (Delimits(s[0]) && s[0] != '\'')
  }

  lemma {:induction false} ReadQuotedMore(a: string, b: string)
    requires ReadQuoted(a).Some? && Apart(b)
    ensures ReadQuoted(a + b) == Some((ReadQuoted(a).value.0, ReadQuoted(a).value.1 + b))
  {
    if a[0] == '\'' && (|a| == 1 || a[1] != '\'') {
      assert (a + b)[1..] == a[1..] + b;
      assert |a| == 1 && b != "" ==> (a + b)[1] == b[0];
    } else {
      var cut := if a[0] == '\'' then 2 else 1;
      assert (a + b)[cut..] == a[cut..] + b;
      ReadQuotedMore(a[cut..], b);
    }
  }

  lemma {:induction false} WordLengthIs(w: string, rest: string)
    requires (forall i :: 0 <= i < |w| ==> !Delimits(w[i])) && (rest == "" || Delimits(rest[0]))
    ensures WordLength(w + rest) == |w|
  {
    if w == "" {
      assert w + rest == rest;
    } else {
      assert (w + rest)[1..] == w[1..] + rest;
      WordLengthIs(w[1..], rest);
    }
  }

  lemma FirstTokenMore(a: string, b: string)
    requires a != "" && FirstToken(a).Some? && Apart(b)
    ensures FirstToken(a + b) == Some((FirstToken(a).value.0, FirstToken(a).value.1 + b))
  {
    assert (a + b)[1..] == a[1..] + b;
    if a[0] == '\'' {
      ReadQuotedMore(a[1..], b);
    } else if !Delimits(a[0]) {
      var n := WordLength(a);
      assert a + b == a[..n] + (a[n..] + b);
      assert a[n..] + b == "" || Delimits((a[n..] + b)[0]);
      WordLengthIs(a[..n], a[n..] + b);
      assert (a + b)[..n] == a[..n] && (a + b)[n..] == a[n..] + b;
    }
  }

  /** Joined texts read as their tokens joined. */
  lemma {:induction false} LexJoined(a: string, b: string)
    requires Lex(a).Some? && Lex(b).Some? && Apart(b)
    ensures Lex(a + b) == Some(Lex(a).value + Lex(b).value)
    decreases |a|
  {
    if a == "" {
      assert a + b == b;
      assert [] + Lex(b).value == Lex(b).value;
    } else {
      FirstTokenMore(a, b);
      var x := FirstToken(a).value;
      LexJoined(x.1, b);
      Assoc(x.0, Lex(x.1).value, Lex(b).value);
    }
  }

  /** What follows a parsed text does not change how it is read, unless it goes on from it. */
  predicate Stops(rest: seq<Token>) {
    rest == [] || rest[0] == Close
  }

  lemma {:induction false} PrimaryMore(t: seq<Token>, rest: seq<Token>)
    requires ParsePrimary(t).Some?
    ensures ParsePrimary(t + rest) == Some((ParsePrimary(t).value.0, ParsePrimary(t).value.1 + rest))
    decreases |t|, 0
  {
    if t[0].Open? {
      assert (t + rest)[1..] == t[1..] + rest;
      OrMoreThenClose(t[1..], rest);
      var left := ParseOr(t[1..]).value.1;
      assert (left + rest)[1..] == left[1..] + rest;
    } else if t[1].Open? {
      assert (t + rest)[6..] == t[6..] + rest;
    } else {
      assert (t + rest)[3..] == t[3..] + rest;
    }
  }

  lemma {:induction false} AndTailMore(e: Expr, t: seq<Token>, rest: seq<Token>)
    requires AndTail(e, t).Some? && (AndTail(e, t).value.1 == [] ==> Stops(rest))
    ensures AndTail(e, t + rest) == Some((AndTail(e, t).value.0, AndTail(e, t).value.1 + rest))
    decreases |t|, 2
  {
    if t != [] && t[0] == Word("and") {
      assert (t + rest)[1..] == t[1..] + rest;
      PrimaryMore(t[1..], rest);
      AndTailMore(And(e, ParsePrimary(t[1..]).value.0), ParsePrimary(t[1..]).value.1, rest);
    } else if t == [] {
      assert t + rest == rest;
    }
  }

  lemma {:induction false} AndMore(t: seq<Token>, rest: seq<Token>)
    requires ParseAnd(t).Some? && (ParseAnd(t).value.1 == [] ==> Stops(rest))
    ensures ParseAnd(t + rest) == Some((ParseAnd(t).value.0, ParseAnd(t).value.1 + rest))
    decreases |t|, 1
  {
    PrimaryMore(t, rest);
    AndTailMore(ParsePrimary(t).value.0, ParsePrimary(t).value.1, rest);
  }

  lemma {:induction false} OrTailMore(e: Expr, t: seq<Token>, rest: seq<Token>)
    requires OrTail(e, t).Some? && (OrTail(e, t).value.1 == [] ==> Stops(rest))
    ensures OrTail(e, t + rest) == Some((OrTail(e, t).value.0, OrTail(e, t).value.1 + rest))
    decreases |t|, 4
  {
    if t != [] && t[0] == Word("or") {
      assert (t + rest)[1..] == t[1..] + rest;
      AndMore(t[1..], rest);
      OrTailMore(Or(e, ParseAnd(t[1..]).value.0), ParseAnd(t[1..]).value.1, rest);
    } else if t == [] {
      assert t + rest == rest;
    }
  }

  lemma {:induction false} OrMore(t: seq<Token>, rest: seq<Token>)
    requires ParseOr(t).Some? && (ParseOr(t).value.1 == [] ==> Stops(rest))
    ensures ParseOr(t + rest) == Some((ParseOr(t).value.0, ParseOr(t).value.1 + rest))
    decreases |t|, 3
  {
    AndMore(t, rest);
    OrTailMore(ParseAnd(t).value.0, ParseAnd(t).value.1, rest);
  }

  /** Inside parentheses the closing one is there already. */
  lemma {:induction false} OrMoreThenClose(t: seq<Token>, rest: seq<Token>)
    requires ParseOr(t).Some? && ParseOr(t).value.1 != []
    ensures ParseOr(t + rest) == Some((ParseOr(t).value.0, ParseOr(t).value.1 + rest))
    decreases |t|, 5
  {
    OrMore(t, rest);
  }

  // ---- Texts and their tokens ------------------------------------------------------------------------------

  predicate Reads(s: string, t: seq<Token>) {
    Lex(s) == Some(t)
  }

  lemma ReadsMark(c: char, s: string, t: seq<Token>)
    requires Reads(s, t) && (c == '(' || c == ')' || c == ',')
    ensures Reads([c] + s, [if c == '(' then Open else if c == ')' then Close else Comma] + t)
  {
    assert ([c] + s)[1..] == s;
  }

  lemma ReadsBlank(s: string, t: seq<Token>)
    requires Reads(s, t)
    ensures Reads(" " + s, t)
  {
    assert (" " + s)[1..] == s;
    assert [] + t == t;
  }

  lemma ReadsWord(w: string, s: string, t: seq<Token>)
    requires IsWord(w) && Reads(s, t) && (s == "" || Delimits(s[0]))
    ensures Reads(w + s, [Word(w)] + t)
  {
    WordLengthIs(w, s);
    assert (w + s)[..|w|] == w && (w + s)[|w|..] == s;
  }

  /** `escapeLiteral`. */
  function Escape(v: string): string {
    if v == "" then ""
    else (if v[0] == '\'' then "''" else [v[0]]) + Escape(v[1..])
  }

  /** Whatever a value holds, its escaped form between quotes is read back as that value. */
  lemma {:induction false} ReadQuotedEscaped(v: string, rest: string)
    requires Apart(rest)
    ensures ReadQuoted(Escape(v) + "'" + rest) == Some((v, rest))
  {
    var s := Escape(v) + "'" + rest;
    if v == "" {
      assert s == "'" + rest && s[1..] == rest;
    } else {
      var more := Escape(v[1..]) + "'" + rest;
      ReadQuotedEscaped(v[1..], rest);
      if v[0] == '\'' {
        assert s == "''" + more && s[2..] == more;
      } else {
        assert s == [v[0]] + more && s[1..] == more;
      }
      assert v == [v[0]] + v[1..];
    }
  }

  lemma ReadsQuoted(v: string, s: string, t: seq<Token>)
    requires Reads(s, t) && Apart(s)
    ensures Reads("'" + Escape(v) + "'" + s, [Quoted(v)] + t)
  {
    var text := "'" + Escape(v) + "'" + s;
    assert text[1..] == Escape(v) + "'" + s;
    ReadQuotedEscaped(v, s);
  }

  // ---- Texts in pieces -----------------------------------------------------------------------------------------

  /** The pieces a filter text is put together from. `Raw` is any text that reads by itself. */
  datatype Piece = Mark(mark: char) | Gap | Name(text: string) | Quote(value: string) | Raw(whole: string)

  function PieceText(p: Piece): string {
    match p
    case Mark(c) => [c]
    case Gap => " "
    case Name(text) => text
    case Quote(value) => "'" + Escape(value) + "'"
    case Raw(whole) => whole
  }

  function PieceTokens(p: Piece): seq<Token>
    requires PieceOk(p)
  {
    match p
    case Mark(c) => [if c == '(' then Open else if c == ')' then Close else Comma]
    case Gap => []
    case Name(text) => [Word(text)]
    case Quote(value) => [Quoted(value)]
    case Raw(whole) => Lex(whole).value
  }

  predicate PieceOk(p: Piece) {
    match p
    case Mark(c) => c == '(' || c == ')' || c == ','
    case Gap => true
    case Name(text) => IsWord(text)
    case Quote(_) => true
    case Raw(whole) => Lex(whole).Some?
  }

  /** `q` right after `p` does not run into it. */
  predicate Follows(p: Piece, q: Piece) {
    match p
    case Name(_) => q.Mark? || q.Gap? || q.Quote?
    case Quote(_) => q.Mark? || q.Gap?
    case Raw(_) => q.Mark? || q.Gap?
    case _ => true
  }

  predicate PiecesOk(ps: seq<Piece>) {
    ps == [] || (PieceOk(ps[0]) && (|ps| > 1 ==> Follows(ps[0], ps[1])) && PiecesOk(ps[1..]))
  }

  function Render(ps: seq<Piece>): string {
    if ps == [] then "" else PieceText(ps[0]) + Render(ps[1..])
  }

  function Tokens(ps: seq<Piece>): seq<Token>
    requires PiecesOk(ps)
  {
    if ps == [] then [] else PieceTokens(ps[0]) + Tokens(ps[1..])
  }

  lemma RenderStart(ps: seq<Piece>)
    requires PiecesOk(ps)
    ensures ps == [] ==> Render(ps) == ""
    ensures ps != [] && (ps[0].Mark? || ps[0].Gap?) ==>
        Render(ps) != "" && Delimits(Render(ps)[0]) && Render(ps)[0] != '\''
    ensures ps != [] && ps[0].Quote? ==> Render(ps) != "" && Delimits(Render(ps)[0])
  {
  }

  lemma {:induction false} PieceRead(p: Piece, s: string, t: seq<Token>)
    requires PieceOk(p) && Reads(s, t)
    requires p.Name? ==> s == "" || Delimits(s[0])
    requires p.Quote? || p.Raw? ==> Apart(s)
    ensures Reads(PieceText(p) + s, PieceTokens(p) + t)
  {
    match p
    case Mark(c) => ReadsMark(c, s, t);
    case Gap => ReadsBlank(s, t); assert [] + t == t;
    case Name(text) => ReadsWord(text, s, t);
    case Quote(value) => ReadsQuoted(value, s, t);
    case Raw(whole) => LexJoined(whole, s);
  }

  /** Pieces that do not run into each other are read one by one. */
  lemma {:induction false} PiecesRead(ps: seq<Piece>)
    requires PiecesOk(ps)
    ensures Reads(Render(ps), Tokens(ps))
  {
    if ps != [] {
      PiecesRead(ps[1..]);
      RenderStart(ps[1..]);
      PieceRead(ps[0], Render(ps[1..]), Tokens(ps[1..]));
    }
  }

  /** One more piece in front. */
  lemma OneMore(p: Piece, ps: seq<Piece>)
    ensures Render([p] + ps) == PieceText(p) + Render(ps)
    ensures PieceOk(p) && PiecesOk(ps) && (ps != [] ==> Follows(p, ps[0])) ==>
              PiecesOk([p] + ps) && Tokens([p] + ps) == PieceTokens(p) + Tokens(ps)
  {
    assert ([p] + ps)[1..] == ps;
    if ps != [] { assert ([p] + ps)[1] == ps[0]; }
  }

  lemma OnePiece(p: Piece)
    ensures Render([p]) == PieceText(p)
    ensures PieceOk(p) ==> PiecesOk([p]) && Tokens([p]) == PieceTokens(p)
  {
    assert [p][1..] == [];
    assert PieceText(p) + "" == PieceText(p);
    if PieceOk(p) { assert PieceTokens(p) + [] == PieceTokens(p); }
  }

  lemma Assoc<T>(a: seq<T>, b: seq<T>, c: seq<T>)
    ensures (a + b) + c == a + (b + c)
  {
  }

  lemma {:induction false} RenderJoined(a: seq<Piece>, b: seq<Piece>)
    ensures Render(a + b) == Render(a) + Render(b)
  {
    if a == [] {
      assert a + b == b;
    } else {
      assert a + b == [a[0]] + (a[1..] + b) && a == [a[0]] + a[1..];
      RenderJoined(a[1..], b);
      OneMore(a[0], a[1..] + b);
      Assoc(PieceText(a[0]), Render(a[1..]), Render(b));
    }
  }

  lemma {:induction false} TokensJoined(a: seq<Piece>, b: seq<Piece>)
    requires PiecesOk(a) && PiecesOk(b) && (a != [] && b != [] ==> Follows(a[|a| - 1], b[0]))
    ensures PiecesOk(a + b) && Tokens(a + b) == Tokens(a) + Tokens(b)
  {
    if a == [] {
      assert a + b == b;
    } else {
      assert a + b == [a[0]] + (a[1..] + b);
      TokensJoined(a[1..], b);
      OneMore(a[0], a[1..] + b);
      Assoc(PieceTokens(a[0]), Tokens(a[1..]), Tokens(b));
    }
  }

  // ---- Atoms ---------------------------------------------------------------------------------------------------

  function LitText(l: Lit): string {
    match l
    case Bare(text) => text
    case Text(value) => "'" + Escape(value) + "'"
  }

  function AtomText(a: Atom): string {
    match a
    case Compare(path, op, lit) => path + " " + op + " " + LitText(lit)
    case Call(fn, path, value) => fn + "(" + path + "," + LitText(Text(value)) + ")"
  }

  function LitPiece(l: Lit): Piece {
    if l.Bare? then Name(l.text) else Quote(l.value)
  }

  function AtomPieces(a: Atom): seq<Piece> {
    match a
    case Compare(path, op, lit) => [Name(path)] + ([Gap] + ([Name(op)] + ([Gap] + [LitPiece(lit)])))
    case Call(fn, path, value) =>
      [Name(fn)] + ([Mark('(')] + ([Name(path)] + ([Mark(',')] + ([Quote(value)] + [Mark(')')]))))
  }

  function AtomTokens(a: Atom): seq<Token> {
    match a
    case Compare(path, op, lit) => [Word(path), Word(op), if lit.Bare? then Word(lit.text) else Quoted(lit.value)]
    case Call(fn, path, value) => [Word(fn), Open, Word(path), Comma, Quoted(value), Close]
  }

  predicate AtomOk(a: Atom) {
    match a
    case Compare(path, op, lit) => IsWord(path) && IsWord(op) && (lit.Bare? ==> IsWord(lit.text))
    case Call(fn, path, _) => IsWord(fn) && IsWord(path)
  }

  lemma ComparePieces(path: string, op: string, lit: Lit)
    ensures Render(AtomPieces(Compare(path, op, lit))) == path + (" " + (op + (" " + LitText(lit))))
    ensures AtomOk(Compare(path, op, lit)) ==>
              PiecesOk(AtomPieces(Compare(path, op, lit)))
                  && Tokens(AtomPieces(Compare(path, op, lit))) == AtomTokens(Compare(path, op, lit))
  {
    OnePiece(LitPiece(lit));
    OneMore(Gap, [LitPiece(lit)]);
    OneMore(Name(op), [Gap] + [LitPiece(lit)]);
    OneMore(Gap, [Name(op)] + ([Gap] + [LitPiece(lit)]));
    OneMore(Name(path), [Gap] + ([Name(op)] + ([Gap] + [LitPiece(lit)])));
  }

  lemma CallPieces(fn: string, path: string, value: string)
    ensures Render(AtomPieces(Call(fn, path, value))) == fn + ("(" + (path + ("," + (LitText(Text(value)) + ")"))))
    ensures AtomOk(Call(fn, path, value)) ==>
              PiecesOk(AtomPieces(Call(fn, path, value)))
                  && Tokens(AtomPieces(Call(fn, path, value))) == AtomTokens(Call(fn, path, value))
  {
    OnePiece(Mark(')'));
    OneMore(Quote(value), [Mark(')')]);
    OneMore(Mark(','), [Quote(value)] + [Mark(')')]);
    OneMore(Name(path), [Mark(',')] + ([Quote(value)] + [Mark(')')]));
    OneMore(Mark('('), [Name(path)] + ([Mark(',')] + ([Quote(value)] + [Mark(')')])));
    OneMore(Name(fn), [Mark('(')] + ([Name(path)] + ([Mark(',')] + ([Quote(value)] + [Mark(')')]))));
  }

  lemma AtomIsPieces(a: Atom)
    ensures Render(AtomPieces(a)) == AtomText(a)
    ensures AtomOk(a) ==> PiecesOk(AtomPieces(a)) && Tokens(AtomPieces(a)) == AtomTokens(a)
  {
    match a
    case Compare(path, op, lit) => ComparePieces(path, op, lit);
    case Call(fn, path, value) => CallPieces(fn, path, value);
  }

  lemma AtomParses(a: Atom, t: seq<Token>)
    ensures ParsePrimary(AtomTokens(a) + t) == Some((Leaf(a), t))
  {
    var all := AtomTokens(a) + t;
    if a.Call? { assert all[6..] == t; } else { assert all[3..] == t; }
  }

  // ---- Alternatives ----------------------------------------------------------------------------------------------

  /** `join(" or ")`. */
  function OrText(atoms: seq<Atom>): string
    requires atoms != []
  {
    if |atoms| == 1 then AtomText(atoms[0]) else AtomText(atoms[0]) + (" or " + OrText(atoms[1..]))
  }

  const OR := [Gap] + ([Name("or")] + [Gap])

  function OrPieces(atoms: seq<Atom>): seq<Piece>
    requires atoms != []
  {
    if |atoms| == 1 then AtomPieces(atoms[0]) else AtomPieces(atoms[0]) + (OR + OrPieces(atoms[1..]))
  }

  function OrTokens(atoms: seq<Atom>): seq<Token>
    requires atoms != []
  {
    if |atoms| == 1 then AtomTokens(atoms[0]) else AtomTokens(atoms[0]) + ([Word("or")] + OrTokens(atoms[1..]))
  }

  function OrFrom(e: Expr, atoms: seq<Atom>): Expr
    decreases atoms
  {
    if atoms == [] then e else OrFrom(Or(e, Leaf(atoms[0])), atoms[1..])
  }

  function AnyOf(atoms: seq<Atom>): Expr
    requires atoms != []
  {
    OrFrom(Leaf(atoms[0]), atoms[1..])
  }

  lemma GapWordGap(w: string)
    requires IsWord(w)
    ensures Render([Gap] + ([Name(w)] + [Gap])) == " " + (w + " ")
    ensures PiecesOk([Gap] + ([Name(w)] + [Gap])) && Tokens([Gap] + ([Name(w)] + [Gap])) == [Word(w)]
  {
    OnePiece(Gap);
    OneMore(Name(w), [Gap]);
    OneMore(Gap, [Name(w)] + [Gap]);
  }

  lemma {:induction false} OrIsPieces(atoms: seq<Atom>)
    requires atoms != []
    ensures Render(OrPieces(atoms)) == OrText(atoms)
  {
    AtomIsPieces(atoms[0]);
    if |atoms| > 1 {
      OrIsPieces(atoms[1..]);
      GapWordGap("or");
      RenderJoined(OR, OrPieces(atoms[1..]));
      RenderJoined(AtomPieces(atoms[0]), OR + OrPieces(atoms[1..]));
      assert " " + ("or" + " ") == " or ";
    }
  }

  lemma {:induction false} OrPiecesOk(atoms: seq<Atom>)
    requires atoms != [] && forall i :: 0 <= i < |atoms| ==> AtomOk(atoms[i])
    ensures PiecesOk(OrPieces(atoms)) && Tokens(OrPieces(atoms)) == OrTokens(atoms) && OrPieces(atoms) != []
  {
    AtomIsPieces(atoms[0]);
    if |atoms| > 1 {
      OrPiecesOk(atoms[1..]);
      GapWordGap("or");
      TokensJoined(OR, OrPieces(atoms[1..]));
      TokensJoined(AtomPieces(atoms[0]), OR + OrPieces(atoms[1..]));
    }
  }

  lemma OrReads(atoms: seq<Atom>)
    requires atoms != [] && forall i :: 0 <= i < |atoms| ==> AtomOk(atoms[i])
    ensures Reads(OrText(atoms), OrTokens(atoms))
  {
    OrPiecesOk(atoms);
    OrIsPieces(atoms);
    PiecesRead(OrPieces(atoms));
  }

  /** The first atom is a whole `and` level. */
  lemma FirstOfOr(atoms: seq<Atom>) returns (rest: seq<Token>)
    requires atoms != []
    ensures rest == if |atoms| == 1 then [] else [Word("or")] + OrTokens(atoms[1..])
    ensures ParseAnd(OrTokens(atoms)) == Some((Leaf(atoms[0]), rest))
  {
    rest := if |atoms| == 1 then [] else [Word("or")] + OrTokens(atoms[1..]);
    assert AtomTokens(atoms[0]) + [] == AtomTokens(atoms[0]);
    assert OrTokens(atoms) == AtomTokens(atoms[0]) + rest;
    AtomParses(atoms[0], rest);
    assert AndTail(Leaf(atoms[0]), rest) == Some((Leaf(atoms[0]), rest));
  }

  lemma {:induction false} OrTailParses(e: Expr, atoms: seq<Atom>)
    requires atoms != []
    ensures OrTail(e, [Word("or")] + OrTokens(atoms)) == Some((OrFrom(e, atoms), []))
    decreases atoms
  {
    var t := [Word("or")] + OrTokens(atoms);
    assert t[1..] == OrTokens(atoms);
    var rest := FirstOfOr(atoms);
    if |atoms| > 1 { OrTailParses(Or(e, Leaf(atoms[0])), atoms[1..]); }
  }

  lemma OrTokensParse(atoms: seq<Atom>)
    requires atoms != []
    ensures ParseOr(OrTokens(atoms)) == Some((AnyOf(atoms), []))
  {
    var rest := FirstOfOr(atoms);
    if |atoms| > 1 { OrTailParses(Leaf(atoms[0]), atoms[1..]); }
  }

  lemma ParsedText(s: string, t: seq<Token>, e: Expr)
    requires Reads(s, t) && ParseOr(t) == Some((e, []))
    ensures Parse(s) == Some(e)
  {
  }

  lemma OrParses(atoms: seq<Atom>)
    requires atoms != [] && forall i :: 0 <= i < |atoms| ==> AtomOk(atoms[i])
    ensures Parse(OrText(atoms)) == Some(AnyOf(atoms))
  {
    OrReads(atoms);
    OrTokensParse(atoms);
    ParsedText(OrText(atoms), OrTokens(atoms), AnyOf(atoms));
  }

  lemma {:induction false} AnyOfAdmits(e: Expr, atoms: seq<Atom>, holds: Atom -> bool)
    ensures Admits(OrFrom(e, atoms), holds) <==> Admits(e, holds) || exists i :: 0 <= i < |atoms| && holds(atoms[i])
    decreases atoms
  {
    if atoms != [] {
      AnyOfAdmits(Or(e, Leaf(atoms[0])), atoms[1..], holds);
      assert forall i :: 0 <= i < |atoms[1..]| ==> atoms[1..][i] == atoms[i + 1];
      if i :| 0 < i < |atoms| && holds(atoms[i]) { assert holds(atoms[1..][i - 1]); }
    }
  }

  // ---- A clause added to a filter -----------------------------------------------------------------------------------

  predicate Blank(s: string) {
    forall i :: 0 <= i < |s| ==> s[i] == ' '
  }

  /** `andFilter`: both sides keep their own meaning in parentheses. */
  function AndFilter(base: Option<string>, extra: string): string {
    if base.Some? && !Blank(base.value) then "(" + base.value + ") and (" + extra + ")" else extra
  }

  lemma {:induction false} BlankReadsNothing(s: string)
    requires Blank(s)
    ensures Lex(s) == Some([])
  {
    if s != "" {
      BlankReadsNothing(s[1..]);
      var none: seq<Token> := [];
      assert none + none == none;
    }
  }

  function Wrapped(a: string): seq<Piece> {
    [Mark('(')] + ([Raw(a)] + [Mark(')')])
  }

  const AND := [Gap] + ([Name("and")] + [Gap])

  lemma WrappedReads(a: string)
    ensures Render(Wrapped(a)) == "(" + (a + ")")
    ensures Lex(a).Some? ==> PiecesOk(Wrapped(a)) && Tokens(Wrapped(a)) == [Open] + (Lex(a).value + [Close])
  {
    OnePiece(Mark(')'));
    OneMore(Raw(a), [Mark(')')]);
    OneMore(Mark('('), [Raw(a)] + [Mark(')')]);
  }

  lemma AndTextIs(a: string, b: string)
    ensures Render(Wrapped(a) + (AND + Wrapped(b))) == "(" + a + ") and (" + b + ")"
  {
    WrappedReads(a);
    WrappedReads(b);
    GapWordGap("and");
    RenderJoined(AND, Wrapped(b));
    RenderJoined(Wrapped(a), AND + Wrapped(b));
    AndTextJoins(a, b);
  }

  lemma AndTextJoins(a: string, b: string)
    ensures ("(" + (a + ")")) + ((" " + ("and" + " ")) + ("(" + (b + ")"))) == "(" + a + ") and (" + b + ")"
  {
    assert ")" + ((" " + ("and" + " ")) + "(") == ") and (";
  }

  lemma BothRead(a: string, b: string)
    requires Lex(a).Some? && Lex(b).Some?
    ensures Reads("(" + a + ") and (" + b + ")",
        ([Open] + (Lex(a).value + [Close])) + ([Word("and")] + ([Open] + (Lex(b).value + [Close]))))
  {
    WrappedReads(a);
    WrappedReads(b);
    GapWordGap("and");
    TokensJoined(AND, Wrapped(b));
    TokensJoined(Wrapped(a), AND + Wrapped(b));
    PiecesRead(Wrapped(a) + (AND + Wrapped(b)));
    AndTextIs(a, b);
  }

  lemma ParenthesesParse(t: seq<Token>, e: Expr, rest: seq<Token>)
    requires ParseOr(t) == Some((e, []))
    ensures ParsePrimary(([Open] + (t + [Close])) + rest) == Some((e, rest))
  {
    var all := ([Open] + (t + [Close])) + rest;
    assert all[1..] == t + ([Close] + rest);
    OrMore(t, [Close] + rest);
    assert [] + ([Close] + rest) == [Close] + rest;
    assert ([Close] + rest)[1..] == rest;
  }

  lemma BothParse(ta: seq<Token>, x: Expr, tb: seq<Token>, y: Expr)
    requires ParseOr(ta) == Some((x, [])) && ParseOr(tb) == Some((y, []))
    ensures ParseOr(([Open] + (ta + [Close])) + ([Word("and")] + ([Open] + (tb + [Close])))) == Some((And(x, y), []))
  {
    var right := [Open] + (tb + [Close]);
    ParenthesesParse(ta, x, [Word("and")] + right);
    ParenthesesParse(tb, y, []);
    assert right + [] == right;
    assert ([Word("and")] + right)[1..] == right;
    assert AndTail(x, [Word("and")] + right) == Some((And(x, y), []));
  }

  /** Any clause that is a filter by itself is ANDed whole, whatever is in either side. */
  lemma AndFilterParses(base: string, extra: string)
    requires Parse(base).Some? && Parse(extra).Some?
    ensures Parse(AndFilter(Some(base), extra)) == Some(And(Parse(base).value, Parse(extra).value))
  {
    if Blank(base) { BlankReadsNothing(base); }
    BothRead(base, extra);
    BothParse(Lex(base).value, Parse(base).value, Lex(extra).value, Parse(extra).value);
  }

  // ---- Conditions -----------------------------------------------------------------------------------------

  datatype Op = Eq | Ne | Gt | Ge | Lt | Le | Contains | StartsWith | In
  datatype Value = Chars(s: string) | Number(printed: string) | Flag(on: bool)
  datatype Arg = One(value: Value) | Many(values: seq<Value>)
  datatype Cond = Cond(field: string, op: Op, arg: Arg)

  /** `yesNo`: the column's wire values are tYES and tNO. */
  datatype Kind = NumberKind | BooleanKind(yesNo: bool) | DateKind | TimeKind | OtherKind

  /** `number`: what JavaScript prints for a text read as a number, if that is finite. */
  datatype World = World(number: string -> Option<string>)

  ghost predicate WorldOk(w: World) {
    forall s :: w.number(s).Some? ==> IsWord(w.number(s).value)
  }

  function Printed(v: Value): string {
    match v
    case Chars(s) => s
    case Number(p) => p
    case Flag(on) => if on then "true" else "false"
  }

  function PrintedAll(vs: seq<Value>): string {
    if vs == [] then "" else if |vs| == 1 then Printed(vs[0]) else Printed(vs[0]) + "," + PrintedAll(vs[1..])
  }

  function PrintedArg(a: Arg): string {
    match a case One(v) => Printed(v) case Many(vs) => PrintedAll(vs)
  }

  predicate Digits(s: string, from: nat, n: nat) {
    from + n <= |s| && forall i :: from <= i < from + n ==> '0' <= s[i] <= '9'
  }

  predicate Zone(s: string) {
    s == "" || s == "Z"
        || (|s| == 6 && (s[0] == '+' || s[0] == '-') && Digits(s, 1, 2) && s[3] == ':' && Digits(s, 4, 2))
  }

  predicate Fraction(s: string) {
    Zone(s) || (|s| >= 2 && s[0] == '.' && exists n :: 1 <= n < |s| && Digits(s, 1, n) && Zone(s[n + 1..]))
  }

  predicate DateTail(s: string) {
    s == ""
    || (|s| >= 6 && s[0] == 'T' && Digits(s, 1, 2) && s[3] == ':' && Digits(s, 4, 2)
        && (Zone(s[6..]) || (|s| >= 9 && s[6] == ':' && Digits(s, 7, 2) && Fraction(s[9..]))))
  }

  /** The DATE pattern. */
  predicate IsDate(s: string) {
    |s| >= 10 && Digits(s, 0, 4) && s[4] == '-' && Digits(s, 5, 2) && s[7] == '-' && Digits(s, 8, 2)
        && DateTail(s[10..])
  }

  /** The TIME pattern. */
  predicate IsTime(s: string) {
    |s| >= 5 && Digits(s, 0, 2) && s[2] == ':' && Digits(s, 3, 2)
    && (|s| == 5 || (|s| == 8 && s[5] == ':' && Digits(s, 6, 2)))
  }

  predicate IsOn(v: Value) {
    v == Flag(true) || v == Chars("true") || v == Chars("tYES")
  }

  /** `literal`: the text, or None where it throws. */
  function Literal(w: World, k: Kind, v: Value): Option<string> {
    match k
    case NumberKind => if v.Flag? then None else w.number(Printed(v))
    case BooleanKind(yesNo) =>
      Some(if yesNo then (if IsOn(v) then "'tYES'" else "'tNO'") else if IsOn(v) then "true" else "false")
    case DateKind => if IsDate(Printed(v)) then Some("'" + Printed(v) + "'") else None
    case TimeKind => if IsTime(Printed(v)) then Some(Printed(v)) else None
    case OtherKind => Some("'" + Escape(Printed(v)) + "'")
  }

  /** What the literal is to mean: the value itself, whatever characters it holds. */
  function LitOf(w: World, k: Kind, v: Value): Option<Lit> {
    match k
    case NumberKind => if v.Flag? || w.number(Printed(v)).None? then None else Some(Bare(w.number(Printed(v)).value))
    case BooleanKind(yesNo) =>
      Some(if yesNo then Text(if IsOn(v) then "tYES" else "tNO") else Bare(if IsOn(v) then "true" else "false"))
    case DateKind => if IsDate(Printed(v)) then Some(Text(Printed(v))) else None
    case TimeKind => if IsTime(Printed(v)) then Some(Bare(Printed(v))) else None
    case OtherKind => Some(Text(Printed(v)))
  }

  predicate NoQuote(s: string) {
    forall i :: 0 <= i < |s| ==> s[i] != '\''
  }

  lemma {:induction false} EscapesToItself(s: string)
    requires NoQuote(s)
    ensures Escape(s) == s
  {
    if s != "" {
      assert NoQuote(s[1..]) by { assert forall i :: 0 <= i < |s[1..]| ==> s[1..][i] == s[i + 1]; }
      EscapesToItself(s[1..]);
      assert s == [s[0]] + s[1..];
    }
  }

  lemma ZoneNoQuote(s: string)
    requires Zone(s)
    ensures NoQuote(s)
  {
    if |s| == 6 { assert s[1] != '\'' && s[2] != '\'' && s[4] != '\'' && s[5] != '\''; }
  }

  lemma FractionNoQuote(s: string)
    requires Fraction(s)
    ensures NoQuote(s)
  {
    if Zone(s) {
      ZoneNoQuote(s);
    } else {
      var n :| 1 <= n < |s| && Digits(s, 1, n) && Zone(s[n + 1..]);
      ZoneNoQuote(s[n + 1..]);
      forall i | 0 <= i < |s| ensures s[i] != '\'' { if i > n { assert s[n + 1..][i - n - 1] == s[i]; } }
    }
  }

  /** A date holds no quote, so it needs no escaping. */
  lemma DateNoQuote(s: string)
    requires IsDate(s)
    ensures NoQuote(s)
  {
    var z := s[10..];
    if z != "" {
      if Zone(z[6..]) { ZoneNoQuote(z[6..]); } else { FractionNoQuote(z[9..]); }
      var n := if Zone(z[6..]) then 6 else 9;
      forall i | 0 <= i < |z| ensures z[i] != '\'' { if i >= n { assert z[n..][i - n] == z[i]; } }
    }
    forall i | 0 <= i < |s| ensures s[i] != '\'' { if i >= 10 { assert z[i - 10] == s[i]; } }
  }

  lemma DateQuotes(s: string)
    requires IsDate(s)
    ensures "'" + s + "'" == LitText(Text(s))
  {
    DateNoQuote(s);
    EscapesToItself(s);
  }

  lemma TimeIsWord(s: string)
    requires IsTime(s)
    ensures IsWord(s)
  {
  }

  lemma YesNoQuotes()
    ensures LitText(Text("tYES")) == "'tYES'" && LitText(Text("tNO")) == "'tNO'"
  {
    EscapesToItself("tYES");
    EscapesToItself("tNO");
    assert "'" + "tYES" + "'" == "'tYES'" && "'" + "tNO" + "'" == "'tNO'";
  }

  /** A literal's text and what it means, if it is not refused. */
  ghost predicate Means(text: Option<string>, l: Option<Lit>) {
    match l
    case None => text.None?
    case Some(x) => text == Some(LitText(x)) && (x.Bare? ==> IsWord(x.text))
  }

  lemma BooleanMeans(w: World, yesNo: bool, v: Value)
    ensures Means(Literal(w, BooleanKind(yesNo), v), LitOf(w, BooleanKind(yesNo), v))
  {
    if yesNo { YesNoQuotes(); }
  }

  lemma LiteralMeans(w: World, k: Kind, v: Value)
    requires WorldOk(w)
    ensures Means(Literal(w, k, v), LitOf(w, k, v))
  {
    var s := Printed(v);
    match k {
      case DateKind => if IsDate(s) { DateQuotes(s); }
      case TimeKind => if IsTime(s) { TimeIsWord(s); }
      case BooleanKind(yesNo) => BooleanMeans(w, yesNo, v);
      case NumberKind =>
      case OtherKind =>
    }
  }

  function OpText(op: Op): string {
    match op
    case Eq => "eq" case Ne => "ne" case Gt => "gt" case Ge => "ge" case Lt => "lt" case Le => "le"
    case Contains => "contains" case StartsWith => "startswith" case In => "in"
  }

  function ValuesOf(a: Arg): seq<Value> {
    match a case One(v) => [v] case Many(vs) => vs
  }

  /** `values.map(...).join(" or ")`; None where a literal throws. */
  function EqText(w: World, k: Kind, path: string, vs: seq<Value>): Option<string>
    requires vs != []
  {
    match Literal(w, k, vs[0])
    case None => None
    case Some(l) =>
      var first := path + " eq " + l;
      if |vs| == 1 then Some(first)
      else
        match EqText(w, k, path, vs[1..])
        case None => None
        case Some(rest) => Some(first + (" or " + rest))
  }

  /** `condition`. */
  function Condition(w: World, c: Cond, k: Kind, path: string): Option<string> {
    if c.op.Contains? || c.op.StartsWith? then Some(OpText(c.op) + "(" + path + ",'" + Escape(PrintedArg(c.arg)) + "')")
    else if c.op.In? then
      var vs := ValuesOf(c.arg);
      if vs == [] then Some("1 eq 0") else EqText(w, k, path, vs)
    else if c.arg.Many? then None
    else
      match Literal(w, k, c.arg.value)
      case None => None
      case Some(l) => Some(path + " " + OpText(c.op) + " " + l)
  }

  /** The comparison `in` makes for each of its values. */
  function EqAtoms(w: World, k: Kind, path: string, vs: seq<Value>): (r: Option<seq<Atom>>)
    ensures r.Some? ==> |r.value| == |vs|
  {
    if vs == [] then Some([])
    else
      var l, rest := LitOf(w, k, vs[0]), EqAtoms(w, k, path, vs[1..]);
      if l.None? || rest.None? then None else Some([Compare(path, "eq", l.value)] + rest.value)
  }

  /** What a condition asks: any of these atoms. None where it is refused. */
  function Asks(w: World, c: Cond, k: Kind, path: string): (r: Option<seq<Atom>>)
    ensures r.Some? ==> r.value != []
  {
    if c.op.Contains? || c.op.StartsWith? then Some([Call(OpText(c.op), path, PrintedArg(c.arg))])
    else if c.op.In? then
      (if ValuesOf(c.arg) == [] then Some([Compare("1", "eq", Bare("0"))]) else EqAtoms(w, k, path, ValuesOf(c.arg)))
    else if c.arg.Many? || LitOf(w, k, c.arg.value).None? then None
    else Some([Compare(path, OpText(c.op), LitOf(w, k, c.arg.value).value)])
  }

  /** A text says what is asked, or neither is there. */
  ghost predicate Says(text: Option<string>, asks: Option<seq<Atom>>) {
    match asks
    case None => text.None?
    case Some(atoms) =>
      && atoms != [] && text.Some? && text.value == OrText(atoms)
      && (forall i :: 0 <= i < |atoms| ==> AtomOk(atoms[i]))
  }

  lemma OneSays(a: Atom)
    requires AtomOk(a)
    ensures Says(Some(AtomText(a)), Some([a]))
  {
  }

  lemma {:induction false} EqSays(w: World, k: Kind, path: string, vs: seq<Value>)
    requires WorldOk(w) && IsWord(path) && vs != []
    ensures Says(EqText(w, k, path, vs), EqAtoms(w, k, path, vs))
  {
    LiteralMeans(w, k, vs[0]);
    if LitOf(w, k, vs[0]).Some? {
      var first := Compare(path, "eq", LitOf(w, k, vs[0]).value);
      assert AtomText(first) == path + " eq " + Literal(w, k, vs[0]).value;
      if |vs| > 1 {
        EqSays(w, k, path, vs[1..]);
        if EqAtoms(w, k, path, vs[1..]).Some? {
          var rest := EqAtoms(w, k, path, vs[1..]).value;
          assert ([first] + rest)[1..] == rest;
        }
      } else {
        assert EqAtoms(w, k, path, vs[1..]) == Some([]);
        assert [first] + [] == [first];
        OneSays(first);
      }
    }
  }

  lemma CallSays(fn: string, path: string, value: string)
    requires IsWord(fn) && IsWord(path)
    ensures Says(Some(fn + "(" + path + ",'" + Escape(value) + "')"), Some([Call(fn, path, value)]))
  {
    CallText(fn + "(" + path, Escape(value));
    OneSays(Call(fn, path, value));
  }

  lemma CallText(opening: string, escaped: string)
    ensures opening + "," + ("'" + escaped + "'") + ")" == opening + ",'" + escaped + "')"
  {
  }

  lemma NothingSays()
    ensures Says(Some("1 eq 0"), Some([Compare("1", "eq", Bare("0"))]))
  {
    assert AtomText(Compare("1", "eq", Bare("0"))) == "1 eq 0";
    OneSays(Compare("1", "eq", Bare("0")));
  }

  lemma OpIsWord(op: Op)
    ensures IsWord(OpText(op))
  {
  }

  lemma CompareSays(w: World, k: Kind, path: string, op: Op, v: Value)
    requires WorldOk(w) && IsWord(path) && Literal(w, k, v).Some?
    ensures LitOf(w, k, v).Some?
    ensures Says(Some(path + " " + OpText(op) + " " + Literal(w, k, v).value),
        Some([Compare(path, OpText(op), LitOf(w, k, v).value)]))
  {
    LiteralMeans(w, k, v);
    OpIsWord(op);
    OneSays(Compare(path, OpText(op), LitOf(w, k, v).value));
  }

  lemma ConditionSays(w: World, c: Cond, k: Kind, path: string)
    requires WorldOk(w) && IsWord(path)
    ensures Says(Condition(w, c, k, path), Asks(w, c, k, path))
  {
    if c.op.Contains? || c.op.StartsWith? {
      OpIsWord(c.op);
      CallSays(OpText(c.op), path, PrintedArg(c.arg));
    } else if c.op.In? {
      if ValuesOf(c.arg) != [] { EqSays(w, k, path, ValuesOf(c.arg)); } else { NothingSays(); }
    } else if c.arg.One? {
      LiteralMeans(w, k, c.arg.value);
      if Literal(w, k, c.arg.value).Some? { CompareSays(w, k, path, c.op, c.arg.value); }
    }
  }

  /** A condition's text is read back as exactly what it asks; it is refused exactly when that cannot be said. */
  lemma ConditionParses(w: World, c: Cond, k: Kind, path: string)
    requires WorldOk(w) && IsWord(path)
    ensures Condition(w, c, k, path).Some? <==> Asks(w, c, k, path).Some?
    ensures Asks(w, c, k, path).Some? ==>
              && Asks(w, c, k, path).value != []
              && Parse(Condition(w, c, k, path).value) == Some(AnyOf(Asks(w, c, k, path).value))
  {
    ConditionSays(w, c, k, path);
    if Asks(w, c, k, path).Some? { OrParses(Asks(w, c, k, path).value); }
  }

  // ---- Whole filters --------------------------------------------------------------------------------------

  type Fields = map<string, Kind>

  /** `undefined` where there is nothing to filter. */
  datatype Compiled = Refused | Filter(text: Option<string>)

  /** A column as the Service Layer calls it; a crossjoin prefixes the set. */
  datatype Paths = Paths(of: string -> string)

  /** The clause of one condition; None where it throws. */
  function FieldText(w: World, fields: Fields, c: Cond, paths: Paths): Option<string> {
    if c.field in fields then Condition(w, c, fields[c.field], paths.of(c.field)) else None
  }

  /** `compileFilter`, condition by condition. */
  function Compile(w: World, fields: Fields, conds: seq<Cond>, paths: Paths): Compiled {
    if conds == [] then Filter(None)
    else
      var before, text := Compile(w, fields, conds[..|conds| - 1], paths),
          FieldText(w, fields, conds[|conds| - 1], paths);
      if before.Refused? || text.None? then Refused else Filter(Some(AndFilter(before.text, text.value)))
  }

  lemma CompileNext(w: World, fields: Fields, conds: seq<Cond>, n: nat, paths: Paths)
    requires n < |conds| && Compile(w, fields, conds[..n], paths).Filter?
    ensures var text := FieldText(w, fields, conds[n], paths);
            Compile(w, fields, conds[..n + 1], paths)
              == if text.None? then Refused
                 else Filter(Some(AndFilter(Compile(w, fields, conds[..n], paths).text, text.value)))
  {
    assert conds[..n + 1][..n] == conds[..n];
  }

  /** The loop of `compileFilter`. */
  method CompileFilter(w: World, fields: Fields, filter: seq<Cond>, paths: Paths) returns (r: Compiled)
    ensures r == Compile(w, fields, filter, paths)
  {
    var out: Option<string> := None;
    var n := 0;
    while n < |filter|
      invariant n <= |filter| && Compile(w, fields, filter[..n], paths) == Filter(out)
    {
      CompileNext(w, fields, filter, n, paths);
      var text := FieldText(w, fields, filter[n], paths);
      if text.None? {
        RefusedStays(w, fields, filter, n + 1, paths);
        return Refused;
      }
      out := Some(AndFilter(out, text.value));
      n := n + 1;
    }
    assert filter[..|filter|] == filter;
    return Filter(out);
  }

  lemma {:induction false} RefusedStays(w: World, fields: Fields, conds: seq<Cond>, n: nat, paths: Paths)
    requires n <= |conds| && Compile(w, fields, conds[..n], paths).Refused?
    ensures Compile(w, fields, conds, paths).Refused?
    decreases |conds|
  {
    if n == |conds| {
      assert conds[..n] == conds;
    } else {
      assert conds[..|conds| - 1][..n] == conds[..n];
      RefusedStays(w, fields, conds[..|conds| - 1], n, paths);
    }
  }

  /** What the field of a condition asks; None where it is refused. */
  function FieldAsks(w: World, fields: Fields, c: Cond, paths: Paths): (r: Option<seq<Atom>>)
    ensures r.Some? ==> r.value != []
  {
    if c.field in fields then Asks(w, c, fields[c.field], paths.of(c.field)) else None
  }

  ghost predicate Sayable(w: World, fields: Fields, conds: seq<Cond>, paths: Paths) {
    forall i :: 0 <= i < |conds| ==> FieldAsks(w, fields, conds[i], paths).Some?
  }

  /** The conjunction the conditions stand for. */
  ghost function Conjunction(w: World, fields: Fields, conds: seq<Cond>, paths: Paths): Expr
    requires conds != [] && Sayable(w, fields, conds, paths)
  {
    var last := AnyOf(FieldAsks(w, fields, conds[|conds| - 1], paths).value);
    if |conds| == 1 then last else And(Conjunction(w, fields, conds[..|conds| - 1], paths), last)
  }

  ghost predicate PathsOk(fields: Fields, paths: Paths) {
    forall f :: f in fields ==> IsWord(paths.of(f))
  }

  lemma FieldParses(w: World, fields: Fields, c: Cond, paths: Paths)
    requires WorldOk(w) && PathsOk(fields, paths)
    ensures FieldText(w, fields, c, paths).Some? <==> FieldAsks(w, fields, c, paths).Some?
    ensures FieldText(w, fields, c, paths).Some? ==>
              Parse(FieldText(w, fields, c, paths).value) == Some(AnyOf(FieldAsks(w, fields, c, paths).value))
  {
    if c.field in fields { ConditionParses(w, c, fields[c.field], paths.of(c.field)); }
  }

  lemma SayableMore(w: World, fields: Fields, conds: seq<Cond>, paths: Paths)
    requires conds != []
    ensures Sayable(w, fields, conds, paths) <==>
              Sayable(w, fields, conds[..|conds| - 1], paths) && FieldAsks(w, fields, conds[|conds| - 1], paths).Some?
  {
    var before := conds[..|conds| - 1];
    assert forall i :: 0 <= i < |before| ==> before[i] == conds[i];
  }

  /**
   The compiled text, read with OData's precedence, is the conjunction of the conditions, each with its own
   field, operator and values, for values of any characters. It is refused exactly when some condition is.
   */
  lemma {:induction false} FilterParses(w: World, fields: Fields, conds: seq<Cond>, paths: Paths)
    requires WorldOk(w) && PathsOk(fields, paths)
    ensures Compile(w, fields, conds, paths).Filter? <==> Sayable(w, fields, conds, paths)
    ensures Sayable(w, fields, conds, paths) && conds == [] ==> Compile(w, fields, conds, paths) == Filter(None)
    ensures Sayable(w, fields, conds, paths) && conds != [] ==>
              && Compile(w, fields, conds, paths).text.Some?
              && Parse(Compile(w, fields, conds, paths).text.value) == Some(Conjunction(w, fields, conds, paths))
  {
    if conds != [] {
      var before, c := conds[..|conds| - 1], conds[|conds| - 1];
      FilterParses(w, fields, before, paths);
      FieldParses(w, fields, c, paths);
      SayableMore(w, fields, conds, paths);
      if Sayable(w, fields, conds, paths) {
        var text := FieldText(w, fields, c, paths).value;
        if before != [] { AndFilterParses(Compile(w, fields, before, paths).text.value, text); }
      }
    }
  }

  /** A row passes the conjunction exactly when it passes one of the atoms of every condition. */
  lemma {:induction false} ConjunctionAdmits(w: World, fields: Fields, conds: seq<Cond>, paths: Paths,
                                             holds: Atom -> bool)
    requires conds != [] && Sayable(w, fields, conds, paths)
    ensures Admits(Conjunction(w, fields, conds, paths), holds) <==>
              forall i :: 0 <= i < |conds| ==> exists a :: a in FieldAsks(w, fields, conds[i], paths).value && holds(a)
  {
    var before, c := conds[..|conds| - 1], conds[|conds| - 1];
    var atoms := FieldAsks(w, fields, c, paths).value;
    AnyOfAdmits(Leaf(atoms[0]), atoms[1..], holds);
    AnyOfIn(atoms, holds);
    if |conds| > 1 {
      assert forall i :: 0 <= i < |before| ==> before[i] == conds[i];
      ConjunctionAdmits(w, fields, before, paths, holds);
    }
  }

  lemma AnyOfIn(atoms: seq<Atom>, holds: Atom -> bool)
    requires atoms != []
    ensures (exists a :: a in atoms && holds(a)) <==>
              holds(atoms[0]) || exists i :: 0 <= i < |atoms[1..]| && holds(atoms[1..][i])
  {
    if a :| a in atoms && holds(a) && a != atoms[0] {
      var i :| 0 <= i < |atoms| && atoms[i] == a;
      assert atoms[1..][i - 1] == a;
    }
    if i :| 0 <= i < |atoms[1..]| && holds(atoms[1..][i]) { assert atoms[1..][i] in atoms; }
  }

  // ---- Fences, search and joins ---------------------------------------------------------------------------

  /** A fence ANDed after compilation admits only what both admit, whatever the caller's values hold. */
  lemma FenceIntersects(w: World, fields: Fields, conds: seq<Cond>, paths: Paths, fence: string, holds: Atom -> bool)
    requires WorldOk(w) && PathsOk(fields, paths) && Sayable(w, fields, conds, paths) && Parse(fence).Some?
    ensures Compile(w, fields, conds, paths).Filter?
    ensures var r := Parse(AndFilter(Compile(w, fields, conds, paths).text, fence));
            && r.Some?
            && (Admits(r.value, holds) <==>
                  (conds == [] || Admits(Conjunction(w, fields, conds, paths), holds))
                      && Admits(Parse(fence).value, holds))
  {
    FilterParses(w, fields, conds, paths);
    if conds != [] { AndFilterParses(Compile(w, fields, conds, paths).text.value, fence); }
  }

  function SearchAtoms(fn: string, columns: seq<string>, q: string): seq<Atom> {
    seq(|columns|, i requires 0 <= i < |columns| => Call(fn, columns[i], q))
  }

  /** The filter of `compileList`: the conditions, and a free-text search over string columns if there are any. */
  function ListFilter(base: Option<string>, fn: string, columns: seq<string>, q: string): Option<string> {
    if q == "" || columns == [] then base else Some(AndFilter(base, OrText(SearchAtoms(fn, columns, q))))
  }

  /** Searching narrows the list to rows with `q` in one of the columns, for any text `q`. */
  lemma SearchNarrows(base: Option<string>, fn: string, columns: seq<string>, q: string, holds: Atom -> bool)
    requires q != "" && columns != [] && IsWord(fn) && (forall i :: 0 <= i < |columns| ==> IsWord(columns[i]))
    requires base.Some? ==> Parse(base.value).Some?
    ensures ListFilter(base, fn, columns, q).Some? && Parse(ListFilter(base, fn, columns, q).value).Some?
    ensures Admits(Parse(ListFilter(base, fn, columns, q).value).value, holds) <==>
              && (base.Some? ==> Admits(Parse(base.value).value, holds))
              && exists c :: c in columns && holds(Call(fn, c, q))
  {
    var atoms := SearchAtoms(fn, columns, q);
    OrParses(atoms);
    if base.Some? { AndFilterParses(base.value, OrText(atoms)); }
    AnyOfAdmits(Leaf(atoms[0]), atoms[1..], holds);
    AnyOfIn(atoms, holds);
    if a :| a in atoms && holds(a) {
      var i :| 0 <= i < |atoms| && atoms[i] == a;
      assert columns[i] in columns;
    }
    if c :| c in columns && holds(Call(fn, c, q)) {
      var i :| 0 <= i < |columns| && columns[i] == c;
      assert atoms[i] in atoms;
    }
  }

  /** `linesOf`: the crossjoin's own equality, then the conditions in parentheses. */
  function JoinFilter(set_: string, own: Option<string>): string {
    var join := set_ + "/DocEntry eq " + set_ + "/DocumentLines/DocEntry";
    if own.Some? && own.value != "" then join + " and (" + own.value + ")" else join
  }

  function JoinAtom(set_: string): Atom {
    Compare(set_ + "/DocEntry", "eq", Bare(set_ + "/DocumentLines/DocEntry"))
  }

  lemma JoinParses(set_: string, own: string)
    requires IsWord(set_) && Parse(own).Some?
    ensures Parse(JoinFilter(set_, Some(own))) == Some(And(Leaf(JoinAtom(set_)), Parse(own).value))
  {
    var a := JoinAtom(set_);
    JoinAtomOk(set_);
    AtomIsPieces(a);
    WrappedReads(own);
    GapWordGap("and");
    TokensJoined(AND, Wrapped(own));
    TokensJoined(AtomPieces(a), AND + Wrapped(own));
    PiecesRead(AtomPieces(a) + (AND + Wrapped(own)));
    JoinTextIs(set_, own);
    JoinTokensParse(a, Lex(own).value, Parse(own).value);
    ParsedText(JoinFilter(set_, Some(own)), AtomTokens(a) + ([Word("and")] + ([Open] + (Lex(own).value + [Close]))),
        And(Leaf(a), Parse(own).value));
  }

  lemma JoinAtomOk(set_: string)
    requires IsWord(set_)
    ensures AtomOk(JoinAtom(set_))
  {
  }

  lemma ParsedIsNotEmpty(s: string)
    ensures Parse(s).Some? ==> s != ""
  {
    assert Parse("").None?;
  }

  lemma JoinTextJoins(set_: string, own: string)
    ensures set_ + "/DocEntry" + " " + "eq" + " " + (set_ + "/DocumentLines/DocEntry")
              == set_ + "/DocEntry eq " + set_ + "/DocumentLines/DocEntry"
    ensures (" " + ("and" + " ")) + ("(" + (own + ")")) == " and (" + own + ")"
  {
    assert "/DocEntry" + " " + "eq" + " " == "/DocEntry eq ";
    assert (" " + ("and" + " ")) + "(" == " and (";
  }

  lemma JoinTextIs(set_: string, own: string)
    requires Parse(own).Some?
    ensures Render(AtomPieces(JoinAtom(set_)) + (AND + Wrapped(own))) == JoinFilter(set_, Some(own))
  {
    var a := JoinAtom(set_);
    ParsedIsNotEmpty(own);
    JoinTextJoins(set_, own);
    AtomIsPieces(a);
    WrappedReads(own);
    GapWordGap("and");
    RenderJoined(AND, Wrapped(own));
    RenderJoined(AtomPieces(a), AND + Wrapped(own));
    var join := set_ + "/DocEntry eq " + set_ + "/DocumentLines/DocEntry";
    assert join + (" and (" + own + ")") == join + " and (" + own + ")";
  }

  lemma JoinTokensParse(a: Atom, t: seq<Token>, e: Expr)
    requires ParseOr(t) == Some((e, []))
    ensures ParseOr(AtomTokens(a) + ([Word("and")] + ([Open] + (t + [Close])))) == Some((And(Leaf(a), e), []))
  {
    var right := [Open] + (t + [Close]);
    AtomParses(a, [Word("and")] + right);
    ParenthesesParse(t, e, []);
    assert right + [] == right;
    assert ([Word("and")] + right)[1..] == right;
    assert AndTail(Leaf(a), [Word("and")] + right) == Some((And(Leaf(a), e), []));
  }
}
