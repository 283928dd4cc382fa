/**
 What a list query asks of a row, condition by condition (apps/server/src/entity-list.ts), and that the `$filter`
 text it compiles to asks the Service Layer for exactly those rows. The comparisons and functions are those of
 OData Version 4.0 Part 2: URL Conventions, sections 5.1.1.1 and 5.1.1.4.
 */
module ListMeaning {
  import opened Options
  import opened ODataFilter

  // ---- The Service Layer's side: a text's atoms on a row --------------------------------------------------

  /** How the content of one column stands to a literal or a text. */
  datatype Cell = Cell(equals: Lit -> bool, below: Lit -> bool, above: Lit -> bool,
                       includes: string -> bool, begins: string -> bool)

  type Row = string -> Cell

  /** A bare 1 is the number, not a column. */
  predicate AtomHolds(row: Row, a: Atom) {
    match a
    case Compare(path, op, lit) =>
      if path == "1" then op == "eq" && lit == Bare("1")
      else if op == "eq" then row(path).equals(lit)
      else if op == "ne" then !row(path).equals(lit)
      else if op == "gt" then row(path).above(lit)
      else if op == "ge" then row(path).above(lit) || row(path).equals(lit)
      else if op == "lt" then row(path).below(lit)
      else op == "le" && (row(path).below(lit) || row(path).equals(lit))
    case Call(fn, path, value) =>
      if fn == "contains" then row(path).includes(value) else fn == "startswith" && row(path).begins(value)
  }

  // ---- The list's side: what a condition asks -------------------------------------------------------------

  predicate IsValue(a: Arg, v: Value) {
    match a case One(x) => v == x case Many(vs) => v in vs
  }

  /** A value as text. */
  predicate Spelled(v: Value, s: string) {
    v == Chars(s) || v == Number(s) || (v == Flag(true) && s == "true") || (v == Flag(false) && s == "false")
  }

  predicate SpelledAll(vs: seq<Value>, s: string) {
    if vs == [] then s == ""
    else if |vs| == 1 then Spelled(vs[0], s)
    else exists n :: 0 <= n < |s| && s[n] == ',' && Spelled(vs[0], s[..n]) && SpelledAll(vs[1..], s[n + 1..])
  }

  predicate SpelledArg(a: Arg, s: string) {
    match a case One(v) => Spelled(v, s) case Many(vs) => SpelledAll(vs, s)
  }

  /** In a form, 0 stands for any digit and every other character for itself. */
  predicate Fits(s: string, form: string) {
    |s| == |form| && forall i :: 0 <= i < |s| ==> if form[i] == '0' then '0' <= s[i] <= '9' else s[i] == form[i]
  }

  predicate AllDigits(s: string) {
    forall i :: 0 <= i < |s| ==> '0' <= s[i] <= '9'
  }

  predicate ClockForm(s: string) {
    || Fits(s, "T00:00")
    || Fits(s, "T00:00:00")
    || (|s| > 10 && Fits(s[..10], "T00:00:00.") && AllDigits(s[10..]))
  }

  predicate ZoneForm(s: string) {
    s == "" || s == "Z" || Fits(s, "+00:00") || Fits(s, "-00:00")
  }

  predicate TimedForm(s: string) {
    exists n :: 0 < n <= |s| && ClockForm(s[..n]) && ZoneForm(s[n..])
  }

  /** A day, or a day and a time of day to the minute, the second or a fraction of it, with or without a zone. */
  predicate DateForm(s: string) {
    && |s| >= 10
    && Fits(s[..10], "0000-00-00")
    && (|s| == 10 || TimedForm(s[10..]))
  }

  predicate TimeForm(s: string) {
    Fits(s, "00:00") || Fits(s, "00:00:00")
  }

  /** The literal a column of this kind is compared with when the condition's value is `v`. */
  ghost predicate StandsFor(w: World, k: Kind, v: Value, l: Lit) {
    match k
    case NumberKind => !v.Flag? && l.Bare? && exists s :: Spelled(v, s) && w.number(s) == Some(l.text)
    case BooleanKind(yesNo) =>
      if v in {Flag(true), Chars("true"), Chars("tYES")} then l == if yesNo then Text("tYES") else Bare("true")
      else l == if yesNo then Text("tNO") else Bare("false")
    case DateKind => l.Text? && Spelled(v, l.value) && DateForm(l.value)
    case TimeKind => l.Bare? && Spelled(v, l.text) && TimeForm(l.text)
    case OtherKind => l.Text? && Spelled(v, l.value)
  }

  /** Nothing a column of this kind can be compared with. */
  ghost predicate Unfit(w: World, k: Kind, v: Value) {
    forall l :: !StandsFor(w, k, v, l)
  }

  predicate Compares(op: Op, cell: Cell, l: Lit) {
    match op
    case Eq | In => cell.equals(l)
    case Ne => !cell.equals(l)
    case Gt => cell.above(l)
    case Ge => cell.above(l) || cell.equals(l)
    case Lt => cell.below(l)
    case Le => cell.below(l) || cell.equals(l)
    case Contains | StartsWith => false
  }

  /** The condition holds of a cell. */
  ghost predicate Meets(w: World, k: Kind, c: Cond, cell: Cell) {
    match c.op
    case Contains => exists s :: SpelledArg(c.arg, s) && cell.includes(s)
    case StartsWith => exists s :: SpelledArg(c.arg, s) && cell.begins(s)
    case _ => exists v, l :: IsValue(c.arg, v) && StandsFor(w, k, v, l) && Compares(c.op, cell, l)
  }

  /** No comparison can be made: a list where one value is needed, or a value the column cannot hold. */
  ghost predicate Senseless(w: World, k: Kind, c: Cond) {
    && !c.op.Contains? && !c.op.StartsWith?
    && ((!c.op.In? && c.arg.Many?) || exists v :: IsValue(c.arg, v) && Unfit(w, k, v))
  }

  ghost predicate Unasked(w: World, fields: Fields, c: Cond) {
    c.field !in fields || Senseless(w, fields[c.field], c)
  }

  ghost predicate MeetsIn(w: World, fields: Fields, c: Cond, paths: Paths, row: Row) {
    c.field in fields && Meets(w, fields[c.field], c, row(paths.of(c.field)))
  }

  // ---- Texts, dates and times -----------------------------------------------------------------------------

  lemma PrintedSpells(v: Value, s: string)
    ensures Spelled(v, s) <==> s == Printed(v)
  {
  }

  lemma {:induction false} PrintedIsSpelled(vs: seq<Value>)
    ensures SpelledAll(vs, PrintedAll(vs))
  {
    if |vs| > 1 {
      PrintedIsSpelled(vs[1..]);
      CommaSplits(Printed(vs[0]), PrintedAll(vs[1..]));
    }
  }

  lemma CommaSplits(a: string, b: string)
    ensures var s, n := a + "," + b, |a|; s[n] == ',' && s[..n] == a && s[n + 1..] == b
  {
  }

  lemma CommaJoins(s: string, n: nat)
    requires n < |s| && s[n] == ','
    ensures s == s[..n] + "," + s[n + 1..]
  {
  }

  lemma {:induction false} SpelledIsPrinted(vs: seq<Value>, s: string)
    requires SpelledAll(vs, s)
    ensures s == PrintedAll(vs)
  {
    if |vs| > 1 {
      var n :| 0 <= n < |s| && s[n] == ',' && Spelled(vs[0], s[..n]) && SpelledAll(vs[1..], s[n + 1..]);
      SpelledIsPrinted(vs[1..], s[n + 1..]);
      PrintedSpells(vs[0], s[..n]);
      CommaJoins(s, n);
    }
  }

  lemma ArgSpells(a: Arg, s: string)
    ensures SpelledArg(a, s) <==> s == PrintedArg(a)
  {
    if a.Many? {
      PrintedIsSpelled(a.values);
      if SpelledAll(a.values, s) { SpelledIsPrinted(a.values, s); }
    }
  }

  lemma TimeFits(s: string)
    ensures IsTime(s) <==> TimeForm(s)
  {
    if IsTime(s) { assert Fits(s, "00:00") || Fits(s, "00:00:00"); }
  }

  lemma ZoneFits(s: string)
    ensures Zone(s) <==> ZoneForm(s)
  {
    if |s| == 6 && Zone(s) { assert Fits(s, "+00:00") || Fits(s, "-00:00"); }
  }

  lemma MinuteFits(t: string)
    requires |t| >= 6
    ensures Fits(t[..6], "T00:00") <==> t[0] == 'T' && Digits(t, 1, 2) && t[3] == ':' && Digits(t, 4, 2)
  {
    if Fits(t[..6], "T00:00") { assert forall i :: 0 <= i < 6 ==> t[..6][i] == t[i]; }
  }

  lemma SecondFits(t: string)
    requires |t| >= 9
    ensures Fits(t[..9], "T00:00:00") <==> Fits(t[..6], "T00:00") && t[6] == ':' && Digits(t, 7, 2)
  {
    MinuteFits(t);
    if Fits(t[..9], "T00:00:00") { assert forall i :: 0 <= i < 9 ==> t[..9][i] == t[i]; }
  }

  lemma PointFits(t: string)
    requires |t| >= 10
    ensures Fits(t[..10], "T00:00:00.") <==> Fits(t[..9], "T00:00:00") && t[9] == '.'
  {
    assert t[..9] == t[..10][..9];
    if Fits(t[..9], "T00:00:00") { assert forall i :: 0 <= i < 9 ==> t[..9][i] == t[..10][i]; }
    if Fits(t[..10], "T00:00:00.") { assert forall i :: 0 <= i < 10 ==> t[..10][i] == t[i]; }
  }

  lemma ClockFits(t: string, n: nat)
    requires n <= |t|
    ensures ClockForm(t[..n]) <==>
              || (n == 6 && Fits(t[..6], "T00:00"))
              || (n == 9 && Fits(t[..9], "T00:00:00"))
              || (n > 10 && Fits(t[..9], "T00:00:00") && t[9] == '.' && Digits(t, 10, n - 10))
  {
    if n > 10 {
      assert t[..n][..10] == t[..10];
      PointFits(t);
      assert forall i :: 10 <= i < n ==> t[..n][10..][i - 10] == t[i];
    }
  }

  lemma FractionFits(t: string)
    requires |t| >= 9 && Fits(t[..9], "T00:00:00")
    ensures Fraction(t[9..]) ==> TimedForm(t)
  {
    var f := t[9..];
    ZoneFits(f);
    if Zone(f) {
      ClockFits(t, 9);
    } else if Fraction(f) {
      var k :| 1 <= k < |f| && Digits(f, 1, k) && Zone(f[k + 1..]);
      assert t[9] == f[0] && forall i :: 1 <= i < 1 + k ==> t[9 + i] == f[i];
      assert forall i :: 10 <= i < 10 + k ==> t[i] == f[i - 9];
      ClockFits(t, 10 + k);
      assert f[k + 1..] == t[10 + k..];
      ZoneFits(t[10 + k..]);
    }
  }

  lemma TailIsTimed(t: string)
    requires t != "" && DateTail(t)
    ensures TimedForm(t)
  {
    MinuteFits(t);
    if Zone(t[6..]) {
      ClockFits(t, 6);
      ZoneFits(t[6..]);
    } else {
      SecondFits(t);
      FractionFits(t);
    }
  }

  lemma TimedIsTail(t: string)
    requires TimedForm(t)
    ensures t != "" && DateTail(t)
  {
    var n :| 0 < n <= |t| && ClockForm(t[..n]) && ZoneForm(t[n..]);
    ClockFits(t, n);
    ZoneFits(t[n..]);
    MinuteFits(t);
    if n == 9 {
      SecondFits(t);
      assert Fraction(t[9..]);
    } else if n > 10 {
      SecondFits(t);
      var f, k := t[9..], n - 10;
      assert forall i :: 1 <= i < 1 + k ==> f[i] == t[9 + i];
      assert Digits(f, 1, k) && f[k + 1..] == t[n..];
      assert Fraction(f);
    }
  }

  lemma DayFits(s: string)
    requires |s| >= 10
    ensures Fits(s[..10], "0000-00-00") <==>
              Digits(s, 0, 4) && s[4] == '-' && Digits(s, 5, 2) && s[7] == '-' && Digits(s, 8, 2)
  {
    if Fits(s[..10], "0000-00-00") { assert forall i :: 0 <= i < 10 ==> s[..10][i] == s[i]; }
  }

  /** The pattern a date value is held to. */
  lemma DateFits(s: string)
    ensures IsDate(s) <==> DateForm(s)
  {
    if |s| >= 10 {
      DayFits(s);
      if |s| > 10 {
        if DateTail(s[10..]) { TailIsTimed(s[10..]); }
        if TimedForm(s[10..]) { TimedIsTail(s[10..]); }
      }
    }
  }

  // ---- Literals and conditions ----------------------------------------------------------------------------

  lemma LiteralStands(w: World, k: Kind, v: Value, l: Lit)
    ensures StandsFor(w, k, v, l) <==> LitOf(w, k, v) == Some(l)
  {
    var s := Printed(v);
    PrintedSpells(v, s);
    if l.Bare? { PrintedSpells(v, l.text); } else { PrintedSpells(v, l.value); }
    match k {
      case DateKind => DateFits(s);
      case TimeKind => TimeFits(s);
      case NumberKind =>
      case BooleanKind(yesNo) =>
      case OtherKind =>
    }
  }

  lemma UnfitHasNoLiteral(w: World, k: Kind, v: Value)
    ensures Unfit(w, k, v) <==> LitOf(w, k, v).None?
  {
    if LitOf(w, k, v).Some? {
      LiteralStands(w, k, v, LitOf(w, k, v).value);
    } else {
      forall l ensures !StandsFor(w, k, v, l) { LiteralStands(w, k, v, l); }
    }
  }

  /** One of the values is what the cell holds. */
  ghost predicate AnyEquals(w: World, k: Kind, vs: seq<Value>, cell: Cell) {
    exists v, l :: v in vs && StandsFor(w, k, v, l) && cell.equals(l)
  }

  ghost predicate AnyUnfit(w: World, k: Kind, vs: seq<Value>) {
    exists v :: v in vs && Unfit(w, k, v)
  }

  lemma AnyEqualsMore(w: World, k: Kind, vs: seq<Value>, cell: Cell)
    requires vs != [] && LitOf(w, k, vs[0]).Some?
    ensures AnyEquals(w, k, vs, cell) <==>
              cell.equals(LitOf(w, k, vs[0]).value) || AnyEquals(w, k, vs[1..], cell)
  {
    LiteralStands(w, k, vs[0], LitOf(w, k, vs[0]).value);
    if AnyEquals(w, k, vs, cell) {
      var v, l :| v in vs && StandsFor(w, k, v, l) && cell.equals(l);
      LiteralStands(w, k, v, l);
      assert v == vs[0] || v in vs[1..];
    }
  }

  lemma {:induction false} EqAtomsMean(w: World, k: Kind, path: string, vs: seq<Value>, row: Row)
    requires path != "1"
    ensures EqAtoms(w, k, path, vs).None? <==> AnyUnfit(w, k, vs)
    ensures EqAtoms(w, k, path, vs).Some? ==>
              (AnyHolds(row, EqAtoms(w, k, path, vs).value) <==> AnyEquals(w, k, vs, row(path)))
  {
    if vs != [] {
      EqAtomsMean(w, k, path, vs[1..], row);
      UnfitHasNoLiteral(w, k, vs[0]);
      assert AnyUnfit(w, k, vs) <==> Unfit(w, k, vs[0]) || AnyUnfit(w, k, vs[1..]) by {
        assert forall v :: v in vs <==> v == vs[0] || v in vs[1..];
      }
      if EqAtoms(w, k, path, vs).Some? {
        AnyEqualsMore(w, k, vs, row(path));
        AnyHoldsMore(row, Compare(path, "eq", LitOf(w, k, vs[0]).value), EqAtoms(w, k, path, vs[1..]).value);
      }
    }
  }

  predicate AnyHolds(row: Row, atoms: seq<Atom>) {
    exists a :: a in atoms && AtomHolds(row, a)
  }

  lemma AnyHoldsMore(row: Row, a: Atom, rest: seq<Atom>)
    ensures AnyHolds(row, [a] + rest) <==> AtomHolds(row, a) || AnyHolds(row, rest)
  {
    assert a in [a] + rest;
  }

  lemma AnyHoldsOne(row: Row, a: Atom)
    ensures AnyHolds(row, [a]) <==> AtomHolds(row, a)
  {
    assert a in [a];
  }

  lemma InMeans(w: World, k: Kind, c: Cond, path: string, row: Row)
    requires path != "1" && c.op.In?
    ensures Asks(w, c, k, path).None? <==> Senseless(w, k, c)
    ensures Asks(w, c, k, path).Some? ==>
              (AnyHolds(row, Asks(w, c, k, path).value) <==> Meets(w, k, c, row(path)))
  {
    var vs := ValuesOf(c.arg);
    assert forall v :: v in vs <==> IsValue(c.arg, v);
    EqAtomsMean(w, k, path, vs, row);
    if vs == [] { AnyHoldsOne(row, Compare("1", "eq", Bare("0"))); }
    assert AnyUnfit(w, k, vs) <==> Senseless(w, k, c);
    assert AnyEquals(w, k, vs, row(path)) <==> Meets(w, k, c, row(path));
  }

  lemma CompareMeans(w: World, k: Kind, c: Cond, path: string, row: Row)
    requires path != "1" && !c.op.In? && !c.op.Contains? && !c.op.StartsWith?
    ensures Asks(w, c, k, path).None? <==> Senseless(w, k, c)
    ensures Asks(w, c, k, path).Some? ==>
              (AnyHolds(row, Asks(w, c, k, path).value) <==> Meets(w, k, c, row(path)))
  {
    if c.arg.One? {
      var v := c.arg.value;
      assert IsValue(c.arg, v);
      UnfitHasNoLiteral(w, k, v);
      if LitOf(w, k, v).Some? {
        var l := LitOf(w, k, v).value;
        LiteralStands(w, k, v, l);
        forall m | StandsFor(w, k, v, m) ensures m == l { LiteralStands(w, k, v, m); }
        AnyHoldsOne(row, Compare(path, OpText(c.op), l));
      }
    }
  }

  lemma CallMeans(w: World, k: Kind, c: Cond, path: string, row: Row)
    requires c.op.Contains? || c.op.StartsWith?
    ensures Asks(w, c, k, path).Some? && !Senseless(w, k, c)
    ensures AnyHolds(row, Asks(w, c, k, path).value) <==> Meets(w, k, c, row(path))
  {
    ArgSpells(c.arg, PrintedArg(c.arg));
    forall s | SpelledArg(c.arg, s) ensures s == PrintedArg(c.arg) { ArgSpells(c.arg, s); }
    AnyHoldsOne(row, Call(OpText(c.op), path, PrintedArg(c.arg)));
  }

  /** The atoms of a condition hold of a row exactly where the condition does; it is refused exactly if senseless. */
  lemma AsksMean(w: World, k: Kind, c: Cond, path: string, row: Row)
    requires path != "1"
    ensures Asks(w, c, k, path).None? <==> Senseless(w, k, c)
    ensures Asks(w, c, k, path).Some? ==>
              (AnyHolds(row, Asks(w, c, k, path).value) <==> Meets(w, k, c, row(path)))
  {
    if c.op.Contains? || c.op.StartsWith? {
      CallMeans(w, k, c, path, row);
    } else if c.op.In? {
      InMeans(w, k, c, path, row);
    } else {
      CompareMeans(w, k, c, path, row);
    }
  }

  // ---- Whole filters --------------------------------------------------------------------------------------

  /** No column is called 1. */
  ghost predicate NoneIsOne(fields: Fields, paths: Paths) {
    forall f :: f in fields ==> paths.of(f) != "1"
  }

  lemma FieldMeans(w: World, fields: Fields, c: Cond, paths: Paths, row: Row)
    requires NoneIsOne(fields, paths)
    ensures FieldAsks(w, fields, c, paths).None? <==> Unasked(w, fields, c)
    ensures FieldAsks(w, fields, c, paths).Some? ==>
              (AnyHolds(row, FieldAsks(w, fields, c, paths).value) <==> MeetsIn(w, fields, c, paths, row))
  {
    if c.field in fields { AsksMean(w, fields[c.field], c, paths.of(c.field), row); }
  }

  /**
   The text a list query compiles to, read by OData's rules, admits exactly the rows that meet every condition.
   There is no text exactly if one of them names no field or makes no sense of it.
   */
  lemma FilterMeans(w: World, fields: Fields, conds: seq<Cond>, paths: Paths, row: Row)
    requires WorldOk(w) && PathsOk(fields, paths) && NoneIsOne(fields, paths)
    ensures Compile(w, fields, conds, paths).Refused? <==>
              exists i :: 0 <= i < |conds| && Unasked(w, fields, conds[i])
    ensures Compile(w, fields, conds, paths).Filter? && conds == [] ==> Compile(w, fields, conds, paths).text.None?
    ensures Compile(w, fields, conds, paths).Filter? && conds != [] ==>
              && Compile(w, fields, conds, paths).text.Some?
              && var e := Parse(Compile(w, fields, conds, paths).text.value);
              && e.Some?
              && (Admits(e.value, a => AtomHolds(row, a)) <==>
                    forall i :: 0 <= i < |conds| ==> MeetsIn(w, fields, conds[i], paths, row))
  {
    FilterParses(w, fields, conds, paths);
    forall i | 0 <= i < |conds|
      ensures var asks := FieldAsks(w, fields, conds[i], paths);
              && (asks.None? <==> Unasked(w, fields, conds[i]))
              && (asks.Some? ==> (AnyHolds(row, asks.value) <==> MeetsIn(w, fields, conds[i], paths, row)))
    {
      FieldMeans(w, fields, conds[i], paths, row);
    }
    if Sayable(w, fields, conds, paths) && conds != [] {
      ConjunctionAdmits(w, fields, conds, paths, a => AtomHolds(row, a));
    }
  }
}
