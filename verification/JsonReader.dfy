/**
 A reader of JSON without white space (RFC 8259), and that canonical JSON (apps/server/src/canon.ts) is such JSON: it
 reads back as the value it was printed from, with every object's keys in order.
 */
module JsonReader {
  import opened Options
  import opened Canon

  // ---- Reading ----------------------------------------------------------------------------------------------

  function HexValue(c: char): Option<nat> {
    if '0' <= c <= '9' then Some(c as int - '0' as int)
    else if 'a' <= c <= 'f' then Some(10 + c as int - 'a' as int)
    else if 'A' <= c <= 'F' then Some(10 + c as int - 'A' as int)
    else None
  }

  /** Four hexadecimal digits; a surrogate stands for no character by itself. */
  function ReadCode(s: string): Option<char>
    requires |s| >= 4
  {
    var a, b, c, d := HexValue(s[0]), HexValue(s[1]), HexValue(s[2]), HexValue(s[3]);
    if a.None? || b.None? || c.None? || d.None? then None
    else
      var code := ((a.value * 16 + b.value) * 16 + c.value) * 16 + d.value;
      if code < 0xD800 || 0xE000 <= code < 0x10000 then Some(code as char) else None
  }

  function Unescaped(c: char): Option<char> {
    if c == '\"' || c == '\\' || c == '/' then Some(c)
    else if c == 'b' then Some(8 as char)
    else if c == 'f' then Some(12 as char)
    else if c == 'n' then Some('\n')
    else if c == 'r' then Some('\r')
    else if c == 't' then Some('\t')
    else None
  }

  /** One character of a string: RFC 8259, section 7. */
  function ReadChar(s: string): (r: Option<(char, string)>)
    ensures r.Some? ==> |r.value.1| < |s|
  {
    if s == "" || s[0] < ' ' || s[0] == '\"' then None
    else if s[0] != '\\' then Some((s[0], s[1..]))
    else if |s| >= 2 && Unescaped(s[1]).Some? then Some((Unescaped(s[1]).value, s[2..]))
    else if |s| >= 6 && s[1] == 'u' && ReadCode(s[2..6]).Some? then Some((ReadCode(s[2..6]).value, s[6..]))
    else None
  }

  /** The characters up to the closing quote, and what comes behind it. */
  function ReadChars(s: string): (r: Option<(string, string)>)
    ensures r.Some? ==> |r.value.1| < |s|
  {
    if s != "" && s[0] == '\"' then Some(("", s[1..]))
    else
      match ReadChar(s)
      case None => None
      case Some(x) =>
        match ReadChars(x.1)
        case None => None
        case Some(y) => Some(([x.0] + y.0, y.1))
  }

  function NumLength(s: string): (n: nat)
    ensures n <= |s|
  {
    if s == "" || !NumChar(s[0]) then 0 else 1 + NumLength(s[1..])
  }

  /** A value and what comes behind it. */
  function ReadValue(s: string): (r: Option<(Js, string)>)
    ensures r.Some? ==> |r.value.1| < |s|
    decreases |s|, 0
  {
    if "null" <= s then Some((Null, s[4..]))
    else if "true" <= s then Some((Bool(true), s[4..]))
    else if "false" <= s then Some((Bool(false), s[5..]))
    else if "\"" <= s then
      match ReadChars(s[1..]) case None => None case Some(x) => Some((Str(x.0), x.1))
    else if "[]" <= s then Some((Arr([]), s[2..]))
    else if "{}" <= s then Some((Obj([]), s[2..]))
    else if "[" <= s then
      match ReadItems(s[1..]) case None => None case Some(x) => Some((Arr(x.0), x.1))
    else if "{" <= s then
      match ReadEntries(s[1..]) case None => None case Some(x) => Some((Obj(x.0), x.1))
    else
      var n := NumLength(s);
      if n > 0 && NumText(s[..n]) then Some((Num(s[..n]), s[n..])) else None
  }

  function ReadItems(s: string): (r: Option<(seq<Js>, string)>)
    ensures r.Some? ==> |r.value.1| < |s|
    decreases |s|, 1
  {
    match ReadValue(s)
    case None => None
    case Some(x) =>
      if "]" <= x.1 then Some(([x.0], x.1[1..]))
      else if "," <= x.1 then
        match ReadItems(x.1[1..]) case None => None case Some(y) => Some(([x.0] + y.0, y.1))
      else None
  }

  function ReadEntry(s: string): (r: Option<(Prop, string)>)
    ensures r.Some? ==> |r.value.1| < |s|
    decreases |s|, 1
  {
    if !("\"" <= s) then None
    else
      match ReadChars(s[1..])
      case None => None
      case Some(k) =>
        if !(":" <= k.1) then None
        else match ReadValue(k.1[1..]) case None => None case Some(x) => Some((Prop(k.0, Some(x.0)), x.1))
  }

  function ReadEntries(s: string): (r: Option<(seq<Prop>, string)>)
    ensures r.Some? ==> |r.value.1| < |s|
    decreases |s|, 2
  {
    match ReadEntry(s)
    case None => None
    case Some(x) =>
      if "}" <= x.1 then Some(([x.0], x.1[1..]))
      else if "," <= x.1 then
        match ReadEntries(x.1[1..]) case None => None case Some(y) => Some(([x.0] + y.0, y.1))
      else None
  }

  /** A whole text, or nothing. */
  function Read(s: string): Option<Js> {
    match ReadValue(s) case None => None case Some(x) => if x.1 == "" then Some(x.0) else None
  }

  /** At every depth each object's keys are in order, and none is without a value. */
  ghost predicate InOrder(v: Js) {
    match v
    case Arr(items) => forall x :: x in items ==> InOrder(x)
    case Obj(entries) => Ordered(entries) && forall e :: e in entries ==> e.value.Some? && InOrder(e.value.value)
    case _ => true
  }

  // ---- Strings read back ------------------------------------------------------------------------------------

  lemma HexDigit(i: nat)
    requires i < 16
    ensures HexValue(HEX[i]) == Some(i)
  {
  }

  lemma ControlRead(c: char)
    requires c < ' '
    ensures ReadCode("00" + [HEX[c as int / 16], HEX[c as int % 16]]) == Some(c)
  {
    HexDigit(c as int / 16);
    HexDigit(c as int % 16);
    HexDigit(0);
  }

  lemma EscapeRead(c: char, x: string)
    ensures ReadChar(Escape(c) + x) == Some((c, x))
    ensures Escape(c) + x != "" && (Escape(c) + x)[0] != '\"'
  {
    var s, n := Escape(c) + x, |Escape(c)|;
    assert s[n..] == x && s[0] == Escape(c)[0];
    if n >= 2 { assert s[1] == Escape(c)[1]; }
    if n == 6 {
      ControlRead(c);
      assert s[2..6] == "00" + [HEX[c as int / 16], HEX[c as int % 16]];
    }
  }

  /** And it is the shortest way to write a character in a string. */
  lemma EscapeIsShortest(c: char, t: string)
    requires ReadChar(t) == Some((c, ""))
    ensures |Escape(c)| <= |t|
  {
  }

  lemma {:induction false} EscapedRead(s: string, x: string)
    ensures ReadChars(Escaped(s) + ("\"" + x)) == Some((s, x))
  {
    var behind := "\"" + x;
    if s == "" {
      assert "" + behind == behind && behind[1..] == x;
    } else {
      EscapedStart(s, behind);
      EscapeRead(s[0], Escaped(s[1..]) + behind);
      EscapedRead(s[1..], x);
      assert [s[0]] + s[1..] == s;
    }
  }

  lemma QuoteRead(s: string, x: string)
    ensures Quote(s) + x == "\"" + (Escaped(s) + ("\"" + x))
    ensures "\"" <= Quote(s) + x && ReadChars((Quote(s) + x)[1..]) == Some((s, x))
  {
    Assoc("\"", Escaped(s) + "\"", x);
    Assoc(Escaped(s), "\"", x);
    Behind("\"", Escaped(s) + ("\"" + x));
    EscapedRead(s, x);
  }

  lemma Behind(a: string, b: string)
    ensures a <= a + b && (a + b)[|a|..] == b
  {
  }

  lemma {:induction false} NumRead(t: string, x: string)
    requires (forall i :: 0 <= i < |t| ==> NumChar(t[i])) && Stop(x)
    ensures NumLength(t + x) == |t|
  {
    if t == "" {
      assert "" + x == x;
    } else {
      assert (t + x)[1..] == t[1..] + x;
      NumRead(t[1..], x);
    }
  }

  // ---- Values read back -------------------------------------------------------------------------------------

  /** What reading a text gives: the value it was printed from, in order. */
  ghost predicate ReadsAs(v: Js, w: Js) {
    Meaning(w) == Meaning(v) && InOrder(w) && Proper(w)
  }

  lemma PlainRead(v: Js, x: string)
    requires v.Null? || v.Bool?
    ensures ReadValue(CanonicalJson(v) + x) == Some((v, x))
  {
    Behind(CanonicalJson(v), x);
    var s := CanonicalJson(v) + x;
    assert s[0] == CanonicalJson(v)[0];
  }

  lemma NumberRead(v: Js, x: string)
    requires v.Num? && Proper(v) && Stop(x)
    ensures ReadValue(CanonicalJson(v) + x) == Some((v, x))
  {
    var s := v.text + x;
    NumRead(v.text, x);
    assert s[..|v.text|] == v.text && s[|v.text|..] == x;
    assert s[0] == v.text[0];
  }

  lemma StringRead(v: Js, x: string)
    requires v.Str?
    ensures ReadValue(CanonicalJson(v) + x) == Some((v, x))
  {
    QuoteRead(v.s, x);
    assert (Quote(v.s) + x)[0] == '\"';
  }

  lemma {:induction false} ValueRead(v: Js, x: string) returns (w: Js)
    requires Proper(v) && Stop(x)
    ensures ReadValue(CanonicalJson(v) + x) == Some((w, x)) && ReadsAs(v, w)
    decreases v
  {
    match v
    case Null => PlainRead(v, x); w := v;
    case Bool(_) => PlainRead(v, x); w := v;
    case Num(_) => NumberRead(v, x); w := v;
    case Str(_) => StringRead(v, x); w := v;
    case Arr(items) => w := ArrayRead(v, x);
    case Obj(entries) => w := ObjectRead(v, x);
  }

  lemma ListOpens(t: string, x: string)
    ensures ReadValue("[" + ("]" + x)) == Some((Arr([]), x))
    ensures t != "" && t[0] != ']' ==>
              ReadValue("[" + t) == match ReadItems(t) case None => None case Some(y) => Some((Arr(y.0), y.1))
  {
    var s, e := "[" + t, "[" + ("]" + x);
    assert s[1..] == t && s[0] == '[';
    assert e[..2] == "[]" && e[2..] == x && e[0] == '[';
    if t != "" { assert s[1] == t[0]; }
  }

  lemma ObjectOpens(t: string, x: string)
    ensures ReadValue("{" + ("}" + x)) == Some((Obj([]), x))
    ensures t != "" && t[0] != '}' ==>
              ReadValue("{" + t) == match ReadEntries(t) case None => None case Some(y) => Some((Obj(y.0), y.1))
  {
    var s, e := "{" + t, "{" + ("}" + x);
    assert s[1..] == t && s[0] == '{';
    assert e[..2] == "{}" && e[2..] == x && e[0] == '{';
    if t != "" { assert s[1] == t[0]; }
  }

  lemma Enclosed(opening: string, inner: string, closing: string, x: string)
    ensures (opening + (inner + closing)) + x == opening + (inner + (closing + x))
    ensures inner == "" ==> inner + (closing + x) == closing + x
  {
    Assoc(opening, inner + closing, x);
    Assoc(inner, closing, x);
  }

  lemma ArrayRead(v: Js, x: string) returns (w: Js)
    requires v.Arr? && Proper(v) && Stop(x)
    ensures ReadValue(CanonicalJson(v) + x) == Some((w, x)) && ReadsAs(v, w)
    decreases v, |v.items| + 1
  {
    var inner := ItemsText(v, v.items);
    Enclosed("[", inner, "]", x);
    ListOpens(inner + ("]" + x), x);
    if v.items == [] {
      w := v;
    } else {
      ItemsStart(v, v.items, "]" + x);
      var ws := ItemsRead(v, v.items, x);
      w := Arr(ws);
      assert Meaning(w).items == Meaning(v).items;
    }
  }

  lemma {:induction false} ItemsRead(v: Js, items: seq<Js>, x: string) returns (ws: seq<Js>)
    requires v.Arr? && Proper(v) && items != [] && forall i :: i in items ==> i in v.items
    ensures ReadItems(ItemsText(v, items) + ("]" + x)) == Some((ws, x))
    ensures |ws| == |items| && forall i :: 0 <= i < |ws| ==> ReadsAs(items[i], ws[i])
    decreases v, |items|
  {
    var behind := "]" + x;
    ItemsStart(v, items, behind);
    assert items[0] in v.items;
    if |items| == 1 {
      var w := ValueRead(items[0], behind);
      Behind("]", x);
      ws := [w];
    } else {
      var more := ItemsText(v, items[1..]) + behind;
      var w := ValueRead(items[0], "," + more);
      Behind(",", more);
      var rest := ItemsRead(v, items[1..], x);
      ws := [w] + rest;
    }
  }

  lemma EntryRead(v: Js, e: Prop, x: string) returns (f: Prop)
    requires v.Obj? && Proper(v) && e in v.entries && e.value.Some? && Stop(x)
    ensures ReadEntry(EntryText(v, e) + x) == Some((f, x))
    ensures f.key == e.key && f.value.Some? && ReadsAs(e.value.value, f.value.value)
    decreases v, 0
  {
    var text := CanonicalJson(e.value.value);
    Assoc(Quote(e.key), ":" + text, x);
    Assoc(":", text, x);
    QuoteRead(e.key, ":" + (text + x));
    Behind(":", text + x);
    var w := ValueRead(e.value.value, x);
    f := Prop(e.key, Some(w));
  }

  lemma {:induction false} EntriesRead(v: Js, es: seq<Prop>, x: string) returns (fs: seq<Prop>)
    requires v.Obj? && Proper(v) && es != [] && forall e :: e in es ==> e in v.entries && e.value.Some?
    ensures ReadEntries(EntriesText(v, es) + ("}" + x)) == Some((fs, x))
    ensures |fs| == |es| && forall i :: 0 <= i < |fs| ==> ReadBack(es[i], fs[i])
    decreases v, |es| + 1
  {
    var behind := "}" + x;
    EntriesStart(v, es, behind);
    if |es| == 1 {
      var f := EntryRead(v, es[0], behind);
      Behind("}", x);
      fs := [f];
    } else {
      var more := EntriesText(v, es[1..]) + behind;
      var f := EntryRead(v, es[0], "," + more);
      Behind(",", more);
      var rest := EntriesRead(v, es[1..], x);
      fs := [f] + rest;
    }
  }

  ghost predicate ReadBack(e: Prop, f: Prop) {
    e.value.Some? && f.value.Some? && f.key == e.key && ReadsAs(e.value.value, f.value.value)
  }

  lemma ObjectRead(v: Js, x: string) returns (w: Js)
    requires v.Obj? && Proper(v) && Stop(x)
    ensures ReadValue(CanonicalJson(v) + x) == Some((w, x)) && ReadsAs(v, w)
    decreases v, |v.entries| + 2
  {
    var es := Sorted(Defined(v.entries));
    var inner := EntriesText(v, es);
    Enclosed("{", inner, "}", x);
    ObjectOpens(inner + ("}" + x), x);
    var fs: seq<Prop> := [];
    if es != [] {
      SortedNoLonger(v.entries);
      EntriesStart(v, es, "}" + x);
      fs := EntriesRead(v, es, x);
    }
    w := Obj(fs);
    ObjectMeans(v, es, fs);
  }

  lemma ObjectMeans(v: Js, es: seq<Prop>, fs: seq<Prop>)
    requires v.Obj? && Proper(v) && es == Sorted(Defined(v.entries))
    requires |fs| == |es| && forall i :: 0 <= i < |fs| ==> ReadBack(es[i], fs[i])
    ensures ReadsAs(v, Obj(fs))
  {
    var w := Obj(fs);
    DefinedOneEach(v.entries);
    SortedOrdered(Defined(v.entries));
    forall i, j | 0 <= i < j < |fs| ensures Before(fs[i].key, fs[j].key) && fs[i].key != fs[j].key {
      assert ReadBack(es[i], fs[i]) && ReadBack(es[j], fs[j]) && Before(es[i].key, es[j].key);
      BeforeIsOrder(fs[i].key, fs[i].key, fs[i].key);
    }
    forall f | f in fs ensures f.value.Some? && InOrder(f.value.value) && Proper(f.value.value) {
      var i :| 0 <= i < |fs| && fs[i] == f;
      assert ReadBack(es[i], fs[i]);
    }
    assert Proper(w) && InOrder(w);
    forall k ensures GoesOver(v, w, k) && GoesOver(w, v, k) { KeyReadBack(v, es, w, k); }
    SameFieldsSameMeaning(v, w);
  }

  lemma KeyReadBack(v: Js, es: seq<Prop>, w: Js, k: string)
    requires v.Obj? && Proper(v) && w.Obj? && Proper(w) && es == Sorted(Defined(v.entries))
    requires |w.entries| == |es| && forall i :: 0 <= i < |es| ==> ReadBack(es[i], w.entries[i])
    ensures GoesOver(v, w, k) && GoesOver(w, v, k)
  {
    if k in KeysOf(v.entries) {
      var e := Prop(k, Some(ValueAt(v.entries, k)));
      assert e in es;
      var i :| 0 <= i < |es| && es[i] == e;
      assert ReadBack(es[i], w.entries[i]);
      OneEntryPerKey(w, w.entries[i]);
    }
    if k in KeysOf(w.entries) {
      var f := Prop(k, Some(ValueAt(w.entries, k)));
      var i :| 0 <= i < |w.entries| && w.entries[i] == f;
      assert ReadBack(es[i], w.entries[i]) && es[i] in es;
      OneEntryPerKey(v, es[i]);
    }
  }

  /** Canonical JSON is JSON: it reads back as what was printed, key order and undefined entries aside, in order. */
  lemma CanonicalReadsBack(v: Js)
    requires Proper(v)
    ensures var r := Read(CanonicalJson(v));
            r.Some? && Meaning(r.value) == Meaning(v) && InOrder(r.value)
  {
    var w := ValueRead(v, "");
    assert CanonicalJson(v) + "" == CanonicalJson(v);
  }
}
