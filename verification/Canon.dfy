/**
 Canonical JSON (apps/server/src/canon.ts) and the quote command id built on it
 (apps/server/src/config-quote.ts).

 `Js` is a JavaScript value: an object is its entries in insertion order, and an entry may hold
 `undefined`. `Value` is what the value means once key order and undefined entries are forgotten.
 The main theorem: two values print alike exactly when they mean the same.
 */
module Canon {
  import opened Options

  /** A number is carried as the text JavaScript prints for it, which is one-to-one on finite numbers. */
  datatype Js =
    | Null
    | Bool(b: bool)
    | Num(text: string)
    | Str(s: string)
    | Arr(items: seq<Js>)
    | Obj(entries: seq<Prop>)

  /** An object's entry; `None` is `undefined`. */
  datatype Prop = Prop(key: string, value: Option<Js>)

  datatype Value =
    | VNull
    | VBool(b: bool)
    | VNum(text: string)
    | VStr(s: string)
    | VArr(items: seq<Value>)
    | VObj(fields: map<string, Value>)

  predicate NumChar(c: char) {
    '0' <= c <= '9' || c == '-' || c == '+' || c == '.' || c == 'e'
  }

  predicate NumText(t: string) {
    t != "" && ('0' <= t[0] <= '9' || t[0] == '-') && forall i :: 0 <= i < |t| ==> NumChar(t[i])
  }

  /** What every JavaScript value satisfies: printed numbers, and one entry per key. */
  ghost predicate Proper(v: Js) {
    match v
    case Num(t) => NumText(t)
    case Arr(items) => forall x :: x in items ==> Proper(x)
    case Obj(entries) =>
      && (forall i, j :: 0 <= i < j < |entries| ==> entries[i].key != entries[j].key)
      && (forall e :: e in entries && e.value.Some? ==> Proper(e.value.value))
    case _ => true
  }

  // ---- Meaning ----------------------------------------------------------------------------------

  ghost function Meaning(v: Js): Value {
    match v
    case Null => VNull
    case Bool(b) => VBool(b)
    case Num(t) => VNum(t)
    case Str(s) => VStr(s)
    case Arr(items) => VArr(seq(|items|, i requires 0 <= i < |items| => Meaning(items[i])))
    case Obj(entries) =>
      VObj(map k | k in KeysOf(entries) :: Meaning(ValueAt(entries, k)))
  }

  /** The keys whose entry is not `undefined`. */
  function KeysOf(entries: seq<Prop>): set<string> {
    set e | e in entries && e.value.Some? :: e.key
  }

  ghost function ValueAt(entries: seq<Prop>, k: string): (v: Js)
    requires k in KeysOf(entries)
    ensures exists e :: e in entries && e == Prop(k, Some(v))
  {
    var e :| e in entries && e.value.Some? && e.key == k;
    e.value.value
  }

  // ---- The printer ------------------------------------------------------------------------------

  const HEX := "0123456789abcdef"

  /** JSON.stringify's escape of one character: RFC 8259 section 7 with the short forms. */
  function Escape(c: char): string {
    if c == '\"' then "\\\""
    else if c == '\\' then "\\\\"
    else if c == 8 as char then "\\b"
    else if c == 12 as char then "\\f"
    else if c == '\n' then "\\n"
    else if c == '\r' then "\\r"
    else if c == '\t' then "\\t"
    else if c < ' ' then "\\u00" + [HEX[c as int / 16], HEX[c as int % 16]]
    else [c]
  }

  function Escaped(s: string): string {
    if s == "" then "" else Escape(s[0]) + Escaped(s[1..])
  }

  function Quote(s: string): string {
    "\"" + (Escaped(s) + "\"")
  }

  /** JavaScript's `<` on strings. */
  predicate Before(a: string, b: string) {
    b != "" && (a == "" || a[0] < b[0] || (a[0] == b[0] && Before(a[1..], b[1..])))
  }

  function Defined(entries: seq<Prop>): (r: seq<Prop>)
    ensures forall e :: e in r <==> e in entries && e.value.Some?
  {
    if entries == [] then []
    else if entries[0].value.Some? then [entries[0]] + Defined(entries[1..])
    else Defined(entries[1..])
  }

  function Insert(e: Prop, sorted: seq<Prop>): (r: seq<Prop>)
    ensures forall x :: x in r <==> x == e || x in sorted
  {
    if sorted == [] || Before(e.key, sorted[0].key) then [e] + sorted
    else [sorted[0]] + Insert(e, sorted[1..])
  }

  function Sorted(entries: seq<Prop>): (r: seq<Prop>)
    ensures forall x :: x in r <==> x in entries
  {
    if entries == [] then [] else Insert(entries[0], Sorted(entries[1..]))
  }

  function CanonicalJson(v: Js): string {
    match v
    case Null => "null"
    case Bool(b) => if b then "true" else "false"
    case Num(t) => t
    case Str(s) => Quote(s)
    case Arr(items) => "[" + (ItemsText(v, items) + "]")
    case Obj(entries) => "{" + (EntriesText(v, Sorted(Defined(entries))) + "}")
  }

  /** `items.map(canonicalJson).join(",")`; `owner` only bounds the recursion. */
  function ItemsText(owner: Js, items: seq<Js>): string
    requires owner.Arr? && forall x :: x in items ==> x in owner.items
    decreases owner, |items|
  {
    if items == [] then ""
    else
      assert items[0] in owner.items;
      if |items| == 1 then CanonicalJson(items[0])
      else CanonicalJson(items[0]) + ("," + ItemsText(owner, items[1..]))
  }

  function EntryText(owner: Js, e: Prop): string
    requires owner.Obj? && e in owner.entries && e.value.Some?
    decreases owner, 0
  {
    Quote(e.key) + (":" + CanonicalJson(e.value.value))
  }

  function EntriesText(owner: Js, entries: seq<Prop>): string
    requires owner.Obj? && forall e :: e in entries ==> e in owner.entries && e.value.Some?
    decreases owner, |entries| + 1
  {
    if entries == [] then ""
    else if |entries| == 1 then EntryText(owner, entries[0])
    else EntryText(owner, entries[0]) + ("," + EntriesText(owner, entries[1..]))
  }

  /** `JSON.stringify(v ?? null)` for a missing value. */
  function OrNull(v: Option<Js>): Js {
    if v.Some? then v.value else Null
  }

  predicate SameJson(a: Option<Js>, b: Option<Js>) {
    CanonicalJson(OrNull(a)) == CanonicalJson(OrNull(b))
  }

  // ---- Strings are cut where they end -----------------------------------------------------------

  lemma Assoc(a: string, b: string, c: string)
    ensures (a + b) + c == a + (b + c)
  {
  }

  /** Equal texts whose first parts are equally long agree part by part. */
  lemma SplitSame(a: string, x: string, b: string, y: string)
    requires |a| == |b| && a + x == b + y
    ensures a == b && x == y
  {
    assert a == (a + x)[..|a|] && b == (b + y)[..|b|];
    assert x == (a + x)[|a|..] && y == (b + y)[|b|..];
  }

  lemma HexDigitsDiffer(m: nat, n: nat)
    requires m < 32 && n < 32 && HEX[m / 16] == HEX[n / 16] && HEX[m % 16] == HEX[n % 16]
    ensures m == n
  {
    assert forall i, j :: 0 <= i < j < 16 ==> HEX[i] != HEX[j];
    assert m / 16 == n / 16 && m % 16 == n % 16;
  }

  /** The escapes are a prefix code: none begins another, nor the closing quote. */
  lemma EscapeCut(c: char, d: char, x: string, y: string)
    requires Escape(c) + x == Escape(d) + y
    ensures c == d && x == y
  {
    var u, v := Escape(c) + x, Escape(d) + y;
    assert u[0] == Escape(c)[0] && v[0] == Escape(d)[0];
    if u[0] == '\\' {
      assert u[1] == Escape(c)[1] && v[1] == Escape(d)[1];
      if u[1] == 'u' {
        assert u[4] == Escape(c)[4] && v[4] == Escape(d)[4];
        assert u[5] == Escape(c)[5] && v[5] == Escape(d)[5];
        HexDigitsDiffer(c as int, d as int);
      }
    }
    SplitSame(Escape(c), x, Escape(d), y);
  }

  lemma EscapedStart(s: string, x: string)
    requires s != ""
    ensures Escaped(s) + x == Escape(s[0]) + (Escaped(s[1..]) + x)
    ensures Escaped(s) + x != "" && (Escaped(s) + x)[0] != '\"'
  {
    Assoc(Escape(s[0]), Escaped(s[1..]), x);
  }

  lemma {:induction false} EscapedCut(s: string, t: string, x: string, y: string)
    requires x != "" && x[0] == '\"' && y != "" && y[0] == '\"'
    requires Escaped(s) + x == Escaped(t) + y
    ensures s == t && x == y
  {
    if s != "" { EscapedStart(s, x); }
    if t != "" { EscapedStart(t, y); }
    assert "" + x == x && "" + y == y;
    if s != "" && t != "" {
      EscapeCut(s[0], t[0], Escaped(s[1..]) + x, Escaped(t[1..]) + y);
      EscapedCut(s[1..], t[1..], x, y);
    }
  }

  lemma QuoteCut(s: string, t: string, x: string, y: string)
    requires Quote(s) + x == Quote(t) + y
    ensures s == t && x == y
  {
    Assoc("\"", Escaped(s) + "\"", x);
    Assoc("\"", Escaped(t) + "\"", y);
    SplitSame("\"", (Escaped(s) + "\"") + x, "\"", (Escaped(t) + "\"") + y);
    Assoc(Escaped(s), "\"", x);
    Assoc(Escaped(t), "\"", y);
    EscapedCut(s, t, "\"" + x, "\"" + y);
    SplitSame("\"", x, "\"", y);
  }

  // ---- Values are cut where they end --------------------------------------------------------------

  /** What may follow a value inside a larger text. */
  predicate Stop(x: string) {
    x == "" || x[0] in {',', ']', '}'}
  }

  lemma NextChar(s: string, t: string, x: string, y: string)
    requires |s| < |t| && s + x == t + y
    ensures x != "" && x[0] == t[|s|]
  {
    assert |s + x| == |t + y|;
    assert (s + x)[|s|] == (t + y)[|s|];
  }

  lemma NumNotShorter(s: string, t: string, x: string, y: string)
    requires NumText(s) && NumText(t) && Stop(x) && s + x == t + y
    ensures |s| >= |t|
  {
    if |s| < |t| {
      NextChar(s, t, x, y);
    }
  }

  lemma NumCut(s: string, t: string, x: string, y: string)
    requires NumText(s) && NumText(t) && Stop(x) && Stop(y) && s + x == t + y
    ensures s == t && x == y
  {
    NumNotShorter(s, t, x, y);
    NumNotShorter(t, s, y, x);
    SplitSame(s, x, t, y);
  }

  /** The first character tells the kind of value. */
  function Kind(v: Js): int {
    match v
    case Null => 0
    case Bool(b) => if b then 1 else 2
    case Num(_) => 3
    case Str(_) => 4
    case Arr(_) => 5
    case Obj(_) => 6
  }

  function KindOfChar(c: char): int {
    if c == 'n' then 0 else if c == 't' then 1 else if c == 'f' then 2
    else if c == '\"' then 4 else if c == '[' then 5 else if c == '{' then 6 else 3
  }

  lemma FirstChar(v: Js, x: string)
    requires Proper(v)
    ensures CanonicalJson(v) + x != "" && KindOfChar((CanonicalJson(v) + x)[0]) == Kind(v)
    ensures (CanonicalJson(v) + x)[0] !in {',', ']', '}'}
  {
    assert CanonicalJson(v) != "";
    assert (CanonicalJson(v) + x)[0] == CanonicalJson(v)[0];
  }

  /** Unique readability: a value's text is never a proper beginning of another value's. */
  lemma {:induction false} Cut(v: Js, w: Js, x: string, y: string)
    requires Proper(v) && Proper(w) && Stop(x) && Stop(y)
    requires CanonicalJson(v) + x == CanonicalJson(w) + y
    ensures Meaning(v) == Meaning(w) && x == y
    decreases v
  {
    FirstChar(v, x);
    FirstChar(w, y);
    assert Kind(v) == Kind(w);
    match v
    case Num(t) => NumCut(t, w.text, x, y);
    case Str(s) => QuoteCut(s, w.s, x, y);
    case Arr(items) => ArrCut(v, w, x, y);
    case Obj(entries) => ObjCut(v, w, x, y);
    case _ => SplitSame(CanonicalJson(v), x, CanonicalJson(w), y);
  }

  lemma ArrCut(v: Js, w: Js, x: string, y: string)
    requires Proper(v) && Proper(w) && v.Arr? && w.Arr?
    requires CanonicalJson(v) + x == CanonicalJson(w) + y
    ensures Meaning(v) == Meaning(w) && x == y
    decreases v, |v.items| + 1
  {
    var a, b := ItemsText(v, v.items), ItemsText(w, w.items);
    Assoc("[", a + "]", x);
    Assoc("[", b + "]", y);
    SplitSame("[", (a + "]") + x, "[", (b + "]") + y);
    Assoc(a, "]", x);
    Assoc(b, "]", y);
    ItemsCut(v, v.items, w, w.items, "]" + x, "]" + y);
    SplitSame("]", x, "]", y);
    assert Meaning(v).items == Meaning(w).items;
  }

  lemma ItemsStart(v: Js, items: seq<Js>, x: string)
    requires Proper(v) && v.Arr? && items != [] && forall i :: i in items ==> i in v.items
    ensures ItemsText(v, items) + x ==
              CanonicalJson(items[0]) + (if |items| == 1 then x else "," + (ItemsText(v, items[1..]) + x))
    ensures ItemsText(v, items) + x != "" && (ItemsText(v, items) + x)[0] !in {',', ']', '}'}
  {
    assert items[0] in v.items;
    if |items| > 1 {
      Assoc(CanonicalJson(items[0]), "," + ItemsText(v, items[1..]), x);
      Assoc(",", ItemsText(v, items[1..]), x);
      FirstChar(items[0], "," + (ItemsText(v, items[1..]) + x));
    } else {
      FirstChar(items[0], x);
    }
  }

  lemma {:induction false} ItemsCut(v: Js, items: seq<Js>, w: Js, jtems: seq<Js>, x: string, y: string)
    requires Proper(v) && Proper(w) && v.Arr? && w.Arr?
    requires (forall i :: i in items ==> i in v.items) && (forall i :: i in jtems ==> i in w.items)
    requires x != "" && x[0] == ']' && y != "" && y[0] == ']'
    requires ItemsText(v, items) + x == ItemsText(w, jtems) + y
    ensures |items| == |jtems| && (forall i :: 0 <= i < |items| ==> Meaning(items[i]) == Meaning(jtems[i])) && x == y
    decreases v, |items|
  {
    assert "" + x == x && "" + y == y;
    if items != [] { ItemsStart(v, items, x); }
    if jtems != [] { ItemsStart(w, jtems, y); }
    if items != [] && jtems != [] {
      assert items[0] in v.items && jtems[0] in w.items;
      var p := if |items| == 1 then x else "," + (ItemsText(v, items[1..]) + x);
      var q := if |jtems| == 1 then y else "," + (ItemsText(w, jtems[1..]) + y);
      Cut(items[0], jtems[0], p, q);
      if |items| > 1 && |jtems| > 1 {
        SplitSame(",", ItemsText(v, items[1..]) + x, ",", ItemsText(w, jtems[1..]) + y);
        ItemsCut(v, items[1..], w, jtems[1..], x, y);
      }
    }
  }

  ghost predicate SameEntry(e: Prop, f: Prop) {
    e.value.Some? && f.value.Some? && e.key == f.key && Meaning(e.value.value) == Meaning(f.value.value)
  }

  lemma EntryCut(v: Js, e: Prop, w: Js, f: Prop, x: string, y: string)
    requires Proper(v) && Proper(w) && v.Obj? && w.Obj?
    requires e in v.entries && e.value.Some? && f in w.entries && f.value.Some?
    requires Stop(x) && Stop(y) && EntryText(v, e) + x == EntryText(w, f) + y
    ensures SameEntry(e, f) && x == y
    decreases v, 0
  {
    var a, b := CanonicalJson(e.value.value), CanonicalJson(f.value.value);
    Assoc(Quote(e.key), ":" + a, x);
    Assoc(Quote(f.key), ":" + b, y);
    QuoteCut(e.key, f.key, (":" + a) + x, (":" + b) + y);
    Assoc(":", a, x);
    Assoc(":", b, y);
    SplitSame(":", a + x, ":", b + y);
    Cut(e.value.value, f.value.value, x, y);
  }

  lemma EntriesStart(v: Js, es: seq<Prop>, x: string)
    requires v.Obj? && es != [] && forall e :: e in es ==> e in v.entries && e.value.Some?
    ensures EntriesText(v, es) + x ==
              EntryText(v, es[0]) + (if |es| == 1 then x else "," + (EntriesText(v, es[1..]) + x))
    ensures EntriesText(v, es) + x != "" && (EntriesText(v, es) + x)[0] == '\"'
  {
    if |es| > 1 {
      Assoc(EntryText(v, es[0]), "," + EntriesText(v, es[1..]), x);
      Assoc(",", EntriesText(v, es[1..]), x);
    }
    assert EntryText(v, es[0])[0] == '\"';
  }

  lemma {:induction false} EntriesCut(v: Js, es: seq<Prop>, w: Js, fs: seq<Prop>, x: string, y: string)
    requires Proper(v) && Proper(w) && v.Obj? && w.Obj?
    requires (forall e :: e in es ==> e in v.entries && e.value.Some?)
    requires (forall f :: f in fs ==> f in w.entries && f.value.Some?)
    requires x != "" && x[0] == '}' && y != "" && y[0] == '}'
    requires EntriesText(v, es) + x == EntriesText(w, fs) + y
    ensures |es| == |fs| && (forall i :: 0 <= i < |es| ==> SameEntry(es[i], fs[i])) && x == y
    decreases v, |es| + 1
  {
    assert "" + x == x && "" + y == y;
    if es != [] { EntriesStart(v, es, x); }
    if fs != [] { EntriesStart(w, fs, y); }
    if es != [] && fs != [] {
      var p := if |es| == 1 then x else "," + (EntriesText(v, es[1..]) + x);
      var q := if |fs| == 1 then y else "," + (EntriesText(w, fs[1..]) + y);
      EntryCut(v, es[0], w, fs[0], p, q);
      if |es| > 1 && |fs| > 1 {
        SplitSame(",", EntriesText(v, es[1..]) + x, ",", EntriesText(w, fs[1..]) + y);
        EntriesCut(v, es[1..], w, fs[1..], x, y);
      }
    }
  }

  lemma ObjCut(v: Js, w: Js, x: string, y: string)
    requires Proper(v) && Proper(w) && v.Obj? && w.Obj?
    requires CanonicalJson(v) + x == CanonicalJson(w) + y
    ensures Meaning(v) == Meaning(w) && x == y
    decreases v, |v.entries| + 2
  {
    var es, fs := Sorted(Defined(v.entries)), Sorted(Defined(w.entries));
    SortedNoLonger(v.entries);
    var a, b := EntriesText(v, es), EntriesText(w, fs);
    Assoc("{", a + "}", x);
    Assoc("{", b + "}", y);
    SplitSame("{", (a + "}") + x, "{", (b + "}") + y);
    Assoc(a, "}", x);
    Assoc(b, "}", y);
    EntriesCut(v, es, w, fs, "}" + x, "}" + y);
    SplitSame("}", x, "}", y);
    SameEntriesSameMeaning(v, w);
  }

  lemma InsertLength(e: Prop, sorted: seq<Prop>)
    ensures |Insert(e, sorted)| == |sorted| + 1
  {
  }

  lemma {:induction false} SortedLength(entries: seq<Prop>)
    ensures |Sorted(entries)| == |entries|
  {
    if entries != [] {
      SortedLength(entries[1..]);
      InsertLength(entries[0], Sorted(entries[1..]));
    }
  }

  lemma SortedNoLonger(entries: seq<Prop>)
    ensures |Sorted(Defined(entries))| <= |entries|
  {
    SortedLength(Defined(entries));
    DefinedNoLonger(entries);
  }

  lemma DefinedNoLonger(entries: seq<Prop>)
    ensures |Defined(entries)| <= |entries|
  {
  }

  ghost predicate SameEntries(es: seq<Prop>, fs: seq<Prop>) {
    |es| == |fs| && forall i :: 0 <= i < |es| ==> SameEntry(es[i], fs[i])
  }

  lemma SameEntriesBack(es: seq<Prop>, fs: seq<Prop>)
    requires SameEntries(es, fs)
    ensures SameEntries(fs, es)
  {
    forall i | 0 <= i < |fs| ensures SameEntry(fs[i], es[i]) { assert SameEntry(es[i], fs[i]); }
  }

  /** A key of `v` is one of `w`, and means the same there. */
  ghost predicate GoesOver(v: Js, w: Js, k: string)
    requires v.Obj? && w.Obj?
  {
    k in KeysOf(v.entries) ==>
      k in KeysOf(w.entries) && Meaning(ValueAt(v.entries, k)) == Meaning(ValueAt(w.entries, k))
  }

  lemma KeyGoesOver(v: Js, w: Js, k: string)
    requires Proper(v) && Proper(w) && v.Obj? && w.Obj?
    requires SameEntries(Sorted(Defined(v.entries)), Sorted(Defined(w.entries)))
    ensures GoesOver(v, w, k)
  {
    if k in KeysOf(v.entries) {
      var es, fs := Sorted(Defined(v.entries)), Sorted(Defined(w.entries));
      var e := Prop(k, Some(ValueAt(v.entries, k)));
      var i :| 0 <= i < |es| && es[i] == e;
      assert SameEntry(es[i], fs[i]) && fs[i] in w.entries;
      OneEntryPerKey(w, fs[i]);
    }
  }

  lemma SameFieldsSameMeaning(v: Js, w: Js)
    requires v.Obj? && w.Obj? && forall k :: GoesOver(v, w, k) && GoesOver(w, v, k)
    ensures Meaning(v) == Meaning(w)
  {
    forall k ensures k in KeysOf(v.entries) <==> k in KeysOf(w.entries) {
      assert GoesOver(v, w, k) && GoesOver(w, v, k);
    }
    var a, b := Meaning(v).fields, Meaning(w).fields;
    assert a.Keys == b.Keys;
    forall k | k in a ensures a[k] == b[k] {
      assert GoesOver(v, w, k);
    }
  }

  lemma SameEntriesSameMeaning(v: Js, w: Js)
    requires Proper(v) && Proper(w) && v.Obj? && w.Obj?
    requires SameEntries(Sorted(Defined(v.entries)), Sorted(Defined(w.entries)))
    ensures Meaning(v) == Meaning(w)
  {
    SameEntriesBack(Sorted(Defined(v.entries)), Sorted(Defined(w.entries)));
    forall k ensures GoesOver(v, w, k) && GoesOver(w, v, k) {
      KeyGoesOver(v, w, k);
      KeyGoesOver(w, v, k);
    }
    SameFieldsSameMeaning(v, w);
  }

  lemma OneEntryPerKey(v: Js, e: Prop)
    requires Proper(v) && v.Obj? && e in v.entries && e.value.Some?
    ensures e.key in KeysOf(v.entries) && ValueAt(v.entries, e.key) == e.value.value
  {
    var f := Prop(e.key, Some(ValueAt(v.entries, e.key)));
    var i :| 0 <= i < |v.entries| && v.entries[i] == e;
    var j :| 0 <= j < |v.entries| && v.entries[j] == f;
  }

  // ---- Key order does not matter ------------------------------------------------------------------

  lemma {:induction false} BeforeIsOrder(a: string, b: string, c: string)
    ensures !Before(a, a)
    ensures Before(a, b) && Before(b, c) ==> Before(a, c)
    ensures a != b ==> Before(a, b) || Before(b, a)
    decreases |a| + |b| + |c|
  {
    if a != "" && b != "" && c != "" {
      BeforeIsOrder(a[1..], b[1..], c[1..]);
      assert a[0] == b[0] && a[1..] == b[1..] ==> a == b by {
        assert a == [a[0]] + a[1..] && b == [b[0]] + b[1..];
      }
    } else if a != "" {
      BeforeIsOrder(a[1..], "", "");
      if b != "" { SameTailSame(a, b); BeforeIsOrder(a[1..], b[1..], ""); }
    }
  }

  lemma SameTailSame(a: string, b: string)
    requires a != "" && b != ""
    ensures a[0] == b[0] && a[1..] == b[1..] ==> a == b
  {
    assert a == [a[0]] + a[1..] && b == [b[0]] + b[1..];
  }

  ghost predicate Ordered(es: seq<Prop>) {
    forall i, j :: 0 <= i < j < |es| ==> Before(es[i].key, es[j].key)
  }

  lemma {:induction false} InsertOrdered(e: Prop, es: seq<Prop>)
    requires Ordered(es) && forall x :: x in es ==> x.key != e.key
    ensures Ordered(Insert(e, es))
  {
    if es != [] {
      var r := Insert(e, es);
      BeforeIsOrder(e.key, es[0].key, e.key);
      if Before(e.key, es[0].key) {
        forall j | 0 < j < |r|
          ensures Before(e.key, r[j].key)
        {
          if j > 1 { BeforeIsOrder(e.key, es[0].key, es[j - 1].key); }
        }
      } else {
        InsertOrdered(e, es[1..]);
        forall j | 0 < j < |r|
          ensures Before(es[0].key, r[j].key)
        {
          assert r[j] in Insert(e, es[1..]);
        }
      }
    }
  }

  ghost predicate OneEach(entries: seq<Prop>) {
    forall i, j :: 0 <= i < j < |entries| ==> entries[i].key != entries[j].key
  }

  lemma {:induction false} DefinedOneEach(entries: seq<Prop>)
    requires OneEach(entries)
    ensures OneEach(Defined(entries))
  {
    if entries != [] {
      DefinedOneEach(entries[1..]);
    }
  }

  lemma {:induction false} SortedOrdered(entries: seq<Prop>)
    requires OneEach(entries)
    ensures Ordered(Sorted(entries))
  {
    if entries != [] {
      SortedOrdered(entries[1..]);
      InsertOrdered(entries[0], Sorted(entries[1..]));
    }
  }

  ghost predicate HasMate(e: Prop, fs: seq<Prop>) {
    exists f :: f in fs && SameEntry(e, f)
  }

  ghost predicate Matched(es: seq<Prop>, fs: seq<Prop>) {
    forall e {:trigger HasMate(e, fs)} :: e in es ==> HasMate(e, fs)
  }

  lemma HeadIsLeast(es: seq<Prop>, e: Prop)
    requires Ordered(es) && e in es
    ensures e == es[0] || Before(es[0].key, e.key)
  {
  }

  lemma HeadsMatch(es: seq<Prop>, fs: seq<Prop>)
    requires Ordered(es) && Ordered(fs) && Matched(es, fs) && Matched(fs, es) && es != [] && fs != []
    ensures SameEntry(es[0], fs[0])
  {
    assert HasMate(es[0], fs) && HasMate(fs[0], es);
    var f :| f in fs && SameEntry(es[0], f);
    var e :| e in es && SameEntry(fs[0], e);
    HeadIsLeast(fs, f);
    HeadIsLeast(es, e);
    BeforeIsOrder(es[0].key, fs[0].key, es[0].key);
  }

  lemma TailsMatch(es: seq<Prop>, fs: seq<Prop>)
    requires Ordered(es) && Ordered(fs) && Matched(es, fs) && es != [] && fs != [] && SameEntry(es[0], fs[0])
    ensures Matched(es[1..], fs[1..])
  {
    forall e | e in es[1..]
      ensures HasMate(e, fs[1..])
    {
      assert e in es && HasMate(e, fs);
      var f :| f in fs && SameEntry(e, f);
      var i :| 0 <= i < |es[1..]| && es[1..][i] == e;
      assert Before(es[0].key, es[i + 1].key);
      BeforeIsOrder(es[0].key, es[0].key, es[0].key);
      var j :| 0 <= j < |fs| && fs[j] == f;
      assert j > 0;
      assert f == fs[1..][j - 1];
    }
  }

  lemma MatchedTails(es: seq<Prop>, fs: seq<Prop>)
    requires Ordered(es) && Ordered(fs) && Matched(es, fs) && Matched(fs, es) && es != [] && fs != []
    requires SameEntry(es[0], fs[0])
    ensures Ordered(es[1..]) && Ordered(fs[1..]) && Matched(es[1..], fs[1..]) && Matched(fs[1..], es[1..])
  {
    TailsMatch(es, fs);
    assert SameEntry(fs[0], es[0]);
    TailsMatch(fs, es);
  }

  lemma SameEntrySameText(v: Js, e: Prop, w: Js, f: Prop)
    requires Proper(v) && Proper(w) && v.Obj? && w.Obj? && e in v.entries && f in w.entries && SameEntry(e, f)
    ensures EntryText(v, e) == EntryText(w, f)
    decreases v, 0
  {
    SameMeaningSameText(e.value.value, f.value.value);
  }

  ghost predicate Pairwise(es: seq<Prop>, fs: seq<Prop>) {
    |es| == |fs| && forall i :: 0 <= i < |es| ==> SameEntry(es[i], fs[i])
  }

  lemma {:induction false} MatchedInOrder(es: seq<Prop>, fs: seq<Prop>)
    requires Ordered(es) && Ordered(fs) && Matched(es, fs) && Matched(fs, es)
    ensures Pairwise(es, fs)
  {
    if es == [] {
      assert fs != [] ==> fs[0] in fs && !HasMate(fs[0], es);
    } else {
      assert HasMate(es[0], fs);
      HeadsMatch(es, fs);
      MatchedTails(es, fs);
      MatchedInOrder(es[1..], fs[1..]);
      assert forall i :: 0 < i < |es| ==> es[i] == es[1..][i - 1] && fs[i] == fs[1..][i - 1];
    }
  }

  lemma {:induction false} SameEntriesSameText(v: Js, es: seq<Prop>, w: Js, fs: seq<Prop>)
    requires Proper(v) && Proper(w) && v.Obj? && w.Obj?
    requires (forall e :: e in es ==> e in v.entries && e.value.Some?)
    requires (forall f :: f in fs ==> f in w.entries && f.value.Some?)
    requires Pairwise(es, fs)
    ensures EntriesText(v, es) == EntriesText(w, fs)
    decreases v, |es| + 1
  {
    if es != [] {
      SameEntrySameText(v, es[0], w, fs[0]);
      SameEntriesSameText(v, es[1..], w, fs[1..]);
    }
  }

  lemma EntriesMatch(v: Js, w: Js)
    requires Proper(v) && Proper(w) && v.Obj? && w.Obj? && Meaning(v) == Meaning(w)
    ensures Matched(Sorted(Defined(v.entries)), Sorted(Defined(w.entries)))
  {
    forall e | e in Sorted(Defined(v.entries))
      ensures HasMate(e, Sorted(Defined(w.entries)))
    {
      OneEntryPerKey(v, e);
      assert e.key in Meaning(v).fields;
      assert e.key in KeysOf(w.entries);
      var f := Prop(e.key, Some(ValueAt(w.entries, e.key)));
      assert f in w.entries;
      assert Meaning(v).fields[e.key] == Meaning(w).fields[e.key];
      assert f in Sorted(Defined(w.entries)) && SameEntry(e, f);
    }
  }

  lemma {:induction false} SameMeaningSameText(v: Js, w: Js)
    requires Proper(v) && Proper(w) && Meaning(v) == Meaning(w)
    ensures CanonicalJson(v) == CanonicalJson(w)
    decreases v
  {
    match v
    case Arr(items) =>
      assert |Meaning(v).items| == |items| && |Meaning(w).items| == |w.items|;
      ItemsSameText(v, w, 0);
      assert items[0..] == items && w.items[0..] == w.items;
    case Obj(entries) =>
      EntriesMatch(v, w);
      EntriesMatch(w, v);
      DefinedOneEach(entries);
      DefinedOneEach(w.entries);
      SortedOrdered(Defined(entries));
      SortedOrdered(Defined(w.entries));
      SortedNoLonger(entries);
      MatchedInOrder(Sorted(Defined(entries)), Sorted(Defined(w.entries)));
      SameEntriesSameText(v, Sorted(Defined(entries)), w, Sorted(Defined(w.entries)));
    case _ =>
  }

  lemma SameItem(v: Js, w: Js, k: nat)
    requires v.Arr? && w.Arr? && Meaning(v) == Meaning(w) && k < |v.items|
    ensures |w.items| == |v.items| && Meaning(v.items[k]) == Meaning(w.items[k])
  {
    assert Meaning(v).items[k] == Meaning(v.items[k]);
    assert Meaning(w).items[k] == Meaning(w.items[k]);
  }

  lemma {:induction false} ItemsSameText(v: Js, w: Js, k: nat)
    requires Proper(v) && Proper(w) && v.Arr? && w.Arr?
    requires |v.items| == |w.items| && k <= |v.items| && Meaning(v) == Meaning(w)
    ensures ItemsText(v, v.items[k..]) == ItemsText(w, w.items[k..])
    decreases v, |v.items| - k
  {
    if k < |v.items| {
      SameItem(v, w, k);
      assert v.items[k] in v.items && w.items[k] in w.items;
      SameMeaningSameText(v.items[k], w.items[k]);
      ItemsSameText(v, w, k + 1);
      assert v.items[k..][1..] == v.items[k + 1..] && w.items[k..][1..] == w.items[k + 1..];
    }
  }

  // ---- The theorems -------------------------------------------------------------------------------

  /** Canonical JSON is injective on meanings and blind to key order, at any depth. */
  lemma PrintsAlikeIffMeansAlike(v: Js, w: Js)
    requires Proper(v) && Proper(w)
    ensures CanonicalJson(v) == CanonicalJson(w) <==> Meaning(v) == Meaning(w)
  {
    if CanonicalJson(v) == CanonicalJson(w) {
      assert CanonicalJson(v) + "" == CanonicalJson(w) + "";
      Cut(v, w, "", "");
    }
    if Meaning(v) == Meaning(w) {
      SameMeaningSameText(v, w);
    }
  }

  /** What a value that may be missing means. */
  ghost function MeaningOrNull(v: Option<Js>): Value {
    match v case None => VNull case Some(x) => Meaning(x)
  }

  /** What `sameJson` compares: meanings, a missing value read as null. */
  lemma SameJsonIsSameMeaning(a: Option<Js>, b: Option<Js>)
    requires (a.Some? ==> Proper(a.value)) && (b.Some? ==> Proper(b.value))
    ensures SameJson(a, b) <==> MeaningOrNull(a) == MeaningOrNull(b)
  {
    PrintsAlikeIffMeansAlike(OrNull(a), OrNull(b));
  }
}
