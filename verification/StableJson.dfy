/** Canonical JSON text: objects are printed with their keys sorted. Two values print the same text
    exactly when they are equal up to the order of object keys, as long as the key order is total. */
module StableJson {
  import opened Sequences

  /** A JSON value. A number is its JSON literal; the keys of an object are distinct. */
  datatype Json =
    | Null
    | Bool(value: bool)
    | Num(literal: string)
    | Str(text: string)
    | Arr(items: seq<Json>)
    | Obj(entries: seq<Entry>)

  datatype Entry = Entry(key: string, value: Json)

  const NUMBER_CHARS := "-+.0123456789eE"

  predicate IsLiteral(s: string) {
    s != "" && forall i | 0 <= i < |s| :: s[i] in NUMBER_CHARS
  }

  predicate WellFormed(v: Json) {
    match v
    case Num(literal) => IsLiteral(literal)
    case Arr(items) => forall i | 0 <= i < |items| :: WellFormed(items[i])
    case Obj(entries) =>
      && (forall i | 0 <= i < |entries| :: WellFormed(entries[i].value))
      && forall i, j | 0 <= i < j < |entries| :: entries[i].key != entries[j].key
    case _ => true
  }

  /** Equal up to the order of object keys. */
  predicate Same(a: Json, b: Json) {
    match (a, b)
    case (Arr(xs), Arr(ys)) => |xs| == |ys| && forall i | 0 <= i < |xs| :: Same(xs[i], ys[i])
    case (Obj(xs), Obj(ys)) =>
      && (forall i | 0 <= i < |xs| :: HasKey(ys, xs[i].key))
      && (forall j | 0 <= j < |ys| :: HasKey(xs, ys[j].key))
      && forall i, j | 0 <= i < |xs| && 0 <= j < |ys| && xs[i].key == ys[j].key :: Same(xs[i].value, ys[j].value)
    case _ => a == b
  }

  predicate HasKey(entries: seq<Entry>, key: string) {
    exists i :: 0 <= i < |entries| && entries[i].key == key
  }

  // ---------- sorting by key ----------

  type KeyOrder = (string, string) -> bool

  /** What a comparison function of a sort promises; distinct keys may still tie. */
  ghost predicate Preorder(le: KeyOrder) {
    && (forall a, b :: le(a, b) || le(b, a))
    && (forall a, b, c :: le(a, b) && le(b, c) ==> le(a, c))
  }

  ghost predicate NoTies(le: KeyOrder) {
    forall a, b :: le(a, b) && le(b, a) ==> a == b
  }

  datatype Pair = Pair(key: string, text: string)

  function InsertPair(le: KeyOrder, p: Pair, sorted: seq<Pair>): seq<Pair> {
    if sorted == [] || le(p.key, sorted[0].key) then [p] + sorted else [sorted[0]] + InsertPair(le, p, sorted[1..])
  }

  /** The stable sort by key. */
  function SortPairs(le: KeyOrder, ps: seq<Pair>): seq<Pair> {
    if ps == [] then [] else InsertPair(le, ps[0], SortPairs(le, ps[1..]))
  }

  // ---------- printing ----------

  function Hex(n: nat): char
    requires n < 16
  {
    "0123456789abcdef"[n]
  }

  function EscapeChar(c: char): string {
    if c == '"' then "\\\""
    else if c == '\\' then "\\\\"
    else if c == 8 as char then "\\b"
    else if c == '\t' then "\\t"
    else if c == '\n' then "\\n"
    else if c == 12 as char then "\\f"
    else if c == '\r' then "\\r"
    else if c < ' ' then "\\u00" + [Hex(c as int / 16), Hex(c as int % 16)]
    else [c]
  }

  function Escape(s: string): string {
    if s == "" then "" else EscapeChar(s[0]) + Escape(s[1..])
  }

  function Quote(s: string): string { "\"" + Escape(s) + "\"" }

  function Join(texts: seq<string>): string {
    if texts == [] then "" else texts[0] + (if |texts| == 1 then "" else "," + Join(texts[1..]))
  }

  function EntryText(p: Pair): string { Quote(p.key) + ":" + p.text }

  function EntryTexts(ps: seq<Pair>): seq<string> {
    seq(|ps|, i requires 0 <= i < |ps| => EntryText(ps[i]))
  }

  /** The entries with their values printed. Printing before sorting by key gives the same list as
      the other way round. */
  function PrintedPairs(le: KeyOrder, entries: seq<Entry>): seq<Pair>
    decreases entries, 0
  {
    seq(|entries|, i requires 0 <= i < |entries| => Pair(entries[i].key, Print(le, entries[i].value)))
  }

  function PrintedItems(le: KeyOrder, items: seq<Json>): seq<string>
    decreases items, 0
  {
    seq(|items|, i requires 0 <= i < |items| => Print(le, items[i]))
  }

  function Print(le: KeyOrder, v: Json): string
    decreases v, 1
  {
    match v
    case Null => "null"
    case Bool(b) => if b then "true" else "false"
    case Num(literal) => literal
    case Str(text) => Quote(text)
    case Arr(items) => "[" + Join(PrintedItems(le, items)) + "]"
    case Obj(entries) => "{" + Join(EntryTexts(SortPairs(le, PrintedPairs(le, entries)))) + "}"
  }

  // ---------- texts that cannot be confused ----------

  predicate Delimited(rest: string) { rest == "" || rest[0] in ",]}" }

  /** Neither text is a proper beginning of the other once a delimiter follows. */
  ghost predicate Apart(s: string, t: string) {
    forall x, y | Delimited(x) && Delimited(y) && s + x == t + y :: s == t
  }

  predicate Starts(s: string) { s != "" && s[0] !in ",]}" }

  lemma EscapeCharLength(c: char)
    ensures var e := EscapeChar(c);
      && |e| in {1, 2, 6}
      && (|e| == 1 <==> e[0] != '\\')
      && (|e| > 1 ==> (|e| == 6 <==> e[1] == 'u'))
  {
  }

  lemma PlainCharOf(c: char)
    requires |EscapeChar(c)| == 1
    ensures EscapeChar(c) == [c]
  {
  }

  lemma ShortEscapeOf(c: char, d: char)
    requires |EscapeChar(c)| == 2 && EscapeChar(c) == EscapeChar(d)
    ensures c == d
  {
  }

  lemma LongEscapeOf(c: char)
    requires |EscapeChar(c)| == 6
    ensures c < ' ' && EscapeChar(c)[4] == Hex(c as int / 16) && EscapeChar(c)[5] == Hex(c as int % 16)
  {
  }

  lemma HexInjective(m: nat, n: nat)
    requires m < 16 && n < 16 && Hex(m) == Hex(n)
    ensures m == n
  {
  }

  lemma EscapeCharInjective(c: char, d: char)
    requires EscapeChar(c) == EscapeChar(d)
    ensures c == d
  {
    hide EscapeChar, Hex;
    EscapeCharLength(c);
    if |EscapeChar(c)| == 1 {
      PlainCharOf(c);
      PlainCharOf(d);
    } else if |EscapeChar(c)| == 2 {
      ShortEscapeOf(c, d);
    } else {
      LongEscapeOf(c);
      LongEscapeOf(d);
      HexInjective(c as int / 16, d as int / 16);
      HexInjective(c as int % 16, d as int % 16);
    }
  }

  /** The first two characters of an escape tell its length. */
  lemma EscapeCharPrefix(c: char, d: char, u: string, v: string)
    requires EscapeChar(c) + u == EscapeChar(d) + v
    ensures c == d && u == v
  {
    hide EscapeChar;
    var e, f := EscapeChar(c), EscapeChar(d);
    var l, r := e + u, f + v;
    EscapeCharLength(c);
    EscapeCharLength(d);
    assert l[0] == e[0] && r[0] == f[0];
    assert |e| > 1 && |f| > 1 ==> l[1] == e[1] && r[1] == f[1];
    assert |e| == |f|;
    assert l[..|e|] == e && r[..|e|] == f && l[|e|..] == u && r[|e|..] == v;
    EscapeCharInjective(c, d);
  }

  lemma EscapeHead(s: string, x: string)
    ensures (Escape(s) + "\"" + x)[0] == '"' <==> s == ""
  {
    if s != "" {
      assert EscapeChar(s[0])[0] != '"';
    }
  }

  lemma {:induction false} EscapePrefix(s: string, t: string, x: string, y: string)
    requires Escape(s) + "\"" + x == Escape(t) + "\"" + y
    ensures s == t && x == y
  {
    hide EscapeChar;
    var l, r := Escape(s) + "\"" + x, Escape(t) + "\"" + y;
    EscapeHead(s, x);
    EscapeHead(t, y);
    if s == "" {
      assert l[1..] == x && r[1..] == y;
    } else {
      var u, v := Escape(s[1..]) + "\"" + x, Escape(t[1..]) + "\"" + y;
      assert l == EscapeChar(s[0]) + u && r == EscapeChar(t[0]) + v;
      EscapeCharPrefix(s[0], t[0], u, v);
      EscapePrefix(s[1..], t[1..], x, y);
      assert s == [s[0]] + s[1..] && t == [t[0]] + t[1..];
    }
  }

  lemma QuotePrefix(s: string, t: string, x: string, y: string)
    requires Quote(s) + x == Quote(t) + y
    ensures s == t && x == y
  {
    var l, r := Quote(s) + x, Quote(t) + y;
    assert l[1..] == Escape(s) + "\"" + x && r[1..] == Escape(t) + "\"" + y;
    EscapePrefix(s, t, x, y);
  }

  /** A literal that goes on beyond another one would have to go on with a delimiter. */
  lemma LiteralEnds(s: string, x: string, t: string, y: string)
    requires IsLiteral(s) && IsLiteral(t) && Delimited(x) && s + x == t + y
    ensures |t| <= |s|
  {
    assert x != "" ==> (s + x)[|s|] in ",]}";
    assert forall i | 0 <= i < |t| :: (t + y)[i] in NUMBER_CHARS;
  }

  lemma LiteralsApart(s: string, t: string)
    requires IsLiteral(s) && IsLiteral(t)
    ensures Apart(s, t)
  {
    forall x, y | Delimited(x) && Delimited(y) && s + x == t + y
      ensures s == t
    {
      LiteralEnds(s, x, t, y);
      LiteralEnds(t, y, s, x);
      assert (s + x)[..|s|] == s && (t + y)[..|t|] == t;
    }
  }

  lemma EntriesApart(p: Pair, q: Pair)
    requires Apart(p.text, q.text)
    ensures Apart(EntryText(p), EntryText(q))
    ensures EntryText(p) == EntryText(q) ==> p == q
  {
    hide Quote;
    forall x, y | Delimited(x) && Delimited(y) && EntryText(p) + x == EntryText(q) + y
      ensures p == q
    {
      assert EntryText(p) + x == Quote(p.key) + (":" + p.text + x);
      assert EntryText(q) + y == Quote(q.key) + (":" + q.text + y);
      QuotePrefix(p.key, q.key, ":" + p.text + x, ":" + q.text + y);
      assert (":" + p.text + x)[1..] == p.text + x && (":" + q.text + y)[1..] == q.text + y;
    }
    if EntryText(p) == EntryText(q) {
      assert Delimited("") && EntryText(p) + "" == EntryText(q) + "";
    }
  }

  ghost predicate AllApart(ss: seq<string>, ts: seq<string>) {
    && (forall i | 0 <= i < |ss| :: Starts(ss[i]))
    && (forall j | 0 <= j < |ts| :: Starts(ts[j]))
    && forall i, j | 0 <= i < |ss| && 0 <= j < |ts| :: Apart(ss[i], ts[j])
  }

  /** What follows the first text of a joined list. */
  function AfterFirst(texts: seq<string>, close: char, rest: string): string
    requires texts != []
  {
    if |texts| == 1 then [close] + rest else "," + (Join(texts[1..]) + [close] + rest)
  }

  lemma JoinFirst(texts: seq<string>, close: char, rest: string)
    requires texts != []
    ensures Join(texts) + [close] + rest == texts[0] + AfterFirst(texts, close, rest)
    ensures close in "]}" ==> Delimited(AfterFirst(texts, close, rest))
  {
  }

  lemma JoinHead(texts: seq<string>, close: char, rest: string)
    requires close in "]}" && (texts != [] ==> Starts(texts[0]))
    ensures (Join(texts) + [close] + rest)[0] == close <==> texts == []
  {
    if texts != [] {
      JoinFirst(texts, close, rest);
    }
  }

  /** A joined list, followed by its closing bracket, can be read in one way only. */
  lemma {:induction false} JoinPrefix(ss: seq<string>, ts: seq<string>, close: char, x: string, y: string)
    requires AllApart(ss, ts) && close in "]}"
    requires Join(ss) + [close] + x == Join(ts) + [close] + y
    ensures ss == ts && x == y
    decreases |ss|
  {
    hide Join, Starts, Apart, AfterFirst;
    JoinHead(ss, close, x);
    JoinHead(ts, close, y);
    if ss == [] {
      NothingJoined(close, x);
      NothingJoined(close, y);
    } else {
      JoinFirst(ss, close, x);
      JoinFirst(ts, close, y);
      FirstApart(ss[0], ts[0], AfterFirst(ss, close, x), AfterFirst(ts, close, y));
      AfterFirstPrefix(ss, ts, close, x, y);
      assert ss == [ss[0]] + ss[1..] && ts == [ts[0]] + ts[1..];
    }
  }

  lemma NothingJoined(close: char, x: string)
    ensures (Join([]) + [close] + x)[1..] == x
  {
  }

  lemma FirstApart(s: string, t: string, u: string, v: string)
    requires Apart(s, t) && Delimited(u) && Delimited(v) && s + u == t + v
    ensures s == t && u == v
  {
    assert (s + u)[|s|..] == u && (t + v)[|t|..] == v;
  }

  lemma AfterFirstPrefix(ss: seq<string>, ts: seq<string>, close: char, x: string, y: string)
    requires AllApart(ss, ts) && close in "]}" && ss != [] && ts != []
    requires AfterFirst(ss, close, x) == AfterFirst(ts, close, y)
    ensures ss[1..] == ts[1..] && x == y
    decreases |ss|, 0
  {
    var u, v := AfterFirst(ss, close, x), AfterFirst(ts, close, y);
    assert u[0] == v[0];
    if |ss| == 1 {
      assert u[1..] == x && v[1..] == y;
    } else {
      assert u[1..] == Join(ss[1..]) + [close] + x && v[1..] == Join(ts[1..]) + [close] + y;
      JoinPrefix(ss[1..], ts[1..], close, x, y);
    }
  }

  // ---------- printed values ----------

  lemma PrintStarts(le: KeyOrder, v: Json)
    requires WellFormed(v)
    ensures Starts(Print(le, v))
  {
  }

  /** The kind of a value shows in the first character of its text. */
  function Head(v: Json): set<char> {
    match v
    case Null => {'n'}
    case Bool(b) => {if b then 't' else 'f'}
    case Num(_) => set c | c in NUMBER_CHARS
    case Str(_) => {'"'}
    case Arr(_) => {'['}
    case Obj(_) => {'{'}
  }

  lemma PrintHead(le: KeyOrder, v: Json)
    requires WellFormed(v)
    ensures Print(le, v) != "" && Print(le, v)[0] in Head(v)
  {
  }

  lemma HeadsDiffer(le: KeyOrder, a: Json, b: Json)
    requires WellFormed(a) && WellFormed(b) && Head(a) !! Head(b)
    ensures Apart(Print(le, a), Print(le, b)) && Print(le, a) != Print(le, b)
  {
    hide Print;
    PrintHead(le, a);
    PrintHead(le, b);
    forall x, y: string
      ensures Print(le, a) + x != Print(le, b) + y
    {
      assert (Print(le, a) + x)[0] == Print(le, a)[0] && (Print(le, b) + y)[0] == Print(le, b)[0];
    }
  }

  lemma {:induction false} InsertedElements(le: KeyOrder, p: Pair, sorted: seq<Pair>)
    ensures multiset(InsertPair(le, p, sorted)) == multiset(sorted) + multiset{p}
  {
    if !(sorted == [] || le(p.key, sorted[0].key)) {
      InsertedElements(le, p, sorted[1..]);
      assert sorted == [sorted[0]] + sorted[1..];
    }
  }

  lemma {:induction false} SortedElements(le: KeyOrder, ps: seq<Pair>)
    ensures multiset(SortPairs(le, ps)) == multiset(ps)
  {
    if ps != [] {
      SortedElements(le, ps[1..]);
      InsertedElements(le, ps[0], SortPairs(le, ps[1..]));
      assert ps == [ps[0]] + ps[1..];
    }
  }

  lemma SortedMembers(le: KeyOrder, ps: seq<Pair>)
    ensures forall p :: p in SortPairs(le, ps) <==> p in ps
  {
    SortedElements(le, ps);
    forall p
      ensures p in SortPairs(le, ps) <==> p in ps
    {
      assert p in SortPairs(le, ps) <==> p in multiset(SortPairs(le, ps));
      assert p in ps <==> p in multiset(ps);
    }
  }

  ghost predicate PairsApart(ps: seq<Pair>, qs: seq<Pair>) {
    forall p, q | p in ps && q in qs :: Apart(p.text, q.text)
  }

  lemma EntryTextsApart(ps: seq<Pair>, qs: seq<Pair>)
    requires PairsApart(ps, qs)
    ensures AllApart(EntryTexts(ps), EntryTexts(qs))
    ensures EntryTexts(ps) == EntryTexts(qs) ==> ps == qs
  {
    hide Apart, Quote;
    var ss, ts := EntryTexts(ps), EntryTexts(qs);
    forall i, j | 0 <= i < |ps| && 0 <= j < |qs|
      ensures Apart(ss[i], ts[j]) && (ss[i] == ts[j] ==> ps[i] == qs[j])
    {
      EntriesApart(ps[i], qs[j]);
    }
    forall p: Pair
      ensures Starts(EntryText(p))
    {
      EntryStarts(p);
    }
    if ss == ts {
      assert |ps| == |ss| && |qs| == |ts|;
      forall i | 0 <= i < |ps|
        ensures ps[i] == qs[i]
      {
        assert ss[i] == ts[i];
      }
    }
  }

  lemma EntryStarts(p: Pair)
    ensures Starts(EntryText(p))
  {
  }

  /** Bracketed lists of apart texts are apart, and equal only if the lists are. */
  lemma BracketsApart(start: char, ss: seq<string>, ts: seq<string>, close: char)
    requires AllApart(ss, ts) && close in "]}"
    ensures Apart([start] + Join(ss) + [close], [start] + Join(ts) + [close])
    ensures [start] + Join(ss) + [close] == [start] + Join(ts) + [close] ==> ss == ts
  {
    var s, t := [start] + Join(ss) + [close], [start] + Join(ts) + [close];
    forall x, y | Delimited(x) && Delimited(y) && s + x == t + y
      ensures ss == ts
    {
      assert (s + x)[1..] == Join(ss) + [close] + x && (t + y)[1..] == Join(ts) + [close] + y;
      JoinPrefix(ss, ts, close, x, y);
    }
    if s == t {
      assert Delimited("") && s + "" == t + "";
    }
  }

  /** The texts of two values are apart, and equal only for values equal up to key order. */
  lemma {:induction false} PrintInjective(le: KeyOrder, a: Json, b: Json)
    requires WellFormed(a) && WellFormed(b)
    ensures Apart(Print(le, a), Print(le, b))
    ensures Print(le, a) == Print(le, b) ==> Same(a, b)
    decreases a
  {
    match (a, b)
    case (Num(s), Num(t)) => LiteralsApart(s, t);
    case (Str(s), Str(t)) => QuotesApart(s, t);
    case (Arr(xs), Arr(ys)) =>
      forall i, j | 0 <= i < |xs| && 0 <= j < |ys|
        ensures Apart(Print(le, xs[i]), Print(le, ys[j]))
        ensures Print(le, xs[i]) == Print(le, ys[j]) ==> Same(xs[i], ys[j])
      {
        PrintInjective(le, xs[i], ys[j]);
      }
      ArraysApart(le, xs, ys);
    case (Obj(xs), Obj(ys)) =>
      forall i, j | 0 <= i < |xs| && 0 <= j < |ys|
        ensures Apart(Print(le, xs[i].value), Print(le, ys[j].value))
        ensures Print(le, xs[i].value) == Print(le, ys[j].value) ==> Same(xs[i].value, ys[j].value)
      {
        PrintInjective(le, xs[i].value, ys[j].value);
      }
      ObjectsApart(le, xs, ys);
    case _ =>
      if a != b { HeadsDiffer(le, a, b); }
  }

  lemma QuotesApart(s: string, t: string)
    ensures Apart(Quote(s), Quote(t))
    ensures Quote(s) == Quote(t) ==> s == t
  {
    forall x, y | Delimited(x) && Delimited(y) && Quote(s) + x == Quote(t) + y
      ensures s == t
    {
      QuotePrefix(s, t, x, y);
    }
    if Quote(s) == Quote(t) {
      assert Quote(s) + "" == Quote(t) + "";
      QuotePrefix(s, t, "", "");
    }
  }

  lemma ArraysApart(le: KeyOrder, xs: seq<Json>, ys: seq<Json>)
    requires WellFormed(Arr(xs)) && WellFormed(Arr(ys))
    requires forall i, j | 0 <= i < |xs| && 0 <= j < |ys| :: Apart(Print(le, xs[i]), Print(le, ys[j]))
    requires forall i, j | 0 <= i < |xs| && 0 <= j < |ys| :: Print(le, xs[i]) == Print(le, ys[j]) ==> Same(xs[i], ys[j])
    ensures Apart(Print(le, Arr(xs)), Print(le, Arr(ys)))
    ensures Print(le, Arr(xs)) == Print(le, Arr(ys)) ==> Same(Arr(xs), Arr(ys))
  {
    var ss, ts := PrintedItems(le, xs), PrintedItems(le, ys);
    forall v: Json | WellFormed(v)
      ensures Starts(Print(le, v))
    {
      PrintStarts(le, v);
    }
    assert AllApart(ss, ts);
    BracketsApart('[', ss, ts, ']');
    if ss == ts {
      assert |ss| == |xs| && |ts| == |ys|;
      forall i | 0 <= i < |xs|
        ensures Same(xs[i], ys[i])
      {
        assert ss[i] == ts[i];
      }
    }
  }

  lemma ObjectsApart(le: KeyOrder, xs: seq<Entry>, ys: seq<Entry>)
    requires WellFormed(Obj(xs)) && WellFormed(Obj(ys))
    requires forall i, j | 0 <= i < |xs| && 0 <= j < |ys| :: Apart(Print(le, xs[i].value), Print(le, ys[j].value))
    requires forall i, j | 0 <= i < |xs| && 0 <= j < |ys| ::
      Print(le, xs[i].value) == Print(le, ys[j].value) ==> Same(xs[i].value, ys[j].value)
    ensures Apart(Print(le, Obj(xs)), Print(le, Obj(ys)))
    ensures Print(le, Obj(xs)) == Print(le, Obj(ys)) ==> Same(Obj(xs), Obj(ys))
  {
    var ps, qs := PrintedPairs(le, xs), PrintedPairs(le, ys);
    SortedMembers(le, ps);
    SortedMembers(le, qs);
    var ss, ts := SortPairs(le, ps), SortPairs(le, qs);
    assert PairsApart(ss, ts);
    EntryTextsApart(ss, ts);
    BracketsApart('{', EntryTexts(ss), EntryTexts(ts), '}');
    if ss == ts {
      SamePairs(le, xs, ys);
    }
  }

  /** Objects with the same printed members are equal up to key order. */
  lemma SamePairs(le: KeyOrder, xs: seq<Entry>, ys: seq<Entry>)
    requires WellFormed(Obj(xs)) && WellFormed(Obj(ys)) && PrintedIn(le, xs, ys) && PrintedIn(le, ys, xs)
    requires forall i, j | 0 <= i < |xs| && 0 <= j < |ys| ::
      Print(le, xs[i].value) == Print(le, ys[j].value) ==> Same(xs[i].value, ys[j].value)
    ensures Same(Obj(xs), Obj(ys))
  {
    hide Print, WellFormed, HasKey, PrintedIn;
    forall i, j | 0 <= i < |xs| && 0 <= j < |ys| && xs[i].key == ys[j].key
      ensures Same(xs[i].value, ys[j].value)
    {
      SameKeyPrintsSame(le, xs, ys, i, j);
    }
    forall i | 0 <= i < |xs|
      ensures HasKey(ys, xs[i].key)
    {
      var _ := PairPosition(le, xs, ys, i);
    }
    forall j | 0 <= j < |ys|
      ensures HasKey(xs, ys[j].key)
    {
      var _ := PairPosition(le, ys, xs, j);
    }
  }

  /** Every printed member of the one is a printed member of the other. */
  ghost predicate PrintedIn(le: KeyOrder, xs: seq<Entry>, ys: seq<Entry>) {
    forall p :: p in PrintedPairs(le, xs) ==> p in PrintedPairs(le, ys)
  }

  lemma SameKeyPrintsSame(le: KeyOrder, xs: seq<Entry>, ys: seq<Entry>, i: nat, j: nat)
    requires WellFormed(Obj(ys)) && PrintedIn(le, xs, ys)
    requires i < |xs| && j < |ys| && xs[i].key == ys[j].key
    ensures Print(le, xs[i].value) == Print(le, ys[j].value)
  {
    hide Print, WellFormed, PrintedIn;
    var k := PairPosition(le, xs, ys, i);
    KeysDiffer(ys, j, k);
  }

  lemma KeysDiffer(entries: seq<Entry>, i: nat, j: nat)
    requires WellFormed(Obj(entries)) && i < |entries| && j < |entries| && entries[i].key == entries[j].key
    ensures i == j
  {
  }

  lemma PairPosition(le: KeyOrder, xs: seq<Entry>, ys: seq<Entry>, i: nat) returns (j: nat)
    requires PrintedIn(le, xs, ys) && i < |xs|
    ensures j < |ys| && ys[j].key == xs[i].key && Print(le, ys[j].value) == Print(le, xs[i].value)
    ensures HasKey(ys, xs[i].key)
  {
    hide Print;
    var ps, qs := PrintedPairs(le, xs), PrintedPairs(le, ys);
    assert ps[i] in ps;
    j :| j < |qs| && qs[j] == ps[i];
  }

  // ---------- equal values print equal text ----------

  ghost predicate DistinctKeys(ps: seq<Pair>) {
    forall i, j | 0 <= i < j < |ps| :: ps[i].key != ps[j].key
  }

  ghost predicate Ordered(le: KeyOrder, ps: seq<Pair>) {
    forall i, j | 0 <= i < j < |ps| :: le(ps[i].key, ps[j].key)
  }

  lemma {:induction false} InsertOrdered(le: KeyOrder, p: Pair, sorted: seq<Pair>)
    requires Preorder(le) && Ordered(le, sorted)
    ensures Ordered(le, InsertPair(le, p, sorted))
    ensures forall q :: q in InsertPair(le, p, sorted) ==> q == p || q in sorted
  {
    if sorted == [] || le(p.key, sorted[0].key) {
      var r := [p] + sorted;
      forall i, j | 0 <= i < j < |r|
        ensures le(r[i].key, r[j].key)
      {
        if i == 0 && j > 1 { assert le(sorted[0].key, sorted[j - 1].key); }
      }
    } else {
      InsertOrdered(le, p, sorted[1..]);
      var tail := InsertPair(le, p, sorted[1..]);
      forall j | 0 <= j < |tail|
        ensures le(sorted[0].key, tail[j].key)
      {
        assert tail[j] in tail;
        assert tail[j] == p || tail[j] in sorted[1..];
      }
    }
  }

  lemma {:induction false} SortOrders(le: KeyOrder, ps: seq<Pair>)
    requires Preorder(le)
    ensures Ordered(le, SortPairs(le, ps))
  {
    if ps != [] {
      SortOrders(le, ps[1..]);
      InsertOrdered(le, ps[0], SortPairs(le, ps[1..]));
    }
  }

  lemma SameHead(le: KeyOrder, ss: seq<Pair>, ts: seq<Pair>)
    requires Preorder(le) && NoTies(le) && Ordered(le, ss) && Ordered(le, ts)
    requires multiset(ss) == multiset(ts) && DistinctKeys(ss) && ss != [] && ts != []
    ensures ss[0] == ts[0]
  {
    assert ss[0] in multiset(ts) && ts[0] in multiset(ss);
    var i :| 0 <= i < |ts| && ts[i] == ss[0];
    var j :| 0 <= j < |ss| && ss[j] == ts[0];
    assert le(ts[0].key, ts[i].key) || i == 0;
    assert le(ss[0].key, ss[j].key) || j == 0;
  }

  /** Without ties an ordered list is determined by its elements. */
  lemma {:induction false} OrderedUnique(le: KeyOrder, ss: seq<Pair>, ts: seq<Pair>)
    requires Preorder(le) && NoTies(le) && Ordered(le, ss) && Ordered(le, ts)
    requires multiset(ss) == multiset(ts) && DistinctKeys(ss)
    ensures ss == ts
    decreases |ss|
  {
    hide Preorder, NoTies, Ordered, DistinctKeys;
    assert |ss| == |multiset(ss)| == |multiset(ts)| == |ts|;
    if ss != [] {
      SameHead(le, ss, ts);
      RestMultiset(ss);
      RestMultiset(ts);
      RestOrdered(le, ss);
      RestOrdered(le, ts);
      OrderedUnique(le, ss[1..], ts[1..]);
      assert ss == [ss[0]] + ss[1..] && ts == [ts[0]] + ts[1..];
    }
  }

  lemma RestMultiset(ss: seq<Pair>)
    requires ss != []
    ensures multiset(ss[1..]) == multiset(ss) - multiset{ss[0]}
  {
    assert ss == [ss[0]] + ss[1..];
  }

  lemma RestOrdered(le: KeyOrder, ss: seq<Pair>)
    requires Ordered(le, ss) && ss != []
    ensures Ordered(le, ss[1..]) && (DistinctKeys(ss) ==> DistinctKeys(ss[1..]))
  {
  }

  lemma {:induction false} DistinctMultiset(ps: seq<Pair>)
    requires DistinctKeys(ps)
    ensures forall p :: multiset(ps)[p] == if p in ps then 1 else 0
  {
    if ps != [] {
      DistinctMultiset(ps[1..]);
      assert ps == [ps[0]] + ps[1..];
    }
  }

  lemma DistinctFromMultiset(ss: seq<Pair>, ps: seq<Pair>)
    requires multiset(ss) == multiset(ps) && DistinctKeys(ps)
    ensures DistinctKeys(ss)
  {
    DistinctMultiset(ps);
    forall i, j | 0 <= i < j < |ss|
      ensures ss[i].key != ss[j].key
    {
      assert ss[i] in multiset(ps) && ss[j] in multiset(ps);
      var a :| 0 <= a < |ps| && ps[a] == ss[i];
      var b :| 0 <= b < |ps| && ps[b] == ss[j];
      CountedTwice(ss, i, j);
    }
  }

  /** Sorting forgets the order of distinct keys. */
  lemma SortForgetsOrder(le: KeyOrder, ps: seq<Pair>, qs: seq<Pair>)
    requires Preorder(le) && NoTies(le) && DistinctKeys(ps) && DistinctKeys(qs)
    requires forall p :: p in ps <==> p in qs
    ensures SortPairs(le, ps) == SortPairs(le, qs)
  {
    DistinctMultiset(ps);
    DistinctMultiset(qs);
    assert multiset(ps) == multiset(qs);
    SortedElements(le, ps);
    SortedElements(le, qs);
    SortOrders(le, ps);
    SortOrders(le, qs);
    DistinctFromMultiset(SortPairs(le, ps), ps);
    OrderedUnique(le, SortPairs(le, ps), SortPairs(le, qs));
  }

  lemma {:induction false} SamePrints(le: KeyOrder, a: Json, b: Json)
    requires Preorder(le) && NoTies(le) && WellFormed(a) && WellFormed(b) && Same(a, b)
    ensures Print(le, a) == Print(le, b)
    decreases a
  {
    match (a, b)
    case (Arr(xs), Arr(ys)) =>
      forall i | 0 <= i < |xs|
        ensures Print(le, xs[i]) == Print(le, ys[i])
      {
        SamePrints(le, xs[i], ys[i]);
      }
      assert PrintedItems(le, xs) == PrintedItems(le, ys);
    case (Obj(xs), Obj(ys)) =>
      forall i, j | 0 <= i < |xs| && 0 <= j < |ys| && xs[i].key == ys[j].key
        ensures Print(le, xs[i].value) == Print(le, ys[j].value)
      {
        SamePrints(le, xs[i].value, ys[j].value);
      }
      SamePairMembers(le, xs, ys);
      SortForgetsOrder(le, PrintedPairs(le, xs), PrintedPairs(le, ys));
    case _ =>
  }

  lemma SamePairMembers(le: KeyOrder, xs: seq<Entry>, ys: seq<Entry>)
    requires WellFormed(Obj(xs)) && WellFormed(Obj(ys)) && Same(Obj(xs), Obj(ys))
    requires forall i, j | 0 <= i < |xs| && 0 <= j < |ys| && xs[i].key == ys[j].key ::
      Print(le, xs[i].value) == Print(le, ys[j].value)
    ensures DistinctKeys(PrintedPairs(le, xs)) && DistinctKeys(PrintedPairs(le, ys))
    ensures forall p :: p in PrintedPairs(le, xs) <==> p in PrintedPairs(le, ys)
  {
    hide Print;
    var ps, qs := PrintedPairs(le, xs), PrintedPairs(le, ys);
    forall i | 0 <= i < |ps|
      ensures ps[i] in qs
    {
      assert HasKey(ys, xs[i].key);
      var j :| 0 <= j < |ys| && ys[j].key == xs[i].key;
      assert qs[j] == ps[i];
    }
    forall j | 0 <= j < |qs|
      ensures qs[j] in ps
    {
      assert HasKey(xs, ys[j].key);
      var i :| 0 <= i < |xs| && xs[i].key == ys[j].key;
      assert ps[i] == qs[j];
    }
  }

  // ---------- the main results ----------

  /** Canonical text: over a total key order, two values print equal strings exactly when they are
      equal up to object key order. */
  lemma Canonical(le: KeyOrder, a: Json, b: Json)
    requires Preorder(le) && NoTies(le) && WellFormed(a) && WellFormed(b)
    ensures Print(le, a) == Print(le, b) <==> Same(a, b)
  {
    PrintInjective(le, a, b);
    if Same(a, b) {
      SamePrints(le, a, b);
    }
  }

  /** Every value prints like its reorderings. */
  ghost predicate IsCanonical(le: KeyOrder) {
    forall a, b | WellFormed(a) && WellFormed(b) && Same(a, b) :: Print(le, a) == Print(le, b)
  }

  function Twin(k: string, l: string): Json { Obj([Entry(k, Null), Entry(l, Bool(true))]) }

  function TwinReversed(k: string, l: string): Json { Obj([Entry(l, Bool(true)), Entry(k, Null)]) }

  /** A comparison that ties on two distinct keys, as a locale comparison may, is enough to print one
      object in two ways: the text is canonical exactly when the order has no ties. */
  lemma CanonicalIffNoTies(le: KeyOrder)
    requires Preorder(le)
    ensures IsCanonical(le) <==> NoTies(le)
  {
    if NoTies(le) {
      forall a, b | WellFormed(a) && WellFormed(b) && Same(a, b)
        ensures Print(le, a) == Print(le, b)
      {
        SamePrints(le, a, b);
      }
    } else {
      var k, l :| le(k, l) && le(l, k) && k != l;
      TieShows(le, k, l);
    }
  }

  lemma TwinsAreSame(k: string, l: string)
    requires k != l
    ensures WellFormed(Twin(k, l)) && WellFormed(TwinReversed(k, l)) && Same(Twin(k, l), TwinReversed(k, l))
  {
    var xs, ys := Twin(k, l).entries, TwinReversed(k, l).entries;
    assert ys[0].key == l && ys[1].key == k && xs[0].key == k && xs[1].key == l;
    assert HasKey(ys, k) && HasKey(ys, l) && HasKey(xs, k) && HasKey(xs, l);
  }

  lemma TwinTexts(le: KeyOrder, k: string, l: string)
    requires le(k, l) && le(l, k)
    ensures Print(le, Twin(k, l)) == "{" + Join(EntryTexts([Pair(k, "null"), Pair(l, "true")])) + "}"
    ensures Print(le, TwinReversed(k, l)) == "{" + Join(EntryTexts([Pair(l, "true"), Pair(k, "null")])) + "}"
  {
    hide SortPairs, EntryTexts, Join;
    var p, q := Pair(k, "null"), Pair(l, "true");
    assert PrintedPairs(le, Twin(k, l).entries) == [p, q] && PrintedPairs(le, TwinReversed(k, l).entries) == [q, p];
    TiedPairsStay(le, p, q);
    TiedPairsStay(le, q, p);
  }

  lemma SwappedTextsDiffer(p: Pair, q: Pair)
    requires p.key != q.key
    ensures "{" + Join(EntryTexts([p, q])) + "}" != "{" + Join(EntryTexts([q, p])) + "}"
  {
    hide Join, AfterFirst;
    var ss, ts := EntryTexts([p, q]), EntryTexts([q, p]);
    var s, t := "{" + Join(ss) + "}", "{" + Join(ts) + "}";
    JoinFirst(ss, '}', "");
    JoinFirst(ts, '}', "");
    assert s[1..] == Join(ss) + ['}'] + "" && t[1..] == Join(ts) + ['}'] + "";
    if s == t {
      FirstKey(p, q, AfterFirst(ss, '}', ""), AfterFirst(ts, '}', ""));
    }
  }

  lemma TieShows(le: KeyOrder, k: string, l: string)
    requires le(k, l) && le(l, k) && k != l
    ensures WellFormed(Twin(k, l)) && WellFormed(TwinReversed(k, l)) && Same(Twin(k, l), TwinReversed(k, l))
    ensures Print(le, Twin(k, l)) != Print(le, TwinReversed(k, l))
  {
    hide Print, Same, WellFormed;
    TwinsAreSame(k, l);
    TwinTexts(le, k, l);
    SwappedTextsDiffer(Pair(k, "null"), Pair(l, "true"));
  }

  lemma TiedPairsStay(le: KeyOrder, p: Pair, q: Pair)
    requires le(p.key, q.key)
    ensures SortPairs(le, [p, q]) == [p, q]
  {
    assert [p, q][1..] == [q];
    assert SortPairs(le, [q]) == InsertPair(le, q, []) == [q];
    assert SortPairs(le, [p, q]) == InsertPair(le, p, [q]);
  }

  lemma FirstKey(p: Pair, q: Pair, u: string, v: string)
    requires EntryText(p) + u == EntryText(q) + v
    ensures p.key == q.key
  {
    assert EntryText(p) + u == Quote(p.key) + (":" + p.text + u);
    assert EntryText(q) + v == Quote(q.key) + (":" + q.text + v);
    QuotePrefix(p.key, q.key, ":" + p.text + u, ":" + q.text + v);
  }
}
