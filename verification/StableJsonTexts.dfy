/** The canonical text is a JSON text of the value (RFC 8259), with the members of its objects in key order. */
module StableJsonTexts {
  import opened Options
  import opened StableJson

  // ---------- strings (section 7) ----------

  /** The character a two-character escape stands for. */
  function Escaped(letter: char): Option<char> {
    match letter
    case '"' => Some('"')
    case '\\' => Some('\\')
    case '/' => Some('/')
    case 'b' => Some(8 as char)
    case 'f' => Some(12 as char)
    case 'n' => Some('\n')
    case 'r' => Some('\r')
    case 't' => Some('\t')
    case _ => None
  }

  function Digit(h: char): Option<nat> {
    if '0' <= h <= '9' then Some(h as int - '0' as int)
    else if 'a' <= h <= 'f' then Some(h as int - 'a' as int + 10)
    else if 'A' <= h <= 'F' then Some(h as int - 'A' as int + 10)
    else None
  }

  /** The piece stands for the character: itself, a two-character escape, or its code in four digits. */
  predicate Spells(piece: string, c: char) {
    || (piece == [c] && c >= ' ' && c != '"' && c != '\\')
    || (|piece| == 2 && piece[0] == '\\' && Escaped(piece[1]) == Some(c))
    || (|piece| == 6 && piece[..2] == "\\u" && (forall i | 2 <= i < 6 :: Digit(piece[i]).Some?)
        && c as int == 4096 * Digit(piece[2]).value + 256 * Digit(piece[3]).value + 16 * Digit(piece[4]).value
                       + Digit(piece[5]).value)
  }

  /** The inside of a string literal spells the text character by character. */
  ghost predicate SpellsText(inside: string, text: string)
    decreases |text|
  {
    if text == "" then inside == ""
    else exists k: nat :: k <= |inside| && Spells(inside[..k], text[0]) && SpellsText(inside[k..], text[1..])
  }

  ghost predicate ReadsString(literal: string, text: string) {
    |literal| >= 2 && literal[0] == literal[|literal| - 1] == '"' && SpellsText(literal[1..|literal| - 1], text)
  }

  /** An escape spells its character, and no spelling of it is shorter. */
  lemma EscapeIsShortest(c: char, piece: string)
    ensures Spells(EscapeChar(c), c)
    ensures Spells(piece, c) ==> |EscapeChar(c)| <= |piece|
  {
    if c < ' ' && EscapeChar(c) == "\\u00" + [Hex(c as int / 16), Hex(c as int % 16)] {
      HexIsDigit(c as int / 16);
      HexIsDigit(c as int % 16);
    }
  }

  lemma HexIsDigit(n: nat)
    requires n < 16
    ensures Digit(Hex(n)) == Some(n)
  {
    assert n == 0 || n == 1 || n == 2 || n == 3 || n == 4 || n == 5 || n == 6 || n == 7 || n == 8 || n == 9 || n == 10
      || n == 11 || n == 12 || n == 13 || n == 14 || n == 15;
  }

  lemma {:induction false} EscapeSpells(text: string)
    ensures SpellsText(Escape(text), text)
    decreases |text|
  {
    if text != "" {
      hide Spells, EscapeChar;
      EscapeIsShortest(text[0], "");
      EscapeSpells(text[1..]);
      var head := EscapeChar(text[0]);
      assert Escape(text)[..|head|] == head && Escape(text)[|head|..] == Escape(text[1..]);
    }
  }

  lemma QuoteReads(text: string)
    ensures ReadsString(Quote(text), text)
  {
    hide Escape, SpellsText;
    EscapeSpells(text);
    assert Quote(text)[1..|Quote(text)| - 1] == Escape(text);
  }

  // ---------- arrays and objects (sections 4 and 5) ----------

  /** The text is these parts with commas between them. */
  predicate Separates(text: string, parts: seq<string>)
    decreases |parts|
  {
    if |parts| == 0 then text == ""
    else if |parts| == 1 then text == parts[0]
    else
      && |text| > |parts[0]| && text[..|parts[0]|] == parts[0] && text[|parts[0]|] == ','
      && Separates(text[|parts[0]| + 1..], parts[1..])
  }

  ghost predicate Encloses(text: string, open: char, close: char, parts: seq<string>) {
    |text| >= 2 && text[0] == open && text[|text| - 1] == close && Separates(text[1..|text| - 1], parts)
  }

  /** The text is a JSON text of the value, with the members of each object in the order of their keys. */
  ghost predicate Reads(le: KeyOrder, text: string, v: Json)
    decreases v, 1
  {
    match v
    case Null => text == "null"
    case Bool(b) => text == if b then "true" else "false"
    case Num(literal) => text == literal
    case Str(s) => ReadsString(text, s)
    case Arr(items) => exists parts: seq<string> :: ReadsItems(le, text, items, parts)
    case Obj(entries) => exists order: seq<nat>, parts: seq<Member> :: ReadsMembers(le, text, entries, order, parts)
  }

  datatype Member = Member(name: string, value: string)

  ghost predicate ReadsItems(le: KeyOrder, text: string, items: seq<Json>, parts: seq<string>)
    decreases items, 0
  {
    && Encloses(text, '[', ']', parts) && |parts| == |items|
    && forall i | 0 <= i < |items| :: Reads(le, parts[i], items[i])
  }

  function MemberTexts(parts: seq<Member>): seq<string> {
    seq(|parts|, i requires 0 <= i < |parts| => parts[i].name + ":" + parts[i].value)
  }

  /** Each entry is one of the members; `order` says where. */
  ghost predicate ReadsMembers(
      le: KeyOrder, text: string, entries: seq<Entry>, order: seq<nat>, parts: seq<Member>)
    decreases entries, 0
  {
    && Encloses(text, '{', '}', MemberTexts(parts)) && |parts| == |order| == |entries|
    && (forall i | 0 <= i < |order| :: order[i] < |entries|)
    && (forall i, j | 0 <= i < j < |order| :: order[i] != order[j])
    && (forall i, j | 0 <= i < j < |order| :: le(entries[order[i]].key, entries[order[j]].key))
    && (forall i | 0 <= i < |order| :: ReadsString(parts[i].name, entries[order[i]].key))
    && (forall i | 0 <= i < |order| :: Reads(le, parts[i].value, entries[order[i]].value))
  }

  lemma {:induction false} JoinSeparates(texts: seq<string>)
    ensures Separates(Join(texts), texts)
    decreases |texts|
  {
    if |texts| > 1 {
      JoinSeparates(texts[1..]);
      assert Join(texts) == texts[0] + ("," + Join(texts[1..]));
      assert Join(texts)[|texts[0]| + 1..] == Join(texts[1..]);
    }
  }

  lemma BracketsEnclose(open: char, close: char, texts: seq<string>)
    ensures Encloses([open] + Join(texts) + [close], open, close, texts)
  {
    hide Join, Separates;
    JoinSeparates(texts);
    var text := [open] + Join(texts) + [close];
    assert text[1..|text| - 1] == Join(texts);
  }

  /** Where the entry of each sorted pair stands. */
  lemma {:induction false} Positions(ss: seq<Pair>, ps: seq<Pair>, n: nat) returns (order: seq<nat>)
    requires (forall p :: p in ss ==> p in ps) && n <= |ss|
    ensures |order| == n && forall i | 0 <= i < n :: order[i] < |ps| && ps[order[i]] == ss[i]
  {
    if n == 0 {
      order := [];
    } else {
      var front := Positions(ss, ps, n - 1);
      assert ss[n - 1] in ps;
      var j: nat :| j < |ps| && ps[j] == ss[n - 1];
      order := front + [j];
    }
  }

  lemma {:induction false} PrintIsJson(le: KeyOrder, v: Json)
    requires Preorder(le) && WellFormed(v)
    ensures Reads(le, Print(le, v), v)
    decreases v
  {
    hide Preorder, SortPairs, Join, ReadsString;
    match v
    case Str(s) => QuoteReads(s);
    case Arr(items) =>
      var parts := PrintedItems(le, items);
      BracketsEnclose('[', ']', parts);
      forall i | 0 <= i < |items|
        ensures Reads(le, parts[i], items[i])
      {
        PrintIsJson(le, items[i]);
      }
      assert ReadsItems(le, Print(le, v), items, parts);
    case Obj(entries) =>
      forall i | 0 <= i < |entries|
        ensures Reads(le, Print(le, entries[i].value), entries[i].value)
      {
        PrintIsJson(le, entries[i].value);
      }
      ObjectIsJson(le, entries);
    case _ =>
  }

  lemma ObjectIsJson(le: KeyOrder, entries: seq<Entry>)
    requires Preorder(le) && WellFormed(Obj(entries))
    requires forall i | 0 <= i < |entries| :: Reads(le, Print(le, entries[i].value), entries[i].value)
    ensures Reads(le, Print(le, Obj(entries)), Obj(entries))
  {
    hide Preorder, SortPairs, Join, ReadsString, Encloses;
    var ps := PrintedPairs(le, entries);
    var ss := SortPairs(le, ps);
    SortOrders(le, ps);
    SortedElements(le, ps);
    SortedMembers(le, ps);
    DistinctFromMultiset(ss, ps);
    var order := Positions(ss, ps, |ss|);
    var parts := seq(|ss|, i requires 0 <= i < |ss| => Member(Quote(ss[i].key), ss[i].text));
    BracketsEnclose('{', '}', EntryTexts(ss));
    assert MemberTexts(parts) == EntryTexts(ss);
    assert |ss| == |multiset(ss)| == |multiset(ps)| == |ps|;
    forall i | 0 <= i < |order|
      ensures ReadsString(parts[i].name, entries[order[i]].key)
      ensures Reads(le, parts[i].value, entries[order[i]].value)
    {
      QuoteReads(ss[i].key);
      assert ps[order[i]] == ss[i];
    }
    assert ReadsMembers(le, Print(le, Obj(entries)), entries, order, parts);
  }
}
