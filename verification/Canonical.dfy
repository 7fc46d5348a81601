/** Canonical JSON text: two values print alike exactly when they are equal up to the order of object keys. */
module Canonical {

  /** Strings are sequences of UTF-16 code units, compared unit by unit. */
  type Unit = x: nat | x < 65536

  type Text = seq<Unit>

  datatype Entry<+T> = Entry(key: Text, value: T)

  type Field = Entry<Json>

  datatype Json =
    | Null
    | Bool(truth: bool)
    | Number(number: int)
    | String(text: Text)
    | Array(items: seq<Json>)
    | Object(fields: seq<Field>)

  const QUOTE: Unit := 34
  const COMMA: Unit := 44
  const MINUS: Unit := 45
  const ZERO: Unit := 48
  const COLON: Unit := 58
  const OPEN_ARRAY: Unit := 91
  const BACKSLASH: Unit := 92
  const CLOSE_ARRAY: Unit := 93
  const OPEN_OBJECT: Unit := 123
  const CLOSE_OBJECT: Unit := 125

  // ------------------------------------------------------------------------- strings

  predicate High(u: Unit) { 0xD800 <= u < 0xDC00 }

  predicate Low(u: Unit) { 0xDC00 <= u < 0xE000 }

  /** A surrogate that is not half of a pair. */
  predicate Lone(s: Text, i: nat)
    requires i < |s|
  {
    || (High(s[i]) && !(i + 1 < |s| && Low(s[i + 1])))
    || (Low(s[i]) && !(0 < i && High(s[i - 1])))
  }

  function Hex(d: nat): Unit
    requires d < 16
  {
    if d < 10 then ZERO + d else 97 + (d - 10)
  }

  function Unicode(u: Unit): Text {
    [BACKSLASH, 117, Hex(u / 4096), Hex(u / 256 % 16), Hex(u / 16 % 16), Hex(u % 16)]
  }

  /** `JSON.stringify` of one unit of a string. */
  function Escape(s: Text, i: nat): Text
    requires i < |s|
  {
    var u := s[i];
    if u == QUOTE then [BACKSLASH, QUOTE]
    else if u == BACKSLASH then [BACKSLASH, BACKSLASH]
    else if u == 8 then [BACKSLASH, 98]
    else if u == 9 then [BACKSLASH, 116]
    else if u == 10 then [BACKSLASH, 110]
    else if u == 12 then [BACKSLASH, 102]
    else if u == 13 then [BACKSLASH, 114]
    else if u < 32 || Lone(s, i) then Unicode(u)
    else [u]
  }

  function EscapeFrom(s: Text, i: nat): Text
    requires i <= |s|
    decreases |s| - i
  {
    if i == |s| then [] else Escape(s, i) + EscapeFrom(s, i + 1)
  }

  function Quoted(s: Text): Text { [QUOTE] + EscapeFrom(s, 0) + [QUOTE] }

  function Nibble(u: Unit): nat {
    if 97 <= u then u - 87 else if ZERO <= u then u - ZERO else 0
  }

  /** Reads one escaped unit and what follows it; nothing at a closing quote. */
  function Read(text: Text): (r: (int, Text)) {
    if text == [] || text[0] == QUOTE then (-1, text)
    else if text[0] != BACKSLASH then (text[0], text[1..])
    else if |text| < 2 then (-1, text)
    else if text[1] == 98 then (8, text[2..])
    else if text[1] == 116 then (9, text[2..])
    else if text[1] == 110 then (10, text[2..])
    else if text[1] == 102 then (12, text[2..])
    else if text[1] == 114 then (13, text[2..])
    else if text[1] == 117 && |text| >= 6 then
      (Nibble(text[2]) * 4096 + Nibble(text[3]) * 256 + Nibble(text[4]) * 16 + Nibble(text[5]), text[6..])
    else (text[1], text[2..])
  }

  lemma NibbleRead(d: nat)
    requires d < 16
    ensures Nibble(Hex(d)) == d
  {
  }

  lemma HexRead(u: Unit)
    ensures Nibble(Hex(u / 4096)) * 4096 + Nibble(Hex(u / 256 % 16)) * 256 + Nibble(Hex(u / 16 % 16)) * 16 + Nibble(Hex(u % 16)) == u
  {
    NibbleRead(u / 4096);
    NibbleRead(u / 256 % 16);
    NibbleRead(u / 16 % 16);
    NibbleRead(u % 16);
    hide Nibble, Hex;
    assert u / 16 / 16 == u / 256 && u / 256 / 16 == u / 4096;
  }

  /** Whatever the context of a unit, its escape reads back as the unit. */
  lemma EscapeRead(s: Text, i: nat, rest: Text)
    requires i < |s|
    ensures Read(Escape(s, i) + rest) == (s[i], rest)
  {
    HexRead(s[i]);
    var text := Escape(s, i) + rest;
    assert text[|Escape(s, i)|..] == rest;
  }

  lemma ReadQuote(rest: Text)
    ensures Read([QUOTE] + rest) == (-1, [QUOTE] + rest)
  {
  }

  lemma {:induction false} EscapedDetermines(a: Text, i: nat, ra: Text, b: Text, j: nat, rb: Text)
    requires i <= |a| && j <= |b|
    requires EscapeFrom(a, i) + [QUOTE] + ra == EscapeFrom(b, j) + [QUOTE] + rb
    ensures a[i..] == b[j..] && ra == rb
    decreases |a| - i
  {
    hide Escape, Read;
    EscapedRead(a, i, ra);
    EscapedRead(b, j, rb);
    if i < |a| && j < |b| {
      EscapedDetermines(a, i + 1, ra, b, j + 1, rb);
      assert a[i..] == [a[i]] + a[i + 1..] && b[j..] == [b[j]] + b[j + 1..];
    }
  }

  /** What reading the rest of an escaped string finds first. */
  lemma EscapedRead(s: Text, i: nat, rest: Text)
    requires i <= |s|
    ensures var text := EscapeFrom(s, i) + [QUOTE] + rest;
            if i == |s| then Read(text).0 == -1 && text == [QUOTE] + rest && text[1..] == rest
            else Read(text).0 == s[i] && Read(text).1 == EscapeFrom(s, i + 1) + [QUOTE] + rest
  {
    hide Escape, Read;
    if i == |s| {
      ReadQuote(rest);
      assert EscapeFrom(s, i) + [QUOTE] + rest == [QUOTE] + rest;
    } else {
      EscapeRead(s, i, EscapeFrom(s, i + 1) + [QUOTE] + rest);
      assert EscapeFrom(s, i) + [QUOTE] + rest == Escape(s, i) + (EscapeFrom(s, i + 1) + [QUOTE] + rest);
    }
  }

  /** A quoted string determines its content and where it ends. */
  lemma QuotedDetermines(a: Text, ra: Text, b: Text, rb: Text)
    requires Quoted(a) + ra == Quoted(b) + rb
    ensures a == b && ra == rb
  {
    hide EscapeFrom;
    assert (Quoted(a) + ra)[1..] == EscapeFrom(a, 0) + [QUOTE] + ra;
    assert (Quoted(b) + rb)[1..] == EscapeFrom(b, 0) + [QUOTE] + rb;
    EscapedDetermines(a, 0, ra, b, 0, rb);
    assert a[0..] == a && b[0..] == b;
  }

  // ------------------------------------------------------------------------- numbers

  predicate Digit(u: Unit) { ZERO <= u < ZERO + 10 }

  function Digits(n: nat): Text {
    if n < 10 then [ZERO + n] else Digits(n / 10) + [ZERO + n % 10]
  }

  function Printed(n: int): Text {
    if n < 0 then [MINUS] + Digits(-n) else Digits(n)
  }

  function Value(t: Text): nat {
    if t == [] then 0
    else Value(t[..|t|-1]) * 10 + if ZERO <= t[|t|-1] then t[|t|-1] - ZERO else 0
  }

  lemma {:induction false} DigitsRead(n: nat)
    ensures Value(Digits(n)) == n && Digits(n) != []
    ensures forall k | 0 <= k < |Digits(n)| :: Digit(Digits(n)[k])
  {
    if n >= 10 {
      DigitsRead(n / 10);
      assert Digits(n)[..|Digits(n)| - 1] == Digits(n / 10);
    } else {
      assert Digits(n)[..0] == [];
    }
  }

  /** What follows a number never continues it. */
  predicate Ends(rest: Text) { rest == [] || !Digit(rest[0]) }

  lemma {:induction false} DigitsRun(da: Text, ra: Text, db: Text, rb: Text)
    requires forall k | 0 <= k < |da| :: Digit(da[k])
    requires forall k | 0 <= k < |db| :: Digit(db[k])
    requires Ends(ra) && Ends(rb) && da + ra == db + rb
    ensures da == db && ra == rb
  {
    assert da == [] ==> da + ra == ra;
    assert db == [] ==> db + rb == rb;
    if da != [] && db != [] {
      assert (da + ra)[0] == da[0] && (db + rb)[0] == db[0];
      assert (da + ra)[1..] == da[1..] + ra && (db + rb)[1..] == db[1..] + rb;
      DigitsRun(da[1..], ra, db[1..], rb);
    }
  }

  lemma DigitsDetermine(a: nat, ra: Text, b: nat, rb: Text)
    requires Ends(ra) && Ends(rb) && Digits(a) + ra == Digits(b) + rb
    ensures a == b && ra == rb
  {
    DigitsRead(a);
    DigitsRead(b);
    DigitsRun(Digits(a), ra, Digits(b), rb);
  }

  // ------------------------------------------------------------- the printed text

  /** Printing with keys in the given order. */
  function Print(v: Json): Text
    decreases v
  {
    match v
    case Null => [110, 117, 108, 108]
    case Bool(truth) => if truth then [116, 114, 117, 101] else [102, 97, 108, 115, 101]
    case Number(n) => Printed(n)
    case String(s) => Quoted(s)
    case Array(items) => [OPEN_ARRAY] + PrintItems(items) + [CLOSE_ARRAY]
    case Object(fields) => [OPEN_OBJECT] + PrintFields(fields) + [CLOSE_OBJECT]
  }

  function PrintItems(items: seq<Json>): Text
    decreases items
  {
    if items == [] then []
    else if |items| == 1 then Print(items[0])
    else Print(items[0]) + [COMMA] + PrintItems(items[1..])
  }

  function PrintField(f: Field): Text
    decreases f
  {
    Quoted(f.key) + [COLON] + Print(f.value)
  }

  function PrintFields(fields: seq<Field>): Text
    decreases fields
  {
    if fields == [] then []
    else if |fields| == 1 then PrintField(fields[0])
    else PrintField(fields[0]) + [COMMA] + PrintFields(fields[1..])
  }

  predicate StartsLike(v: Json, u: Unit) {
    match v
    case Null => u == 110
    case Bool(truth) => u == if truth then 116 else 102
    case Number(_) => u == MINUS || Digit(u)
    case String(_) => u == QUOTE
    case Array(_) => u == OPEN_ARRAY
    case Object(_) => u == OPEN_OBJECT
  }

  lemma PrintStarts(v: Json)
    ensures Print(v) != [] && StartsLike(v, Print(v)[0])
  {
    if v.Number? {
      DigitsRead(if v.number < 0 then -v.number else v.number);
    }
  }

  /** A printed value determines the value and where it ends. */
  lemma {:induction false} PrintDetermines(a: Json, ra: Text, b: Json, rb: Text)
    requires Ends(ra) && Ends(rb) && Print(a) + ra == Print(b) + rb
    ensures a == b && ra == rb
    decreases a, 0
  {
    PrintStarts(a);
    PrintStarts(b);
    assert (Print(a) + ra)[0] == Print(a)[0] && (Print(b) + rb)[0] == Print(b)[0];
    match a
    case Null => assert (Print(a) + ra)[4..] == ra && (Print(b) + rb)[4..] == rb;
    case Bool(truth) =>
      var n := |Print(a)|;
      assert (Print(a) + ra)[n..] == ra && (Print(b) + rb)[n..] == rb;
    case Number(n) => NumberDetermines(n, ra, b.number, rb);
    case String(s) => QuotedDetermines(s, ra, b.text, rb);
    case Array(items) =>
      Inside(OPEN_ARRAY, PrintItems(items), CLOSE_ARRAY, ra);
      Inside(OPEN_ARRAY, PrintItems(b.items), CLOSE_ARRAY, rb);
      ItemsDetermine(items, ra, b.items, rb);
    case Object(fields) =>
      Inside(OPEN_OBJECT, PrintFields(fields), CLOSE_OBJECT, ra);
      Inside(OPEN_OBJECT, PrintFields(b.fields), CLOSE_OBJECT, rb);
      FieldsDetermine(fields, ra, b.fields, rb);
  }

  lemma Inside(open: Unit, inner: Text, close: Unit, rest: Text)
    ensures ([open] + inner + [close] + rest)[1..] == inner + [close] + rest
  {
  }

  lemma NumberDetermines(a: int, ra: Text, b: int, rb: Text)
    requires Ends(ra) && Ends(rb) && Printed(a) + ra == Printed(b) + rb
    ensures a == b && ra == rb
  {
    hide Digits, Value;
    SignStarts(a, ra);
    SignStarts(b, rb);
    if a < 0 {
      DigitsDetermine(-a, ra, -b, rb);
    } else {
      DigitsDetermine(a, ra, b, rb);
    }
  }

  lemma SignStarts(n: int, rest: Text)
    ensures var text := Printed(n) + rest;
            && text != [] && (text[0] == MINUS <==> n < 0)
            && (n < 0 ==> text[1..] == Digits(-n) + rest)
  {
    if n < 0 {
      var d := Digits(-n);
      DigitsRead(-n);
      hide Digits;
      assert Printed(n) + rest == [MINUS] + (d + rest);
    } else {
      var d := Digits(n);
      DigitsRead(n);
      hide Digits;
      assert (d + rest)[0] == d[0];
    }
  }

  /** What follows the first item of a printed list. */
  function AfterItem(items: seq<Json>, close: Unit, rest: Text): Text
    requires items != []
  {
    if |items| == 1 then [close] + rest else [COMMA] + (PrintItems(items[1..]) + [close] + rest)
  }

  lemma ItemFirst(items: seq<Json>, rest: Text)
    requires items != []
    ensures PrintItems(items) + [CLOSE_ARRAY] + rest == Print(items[0]) + AfterItem(items, CLOSE_ARRAY, rest)
  {
  }

  lemma {:induction false} ItemsDetermine(xs: seq<Json>, ra: Text, ys: seq<Json>, rb: Text)
    requires PrintItems(xs) + [CLOSE_ARRAY] + ra == PrintItems(ys) + [CLOSE_ARRAY] + rb
    ensures xs == ys && ra == rb
    decreases xs, 1
  {
    if xs == [] || ys == [] {
      ItemsEmpty(xs, ra);
      ItemsEmpty(ys, rb);
    } else {
      ItemFirst(xs, ra);
      ItemFirst(ys, rb);
      var ta, tb := AfterItem(xs, CLOSE_ARRAY, ra), AfterItem(ys, CLOSE_ARRAY, rb);
      PrintDetermines(xs[0], ta, ys[0], tb);
      assert ta[1..] == tb[1..];
      if |xs| > 1 {
        assert ta[1..] == PrintItems(xs[1..]) + [CLOSE_ARRAY] + ra;
        assert tb[1..] == PrintItems(ys[1..]) + [CLOSE_ARRAY] + rb;
        ItemsDetermine(xs[1..], ra, ys[1..], rb);
        assert xs == [xs[0]] + xs[1..] && ys == [ys[0]] + ys[1..];
      } else {
        assert ta[1..] == ra && tb[1..] == rb;
      }
    }
  }

  lemma ItemsEmpty(items: seq<Json>, rest: Text)
    ensures var text := PrintItems(items) + [CLOSE_ARRAY] + rest;
            && (text[0] == CLOSE_ARRAY <==> items == [])
            && (items == [] ==> text[1..] == rest)
  {
    if items != [] {
      PrintStarts(items[0]);
    }
  }

  function MoreFields(fields: seq<Field>): Text
    requires fields != []
  {
    if |fields| == 1 then [] else [COMMA] + PrintFields(fields[1..])
  }

  function AfterField(fields: seq<Field>, rest: Text): Text
    requires fields != []
  {
    MoreFields(fields) + [CLOSE_OBJECT] + rest
  }

  lemma AfterFieldIs(fields: seq<Field>, rest: Text)
    requires fields != []
    ensures var after := AfterField(fields, rest);
            if |fields| == 1 then after[0] == CLOSE_OBJECT && after[1..] == rest
            else after[0] == COMMA && after[1..] == PrintFields(fields[1..]) + [CLOSE_OBJECT] + rest
  {
    hide PrintFields;
  }

  lemma SplitFields(fields: seq<Field>)
    requires fields != []
    ensures PrintFields(fields) == Quoted(fields[0].key) + [COLON] + Print(fields[0].value) + MoreFields(fields)
  {
    hide Quoted, Print;
  }

  lemma FieldFirst(fields: seq<Field>, rest: Text)
    requires fields != []
    ensures PrintFields(fields) + [CLOSE_OBJECT] + rest ==
              Quoted(fields[0].key) + ([COLON] + (Print(fields[0].value) + AfterField(fields, rest)))
  {
    SplitFields(fields);
    hide Quoted, Print, PrintFields, MoreFields;
    Regroup(Quoted(fields[0].key), Print(fields[0].value), MoreFields(fields), rest);
  }

  lemma Regroup(q: Text, p: Text, more: Text, rest: Text)
    ensures (q + [COLON] + p + more) + [CLOSE_OBJECT] + rest == q + ([COLON] + (p + (more + [CLOSE_OBJECT] + rest)))
  {
  }

  lemma {:induction false} FieldsDetermine(xs: seq<Field>, ra: Text, ys: seq<Field>, rb: Text)
    requires PrintFields(xs) + [CLOSE_OBJECT] + ra == PrintFields(ys) + [CLOSE_OBJECT] + rb
    ensures xs == ys && ra == rb
    decreases xs, 1
  {
    hide Quoted;
    if xs == [] || ys == [] {
      FieldsEmpty(xs, ra);
      FieldsEmpty(ys, rb);
    } else {
      FieldFirst(xs, ra);
      FieldFirst(ys, rb);
      var ta, tb := AfterField(xs, ra), AfterField(ys, rb);
      var va, vb := Print(xs[0].value) + ta, Print(ys[0].value) + tb;
      QuotedDetermines(xs[0].key, [COLON] + va, ys[0].key, [COLON] + vb);
      assert ([COLON] + va)[1..] == va && ([COLON] + vb)[1..] == vb;
      AfterFieldIs(xs, ra);
      AfterFieldIs(ys, rb);
      PrintDetermines(xs[0].value, ta, ys[0].value, tb);
      if |xs| > 1 {
        FieldsDetermine(xs[1..], ra, ys[1..], rb);
        assert xs == [xs[0]] + xs[1..] && ys == [ys[0]] + ys[1..];
      }
    }
  }

  lemma FieldsEmpty(fields: seq<Field>, rest: Text)
    ensures var text := PrintFields(fields) + [CLOSE_OBJECT] + rest;
            && (text[0] == CLOSE_OBJECT <==> fields == [])
            && (fields == [] ==> text[1..] == rest)
  {
  }

  // --------------------------------------------------------------- sorting the keys

  /** JavaScript's `<` on strings. */
  predicate Less(a: Text, b: Text) {
    if b == [] then false
    else if a == [] then true
    else if a[0] != b[0] then a[0] < b[0]
    else Less(a[1..], b[1..])
  }

  lemma {:induction false} LessTotal(a: Text, b: Text)
    ensures Less(a, b) || a == b || Less(b, a)
    ensures !(Less(a, b) && Less(b, a)) && !Less(a, a)
  {
    if a != [] && b != [] && a[0] == b[0] {
      LessTotal(a[1..], b[1..]);
      assert a == [a[0]] + a[1..] && b == [b[0]] + b[1..];
    }
    if a != [] {
      LessTotal(a[1..], a[1..]);
    }
  }

  lemma {:induction false} LessTransitive(a: Text, b: Text, c: Text)
    requires Less(a, b) && Less(b, c)
    ensures Less(a, c)
  {
    if a != [] && a[0] == b[0] && b[0] == c[0] {
      LessTransitive(a[1..], b[1..], c[1..]);
    }
  }

  function Insert<T>(e: Entry<T>, sorted: seq<Entry<T>>): seq<Entry<T>> {
    if sorted == [] then [e]
    else if Less(sorted[0].key, e.key) then [sorted[0]] + Insert(e, sorted[1..])
    else [e] + sorted
  }

  /** `Object.entries(value).sort(...)` by key. */
  function Sort<T>(entries: seq<Entry<T>>): seq<Entry<T>> {
    if entries == [] then [] else Insert(entries[0], Sort(entries[1..]))
  }

  predicate Ascending<T>(entries: seq<Entry<T>>) {
    forall i, j | 0 <= i < j < |entries| :: Less(entries[i].key, entries[j].key)
  }

  predicate DistinctKeys<T>(entries: seq<Entry<T>>) {
    forall i, j | 0 <= i < j < |entries| :: entries[i].key != entries[j].key
  }

  lemma HeadBelow<T(!new)>(sorted: seq<Entry<T>>)
    requires sorted != [] && Ascending(sorted)
    ensures forall x | x in sorted[1..] :: Less(sorted[0].key, x.key)
  {
    forall x | x in sorted[1..] ensures Less(sorted[0].key, x.key) {
      var i :| 0 <= i < |sorted[1..]| && sorted[1..][i] == x;
      assert x == sorted[i + 1];
    }
  }

  lemma {:induction false} InsertKeeps<T(!new)>(e: Entry<T>, sorted: seq<Entry<T>>)
    requires Ascending(sorted) && forall i | 0 <= i < |sorted| :: sorted[i].key != e.key
    ensures Ascending(Insert(e, sorted))
    ensures forall x :: x in Insert(e, sorted) <==> x == e || x in sorted
    ensures |Insert(e, sorted)| == |sorted| + 1
  {
    if sorted != [] {
      LessTotal(sorted[0].key, e.key);
      if Less(sorted[0].key, e.key) {
        InsertKeeps(e, sorted[1..]);
        var rest := Insert(e, sorted[1..]);
        HeadBelow(sorted);
        forall i | 0 <= i < |rest| ensures Less(sorted[0].key, rest[i].key) {
          var x := rest[i];
          assert x in rest;
          assert x == e || x in sorted[1..];
        }
        assert sorted == [sorted[0]] + sorted[1..];
      } else {
        forall i | 0 <= i < |sorted| ensures Less(e.key, sorted[i].key) {
          if i > 0 {
            LessTransitive(e.key, sorted[0].key, sorted[i].key);
          }
        }
      }
    }
  }

  lemma {:induction false} SortKeeps<T(!new)>(entries: seq<Entry<T>>)
    requires DistinctKeys(entries)
    ensures Ascending(Sort(entries)) && |Sort(entries)| == |entries|
    ensures forall x :: x in Sort(entries) <==> x in entries
  {
    if entries != [] {
      SortKeeps(entries[1..]);
      forall i | 0 <= i < |Sort(entries[1..])| ensures Sort(entries[1..])[i].key != entries[0].key {
        var x := Sort(entries[1..])[i];
        assert x in Sort(entries[1..]);
        assert x in entries[1..];
      }
      InsertKeeps(entries[0], Sort(entries[1..]));
      assert entries == [entries[0]] + entries[1..];
    }
  }

  /** Ascending lists with the same elements are the same list. */
  lemma {:induction false} AscendingUnique<T(!new)>(a: seq<Entry<T>>, b: seq<Entry<T>>)
    requires Ascending(a) && Ascending(b) && forall x :: x in a <==> x in b
    ensures a == b
  {
    assert b != [] ==> b[0] in b;
    if a != [] {
      assert a[0] in b && b[0] in a;
      var i :| 0 <= i < |b| && b[i] == a[0];
      var j :| 0 <= j < |a| && a[j] == b[0];
      LessTotal(a[0].key, b[0].key);
      assert a[0] == b[0];
      forall x ensures x in a[1..] <==> x in b[1..] {
        TailMember(a, x);
        TailMember(b, x);
      }
      AscendingUnique(a[1..], b[1..]);
      assert a == [a[0]] + a[1..] && b == [b[0]] + b[1..];
    }
  }

  lemma TailMember<T(!new)>(a: seq<Entry<T>>, x: Entry<T>)
    requires a != [] && Ascending(a)
    ensures x in a[1..] <==> x in a && x != a[0]
  {
    assert a == [a[0]] + a[1..];
    LessTotal(a[0].key, a[0].key);
    if x in a[1..] {
      var i :| 0 <= i < |a[1..]| && a[1..][i] == x;
      assert a[i + 1] == x;
    }
  }

  // ------------------------------------------------------------------- canonical text

  /** `canonical`. */
  function Canonical(v: Json): Text
    decreases v
  {
    match v
    case Array(items) => [OPEN_ARRAY] + CanonicalItems(items) + [CLOSE_ARRAY]
    case Object(fields) => [OPEN_OBJECT] + Join(Sort(CanonicalEntries(fields))) + [CLOSE_OBJECT]
    case _ => Print(v)
  }

  function CanonicalItems(items: seq<Json>): Text
    decreases items
  {
    if items == [] then []
    else if |items| == 1 then Canonical(items[0])
    else Canonical(items[0]) + [COMMA] + CanonicalItems(items[1..])
  }

  function CanonicalEntries(fields: seq<Field>): seq<Entry<Text>>
    decreases fields
  {
    if fields == [] then []
    else [Entry(fields[0].key, Canonical(fields[0].value))] + CanonicalEntries(fields[1..])
  }

  function Join(entries: seq<Entry<Text>>): Text {
    if entries == [] then []
    else if |entries| == 1 then Quoted(entries[0].key) + [COLON] + entries[0].value
    else Quoted(entries[0].key) + [COLON] + entries[0].value + [COMMA] + Join(entries[1..])
  }

  /** The same value with all keys sorted. */
  function Normalize(v: Json): Json
    decreases v
  {
    match v
    case Array(items) => Array(NormalizeItems(items))
    case Object(fields) => Object(Sort(NormalizeFields(fields)))
    case _ => v
  }

  function NormalizeItems(items: seq<Json>): (r: seq<Json>)
    ensures |r| == |items|
    decreases items
  {
    if items == [] then [] else [Normalize(items[0])] + NormalizeItems(items[1..])
  }

  function NormalizeFields(fields: seq<Field>): (r: seq<Field>)
    ensures |r| == |fields|
    decreases fields
  {
    if fields == [] then [] else [Entry(fields[0].key, Normalize(fields[0].value))] + NormalizeFields(fields[1..])
  }

  function Printing(fields: seq<Field>): seq<Entry<Text>> {
    if fields == [] then [] else [Entry(fields[0].key, Print(fields[0].value))] + Printing(fields[1..])
  }

  lemma {:induction false} InsertPrinted(f: Field, sorted: seq<Field>)
    ensures Printing(Insert(f, sorted)) == Insert(Entry(f.key, Print(f.value)), Printing(sorted))
  {
    if sorted != [] && Less(sorted[0].key, f.key) {
      InsertPrinted(f, sorted[1..]);
      assert Insert(f, sorted)[1..] == Insert(f, sorted[1..]);
      assert Printing(sorted)[1..] == Printing(sorted[1..]);
    } else {
      assert Insert(f, sorted)[1..] == sorted;
    }
  }

  /** Sorting by key does not look at the values. */
  lemma {:induction false} SortPrinted(fields: seq<Field>)
    ensures Printing(Sort(fields)) == Sort(Printing(fields))
  {
    if fields != [] {
      SortPrinted(fields[1..]);
      InsertPrinted(fields[0], Sort(fields[1..]));
      assert Printing(fields)[1..] == Printing(fields[1..]);
    }
  }

  lemma {:induction false} JoinPrinted(fields: seq<Field>)
    ensures Join(Printing(fields)) == PrintFields(fields)
  {
    if |fields| == 1 {
      assert fields[1..] == [];
    } else if |fields| > 1 {
      JoinPrinted(fields[1..]);
      assert Printing(fields)[1..] == Printing(fields[1..]);
    }
  }

  /** Canonical text is the plain text of the normalized value. */
  lemma {:induction false} CanonicalIsPrint(v: Json)
    ensures Canonical(v) == Print(Normalize(v))
    decreases v
  {
    match v
    case Array(items) => ItemsArePrinted(items);
    case Object(fields) =>
      EntriesArePrinted(fields);
      SortPrinted(NormalizeFields(fields));
      JoinPrinted(Sort(NormalizeFields(fields)));
    case _ =>
  }

  lemma {:induction false} ItemsArePrinted(items: seq<Json>)
    ensures CanonicalItems(items) == PrintItems(NormalizeItems(items))
    decreases items
  {
    if items != [] {
      CanonicalIsPrint(items[0]);
      ItemsArePrinted(items[1..]);
      assert NormalizeItems(items)[1..] == NormalizeItems(items[1..]);
    }
  }

  lemma {:induction false} EntriesArePrinted(fields: seq<Field>)
    ensures CanonicalEntries(fields) == Printing(NormalizeFields(fields))
    decreases fields
  {
    if fields != [] {
      CanonicalIsPrint(fields[0].value);
      EntriesArePrinted(fields[1..]);
      assert NormalizeFields(fields)[1..] == NormalizeFields(fields[1..]);
    }
  }

  // ------------------------------------------------- equality up to the order of keys

  /** No object repeats a key. */
  predicate WellFormed(v: Json)
    decreases v
  {
    match v
    case Array(items) => forall i | 0 <= i < |items| :: WellFormed(items[i])
    case Object(fields) => DistinctKeys(fields) && forall i | 0 <= i < |fields| :: WellFormed(fields[i].value)
    case _ => true
  }

  /** Equal values, where objects are equal when they have the same keys with equal values. */
  predicate Same(a: Json, b: Json)
    decreases a
  {
    match a
    case Array(items) =>
      b.Array? && |items| == |b.items| && forall i | 0 <= i < |items| :: Same(items[i], b.items[i])
    case Object(fields) =>
      && b.Object? && |fields| == |b.fields|
      && forall i | 0 <= i < |fields| ::
           exists j :: 0 <= j < |b.fields| && fields[i].key == b.fields[j].key && Same(fields[i].value, b.fields[j].value)
    case _ => a == b
  }

  lemma {:induction false} NormalizedAt(fields: seq<Field>, i: nat)
    requires i < |fields|
    ensures NormalizeFields(fields)[i] == Entry(fields[i].key, Normalize(fields[i].value))
  {
    if i > 0 {
      NormalizedAt(fields[1..], i - 1);
    }
  }

  lemma {:induction false} NormalizedItem(items: seq<Json>, i: nat)
    requires i < |items|
    ensures NormalizeItems(items)[i] == Normalize(items[i])
  {
    if i > 0 {
      NormalizedItem(items[1..], i - 1);
    }
  }

  lemma NormalizedDistinct(fields: seq<Field>)
    requires DistinctKeys(fields)
    ensures DistinctKeys(NormalizeFields(fields))
  {
    forall i, j | 0 <= i < j < |fields| ensures NormalizeFields(fields)[i].key != NormalizeFields(fields)[j].key {
      NormalizedAt(fields, i);
      NormalizedAt(fields, j);
    }
  }

  /** Values that normalize alike are the same. */
  lemma {:induction false} NormalSame(a: Json, b: Json)
    requires WellFormed(a) && WellFormed(b) && Normalize(a) == Normalize(b)
    ensures Same(a, b)
    decreases a
  {
    match a
    case Array(items) =>
      forall i | 0 <= i < |items| ensures Same(items[i], b.items[i]) {
        NormalizedItem(items, i);
        NormalizedItem(b.items, i);
        NormalSame(items[i], b.items[i]);
      }
    case Object(fields) =>
      NormalizedDistinct(fields);
      NormalizedDistinct(b.fields);
      SortKeeps(NormalizeFields(fields));
      SortKeeps(NormalizeFields(b.fields));
      forall i | 0 <= i < |fields|
        ensures exists j :: 0 <= j < |b.fields| && fields[i].key == b.fields[j].key && Same(fields[i].value, b.fields[j].value)
      {
        NormalizedAt(fields, i);
        var x := NormalizeFields(fields)[i];
        assert x in NormalizeFields(fields);
        assert x in NormalizeFields(b.fields);
        var j :| 0 <= j < |NormalizeFields(b.fields)| && NormalizeFields(b.fields)[j] == x;
        NormalizedAt(b.fields, j);
        NormalSame(fields[i].value, b.fields[j].value);
      }
    case _ =>
  }

  /** Values that are the same normalize alike. */
  lemma {:induction false} SameNormal(a: Json, b: Json)
    requires WellFormed(a) && WellFormed(b) && Same(a, b)
    ensures Normalize(a) == Normalize(b)
    decreases a
  {
    match a
    case Array(items) =>
      forall i | 0 <= i < |items| ensures NormalizeItems(items)[i] == NormalizeItems(b.items)[i] {
        SameNormal(items[i], b.items[i]);
        NormalizedItem(items, i);
        NormalizedItem(b.items, i);
      }
    case Object(fields) =>
      var na, nb := NormalizeFields(fields), NormalizeFields(b.fields);
      NormalizedDistinct(fields);
      NormalizedDistinct(b.fields);
      forall i | 0 <= i < |fields| ensures na[i] in nb {
        var j :| 0 <= j < |b.fields| && fields[i].key == b.fields[j].key && Same(fields[i].value, b.fields[j].value);
        SameNormal(fields[i].value, b.fields[j].value);
        NormalizedAt(fields, i);
        NormalizedAt(b.fields, j);
        assert nb[j] == na[i];
      }
      SameMembers(na, nb);
      SortKeeps(na);
      SortKeeps(nb);
      AscendingUnique(Sort(na), Sort(nb));
    case _ =>
  }

  lemma DistinctCount<T(!new)>(a: seq<Entry<T>>)
    requires DistinctKeys(a)
    ensures |set i | 0 <= i < |a| :: a[i]| == |a|
  {
    if a != [] {
      var rest := a[..|a|-1];
      DistinctCount(rest);
      assert (set i | 0 <= i < |a| :: a[i]) == (set i | 0 <= i < |rest| :: rest[i]) + {a[|a|-1]};
      assert a[|a|-1] !in (set i | 0 <= i < |rest| :: rest[i]);
    }
  }

  /** Two key-distinct lists of equal length, one inside the other, have the same elements. */
  lemma SameMembers(a: seq<Field>, b: seq<Field>)
    requires DistinctKeys(a) && DistinctKeys(b) && |a| == |b|
    requires forall i | 0 <= i < |a| :: a[i] in b
    ensures forall x :: x in a <==> x in b
  {
    var sa, sb := set i | 0 <= i < |a| :: a[i], set i | 0 <= i < |b| :: b[i];
    DistinctCount(a);
    DistinctCount(b);
    assert sa <= sb;
    EqualByCount(sa, sb);
    forall x ensures x in a <==> x in b {
      assert x in a <==> x in sa;
      assert x in b <==> x in sb;
    }
  }

  lemma {:induction false} EqualByCount<T>(a: set<T>, b: set<T>)
    requires a <= b && |a| == |b|
    ensures a == b
  {
    assert b == a + (b - a);
  }

  /** Two values have the same canonical text exactly when they are equal up to the order of object keys. */
  lemma CanonicalIsInjective(a: Json, b: Json)
    requires WellFormed(a) && WellFormed(b)
    ensures Canonical(a) == Canonical(b) <==> Same(a, b)
  {
    CanonicalIsPrint(a);
    CanonicalIsPrint(b);
    if Canonical(a) == Canonical(b) {
      assert Print(Normalize(a)) + [] == Print(Normalize(b)) + [];
      PrintDetermines(Normalize(a), [], Normalize(b), []);
      NormalSame(a, b);
    }
    if Same(a, b) {
      SameNormal(a, b);
    }
  }
}
