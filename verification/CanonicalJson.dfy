/**
 `stableJson`: the canonical text of a JSON value.

 Objects are printed with their keys in UTF-16 code-unit order, everything else as
 `JSON.stringify` prints it.  The module proves that the text is a canonical form: two values
 print equal if and only if they are equal up to the order of object members.
 */
module CanonicalJson {

  /** A UTF-16 code unit; JavaScript strings are sequences of these, paired or not. */
  type Unit = u: int | 0 <= u < 0x10000
  type Text = seq<Unit>

  /** A JSON value.  A number is identified by the text that Number::toString gives it. */
  datatype Json =
    | Null
    | Bool(b: bool)
    | Num(numeral: Text)
    | Str(s: Text)
    | Arr(items: seq<Json>)
    | Obj(members: seq<Member>)

  datatype Member = Member(key: Text, value: Json)

  const QUOTE: Unit := 0x22
  const BACKSLASH: Unit := 0x5C
  const COMMA: Unit := 0x2C
  const COLON: Unit := 0x3A
  const OPEN_BRACKET: Unit := 0x5B
  const CLOSE_BRACKET: Unit := 0x5D
  const OPEN_BRACE: Unit := 0x7B
  const CLOSE_BRACE: Unit := 0x7D
  const LETTER_U: Unit := 0x75

  // ---------------------------------------------------------------------------------------------
  // JSON.stringify on strings
  // ---------------------------------------------------------------------------------------------

  predicate High(u: Unit) { 0xD800 <= u < 0xDC00 }
  predicate Low(u: Unit) { 0xDC00 <= u < 0xE000 }

  /** A surrogate that is not one half of a pair. */
  predicate Lone(s: Text, i: nat)
    requires i < |s|
  {
    || (High(s[i]) && !(i + 1 < |s| && Low(s[i + 1])))
    || (Low(s[i]) && !(0 < i && High(s[i - 1])))
  }

  function HexDigit(d: nat): Unit
    requires d < 16
  {
    if d < 10 then 0x30 + d else 0x61 + (d - 10)
  }

  function Hex4(u: Unit): (h: Text)
    ensures |h| == 4
  {
    [HexDigit(u / 16 / 16 / 16), HexDigit(u / 16 / 16 % 16), HexDigit(u / 16 % 16), HexDigit(u % 16)]
  }

  /** The two-unit escapes \b \t \n \f \r \" \\ . */
  function ShortEscape(u: Unit): Text {
    if u == 0x08 then [BACKSLASH, 0x62]
    else if u == 0x09 then [BACKSLASH, 0x74]
    else if u == 0x0A then [BACKSLASH, 0x6E]
    else if u == 0x0C then [BACKSLASH, 0x66]
    else if u == 0x0D then [BACKSLASH, 0x72]
    else if u == QUOTE then [BACKSLASH, QUOTE]
    else if u == BACKSLASH then [BACKSLASH, BACKSLASH]
    else []
  }

  function Escaped(s: Text, i: nat): Text
    requires i < |s|
  {
    if ShortEscape(s[i]) != [] then ShortEscape(s[i])
    else if s[i] < 0x20 || Lone(s, i) then [BACKSLASH, LETTER_U] + Hex4(s[i])
    else [s[i]]
  }

  function Body(s: Text, i: nat): Text
    requires i <= |s|
    decreases |s| - i
  {
    if i == |s| then [] else Escaped(s, i) + Body(s, i + 1)
  }

  function Quote(s: Text): Text {
    [QUOTE] + Body(s, 0) + [QUOTE]
  }

  // Reading one escaped unit back.

  function HexValue(u: Unit): int {
    if 0x30 <= u <= 0x39 then u - 0x30 else u - 0x61 + 10
  }

  function ReadUnit(t: Text): (r: (int, nat))
    requires |t| > 0
  {
    if t[0] != BACKSLASH || |t| == 1 then (t[0], 1)
    else if t[1] == LETTER_U && |t| >= 6 then
      (((HexValue(t[2]) * 16 + HexValue(t[3])) * 16 + HexValue(t[4])) * 16 + HexValue(t[5]), 6)
    else if t[1] == 0x62 then (0x08, 2)
    else if t[1] == 0x74 then (0x09, 2)
    else if t[1] == 0x6E then (0x0A, 2)
    else if t[1] == 0x66 then (0x0C, 2)
    else if t[1] == 0x72 then (0x0D, 2)
    else (t[1], 2)
  }

  lemma HexDigitValue(d: nat)
    requires d < 16
    ensures HexValue(HexDigit(d)) == d
  {
  }

  lemma Hex4Value(u: Unit)
    ensures var h := Hex4(u);
      ((HexValue(h[0]) * 16 + HexValue(h[1])) * 16 + HexValue(h[2])) * 16 + HexValue(h[3]) == u
  {
    var q1 := u / 16;
    var q2 := q1 / 16;
    var q3 := q2 / 16;
    HexDigitValue(u % 16);
    HexDigitValue(q1 % 16);
    HexDigitValue(q2 % 16);
    HexDigitValue(q3);
  }

  /** Whatever follows, the escape of a unit reads back as that unit. */
  lemma ReadEscaped(s: Text, i: nat, rest: Text)
    requires i < |s|
    ensures ReadUnit(Escaped(s, i) + rest) == (s[i], |Escaped(s, i)|)
    ensures Escaped(s, i)[0] != QUOTE
  {
    var t := Escaped(s, i) + rest;
    if ShortEscape(s[i]) == [] && (s[i] < 0x20 || Lone(s, i)) {
      Hex4Value(s[i]);
      assert t[2..6] == Hex4(s[i]);
      assert t[2] == Hex4(s[i])[0] && t[3] == Hex4(s[i])[1] && t[4] == Hex4(s[i])[2] && t[5] == Hex4(s[i])[3];
    }
  }

  lemma CutEqual(a: Text, x: Text, b: Text, y: Text)
    requires a + x == b + y && |a| == |b|
    ensures a == b && x == y
  {
    assert (a + x)[..|a|] == a && (b + y)[..|b|] == b;
    assert (a + x)[|a|..] == x && (b + y)[|b|..] == y;
  }

  /** The closing quote is recognised: no escape begins with one. */
  lemma BodyEnds(s: Text, i: nat, rest: Text)
    requires i <= |s| && rest != [] && rest[0] == QUOTE
    ensures (Body(s, i) + rest)[0] == QUOTE <==> i == |s|
    ensures i < |s| ==> Body(s, i) + rest == Escaped(s, i) + (Body(s, i + 1) + rest)
  {
    if i < |s| {
      var tail := Body(s, i + 1) + rest;
      ReadEscaped(s, i, tail);
      assert Body(s, i) + rest == Escaped(s, i) + tail;
      assert (Escaped(s, i) + tail)[0] == Escaped(s, i)[0];
    }
  }

  lemma {:induction false} BodyUnique(a: Text, b: Text, i: nat, r: Text, s: Text)
    requires i <= |a| && i <= |b|
    requires r != [] && s != [] && r[0] == QUOTE == s[0]
    requires Body(a, i) + r == Body(b, i) + s
    ensures a[i..] == b[i..] && r == s
    decreases |a| - i
  {
    BodyEnds(a, i, r);
    BodyEnds(b, i, s);
    if i == |a| {
      assert Body(a, i) + r == r && Body(b, i) + s == s;
    } else {
      var ta, tb := Body(a, i + 1) + r, Body(b, i + 1) + s;
      ReadEscaped(a, i, ta);
      ReadEscaped(b, i, tb);
      CutEqual(Escaped(a, i), ta, Escaped(b, i), tb);
      BodyUnique(a, b, i + 1, r, s);
      assert a[i..] == [a[i]] + a[i + 1..] && b[i..] == [b[i]] + b[i + 1..];
    }
  }

  /** A quoted string is self-delimiting. */
  lemma {:induction false} QuoteUnique(a: Text, b: Text, r: Text, s: Text)
    requires Quote(a) + r == Quote(b) + s
    ensures a == b && r == s
  {
    var ra, rb := [QUOTE] + r, [QUOTE] + s;
    assert Quote(a) + r == [QUOTE] + (Body(a, 0) + ra);
    assert Quote(b) + s == [QUOTE] + (Body(b, 0) + rb);
    CutEqual([QUOTE], Body(a, 0) + ra, [QUOTE], Body(b, 0) + rb);
    BodyUnique(a, b, 0, ra, rb);
    assert a[0..] == a && b[0..] == b;
    assert ra[1..] == r && rb[1..] == s;
  }

  // ---------------------------------------------------------------------------------------------
  // Object.keys(value).sort()
  // ---------------------------------------------------------------------------------------------

  /** Lexicographic order of UTF-16 code units, as in section 3.2.3 of RFC 8785. */
  predicate Less(a: Text, b: Text) {
    b != [] && (a == [] || a[0] < b[0] || (a[0] == b[0] && Less(a[1..], b[1..])))
  }

  lemma {:induction false} LessTotal(a: Text, b: Text)
    ensures a == b || Less(a, b) || Less(b, a)
  {
    if a != [] && b != [] && a[0] == b[0] {
      LessTotal(a[1..], b[1..]);
      assert a == [a[0]] + a[1..] && b == [b[0]] + b[1..];
    }
  }

  lemma {:induction false} LessTransitive(a: Text, b: Text, c: Text)
    requires Less(a, b) && Less(b, c)
    ensures Less(a, c)
  {
    if a != [] && a[0] == b[0] == c[0] {
      LessTransitive(a[1..], b[1..], c[1..]);
    }
  }

  lemma {:induction false} LessIrreflexive(a: Text)
    ensures !Less(a, a)
  {
    if a != [] {
      LessIrreflexive(a[1..]);
    }
  }

  ghost predicate StrictlySorted(ks: seq<Text>) {
    forall i, j :: 0 <= i < j < |ks| ==> Less(ks[i], ks[j])
  }

  function Insert(k: Text, ks: seq<Text>): (r: seq<Text>)
    ensures forall x :: x in r <==> x == k || x in ks
  {
    if ks == [] || Less(k, ks[0]) then [k] + ks else [ks[0]] + Insert(k, ks[1..])
  }

  function Sort(ks: seq<Text>): (r: seq<Text>)
    ensures forall x :: x in r <==> x in ks
  {
    if ks == [] then [] else Insert(ks[0], Sort(ks[1..]))
  }

  lemma {:induction false} InsertSorted(k: Text, ks: seq<Text>)
    requires StrictlySorted(ks) && k !in ks
    ensures StrictlySorted(Insert(k, ks))
  {
    if ks == [] {
    } else if Less(k, ks[0]) {
      forall j | 0 <= j < |ks|
        ensures Less(k, ks[j])
      {
        if j > 0 {
          LessTransitive(k, ks[0], ks[j]);
        }
      }
    } else {
      LessTotal(k, ks[0]);
      var rest := Insert(k, ks[1..]);
      InsertSorted(k, ks[1..]);
      forall x | x in rest
        ensures Less(ks[0], x)
      {
        if x != k {
          var j :| 0 <= j < |ks[1..]| && ks[1..][j] == x;
          assert ks[j + 1] == x;
        }
      }
    }
  }

  ghost predicate NoDuplicates(ks: seq<Text>) {
    forall i, j :: 0 <= i < j < |ks| ==> ks[i] != ks[j]
  }

  lemma {:induction false} SortSorted(ks: seq<Text>)
    requires NoDuplicates(ks)
    ensures StrictlySorted(Sort(ks))
  {
    if ks != [] {
      SortSorted(ks[1..]);
      assert ks[0] !in ks[1..];
      InsertSorted(ks[0], Sort(ks[1..]));
    }
  }

  /** A set of keys has only one sorted list. */
  lemma {:induction false} SortedUnique(a: seq<Text>, b: seq<Text>)
    requires StrictlySorted(a) && StrictlySorted(b)
    requires forall x :: x in a <==> x in b
    ensures a == b
  {
    assert |a| > 0 ==> a[0] in a;
    assert |b| > 0 ==> b[0] in b;
    if a != [] {
      SameHead(a, b);
      var ta, tb := a[1..], b[1..];
      forall x
        ensures x in ta <==> x in tb
      {
        SortedTail(a, x);
        SortedTail(b, x);
      }
      SortedUnique(ta, tb);
      assert a == [a[0]] + ta && b == [b[0]] + tb;
    }
  }

  lemma SortedTail(a: seq<Text>, x: Text)
    requires a != [] && StrictlySorted(a)
    ensures x in a[1..] <==> x in a && x != a[0]
  {
    LessIrreflexive(a[0]);
    if x in a[1..] {
      var j :| 0 <= j < |a[1..]| && a[1..][j] == x;
      assert Less(a[0], a[j + 1]);
    }
  }

  lemma SameHead(a: seq<Text>, b: seq<Text>)
    requires a != [] && b != [] && StrictlySorted(a) && StrictlySorted(b)
    requires forall x :: x in a <==> x in b
    ensures a[0] == b[0]
  {
    assert a[0] in b && b[0] in a;
    var i :| 0 <= i < |b| && b[i] == a[0];
    var j :| 0 <= j < |a| && a[j] == b[0];
    if i > 0 && j > 0 {
      LessTransitive(a[0], b[0], a[0]);
      LessIrreflexive(a[0]);
    }
  }

  // ---------------------------------------------------------------------------------------------
  // The printer
  // ---------------------------------------------------------------------------------------------

  function Keys(ms: seq<Member>): (ks: seq<Text>)
    ensures |ks| == |ms| && forall i :: 0 <= i < |ms| ==> ks[i] == ms[i].key
  {
    seq(|ms|, i requires 0 <= i < |ms| => ms[i].key)
  }

  /** `value[key]`. */
  function Lookup(ms: seq<Member>, k: Text): (v: Json)
    requires k in Keys(ms)
    ensures Member(k, v) in ms
  {
    if ms[0].key == k then ms[0].value
    else
      assert Keys(ms)[1..] == Keys(ms[1..]);
      Lookup(ms[1..], k)
  }

  function StableJson(v: Json): Text
    decreases v, 2, 0
  {
    match v
    case Null => [0x6E, 0x75, 0x6C, 0x6C]
    case Bool(b) => if b then [0x74, 0x72, 0x75, 0x65] else [0x66, 0x61, 0x6C, 0x73, 0x65]
    case Num(n) => n
    case Str(s) => Quote(s)
    case Arr(items) => [OPEN_BRACKET] + PrintItems(v, 0) + [CLOSE_BRACKET]
    case Obj(ms) => [OPEN_BRACE] + PrintMembers(v, Sort(Keys(ms)), 0) + [CLOSE_BRACE]
  }

  /** The elements from index `i` on, joined with commas. */
  function PrintItems(v: Json, i: nat): Text
    requires v.Arr? && i <= |v.items|
    decreases v, 1, |v.items| - i
  {
    if i == |v.items| then []
    else (if i == 0 then [] else [COMMA]) + StableJson(v.items[i]) + PrintItems(v, i + 1)
  }

  /** The members under the keys from index `i` on, joined with commas. */
  function PrintMembers(v: Json, ks: seq<Text>, i: nat): Text
    requires v.Obj? && i <= |ks| && forall k :: k in ks ==> k in Keys(v.members)
    decreases v, 1, |ks| - i
  {
    if i == |ks| then []
    else
      (if i == 0 then [] else [COMMA]) + Quote(ks[i]) + [COLON]
      + StableJson(Lookup(v.members, ks[i])) + PrintMembers(v, ks, i + 1)
  }

  // ---------------------------------------------------------------------------------------------
  // Equality up to member order
  // ---------------------------------------------------------------------------------------------

  predicate NumeralUnit(u: Unit) {
    0x30 <= u <= 0x39 || u == 0x2D || u == 0x2B || u == 0x2E || u == 0x65
  }

  ghost predicate IsNumeral(n: Text) {
    n != [] && (0x30 <= n[0] <= 0x39 || n[0] == 0x2D) && forall i :: 0 <= i < |n| ==> NumeralUnit(n[i])
  }

  /** A JSON value proper: numbers are numerals and no object repeats a key. */
  ghost predicate WellFormed(v: Json) {
    match v
    case Num(n) => IsNumeral(n)
    case Arr(items) => forall i :: 0 <= i < |items| ==> WellFormed(items[i])
    case Obj(ms) => NoDuplicates(Keys(ms)) && forall i :: 0 <= i < |ms| ==> WellFormed(ms[i].value)
    case _ => true
  }

  ghost predicate SameKeys(a: seq<Member>, b: seq<Member>) {
    forall k :: k in Keys(a) <==> k in Keys(b)
  }

  /** Equal up to the order of object members, at every depth. */
  ghost predicate Equivalent(a: Json, b: Json) {
    match a
    case Arr(items) =>
      b.Arr? && |items| == |b.items| && forall i :: 0 <= i < |items| ==> Equivalent(items[i], b.items[i])
    case Obj(ms) =>
      b.Obj? && SameKeys(ms, b.members)
      && forall k :: k in Keys(ms) ==> Equivalent(Lookup(ms, k), Lookup(b.members, k))
    case _ => a == b
  }

  lemma LookupWellFormed(v: Json, k: Text)
    requires v.Obj? && WellFormed(v) && k in Keys(v.members)
    ensures WellFormed(Lookup(v.members, k)) && Lookup(v.members, k) < v
  {
    var i :| 0 <= i < |v.members| && v.members[i] == Member(k, Lookup(v.members, k));
    assert WellFormed(v.members[i].value);
  }

  lemma SortedKeys(v: Json)
    requires v.Obj? && WellFormed(v)
    ensures StrictlySorted(Sort(Keys(v.members)))
  {
    SortSorted(Keys(v.members));
  }

  // ---------------------------------------------------------------------------------------------
  // Equivalent values print equal
  // ---------------------------------------------------------------------------------------------

  lemma {:induction false} EquivalentPrintEqual(a: Json, b: Json)
    requires WellFormed(a) && WellFormed(b) && Equivalent(a, b)
    ensures StableJson(a) == StableJson(b)
    decreases a, 2, 0
  {
    match a
    case Arr(_) =>
      EquivalentItems(a, b, 0);
    case Obj(_) =>
      SortedKeys(a);
      SortedKeys(b);
      SortedUnique(Sort(Keys(a.members)), Sort(Keys(b.members)));
      EquivalentMembers(a, b, Sort(Keys(a.members)), 0);
    case _ =>
  }

  lemma {:induction false} EquivalentItems(a: Json, b: Json, i: nat)
    requires a.Arr? && b.Arr? && WellFormed(a) && WellFormed(b) && Equivalent(a, b) && i <= |a.items|
    ensures PrintItems(a, i) == PrintItems(b, i)
    decreases a, 1, |a.items| - i
  {
    if i < |a.items| {
      EquivalentPrintEqual(a.items[i], b.items[i]);
      EquivalentItems(a, b, i + 1);
    }
  }

  lemma {:induction false} EquivalentMembers(a: Json, b: Json, ks: seq<Text>, i: nat)
    requires a.Obj? && b.Obj? && WellFormed(a) && WellFormed(b) && Equivalent(a, b)
    requires i <= |ks| && forall k :: k in ks ==> k in Keys(a.members)
    ensures PrintMembers(a, ks, i) == PrintMembers(b, ks, i)
    decreases a, 1, |ks| - i
  {
    if i < |ks| {
      LookupWellFormed(a, ks[i]);
      LookupWellFormed(b, ks[i]);
      EquivalentPrintEqual(Lookup(a.members, ks[i]), Lookup(b.members, ks[i]));
      EquivalentMembers(a, b, ks, i + 1);
    }
  }

  // ---------------------------------------------------------------------------------------------
  // The text determines the value: unambiguous parsing of the nested output
  // ---------------------------------------------------------------------------------------------

  /** What may follow a value inside the text. */
  predicate Delimited(r: Text) {
    r == [] || r[0] == COMMA || r[0] == CLOSE_BRACKET || r[0] == CLOSE_BRACE
  }

  function Shape(v: Json): nat {
    match v case Null => 0 case Bool(b) => if b then 1 else 2 case Num(_) => 3 case Str(_) => 4 case Arr(_) => 5 case Obj(_) => 6
  }

  function ShapeOfUnit(u: Unit): nat {
    if u == 0x6E then 0 else if u == 0x74 then 1 else if u == 0x66 then 2 else if u == QUOTE then 4
    else if u == OPEN_BRACKET then 5 else if u == OPEN_BRACE then 6 else 3
  }

  /** The first unit of the text tells the shape of the value and is never a delimiter. */
  lemma FirstUnit(v: Json)
    requires WellFormed(v)
    ensures StableJson(v) != [] && ShapeOfUnit(StableJson(v)[0]) == Shape(v)
    ensures !Delimited(StableJson(v))
  {
  }

  /** The longest run of numeral units at the front. */
  function NumeralRun(t: Text): nat {
    if t == [] || !NumeralUnit(t[0]) then 0 else 1 + NumeralRun(t[1..])
  }

  lemma {:induction false} NumeralRunIsNumeral(n: Text, r: Text)
    requires forall i :: 0 <= i < |n| ==> NumeralUnit(n[i])
    requires Delimited(r)
    ensures NumeralRun(n + r) == |n|
  {
    if n == [] {
      assert n + r == r;
    } else {
      assert (n + r)[1..] == n[1..] + r;
      NumeralRunIsNumeral(n[1..], r);
    }
  }

  lemma NumeralUnique(a: Text, b: Text, r: Text, s: Text)
    requires forall i :: 0 <= i < |a| ==> NumeralUnit(a[i])
    requires forall i :: 0 <= i < |b| ==> NumeralUnit(b[i])
    requires Delimited(r) && Delimited(s) && a + r == b + s
    ensures a == b && r == s
  {
    NumeralRunIsNumeral(a, r);
    NumeralRunIsNumeral(b, s);
    CutEqual(a, r, b, s);
  }

  lemma SameShape(a: Json, b: Json, r: Text, s: Text)
    requires WellFormed(a) && WellFormed(b)
    requires StableJson(a) + r == StableJson(b) + s
    ensures Shape(a) == Shape(b)
  {
    FirstUnit(a);
    FirstUnit(b);
    assert StableJson(a)[0] == (StableJson(a) + r)[0] && StableJson(b)[0] == (StableJson(b) + s)[0];
  }

  lemma {:induction false} PrintEqualEquivalent(a: Json, b: Json, r: Text, s: Text)
    requires WellFormed(a) && WellFormed(b) && Delimited(r) && Delimited(s)
    requires StableJson(a) + r == StableJson(b) + s
    ensures Equivalent(a, b) && r == s
    decreases a, 3, 0
  {
    SameShape(a, b, r, s);
    match a
    case Num(_) =>
      NumeralUnique(a.numeral, b.numeral, r, s);
    case Str(_) =>
      QuoteUnique(a.s, b.s, r, s);
    case Arr(_) =>
      ArrayUnique(a, b, r, s);
    case Obj(_) =>
      ObjectUnique(a, b, r, s);
    case _ =>
      CutEqual(StableJson(a), r, StableJson(b), s);
  }

  lemma Unwrap(open: Unit, x: Text, close: Unit, r: Text, y: Text, s: Text)
    requires [open] + x + [close] + r == [open] + y + [close] + s
    ensures x + ([close] + r) == y + ([close] + s)
  {
    assert [open] + x + [close] + r == [open] + (x + ([close] + r));
    assert [open] + y + [close] + s == [open] + (y + ([close] + s));
    CutEqual([open], x + ([close] + r), [open], y + ([close] + s));
  }

  lemma {:induction false} ArrayUnique(a: Json, b: Json, r: Text, s: Text)
    requires a.Arr? && b.Arr? && WellFormed(a) && WellFormed(b)
    requires StableJson(a) + r == StableJson(b) + s
    ensures Equivalent(a, b) && r == s
    decreases a, 2, 0
  {
    var ra, rb := [CLOSE_BRACKET] + r, [CLOSE_BRACKET] + s;
    Unwrap(OPEN_BRACKET, PrintItems(a, 0), CLOSE_BRACKET, r, PrintItems(b, 0), s);
    ItemsUnique(a, b, 0, ra, rb);
    assert ra[1..] == r && rb[1..] == s;
  }

  lemma {:induction false} ObjectUnique(a: Json, b: Json, r: Text, s: Text)
    requires a.Obj? && b.Obj? && WellFormed(a) && WellFormed(b)
    requires StableJson(a) + r == StableJson(b) + s
    ensures Equivalent(a, b) && r == s
    decreases a, 2, 0
  {
    var ka, kb := Sort(Keys(a.members)), Sort(Keys(b.members));
    var ra, rb := [CLOSE_BRACE] + r, [CLOSE_BRACE] + s;
    Unwrap(OPEN_BRACE, PrintMembers(a, ka, 0), CLOSE_BRACE, r, PrintMembers(b, kb, 0), s);
    MembersUnique(a, b, ka, kb, 0, ra, rb);
    assert ra[1..] == r && rb[1..] == s;
    assert ka[0..] == ka && kb[0..] == kb;
    forall k | k in Keys(a.members)
      ensures Equivalent(Lookup(a.members, k), Lookup(b.members, k))
    {
      var j :| 0 <= j < |ka| && ka[j] == k;
    }
  }

  /** One step of the printed elements, with the text behind it. */
  lemma ItemsUnfold(v: Json, i: nat, rest: Text)
    requires v.Arr? && i < |v.items|
    ensures PrintItems(v, i) + rest
         == (if i == 0 then [] else [COMMA]) + (StableJson(v.items[i]) + (PrintItems(v, i + 1) + rest))
  {
    var sep: Text := if i == 0 then [] else [COMMA];
    Reassociate(sep, StableJson(v.items[i]), PrintItems(v, i + 1), rest);
  }

  lemma Reassociate(a: Text, b: Text, c: Text, d: Text)
    ensures a + b + c + d == a + (b + (c + d))
  {
  }

  /** The bracket that closes an array is recognised. */
  lemma ItemsEnd(v: Json, i: nat, rest: Text)
    requires v.Arr? && WellFormed(v) && i <= |v.items| && rest != [] && rest[0] == CLOSE_BRACKET
    ensures (PrintItems(v, i) + rest)[0] == CLOSE_BRACKET <==> i == |v.items|
    ensures i > 0 ==> Delimited(PrintItems(v, i) + rest)
  {
    if i < |v.items| {
      ItemsUnfold(v, i, rest);
      if i == 0 {
        FirstUnit(v.items[i]);
        HeadUnit([], StableJson(v.items[i]), PrintItems(v, i + 1) + rest);
      }
    }
  }

  lemma HeadUnit(sep: Text, x: Text, rest: Text)
    requires sep == [] && x != []
    ensures (sep + (x + rest))[0] == x[0]
  {
  }

  lemma ItemStep(a: Json, b: Json, i: nat, r: Text, s: Text)
    requires a.Arr? && b.Arr? && WellFormed(a) && WellFormed(b) && i < |a.items| && i <= |b.items|
    requires r != [] && s != [] && r[0] == CLOSE_BRACKET == s[0]
    requires PrintItems(a, i) + r == PrintItems(b, i) + s
    ensures i < |b.items|
    ensures StableJson(a.items[i]) + (PrintItems(a, i + 1) + r) == StableJson(b.items[i]) + (PrintItems(b, i + 1) + s)
    ensures Delimited(PrintItems(a, i + 1) + r) && Delimited(PrintItems(b, i + 1) + s)
  {
    ItemsEnd(a, i, r);
    ItemsEnd(b, i, s);
    ItemsEnd(a, i + 1, r);
    ItemsEnd(b, i + 1, s);
    ItemsUnfold(a, i, r);
    ItemsUnfold(b, i, s);
    var sep: Text := if i == 0 then [] else [COMMA];
    CutEqual(sep, StableJson(a.items[i]) + (PrintItems(a, i + 1) + r),
             sep, StableJson(b.items[i]) + (PrintItems(b, i + 1) + s));
  }

  lemma ItemsLast(a: Json, b: Json, r: Text, s: Text)
    requires a.Arr? && b.Arr? && WellFormed(a) && WellFormed(b) && |a.items| <= |b.items|
    requires r != [] && s != [] && r[0] == CLOSE_BRACKET == s[0]
    requires PrintItems(a, |a.items|) + r == PrintItems(b, |a.items|) + s
    ensures |a.items| == |b.items| && r == s
  {
    ItemsEnd(a, |a.items|, r);
    ItemsEnd(b, |a.items|, s);
    assert [] + r == r && [] + s == s;
  }

  lemma {:induction false} FirstItemUnique(a: Json, b: Json, i: nat, r: Text, s: Text)
    requires a.Arr? && b.Arr? && WellFormed(a) && WellFormed(b) && i < |a.items| && i < |b.items|
    requires Delimited(r) && Delimited(s)
    requires StableJson(a.items[i]) + r == StableJson(b.items[i]) + s
    ensures Equivalent(a.items[i], b.items[i]) && r == s
    decreases a, 0, 0
  {
    PrintEqualEquivalent(a.items[i], b.items[i], r, s);
  }

  lemma {:induction false} ItemsUnique(a: Json, b: Json, i: nat, r: Text, s: Text)
    requires a.Arr? && b.Arr? && WellFormed(a) && WellFormed(b) && i <= |a.items| && i <= |b.items|
    requires r != [] && s != [] && r[0] == CLOSE_BRACKET == s[0]
    requires PrintItems(a, i) + r == PrintItems(b, i) + s
    ensures |a.items| == |b.items| && r == s && ItemsEquivalent(a.items, b.items, i)
    decreases a, 1, |a.items| - i
  {
    if i == |a.items| {
      ItemsLast(a, b, r, s);
    } else {
      ItemStep(a, b, i, r, s);
      FirstItemUnique(a, b, i, PrintItems(a, i + 1) + r, PrintItems(b, i + 1) + s);
      ItemsUnique(a, b, i + 1, r, s);
      ItemsEquivalentFrom(a.items, b.items, i);
    }
  }

  ghost predicate ItemsEquivalent(xs: seq<Json>, ys: seq<Json>, i: nat) {
    |xs| == |ys| && forall j :: i <= j < |xs| ==> Equivalent(xs[j], ys[j])
  }

  lemma ItemsEquivalentFrom(xs: seq<Json>, ys: seq<Json>, i: nat)
    requires i < |xs| && ItemsEquivalent(xs, ys, i + 1) && Equivalent(xs[i], ys[i])
    ensures ItemsEquivalent(xs, ys, i)
  {
  }

  /** One step of the printed members, with the text behind it. */
  lemma MembersUnfold(v: Json, ks: seq<Text>, i: nat, rest: Text)
    requires v.Obj? && i < |ks| && (forall k :: k in ks ==> k in Keys(v.members))
    ensures PrintMembers(v, ks, i) + rest
         == (if i == 0 then [] else [COMMA])
          + (Quote(ks[i]) + ([COLON] + (StableJson(Lookup(v.members, ks[i])) + (PrintMembers(v, ks, i + 1) + rest))))
  {
    var sep: Text := if i == 0 then [] else [COMMA];
    ReassociateSix(sep, Quote(ks[i]), [COLON], StableJson(Lookup(v.members, ks[i])), PrintMembers(v, ks, i + 1), rest);
  }

  lemma ReassociateSix(a: Text, b: Text, c: Text, d: Text, e: Text, f: Text)
    ensures a + b + c + d + e + f == a + (b + (c + (d + (e + f))))
  {
  }

  lemma QuoteHead(k: Text, rest: Text)
    ensures (Quote(k) + rest)[0] == QUOTE
  {
  }

  /** The brace that closes an object is recognised. */
  lemma MembersEnd(v: Json, ks: seq<Text>, i: nat, rest: Text)
    requires v.Obj? && i <= |ks| && (forall k :: k in ks ==> k in Keys(v.members))
    requires rest != [] && rest[0] == CLOSE_BRACE
    ensures (PrintMembers(v, ks, i) + rest)[0] == CLOSE_BRACE <==> i == |ks|
    ensures i > 0 ==> Delimited(PrintMembers(v, ks, i) + rest)
  {
    if i < |ks| {
      MembersUnfold(v, ks, i, rest);
      var tail := [COLON] + (StableJson(Lookup(v.members, ks[i])) + (PrintMembers(v, ks, i + 1) + rest));
      QuoteHead(ks[i], tail);
      assert i == 0 ==> [] + (Quote(ks[i]) + tail) == Quote(ks[i]) + tail;
    }
  }

  lemma MemberStep(a: Json, b: Json, ka: seq<Text>, kb: seq<Text>, i: nat, r: Text, s: Text)
    requires a.Obj? && b.Obj? && i < |ka| && i < |kb|
    requires (forall k :: k in ka ==> k in Keys(a.members)) && (forall k :: k in kb ==> k in Keys(b.members))
    requires PrintMembers(a, ka, i) + r == PrintMembers(b, kb, i) + s
    ensures ka[i] == kb[i]
    ensures StableJson(Lookup(a.members, ka[i])) + (PrintMembers(a, ka, i + 1) + r)
         == StableJson(Lookup(b.members, kb[i])) + (PrintMembers(b, kb, i + 1) + s)
  {
    MembersUnfold(a, ka, i, r);
    MembersUnfold(b, kb, i, s);
    var va := StableJson(Lookup(a.members, ka[i])) + (PrintMembers(a, ka, i + 1) + r);
    var vb := StableJson(Lookup(b.members, kb[i])) + (PrintMembers(b, kb, i + 1) + s);
    var sep: Text := if i == 0 then [] else [COMMA];
    MemberCut(sep, ka[i], va, kb[i], vb);
  }

  lemma MemberCut(sep: Text, k: Text, va: Text, k': Text, vb: Text)
    requires sep + (Quote(k) + ([COLON] + va)) == sep + (Quote(k') + ([COLON] + vb))
    ensures k == k' && va == vb
  {
    CutEqual(sep, Quote(k) + ([COLON] + va), sep, Quote(k') + ([COLON] + vb));
    QuoteUnique(k, k', [COLON] + va, [COLON] + vb);
    CutEqual([COLON], va, [COLON], vb);
  }

  lemma {:induction false} FirstMemberUnique(a: Json, b: Json, ka: seq<Text>, kb: seq<Text>, i: nat, r: Text, s: Text)
    requires a.Obj? && b.Obj? && WellFormed(a) && WellFormed(b) && i < |ka| && i < |kb|
    requires (forall k :: k in ka ==> k in Keys(a.members)) && (forall k :: k in kb ==> k in Keys(b.members))
    requires r != [] && s != [] && r[0] == CLOSE_BRACE == s[0]
    requires PrintMembers(a, ka, i) + r == PrintMembers(b, kb, i) + s
    ensures ka[i] == kb[i] && ka[i] in Keys(a.members) && ka[i] in Keys(b.members)
    ensures Equivalent(Lookup(a.members, ka[i]), Lookup(b.members, ka[i]))
    ensures PrintMembers(a, ka, i + 1) + r == PrintMembers(b, kb, i + 1) + s
    decreases a, 0, 0
  {
    MemberStep(a, b, ka, kb, i, r, s);
    LookupWellFormed(a, ka[i]);
    LookupWellFormed(b, kb[i]);
    MembersEnd(a, ka, i + 1, r);
    MembersEnd(b, kb, i + 1, s);
    PrintEqualEquivalent(Lookup(a.members, ka[i]), Lookup(b.members, kb[i]),
                         PrintMembers(a, ka, i + 1) + r, PrintMembers(b, kb, i + 1) + s);
  }

  lemma {:induction false} MembersUnique(a: Json, b: Json, ka: seq<Text>, kb: seq<Text>, i: nat, r: Text, s: Text)
    requires a.Obj? && b.Obj? && WellFormed(a) && WellFormed(b) && i <= |ka| && i <= |kb|
    requires (forall k :: k in ka ==> k in Keys(a.members)) && (forall k :: k in kb ==> k in Keys(b.members))
    requires r != [] && s != [] && r[0] == CLOSE_BRACE == s[0]
    requires PrintMembers(a, ka, i) + r == PrintMembers(b, kb, i) + s
    ensures ka[i..] == kb[i..] && r == s
    ensures forall j :: i <= j < |ka| ==>
      ka[j] in Keys(b.members) && Equivalent(Lookup(a.members, ka[j]), Lookup(b.members, ka[j]))
    decreases a, 1, |ka| - i
  {
    MembersEnd(a, ka, i, r);
    MembersEnd(b, kb, i, s);
    if i == |ka| {
      assert [] + r == r && [] + s == s;
    } else {
      FirstMemberUnique(a, b, ka, kb, i, r, s);
      MembersUnique(a, b, ka, kb, i + 1, r, s);
      assert ka[i..] == [ka[i]] + ka[i + 1..] && kb[i..] == [kb[i]] + kb[i + 1..];
    }
  }

  /** `stableJson` is a canonical form: equal text exactly for values equal up to member order. */
  lemma {:induction false} StableJsonIsCanonical(a: Json, b: Json)
    requires WellFormed(a) && WellFormed(b)
    ensures StableJson(a) == StableJson(b) <==> Equivalent(a, b)
  {
    if Equivalent(a, b) {
      EquivalentPrintEqual(a, b);
    }
    if StableJson(a) == StableJson(b) {
      assert StableJson(a) + [] == StableJson(b) + [];
      PrintEqualEquivalent(a, b, [], []);
    }
  }
}
