/**
 The printed text of a value, spelled in characters: the punctuation, the literals and the escapes are
 those of sections 2 to 7 of RFC 8259.
 */
module JsonText {
  import opened CanonicalJson

  /** Characters as UTF-16 code units; the ones used here are all ASCII. */
  function AsText(s: string): (t: Text)
    requires forall i :: 0 <= i < |s| ==> s[i] as int < 0x10000
    ensures |t| == |s| && forall i :: 0 <= i < |s| ==> t[i] == s[i] as int
  {
    seq(|s|, i requires 0 <= i < |s| => s[i] as int)
  }

  /** The texts from index `i` on, with a comma before each but the first. */
  function Joined(ts: seq<Text>, i: nat): Text
    requires i <= |ts|
    decreases |ts| - i
  {
    if i == |ts| then [] else (if i == 0 then [] else AsText(",")) + ts[i] + Joined(ts, i + 1)
  }

  function ItemTexts(items: seq<Json>): (ts: seq<Text>)
    ensures |ts| == |items| && forall i :: 0 <= i < |items| ==> ts[i] == StableJson(items[i])
  {
    seq(|items|, i requires 0 <= i < |items| => StableJson(items[i]))
  }

  /** The members under the given keys, each its quoted key, a colon and its value. */
  function MemberTexts(ms: seq<Member>, ks: seq<Text>): (ts: seq<Text>)
    requires forall k :: k in ks ==> k in Keys(ms)
    ensures |ts| == |ks|
    ensures forall i :: 0 <= i < |ks| ==> ts[i] == Quote(ks[i]) + AsText(":") + StableJson(Lookup(ms, ks[i]))
  {
    seq(|ks|, i requires 0 <= i < |ks| => Quote(ks[i]) + AsText(":") + StableJson(Lookup(ms, ks[i])))
  }

  lemma {:induction false} LiteralTexts()
    ensures StableJson(Null) == AsText("null")
    ensures StableJson(Bool(true)) == AsText("true") && StableJson(Bool(false)) == AsText("false")
  {
    assert AsText("null") == [0x6E, 0x75, 0x6C, 0x6C];
    assert AsText("true") == [0x74, 0x72, 0x75, 0x65];
    assert AsText("false") == [0x66, 0x61, 0x6C, 0x73, 0x65];
  }

  lemma {:induction false} Punctuation()
    ensures AsText("[") == [OPEN_BRACKET] && AsText("]") == [CLOSE_BRACKET]
    ensures AsText("{") == [OPEN_BRACE] && AsText("}") == [CLOSE_BRACE]
    ensures AsText(",") == [COMMA] && AsText(":") == [COLON] && AsText("\"") == [QUOTE] && AsText("\\") == [BACKSLASH]
  {
  }

  lemma {:induction false} ItemsJoined(v: Json, i: nat)
    requires v.Arr? && i <= |v.items|
    ensures PrintItems(v, i) == Joined(ItemTexts(v.items), i)
    decreases |v.items| - i
  {
    Punctuation();
    if i < |v.items| {
      ItemsJoined(v, i + 1);
    }
  }

  /** An array is printed as its elements, in order, separated by commas, in brackets. */
  lemma {:induction false} ArrayText(items: seq<Json>)
    ensures StableJson(Arr(items)) == AsText("[") + Joined(ItemTexts(items), 0) + AsText("]")
  {
    Punctuation();
    ItemsJoined(Arr(items), 0);
  }

  lemma {:induction false} Regroup(a: Text, b: Text, c: Text, d: Text, e: Text)
    ensures a + b + c + d + e == a + (b + c + d) + e
  {
  }

  /** `f` unfolds at `j` like the list of these texts. */
  predicate UnfoldsAt(f: nat -> Text, ts: seq<Text>, j: nat)
    requires j < |ts|
  {
    f(j) == (if j == 0 then [] else AsText(",")) + ts[j] + f(j + 1)
  }

  lemma {:induction false} FirstMemberText(v: Json, ks: seq<Text>, i: nat, t: Text, f: nat -> Text)
    requires v.Obj? && i < |ks| && forall k :: k in ks ==> k in Keys(v.members)
    requires t == Quote(ks[i]) + AsText(":") + StableJson(Lookup(v.members, ks[i]))
    requires f(i) == PrintMembers(v, ks, i) && f(i + 1) == PrintMembers(v, ks, i + 1)
    ensures f(i) == (if i == 0 then [] else AsText(",")) + t + f(i + 1)
  {
    Punctuation();
    Regroup(if i == 0 then [] else [COMMA], Quote(ks[i]), [COLON], StableJson(Lookup(v.members, ks[i])), f(i + 1));
  }

  /** What unfolds like a comma-separated list is one. */
  lemma {:induction false} UnfoldsAsJoined(f: nat -> Text, ts: seq<Text>, i: nat)
    requires f(|ts|) == [] && i <= |ts| && forall j :: 0 <= j < |ts| ==> UnfoldsAt(f, ts, j)
    ensures f(i) == Joined(ts, i)
    decreases |ts| - i
  {
    if i < |ts| {
      UnfoldsAsJoined(f, ts, i + 1);
      assert UnfoldsAt(f, ts, i);
    }
  }

  lemma {:induction false} MembersJoined(v: Json, ks: seq<Text>, f: nat -> Text, ts: seq<Text>)
    requires v.Obj? && forall k :: k in ks ==> k in Keys(v.members)
    requires forall j :: 0 <= j <= |ks| ==> f(j) == PrintMembers(v, ks, j)
    requires ts == MemberTexts(v.members, ks)
    ensures f(0) == Joined(ts, 0)
  {
    forall j | 0 <= j < |ts|
      ensures UnfoldsAt(f, ts, j)
    {
      FirstMemberText(v, ks, j, ts[j], f);
    }
    UnfoldsAsJoined(f, ts, 0);
  }

  /** An object is printed as its members, each once, in ascending order of their keys, separated by
      commas, in braces. */
  lemma {:induction false} ObjectText(ms: seq<Member>, ks: seq<Text>)
    requires NoDuplicates(Keys(ms)) && StrictlySorted(ks) && forall k :: k in ks <==> k in Keys(ms)
    ensures StableJson(Obj(ms)) == AsText("{") + Joined(MemberTexts(ms, ks), 0) + AsText("}")
  {
    Punctuation();
    SortSorted(Keys(ms));
    SortedUnique(Sort(Keys(ms)), ks);
    var v := Obj(ms);
    var f: nat -> Text := (j: nat) => if j <= |ks| then PrintMembers(v, ks, j) else [];
    MembersJoined(v, ks, f, MemberTexts(ms, ks));
  }

  // ---------------------------------------------------------------------------------------------
  // Strings
  // ---------------------------------------------------------------------------------------------

  function HexChar(d: nat): char
    requires d < 16
  {
    "0123456789abcdef"[d]
  }

  /** Four hexadecimal digits, the most significant first. */
  function HexText(u: Unit): Text {
    AsText([HexChar(u / 4096), HexChar(u / 256 % 16), HexChar(u / 16 % 16), HexChar(u % 16)])
  }

  /** How one unit of a string is printed. */
  ghost predicate UnitText(s: Text, i: nat, t: Text)
    requires i < |s|
  {
    var u := s[i];
    if u == '"' as int then t == AsText("\\\"")
    else if u == '\\' as int then t == AsText("\\\\")
    else if u == '\n' as int then t == AsText("\\n")
    else if u == '\r' as int then t == AsText("\\r")
    else if u == '\t' as int then t == AsText("\\t")
    else if u == 0x08 then t == AsText("\\b")
    else if u == 0x0C then t == AsText("\\f")
    else if u < 0x20 || Lone(s, i) then
      t == AsText("\\u") + HexText(u)
    else t == [u]
  }

  lemma {:induction false} EscapeTexts()
    ensures AsText("\\\"") == [BACKSLASH, QUOTE] && AsText("\\\\") == [BACKSLASH, BACKSLASH]
    ensures AsText("\\n") == [BACKSLASH, 0x6E] && AsText("\\r") == [BACKSLASH, 0x72] && AsText("\\t") == [BACKSLASH, 0x74]
    ensures AsText("\\b") == [BACKSLASH, 0x62] && AsText("\\f") == [BACKSLASH, 0x66] && AsText("\\u") == [BACKSLASH, LETTER_U]
  {
  }

  lemma {:induction false} HexCharIsDigit(d: nat)
    requires d < 16
    ensures HexChar(d) as int == HexDigit(d)
  {
  }

  lemma {:induction false} Quotients(u: Unit)
    ensures u / 16 / 16 / 16 == u / 4096 && u / 16 / 16 % 16 == u / 256 % 16
    ensures 0 <= u / 4096 < 16
  {
  }

  lemma {:induction false} Hex4Text(u: Unit)
    ensures HexText(u) == Hex4(u)
  {
    Quotients(u);
    HexCharIsDigit(u / 4096);
    HexCharIsDigit(u / 256 % 16);
    HexCharIsDigit(u / 16 % 16);
    HexCharIsDigit(u % 16);
    var h := HexText(u);
    assert |h| == 4 && h[0] == HexDigit(u / 4096) && h[1] == HexDigit(u / 256 % 16);
    assert h[2] == HexDigit(u / 16 % 16) && h[3] == HexDigit(u % 16);
  }

  /** Each unit of a string is printed as RFC 8259 prescribes, with the short escape where there is one;
      a surrogate without its other half is escaped, as JSON.stringify does. */
  lemma {:induction false} EscapedIsUnitText(s: Text, i: nat)
    requires i < |s|
    ensures UnitText(s, i, Escaped(s, i))
  {
    EscapeTexts();
    Hex4Text(s[i]);
  }

  lemma {:induction false} StringText(s: Text)
    ensures StableJson(Str(s)) == AsText("\"") + Body(s, 0) + AsText("\"")
    ensures forall i :: 0 <= i < |s| ==> UnitText(s, i, Escaped(s, i)) && Body(s, i) == Escaped(s, i) + Body(s, i + 1)
    ensures Body(s, |s|) == []
  {
    Punctuation();
    forall i | 0 <= i < |s|
      ensures UnitText(s, i, Escaped(s, i))
    {
      EscapedIsUnitText(s, i);
    }
  }
}
