/**
 The offer-letter reference: where the edits of a paragraph come from.

 A first scan finds the conditional relocation blocks (a lazy match that does not cross a line
 break), a second one the `{{NAME}}` tokens.  The module characterises both scans without
 reference to scanning, and proves that the gathered edits always meet the precondition of the
 run-editing loop.
 */
module OfferLetter {
  import opened RunEdits

  datatype Match = NoMatch | Match(end: nat)
  datatype Span = Span(start: nat, end: nat)
  datatype Pattern = Block | Token
  datatype Outcome = Filled(edits: seq<Edit>) | UnknownField(name: string)

  type Fields = map<string, string>

  const OPEN := "{{IF_RELOCATION}}"
  const CLOSE := "{{END_IF_RELOCATION}}"
  const IF := "IF_RELOCATION"
  const END_IF := "END_IF_RELOCATION"
  const PACKAGE := "RELOCATION_PACKAGE"

  predicate StartsAt(t: string, i: nat, lit: string) {
    i + |lit| <= |t| && t[i..i + |lit|] == lit
  }

  predicate NameChar(c: char) {
    'A' <= c <= 'Z' || c == '_'
  }

  // ---------------------------------------------------------------------------------------------
  // Tokens: \{\{([A-Z_]+)\}\}
  // ---------------------------------------------------------------------------------------------

  function NameEnd(t: string, i: nat): (r: nat)
    requires i <= |t|
    ensures i <= r <= |t|
    ensures forall k :: i <= k < r ==> NameChar(t[k])
    ensures r < |t| ==> !NameChar(t[r])
    decreases |t| - i
  {
    if i < |t| && NameChar(t[i]) then NameEnd(t, i + 1) else i
  }

  function TokenAt(t: string, i: nat): (m: Match)
    requires i <= |t|
    ensures m.Match? ==> i < m.end <= |t|
  {
    if !StartsAt(t, i, "{{") then NoMatch
    else
      var stop := NameEnd(t, i + 2);
      if i + 2 < stop && StartsAt(t, stop, "}}") then Match(stop + 2) else NoMatch
  }

  /** The declarative reading of the token pattern. */
  ghost predicate IsToken(t: string, i: nat, end: nat) {
    && i + 5 <= end <= |t|
    && t[i] == '{' && t[i + 1] == '{'
    && (forall k :: i + 2 <= k < end - 2 ==> NameChar(t[k]))
    && t[end - 2] == '}' && t[end - 1] == '}'
  }

  lemma {:induction false} TokenAtIsToken(t: string, i: nat, end: nat)
    requires i <= |t|
    ensures TokenAt(t, i) == Match(end) <==> IsToken(t, i, end)
  {
    if i + 2 <= |t| {
      assert t[i..i + 2] == [t[i], t[i + 1]];
      var stop := NameEnd(t, i + 2);
      if stop + 2 <= |t| {
        assert t[stop..stop + 2] == [t[stop], t[stop + 1]];
      }
      if IsToken(t, i, end) {
        assert !NameChar(t[end - 2]);
        assert stop == end - 2;
      }
    }
  }

  /** Two tokens never share a position. */
  lemma {:induction false} TokensApart(t: string, i: nat, iEnd: nat, j: nat, jEnd: nat)
    requires IsToken(t, i, iEnd) && IsToken(t, j, jEnd) && i < j
    ensures iEnd <= j
  {
    assert NameChar(t[i + 2]);
  }

  // ---------------------------------------------------------------------------------------------
  // Conditional blocks: \{\{IF_RELOCATION\}\}.*?\{\{END_IF_RELOCATION\}\}
  // ---------------------------------------------------------------------------------------------

  /** The nearest closing marker reachable from `j` without crossing a line break. */
  function LazyEnd(t: string, j: nat): (m: Match)
    requires j <= |t|
    ensures m.Match? ==> j < m.end <= |t|
    decreases |t| - j
  {
    if StartsAt(t, j, CLOSE) then Match(j + |CLOSE|)
    else if j == |t| || t[j] == '\n' then NoMatch
    else LazyEnd(t, j + 1)
  }

  function BlockAt(t: string, i: nat): (m: Match)
    requires i <= |t|
    ensures m.Match? ==> i < m.end <= |t|
  {
    if StartsAt(t, i, OPEN) then LazyEnd(t, i + |OPEN|) else NoMatch
  }

  ghost predicate ClosesAt(t: string, j: nat, end: nat) {
    && j + |CLOSE| <= end <= |t|
    && StartsAt(t, end - |CLOSE|, CLOSE)
    && (forall k :: j <= k < end - |CLOSE| ==> t[k] != '\n')
  }

  ghost predicate ClosesNearest(t: string, j: nat, end: nat) {
    ClosesAt(t, j, end) && forall e: nat :: ClosesAt(t, j, e) ==> end <= e
  }

  /** The declarative reading of the block pattern: of all ends that fit, the smallest. */
  ghost predicate IsBlock(t: string, i: nat, end: nat) {
    StartsAt(t, i, OPEN) && ClosesNearest(t, i + |OPEN|, end)
  }

  lemma {:induction false} ClosesLater(t: string, j: nat, e: nat)
    requires j <= |t| && !StartsAt(t, j, CLOSE)
    ensures ClosesAt(t, j, e) <==> j < |t| && t[j] != '\n' && ClosesAt(t, j + 1, e)
  {
    assert ClosesAt(t, j, e) ==> e - |CLOSE| != j;
  }

  lemma {:induction false} ClosesHere(t: string, j: nat)
    requires StartsAt(t, j, CLOSE)
    ensures ClosesNearest(t, j, j + |CLOSE|)
  {
  }

  /** Where no closing marker starts, the nearest end is the nearest end from the next position. */
  lemma {:induction false} NearestLater(t: string, j: nat, end: nat)
    requires j < |t| && t[j] != '\n' && !StartsAt(t, j, CLOSE) && ClosesNearest(t, j + 1, end)
    ensures ClosesNearest(t, j, end)
  {
    forall e: nat
      ensures ClosesAt(t, j, e) ==> ClosesAt(t, j + 1, e)
    {
      ClosesLater(t, j, e);
    }
    ClosesLater(t, j, end);
  }

  lemma {:induction false} LazyEndIsNearest(t: string, j: nat)
    requires j <= |t|
    ensures LazyEnd(t, j).Match? ==> ClosesNearest(t, j, LazyEnd(t, j).end)
    ensures LazyEnd(t, j).NoMatch? ==> forall e: nat :: !ClosesAt(t, j, e)
    decreases |t| - j
  {
    if StartsAt(t, j, CLOSE) {
      ClosesHere(t, j);
    } else {
      forall e: nat { ClosesLater(t, j, e); }
      if j < |t| && t[j] != '\n' {
        LazyEndIsNearest(t, j + 1);
        if LazyEnd(t, j + 1).Match? {
          NearestLater(t, j, LazyEnd(t, j + 1).end);
        }
      }
    }
  }

  lemma {:induction false} BlockAtIsBlock(t: string, i: nat, end: nat)
    requires i <= |t|
    ensures BlockAt(t, i) == Match(end) <==> IsBlock(t, i, end)
  {
    if StartsAt(t, i, OPEN) {
      LazyEndIsNearest(t, i + |OPEN|);
    }
  }

  /** No token straddles a block boundary: it lies inside the block or outside it. */
  lemma {:induction false} TokenInOrOut(t: string, b: nat, bEnd: nat, i: nat, end: nat)
    requires IsBlock(t, b, bEnd) && IsToken(t, i, end)
    ensures i < b ==> end <= b
    ensures b <= i < bEnd ==> end <= bEnd
  {
    assert OPEN[0] == '{' && OPEN[1] == '{';
    assert t[b] == t[b..b + |OPEN|][0] && t[b + 1] == t[b..b + |OPEN|][1];
    var c := bEnd - |CLOSE|;
    assert CLOSE[|CLOSE| - 2] == '}' && CLOSE[|CLOSE| - 1] == '}';
    assert t[bEnd - 2] == t[c..bEnd][|CLOSE| - 2] && t[bEnd - 1] == t[c..bEnd][|CLOSE| - 1];
    assert NameChar(t[i + 2]);
  }

  // ---------------------------------------------------------------------------------------------
  // finditer
  // ---------------------------------------------------------------------------------------------

  function MatchAt(pat: Pattern, t: string, i: nat): (m: Match)
    requires i <= |t|
    ensures m.Match? ==> i < m.end <= |t|
  {
    if pat == Token then TokenAt(t, i) else BlockAt(t, i)
  }

  lemma TokenAtIsTokenAll(t: string, i: nat)
    requires i <= |t|
    ensures forall e :: TokenAt(t, i) == Match(e) <==> IsToken(t, i, e)
  {
    forall e: nat { TokenAtIsToken(t, i, e); }
  }

  /** Leftmost, non-overlapping matches from position `i` on. */
  function FindAll(pat: Pattern, t: string, i: nat): seq<Span>
    requires i <= |t|
    decreases |t| - i
  {
    if i == |t| then []
    else
      match MatchAt(pat, t, i)
      case Match(end) => [Span(i, end)] + FindAll(pat, t, end)
      case NoMatch => FindAll(pat, t, i + 1)
  }

  /** Spans that follow one another from `i` on. */
  ghost predicate Chain(i: nat, f: seq<Span>) {
    && (forall s :: s in f ==> i <= s.start < s.end)
    && (forall j, k :: 0 <= j < k < |f| ==> f[j].end <= f[k].start)
  }

  lemma ChainCons(s: Span, rest: seq<Span>)
    requires s.start < s.end && Chain(s.end, rest)
    ensures Chain(s.start, [s] + rest)
  {
    var f := [s] + rest;
    forall j, k | 0 <= j < k < |f|
      ensures f[j].end <= f[k].start
    {
      assert f[k] == rest[k - 1] && f[k] in rest;
      assert j > 0 ==> f[j] == rest[j - 1];
    }
  }

  lemma {:induction false} FindAllInOrder(pat: Pattern, t: string, i: nat)
    requires i <= |t|
    ensures Chain(i, FindAll(pat, t, i))
    decreases |t| - i
  {
    if i != |t| {
      var m := MatchAt(pat, t, i);
      if m.Match? {
        FindAllInOrder(pat, t, m.end);
        ChainCons(Span(i, m.end), FindAll(pat, t, m.end));
      } else {
        FindAllInOrder(pat, t, i + 1);
      }
    }
  }

  lemma {:induction false} FindAllMatches(pat: Pattern, t: string, i: nat, s: Span)
    requires i <= |t| && s in FindAll(pat, t, i)
    ensures s.start <= |t| && MatchAt(pat, t, s.start) == Match(s.end)
    decreases |t| - i
  {
    var m := MatchAt(pat, t, i);
    if m.Match? {
      if s != Span(i, m.end) {
        FindAllMatches(pat, t, m.end, s);
      }
    } else {
      FindAllMatches(pat, t, i + 1, s);
    }
  }

  /** The token scan misses no token. */
  lemma {:induction false} FindAllTokens(t: string, i: nat, s: Span)
    requires i <= |t| && i <= s.start && IsToken(t, s.start, s.end)
    ensures s in FindAll(Token, t, i)
    decreases |t| - i
  {
    TokenAtIsTokenAll(t, i);
    match TokenAt(t, i)
    case Match(end) =>
      if i < s.start {
        TokensApart(t, i, end, s.start, s.end);
        FindAllTokens(t, end, s);
      }
    case NoMatch =>
      FindAllTokens(t, i + 1, s);
  }

  // ---------------------------------------------------------------------------------------------
  // The edits of a paragraph
  // ---------------------------------------------------------------------------------------------

  /** The blocks that are cut out: all of them when the package is "No", else none. */
  function Removed(t: string, data: Fields): seq<Span>
    requires PACKAGE in data
  {
    if data[PACKAGE] == "No" then FindAll(Block, t, 0) else []
  }

  ghost predicate InsideRemoved(t: string, data: Fields, p: nat)
    requires PACKAGE in data
  {
    exists s :: s in Removed(t, data) && s.start <= p < s.end
  }

  function NameOf(t: string, s: Span): string
    requires s.start + 4 <= s.end <= |t|
  {
    t[s.start + 2..s.end - 2]
  }

  predicate Known(name: string, data: Fields) {
    name == IF || name == END_IF || name in data
  }

  function Filling(name: string, data: Fields): string
    requires Known(name, data)
  {
    if name == IF || name == END_IF then "" else data[name]
  }

  /** A token that the second scan has to replace. */
  ghost predicate Open(t: string, data: Fields, s: Span)
    requires PACKAGE in data
  {
    IsToken(t, s.start, s.end) && !InsideRemoved(t, data, s.start)
  }

  /** What the document asks for: removed blocks vanish, every other token is filled. */
  ghost predicate Wanted(t: string, data: Fields, e: Edit)
    requires PACKAGE in data
  {
    || (Span(e.start, e.end) in Removed(t, data) && e.replacement == "")
    || (&& Open(t, data, Span(e.start, e.end))
        && Known(NameOf(t, Span(e.start, e.end)), data)
        && e.replacement == Filling(NameOf(t, Span(e.start, e.end)), data))
  }

  /** Any two wanted edits are equal or apart. */
  lemma {:induction false} WantedApart(t: string, data: Fields, a: Edit, b: Edit)
    requires PACKAGE in data
    requires Wanted(t, data, a) && Wanted(t, data, b)
    ensures a.start < a.end <= |t|
    ensures a == b || Apart(a, b)
  {
    FindAllInOrder(Block, t, 0);
    var sa, sb := Span(a.start, a.end), Span(b.start, b.end);
    if sa in Removed(t, data) && sb in Removed(t, data) {
      var f := Removed(t, data);
      RemovedIsBlock(t, data, sa);
      var i :| 0 <= i < |f| && f[i] == sa;
      var j :| 0 <= j < |f| && f[j] == sb;
      assert i == j || i < j || j < i;
    } else if sa in Removed(t, data) {
      RemovedIsBlock(t, data, sa);
      TokenInOrOut(t, a.start, a.end, b.start, b.end);
    } else if sb in Removed(t, data) {
      RemovedIsBlock(t, data, sb);
      TokenInOrOut(t, b.start, b.end, a.start, a.end);
    } else if a.start < b.start {
      TokensApart(t, a.start, a.end, b.start, b.end);
    } else if b.start < a.start {
      TokensApart(t, b.start, b.end, a.start, a.end);
    } else {
      TokenAtIsToken(t, a.start, a.end);
      TokenAtIsToken(t, b.start, b.end);
    }
  }

  lemma RemovedIsBlock(t: string, data: Fields, s: Span)
    requires PACKAGE in data && s in Removed(t, data)
    ensures IsBlock(t, s.start, s.end)
  {
    FindAllMatches(Block, t, 0, s);
    BlockAtIsBlock(t, s.start, s.end);
  }

  // A block of the text need not be one that the scan finds, for a block may begin inside another one;
  // but together the found blocks cover them all.

  lemma {:induction false} MarkersAreTokens(t: string, i: nat)
    ensures StartsAt(t, i, OPEN) ==> IsToken(t, i, i + |OPEN|)
    ensures StartsAt(t, i, CLOSE) ==> IsToken(t, i, i + |CLOSE|)
  {
    forall k | 2 <= k < |OPEN| - 2
      ensures NameChar(OPEN[k])
    {
    }
    forall k | 2 <= k < |CLOSE| - 2
      ensures NameChar(CLOSE[k])
    {
    }
    if StartsAt(t, i, OPEN) {
      MarkerIsToken(t, i, OPEN);
    }
    if StartsAt(t, i, CLOSE) {
      MarkerIsToken(t, i, CLOSE);
    }
  }

  lemma {:induction false} MarkerIsToken(t: string, i: nat, marker: string)
    requires StartsAt(t, i, marker) && IsToken(marker, 0, |marker|)
    ensures IsToken(t, i, i + |marker|)
  {
    assert forall k :: 0 <= k < |marker| ==> t[i + k] == marker[k];
    forall k | i + 2 <= k < i + |marker| - 2
      ensures NameChar(t[k])
    {
      assert t[i + (k - i)] == marker[k - i];
    }
    assert t[i + 0] == marker[0] && t[i + 1] == marker[1];
    assert t[i + (|marker| - 2)] == marker[|marker| - 2] && t[i + (|marker| - 1)] == marker[|marker| - 1];
  }

  lemma {:induction false} MarkersDiffer(t: string, i: nat)
    ensures StartsAt(t, i, OPEN) ==> i + 2 < |t| && t[i + 2] == 'I'
    ensures StartsAt(t, i, CLOSE) ==> i + 2 < |t| && t[i + 2] == 'E'
  {
    if StartsAt(t, i, OPEN) {
      assert t[i..i + |OPEN|][2] == OPEN[2];
    }
    if StartsAt(t, i, CLOSE) {
      assert t[i..i + |CLOSE|][2] == CLOSE[2];
    }
  }

  /** A token that begins after one token and before the end of another fits between the two. */
  lemma {:induction false} TokenBetween(t: string, b: nat, bEnd: nat, i: nat, end: nat, c: nat, cEnd: nat)
    requires IsToken(t, b, bEnd) && IsToken(t, i, end) && IsToken(t, c, cEnd) && b < i < cEnd && i != c
    ensures bEnd <= i && end <= c
  {
    TokensApart(t, b, bEnd, i, end);
    if i < c {
      TokensApart(t, i, end, c, cEnd);
    } else {
      TokensApart(t, c, cEnd, i, end);
    }
  }

  /** An opening marker inside a block ends before the block's closing marker. */
  lemma {:induction false} InnerMarkerFits(t: string, b: nat, close: nat, i: nat)
    requires StartsAt(t, b, OPEN) && StartsAt(t, close, CLOSE) && StartsAt(t, i, OPEN) && b < i < close + |CLOSE|
    ensures b + |OPEN| <= i && i + |OPEN| <= close
  {
    MarkersAreTokens(t, b);
    MarkersAreTokens(t, i);
    MarkersAreTokens(t, close);
    MarkersDiffer(t, i);
    MarkersDiffer(t, close);
    TokenBetween(t, b, b + |OPEN|, i, i + |OPEN|, close, close + |CLOSE|);
  }

  /** A block that begins inside another one ends where that one ends. */
  lemma {:induction false} InnerBlockEnds(t: string, b: nat, bEnd: nat, i: nat, end: nat)
    requires IsBlock(t, b, bEnd) && IsBlock(t, i, end) && b < i < bEnd
    ensures end == bEnd
  {
    InnerMarkerFits(t, b, bEnd - |CLOSE|, i);
    NearestWithin(t, b + |OPEN|, i + |OPEN|, bEnd, end);
  }

  lemma {:induction false} NearestWithin(t: string, j: nat, k: nat, jEnd: nat, kEnd: nat)
    requires ClosesNearest(t, j, jEnd) && ClosesNearest(t, k, kEnd) && j <= k <= jEnd - |CLOSE|
    ensures jEnd == kEnd
  {
    assert ClosesAt(t, k, jEnd);
    assert kEnd < jEnd ==> ClosesAt(t, j, kEnd);
  }

  lemma {:induction false} FindAllBlocks(t: string, i: nat, b: nat, end: nat)
    requires i <= b <= |t| && IsBlock(t, b, end)
    ensures exists s :: s in FindAll(Block, t, i) && s.start <= b && end <= s.end
    decreases |t| - i
  {
    match BlockAt(t, i)
    case Match(stop) =>
      BlockAtIsBlock(t, i, stop);
      assert Span(i, stop) in FindAll(Block, t, i);
      if i == b {
        assert ClosesNearest(t, b + |OPEN|, stop) && ClosesNearest(t, b + |OPEN|, end);
      } else if b < stop {
        InnerBlockEnds(t, i, stop, b, end);
      } else {
        FindAllBlocks(t, stop, b, end);
      }
    case NoMatch =>
      BlockAtIsBlock(t, i, end);
      FindAllBlocks(t, i + 1, b, end);
  }

  /** Deletions of blocks only, which together cover every block. */
  ghost predicate CutsBlocks(t: string, edits: seq<Edit>) {
    && (forall e :: e in edits ==> IsBlock(t, e.start, e.end) && e.replacement == "")
    && (forall b: nat, end: nat :: IsBlock(t, b, end) ==> exists e :: e in edits && e.start <= b && end <= e.end)
  }

  lemma {:induction false} SpansCutBlocks(t: string, spans: seq<Span>, edits: seq<Edit>)
    requires spans == FindAll(Block, t, 0)
    requires |edits| == |spans| && forall k :: 0 <= k < |edits| ==> edits[k] == Edit(spans[k].start, spans[k].end, "")
    ensures CutsBlocks(t, edits)
  {
    forall e | e in edits
      ensures IsBlock(t, e.start, e.end) && e.replacement == ""
    {
      var k :| 0 <= k < |edits| && edits[k] == e;
      FindAllMatches(Block, t, 0, spans[k]);
      BlockAtIsBlock(t, e.start, e.end);
    }
    forall b: nat, end: nat | IsBlock(t, b, end)
      ensures exists e :: e in edits && e.start <= b && end <= e.end
    {
      FindAllBlocks(t, 0, b, end);
      var s :| s in spans && s.start <= b && end <= s.end;
      var k :| 0 <= k < |spans| && spans[k] == s;
      assert edits[k] in edits;
    }
  }

  // The two loops of the reference, each over the matches of one scan.

  method GatherBlocks(text: string, data: Fields) returns (edits: seq<Edit>)
    requires PACKAGE in data
    ensures |edits| == |Removed(text, data)|
    ensures forall k :: 0 <= k < |edits| ==>
      edits[k] == Edit(Removed(text, data)[k].start, Removed(text, data)[k].end, "")
    ensures data[PACKAGE] != "No" ==> edits == []
    ensures data[PACKAGE] == "No" ==> CutsBlocks(text, edits)
  {
    edits := [];
    var spans := FindAll(Block, text, 0);
    for i := 0 to |spans|
      invariant data[PACKAGE] == "No" ==> |edits| == i
      invariant data[PACKAGE] != "No" ==> edits == []
      invariant forall k :: 0 <= k < |edits| ==> edits[k] == Edit(spans[k].start, spans[k].end, "")
    {
      if data[PACKAGE] == "No" {
        edits := edits + [Edit(spans[i].start, spans[i].end, "")];
      }
    }
    if data[PACKAGE] == "No" {
      SpansCutBlocks(text, spans, edits);
    }
  }

  predicate Hits(edits: seq<Edit>, p: nat) {
    exists k :: 0 <= k < |edits| && edits[k].start <= p < edits[k].end
  }

  ghost predicate Sound(t: string, data: Fields, edits: seq<Edit>)
    requires PACKAGE in data
  {
    && (forall k :: 0 <= k < |edits| ==> Wanted(t, data, edits[k]))
    && (forall j, k :: 0 <= j < k < |edits| ==> Apart(edits[j], edits[k]))
  }

  /** Exactly the wanted edits, each once: what the run-editing loop requires and the document
      asks for. */
  ghost predicate Gathered(t: string, data: Fields, edits: seq<Edit>)
    requires PACKAGE in data
  {
    Disjoint(edits, |t|) && forall e :: e in edits <==> Wanted(t, data, e)
  }

  // What the filled text must read like, said of the text, the blocks and the tokens alone.

  /** Position `p` lies in a block, and the employee declined relocation. */
  ghost predicate Cut(t: string, data: Fields, p: nat)
    requires PACKAGE in data
  {
    data[PACKAGE] == "No" && exists b: nat, end: nat :: IsBlock(t, b, end) && b <= p < end
  }

  ghost predicate InToken(t: string, p: nat) {
    exists i: nat, end: nat :: IsToken(t, i, end) && i <= p < end
  }

  ghost predicate BlocksVanish(t: string, data: Fields, es: seq<Edit>)
    requires PACKAGE in data
  {
    data[PACKAGE] == "No" ==> forall b: nat, end: nat :: IsBlock(t, b, end) ==> Render(t, es, b, end) == ""
  }

  ghost predicate PlainTextStays(t: string, data: Fields, es: seq<Edit>)
    requires PACKAGE in data
  {
    forall p: nat :: p < |t| && !InToken(t, p) && !Cut(t, data, p) ==> Render(t, es, p, p + 1) == [t[p]]
  }

  /** The markers render as nothing, every other token as the field it names. */
  ghost predicate TokensAreFilled(t: string, data: Fields, es: seq<Edit>)
    requires PACKAGE in data
  {
    forall i: nat, end: nat :: IsToken(t, i, end) && !Cut(t, data, i) ==>
      var name := t[i + 2..end - 2];
      if name == "IF_RELOCATION" || name == "END_IF_RELOCATION" then Render(t, es, i, end) == ""
      else name in data ==> Render(t, es, i, end) == data[name]
  }

  /** A token outside the cut blocks, no marker, that names no field. */
  ghost predicate UnknownToken(t: string, data: Fields, i: nat, end: nat)
    requires PACKAGE in data
  {
    && IsToken(t, i, end) && !Cut(t, data, i)
    && t[i + 2..end - 2] != "IF_RELOCATION" && t[i + 2..end - 2] != "END_IF_RELOCATION" && t[i + 2..end - 2] !in data
  }

  lemma {:induction false} CutIffRemoved(t: string, data: Fields, p: nat)
    requires PACKAGE in data
    ensures Cut(t, data, p) <==> InsideRemoved(t, data, p)
  {
    if Cut(t, data, p) {
      var b: nat, end: nat :| IsBlock(t, b, end) && b <= p < end;
      FindAllBlocks(t, 0, b, end);
    }
    if InsideRemoved(t, data, p) {
      var s :| s in Removed(t, data) && s.start <= p < s.end;
      RemovedIsBlock(t, data, s);
    }
  }

  lemma {:induction false} GatheredCutsBlocks(t: string, data: Fields, es: seq<Edit>)
    requires PACKAGE in data && Gathered(t, data, es)
    ensures BlocksVanish(t, data, es)
  {
    if data[PACKAGE] == "No" {
      forall b: nat, end: nat | IsBlock(t, b, end)
        ensures Render(t, es, b, end) == ""
      {
        FindAllBlocks(t, 0, b, end);
        var s :| s in Removed(t, data) && s.start <= b && end <= s.end;
        assert Wanted(t, data, Edit(s.start, s.end, ""));
        var k :| 0 <= k < |es| && es[k] == Edit(s.start, s.end, "");
        RenderInside(t, es, k, b, end);
      }
    }
  }

  lemma {:induction false} GatheredKeepsText(t: string, data: Fields, es: seq<Edit>)
    requires PACKAGE in data && Gathered(t, data, es)
    ensures PlainTextStays(t, data, es)
  {
    forall p: nat | p < |t| && !InToken(t, p) && !Cut(t, data, p)
      ensures Render(t, es, p, p + 1) == [t[p]]
    {
      CutIffRemoved(t, data, p);
      forall e | e in es
        ensures !(e.start <= p < e.end)
      {
        assert Wanted(t, data, e);
      }
      RenderUncovered(t, es, p);
    }
  }

  lemma {:induction false} GatheredFillsTokens(t: string, data: Fields, es: seq<Edit>)
    requires PACKAGE in data && Gathered(t, data, es)
    ensures TokensAreFilled(t, data, es)
  {
    forall i: nat, end: nat | IsToken(t, i, end) && !Cut(t, data, i)
      ensures var name := t[i + 2..end - 2];
        if name == "IF_RELOCATION" || name == "END_IF_RELOCATION" then Render(t, es, i, end) == ""
        else name in data ==> Render(t, es, i, end) == data[name]
    {
      var name := t[i + 2..end - 2];
      CutIffRemoved(t, data, i);
      if Known(name, data) {
        var e := Edit(i, end, Filling(name, data));
        assert NameOf(t, Span(i, end)) == name;
        assert Wanted(t, data, e);
        var k :| 0 <= k < |es| && es[k] == e;
        RenderInside(t, es, k, i, end);
      }
    }
  }

  ghost predicate NamesUnknown(t: string, data: Fields)
    requires PACKAGE in data
  {
    exists i: nat, end: nat :: UnknownToken(t, data, i, end)
  }

  lemma {:induction false} UnknownIsOpen(t: string, data: Fields, i: nat, end: nat)
    requires PACKAGE in data
    ensures UnknownToken(t, data, i, end)
       <==> Open(t, data, Span(i, end)) && !Known(NameOf(t, Span(i, end)), data)
  {
    CutIffRemoved(t, data, i);
  }

  lemma {:induction false} UnknownIffToken(t: string, data: Fields)
    requires PACKAGE in data
    ensures HasUnknown(t, data) <==> NamesUnknown(t, data)
  {
    if HasUnknown(t, data) {
      var s :| Open(t, data, s) && !Known(NameOf(t, s), data);
      UnknownIsOpen(t, data, s.start, s.end);
    }
    if NamesUnknown(t, data) {
      var i: nat, end: nat :| UnknownToken(t, data, i, end);
      UnknownIsOpen(t, data, i, end);
    }
  }

  /** The gathered edits do what the document asks for. */
  lemma {:induction false} GatheredReadsRight(t: string, data: Fields, es: seq<Edit>)
    requires PACKAGE in data && Gathered(t, data, es)
    ensures BlocksVanish(t, data, es) && PlainTextStays(t, data, es) && TokensAreFilled(t, data, es)
  {
    GatheredCutsBlocks(t, data, es);
    GatheredKeepsText(t, data, es);
    GatheredFillsTokens(t, data, es);
  }

  lemma RemovedEditsSound(t: string, data: Fields, edits: seq<Edit>)
    requires PACKAGE in data && |edits| == |Removed(t, data)|
    requires forall k :: 0 <= k < |edits| ==> edits[k] == Edit(Removed(t, data)[k].start, Removed(t, data)[k].end, "")
    ensures Sound(t, data, edits)
    ensures forall s :: s in Removed(t, data) ==> Edit(s.start, s.end, "") in edits
  {
    FindAllInOrder(Block, t, 0);
    var f := Removed(t, data);
    forall k | 0 <= k < |edits|
      ensures Wanted(t, data, edits[k])
    {
      assert f[k] == Span(edits[k].start, edits[k].end) && f[k] in f;
    }
    forall j, k | 0 <= j < k < |edits|
      ensures Apart(edits[j], edits[k])
    {
      assert f[j].end <= f[k].start;
    }
    forall s | s in f
      ensures Edit(s.start, s.end, "") in edits
    {
      var k :| 0 <= k < |f| && f[k] == s;
      assert edits[k] == Edit(s.start, s.end, "");
    }
  }

  /** The test of the second loop looks at all edits gathered so far, tokens included; it skips
      exactly the tokens inside a removed block. */
  lemma {:induction false} HitsIsInsideRemoved(t: string, data: Fields, edits: seq<Edit>, s: Span)
    requires PACKAGE in data && Sound(t, data, edits) && IsToken(t, s.start, s.end)
    requires forall r :: r in Removed(t, data) ==> Edit(r.start, r.end, "") in edits
    requires forall e :: e in edits && Open(t, data, Span(e.start, e.end)) ==> e.end <= s.start
    ensures Hits(edits, s.start) <==> InsideRemoved(t, data, s.start)
  {
    if InsideRemoved(t, data, s.start) {
      var r :| r in Removed(t, data) && r.start <= s.start < r.end;
      var k :| 0 <= k < |edits| && edits[k] == Edit(r.start, r.end, "");
    }
    if Hits(edits, s.start) {
      var k :| 0 <= k < |edits| && edits[k].start <= s.start < edits[k].end;
      assert edits[k] in edits;
      assert Span(edits[k].start, edits[k].end) in Removed(t, data);
    }
  }

  /** The state of the second loop after `i` tokens. */
  ghost predicate Progress(t: string, data: Fields, spans: seq<Span>, i: nat, edits: seq<Edit>)
    requires PACKAGE in data && i <= |spans|
  {
    && Sound(t, data, edits)
    && (forall s :: s in Removed(t, data) ==> Edit(s.start, s.end, "") in edits)
    && (forall e :: e in edits && Open(t, data, Span(e.start, e.end)) ==> Span(e.start, e.end) in spans[..i])
    && (forall s :: s in spans[..i] && Open(t, data, s) ==>
          Known(NameOf(t, s), data) && Edit(s.start, s.end, Filling(NameOf(t, s), data)) in edits)
  }

  lemma TokenSpanNext(t: string, data: Fields, spans: seq<Span>, i: nat, edits: seq<Edit>)
    requires PACKAGE in data && spans == FindAll(Token, t, 0) && i < |spans|
    requires Progress(t, data, spans, i, edits)
    ensures IsToken(t, spans[i].start, spans[i].end)
    ensures Hits(edits, spans[i].start) <==> InsideRemoved(t, data, spans[i].start)
  {
    var s := spans[i];
    FindAllMatches(Token, t, 0, s);
    TokenAtIsToken(t, s.start, s.end);
    FindAllInOrder(Token, t, 0);
    forall e | e in edits && Open(t, data, Span(e.start, e.end))
      ensures e.end <= s.start
    {
      var j :| 0 <= j < i && spans[j] == Span(e.start, e.end);
    }
    HitsIsInsideRemoved(t, data, edits, s);
  }

  lemma TokenSpanAdded(t: string, data: Fields, spans: seq<Span>, i: nat, edits: seq<Edit>, e: Edit)
    requires PACKAGE in data && i < |spans|
    requires Progress(t, data, spans, i, edits)
    requires Open(t, data, spans[i]) && !Hits(edits, spans[i].start) && Known(NameOf(t, spans[i]), data)
    requires e == Edit(spans[i].start, spans[i].end, Filling(NameOf(t, spans[i]), data))
    ensures Progress(t, data, spans, i + 1, edits + [e])
  {
    forall k | 0 <= k < |edits|
      ensures Apart(edits[k], e)
    {
      WantedApart(t, data, edits[k], e);
    }
    assert spans[..i + 1] == spans[..i] + [spans[i]];
  }

  lemma TokenSpanSkipped(t: string, data: Fields, spans: seq<Span>, i: nat, edits: seq<Edit>)
    requires PACKAGE in data && i < |spans|
    requires Progress(t, data, spans, i, edits) && !Open(t, data, spans[i])
    ensures Progress(t, data, spans, i + 1, edits)
  {
    assert spans[..i + 1] == spans[..i] + [spans[i]];
  }

  ghost predicate HasUnknown(t: string, data: Fields)
    requires PACKAGE in data
  {
    exists s :: Open(t, data, s) && !Known(NameOf(t, s), data)
  }

  /** Both scans.  The result holds exactly the wanted edits; it fails exactly when some token
      outside the removed blocks names no field. */
  method GatherEdits(text: string, data: Fields) returns (r: Outcome)
    requires PACKAGE in data
    ensures r.Filled? ==> Gathered(text, data, r.edits)
    ensures r.Filled? ==>
      BlocksVanish(text, data, r.edits) && PlainTextStays(text, data, r.edits) && TokensAreFilled(text, data, r.edits)
    ensures r.UnknownField? <==> NamesUnknown(text, data)
    ensures r.UnknownField? ==> exists i: nat, end: nat :: UnknownToken(text, data, i, end) && r.name == text[i + 2..end - 2]
  {
    UnknownIffToken(text, data);
    var edits := GatherBlocks(text, data);
    RemovedEditsSound(text, data, edits);
    RemovedAreNotOpen(text, data, edits);
    var spans := FindAll(Token, text, 0);
    for i := 0 to |spans|
      invariant Progress(text, data, spans, i, edits)
    {
      var s := spans[i];
      TokenSpanNext(text, data, spans, i, edits);
      if !Hits(edits, s.start) {
        var name := NameOf(text, s);
        if !Known(name, data) {
          assert Open(text, data, s);
          UnknownIsOpen(text, data, s.start, s.end);
          return UnknownField(name);
        }
        var e := Edit(s.start, s.end, Filling(name, data));
        TokenSpanAdded(text, data, spans, i, edits, e);
        edits := edits + [e];
      } else {
        TokenSpanSkipped(text, data, spans, i, edits);
      }
    }
    assert spans[..|spans|] == spans;
    GatheredComplete(text, data, edits);
    GatheredReadsRight(text, data, edits);
    r := Filled(edits);
  }

  lemma RemovedAreNotOpen(t: string, data: Fields, edits: seq<Edit>)
    requires PACKAGE in data && |edits| == |Removed(t, data)|
    requires forall k :: 0 <= k < |edits| ==> edits[k] == Edit(Removed(t, data)[k].start, Removed(t, data)[k].end, "")
    ensures forall e :: e in edits ==> !Open(t, data, Span(e.start, e.end))
  {
    FindAllInOrder(Block, t, 0);
    forall e | e in edits
      ensures !Open(t, data, Span(e.start, e.end))
    {
      var k :| 0 <= k < |edits| && edits[k] == e;
      var r := Removed(t, data)[k];
      assert r in Removed(t, data) && r.start <= e.start < r.end;
    }
  }

  lemma GatheredComplete(t: string, data: Fields, edits: seq<Edit>)
    requires PACKAGE in data && Sound(t, data, edits)
    requires forall s :: s in Removed(t, data) ==> Edit(s.start, s.end, "") in edits
    requires forall s :: s in FindAll(Token, t, 0) && Open(t, data, s) ==>
      Known(NameOf(t, s), data) && Edit(s.start, s.end, Filling(NameOf(t, s), data)) in edits
    ensures Gathered(t, data, edits)
    ensures forall s :: Open(t, data, s) ==> Known(NameOf(t, s), data)
  {
    forall s | Open(t, data, s)
      ensures s in FindAll(Token, t, 0)
    {
      FindAllTokens(t, 0, s);
    }
    forall k | 0 <= k < |edits|
      ensures edits[k].start < edits[k].end <= |t|
    {
      WantedApart(t, data, edits[k], edits[k]);
    }
  }

  /**
   One paragraph of the reference.  On success every run holds the rendering of its own stretch
   under exactly the wanted edits; an unknown field leaves the paragraph as it was.
   */
  method FillParagraph(texts: array<string>, data: Fields) returns (r: Outcome)
    requires PACKAGE in data
    modifies texts
    ensures r.UnknownField? <==> NamesUnknown(Flat(old(texts[..])), data)
    ensures r.UnknownField? ==> texts[..] == old(texts[..])
    ensures r.Filled? ==>
      Gathered(Flat(old(texts[..])), data, r.edits) && RunsAfter(old(texts[..]), r.edits, texts[..])
    ensures r.Filled? ==> var text := Flat(old(texts[..]));
      BlocksVanish(text, data, r.edits) && PlainTextStays(text, data, r.edits) && TokensAreFilled(text, data, r.edits)
  {
    var text := Flat(texts[..]);
    r := GatherEdits(text, data);
    if r.Filled? {
      ApplyEdits(texts, r.edits);
    }
  }

  /** Two fillings of the same paragraph text agree run by run: the outcome is determined by the
      document and the data alone. */
  lemma {:induction false} FillingIsDetermined(ts: seq<string>, data: Fields, e1: seq<Edit>, e2: seq<Edit>, now1: seq<string>, now2: seq<string>)
    requires PACKAGE in data
    requires Gathered(Flat(ts), data, e1) && Gathered(Flat(ts), data, e2)
    requires RunsAfter(ts, e1, now1) && RunsAfter(ts, e2, now2)
    ensures now1 == now2
  {
    RunsAfterOrder(ts, e1, e2, now1);
  }

  /** Segmentation does not matter: however the same text is split into runs, the filled
      paragraphs read the same. */
  lemma {:induction false} SegmentationDoesNotMatter(ts: seq<string>, us: seq<string>, es: seq<Edit>, ts': seq<string>, us': seq<string>)
    requires Flat(ts) == Flat(us)
    requires RunsAfter(ts, es, ts') && RunsAfter(us, es, us')
    ensures Flat(ts') == Flat(us')
  {
    OffsetsNow(ts, ts', es, |ts|);
    OffsetsNow(us, us', es, |us|);
    FlatLength(ts);
    FlatLength(us);
    assert ts'[..|ts|] == ts' && us'[..|us|] == us';
  }
}
