/**
 Filling a template paragraph whose text is spread over many mutable run nodes.

 Edit spans are computed on the concatenation of the run texts and applied from right to left,
 each one by a pass over all nodes that tracks an `offset` and an `inserted` flag.  The module
 proves that this in-place update is one simultaneous substitution on the flat text, and says
 exactly what every single run holds afterwards.
 */
module RunEdits {

  datatype Edit = Edit(start: nat, end: nat, replacement: string)

  // ---------------------------------------------------------------------------------------------
  // Flat text and offsets
  // ---------------------------------------------------------------------------------------------

  function Flat(ts: seq<string>): string {
    if ts == [] then "" else Flat(ts[..|ts| - 1]) + ts[|ts| - 1]
  }

  /** The position in the flat text at which run `k` begins. */
  function Offset(ts: seq<string>, k: nat): (o: nat)
    requires k <= |ts|
  {
    if k == 0 then 0 else Offset(ts, k - 1) + |ts[k - 1]|
  }

  lemma {:induction false} OffsetOfPrefix(ts: seq<string>, n: nat, k: nat)
    requires k <= n <= |ts|
    ensures Offset(ts[..n], k) == Offset(ts, k)
  {
    if k != 0 {
      OffsetOfPrefix(ts, n, k - 1);
    }
  }

  lemma {:induction false} OffsetMonotone(ts: seq<string>, j: nat, k: nat)
    requires j <= k <= |ts|
    ensures Offset(ts, j) <= Offset(ts, k)
  {
    if j < k {
      OffsetMonotone(ts, j, k - 1);
    }
  }

  lemma {:induction false} FlatLength(ts: seq<string>)
    ensures |Flat(ts)| == Offset(ts, |ts|)
  {
    if ts != [] {
      FlatLength(ts[..|ts| - 1]);
      OffsetOfPrefix(ts, |ts| - 1, |ts| - 1);
    }
  }

  /** Each run holds exactly its own slice of the flat text. */
  lemma {:induction false} FlatSlice(ts: seq<string>, k: nat)
    requires k < |ts|
    ensures Offset(ts, k + 1) <= |Flat(ts)|
    ensures Flat(ts)[Offset(ts, k)..Offset(ts, k + 1)] == ts[k]
  {
    var front := ts[..|ts| - 1];
    FlatLength(ts);
    FlatLength(front);
    OffsetMonotone(ts, k + 1, |ts|);
    OffsetOfPrefix(ts, |ts| - 1, |ts| - 1);
    if k < |ts| - 1 {
      FlatSlice(front, k);
      OffsetOfPrefix(ts, |ts| - 1, k);
      OffsetOfPrefix(ts, |ts| - 1, k + 1);
      assert Flat(ts)[Offset(ts, k)..Offset(ts, k + 1)] == Flat(front)[Offset(ts, k)..Offset(ts, k + 1)];
    }
  }

  // ---------------------------------------------------------------------------------------------
  // What a set of edits means
  // ---------------------------------------------------------------------------------------------

  ghost predicate Apart(a: Edit, b: Edit) {
    a.end <= b.start || b.end <= a.start
  }

  /** In range, non-empty and pairwise disjoint spans, in any order. */
  ghost predicate Disjoint(es: seq<Edit>, n: nat) {
    && (forall i :: 0 <= i < |es| ==> es[i].start < es[i].end <= n)
    && (forall i, j :: 0 <= i < j < |es| ==> Apart(es[i], es[j]))
  }

  /** The contribution of position `p`: its character, nothing, or the replacement of the edit
      that begins there. */
  function Piece(t: string, es: seq<Edit>, p: nat): string
    requires p < |t|
  {
    if es == [] then [t[p]]
    else
      var e := es[|es| - 1];
      if e.start <= p < e.end then (if p == e.start then e.replacement else "")
      else Piece(t, es[..|es| - 1], p)
  }

  /** The contributions of the positions from `lo` up to `hi`. */
  function Render(t: string, es: seq<Edit>, lo: nat, hi: nat): string
    requires lo <= hi <= |t|
    decreases hi
  {
    if lo == hi then "" else Render(t, es, lo, hi - 1) + Piece(t, es, hi - 1)
  }

  /** The independent reading: cut ascending spans out of the text and put the replacements in. */
  function Substitute(t: string, from: nat, asc: seq<Edit>): string
    requires from <= |t|
    requires Ascending(asc, from, |t|)
    decreases |asc|
  {
    if asc == [] then t[from..]
    else t[from..asc[0].start] + asc[0].replacement + Substitute(t, asc[0].end, asc[1..])
  }

  predicate Ascending(es: seq<Edit>, from: nat, n: nat) {
    es == [] ||
    (from <= es[0].start < es[0].end <= n && Ascending(es[1..], es[0].end, n))
  }

  lemma {:induction false} RenderConcat(t: string, es: seq<Edit>, lo: nat, mid: nat, hi: nat)
    requires lo <= mid <= hi <= |t|
    ensures Render(t, es, lo, hi) == Render(t, es, lo, mid) + Render(t, es, mid, hi)
    decreases hi
  {
    if mid < hi {
      RenderConcat(t, es, lo, mid, hi - 1);
    }
  }

  /** A stretch that no span meets is copied unchanged. */
  lemma {:induction false} RenderUntouched(t: string, es: seq<Edit>, lo: nat, hi: nat)
    requires lo <= hi <= |t|
    requires forall e :: e in es ==> e.end <= lo || hi <= e.start
    ensures Render(t, es, lo, hi) == t[lo..hi]
    decreases hi
  {
    if lo < hi {
      RenderUntouched(t, es, lo, hi - 1);
      PieceUncovered(t, es, hi - 1);
      assert t[lo..hi] == t[lo..hi - 1] + [t[hi - 1]];
    }
  }

  lemma {:induction false} PieceUncovered(t: string, es: seq<Edit>, p: nat)
    requires p < |t|
    requires forall e :: e in es ==> !(e.start <= p < e.end)
    ensures Piece(t, es, p) == [t[p]]
  {
    if es != [] {
      assert es[|es| - 1] in es;
      assert forall e :: e in es[..|es| - 1] ==> e in es;
      PieceUncovered(t, es[..|es| - 1], p);
    }
  }

  lemma {:induction false} PieceCovered(t: string, es: seq<Edit>, i: nat, p: nat)
    requires p < |t| && i < |es| && Disjoint(es, |t|)
    requires es[i].start <= p < es[i].end
    ensures Piece(t, es, p) == if p == es[i].start then es[i].replacement else ""
  {
    var last := |es| - 1;
    if i < last {
      assert Apart(es[i], es[last]);
      PieceCovered(t, es[..last], i, p);
    }
  }

  /** A stretch inside a span renders as the replacement if it begins with the span, else as nothing. */
  lemma {:induction false} RenderInside(t: string, es: seq<Edit>, i: nat, lo: nat, hi: nat)
    requires i < |es| && Disjoint(es, |t|) && es[i].start <= lo <= hi <= es[i].end
    ensures Render(t, es, lo, hi) == if lo == es[i].start && lo < hi then es[i].replacement else ""
    decreases hi
  {
    if lo < hi {
      RenderInside(t, es, i, lo, hi - 1);
      PieceCovered(t, es, i, hi - 1);
    }
  }

  lemma {:induction false} RenderUncovered(t: string, es: seq<Edit>, p: nat)
    requires p < |t| && forall e :: e in es ==> !(e.start <= p < e.end)
    ensures Render(t, es, p, p + 1) == [t[p]]
  {
    PieceUncovered(t, es, p);
    assert Render(t, es, p, p) == "";
  }

  /** The meaning of a disjoint edit list does not depend on its order. */
  lemma {:induction false} RenderOrder(t: string, es: seq<Edit>, fs: seq<Edit>, lo: nat, hi: nat)
    requires lo <= hi <= |t|
    requires Disjoint(es, |t|) && Disjoint(fs, |t|)
    requires forall e :: e in es <==> e in fs
    ensures Render(t, es, lo, hi) == Render(t, fs, lo, hi)
    decreases hi
  {
    if lo < hi {
      RenderOrder(t, es, fs, lo, hi - 1);
      PieceOrder(t, es, fs, hi - 1);
    }
  }

  lemma PieceOrder(t: string, es: seq<Edit>, fs: seq<Edit>, p: nat)
    requires p < |t| && Disjoint(es, |t|) && Disjoint(fs, |t|)
    requires forall e :: e in es <==> e in fs
    ensures Piece(t, es, p) == Piece(t, fs, p)
  {
    if e :| e in es && e.start <= p < e.end {
      var i :| 0 <= i < |es| && es[i] == e;
      var j :| 0 <= j < |fs| && fs[j] == e;
      PieceCovered(t, es, i, p);
      PieceCovered(t, fs, j, p);
    } else {
      PieceUncovered(t, es, p);
      PieceUncovered(t, fs, p);
    }
  }

  /** A span contributes its whole replacement at its first position and nothing after it. */
  lemma {:induction false} RenderSpan(t: string, es: seq<Edit>, i: nat, hi: nat)
    requires i < |es| && Disjoint(es, |t|)
    requires es[i].start < hi <= es[i].end
    ensures Render(t, es, es[i].start, hi) == es[i].replacement
    decreases hi
  {
    PieceCovered(t, es, i, hi - 1);
    if hi - 1 == es[i].start {
      assert Render(t, es, hi - 1, hi - 1) == "";
    } else {
      RenderSpan(t, es, i, hi - 1);
    }
  }

  lemma {:induction false} AscendingAfter(asc: seq<Edit>, from: nat, n: nat, i: nat)
    requires Ascending(asc, from, n) && i < |asc|
    ensures from <= asc[i].start < asc[i].end <= n
    ensures forall j :: 0 <= j < i ==> asc[j].end <= asc[i].start
  {
    if i != 0 {
      AscendingAfter(asc[1..], asc[0].end, n, i - 1);
      assert forall j :: 1 <= j < i ==> asc[j] == asc[1..][j - 1];
    }
  }

  lemma {:induction false} AscendingIsDisjoint(asc: seq<Edit>, from: nat, n: nat)
    requires Ascending(asc, from, n)
    ensures Disjoint(asc, n)
  {
    forall i | 0 <= i < |asc|
      ensures asc[i].start < asc[i].end <= n
      ensures forall j :: 0 <= j < i ==> Apart(asc[j], asc[i])
    {
      AscendingAfter(asc, from, n, i);
    }
  }

  lemma NothingBetween(all: seq<Edit>, k: nat, from: nat, n: nat)
    requires k < |all| && Ascending(all, 0, n)
    requires forall j :: 0 <= j < k ==> all[j].end <= from
    ensures forall a :: a in all ==> a.end <= from || all[k].start <= a.start
  {
    forall a | a in all
      ensures a.end <= from || all[k].start <= a.start
    {
      var j :| 0 <= j < |all| && all[j] == a;
      AscendingAfter(all, 0, n, j);
      AscendingAfter(all, 0, n, k);
    }
  }

  /** Position-wise rendering is the cut-and-paste substitution. */
  lemma {:induction false} RenderIsSubstitute(t: string, from: nat, all: seq<Edit>, k: nat)
    requires k <= |all| && from <= |t|
    requires Ascending(all, 0, |t|) && Ascending(all[k..], from, |t|)
    requires forall j :: 0 <= j < k ==> all[j].end <= from
    ensures Render(t, all, from, |t|) == Substitute(t, from, all[k..])
    decreases |all| - k
  {
    AscendingIsDisjoint(all, 0, |t|);
    var rest := all[k..];
    if rest == [] {
      RenderUntouched(t, all, from, |t|);
    } else {
      var e := rest[0];
      assert e == all[k] && rest[1..] == all[k + 1..];
      NothingBetween(all, k, from, |t|);
      calc {
        Render(t, all, from, |t|);
        { RenderConcat(t, all, from, e.start, |t|); RenderConcat(t, all, e.start, e.end, |t|); }
        Render(t, all, from, e.start) + (Render(t, all, e.start, e.end) + Render(t, all, e.end, |t|));
        { RenderUntouched(t, all, from, e.start); RenderSpan(t, all, k, e.end); }
        t[from..e.start] + (e.replacement + Render(t, all, e.end, |t|));
        { RenderIsSubstitute(t, e.end, all, k + 1); }
        t[from..e.start] + (e.replacement + Substitute(t, e.end, rest[1..]));
        t[from..e.start] + e.replacement + Substitute(t, e.end, rest[1..]);
      }
    }
  }

  // ---------------------------------------------------------------------------------------------
  // One pass over the nodes
  // ---------------------------------------------------------------------------------------------

  function Clamp(p: nat, lo: nat, hi: nat): (r: nat)
    requires lo <= hi
    ensures lo <= r <= hi
  {
    if p < lo then lo else if hi < p then hi else p
  }

  lemma PieceOne(t: string, e: Edit, p: nat)
    requires p < |t|
    ensures Piece(t, [e], p) ==
      if e.start <= p < e.end then (if p == e.start then e.replacement else "") else [t[p]]
  {
    assert [e][..0] == [];
  }

  lemma {:induction false} RenderInsideOne(t: string, e: Edit, lo: nat, hi: nat)
    requires lo <= hi <= |t| && (lo < hi ==> e.start <= lo && hi <= e.end)
    ensures Render(t, [e], lo, hi) == if lo == e.start && lo < hi then e.replacement else ""
    decreases hi
  {
    if lo < hi {
      RenderInsideOne(t, e, lo, hi - 1);
      PieceOne(t, e, hi - 1);
    }
  }

  /** The slice of the text that one edit leaves of the positions from `lo` up to `hi`. */
  lemma {:induction false} RenderOne(t: string, e: Edit, lo: nat, hi: nat)
    requires lo <= hi <= |t| && e.start < e.end
    ensures Render(t, [e], lo, hi)
         == t[lo..Clamp(e.start, lo, hi)]
          + (if lo <= e.start < hi then e.replacement else "")
          + t[Clamp(e.end, lo, hi)..hi]
  {
    var l, r := Clamp(e.start, lo, hi), Clamp(e.end, lo, hi);
    RenderConcat(t, [e], lo, l, hi);
    RenderConcat(t, [e], l, r, hi);
    RenderBeside(t, e, lo, l);
    RenderInsideOne(t, e, l, r);
    RenderBeside(t, e, r, hi);
  }

  lemma {:induction false} RenderBeside(t: string, e: Edit, lo: nat, hi: nat)
    requires lo <= hi <= |t| && (lo < hi ==> hi <= e.start || e.end <= lo)
    ensures Render(t, [e], lo, hi) == t[lo..hi]
  {
    if lo < hi {
      RenderUntouched(t, [e], lo, hi);
    }
  }

  /** What run `k` of the paragraph `ts` must hold once the edits `es` are made. */
  ghost function RunAfter(ts: seq<string>, es: seq<Edit>, k: nat): string
    requires k < |ts|
  {
    FlatSlice(ts, k);
    Render(Flat(ts), es, Offset(ts, k), Offset(ts, k + 1))
  }

  function Max(a: int, b: int): int { if a < b then b else a }
  function Min(a: int, b: int): int { if a < b then a else b }

  lemma SliceOfSlice(t: string, a: nat, b: nat, x: nat, y: nat)
    requires a <= b <= |t| && x <= y <= b - a
    ensures t[a..b][x..y] == t[a + x..a + y]
  {
    var u := t[a..b];
    forall i | 0 <= i < y - x
      ensures u[x..y][i] == t[a + x..a + y][i]
    {
      assert u[x + i] == t[a + (x + i)];
    }
  }

  /** The parts of a run that a span leaves, in the run's own positions. */
  lemma {:induction false} CutSlices(ts: seq<string>, e: Edit, k: nat)
    requires k < |ts| && Offset(ts, k) < e.end && Offset(ts, k + 1) > e.start
    ensures
      var offset, stop := Offset(ts, k), Offset(ts, k + 1);
      var left, right := Max(0, e.start - offset), Min(|ts[k]|, e.end - offset);
      && offset <= stop <= |Flat(ts)| && 0 <= left <= |ts[k]| && 0 <= right <= |ts[k]|
      && Flat(ts)[offset..Clamp(e.start, offset, stop)] == ts[k][..left]
      && Flat(ts)[Clamp(e.end, offset, stop)..stop] == ts[k][right..]
  {
    var t, offset, stop := Flat(ts), Offset(ts, k), Offset(ts, k + 1);
    FlatSlice(ts, k);
    SliceOfSlice(t, offset, stop, 0, Max(0, e.start - offset));
    SliceOfSlice(t, offset, stop, Min(|ts[k]|, e.end - offset), |ts[k]|);
  }

  /** The cut made by the loop body, as the code computes it from local positions. */
  lemma {:induction false} CutIsRunAfter(ts: seq<string>, e: Edit, k: nat)
    requires k < |ts| && e.start < e.end
    ensures
      var offset, stop := Offset(ts, k), Offset(ts, k + 1);
      if offset < e.end && stop > e.start then
        var left, right := Max(0, e.start - offset), Min(|ts[k]|, e.end - offset);
        && 0 <= left <= |ts[k]| && 0 <= right
        && RunAfter(ts, [e], k)
        == ts[k][..left] + (if offset <= e.start then e.replacement else "") + ts[k][right..]
      else RunAfter(ts, [e], k) == ts[k]
  {
    FlatSlice(ts, k);
    if Offset(ts, k) < e.end && Offset(ts, k + 1) > e.start {
      CutSlices(ts, e, k);
      RenderOne(Flat(ts), e, Offset(ts, k), Offset(ts, k + 1));
    } else {
      UntouchedByOne(ts, e, k);
    }
  }

  lemma {:induction false} UntouchedByOne(ts: seq<string>, e: Edit, k: nat)
    requires k < |ts| && (e.end <= Offset(ts, k) || Offset(ts, k + 1) <= e.start)
    ensures RunAfter(ts, [e], k) == ts[k]
  {
    FlatSlice(ts, k);
    RenderUntouched(Flat(ts), [e], Offset(ts, k), Offset(ts, k + 1));
  }

  ghost predicate RunsAfter(ts: seq<string>, es: seq<Edit>, now: seq<string>) {
    |now| == |ts| && forall k :: 0 <= k < |ts| ==> now[k] == RunAfter(ts, es, k)
  }

  /** One pass of the inner loop over the run nodes (`texts[k]` is the text of node `k`): cut the
      span out of the nodes it meets and put its replacement into the first of them. */
  method ApplyOne(texts: array<string>, e: Edit)
    requires e.start < e.end
    modifies texts
    ensures RunsAfter(old(texts[..]), [e], texts[..])
  {
    ghost var ts := texts[..];
    var offset := 0;
    var inserted := false;
    for i := 0 to texts.Length
      invariant offset == Offset(ts, i)
      invariant inserted <==> offset > e.start
      invariant forall k :: i <= k < texts.Length ==> texts[k] == ts[k]
      invariant forall k :: 0 <= k < i ==> texts[k] == RunAfter(ts, [e], k)
    {
      var current := texts[i];
      var stop := offset + |current|;
      CutIsRunAfter(ts, e, i);
      if offset < e.end && stop > e.start {
        var left, right := Max(0, e.start - offset), Min(|current|, e.end - offset);
        texts[i] := current[..left] + (if !inserted then e.replacement else "") + current[right..];
        inserted := true;
      }
      offset := stop;
    }
  }

  // ---------------------------------------------------------------------------------------------
  // Right-to-left application of all edits
  // ---------------------------------------------------------------------------------------------

  /** Edits whose starts all lie at or after `b` do not move the positions below `b`. */
  lemma {:induction false} RenderPrefixLength(t: string, ds: seq<Edit>, b: nat, p: nat)
    requires p <= |t|
    requires forall d :: d in ds ==> b <= d.start
    ensures p <= b ==> Render(t, ds, 0, p) == t[..p]
    ensures b <= p ==> b <= |Render(t, ds, 0, p)|
  {
    if p <= b {
      RenderUntouched(t, ds, 0, p);
    } else {
      RenderUntouched(t, ds, 0, b);
      RenderConcat(t, ds, 0, b, p);
    }
  }

  /** Making one more edit to the left of the edits already made is the same as having had it in
      the set all along; positions are those of the text as it stands at that moment. */
  lemma {:induction false} OneMoreEdit(t: string, ds: seq<Edit>, e: Edit, lo: nat, hi: nat)
    requires lo <= hi <= |t| && e.start < e.end <= |t|
    requires forall d :: d in ds ==> e.end <= d.start
    ensures
      var now := Render(t, ds, 0, |t|);
      var l, h := |Render(t, ds, 0, lo)|, |Render(t, ds, 0, hi)|;
      l <= h <= |now| && Render(now, [e], l, h) == Render(t, ds + [e], lo, hi)
    decreases hi
  {
    var now := Render(t, ds, 0, |t|);
    RenderConcat(t, ds, 0, lo, hi);
    RenderConcat(t, ds, 0, hi, |t|);
    if lo < hi {
      var p := hi - 1;
      OneMoreEdit(t, ds, e, lo, p);
      var m, h := |Render(t, ds, 0, p)|, |Render(t, ds, 0, hi)|;
      RenderConcat(now, [e], |Render(t, ds, 0, lo)|, m, h);
      OneMorePiece(t, ds, e, p);
    }
  }

  /** One position in the text as it stands once the edits `ds` are made. */
  lemma {:induction false} PieceNow(t: string, ds: seq<Edit>, p: nat)
    requires p < |t|
    ensures
      var now := Render(t, ds, 0, |t|);
      var m, h := |Render(t, ds, 0, p)|, |Render(t, ds, 0, p + 1)|;
      m <= h <= |now| && now[m..h] == Piece(t, ds, p)
  {
    RenderConcat(t, ds, 0, p + 1, |t|);
  }

  lemma {:induction false} PieceSnoc(t: string, ds: seq<Edit>, e: Edit, p: nat)
    requires p < |t|
    ensures Piece(t, ds + [e], p) ==
      if e.start <= p < e.end then (if p == e.start then e.replacement else "") else Piece(t, ds, p)
  {
    assert (ds + [e])[..|ds|] == ds;
  }

  /** Below the end of the new edit nothing has moved yet. */
  lemma {:induction false} NothingMoved(t: string, ds: seq<Edit>, b: nat, p: nat)
    requires p < |t| && p < b && forall d :: d in ds ==> b <= d.start
    ensures
      var now := Render(t, ds, 0, |t|);
      && |Render(t, ds, 0, p)| == p && |Render(t, ds, 0, p + 1)| == p + 1
      && p < |now| && now[p] == t[p] && Piece(t, ds, p) == [t[p]]
  {
    RenderPrefixLength(t, ds, b, p);
    RenderPrefixLength(t, ds, b, p + 1);
    PieceUncovered(t, ds, p);
    PieceNow(t, ds, p);
  }

  lemma {:induction false} OneMorePiece(t: string, ds: seq<Edit>, e: Edit, p: nat)
    requires p < |t| && e.start < e.end <= |t|
    requires forall d :: d in ds ==> e.end <= d.start
    ensures
      var now := Render(t, ds, 0, |t|);
      var m, h := |Render(t, ds, 0, p)|, |Render(t, ds, 0, p + 1)|;
      m <= h <= |now| && Render(now, [e], m, h) == Piece(t, ds + [e], p)
  {
    PieceNow(t, ds, p);
    PieceSnoc(t, ds, e, p);
    if p < e.end {
      NothingMoved(t, ds, e.end, p);
      OnePosition(Render(t, ds, 0, |t|), e, p);
    } else {
      RenderPrefixLength(t, ds, e.end, p);
      RenderUntouched(Render(t, ds, 0, |t|), [e], |Render(t, ds, 0, p)|, |Render(t, ds, 0, p + 1)|);
    }
  }

  lemma {:induction false} OnePosition(t: string, e: Edit, p: nat)
    requires p < |t|
    ensures Render(t, [e], p, p + 1)
         == if e.start <= p < e.end then (if p == e.start then e.replacement else "") else [t[p]]
  {
    PieceOne(t, e, p);
    assert Render(t, [e], p, p) == "";
  }

  /** The state of the runs once the edits `ds` have been made: offsets in it are rendered offsets. */
  lemma {:induction false} OffsetsNow(ts: seq<string>, now: seq<string>, ds: seq<Edit>, k: nat)
    requires k <= |ts| && RunsAfter(ts, ds, now)
    ensures Offset(ts, k) <= |Flat(ts)|
    ensures Flat(now[..k]) == Render(Flat(ts), ds, 0, Offset(ts, k))
    ensures Offset(now, k) == |Render(Flat(ts), ds, 0, Offset(ts, k))|
  {
    OffsetMonotone(ts, k, |ts|);
    FlatLength(ts);
    if k != 0 {
      OffsetsNow(ts, now, ds, k - 1);
      RenderConcat(Flat(ts), ds, 0, Offset(ts, k - 1), Offset(ts, k));
      assert now[..k][..k - 1] == now[..k - 1];
    }
  }

  lemma RunsAfterOneMore(ts: seq<string>, now: seq<string>, next: seq<string>, ds: seq<Edit>, e: Edit)
    requires RunsAfter(ts, ds, now) && RunsAfter(now, [e], next)
    requires e.start < e.end <= |Flat(ts)|
    requires RightToLeft(ds + [e])
    ensures RunsAfter(ts, ds + [e], next)
  {
    forall d | d in ds
      ensures e.end <= d.start
    {
      var i :| 0 <= i < |ds| && ds[i] == d;
      assert (ds + [e])[i] == d && (ds + [e])[|ds|] == e;
    }
    forall k | 0 <= k < |ts|
      ensures RunAfter(now, [e], k) == RunAfter(ts, ds + [e], k)
    {
      RunAfterOneMore(ts, now, ds, e, k);
    }
  }

  lemma RunAfterOneMore(ts: seq<string>, now: seq<string>, ds: seq<Edit>, e: Edit, k: nat)
    requires k < |ts| && RunsAfter(ts, ds, now)
    requires e.start < e.end <= |Flat(ts)|
    requires forall d :: d in ds ==> e.end <= d.start
    ensures RunAfter(now, [e], k) == RunAfter(ts, ds + [e], k)
  {
    OffsetsNow(ts, now, ds, k);
    OffsetsNow(ts, now, ds, k + 1);
    OffsetsNow(ts, now, ds, |ts|);
    assert now[..|ts|] == now;
    FlatLength(ts);
    FlatSlice(ts, k);
    OneMoreEdit(Flat(ts), ds, e, Offset(ts, k), Offset(ts, k + 1));
  }

  // ---------------------------------------------------------------------------------------------
  // sorted(edits, reverse=True)
  // ---------------------------------------------------------------------------------------------

  /** Disjoint non-empty spans have different starts, so comparing starts decides the order of the
      (start, end, replacement) tuples. */
  function SortDescending(es: seq<Edit>): seq<Edit> {
    if es == [] then [] else InsertDescending(SortDescending(es[..|es| - 1]), es[|es| - 1])
  }

  function InsertDescending(es: seq<Edit>, e: Edit): seq<Edit> {
    if es == [] || es[0].start <= e.start then [e] + es else [es[0]] + InsertDescending(es[1..], e)
  }

  /** Every later span lies wholly to the left of every earlier one. */
  ghost predicate RightToLeft(es: seq<Edit>) {
    forall i, j :: 0 <= i < j < |es| ==> es[j].end <= es[i].start
  }

  lemma {:induction false} InsertKeepsOrder(es: seq<Edit>, e: Edit)
    requires RightToLeft(es) && e.start < e.end
    requires forall x :: x in es ==> x.start < x.end && Apart(x, e)
    ensures RightToLeft(InsertDescending(es, e))
    ensures forall x :: x in InsertDescending(es, e) <==> x in es || x == e
    ensures |InsertDescending(es, e)| == |es| + 1
  {
    if es != [] && e.start < es[0].start {
      var rest := InsertDescending(es[1..], e);
      InsertKeepsOrder(es[1..], e);
      assert Apart(es[0], e);
      forall x | x in rest
        ensures x.end <= es[0].start
      {
      }
    } else if es != [] {
      assert Apart(es[0], e);
      assert forall k :: 0 < k < |es| ==> es[k].start < es[k].end <= es[0].start;
    }
  }

  lemma LastIsApart(es: seq<Edit>, n: nat)
    requires es != [] && Disjoint(es, n)
    ensures Disjoint(es[..|es| - 1], n)
    ensures forall x :: x in es[..|es| - 1] ==> x.start < x.end && Apart(x, es[|es| - 1])
  {
  }

  lemma {:induction false} SortIsRightToLeft(es: seq<Edit>, n: nat)
    requires Disjoint(es, n)
    ensures RightToLeft(SortDescending(es))
    ensures forall x :: x in SortDescending(es) <==> x in es
    ensures |SortDescending(es)| == |es|
  {
    if es != [] {
      var front, e := es[..|es| - 1], es[|es| - 1];
      LastIsApart(es, n);
      SortIsRightToLeft(front, n);
      InsertKeepsOrder(SortDescending(front), e);
    }
  }

  lemma NextIsLeftmost(es: seq<Edit>, i: nat, n: nat)
    requires i < |es| && RightToLeft(es) && Disjoint(es, n)
    ensures es[..i + 1] == es[..i] + [es[i]]
    ensures es[i].start < es[i].end <= n && RightToLeft(es[..i] + [es[i]])
  {
  }

  lemma RightToLeftIsDisjoint(es: seq<Edit>, n: nat)
    requires RightToLeft(es)
    requires forall x :: x in es ==> x.start < x.end <= n
    ensures Disjoint(es, n)
  {
    forall i, j | 0 <= i < j < |es|
      ensures Apart(es[i], es[j])
    {
    }
  }

  /**
   The whole edit loop.  Every run ends up with exactly the rendering of its own stretch of the
   original text: runs that no span meets keep their text, a span's replacement lies wholly in the
   run that held the span's first character, and the other characters of the span are gone.
   */
  method ApplyEdits(texts: array<string>, edits: seq<Edit>)
    requires Disjoint(edits, |Flat(texts[..])|)
    modifies texts
    ensures RunsAfter(old(texts[..]), edits, texts[..])
  {
    ghost var ts := texts[..];
    ghost var n := |Flat(ts)|;
    var sorted := SortDescending(edits);
    SortIsRightToLeft(edits, n);
    RightToLeftIsDisjoint(sorted, n);
    RunsAfterNothing(ts);
    for i := 0 to |sorted|
      invariant RunsAfter(ts, sorted[..i], texts[..])
    {
      ghost var now := texts[..];
      NextIsLeftmost(sorted, i, n);
      ApplyOne(texts, sorted[i]);
      RunsAfterOneMore(ts, now, texts[..], sorted[..i], sorted[i]);
    }
    assert sorted[..|sorted|] == sorted;
    RunsAfterOrder(ts, sorted, edits, texts[..]);
  }

  lemma RunsAfterNothing(ts: seq<string>)
    ensures RunsAfter(ts, [], ts)
  {
    forall k | 0 <= k < |ts|
      ensures RunAfter(ts, [], k) == ts[k]
    {
      UntouchedRun(ts, [], k);
    }
  }

  lemma RunsAfterOrder(ts: seq<string>, es: seq<Edit>, fs: seq<Edit>, now: seq<string>)
    requires Disjoint(es, |Flat(ts)|) && Disjoint(fs, |Flat(ts)|)
    requires forall e :: e in es <==> e in fs
    requires RunsAfter(ts, es, now)
    ensures RunsAfter(ts, fs, now)
  {
    forall k | 0 <= k < |ts|
      ensures RunAfter(ts, es, k) == RunAfter(ts, fs, k)
    {
      FlatSlice(ts, k);
      RenderOrder(Flat(ts), es, fs, Offset(ts, k), Offset(ts, k + 1));
    }
  }

  // ---------------------------------------------------------------------------------------------
  // What the per-run result means
  // ---------------------------------------------------------------------------------------------

  /** The edits from left to right. */
  function LeftToRight(edits: seq<Edit>): (asc: seq<Edit>)
    ensures |asc| == |SortDescending(edits)|
  {
    var desc := SortDescending(edits);
    seq(|desc|, i requires 0 <= i < |desc| => desc[|desc| - 1 - i])
  }

  lemma {:induction false} ChainIsAscending(asc: seq<Edit>, from: nat, n: nat)
    requires forall i :: 0 <= i < |asc| ==> from <= asc[i].start < asc[i].end <= n
    requires forall i, j :: 0 <= i < j < |asc| ==> asc[i].end <= asc[j].start
    ensures Ascending(asc, from, n)
  {
    if asc != [] {
      ChainIsAscending(asc[1..], asc[0].end, n);
    }
  }

  lemma LeftToRightIsAscending(edits: seq<Edit>, n: nat)
    requires Disjoint(edits, n)
    ensures Ascending(LeftToRight(edits), 0, n)
    ensures forall e :: e in LeftToRight(edits) <==> e in edits
  {
    SortIsRightToLeft(edits, n);
    var desc, asc := SortDescending(edits), LeftToRight(edits);
    forall i | 0 <= i < |asc|
      ensures asc[i].start < asc[i].end <= n && asc[i] in edits
    {
      assert asc[i] == desc[|desc| - 1 - i] && asc[i] in desc;
    }
    forall e | e in edits
      ensures e in asc
    {
      var i :| 0 <= i < |desc| && desc[i] == e;
      assert asc[|desc| - 1 - i] == e;
    }
    ChainIsAscending(asc, 0, n);
  }

  /** Joined, the runs hold the simultaneous substitution of the original flat text. */
  lemma {:induction false} JoinedRunsSubstitute(ts: seq<string>, now: seq<string>, edits: seq<Edit>)
    requires RunsAfter(ts, edits, now)
    requires Disjoint(edits, |Flat(ts)|)
    ensures Ascending(LeftToRight(edits), 0, |Flat(ts)|)
    ensures Flat(now) == Substitute(Flat(ts), 0, LeftToRight(edits))
  {
    var t, asc := Flat(ts), LeftToRight(edits);
    LeftToRightIsAscending(edits, |t|);
    OffsetsNow(ts, now, edits, |ts|);
    assert now[..|ts|] == now;
    FlatLength(ts);
    AscendingIsDisjoint(asc, 0, |t|);
    RenderOrder(t, edits, asc, 0, |t|);
    assert asc[0..] == asc;
    RenderIsSubstitute(t, 0, asc, 0);
  }

  /** A run that no span meets keeps its text. */
  lemma {:induction false} UntouchedRun(ts: seq<string>, edits: seq<Edit>, k: nat)
    requires k < |ts|
    requires forall e :: e in edits ==> e.end <= Offset(ts, k) || Offset(ts, k + 1) <= e.start
    ensures RunAfter(ts, edits, k) == ts[k]
  {
    FlatSlice(ts, k);
    RenderUntouched(Flat(ts), edits, Offset(ts, k), Offset(ts, k + 1));
  }

  /** The replacement of span `i` stands, whole, in the run that held the span's first character,
      right after what the run keeps of the text before the span; what follows it in the run is
      the rendering of the run's text after the span. */
  lemma {:induction false} ReplacementInFirstRun(ts: seq<string>, edits: seq<Edit>, i: nat, k: nat)
    requires k < |ts| && i < |edits| && Disjoint(edits, |Flat(ts)|)
    requires Offset(ts, k) <= edits[i].start < Offset(ts, k + 1)
    ensures
      var t, stop := Flat(ts), Offset(ts, k + 1);
      && stop <= |t|
      && RunAfter(ts, edits, k)
      == Render(t, edits, Offset(ts, k), edits[i].start)
       + edits[i].replacement
       + Render(t, edits, Clamp(edits[i].end, edits[i].start, stop), stop)
  {
    FlatSlice(ts, k);
    var t, e, stop := Flat(ts), edits[i], Offset(ts, k + 1);
    var cut := Clamp(e.end, e.start, stop);
    RenderConcat(t, edits, Offset(ts, k), e.start, stop);
    RenderConcat(t, edits, e.start, cut, stop);
    RenderSpan(t, edits, i, cut);
  }

  /** A run that begins inside a span holds nothing of that span: its text is the rendering of
      what lies behind the span's end. */
  lemma {:induction false} RestOfSpanIsGone(t: string, edits: seq<Edit>, i: nat, lo: nat, hi: nat)
    requires i < |edits| && Disjoint(edits, |t|)
    requires edits[i].start < lo <= hi <= edits[i].end
    ensures Render(t, edits, lo, hi) == ""
    decreases hi
  {
    if lo < hi {
      PieceCovered(t, edits, i, hi - 1);
      RestOfSpanIsGone(t, edits, i, lo, hi - 1);
    }
  }
}
