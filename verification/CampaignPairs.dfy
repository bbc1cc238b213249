/**
 Pairing of the measured trials: one pair for each case id and repetition, in sorted order.

 What a trial measured is left open (`M`); a measure is any integer read off it, so what is proved
 of the sum of savings holds for tokens, bytes and latency alike.
 */
module CampaignPairs {
  import opened Wrappers
  import opened CampaignPlan

  datatype Key = Key(id: string, repetition: int)

  datatype Outcome<M> = Outcome(key: Key, arm: Arm, measured: M)

  datatype Pair<M> = Pair(key: Key, direct: M, native: M)

  // ---------------------------------------------------------------------------------------------
  // The order of the keys
  // ---------------------------------------------------------------------------------------------

  predicate Before(a: string, b: string, i: nat)
    requires i <= |a| && i <= |b|
    decreases |a| - i
  {
    i < |b| && (i == |a| || a[i] < b[i] || (a[i] == b[i] && Before(a, b, i + 1)))
  }

  predicate Precedes(a: Key, b: Key) {
    if a.id == b.id then a.repetition < b.repetition else Before(a.id, b.id, 0)
  }

  lemma {:induction false} BeforeTotal(a: string, b: string, i: nat)
    requires i <= |a| && i <= |b| && a[..i] == b[..i]
    ensures a == b || Before(a, b, i) || Before(b, a, i)
    decreases |a| - i
  {
    if i < |a| && i < |b| && a[i] == b[i] {
      BeforeTotal(a, b, i + 1);
    }
  }

  lemma {:induction false} BeforeTransitive(a: string, b: string, c: string, i: nat)
    requires i <= |a| && i <= |b| && i <= |c| && Before(a, b, i) && Before(b, c, i)
    ensures Before(a, c, i)
    decreases |a| - i
  {
    if i < |a| && a[i] == b[i] == c[i] {
      BeforeTransitive(a, b, c, i + 1);
    }
  }

  lemma {:induction false} BeforeIrreflexive(a: string, i: nat)
    requires i <= |a|
    ensures !Before(a, a, i)
    decreases |a| - i
  {
    if i < |a| {
      BeforeIrreflexive(a, i + 1);
    }
  }

  lemma PrecedesTotal(a: Key, b: Key)
    ensures a == b || Precedes(a, b) || Precedes(b, a)
  {
    BeforeTotal(a.id, b.id, 0);
  }

  lemma PrecedesTransitive(a: Key, b: Key, c: Key)
    requires Precedes(a, b) && Precedes(b, c)
    ensures Precedes(a, c)
  {
    if a.id != b.id && b.id != c.id {
      BeforeTransitive(a.id, b.id, c.id, 0);
      BeforeIrreflexive(a.id, 0);
    }
  }

  lemma PrecedesIrreflexive(a: Key)
    ensures !Precedes(a, a)
  {
  }

  ghost predicate Ascending(ks: seq<Key>) {
    forall i, j :: 0 <= i < j < |ks| ==> Precedes(ks[i], ks[j])
  }

  ghost predicate Distinct(ks: seq<Key>) {
    forall i, j :: 0 <= i < j < |ks| ==> ks[i] != ks[j]
  }

  method InsertKey(ks: seq<Key>, k: Key) returns (r: seq<Key>)
    requires Ascending(ks)
    ensures Ascending(r)
    ensures forall x :: x in r <==> x in ks || x == k
  {
    var i := 0;
    while i < |ks| && Precedes(ks[i], k)
      invariant i <= |ks|
      invariant forall j :: 0 <= j < i ==> Precedes(ks[j], k)
    {
      i := i + 1;
    }
    if i < |ks| && ks[i] == k {
      return ks;
    }
    r := ks[..i] + [k] + ks[i..];
    forall j | i <= j < |ks|
      ensures Precedes(k, ks[j])
    {
      PrecedesTotal(k, ks[i]);
      if i < j {
        PrecedesTransitive(k, ks[i], ks[j]);
      }
    }
    assert ks == ks[..i] + ks[i..];
  }

  // ---------------------------------------------------------------------------------------------
  // `_pairs`
  // ---------------------------------------------------------------------------------------------

  /** The last trial with this key and arm among the first `n`: what a dictionary filled in order holds. */
  function Last<M>(trials: seq<Outcome<M>>, n: nat, k: Key, arm: Arm): (r: Option<M>)
    requires n <= |trials|
    ensures r.None? <==> forall i :: 0 <= i < n ==> trials[i].key != k || trials[i].arm != arm
  {
    if n == 0 then None
    else if trials[n - 1].key == k && trials[n - 1].arm == arm then Some(trials[n - 1].measured)
    else Last(trials, n - 1, k, arm)
  }

  /** Some trial's key has no trial of one of the arms. */
  ghost predicate Incomplete<M>(trials: seq<Outcome<M>>) {
    exists i, arm :: 0 <= i < |trials| && Last(trials, |trials|, trials[i].key, arm).None?
  }

  function PairKeys<M>(ps: seq<Pair<M>>): (ks: seq<Key>)
    ensures |ks| == |ps| && forall i :: 0 <= i < |ps| ==> ks[i] == ps[i].key
  {
    seq(|ps|, i requires 0 <= i < |ps| => ps[i].key)
  }

  /** Sorted pairs, one for each key among the trials, each holding that key's two arms. */
  ghost predicate Paired<M>(trials: seq<Outcome<M>>, ps: seq<Pair<M>>) {
    && Ascending(PairKeys(ps))
    && (forall i :: 0 <= i < |ps| ==>
          && Last(trials, |trials|, ps[i].key, Direct) == Some(ps[i].direct)
          && Last(trials, |trials|, ps[i].key, Native) == Some(ps[i].native))
    && (forall i :: 0 <= i < |trials| ==> trials[i].key in PairKeys(ps))
  }

  method Keys<M>(trials: seq<Outcome<M>>) returns (ks: seq<Key>, byKey: map<(Key, Arm), M>)
    ensures Ascending(ks)
    ensures forall x :: x in ks <==> exists i :: 0 <= i < |trials| && trials[i].key == x
    ensures forall k, arm ::
      Last(trials, |trials|, k, arm) == if (k, arm) in byKey then Some(byKey[(k, arm)]) else None
  {
    ks, byKey := [], map[];
    for n := 0 to |trials|
      invariant Ascending(ks)
      invariant forall x :: x in ks <==> exists i :: 0 <= i < n && trials[i].key == x
      invariant forall k, arm ::
        Last(trials, n, k, arm) == if (k, arm) in byKey then Some(byKey[(k, arm)]) else None
    {
      byKey := byKey[(trials[n].key, trials[n].arm) := trials[n].measured];
      ks := InsertKey(ks, trials[n].key);
    }
  }

  /** `_pairs`; `None` is the KeyError of a key that lacks an arm. */
  method Pairs<M>(trials: seq<Outcome<M>>) returns (r: Option<seq<Pair<M>>>)
    ensures r.None? <==> Incomplete(trials)
    ensures r.Some? ==> Paired(trials, r.value)
  {
    var ks, byKey := Keys(trials);
    var ps: seq<Pair<M>> := [];
    for n := 0 to |ks|
      invariant |ps| == n
      invariant forall i :: 0 <= i < n ==>
        && ps[i].key == ks[i]
        && Last(trials, |trials|, ks[i], Direct) == Some(ps[i].direct)
        && Last(trials, |trials|, ks[i], Native) == Some(ps[i].native)
    {
      var k := ks[n];
      if (k, Direct) !in byKey || (k, Native) !in byKey {
        ghost var arm := if (k, Direct) !in byKey then Direct else Native;
        assert k in ks;
        ghost var i :| 0 <= i < |trials| && trials[i].key == k;
        assert Last(trials, |trials|, trials[i].key, arm).None?;
        return None;
      }
      ps := ps + [Pair(k, byKey[(k, Direct)], byKey[(k, Native)])];
    }
    assert PairKeys(ps) == ks;
    forall i, arm: Arm | 0 <= i < |trials|
      ensures Last(trials, |trials|, trials[i].key, arm).Some?
    {
      assert trials[i].key in ks;
    }
    return Some(ps);
  }

  // ---------------------------------------------------------------------------------------------
  // Sums over the keys do not depend on their order
  // ---------------------------------------------------------------------------------------------

  ghost function Sum(ks: seq<Key>, g: Key -> int, n: nat): int
    requires n <= |ks|
  {
    if n == 0 then 0 else Sum(ks, g, n - 1) + g(ks[n - 1])
  }

  ghost function Without(ks: seq<Key>, j: nat): (r: seq<Key>)
    requires j < |ks|
    ensures |r| == |ks| - 1
    ensures forall i :: 0 <= i < |r| ==> r[i] == if i < j then ks[i] else ks[i + 1]
  {
    ks[..j] + ks[j + 1..]
  }

  lemma {:induction false} SumWithout(ks: seq<Key>, j: nat, g: Key -> int, n: nat)
    requires j < |ks| && n < |ks|
    ensures Sum(Without(ks, j), g, n) == if n <= j then Sum(ks, g, n) else Sum(ks, g, n + 1) - g(ks[j])
  {
    if n > 0 {
      SumWithout(ks, j, g, n - 1);
    }
  }

  lemma WithoutKeeps(ks: seq<Key>, j: nat)
    requires j < |ks| && Distinct(ks)
    ensures Distinct(Without(ks, j))
    ensures forall x :: x in Without(ks, j) <==> x in ks && x != ks[j]
  {
    var r := Without(ks, j);
    forall x
      ensures x in r <==> x in ks && x != ks[j]
    {
      if x in ks && x != ks[j] {
        var i :| 0 <= i < |ks| && ks[i] == x;
        assert r[if i < j then i else i - 1] == x;
      }
    }
  }

  lemma {:induction false} SumSame(xs: seq<Key>, ys: seq<Key>, g: Key -> int)
    requires Distinct(xs) && Distinct(ys) && (forall x :: x in xs <==> x in ys)
    ensures |xs| == |ys| && Sum(xs, g, |xs|) == Sum(ys, g, |ys|)
    decreases |xs|
  {
    assert |ys| > 0 ==> ys[0] in ys;
    if |xs| > 0 {
      var last := |xs| - 1;
      assert xs[last] in ys;
      var j :| 0 <= j < |ys| && ys[j] == xs[last];
      WithoutKeeps(xs, last);
      WithoutKeeps(ys, j);
      SumWithout(xs, last, g, last);
      SumWithout(ys, j, g, |ys| - 1);
      SumSame(Without(xs, last), Without(ys, j), g);
    }
  }

  // ---------------------------------------------------------------------------------------------
  // The trials of a plan
  // ---------------------------------------------------------------------------------------------

  /** The trials are the plan's, measured in order. */
  ghost predicate Ran<M>(plan: seq<Trial>, trials: seq<Outcome<M>>) {
    && |trials| == |plan|
    && forall i :: 0 <= i < |plan| ==>
         trials[i].key == Key(plan[i].case_.id, plan[i].repetition) && trials[i].arm == plan[i].arm
  }

  function BlockKey(b: Block): Key {
    Key(b.case_.id, b.repetition)
  }

  ghost predicate Campaign<M>(bs: seq<Block>, cases: seq<Case>, repetitions: nat, trials: seq<Outcome<M>>) {
    UniqueIds(cases) && BlocksOk(bs, cases, repetitions) && Ran(Flatten(bs, |bs|), trials)
  }

  /** Where the trial of a block and an arm stands. */
  function Place(b: Block, k: nat, arm: Arm): nat {
    if b.first == arm then 2 * k else 2 * k + 1
  }

  lemma {:induction false} LastIsOnly<M>(trials: seq<Outcome<M>>, n: nat, k: Key, arm: Arm, at: nat)
    requires at < n <= |trials| && trials[at].key == k && trials[at].arm == arm
    requires forall i :: at < i < n ==> trials[i].key != k || trials[i].arm != arm
    ensures Last(trials, n, k, arm) == Some(trials[at].measured)
  {
    if at < n - 1 {
      LastIsOnly(trials, n - 1, k, arm, at);
    }
  }

  lemma SameCase(cases: seq<Case>, a: Case, b: Case)
    requires UniqueIds(cases) && a in cases && b in cases && a.id == b.id
    ensures a == b
  {
    var i :| 0 <= i < |cases| && cases[i] == a;
    var j :| 0 <= j < |cases| && cases[j] == b;
    assert i == j;
  }

  lemma {:induction false} PlanTrial(bs: seq<Block>, cases: seq<Case>, repetitions: nat, i: nat, m: nat)
    requires BlocksOk(bs, cases, repetitions) && m < |bs| && (i == 2 * m || i == 2 * m + 1)
    ensures Flatten(bs, |bs|)[i].case_ == bs[m].case_ && bs[m].case_ in cases
    ensures Flatten(bs, |bs|)[i].repetition == bs[m].repetition
    ensures i == Place(bs[m], m, Flatten(bs, |bs|)[i].arm)
  {
    FlattenAt(bs, |bs|, m);
    assert BothArms(bs[m]);
  }

  /** The pairing finds, for a block's key, that block's two trials. */
  lemma {:induction false} BlockIsFound<M>(bs: seq<Block>, cases: seq<Case>, repetitions: nat, trials: seq<Outcome<M>>, k: nat, arm: Arm)
    requires Campaign(bs, cases, repetitions, trials) && k < |bs|
    ensures Last(trials, |trials|, BlockKey(bs[k]), arm) == Some(trials[Place(bs[k], k, arm)].measured)
  {
    var at := Place(bs[k], k, arm);
    FlattenAt(bs, |bs|, k);
    assert BothArms(bs[k]);
    forall i | at < i < |trials|
      ensures trials[i].key != BlockKey(bs[k]) || trials[i].arm != arm
    {
      PlanTrial(bs, cases, repetitions, i, i / 2);
      if trials[i].key == BlockKey(bs[k]) {
        SameCase(cases, bs[i / 2].case_, bs[k].case_);
      }
    }
    LastIsOnly(trials, |trials|, BlockKey(bs[k]), arm, at);
  }

  ghost function BlockKeys(bs: seq<Block>): (ks: seq<Key>)
    ensures |ks| == |bs| && forall i :: 0 <= i < |bs| ==> ks[i] == BlockKey(bs[i])
  {
    seq(|bs|, i requires 0 <= i < |bs| => BlockKey(bs[i]))
  }

  lemma BlockKeysDistinct(bs: seq<Block>, cases: seq<Case>, repetitions: nat)
    requires UniqueIds(cases) && BlocksOk(bs, cases, repetitions)
    ensures Distinct(BlockKeys(bs))
  {
    forall i, j | 0 <= i < j < |bs|
      ensures BlockKey(bs[i]) != BlockKey(bs[j])
    {
      if BlockKey(bs[i]) == BlockKey(bs[j]) {
        SameCase(cases, bs[i].case_, bs[j].case_);
      }
    }
  }

  /** `_pairs` never misses a key of the plan. */
  lemma {:induction false} PlanIsComplete<M>(bs: seq<Block>, cases: seq<Case>, repetitions: nat, trials: seq<Outcome<M>>)
    requires Campaign(bs, cases, repetitions, trials)
    ensures !Incomplete(trials)
  {
    forall i, arm: Arm | 0 <= i < |trials|
      ensures Last(trials, |trials|, trials[i].key, arm).Some?
    {
      PlanTrial(bs, cases, repetitions, i, i / 2);
      BlockIsFound(bs, cases, repetitions, trials, i / 2, arm);
    }
  }

  lemma SameKeys<M>(bs: seq<Block>, cases: seq<Case>, repetitions: nat, trials: seq<Outcome<M>>, ps: seq<Pair<M>>)
    requires Campaign(bs, cases, repetitions, trials) && Paired(trials, ps)
    ensures forall x :: x in PairKeys(ps) <==> x in BlockKeys(bs)
  {
    forall k | 0 <= k < |bs|
      ensures BlockKey(bs[k]) in PairKeys(ps)
    {
      FlattenAt(bs, |bs|, k);
      assert trials[2 * k].key == BlockKey(bs[k]);
    }
    forall n | 0 <= n < |ps|
      ensures ps[n].key in BlockKeys(bs)
    {
      PairHasBlock(bs, cases, repetitions, trials, ps[n].key);
    }
  }

  lemma PairHasBlock<M>(bs: seq<Block>, cases: seq<Case>, repetitions: nat, trials: seq<Outcome<M>>, x: Key)
    requires Campaign(bs, cases, repetitions, trials) && Last(trials, |trials|, x, Direct).Some?
    ensures x in BlockKeys(bs)
  {
    var i :| 0 <= i < |trials| && trials[i].key == x;
    PlanTrial(bs, cases, repetitions, i, i / 2);
    assert BlockKeys(bs)[i / 2] == x;
  }

  /** What the pair of a key saves, by the dictionary. */
  ghost function SavedFor<M>(trials: seq<Outcome<M>>, f: M -> int, k: Key): int {
    match (Last(trials, |trials|, k, Direct), Last(trials, |trials|, k, Native))
    case (Some(d), Some(n)) => f(d) - f(n)
    case _ => 0
  }

  function TotalSaved<M>(ps: seq<Pair<M>>, f: M -> int, n: nat): int
    requires n <= |ps|
  {
    if n == 0 then 0 else TotalSaved(ps, f, n - 1) + (f(ps[n - 1].direct) - f(ps[n - 1].native))
  }

  /** The measure summed over the trials of one arm. */
  function ArmTotal<M>(trials: seq<Outcome<M>>, arm: Arm, f: M -> int, n: nat): int
    requires n <= |trials|
  {
    if n == 0 then 0
    else ArmTotal(trials, arm, f, n - 1) + if trials[n - 1].arm == arm then f(trials[n - 1].measured) else 0
  }

  lemma {:induction false} SavedByPairs<M>(trials: seq<Outcome<M>>, ps: seq<Pair<M>>, f: M -> int, n: nat)
    requires Paired(trials, ps) && n <= |ps|
    ensures TotalSaved(ps, f, n) == Sum(PairKeys(ps), k => SavedFor(trials, f, k), n)
  {
    if n > 0 {
      SavedByPairs(trials, ps, f, n - 1);
    }
  }

  lemma {:induction false} SavedByBlocks<M>(bs: seq<Block>, cases: seq<Case>, repetitions: nat,
                                            trials: seq<Outcome<M>>, f: M -> int, n: nat)
    requires Campaign(bs, cases, repetitions, trials) && n <= |bs|
    ensures Sum(BlockKeys(bs), k => SavedFor(trials, f, k), n)
         == ArmTotal(trials, Direct, f, 2 * n) - ArmTotal(trials, Native, f, 2 * n)
  {
    if n > 0 {
      SavedByBlocks(bs, cases, repetitions, trials, f, n - 1);
      SavedByBlock(bs, cases, repetitions, trials, f, n - 1);
    }
  }

  lemma {:induction false} SavedByBlock<M>(bs: seq<Block>, cases: seq<Case>, repetitions: nat,
                                           trials: seq<Outcome<M>>, f: M -> int, k: nat)
    requires Campaign(bs, cases, repetitions, trials) && k < |bs|
    ensures SavedFor(trials, f, BlockKey(bs[k]))
         == ArmTotal(trials, Direct, f, 2 * k + 2) - ArmTotal(trials, Direct, f, 2 * k)
          - (ArmTotal(trials, Native, f, 2 * k + 2) - ArmTotal(trials, Native, f, 2 * k))
  {
    BlockIsFound(bs, cases, repetitions, trials, k, Direct);
    BlockIsFound(bs, cases, repetitions, trials, k, Native);
    FlattenAt(bs, |bs|, k);
    assert BothArms(bs[k]);
    ArmStep(trials, Direct, f, 2 * k);
    ArmStep(trials, Native, f, 2 * k);
  }

  lemma ArmStep<M>(trials: seq<Outcome<M>>, arm: Arm, f: M -> int, n: nat)
    requires n + 2 <= |trials| && trials[n].arm != trials[n + 1].arm
    ensures ArmTotal(trials, arm, f, n + 2)
         == ArmTotal(trials, arm, f, n) + f(trials[if trials[n].arm == arm then n else n + 1].measured)
  {
    assert ArmTotal(trials, arm, f, n + 2) == ArmTotal(trials, arm, f, n + 1)
      + if trials[n + 1].arm == arm then f(trials[n + 1].measured) else 0;
  }

  lemma AscendingDistinct(ks: seq<Key>)
    requires Ascending(ks)
    ensures Distinct(ks)
  {
    forall i, j | 0 <= i < j < |ks|
      ensures ks[i] != ks[j]
    {
      PrecedesIrreflexive(ks[i]);
    }
  }

  /** For every seed and every outcome: as many pairs as cases times repetitions, and whatever is
      measured, the pairs together save what the direct arm spent less what the native arm spent. */
  lemma {:induction false} SavingsAreConserved<M>(bs: seq<Block>, cases: seq<Case>, repetitions: nat,
                               trials: seq<Outcome<M>>, ps: seq<Pair<M>>, f: M -> int)
    requires Campaign(bs, cases, repetitions, trials) && Paired(trials, ps)
    ensures |ps| == |cases| * repetitions
    ensures TotalSaved(ps, f, |ps|)
         == ArmTotal(trials, Direct, f, |trials|) - ArmTotal(trials, Native, f, |trials|)
  {
    var g := k => SavedFor(trials, f, k);
    SameKeys(bs, cases, repetitions, trials, ps);
    AscendingDistinct(PairKeys(ps));
    BlockKeysDistinct(bs, cases, repetitions);
    SumSame(PairKeys(ps), BlockKeys(bs), g);
    SavedByPairs(trials, ps, f, |ps|);
    SavedByBlocks(bs, cases, repetitions, trials, f, |bs|);
  }
}
