/**
 The paired trial planner of the plugin campaign and the pairing of its results.

 Random draws are arbitrary: every claim holds for every seed.
 */
module CampaignPlan {
  import opened Wrappers

  datatype Arm = Direct | Native

  datatype Case = Case(id: string, capability: string)

  datatype Trial = Trial(arm: Arm, case_: Case, repetition: int, warmup: bool)

  const REQUIRED := {"web.page.read@1", "github.file.read@1", "document.text.extract@1"}

  ghost predicate UniqueIds(cases: seq<Case>) {
    forall i, j :: 0 <= i < j < |cases| ==> cases[i].id != cases[j].id
  }

  /** The case checks of `validate_definition`: some cases, exactly the required capabilities (each
      by one case or more), and no case id twice. */
  ghost predicate ValidCases(cases: seq<Case>) {
    cases != [] && (set c | c in cases :: c.capability) == REQUIRED && UniqueIds(cases)
  }

  // The definition's error message asks for each capability "exactly once"; the check is for the set of
  // capabilities only.

  /** No two cases have the same capability. */
  ghost predicate OnceEach(cases: seq<Case>) {
    forall i, j :: 0 <= i < j < |cases| ==> cases[i].capability != cases[j].capability
  }

  /** The capabilities of the first `k` cases. */
  ghost function Capabilities(cases: seq<Case>, k: nat): set<string>
    requires k <= |cases|
  {
    if k == 0 then {} else Capabilities(cases, k - 1) + {cases[k - 1].capability}
  }

  ghost predicate NoRepeat(cases: seq<Case>, k: nat)
    requires k <= |cases|
  {
    k == 0 || (NoRepeat(cases, k - 1) && cases[k - 1].capability !in Capabilities(cases, k - 1))
  }

  lemma {:induction false} CapabilitiesAre(cases: seq<Case>, k: nat, x: string)
    requires k <= |cases|
    ensures x in Capabilities(cases, k) <==> exists i :: 0 <= i < k && cases[i].capability == x
  {
    if k > 0 {
      CapabilitiesAre(cases, k - 1, x);
    }
  }

  lemma {:induction false} NoRepeatIff(cases: seq<Case>, k: nat)
    requires k <= |cases|
    ensures NoRepeat(cases, k) <==> forall i, j :: 0 <= i < j < k ==> cases[i].capability != cases[j].capability
  {
    if k > 0 {
      NoRepeatIff(cases, k - 1);
      CapabilitiesAre(cases, k - 1, cases[k - 1].capability);
    }
  }

  /** As many capabilities as cases exactly if none is repeated. */
  lemma {:induction false} CapabilitiesCount(cases: seq<Case>, k: nat)
    requires k <= |cases|
    ensures |Capabilities(cases, k)| <= k
    ensures |Capabilities(cases, k)| == k <==> NoRepeat(cases, k)
  {
    if k > 0 {
      var before, last := Capabilities(cases, k - 1), cases[k - 1].capability;
      CapabilitiesCount(cases, k - 1);
      assert last in before ==> before + {last} == before;
    }
  }

  lemma {:induction false} ThreeCapabilities()
    ensures |REQUIRED| == 3
  {
    assert "web.page.read@1"[0] != "github.file.read@1"[0];
    assert "web.page.read@1"[0] != "document.text.extract@1"[0];
    assert "github.file.read@1"[0] != "document.text.extract@1"[0];
  }

  lemma {:induction false} AllCapabilities(cases: seq<Case>)
    ensures Capabilities(cases, |cases|) == set c | c in cases :: c.capability
  {
    forall x
      ensures x in Capabilities(cases, |cases|) <==> exists c :: c in cases && c.capability == x
    {
      CapabilitiesAre(cases, |cases|, x);
      if exists c :: c in cases && c.capability == x {
        var c :| c in cases && c.capability == x;
        var i :| 0 <= i < |cases| && cases[i] == c;
      }
    }
  }

  /** An accepted definition covers each capability exactly once if and only if it has three cases. */
  lemma {:induction false} OnceEachIff(cases: seq<Case>)
    requires ValidCases(cases)
    ensures OnceEach(cases) <==> |cases| == 3
  {
    CapabilitiesCount(cases, |cases|);
    NoRepeatIff(cases, |cases|);
    AllCapabilities(cases);
    ThreeCapabilities();
  }

  const FOUR_CASES := [Case("a", "web.page.read@1"), Case("b", "web.page.read@1"),
                       Case("c", "github.file.read@1"), Case("d", "document.text.extract@1")]

  /** Four cases, two of them for reading web pages, are accepted. */
  lemma {:induction false} RepeatedCapabilityIsAccepted()
    ensures ValidCases(FOUR_CASES) && !OnceEach(FOUR_CASES)
  {
    var capabilities := set c | c in FOUR_CASES :: c.capability;
    assert FOUR_CASES[0] in FOUR_CASES && FOUR_CASES[2] in FOUR_CASES && FOUR_CASES[3] in FOUR_CASES;
    assert capabilities == REQUIRED;
    assert FOUR_CASES[0].capability == FOUR_CASES[1].capability;
  }

  // ---------------------------------------------------------------------------------------------
  // Shuffling
  // ---------------------------------------------------------------------------------------------

  /** `p` rearranges `n` positions. */
  ghost predicate Permutation(p: seq<nat>, n: nat) {
    && |p| == n
    && (forall i :: 0 <= i < n ==> p[i] < n)
    && (forall i, j :: 0 <= i < j < n ==> p[i] != p[j])
    && (forall x: nat :: x < n ==> Covers(p, x))
  }

  ghost predicate Covers(p: seq<nat>, x: nat) {
    exists k :: 0 <= k < |p| && p[k] == x
  }

  ghost predicate Rearranged<T>(s: seq<T>, r: seq<T>, p: seq<nat>) {
    Permutation(p, |s|) && |r| == |s| && forall i :: 0 <= i < |s| ==> r[i] == s[p[i]]
  }

  ghost predicate Shuffled<T(!new)>(s: seq<T>, r: seq<T>) {
    exists p :: Rearranged(s, r, p)
  }

  function Swap<T>(s: seq<T>, i: nat, j: nat): (r: seq<T>)
    requires i < |s| && j < |s|
    ensures |r| == |s| && r[i] == s[j] && r[j] == s[i]
    ensures forall k :: 0 <= k < |s| && k != i && k != j ==> r[k] == s[k]
  {
    s[i := s[j]][j := s[i]]
  }

  lemma SwapPermutation(p: seq<nat>, n: nat, i: nat, j: nat)
    requires Permutation(p, n) && i < n && j < n
    ensures Permutation(Swap(p, i, j), n)
  {
    var q := Swap(p, i, j);
    forall x: nat | x < n
      ensures Covers(q, x)
    {
      assert Covers(p, x);
      var k :| 0 <= k < n && p[k] == x;
      assert q[if k == i then j else if k == j then i else k] == x;
    }
  }

  /** `random.shuffle`: walk down and swap each position with a drawn one at or below it. */
  method Shuffle<T(!new)>(s: seq<T>, draw: nat -> nat) returns (r: seq<T>)
    ensures Shuffled(s, r)
  {
    r := s;
    ghost var p: seq<nat> := seq(|s|, k => k);
    forall x: nat | x < |s|
      ensures Covers(p, x)
    {
      assert p[x] == x;
    }
    var i := |s|;
    while i > 1
      invariant i <= |s|
      invariant Rearranged(s, r, p)
    {
      i := i - 1;
      var j := draw(i) % (i + 1);
      SwapPermutation(p, |s|, i, j);
      r, p := Swap(r, i, j), Swap(p, i, j);
    }
  }

  // ---------------------------------------------------------------------------------------------
  // The plan
  // ---------------------------------------------------------------------------------------------

  /** The two trials of a pair, in the drawn order of the arms. */
  datatype Block = Block(case_: Case, repetition: int, first: Arm, second: Arm)

  function Trials(b: Block): seq<Trial> {
    [Trial(b.first, b.case_, b.repetition, false), Trial(b.second, b.case_, b.repetition, false)]
  }

  function Flatten(bs: seq<Block>, k: nat): (r: seq<Trial>)
    requires k <= |bs|
    ensures |r| == 2 * k
  {
    if k == 0 then [] else Flatten(bs, k - 1) + Trials(bs[k - 1])
  }

  ghost predicate BothArms(b: Block) { b.first != b.second }

  /** One block for each case and repetition, and no other. */
  ghost predicate BlocksOk(bs: seq<Block>, cases: seq<Case>, repetitions: nat) {
    && (forall i :: 0 <= i < |bs| ==> BothArms(bs[i]) && bs[i].case_ in cases && 0 <= bs[i].repetition < repetitions)
    && (forall i, j :: 0 <= i < j < |bs| ==> bs[i].case_ != bs[j].case_ || bs[i].repetition != bs[j].repetition)
    && |bs| == |cases| * repetitions
    && (forall c, r :: c in cases && 0 <= r < repetitions ==> HasBlock(bs, c, r))
  }

  ghost predicate HasBlock(bs: seq<Block>, c: Case, r: int) {
    exists i :: 0 <= i < |bs| && bs[i].case_ == c && bs[i].repetition == r
  }

  lemma HasBlockGrows(bs: seq<Block>, more: seq<Block>, c: Case, r: int)
    requires HasBlock(bs, c, r)
    ensures HasBlock(bs + more, c, r)
  {
    var i :| 0 <= i < |bs| && bs[i].case_ == c && bs[i].repetition == r;
    assert (bs + more)[i] == bs[i];
  }

  /** The blocks of the first `k` cases and, for the next case, of the first `r` repetitions. */
  ghost predicate Building(bs: seq<Block>, cases: seq<Case>, k: nat, repetitions: nat, r: nat)
    requires k <= |cases|
  {
    && |bs| == k * repetitions + r
    && (forall i :: 0 <= i < |bs| ==>
          && BothArms(bs[i]) && 0 <= bs[i].repetition < repetitions
          && (bs[i].case_ in cases[..k] || (k < |cases| && bs[i].case_ == cases[k] && bs[i].repetition < r)))
    && (forall i, j :: 0 <= i < j < |bs| ==> bs[i].case_ != bs[j].case_ || bs[i].repetition != bs[j].repetition)
    && (forall c, q :: c in cases[..k] && 0 <= q < repetitions ==> HasBlock(bs, c, q))
    && (k < |cases| ==> forall q :: 0 <= q < r ==> HasBlock(bs, cases[k], q))
  }

  lemma BuildOne(bs: seq<Block>, cases: seq<Case>, k: nat, repetitions: nat, r: nat, b: Block)
    requires k < |cases| && r < repetitions && UniqueIds(cases) && Building(bs, cases, k, repetitions, r)
    requires BothArms(b) && b.case_ == cases[k] && b.repetition == r
    ensures Building(bs + [b], cases, k, repetitions, r + 1)
  {
    var now := bs + [b];
    assert cases[k] !in cases[..k];
    forall i | 0 <= i < |bs|
      ensures bs[i].case_ != b.case_ || bs[i].repetition != b.repetition
    {
    }
    forall c, q | c in cases[..k] && 0 <= q < repetitions
      ensures HasBlock(now, c, q)
    {
      HasBlockGrows(bs, [b], c, q);
    }
    forall q | 0 <= q < r + 1
      ensures HasBlock(now, cases[k], q)
    {
      if q < r {
        HasBlockGrows(bs, [b], cases[k], q);
      } else {
        assert now[|bs|] == b;
      }
    }
  }

  lemma NextCase(bs: seq<Block>, cases: seq<Case>, k: nat, repetitions: nat)
    requires k < |cases| && Building(bs, cases, k, repetitions, repetitions)
    ensures Building(bs, cases, k + 1, repetitions, 0)
  {
    assert cases[..k + 1] == cases[..k] + [cases[k]];
    assert k * repetitions + repetitions == (k + 1) * repetitions;
  }

  lemma ShuffledBlocks(bs: seq<Block>, r: seq<Block>, cases: seq<Case>, repetitions: nat)
    requires BlocksOk(bs, cases, repetitions) && Shuffled(bs, r)
    ensures BlocksOk(r, cases, repetitions)
  {
    var p :| Rearranged(bs, r, p);
    forall i, j | 0 <= i < j < |r|
      ensures r[i].case_ != r[j].case_ || r[i].repetition != r[j].repetition
    {
      assert p[i] < p[j] || p[j] < p[i];
    }
    forall c, q | c in cases && 0 <= q < repetitions
      ensures HasBlock(r, c, q)
    {
      assert HasBlock(bs, c, q);
      var i :| 0 <= i < |bs| && bs[i].case_ == c && bs[i].repetition == q;
      assert Covers(p, i);
      var k :| 0 <= k < |p| && p[k] == i;
      assert r[k] == bs[i];
    }
  }

  method DrawOrder(draw: nat -> nat) returns (first: Arm, second: Arm)
    ensures first != second
  {
    var order := Shuffle([Direct, Native], draw);
    ghost var p :| Rearranged([Direct, Native], order, p);
    assert p[0] != p[1];
    first, second := order[0], order[1];
  }

  /** `build_plan`: the warm-ups, and the blocks behind the main plan. */
  method BuildPlan(cases: seq<Case>, repetitions: int, draws: nat -> nat -> nat)
    returns (ok: bool, warmups: seq<Trial>, plan: seq<Trial>, ghost blocks: seq<Block>)
    requires UniqueIds(cases)
    ensures ok <==> 1 <= repetitions <= 100
    ensures ok ==> BlocksOk(blocks, cases, repetitions) && plan == Flatten(blocks, |blocks|)
    ensures ok ==> |warmups| == 2 * |cases| && forall k :: 0 <= k < |cases| ==>
      && warmups[2 * k].arm != warmups[2 * k + 1].arm
      && warmups[2 * k] == Trial(warmups[2 * k].arm, cases[k], -1, true)
      && warmups[2 * k + 1] == Trial(warmups[2 * k + 1].arm, cases[k], -1, true)
  {
    warmups, plan, blocks := [], [], [];
    ok := 1 <= repetitions <= 100;
    if !ok {
      return;
    }
    var bs: seq<Block> := [];
    var drawn: nat := 0;
    for k := 0 to |cases|
      invariant Building(bs, cases, k, repetitions, 0)
      invariant |warmups| == 2 * k
      invariant forall i :: 0 <= i < k ==>
        && warmups[2 * i].arm != warmups[2 * i + 1].arm
        && warmups[2 * i] == Trial(warmups[2 * i].arm, cases[i], -1, true)
        && warmups[2 * i + 1] == Trial(warmups[2 * i + 1].arm, cases[i], -1, true)
    {
      var a, b := DrawOrder(draws(drawn));
      warmups := warmups + [Trial(a, cases[k], -1, true), Trial(b, cases[k], -1, true)];
      drawn := drawn + 1;
      bs := AddRepetitions(bs, cases, k, repetitions, draws, drawn);
      drawn := drawn + repetitions;
    }
    assert cases[..|cases|] == cases;
    var mixed := Shuffle(bs, draws(drawn));
    ShuffledBlocks(bs, mixed, cases, repetitions);
    blocks := mixed;
    plan := Flatten(mixed, |mixed|);
  }

  /** The inner loop over the repetitions of one case. */
  method AddRepetitions(bs0: seq<Block>, cases: seq<Case>, k: nat, repetitions: nat, draws: nat -> nat -> nat, drawn: nat)
    returns (bs: seq<Block>)
    requires UniqueIds(cases) && k < |cases| && Building(bs0, cases, k, repetitions, 0)
    ensures Building(bs, cases, k + 1, repetitions, 0)
  {
    bs := bs0;
    for r := 0 to repetitions
      invariant Building(bs, cases, k, repetitions, r)
    {
      var a, b := DrawOrder(draws(drawn + r));
      var block := Block(cases[k], r, a, b);
      BuildOne(bs, cases, k, repetitions, r, block);
      bs := bs + [block];
    }
    NextCase(bs, cases, k, repetitions);
  }

  /** The place of a trial in the plan. */
  lemma {:induction false} FlattenAt(bs: seq<Block>, k: nat, i: nat)
    requires i < k <= |bs|
    ensures Flatten(bs, k)[2 * i] == Trials(bs[i])[0] && Flatten(bs, k)[2 * i + 1] == Trials(bs[i])[1]
  {
    if i < k - 1 {
      FlattenAt(bs, k - 1, i);
    }
  }

  /** The trial of a case, a repetition and an arm stands at index `i`. */
  ghost predicate StandsAt(plan: seq<Trial>, i: nat, c: Case, r: int, arm: Arm) {
    i < |plan| && plan[i] == Trial(arm, c, r, false)
  }

  /** A trial of the plan stands in the block of its case and repetition, first or second by arm. */
  lemma {:induction false} StandsInItsBlock(bs: seq<Block>, cases: seq<Case>, repetitions: nat, k: nat, i: nat, arm: Arm)
    requires BlocksOk(bs, cases, repetitions) && k < |bs|
    requires StandsAt(Flatten(bs, |bs|), i, bs[k].case_, bs[k].repetition, arm)
    ensures i == if bs[k].first == arm then 2 * k else 2 * k + 1
  {
    var m := i / 2;
    FlattenAt(bs, |bs|, m);
    assert i == 2 * m || i == 2 * m + 1;
    assert bs[m].case_ == bs[k].case_ && bs[m].repetition == bs[k].repetition;
    assert BothArms(bs[k]) && BothArms(bs[m]);
  }

  /** Positions 2k and 2k + 1 hold the two arms of a case and repetition, and no other position
      holds either of them. */
  ghost predicate PairAt(plan: seq<Trial>, k: nat, c: Case, r: int) {
    && 2 * k + 1 < |plan| && plan[2 * k].arm != plan[2 * k + 1].arm
    && forall i: nat, arm :: StandsAt(plan, i, c, r, arm) <==> (i == 2 * k || i == 2 * k + 1) && plan[i].arm == arm
  }

  /** For every seed: each case, repetition and arm stands in the plan, at exactly one place, and the
      two arms of a pair stand next to each other. */
  lemma {:induction false} PlanCoversOnce(bs: seq<Block>, cases: seq<Case>, repetitions: nat, c: Case, r: int)
    requires BlocksOk(bs, cases, repetitions) && c in cases && 0 <= r < repetitions
    ensures exists k: nat :: PairAt(Flatten(bs, |bs|), k, c, r)
  {
    var plan := Flatten(bs, |bs|);
    assert HasBlock(bs, c, r);
    var k :| 0 <= k < |bs| && bs[k].case_ == c && bs[k].repetition == r;
    FlattenAt(bs, |bs|, k);
    assert BothArms(bs[k]);
    forall i: nat, arm
      ensures StandsAt(plan, i, c, r, arm) <==> (i == 2 * k || i == 2 * k + 1) && plan[i].arm == arm
    {
      if StandsAt(plan, i, c, r, arm) {
        StandsInItsBlock(bs, cases, repetitions, k, i, arm);
      }
    }
    assert PairAt(plan, k, c, r);
  }
}
