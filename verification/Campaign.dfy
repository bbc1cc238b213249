/**
 The campaign from the validated cases to the verdict: plan, run, pair, bootstrap, classify.

 What a trial measures is arbitrary, and so are the draws behind the plan and behind the bootstrap.
 */
module Campaign {
  import opened Wrappers
  import opened CampaignPlan
  import opened CampaignPairs
  import opened CampaignStatistics

  datatype Report<M> = Report(trials: seq<Outcome<M>>, pairs: seq<Pair<M>>, interval: Interval, saved: int, status: Status)

  function Savings<M>(ps: seq<Pair<M>>, tokens: M -> int): (r: seq<real>)
    ensures |r| == |ps|
    ensures forall i :: 0 <= i < |ps| ==> r[i] == (tokens(ps[i].direct) - tokens(ps[i].native)) as real
  {
    seq(|ps|, i requires 0 <= i < |ps| => (tokens(ps[i].direct) - tokens(ps[i].native)) as real)
  }

  ghost predicate Saves<M>(p: Pair<M>, tokens: M -> int) {
    tokens(p.direct) > tokens(p.native)
  }

  /** Each trial is its own planned trial, measured as the run of just that one. */
  ghost predicate MeasuredAs<M(!new)>(plan: seq<Trial>, trials: seq<Outcome<M>>, run: nat -> Trial -> M) {
    Ran(plan, trials) && forall i :: 0 <= i < |plan| ==> trials[i].measured == run(i)(plan[i])
  }

  /** Each case, repetition and arm is planned at exactly one place, the two arms side by side. */
  ghost predicate IsPlan(plan: seq<Trial>, cases: seq<Case>, repetitions: nat) {
    && |plan| == |cases| * repetitions * 2
    && forall c, r :: c in cases && 0 <= r < repetitions ==> HasPair(plan, c, r)
  }

  ghost predicate HasPair(plan: seq<Trial>, c: Case, r: int) {
    exists k: nat :: PairAt(plan, k, c, r)
  }

  lemma {:induction false} BlocksArePlan(bs: seq<Block>, cases: seq<Case>, repetitions: nat)
    requires BlocksOk(bs, cases, repetitions)
    ensures IsPlan(Flatten(bs, |bs|), cases, repetitions)
  {
    forall c, r | c in cases && 0 <= r < repetitions
      ensures HasPair(Flatten(bs, |bs|), c, r)
    {
      PlanCoversOnce(bs, cases, repetitions, c, r);
    }
  }

  method RunTrials<M(!new)>(plan: seq<Trial>, run: nat -> Trial -> M) returns (trials: seq<Outcome<M>>)
    ensures MeasuredAs(plan, trials, run)
  {
    trials := [];
    for n := 0 to |plan|
      invariant |trials| == n
      invariant forall i :: 0 <= i < n ==>
        trials[i] == Outcome(Key(plan[i].case_.id, plan[i].repetition), plan[i].arm, run(i)(plan[i]))
    {
      var t := plan[n];
      trials := trials + [Outcome(Key(t.case_.id, t.repetition), t.arm, run(n)(t))];
    }
  }

  // ---------------------------------------------------------------------------------------------
  // The gates
  // ---------------------------------------------------------------------------------------------

  /** What the gates look at in a trial. */
  datatype Observed = Observed(completed: bool, correct: bool, expectedTool: bool, receipts: nat, exposed: nat)

  /** The six gates, in order; `preserved` tells whether the process to preserve lived before and after. */
  function Gates<M>(trials: seq<Outcome<M>>, pairs: nat, expected: nat, observe: M -> Observed, preserved: bool): seq<bool> {
    [|trials| == expected && pairs * 2 == expected,
     forall i :: 0 <= i < |trials| ==> observe(trials[i].measured).completed && observe(trials[i].measured).correct,
     forall i :: 0 <= i < |trials| ==> observe(trials[i].measured).expectedTool,
     forall i :: 0 <= i < |trials| && trials[i].arm == Native ==> observe(trials[i].measured).receipts == 1,
     forall i :: 0 <= i < |trials| && trials[i].arm == Native ==> observe(trials[i].measured).exposed <= 1,
     preserved]
  }

  /** A trial that keeps no gate from passing. */
  ghost predicate Sound<M>(t: Outcome<M>, observe: M -> Observed) {
    var o := observe(t.measured);
    o.completed && o.correct && o.expectedTool && (t.arm == Native ==> o.receipts == 1 && o.exposed <= 1)
  }

  /** With full coverage, the gates pass exactly when every trial is sound and the process was preserved. */
  lemma {:induction false} GatesPassIff<M>(trials: seq<Outcome<M>>, pairs: nat, observe: M -> Observed, preserved: bool)
    requires |trials| == pairs * 2
    ensures false !in Gates(trials, pairs, |trials|, observe, preserved)
       <==> preserved && forall i :: 0 <= i < |trials| ==> Sound(trials[i], observe)
  {
    var gates := Gates(trials, pairs, |trials|, observe, preserved);
    assert gates[0];
    assert false !in gates <==> gates[1] && gates[2] && gates[3] && gates[4] && gates[5];
  }

  /** What trials and pairs decide about a report. */
  ghost predicate VerdictFits<M>(r: Report<M>, tokens: M -> int, observe: M -> Observed, preserved: bool) {
    var passed := preserved && forall i :: 0 <= i < |r.trials| ==> Sound(r.trials[i], observe);
    && (r.status == InvalidCampaign <==> !passed)
    && (passed && (forall p :: p in r.pairs ==> Saves(p, tokens)) ==> r.status == DemonstratedSavings)
    && (passed && (forall p :: p in r.pairs ==> !Saves(p, tokens)) ==> r.status == NoDemonstratedSavings)
    && (r.status == DemonstratedSavings ==> exists p :: p in r.pairs && Saves(p, tokens))
    && (r.status == NoDemonstratedSavings ==> exists p :: p in r.pairs && !Saves(p, tokens))
  }

  lemma {:induction false} VerdictOfPairs<M>(r: Report<M>, tokens: M -> int, observe: M -> Observed, preserved: bool,
                                             draws: nat -> nat -> nat, n: nat)
    requires r.pairs != [] && |r.trials| == |r.pairs| * 2
    requires IsInterval(Savings(r.pairs, tokens), draws, n, r.interval)
    requires r.status == ClassifySavings(Gates(r.trials, |r.pairs|, |r.trials|, observe, preserved), r.interval)
    ensures VerdictFits(r, tokens, observe, preserved)
  {
    var values := Savings(r.pairs, tokens);
    VerdictFollowsThePairs(values, draws, n, r.interval, Gates(r.trials, |r.pairs|, |r.trials|, observe, preserved));
    GatesPassIff(r.trials, |r.pairs|, observe, preserved);
    forall x | x in values
      ensures exists p :: p in r.pairs && (Saves(p, tokens) <==> x > 0.0)
    {
      var i :| 0 <= i < |values| && values[i] == x;
      assert r.pairs[i] in r.pairs;
    }
  }

  /** The pairs save what the direct arm spent less what the native arm spent. */
  ghost predicate Conserved<M>(trials: seq<Outcome<M>>, pairs: seq<Pair<M>>, tokens: M -> int) {
    TotalSaved(pairs, tokens, |pairs|)
    == ArmTotal(trials, Direct, tokens, |trials|) - ArmTotal(trials, Native, tokens, |trials|)
  }

  /** The plan is run and paired; no draw and no outcome makes the pairing fail. */
  method PlanAndPair<M(!new)>(cases: seq<Case>, repetitions: int, draws: nat -> nat -> nat, run: nat -> Trial -> M, tokens: M -> int)
    returns (ok: bool, plan: seq<Trial>, trials: seq<Outcome<M>>, pairs: seq<Pair<M>>)
    requires UniqueIds(cases)
    ensures ok <==> 1 <= repetitions <= 100
    ensures ok ==> IsPlan(plan, cases, repetitions) && MeasuredAs(plan, trials, run)
    ensures ok ==> |trials| == |cases| * repetitions * 2 && |pairs| == |cases| * repetitions && Paired(trials, pairs)
    ensures ok ==> Conserved(trials, pairs, tokens)
  {
    trials, pairs := [], [];
    var planned, warmups, main, blocks := BuildPlan(cases, repetitions, draws);
    ok, plan := planned, main;
    if ok {
      BlocksArePlan(blocks, cases, repetitions);
      trials := RunTrials(plan, run);
      PlanIsComplete(blocks, cases, repetitions, trials);
      var paired := Pairs(trials);
      pairs := paired.value;
      SavingsAreConserved(blocks, cases, repetitions, trials, pairs, tokens);
    }
  }

  lemma SomeTrials(cases: seq<Case>, repetitions: int)
    requires cases != [] && repetitions >= 1
    ensures |cases| * repetitions >= 1
  {
  }

  /** `run_campaign`: it fails only on a bad repetition or resample count; otherwise the coverage gate
      passes, every key is paired, the reported saving is the difference of the arms' totals, and the
      verdict fits the trials and the pairs. */
  method RunCampaign<M(!new)>(cases: seq<Case>, repetitions: int, planDraws: nat -> nat -> nat, run: nat -> Trial -> M,
                        tokens: M -> int, observe: M -> Observed, preserved: bool,
                        sampleDraws: nat -> nat -> nat, resamples: int)
    returns (r: Option<Report<M>>, plan: seq<Trial>)
    requires ValidCases(cases)
    ensures r.Some? <==> 1 <= repetitions <= 100 && resamples >= 100
    ensures r.Some? ==>
      && IsPlan(plan, cases, repetitions) && MeasuredAs(plan, r.value.trials, run)
      && |r.value.trials| == |cases| * repetitions * 2
      && |r.value.pairs| == |cases| * repetitions
      && Paired(r.value.trials, r.value.pairs)
      && r.value.saved == ArmTotal(r.value.trials, Direct, tokens, |r.value.trials|)
                        - ArmTotal(r.value.trials, Native, tokens, |r.value.trials|)
      && VerdictFits(r.value, tokens, observe, preserved)
  {
    var ok, planned, trials, pairs := PlanAndPair(cases, repetitions, planDraws, run, tokens);
    plan := planned;
    if !ok {
      return None, plan;
    }
    SomeTrials(cases, repetitions);
    var expected := |cases| * repetitions * 2;
    var gates := Gates(trials, |pairs|, expected, observe, preserved);
    var interval := Bootstrap(Savings(pairs, tokens), sampleDraws, resamples);
    if interval.None? {
      return None, plan;
    }
    var report := Report(trials, pairs, interval.value, TotalSaved(pairs, tokens, |pairs|),
      ClassifySavings(gates, interval.value));
    VerdictOfPairs(report, tokens, observe, preserved, sampleDraws, resamples);
    return Some(report), plan;
  }
}
