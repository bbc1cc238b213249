/**
 The native-only prerequisite checker, and its agreement with the records that the drivers leave.
 */
module Prerequisite {
  import opened Wrappers
  import opened ValidationRecord
  import opened ValidationProofs

  /** A record named by the review; `bound` tells whether its digest is the expected one. */
  datatype Record = Record(bound: bool, source: string, checks: seq<Check>)

  /** The checks of the first `k` records, in order. */
  function ChecksOfFirst(records: seq<Record>, k: nat): seq<Check>
    requires k <= |records|
  {
    if k == 0 then [] else ChecksOfFirst(records, k - 1) + records[k - 1].checks
  }

  function AllChecks(records: seq<Record>): seq<Check> {
    ChecksOfFirst(records, |records|)
  }

  function Containers(checks: seq<Check>): seq<Check> {
    if checks == [] then []
    else Containers(checks[..|checks| - 1]) + (if checks[|checks| - 1].name == ContainerAll then [checks[|checks| - 1]] else [])
  }

  /** Over all bound records: every required phase exactly once and passing, nothing else but
      container outcomes, and at least one of those. */
  ghost predicate Accepts(records: seq<Record>, source: string) {
    && records != []
    && (forall r :: r in records ==> r.bound && r.source == source)
    && EvidenceOk(AllChecks(records))
  }

  ghost predicate EvidenceOk(all: seq<Check>) {
    && NoDuplicates(all)
    && (forall i :: 0 <= i < |all| ==> Required(all[i].name) || all[i].name == ContainerAll)
    && (forall p :: Required(p) ==> Passed(all, p))
    && (exists i :: 0 <= i < |all| && all[i].name == ContainerAll)
  }

  ghost predicate NoDuplicates(all: seq<Check>) {
    forall i, j :: 0 <= i < j < |all| && all[i].name == all[j].name ==> all[i].name == ContainerAll
  }

  /** What the loops have gathered from the checks seen so far. */
  ghost predicate Gathered(seen: seq<Check>, checks: map<Name, Check>, optional: seq<Check>) {
    && NoDuplicates(seen)
    && (forall i :: 0 <= i < |seen| && seen[i].name != ContainerAll ==> seen[i].name in checks && checks[seen[i].name] == seen[i])
    && (forall n :: n in checks ==> n != ContainerAll && exists i :: 0 <= i < |seen| && seen[i].name == n)
    && optional == Containers(seen)
  }

  lemma GatherOne(seen: seq<Check>, checks: map<Name, Check>, optional: seq<Check>, c: Check)
    requires Gathered(seen, checks, optional) && (c.name == ContainerAll || c.name !in checks)
    ensures Gathered(seen + [c],
                     if c.name == ContainerAll then checks else checks[c.name := c],
                     if c.name == ContainerAll then optional + [c] else optional)
  {
    var now := seen + [c];
    assert now[..|seen|] == seen;
    var checks' := if c.name == ContainerAll then checks else checks[c.name := c];
    forall n | n in checks'
      ensures exists i :: 0 <= i < |now| && now[i].name == n
    {
      if n in checks {
        var i :| 0 <= i < |seen| && seen[i].name == n;
        assert now[i].name == n;
      } else {
        assert now[|seen|].name == n;
      }
    }
    forall i | 0 <= i < |now| && now[i].name != ContainerAll
      ensures now[i].name in checks' && checks'[now[i].name] == now[i]
    {
      if i < |seen| {
        assert now[i] == seen[i];
      }
    }
    forall i, j | 0 <= i < j < |now| && now[i].name == now[j].name
      ensures now[i].name == ContainerAll
    {
      assert now[i] == seen[i];
    }
  }

  /** A phase that was already gathered makes the evidence unacceptable. */
  lemma DuplicateRefuses(all: seq<Check>, k: nat, checks: map<Name, Check>, optional: seq<Check>)
    requires k < |all| && Gathered(all[..k], checks, optional) && all[k].name != ContainerAll && all[k].name in checks
    ensures !NoDuplicates(all)
  {
    var i :| 0 <= i < k && all[..k][i].name == all[k].name;
    assert all[i].name == all[k].name;
  }

  lemma {:induction false} FirstIsPrefix(records: seq<Record>, i: nat, k: nat)
    requires i <= k <= |records|
    ensures ChecksOfFirst(records, i) <= ChecksOfFirst(records, k)
  {
    if i < k {
      FirstIsPrefix(records, i, k - 1);
    }
  }

  /** The final assertions, on what was gathered from all checks. */
  lemma {:induction false} VerdictIsEvidence(all: seq<Check>, checks: map<Name, Check>, optional: seq<Check>)
    requires Gathered(all, checks, optional)
    ensures EvidenceOk(all) <==>
      && (forall n :: n in checks ==> Required(n))
      && (forall n :: Required(n) ==> n in checks && Pass(checks[n]))
      && optional != []
  {
    ContainersEmpty(all);
    if EvidenceOk(all) {
      forall n | Required(n)
        ensures n in checks && Pass(checks[n])
      {
        var i :| 0 <= i < |all| && all[i].name == n && Pass(all[i]);
        assert all[i].name in checks;
      }
    }
    if (forall n :: n in checks ==> Required(n)) && (forall n :: Required(n) ==> n in checks && Pass(checks[n])) {
      forall p | Required(p)
        ensures Passed(all, p)
      {
        var i :| 0 <= i < |all| && all[i].name == p;
        assert checks[p] == all[i];
      }
    }
  }

  lemma {:induction false} ContainersEmpty(all: seq<Check>)
    ensures Containers(all) != [] <==> exists i :: 0 <= i < |all| && all[i].name == ContainerAll
  {
    if all != [] {
      var front := all[..|all| - 1];
      ContainersEmpty(front);
      if i :| 0 <= i < |front| && front[i].name == ContainerAll {
        assert all[i].name == ContainerAll;
      }
      if i :| 0 <= i < |all| && all[i].name == ContainerAll {
        assert i < |front| ==> front[i].name == ContainerAll;
      }
    }
  }

  /** The inner loop: the checks of one record, after those of the records before it. */
  method GatherRecord(ghost base: seq<Check>, list: seq<Check>, checks0: map<Name, Check>, optional0: seq<Check>)
    returns (distinct: bool, checks: map<Name, Check>, optional: seq<Check>)
    requires Gathered(base, checks0, optional0)
    ensures distinct ==> Gathered(base + list, checks, optional)
    ensures !distinct ==> !NoDuplicates(base + list)
  {
    checks, optional := checks0, optional0;
    assert base + list[..0] == base;
    for j := 0 to |list|
      invariant Gathered(base + list[..j], checks, optional)
    {
      var check := list[j];
      assert base + list[..j] + [check] == base + list[..j + 1];
      if check.name == ContainerAll {
        GatherOne(base + list[..j], checks, optional, check);
        optional := optional + [check];
      } else {
        if check.name in checks {
          assert (base + list)[..|base| + j] == base + list[..j];
          DuplicateRefuses(base + list, |base| + j, checks, optional);
          return false, checks, optional;
        }
        GatherOne(base + list[..j], checks, optional, check);
        checks := checks[check.name := check];
      }
    }
    assert list[..|list|] == list;
    distinct := true;
  }

  /** The final assertions. */
  method Judge(checks: map<Name, Check>, optional: seq<Check>) returns (accepted: bool)
    ensures accepted <==>
      && (forall n :: n in checks ==> Required(n))
      && (forall n :: Required(n) ==> n in checks && Pass(checks[n]))
      && optional != []
  {
    accepted := forall n :: n in checks ==> Required(n);
    var k := 0;
    while k < PHASES
      invariant k <= PHASES
      invariant accepted <==>
        && (forall n :: n in checks ==> Required(n))
        && (forall n :: Required(n) && Rank(n) < k ==> n in checks && Pass(checks[n]))
    {
      var n := Phase(k);
      forall m: Name | !m.Unknown? && Rank(m) == k
        ensures m == n
      {
        RankInjective(m, n);
      }
      if k != CONTAINER_RANK && (n !in checks || !Pass(checks[n])) {
        RankInjective(n, n);
        accepted := false;
      }
      k := k + 1;
    }
    forall n | Required(n)
      ensures Rank(n) < PHASES
    {
      RankInjective(n, n);
    }
    accepted := accepted && optional != [];
  }

  lemma NoDuplicatesPrefix(part: seq<Check>, all: seq<Check>)
    requires part <= all
    ensures NoDuplicates(all) ==> NoDuplicates(part)
  {
    assert forall i :: 0 <= i < |part| ==> part[i] == all[i];
  }

  /** The whole of `validate`: it returns the retained container outcomes exactly when the evidence
      is acceptable. */
  method Validate(records: seq<Record>, source: string) returns (r: Option<seq<Check>>)
    ensures r.Some? <==> Accepts(records, source)
    ensures r.Some? ==> r.value == Containers(AllChecks(records))
  {
    if records == [] {
      return None;
    }
    var checks: map<Name, Check> := map[];
    var optional := [];
    for i := 0 to |records|
      invariant forall k :: 0 <= k < i ==> records[k].bound && records[k].source == source
      invariant Gathered(ChecksOfFirst(records, i), checks, optional)
    {
      assert records[i] in records;
      if !records[i].bound || records[i].source != source {
        return None;
      }
      var distinct;
      distinct, checks, optional := GatherRecord(ChecksOfFirst(records, i), records[i].checks, checks, optional);
      if !distinct {
        FirstIsPrefix(records, i + 1, |records|);
        NoDuplicatesPrefix(ChecksOfFirst(records, i + 1), AllChecks(records));
        return None;
      }
    }
    VerdictIsEvidence(AllChecks(records), checks, optional);
    var accepted := Judge(checks, optional);
    r := if accepted then Some(optional) else None;
  }

  // ---------------------------------------------------------------------------------------------
  // End to end
  // ---------------------------------------------------------------------------------------------

  ghost predicate RequiredFailure(checks: seq<Check>) {
    exists i :: 0 <= i < |checks| && Required(checks[i].name) && !Pass(checks[i])
  }

  ghost predicate ContainerRecorded(checks: seq<Check>) {
    exists i :: 0 <= i < |checks| && checks[i].name == ContainerAll
  }

  /**
   For every history of lives over one record, in which a successor reached its end: the checker
   accepts that record exactly when no required phase ever failed in it and some container outcome
   was recorded.
   */
  lemma {:induction false} SuccessorRecordAcceptedIff(lives: seq<Life>, source: string)
    requires var file := History(EMPTY, lives).file; file.Stored? && file.noncontainer
    ensures var checks := History(EMPTY, lives).file.checks;
      Accepts([Record(true, source, checks)], source) <==> !RequiredFailure(checks) && ContainerRecorded(checks)
  {
    var checks := History(EMPTY, lives).file.checks;
    EveryHistoryIsSound(lives);
    SingleRecord(checks, source);
    FinishedEvidence(checks);
  }

  lemma SingleRecord(checks: seq<Check>, source: string)
    ensures Accepts([Record(true, source, checks)], source) <==> EvidenceOk(checks)
  {
    var records := [Record(true, source, checks)];
    assert ChecksOfFirst(records, 1) == [] + checks;
    assert AllChecks(records) == checks;
  }

  lemma FinishedEvidence(checks: seq<Check>)
    requires ChecksOk(checks, false) && forall p :: Required(p) ==> Passed(checks, p)
    ensures EvidenceOk(checks) <==> !RequiredFailure(checks) && ContainerRecorded(checks)
  {
    if EvidenceOk(checks) {
      forall i | 0 <= i < |checks| && Required(checks[i].name)
        ensures Pass(checks[i])
      {
        var j :| 0 <= j < |checks| && checks[j].name == checks[i].name && Pass(checks[j]);
        assert i == j || i < j || j < i;
      }
    }
    if !RequiredFailure(checks) {
      forall i, j | 0 <= i < j < |checks| && checks[i].name == checks[j].name
        ensures checks[i].name == ContainerAll
      {
        assert !Pass(checks[i]);
      }
    }
  }
}
