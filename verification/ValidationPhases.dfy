/**
 What a phase leaves behind under each fate, what alone can wedge one, and a history that the
 prerequisite checker accepts.
 */
module ValidationPhases {
  import opened Wrappers
  import opened ValidationRecord
  import opened ValidationProofs
  import opened Prerequisite

  // ---------------------------------------------------------------------------------------------
  // A phase that ran to its end is recorded
  // ---------------------------------------------------------------------------------------------

  /** The phase ended and its record was written; the process may have died after that. */
  predicate Ended(fate: Fate) {
    fate.Ran? || fate.KilledAfterWrite?
  }

  /** A phase that had not passed, with its next log free, and that ran to its end, passing or not, leaves
      exactly one more check, in memory and in the file: its exit, whether the source stayed the same, and
      the next attempt number.  The process goes on exactly after a pass. */
  lemma {:induction false} EndedPhaseIsRecorded(p: Progress, n: Name, fate: Fate)
    requires !Passed(p.checks, n) && (n, 1 + Count(p.checks, n)) !in p.disk.logs && Ended(fate)
    ensures var r := RunPhase(p.disk, p.checks, n, fate);
      && r.checks == p.checks + [Check(n, fate.exit, fate.same, 1 + Count(p.checks, n))]
      && r.disk.file == Stored(r.checks, false, false)
      && r.disk.logs == p.disk.logs + {(n, 1 + Count(p.checks, n))}
      && (r.alive <==> fate.Ran? && fate.exit == Some(0) && fate.same)
  {
  }

  /** A phase that passed before is not run again: nothing changes on disk. */
  lemma {:induction false} PassedPhaseIsRetained(p: Progress, n: Name, fate: Fate)
    requires Passed(p.checks, n)
    ensures var r := RunPhase(p.disk, p.checks, n, fate);
      r.disk == p.disk && r.checks == p.checks && (r.alive <==> fate.Ran?)
  {
  }

  /** A wedged phase stops the process and changes nothing. */
  lemma {:induction false} WedgedPhaseStops(p: Progress, n: Name, fate: Fate)
    requires p.checks == ChecksOf(p.disk.file) && Wedged(p.disk, n)
    ensures RunPhase(p.disk, p.checks, n, fate) == p.(alive := false)
  {
  }

  // ---------------------------------------------------------------------------------------------
  // What wedges a phase
  // ---------------------------------------------------------------------------------------------

  /** No log is further than one attempt ahead of the checks of a readable record. */
  ghost predicate LogsOk(disk: Disk) {
    disk.file.Corrupt? || forall n, a :: (n, a) in disk.logs ==> a <= 1 + Count(ChecksOf(disk.file), n)
  }

  lemma {:induction false} RunPhaseKeepsLogs(p: Progress, n: Name, fate: Fate, r: Progress)
    requires p.checks == ChecksOf(p.disk.file) && !p.disk.file.Corrupt? && LogsOk(p.disk)
    requires r == RunPhase(p.disk, p.checks, n, fate)
    ensures LogsOk(r.disk) && (r.alive ==> r.checks == ChecksOf(r.disk.file) && !r.disk.file.Corrupt?)
  {
    if r.disk.file.Stored? && r.checks != p.checks {
      var c := r.checks[|p.checks|];
      forall m, a | (m, a) in r.disk.logs
        ensures a <= 1 + Count(r.checks, m)
      {
        CountGrows(p.checks, c, m);
      }
    }
  }

  /** In a readable record an unwedged phase becomes wedged only by being killed while it runs, and then
      it does. */
  lemma {:induction false} WedgedOnlyByKill(p: Progress, n: Name, fate: Fate, r: Progress, m: Name)
    requires p.checks == ChecksOf(p.disk.file) && !p.disk.file.Corrupt? && LogsOk(p.disk)
    requires r == RunPhase(p.disk, p.checks, n, fate) && !r.disk.file.Corrupt? && !Wedged(p.disk, m)
    ensures Wedged(r.disk, m) <==> m == n && fate.KilledInRun? && !Passed(p.checks, n)
  {
    if !fate.Refused? && !Passed(p.checks, n) && Ended(fate) && (n, 1 + Count(p.checks, n)) !in p.disk.logs {
      var c := Check(n, fate.exit, fate.same, 1 + Count(p.checks, n));
      EndedPhaseIsRecorded(p, n, fate);
      CountGrows(p.checks, c, m);
      PassedGrows(p.checks, c, m);
    }
  }

  lemma {:induction false} RunFromWedges(life: Life, p: Progress, k: nat, r: Progress, m: Name)
    requires k <= Phases(life.successor) && r == RunFrom(life, p, k)
    requires p.alive ==> p.checks == ChecksOf(p.disk.file) && !p.disk.file.Corrupt?
    requires LogsOk(p.disk)
    ensures LogsOk(r.disk)
    ensures !Wedged(p.disk, m) && Wedged(r.disk, m) && !r.disk.file.Corrupt? ==>
      exists j :: k <= j < Phases(life.successor) && PhaseOf(life.successor, j) == m && life.fates(j).KilledInRun?
    decreases Phases(life.successor) - k
  {
    if p.alive && k < Phases(life.successor) {
      var n := PhaseOf(life.successor, k);
      var next := RunPhase(p.disk, p.checks, n, life.fates(k));
      RunPhaseKeepsLogs(p, n, life.fates(k), next);
      RunFromWedges(life, next, k + 1, r, m);
      if !next.disk.file.Corrupt? && !Wedged(p.disk, m) {
        WedgedOnlyByKill(p, n, life.fates(k), next, m);
      }
      if next.disk.file.Corrupt? {
        assert r == next;
      }
    }
  }

  lemma {:induction false} FinishKeepsChecks(life: Life, p: Progress)
    ensures var d := Finish(life, p);
      d.file.Corrupt? || (d.logs == p.disk.logs && ChecksOf(d.file) == ChecksOf(p.disk.file) && !p.disk.file.Corrupt?)
  {
  }

  lemma {:induction false} SameChecks(d: Disk, r: Disk, m: Name)
    requires !d.file.Corrupt? && !r.file.Corrupt? && d.logs == r.logs && ChecksOf(d.file) == ChecksOf(r.file)
    ensures (Wedged(d, m) <==> Wedged(r, m)) && (LogsOk(d) <==> LogsOk(r))
  {
  }

  /** Over a whole life of either program: a phase that was not wedged before and is wedged after it, in a
      readable record, was killed while it ran. */
  lemma {:induction false} LifeWedgesOnlyByKill(disk: Disk, life: Life, m: Name)
    requires LogsOk(disk)
    ensures LogsOk(Live(disk, life))
    ensures !Wedged(disk, m) && Wedged(Live(disk, life), m) && !Live(disk, life).file.Corrupt? ==>
      exists j :: 0 <= j < Phases(life.successor) && PhaseOf(life.successor, j) == m && life.fates(j).KilledInRun?
  {
    if life.authorized && !disk.file.Corrupt? && !(disk.file.Stored? && disk.file.complete) {
      var start := Progress(disk, ChecksOf(disk.file), true);
      var end := RunFrom(life, start, 0);
      RunFromWedges(life, start, 0, end, m);
      FinishKeepsChecks(life, end);
      var d := Finish(life, end);
      assert Live(disk, life) == d;
      if !d.file.Corrupt? {
        SameChecks(end.disk, d, m);
      }
    }
  }

  lemma {:induction false} HistoryKeepsLogs(disk: Disk, lives: seq<Life>)
    requires LogsOk(disk)
    ensures LogsOk(History(disk, lives))
    decreases |lives|
  {
    if lives != [] {
      LifeWedgesOnlyByKill(disk, lives[0], Compileall);
      HistoryKeepsLogs(Live(disk, lives[0]), lives[1..]);
    }
  }

  /** The same in every history. */
  lemma {:induction false} HistoryWedgesOnlyByKill(lives: seq<Life>, life: Life, m: Name)
    requires var disk := History(EMPTY, lives); !Wedged(disk, m) && Wedged(Live(disk, life), m) && !Live(disk, life).file.Corrupt?
    ensures exists j :: 0 <= j < Phases(life.successor) && PhaseOf(life.successor, j) == m && life.fates(j).KilledInRun?
  {
    HistoryKeepsLogs(EMPTY, lives);
    LifeWedgesOnlyByKill(History(EMPTY, lives), life, m);
  }

  /** A complete record, an unreadable one and a life that is not authorized leave the disk alone. */
  lemma {:induction false} NothingToDo(disk: Disk, life: Life)
    requires !life.authorized || disk.file.Corrupt? || (disk.file.Stored? && disk.file.complete)
    ensures Live(disk, life) == disk
  {
  }

  // ---------------------------------------------------------------------------------------------
  // Acceptance, by counting
  // ---------------------------------------------------------------------------------------------

  lemma {:induction false} CountCases(checks: seq<Check>, k: nat, n: Name)
    requires k <= |checks|
    ensures CountIn(checks, k, n) == 0 <==> forall i :: 0 <= i < k ==> checks[i].name != n
    ensures CountIn(checks, k, n) <= 1 <==> forall i, j :: 0 <= i < j < k ==> checks[i].name != n || checks[j].name != n
  {
    if k > 0 {
      CountCases(checks, k - 1, n);
    }
  }

  /** Each required phase occurs once and passed, the container phase at least once, and nothing else. */
  ghost predicate RightCounts(checks: seq<Check>) {
    forall n ::
      if Required(n) then Count(checks, n) == 1 && Passed(checks, n)
      else if n == ContainerAll then Count(checks, n) >= 1
      else Count(checks, n) == 0
  }

  lemma {:induction false} EvidenceIffCounts(checks: seq<Check>)
    ensures EvidenceOk(checks) <==> RightCounts(checks)
  {
    if EvidenceOk(checks) {
      CountsOfEvidence(checks);
    }
    if RightCounts(checks) {
      EvidenceOfCounts(checks);
    }
  }

  lemma {:induction false} CountsOfEvidence(checks: seq<Check>)
    requires EvidenceOk(checks)
    ensures RightCounts(checks)
  {
    forall n
      ensures if Required(n) then Count(checks, n) == 1 && Passed(checks, n)
              else if n == ContainerAll then Count(checks, n) >= 1 else Count(checks, n) == 0
    {
      CountCases(checks, |checks|, n);
    }
  }

  lemma {:induction false} EvidenceOfCounts(checks: seq<Check>)
    requires RightCounts(checks)
    ensures EvidenceOk(checks)
  {
    forall i, j | 0 <= i < j < |checks| && checks[i].name == checks[j].name
      ensures checks[i].name == ContainerAll
    {
      var n := checks[i].name;
      CountCases(checks, |checks|, n);
      assert Count(checks, n) >= 2;
    }
    forall i | 0 <= i < |checks|
      ensures Required(checks[i].name) || checks[i].name == ContainerAll
    {
      CountCases(checks, |checks|, checks[i].name);
      assert Count(checks, checks[i].name) >= 1;
    }
    CountCases(checks, |checks|, ContainerAll);
    assert Count(checks, ContainerAll) >= 1;
    forall p | Required(p)
      ensures Passed(checks, p)
    {
      assert Count(checks, p) == 1;
    }
  }

  /** The records are accepted if and only if there is one at least, all are bound to the source, and the
      phases occur in them together as often as they must. */
  lemma {:induction false} AcceptsIffCounts(records: seq<Record>, source: string)
    ensures Accepts(records, source) <==>
      records != [] && (forall r :: r in records ==> r.bound && r.source == source) && RightCounts(AllChecks(records))
  {
    EvidenceIffCounts(AllChecks(records));
  }

  // ---------------------------------------------------------------------------------------------
  // A history that is accepted
  // ---------------------------------------------------------------------------------------------

  /** A running process over a record in which no required phase failed and nothing is wedged. */
  ghost predicate Healthy(p: Progress) {
    && p.alive && p.checks == ChecksOf(p.disk.file) && NothingWedged(p.disk) && !RequiredFailure(p.checks)
    && !p.disk.file.Corrupt? && (p.disk.file.Stored? ==> !p.disk.file.complete) && LogsOk(p.disk)
  }

  /** A phase that passes, or passed before, keeps it so, and no check is lost. */
  lemma {:induction false} PassingPhaseIsHealthy(p: Progress, n: Name, r: Progress)
    requires Healthy(p) && !n.Unknown? && r == RunPhase(p.disk, p.checks, n, Ran(Some(0), true))
    ensures Healthy(r) && p.checks <= r.checks && Passed(r.checks, n)
    ensures forall m :: Passed(r.checks, m) ==> Passed(p.checks, m) || m == n
  {
    CleanPhase(p, n);
    RunPhaseKeepsLogs(p, n, Ran(Some(0), true), r);
    if Passed(p.checks, n) {
      PassedPhaseIsRetained(p, n, Ran(Some(0), true));
      assert r == p;
    } else {
      assert !Wedged(p.disk, n);
      EndedPhaseIsRecorded(p, n, Ran(Some(0), true));
      forall m
        ensures Passed(r.checks, m) ==> Passed(p.checks, m) || m == n
      {
        PassedGrows(p.checks, r.checks[|p.checks|], m);
      }
    }
  }

  /** The fates of a life between two steps are passes. */
  ghost predicate PassesFrom(life: Life, k: nat, stop: nat) {
    forall j :: k <= j < stop ==> life.fates(j) == Ran(Some(0), true)
  }

  lemma {:induction false} PassingRunIsHealthy(life: Life, p: Progress, k: nat, stop: nat) returns (r: Progress)
    requires k <= stop <= Phases(life.successor) && Healthy(p) && PassesFrom(life, k, stop)
    ensures Healthy(r) && p.checks <= r.checks && RunFrom(life, p, k) == RunFrom(life, r, stop)
    ensures k < stop ==> r.checks != []
    ensures forall m :: Passed(r.checks, m) ==> Passed(p.checks, m) || exists j :: k <= j < stop && PhaseOf(life.successor, j) == m
    decreases stop - k
  {
    r := p;
    if k < stop {
      var n := PhaseOf(life.successor, k);
      var next := RunPhase(p.disk, p.checks, n, life.fates(k));
      PassingPhaseIsHealthy(p, n, next);
      r := PassingRunIsHealthy(life, next, k + 1, stop);
    }
  }

  /** A driver life that passes every phase up to the container phase and fails there. */
  ghost predicate FailsAtContainer(life: Life, exit: Option<int>, same: bool) {
    && !life.successor && life.authorized && PassesFrom(life, 0, CONTAINER_RANK)
    && life.fates(CONTAINER_RANK) == Ran(exit, same) && !(exit == Some(0) && same)
  }

  /** A successor life in which every phase passes. */
  ghost predicate Succeeds(life: Life) {
    life.successor && life.authorized && PassesFrom(life, 0, Phases(true)) && life.end.Finishes?
  }

  /** The failed container phase ends the driver's life and is recorded; nothing is wedged. */
  lemma {:induction false} ContainerFailureIsKept(life: Life, p: Progress, exit: Option<int>, same: bool)
    requires FailsAtContainer(life, exit, same) && Healthy(p) && !Passed(p.checks, ContainerAll)
    ensures var d := Finish(life, RunFrom(life, p, CONTAINER_RANK));
      && d.file.Stored? && !d.file.complete && NothingWedged(d)
      && !RequiredFailure(d.file.checks) && ContainerRecorded(d.file.checks)
  {
    var n := ContainerAll;
    var c := Check(n, exit, same, 1 + Count(p.checks, n));
    var next := RunPhase(p.disk, p.checks, n, Ran(exit, same));
    assert PhaseOf(false, CONTAINER_RANK) == n;
    assert !Wedged(p.disk, n);
    EndedPhaseIsRecorded(p, n, Ran(exit, same));
    assert RunFrom(life, p, CONTAINER_RANK) == RunFrom(life, next, CONTAINER_RANK + 1) == next;
    assert Finish(life, next) == next.disk;
    assert next.checks[|p.checks|] == c;
    forall i | 0 <= i < |next.checks| && Required(next.checks[i].name)
      ensures Pass(next.checks[i])
    {
      assert next.checks[i] == p.checks[i];
    }
    FailedAttemptFreesTheNext(p, n, Ran(exit, same), next);
  }

  /** A recorded failure leaves no phase wedged: the next attempt has a log of its own. */
  lemma {:induction false} FailedAttemptFreesTheNext(p: Progress, n: Name, fate: Fate, r: Progress)
    requires p.checks == ChecksOf(p.disk.file) && !p.disk.file.Corrupt? && LogsOk(p.disk) && NothingWedged(p.disk)
    requires r == RunPhase(p.disk, p.checks, n, fate) && !r.disk.file.Corrupt? && Ended(fate)
    ensures NothingWedged(r.disk)
  {
    forall m: Name | !m.Unknown?
      ensures !Wedged(r.disk, m)
    {
      WedgedOnlyByKill(p, n, fate, r, m);
    }
  }

  lemma {:induction false} DriverLeavesContainerFailure(driver: Life, exit: Option<int>, same: bool)
    requires FailsAtContainer(driver, exit, same)
    ensures var d := Live(EMPTY, driver);
      && d.file.Stored? && !d.file.complete && NothingWedged(d) && LogsOk(d)
      && !RequiredFailure(d.file.checks) && ContainerRecorded(d.file.checks)
  {
    var start := Progress(EMPTY, [], true);
    assert Healthy(start);
    var p := PassingRunIsHealthy(driver, start, 0, CONTAINER_RANK);
    assert forall j :: 0 <= j < CONTAINER_RANK ==> Rank(PhaseOf(false, j)) == j;
    assert !Passed(p.checks, ContainerAll);
    ContainerFailureIsKept(driver, p, exit, same);
    assert Live(EMPTY, driver) == Finish(driver, RunFrom(driver, start, 0));
    LifeWedgesOnlyByKill(EMPTY, driver, Compileall);
  }

  lemma {:induction false} SuccessorFinishes(d: Disk, successor: Life)
    requires d.file.Stored? && !d.file.complete && NothingWedged(d) && LogsOk(d) && Succeeds(successor)
    requires !RequiredFailure(d.file.checks) && ContainerRecorded(d.file.checks)
    ensures var r := Live(d, successor);
      && r.file.Stored? && r.file.noncontainer
      && !RequiredFailure(r.file.checks) && ContainerRecorded(r.file.checks)
  {
    var start := Progress(d, d.file.checks, true);
    assert Healthy(start);
    var end := PassingRunIsHealthy(successor, start, 0, Phases(true));
    assert RunFrom(successor, start, 0) == end;
    assert Live(d, successor) == Finish(successor, end);
    var i :| 0 <= i < |d.file.checks| && d.file.checks[i].name == ContainerAll;
    assert end.checks[i].name == ContainerAll;
  }

  /** End to end: a driver that fails at the container phase and there only, and a successor in which every
      phase passes, leave a record that the prerequisite checker accepts. */
  lemma {:induction false} ContainerFailureThenSuccessorIsAccepted(driver: Life, successor: Life, exit: Option<int>, same: bool, source: string)
    requires FailsAtContainer(driver, exit, same) && Succeeds(successor)
    ensures var file := History(EMPTY, [driver, successor]).file;
      file.Stored? && file.noncontainer && Accepts([Record(true, source, file.checks)], source)
  {
    DriverLeavesContainerFailure(driver, exit, same);
    SuccessorFinishes(Live(EMPTY, driver), successor);
    TwoLives(driver, successor);
    SuccessorRecordAcceptedIff([driver, successor], source);
  }

  lemma {:induction false} TwoLives(a: Life, b: Life)
    ensures History(EMPTY, [a, b]) == Live(Live(EMPTY, a), b)
  {
    assert [a, b][1..] == [b] && [b][1..] == [];
    assert History(Live(EMPTY, a), [b]) == History(Live(Live(EMPTY, a), b), []);
  }
}
