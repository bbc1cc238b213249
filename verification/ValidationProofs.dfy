/**
 What every history of driver and successor lives keeps, and when the prerequisite checker accepts
 the record they leave behind.
 */
module ValidationProofs {
  import opened Wrappers
  import opened ValidationRecord

  // ---------------------------------------------------------------------------------------------
  // The invariant of the record
  // ---------------------------------------------------------------------------------------------

  /** Attempts of a phase are numbered 1, 2, 3, ... in the order in which they are recorded. */
  ghost predicate Numbered(checks: seq<Check>) {
    forall i :: 0 <= i < |checks| ==> checks[i].attempt == 1 + CountIn(checks, i, checks[i].name)
  }

  /** Nothing is recorded for a phase after it passed. */
  ghost predicate PassIsLast(checks: seq<Check>) {
    forall i, j :: 0 <= i < j < |checks| && checks[i].name == checks[j].name ==> !Pass(checks[i])
  }

  /** `p` comes before `n`; unless `strict`, the container phase does not count. */
  ghost predicate Before(p: Name, n: Name, strict: bool) {
    !p.Unknown? && Rank(p) < Rank(n) && (strict || p != ContainerAll)
  }

  /** A phase is recorded only when all earlier phases have passed. */
  ghost predicate InOrder(checks: seq<Check>, strict: bool) {
    forall i, p {:trigger PassedIn(checks, i, p)} :: 0 <= i < |checks| && Before(p, checks[i].name, strict) ==> PassedIn(checks, i, p)
  }

  ghost predicate ChecksOk(checks: seq<Check>, strict: bool) {
    && Numbered(checks) && PassIsLast(checks) && InOrder(checks, strict)
    && forall i :: 0 <= i < |checks| ==> !checks[i].name.Unknown?
  }

  ghost predicate FileOk(file: File, strict: bool) {
    file.Stored? ==>
      && ChecksOk(file.checks, strict)
      && (file.complete ==> forall p: Name :: !p.Unknown? ==> Passed(file.checks, p))
      && (file.noncontainer ==> forall p: Name :: Required(p) ==> Passed(file.checks, p))
  }

  lemma PassedGrows(checks: seq<Check>, c: Check, p: Name)
    ensures Passed(checks + [c], p) <==> Passed(checks, p) || (c.name == p && Pass(c))
  {
    var now := checks + [c];
    if i :| 0 <= i < |checks| && checks[i].name == p && Pass(checks[i]) {
      assert now[i] == checks[i];
    }
    if c.name == p && Pass(c) {
      assert now[|checks|] == c;
    }
  }

  lemma {:induction false} CountInPrefix(checks: seq<Check>, c: Check, k: nat, n: Name)
    requires k <= |checks|
    ensures CountIn(checks + [c], k, n) == CountIn(checks, k, n)
  {
    if k > 0 {
      CountInPrefix(checks, c, k - 1, n);
    }
  }

  lemma PassedInPrefix(checks: seq<Check>, c: Check, k: nat, n: Name)
    requires k <= |checks|
    ensures PassedIn(checks + [c], k, n) <==> PassedIn(checks, k, n)
  {
    assert forall i :: 0 <= i < k ==> (checks + [c])[i] == checks[i];
  }

  lemma {:induction false} AppendKeeps(checks: seq<Check>, c: Check, strict: bool)
    requires ChecksOk(checks, strict) && !Passed(checks, c.name) && !c.name.Unknown?
    requires c.attempt == 1 + Count(checks, c.name)
    requires forall p :: Before(p, c.name, strict) ==> Passed(checks, p)
    ensures ChecksOk(checks + [c], strict)
  {
    AppendNumbered(checks, c);
    AppendInOrder(checks, c, strict);
  }

  lemma {:induction false} AppendNumbered(checks: seq<Check>, c: Check)
    requires Numbered(checks) && c.attempt == 1 + Count(checks, c.name)
    ensures Numbered(checks + [c])
  {
    var now := checks + [c];
    forall i | 0 <= i < |now|
      ensures now[i].attempt == 1 + CountIn(now, i, now[i].name)
    {
      CountInPrefix(checks, c, i, now[i].name);
    }
  }

  lemma {:induction false} AppendInOrder(checks: seq<Check>, c: Check, strict: bool)
    requires InOrder(checks, strict) && forall p :: Before(p, c.name, strict) ==> Passed(checks, p)
    ensures InOrder(checks + [c], strict)
  {
    var now := checks + [c];
    forall i, p | 0 <= i < |now| && Before(p, now[i].name, strict)
      ensures PassedIn(now, i, p)
    {
      assert i < |checks| ==> PassedIn(checks, i, p) by {
        assert i < |checks| ==> now[i] == checks[i];
      }
      PassedInPrefix(checks, c, i, p);
    }
  }

  // ---------------------------------------------------------------------------------------------
  // Every life keeps it
  // ---------------------------------------------------------------------------------------------

  /** The running process and the disk agree. */
  ghost predicate ProgressOk(p: Progress, strict: bool) {
    && FileOk(p.disk.file, strict)
    && (p.alive ==> p.checks == ChecksOf(p.disk.file) && !p.disk.file.Corrupt? && (p.disk.file.Stored? ==> !p.disk.file.complete))
  }

  /** All phases before step `k` of this life have passed. */
  ghost predicate Reached(life: Life, p: Progress, k: nat) {
    forall q: Name :: !q.Unknown? && Rank(q) < RankAt(life.successor, k) && !(life.successor && q == ContainerAll) ==>
      Passed(p.checks, q)
  }

  /** The next phase is the only one that `Reached` gains. */
  lemma ReachedNext(life: Life, p: Progress, r: Progress, k: nat, n: Name)
    requires k < Phases(life.successor) && !n.Unknown? && Rank(n) == RankAt(life.successor, k)
    requires Reached(life, p, k) && Passed(r.checks, n)
    requires forall q :: Passed(p.checks, q) ==> Passed(r.checks, q)
    ensures Reached(life, r, k + 1)
  {
    forall q: Name | !q.Unknown? && Rank(q) < RankAt(life.successor, k + 1) && !(life.successor && q == ContainerAll)
      ensures Passed(r.checks, q)
    {
      RankInjective(q, n);
    }
  }

  /** A check is recorded; the process may die right after. */
  lemma {:induction false} RecordedKeeps(life: Life, p: Progress, k: nat, disk: Disk, c: Check, r: Progress, strict: bool)
    requires k < Phases(life.successor) && (strict ==> !life.successor)
    requires !c.name.Unknown? && Rank(c.name) == RankAt(life.successor, k)
    requires ChecksOk(p.checks, strict) && Reached(life, p, k)
    requires !Passed(p.checks, c.name) && c.attempt == 1 + Count(p.checks, c.name)
    requires var recorded := Recorded(disk, p.checks, c); r == recorded || r == recorded.(alive := false)
    ensures ProgressOk(r, strict) && (r.alive ==> Reached(life, r, k + 1))
  {
    RankInjective(c.name, c.name);
    AppendKeeps(p.checks, c, strict);
    forall q ensures Passed(p.checks + [c], q) <==> Passed(p.checks, q) || (c.name == q && Pass(c)) {
      PassedGrows(p.checks, c, q);
    }
    if Pass(c) {
      ReachedNext(life, p, r, k, c.name);
    }
  }

  /** A phase that passed before is not run again. */
  lemma {:induction false} RetainedKeeps(life: Life, p: Progress, k: nat, n: Name, r: Progress, strict: bool)
    requires k < Phases(life.successor) && !n.Unknown? && Rank(n) == RankAt(life.successor, k)
    requires ProgressOk(p, strict) && p.alive && Reached(life, p, k) && Passed(p.checks, n)
    requires r == p || r == p.(alive := false)
    ensures ProgressOk(r, strict) && (r.alive ==> Reached(life, r, k + 1))
  {
    ReachedNext(life, p, r, k, n);
  }

  /** What a phase does: nothing but going on or dying after an earlier pass, a record, or a death
      without one. */
  ghost predicate PhaseOutcome(p: Progress, n: Name, r: Progress) {
    || (Passed(p.checks, n) && (r == p || r == p.(alive := false)))
    || (exists disk, c :: RecordedAs(p, n, disk, c, r))
    || (!r.alive && (r.disk.file == p.disk.file || r.disk.file.Corrupt?))
  }

  ghost predicate RecordedAs(p: Progress, n: Name, disk: Disk, c: Check, r: Progress) {
    && !Passed(p.checks, n) && c.name == n && c.attempt == 1 + Count(p.checks, n)
    && var recorded := Recorded(disk, p.checks, c); r == recorded || r == recorded.(alive := false)
  }

  lemma {:induction false} RunPhaseOutcome(p: Progress, n: Name, fate: Fate)
    requires p.alive
    ensures PhaseOutcome(p, n, RunPhase(p.disk, p.checks, n, fate))
    ensures !Passed(p.checks, n) && (n, 1 + Count(p.checks, n)) !in p.disk.logs && (fate.Ran? || fate.KilledAfterWrite?) ==>
      RunPhase(p.disk, p.checks, n, fate).checks == p.checks + [Check(n, fate.exit, fate.same, 1 + Count(p.checks, n))]
  {
    var r := RunPhase(p.disk, p.checks, n, fate);
    var attempt := 1 + Count(p.checks, n);
    if !fate.Refused? && !Passed(p.checks, n) && (n, attempt) !in p.disk.logs && (fate.Ran? || fate.KilledAfterWrite?) {
      assert RecordedAs(p, n, p.disk.(logs := p.disk.logs + {(n, attempt)}), Check(n, fate.exit, fate.same, attempt), r);
    }
  }

  lemma {:induction false} OutcomeKeeps(life: Life, p: Progress, k: nat, n: Name, r: Progress, strict: bool)
    requires k < Phases(life.successor) && (strict ==> !life.successor)
    requires !n.Unknown? && Rank(n) == RankAt(life.successor, k)
    requires ProgressOk(p, strict) && p.alive && Reached(life, p, k) && PhaseOutcome(p, n, r)
    ensures ProgressOk(r, strict) && (r.alive ==> Reached(life, r, k + 1))
  {
    if Passed(p.checks, n) && (r == p || r == p.(alive := false)) {
      RetainedKeeps(life, p, k, n, r, strict);
    } else if disk, c :| RecordedAs(p, n, disk, c, r) {
      RecordedKeeps(life, p, k, disk, c, r, strict);
    } else {
      StoppedKeeps(p, r, strict);
    }
  }

  lemma {:induction false} RunPhaseKeeps(life: Life, p: Progress, k: nat, n: Name, strict: bool)
    requires k < Phases(life.successor) && (strict ==> !life.successor)
    requires !n.Unknown? && Rank(n) == RankAt(life.successor, k)
    requires ProgressOk(p, strict) && p.alive && Reached(life, p, k)
    ensures var r := RunPhase(p.disk, p.checks, n, life.fates(k));
      ProgressOk(r, strict) && (r.alive ==> Reached(life, r, k + 1))
  {
    RunPhaseOutcome(p, n, life.fates(k));
    OutcomeKeeps(life, p, k, n, RunPhase(p.disk, p.checks, n, life.fates(k)), strict);
  }

  /** A process that dies without a record leaves the record as it was, or unreadable. */
  lemma {:induction false} StoppedKeeps(p: Progress, r: Progress, strict: bool)
    requires ProgressOk(p, strict) && !r.alive && (r.disk.file == p.disk.file || r.disk.file.Corrupt?)
    ensures ProgressOk(r, strict)
  {
  }

  lemma RankInjective(p: Name, q: Name)
    requires !p.Unknown? && !q.Unknown?
    ensures Rank(p) == Rank(q) ==> p == q
    ensures Rank(p) < PHASES && (Rank(p) == CONTAINER_RANK <==> p == ContainerAll)
  {
  }

  lemma {:induction false} RunFromNext(life: Life, p: Progress, k: nat, next: Progress)
    requires p.alive && k < Phases(life.successor)
    requires next == RunPhase(p.disk, p.checks, PhaseOf(life.successor, k), life.fates(k))
    ensures RunFrom(life, p, k) == RunFrom(life, next, k + 1)
    ensures PhaseOutcome(p, PhaseOf(life.successor, k), next)
  {
    RunPhaseOutcome(p, PhaseOf(life.successor, k), life.fates(k));
  }

  lemma {:induction false} RunFromKeeps(life: Life, p: Progress, k: nat, r: Progress, strict: bool)
    requires k <= Phases(life.successor) && (strict ==> !life.successor)
    requires ProgressOk(p, strict) && (p.alive ==> Reached(life, p, k))
    requires r == RunFrom(life, p, k)
    ensures ProgressOk(r, strict) && (r.alive ==> Reached(life, r, Phases(life.successor)))
    decreases Phases(life.successor) - k
  {
    if p.alive && k < Phases(life.successor) {
      var n := PhaseOf(life.successor, k);
      var next := RunPhase(p.disk, p.checks, n, life.fates(k));
      RunFromNext(life, p, k, next);
      OutcomeKeeps(life, p, k, n, next, strict);
      RunFromKeeps(life, next, k + 1, r, strict);
    }
  }

  lemma FinishKeeps(life: Life, p: Progress, strict: bool)
    requires ProgressOk(p, strict) && (p.alive ==> Reached(life, p, Phases(life.successor)))
    ensures FileOk(Finish(life, p).file, strict)
  {
    if p.alive && life.end.Finishes? && p.disk.file.Stored? {
      forall q: Name | !q.Unknown? && !(life.successor && q == ContainerAll)
        ensures Passed(p.checks, q)
      {
        RankInjective(q, q);
      }
    }
  }

  lemma LiveKeeps(disk: Disk, life: Life, strict: bool)
    requires FileOk(disk.file, strict) && (strict ==> !life.successor)
    ensures FileOk(Live(disk, life).file, strict)
  {
    var start := Progress(disk, ChecksOf(disk.file), true);
    if life.authorized && !disk.file.Corrupt? && !(disk.file.Stored? && disk.file.complete) {
      var end := RunFrom(life, start, 0);
      RunFromKeeps(life, start, 0, end, strict);
      FinishKeeps(life, end, strict);
    }
  }

  lemma {:induction false} HistoryFrom(disk: Disk, lives: seq<Life>, strict: bool)
    requires FileOk(disk.file, strict)
    requires strict ==> forall l :: l in lives ==> !l.successor
    ensures FileOk(History(disk, lives).file, strict)
    decreases |lives|
  {
    if lives != [] {
      assert lives[0] in lives;
      LiveKeeps(disk, lives[0], strict);
      HistoryFrom(Live(disk, lives[0]), lives[1..], strict);
    }
  }

  /** Any history of driver and successor lives, with any fates: attempts are numbered 1..k, nothing
      follows a pass, a phase is recorded only after all earlier phases but the container phase have
      passed, and the completion marks are written only over the passes they claim. */
  lemma {:induction false} EveryHistoryIsSound(lives: seq<Life>)
    ensures FileOk(History(EMPTY, lives).file, false)
  {
    HistoryFrom(EMPTY, lives, false);
  }

  /** With the driver alone, the container phase counts like every other. */
  lemma {:induction false} EveryDriverHistoryIsSound(lives: seq<Life>)
    requires forall l :: l in lives ==> !l.successor
    ensures FileOk(History(EMPTY, lives).file, true)
  {
    HistoryFrom(EMPTY, lives, true);
  }

  // ---------------------------------------------------------------------------------------------
  // A log without a record stops the phase for good
  // ---------------------------------------------------------------------------------------------

  /** The log of the next attempt exists already. */
  ghost predicate Wedged(disk: Disk, n: Name) {
    !Passed(ChecksOf(disk.file), n) && (n, 1 + Count(ChecksOf(disk.file), n)) in disk.logs
  }

  lemma CountGrows(checks: seq<Check>, c: Check, n: Name)
    ensures Count(checks + [c], n) == Count(checks, n) + (if c.name == n then 1 else 0)
  {
    CountInPrefix(checks, c, |checks|, n);
  }

  /** Recording another phase does not help. */
  lemma AppendStaysWedged(disk: Disk, c: Check, logs: set<(Name, nat)>, n: Name)
    requires Wedged(disk, n) && c.name != n && disk.logs <= logs
    ensures Wedged(Disk(Stored(ChecksOf(disk.file) + [c], false, false), logs), n)
  {
    CountGrows(ChecksOf(disk.file), c, n);
    PassedGrows(ChecksOf(disk.file), c, n);
  }

  lemma RunPhaseStaysWedged(disk: Disk, m: Name, fate: Fate, n: Name)
    requires Wedged(disk, n)
    ensures var r := RunPhase(disk, ChecksOf(disk.file), m, fate);
      && (r.disk.file.Corrupt? || Wedged(r.disk, n))
      && (r.alive ==> r.checks == ChecksOf(r.disk.file) && Wedged(r.disk, n))
  {
    var checks := ChecksOf(disk.file);
    var attempt := 1 + Count(checks, m);
    if (fate.Ran? || fate.KilledAfterWrite?) && !Passed(checks, m) && (m, attempt) !in disk.logs {
      AppendStaysWedged(disk, Check(m, fate.exit, fate.same, attempt), disk.logs + {(m, attempt)}, n);
    }
  }

  lemma {:induction false} RunFromStaysWedged(life: Life, p: Progress, k: nat, n: Name)
    requires k <= Phases(life.successor)
    requires p.alive ==> p.checks == ChecksOf(p.disk.file) && Wedged(p.disk, n)
    requires p.disk.file.Corrupt? || Wedged(p.disk, n)
    ensures var r := RunFrom(life, p, k);
      && (r.disk.file.Corrupt? || Wedged(r.disk, n))
      && (r.alive ==> r.checks == ChecksOf(r.disk.file) && Wedged(r.disk, n))
    decreases Phases(life.successor) - k
  {
    if p.alive && k < Phases(life.successor) {
      RunPhaseStaysWedged(p.disk, PhaseOf(life.successor, k), life.fates(k), n);
      RunFromStaysWedged(life, RunPhase(p.disk, p.checks, PhaseOf(life.successor, k), life.fates(k)), k + 1, n);
    }
  }

  /** Once the log of the next attempt exists without a record, no later life of either program ever
      records that phase: every attempt stops at the existing log. */
  lemma {:induction false} WedgedForever(disk: Disk, lives: seq<Life>, n: Name)
    requires disk.file.Corrupt? || Wedged(disk, n)
    ensures var d := History(disk, lives); d.file.Corrupt? || Wedged(d, n)
    decreases |lives|
  {
    if lives != [] {
      var start := Progress(disk, ChecksOf(disk.file), true);
      if !disk.file.Corrupt? {
        RunFromStaysWedged(lives[0], start, 0, n);
      }
      WedgedForever(Live(disk, lives[0]), lives[1..], n);
    }
  }

  /** Being killed between creating a log and writing the record is what wedges a phase. */
  lemma {:induction false} KilledInRunWedges(p: Progress, n: Name)
    requires p.checks == ChecksOf(p.disk.file) && !Passed(p.checks, n)
    ensures Wedged(RunPhase(p.disk, p.checks, n, KilledInRun).disk, n)
  {
  }

  // ---------------------------------------------------------------------------------------------
  // When completion is still possible
  // ---------------------------------------------------------------------------------------------

  ghost predicate NothingWedged(disk: Disk) {
    forall n: Name :: !n.Unknown? ==> !Wedged(disk, n)
  }

  /** A life in which nothing goes wrong. */
  const CLEAN := Life(false, true, k => Ran(Some(0), true), Finishes)

  lemma CleanPhase(p: Progress, n: Name)
    requires p.alive && p.checks == ChecksOf(p.disk.file) && NothingWedged(p.disk) && !n.Unknown?
    ensures var r := RunPhase(p.disk, p.checks, n, Ran(Some(0), true));
      && r.alive && r.checks == ChecksOf(r.disk.file) && NothingWedged(r.disk)
      && (r.disk.file.Stored? || r == p) && Passed(r.checks, n)
  {
    if !Passed(p.checks, n) {
      var c := Check(n, Some(0), true, 1 + Count(p.checks, n));
      assert !Wedged(p.disk, n);
      forall m
        ensures Passed(p.checks + [c], m) <==> Passed(p.checks, m) || m == n
        ensures Count(p.checks + [c], m) == Count(p.checks, m) + (if m == n then 1 else 0)
      {
        PassedGrows(p.checks, c, m);
        CountGrows(p.checks, c, m);
      }
    }
  }

  lemma {:induction false} CleanRun(p: Progress, k: nat)
    requires k <= PHASES && p.alive && p.checks == ChecksOf(p.disk.file) && NothingWedged(p.disk)
    requires k > 0 ==> p.checks != []
    ensures var r := RunFrom(CLEAN, p, k); r.alive && r.disk.file.Stored?
    decreases PHASES - k
  {
    if k < PHASES {
      CleanPhase(p, PhaseOf(false, k));
      CleanRun(RunPhase(p.disk, p.checks, PhaseOf(false, k), Ran(Some(0), true)), k + 1);
    }
  }

  lemma {:induction false} CleanLifeCompletes(disk: Disk)
    requires !disk.file.Corrupt? && !(disk.file.Stored? && disk.file.complete) && NothingWedged(disk)
    ensures Live(disk, CLEAN).file.Stored? && Live(disk, CLEAN).file.complete
  {
    CleanRun(Progress(disk, ChecksOf(disk.file), true), 0);
  }

  lemma CompleteIsNotWedged(file: File, logs: set<(Name, nat)>, n: Name)
    requires FileOk(file, false) && file.Stored? && file.complete && !n.Unknown?
    ensures !Wedged(Disk(file, logs), n)
  {
  }

  /** A record that is neither corrupt nor complete can still be completed, by some sequence of
      lives of either program, exactly when no phase has a log without its record. */
  lemma {:induction false} CompletableIff(disk: Disk)
    requires FileOk(disk.file, false) && !disk.file.Corrupt? && !(disk.file.Stored? && disk.file.complete)
    ensures (exists lives :: History(disk, lives).file.Stored? && History(disk, lives).file.complete)
       <==> NothingWedged(disk)
  {
    if lives :| History(disk, lives).file.Stored? && History(disk, lives).file.complete {
      HistoryFrom(disk, lives, false);
      var d := History(disk, lives);
      forall n: Name | !n.Unknown?
        ensures !Wedged(disk, n)
      {
        CompleteIsNotWedged(d.file, d.logs, n);
        if Wedged(disk, n) {
          WedgedForever(disk, lives, n);
        }
      }
    }
    if NothingWedged(disk) {
      CleanLifeCompletes(disk);
      OneLife(disk, CLEAN);
    }
  }

  lemma OneLife(disk: Disk, life: Life)
    ensures History(disk, [life]) == Live(disk, life)
  {
    assert [life][1..] == [];
  }
}
