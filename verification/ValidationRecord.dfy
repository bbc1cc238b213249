/**
 The resumable validation drivers and the persisted record they share.

 One process ("life") loads the record, runs the phases in order, appends one check per executed
 phase and rewrites the record after each; it may be refused, killed or stopped at any point.  The
 successor is the same program without the container phase.
 */
module ValidationRecord {
  import opened Wrappers

  /** Phase names, in the order in which the driver runs them. */
  datatype Name =
    | Compileall | Schema | Ruff | Mypy | Policy | Pytest | CoveragePytest | CoverageReport | CoverageJson
    | CriticalCoverage | AssessmentCoverage | ContainerAll | Node | Economic | Dsh | DshLive | DshComparison
    | DshNativePlan | Job | Provider | RouterComplete | PackageBuild
    | Unknown(text: string)

  const PHASES: nat := 22
  const CONTAINER_RANK: nat := 11

  function Rank(n: Name): nat {
    match n
    case Compileall => 0 case Schema => 1 case Ruff => 2 case Mypy => 3 case Policy => 4 case Pytest => 5
    case CoveragePytest => 6 case CoverageReport => 7 case CoverageJson => 8 case CriticalCoverage => 9
    case AssessmentCoverage => 10 case ContainerAll => 11 case Node => 12 case Economic => 13 case Dsh => 14
    case DshLive => 15 case DshComparison => 16 case DshNativePlan => 17 case Job => 18 case Provider => 19
    case RouterComplete => 20 case PackageBuild => 21 case Unknown(_) => 22
  }

  function Phase(rank: nat): (n: Name)
    requires rank < PHASES
    ensures Rank(n) == rank && !n.Unknown?
  {
    match rank
    case 0 => Compileall case 1 => Schema case 2 => Ruff case 3 => Mypy case 4 => Policy case 5 => Pytest
    case 6 => CoveragePytest case 7 => CoverageReport case 8 => CoverageJson case 9 => CriticalCoverage
    case 10 => AssessmentCoverage case 11 => ContainerAll case 12 => Node case 13 => Economic case 14 => Dsh
    case 15 => DshLive case 16 => DshComparison case 17 => DshNativePlan case 18 => Job case 19 => Provider
    case 20 => RouterComplete case _ => PackageBuild
  }

  predicate Required(n: Name) {
    !n.Unknown? && n != ContainerAll
  }

  /** The k-th phase of the driver, or of the successor, which leaves the container phase out. */
  function PhaseOf(successor: bool, k: nat): (n: Name)
    requires k < Phases(successor)
    ensures Rank(n) == RankAt(successor, k) && !n.Unknown?
  {
    Phase(RankAt(successor, k))
  }

  function RankAt(successor: bool, k: nat): nat {
    if successor && CONTAINER_RANK <= k then k + 1 else k
  }

  function Phases(successor: bool): nat {
    if successor then PHASES - 1 else PHASES
  }

  // ---------------------------------------------------------------------------------------------
  // The record
  // ---------------------------------------------------------------------------------------------

  /** One executed phase; a timed-out phase has no exit code. */
  datatype Check = Check(name: Name, exitCode: Option<int>, sameSource: bool, attempt: nat)

  predicate Pass(c: Check) {
    c.exitCode == Some(0) && c.sameSource
  }

  /** The result file.  A write that is cut short leaves text that does not parse. */
  datatype File = Missing | Corrupt | Stored(checks: seq<Check>, complete: bool, noncontainer: bool)

  datatype Disk = Disk(file: File, logs: set<(Name, nat)>)

  const EMPTY := Disk(Missing, {})

  /** Among the first `k` checks there is a pass of phase `n`. */
  predicate PassedIn(checks: seq<Check>, k: nat, n: Name)
    requires k <= |checks|
  {
    exists i :: 0 <= i < k && checks[i].name == n && Pass(checks[i])
  }

  predicate Passed(checks: seq<Check>, n: Name) {
    PassedIn(checks, |checks|, n)
  }

  /** The number of checks of phase `n` among the first `k`. */
  function CountIn(checks: seq<Check>, k: nat, n: Name): nat
    requires k <= |checks|
  {
    if k == 0 then 0 else CountIn(checks, k - 1, n) + (if checks[k - 1].name == n then 1 else 0)
  }

  function Count(checks: seq<Check>, n: Name): nat {
    CountIn(checks, |checks|, n)
  }

  function ChecksOf(file: File): seq<Check> {
    if file.Stored? then file.checks else []
  }

  // ---------------------------------------------------------------------------------------------
  // One phase
  // ---------------------------------------------------------------------------------------------

  /** What the environment does to a phase. */
  datatype Fate =
    | Refused                                           // source or binary differs, or killed before the log exists
    | KilledInRun                                       // killed after the log was created, before the record was written
    | KilledInWrite                                     // killed while the record was being rewritten
    | KilledAfterWrite(exit: Option<int>, same: bool)   // killed right after the record was rewritten
    | Ran(exit: Option<int>, same: bool)

  datatype Progress = Progress(disk: Disk, checks: seq<Check>, alive: bool)

  /** `run`: the in-memory list and the file change together. */
  function RunPhase(disk: Disk, checks: seq<Check>, n: Name, fate: Fate): Progress {
    if fate.Refused? then Progress(disk, checks, false)
    else if Passed(checks, n) then Progress(disk, checks, fate.Ran?)
    else
      var attempt := 1 + Count(checks, n);
      if (n, attempt) in disk.logs then Progress(disk, checks, false)
      else
        var logged := disk.(logs := disk.logs + {(n, attempt)});
        match fate
        case KilledInWrite => Progress(logged.(file := Corrupt), checks, false)
        case KilledAfterWrite(exit, same) => Recorded(logged, checks, Check(n, exit, same, attempt)).(alive := false)
        case Ran(exit, same) => Recorded(logged, checks, Check(n, exit, same, attempt))
        case _ => Progress(logged, checks, false)
  }

  /** The check is appended and the file rewritten; a check that is not a pass ends the process. */
  function Recorded(disk: Disk, checks: seq<Check>, c: Check): Progress {
    Progress(disk.(file := Stored(checks + [c], false, false)), checks + [c], Pass(c))
  }

  // ---------------------------------------------------------------------------------------------
  // One life and a history of lives
  // ---------------------------------------------------------------------------------------------

  datatype End = Finishes | Dies | DiesInWrite

  datatype Life = Life(successor: bool, authorized: bool, fates: nat -> Fate, end: End)

  function RunFrom(life: Life, p: Progress, k: nat): Progress
    requires k <= Phases(life.successor)
    decreases Phases(life.successor) - k
  {
    if !p.alive || k == Phases(life.successor) then p
    else RunFrom(life, RunPhase(p.disk, p.checks, PhaseOf(life.successor, k), life.fates(k)), k + 1)
  }

  /** The last line of `main`: mark the record. */
  function Finish(life: Life, p: Progress): Disk {
    if !p.alive || life.end.Dies? || !p.disk.file.Stored? then p.disk
    else if life.end.DiesInWrite? then p.disk.(file := Corrupt)
    else p.disk.(file := p.disk.file.(complete := !life.successor, noncontainer := life.successor || p.disk.file.noncontainer))
  }

  function Live(disk: Disk, life: Life): Disk {
    if !life.authorized || disk.file.Corrupt? || (disk.file.Stored? && disk.file.complete) then disk
    else Finish(life, RunFrom(life, Progress(disk, ChecksOf(disk.file), true), 0))
  }

  function History(disk: Disk, lives: seq<Life>): Disk
    decreases |lives|
  {
    if lives == [] then disk else History(Live(disk, lives[0]), lives[1..])
  }

  // ---------------------------------------------------------------------------------------------
  // The driver itself
  // ---------------------------------------------------------------------------------------------

  class Driver {
    var file: File
    var logs: set<(Name, nat)>
    var checks: seq<Check>

    ghost function OnDisk(): Disk
      reads this
    {
      Disk(file, logs)
    }

    constructor (disk: Disk)
      ensures OnDisk() == disk && checks == ChecksOf(disk.file)
    {
      file, logs, checks := disk.file, disk.logs, ChecksOf(disk.file);
    }

    method Run(name: Name, fate: Fate) returns (alive: bool)
      modifies this
      ensures Progress(OnDisk(), checks, alive) == RunPhase(old(OnDisk()), old(checks), name, fate)
      ensures ((fate.Ran? || fate.KilledAfterWrite?) && !Passed(old(checks), name)
               && (name, 1 + Count(old(checks), name)) !in old(logs)) ==>
        && checks == old(checks) + [Check(name, fate.exit, fate.same, 1 + Count(old(checks), name))]
        && file == Stored(checks, false, false)
        && (alive <==> fate.Ran? && fate.exit == Some(0) && fate.same)
    {
      if fate.Refused? {
        return false;
      }
      if Passed(checks, name) {
        return fate.Ran?;
      }
      var attempt := 1 + Count(checks, name);
      if (name, attempt) in logs {
        return false;
      }
      logs := logs + {(name, attempt)};
      if fate.KilledInRun? {
        return false;
      }
      if fate.KilledInWrite? {
        file := Corrupt;
        return false;
      }
      var record := Check(name, fate.exit, fate.same, attempt);
      checks := checks + [record];
      file := Stored(checks, false, false);
      return fate.Ran? && Pass(record);
    }

    method RunAll(life: Life)
      requires checks == ChecksOf(file)
      modifies this
      ensures OnDisk() == Live(old(OnDisk()), life)
    {
      if !life.authorized || file.Corrupt? || (file.Stored? && file.complete) {
        return;
      }
      ghost var end := RunFrom(life, Progress(OnDisk(), checks, true), 0);
      var alive := true;
      var k := 0;
      while alive && k < Phases(life.successor)
        invariant k <= Phases(life.successor)
        invariant RunFrom(life, Progress(OnDisk(), checks, alive), k) == end
      {
        alive := Run(PhaseOf(life.successor, k), life.fates(k));
        k := k + 1;
      }
      if !alive || life.end.Dies? || !file.Stored? {
        return;
      }
      if life.end.DiesInWrite? {
        file := Corrupt;
      } else {
        file := file.(complete := !life.successor, noncontainer := life.successor || file.noncontainer);
      }
    }
  }
}
