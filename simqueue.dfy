/** The base every queue shares (jobqueues/simqueue.py): the job status
    vocabulary, the registry of submitted directories, the run-script and
    sentinel checks done before a directory is queued, and the blocking
    poll loop `wait`. */
module SimQueue {
  import opened Errors
  import opened Text
  import opened Paths

  /** Name of the completion marker every generated job script creates in
      its job directory on exit or termination. */
  const Sentinel: string := "jobqueues.done"

  /** Messages of the errors raised here. */
  const NotSynchronous := "This method relies on running synchronously."
  const NotExisting := " does not exist."
  const NotExecutable := " does not have execution permissions."
  const NoRound := "cannot import name 'round' from 'math'"

  /* ---------------------------------------------------------------------
     Job status codes
     --------------------------------------------------------------------- */

  datatype QueueJobStatus =
    | Running | Completed | Failed | Timeout | Cancelled | Pending | OutOfMemory
  {
    /** The integer code of the status. */
    function Value(): (v: nat)
      ensures v <= 6
    {
      match this
      case Running => 0
      case Completed => 1
      case Failed => 2
      case Timeout => 3
      case Cancelled => 4
      case Pending => 5
      case OutOfMemory => 6
    }

    /** `describe`: the human-readable text kept in the code table. */
    function Describe(): (d: string)
      ensures d != ""
      ensures d == DescriptionTable[Value()]
    {
      DescriptionTable[Value()]
    }
  }

  /** The code table `describe` looks statuses up in. */
  const DescriptionTable: map<nat, string> := map[
    0 := "Running",
    1 := "Completed",
    2 := "Failed",
    3 := "Timeout",
    4 := "Cancelled",
    5 := "Pending",
    6 := "Out of memory error"]

  /** The status with a given code, as `QueueJobStatus(v)` finds it. */
  function FromValue(v: int): (s: Option<QueueJobStatus>)
    ensures s.Some? <==> 0 <= v <= 6
    ensures s.Some? ==> s.value.Value() == v
  {
    if v == 0 then Some(Running)
    else if v == 1 then Some(Completed)
    else if v == 2 then Some(Failed)
    else if v == 3 then Some(Timeout)
    else if v == 4 then Some(Cancelled)
    else if v == 5 then Some(Pending)
    else if v == 6 then Some(OutOfMemory)
    else None
  }

  /** The codes are pairwise distinct (the enumeration is `@enum.unique`),
      so the code of a status identifies it. */
  lemma ValueIdentifiesStatus(s: QueueJobStatus)
    ensures FromValue(s.Value()) == Some(s)
  {
  }

  /** Distinct statuses have distinct descriptions. */
  lemma DescribeInjective(a: QueueJobStatus, b: QueueJobStatus)
    ensures a.Describe() == b.Describe() ==> a == b
  {
  }

  /** `_inProgressStatus`: the statuses that still count as work to do. */
  predicate InProgressStatus(s: QueueJobStatus)
  {
    s in {Running, Pending}
  }

  lemma InProgressExactly(s: QueueJobStatus)
    ensures InProgressStatus(s) <==> s.Value() == 0 || s.Value() == 5
  {
  }

  /* ---------------------------------------------------------------------
     Directory registry and the checks done before queueing
     --------------------------------------------------------------------- */

  /** `submit` accepts one directory or a list of them. */
  datatype DirsArg = One(dir: Path) | Many(dirs: seq<Path>)

  /** `ensurelist`: a single directory becomes a one-element list. */
  function EnsureList(arg: DirsArg): (ds: seq<Path>)
    ensures arg.One? ==> ds == [arg.dir]
    ensures arg.Many? ==> ds == arg.dirs
  {
    match arg
    case One(d) => [d]
    case Many(ds) => ds
  }

  /** Path of the completion marker of a job directory. */
  function SentinelOf(d: Path): Path
  {
    PathJoin(d, Sentinel)
  }

  predicate HasSentinel(fs: FileSystem, d: Path)
  {
    fs.Exists(SentinelOf(d))
  }

  /** Number of entries of `ds`, counted with multiplicity, whose directory
      holds no completion marker. */
  function CountUnfinished(fs: FileSystem, ds: seq<Path>): (n: nat)
    ensures n <= |ds|
  {
    if ds == [] then 0
    else CountUnfinished(fs, ds[..|ds| - 1]) + (if HasSentinel(fs, ds[|ds| - 1]) then 0 else 1)
  }

  /** The markers present, entry by entry. */
  function Markers(fs: FileSystem, ds: seq<Path>): (m: seq<bool>)
    ensures |m| == |ds|
    ensures forall i :: 0 <= i < |ds| ==> m[i] == HasSentinel(fs, ds[i])
  {
    seq(|ds|, i requires 0 <= i < |ds| => HasSentinel(fs, ds[i]))
  }

  function CountFalse(m: seq<bool>): nat
  {
    if m == [] then 0 else CountFalse(m[..|m| - 1]) + (if m[|m| - 1] then 0 else 1)
  }

  lemma {:induction false} CountFalseZeroIff(m: seq<bool>)
    ensures CountFalse(m) == 0 <==> forall i :: 0 <= i < |m| ==> m[i]
  {
    if m != [] {
      var front := m[..|m| - 1];
      CountFalseZeroIff(front);
      assert forall i :: 0 <= i < |front| ==> front[i] == m[i];
    }
  }

  lemma {:induction false} CountUnfinishedIsCountFalse(fs: FileSystem, ds: seq<Path>)
    ensures CountUnfinished(fs, ds) == CountFalse(Markers(fs, ds))
  {
    if ds != [] {
      CountUnfinishedIsCountFalse(fs, ds[..|ds| - 1]);
      assert Markers(fs, ds)[..|ds| - 1] == Markers(fs, ds[..|ds| - 1]);
    }
  }

  /** No directory is left unfinished exactly when every one of them holds
      its completion marker. */
  lemma CountUnfinishedZeroIff(fs: FileSystem, ds: seq<Path>)
    ensures CountUnfinished(fs, ds) == 0 <==> forall i :: 0 <= i < |ds| ==> HasSentinel(fs, ds[i])
  {
    CountUnfinishedIsCountFalse(fs, ds);
    CountFalseZeroIff(Markers(fs, ds));
  }

  datatype LogEntry = Warning(text: string) | Debug(text: string)

  /** Result of `_cleanSentinel`: the file system afterwards and what was
      logged. */
  datatype Cleaned = Cleaned(fs: FileSystem, log: Option<LogEntry>)

  /** `_cleanSentinel(d)`: removes a stale completion marker. A failed
      removal (the marker is a directory, or the file cannot be deleted) is
      logged as a warning and never raised. */
  function CleanSentinel(fs: FileSystem, d: Path): (r: Cleaned)
    ensures r.fs.cwd == fs.cwd && r.fs.dirs == fs.dirs && r.fs.files <= fs.files
    ensures !HasSentinel(fs, d) ==> r == Cleaned(fs, None)
    ensures HasSentinel(fs, d) ==> r.log.Some?
    ensures r.log.Some? && r.log.value.Debug? ==> !HasSentinel(r.fs, d)
    ensures r.log.Some? && r.log.value.Warning? ==> r.fs == fs
  {
    var target := fs.Resolve(SentinelOf(d));
    if !HasSentinel(fs, d) then Cleaned(fs, None)
    else if target in fs.dirs || target in fs.undeletable then
      Cleaned(fs, Some(Warning("Could not remove " + Sentinel + " sentinel from " + d)))
    else
      Cleaned(fs.(files := fs.files - {target}, executable := fs.executable - {target}),
              Some(Debug("Removed existing " + Sentinel + " sentinel from " + d)))
  }

  /** Below a working directory "/a", the directories "./b" and "b" share
      one completion marker, "/a/b/jobqueues.done": both spellings see it
      and both remove it. */
  lemma MarkerSpellings(fs: FileSystem, a: string, b: string)
    requires fs.cwd == "/" + a && Plain(a) && Plain(b)
    ensures HasSentinel(fs, "./" + b) <==> fs.Exists("/" + a + "/" + b + "/" + Sentinel)
    ensures HasSentinel(fs, "./" + b) == HasSentinel(fs, b)
    ensures CleanSentinel(fs, "./" + b).fs == CleanSentinel(fs, b).fs
  {
    assert '/' !in Sentinel && Plain(Sentinel);
    SameFile(fs, a, b, Sentinel);
    NormPlainThree(a, b, Sentinel);
  }

  const Shebang := "#!/bin/bash"

  /** The job script line that creates the completion marker of `workdir`
      when the job exits or is terminated. */
  function TrapLine(workdir: Path): string
  {
    "trap \"touch " + Normpath(PathJoin(workdir, Sentinel)) + "\" EXIT SIGTERM"
  }

  /* ---------------------------------------------------------------------
     The registry object
     --------------------------------------------------------------------- */

  /** The state `SimQueue` itself keeps: the registry of every directory
      ever submitted (None until the first submission) and the names of the
      run script and of the generated job script. */
  class SimQueue {
    var dirs: Option<seq<Path>>
    /** Name of the run script looked for in each job directory ("run.sh"
        unless configured otherwise). */
    const runscript: string
    /** Name of the job script generated in each job directory ("job.sh"
        unless configured otherwise). */
    const jobscript: string

    /** A fresh queue; `initialDirs` is None for every backend except the PBS
        one, whose constructor starts the registry as an empty list. */
    constructor (initialDirs: Option<seq<Path>>, runscript: string, jobscript: string)
      ensures dirs == initialDirs
      ensures this.runscript == runscript && this.jobscript == jobscript
    {
      dirs := initialDirs;
      this.runscript := runscript;
      this.jobscript := jobscript;
    }

    /** `_submitinit`: registers the directories of one submission, in
        order and keeping duplicates, and returns them as a list. */
    method SubmitInit(arg: DirsArg) returns (ds: seq<Path>)
      modifies this
      ensures ds == EnsureList(arg)
      ensures dirs == Some(old(dirs).GetOr([]) + ds)
    {
      ds := EnsureList(arg);
      if dirs.None? {
        dirs := Some([]);
      }
      dirs := Some(dirs.value + ds);
    }

    /** `notcompleted`: how many registered directories (with multiplicity)
        still lack their completion marker; an error when nothing was ever
        submitted. */
    method NotCompleted(fs: FileSystem) returns (r: Result<nat>)
      ensures dirs.None? ==> r == Err(RuntimeError(NotSynchronous))
      ensures dirs.Some? ==> r == Ok(CountUnfinished(fs, dirs.value))
    {
      if dirs.None? {
        return Err(RuntimeError(NotSynchronous));
      }
      var ds := dirs.value;
      var total := 0;
      for i := 0 to |ds|
        invariant total == CountUnfinished(fs, ds[..i])
      {
        assert ds[..i + 1][..i] == ds[..i];
        if !HasSentinel(fs, ds[i]) {
          total := total + 1;
        }
      }
      assert ds[..|ds|] == ds;
      return Ok(total);
    }
  }

  /* ---------------------------------------------------------------------
     Finding the run command of a directory
     --------------------------------------------------------------------- */

  /** `_getRunScript(d)`: the absolute path of the directory's run script
      (named `runscript` inside it), provided it exists and is executable. */
  function GetRunScript(runscript: string, fs: FileSystem, d: Path): (r: Result<Path>)
    ensures r.Ok? <==> fs.Exists(RunScriptPath(runscript, fs, d)) && fs.IsExecutable(RunScriptPath(runscript, fs, d))
    ensures r.Ok? ==> r.value == RunScriptPath(runscript, fs, d)
    ensures !fs.Exists(RunScriptPath(runscript, fs, d)) ==> r.Err? && r.error.FileExistsError?
    ensures fs.Exists(RunScriptPath(runscript, fs, d)) && !fs.IsExecutable(RunScriptPath(runscript, fs, d)) ==>
              r.Err? && r.error.PermissionError?
  {
    var p := RunScriptPath(runscript, fs, d);
    if !fs.Exists(p) then Err(FileExistsError("File " + p + NotExisting))
    else if !fs.IsExecutable(p) then Err(PermissionError("File " + p + NotExecutable))
    else Ok(p)
  }

  function RunScriptPath(runscript: string, fs: FileSystem, d: Path): Path
  {
    Abspath(fs.cwd, PathJoin(d, runscript))
  }

  /** The run command of the `i`-th directory: the `i`-th command when
      commands are given, otherwise its run script. */
  function RunCommand(runscript: string, fs: FileSystem, d: Path, i: nat, commands: Option<seq<string>>)
    : (r: Result<string>)
  {
    if commands.Some? then
      if i < |commands.value| then Ok(commands.value[i]) else Err(IndexError)
    else GetRunScript(runscript, fs, d)
  }

  /** How the queueing loop finds the run command of the `i`-th directory
      `d` when the file system is `fs`. */
  type Lookup = (FileSystem, Path, nat) -> Result<string>

  /** The lookup of `submit`: the given commands, or else each directory's
      run script. */
  function LookupOf(runscript: string, commands: Option<seq<string>>): Lookup
  {
    (f: FileSystem, d: Path, i: nat) => RunCommand(runscript, f, d, i, commands)
  }

  /** A lookup that, whenever it succeeds, gives the absolute path of the
      directory's run script. */
  ghost predicate FindsRunScripts(lookup: Lookup, runscript: string)
  {
    forall f: FileSystem, d: Path, i: nat :: lookup(f, d, i).Ok? ==> lookup(f, d, i).value == Abspath(f.cwd, PathJoin(d, runscript))
  }

  /** A lookup that gives the `i`-th of the commands, and IndexError past
      their end. */
  ghost predicate FindsCommands(lookup: Lookup, commands: seq<string>)
  {
    forall f: FileSystem, d: Path, i: nat :: lookup(f, d, i) == if i < |commands| then Ok(commands[i]) else Err(IndexError)
  }

  lemma LookupOfFinds(runscript: string, commands: Option<seq<string>>)
    ensures commands.None? ==> FindsRunScripts(LookupOf(runscript, commands), runscript)
    ensures commands.Some? ==> FindsCommands(LookupOf(runscript, commands), commands.value)
  {
    var lookup := LookupOf(runscript, commands);
    if commands.Some? {
      forall f: FileSystem, d: Path, i: nat ensures lookup(f, d, i) == if i < |commands.value| then Ok(commands.value[i]) else Err(IndexError) {
        assert lookup(f, d, i) == RunCommand(runscript, f, d, i, commands);
      }
    } else {
      forall f: FileSystem, d: Path, i: nat | lookup(f, d, i).Ok? ensures lookup(f, d, i).value == Abspath(f.cwd, PathJoin(d, runscript)) {
        assert lookup(f, d, i) == GetRunScript(runscript, f, d);
      }
    }
  }

  /* ---------------------------------------------------------------------
     The wait loop
     --------------------------------------------------------------------- */

  /** How `wait` reports: never, or on every `frequency`-th poll; `sleep`
      is the pause between polls. */
  datatype ReportPlan = Silent(sleep: nat) | Every(frequency: nat, sleep: nat)

  /** The report plan `wait` sets up, AS WRITTEN: when the report interval
      exceeds the poll interval the function imports `round` from `math`,
      which has no such name, so that branch fails with ImportError. Times
      are whole seconds. */
  function PlanReportsAsWritten(sleeptime: nat, reporttime: Option<nat>): (r: Result<ReportPlan>)
    ensures reporttime.None? ==> r == Ok(Silent(sleeptime))
    ensures reporttime.Some? && reporttime.value <= sleeptime ==> r == Ok(Every(1, reporttime.value))
    ensures reporttime.Some? && reporttime.value > sleeptime ==> r.Err? && r.error.ImportError?
  {
    match reporttime
    case None => Ok(Silent(sleeptime))
    case Some(rt) =>
      if rt > sleeptime then Err(ImportError(NoRound))
      else Ok(Every(1, rt))
  }

  /** Two seconds apart is enough to exhibit the failure: a report interval
      of 10 s over the default poll interval of 5 s makes `wait` fail before
      it polls once. */
  lemma PlanReportsAsWrittenFails()
    ensures PlanReportsAsWritten(5, Some(10)).Err?
    ensures PlanReportsAsWritten(5, Some(10)).error == ImportError(NoRound)
  {
  }

  /** The quotient and remainder facts `RoundHalfEven` rests on. */
  lemma DivModParts(p: nat, q: nat)
    requires q > 0
    ensures (p / q) * q + p % q == p && 0 <= p % q < q
    ensures p > q ==> p / q >= 1
    ensures (p / q + 1) * q - p == q - p % q && p - (p / q) * q == p % q
  {
    assert (p / q + 1) * q == (p / q) * q + q;
  }

  /** Python's built-in `round(p / q)`: the nearest integer, ties to even. */
  function RoundHalfEven(p: nat, q: nat): (n: nat)
    requires q > 0
    ensures 2 * (n * q - p) <= q && 2 * (p - n * q) <= q
    ensures 2 * (n * q - p) == q || 2 * (p - n * q) == q ==> n % 2 == 0
    ensures p > q ==> n >= 1
  {
    DivModParts(p, q);
    var f := p / q;
    var r := p % q;
    if 2 * r < q || (2 * r == q && f % 2 == 0) then f else f + 1
  }

  /** The report plan `wait` evidently intends: the report interval is
      adjusted to the nearest multiple of the poll interval (the docstring's
      promise), using the built-in `round`; a report interval shorter than
      the poll interval replaces it. A zero poll interval with a positive
      report interval divides by zero. */
  function PlanReports(sleeptime: nat, reporttime: Option<nat>): (r: Result<ReportPlan>)
    ensures reporttime.None? ==> r == Ok(Silent(sleeptime))
    ensures reporttime.Some? && reporttime.value <= sleeptime ==> r == Ok(Every(1, reporttime.value))
    ensures reporttime.Some? && reporttime.value > sleeptime && sleeptime > 0 ==>
              r.Ok? && r.value.Every? && r.value.frequency >= 1 && r.value.sleep == sleeptime
              && 2 * (r.value.frequency * sleeptime - reporttime.value) <= sleeptime
              && 2 * (reporttime.value - r.value.frequency * sleeptime) <= sleeptime
    ensures r.Err? <==> reporttime.Some? && reporttime.value > sleeptime && sleeptime == 0
  {
    match reporttime
    case None => Ok(Silent(sleeptime))
    case Some(rt) =>
      if rt > sleeptime then
        if sleeptime == 0 then Err(ZeroDivisionError) else Ok(Every(RoundHalfEven(rt, sleeptime), sleeptime))
      else Ok(Every(1, rt))
  }

  /** Index of the first poll that found no work left, or the number of
      polls when none did. */
  function FirstIdle(counts: seq<nat>): (k: nat)
    ensures k <= |counts|
    ensures k < |counts| ==> counts[k] == 0
    ensures forall j :: 0 <= j < k ==> counts[j] != 0
  {
    if counts == [] then 0 else if counts[0] == 0 then 0 else 1 + FirstIdle(counts[1..])
  }

  /** The report counter `i` of `wait` after `k` polls: it starts at 1,
      and each poll either finds it at `freq` (a report is due) and resets
      it to 1, or increments it. */
  function Counter(k: nat, freq: nat): (i: nat)
    requires freq >= 1
    ensures 1 <= i <= freq
  {
    if k == 0 then 1
    else
      var c := Counter(k - 1, freq);
      if c == freq then 1 else c + 1
  }

  /** The counts `wait` reports over the polls `counts`: poll `k` reports
      its count exactly when the counter stands at `freq` as it polls. */
  function Reported(counts: seq<nat>, freq: nat): seq<nat>
    requires freq >= 1
  {
    if counts == [] then []
    else Reported(counts[..|counts| - 1], freq)
         + (if Counter(|counts| - 1, freq) == freq then [counts[|counts| - 1]] else [])
  }

  /** With a report due on every poll, every poll's count is reported. */
  lemma {:induction false} ReportedEveryPoll(counts: seq<nat>)
    ensures Reported(counts, 1) == counts
  {
    if counts != [] {
      ReportedEveryPoll(counts[..|counts| - 1]);
      assert Counter(|counts| - 1, 1) == 1;
      assert counts == counts[..|counts| - 1] + [counts[|counts| - 1]];
    }
  }

  /** Between two reports the counter climbs through 1 .. freq, so reports
      are exactly `freq` polls apart. */
  lemma {:induction false} CounterClimbs(k: nat, j: nat, freq: nat)
    requires freq >= 1 && Counter(k, freq) == 1 && j < freq
    ensures Counter(k + j, freq) == 1 + j
    decreases j
  {
    if j > 0 {
      CounterClimbs(k, j - 1, freq);
    }
  }

  /** One more poll adds its count to the reports exactly when the counter
      stands at `freq`. */
  lemma ReportedStep(counts: seq<nat>, k: nat, freq: nat)
    requires freq >= 1 && k < |counts|
    ensures Reported(counts[..k + 1], freq)
            == Reported(counts[..k], freq) + (if Counter(k, freq) == freq then [counts[k]] else [])
  {
    assert counts[..k + 1][..k] == counts[..k];
  }

  /** One step of `wait`, in the order the steps happen. */
  datatype WaitEvent = Poll(count: nat) | Report(count: nat) | Retrieve | Sleep(seconds: nat)

  /** What one poll of `wait` does: take the count, report it when the
      report is due, call `retrieve`, then stop on a zero count or sleep. */
  function PollEvents(count: nat, report: bool, sleep: nat): (e: seq<WaitEvent>)
    ensures |e| >= 2 && e[0] == Poll(count) && Retrieve in e
    ensures (count == 0) == (e[|e| - 1] == Retrieve)
  {
    [Poll(count)] + (if report then [Report(count)] else []) + [Retrieve]
    + (if count == 0 then [] else [Sleep(sleep)])
  }

  /** The steps of the first `k` polls of `wait` under `plan`. */
  function WaitEvents(counts: seq<nat>, plan: ReportPlan, k: nat): seq<WaitEvent>
    requires k <= |counts| && (plan.Every? ==> plan.frequency >= 1)
  {
    if k == 0 then []
    else
      WaitEvents(counts, plan, k - 1)
      + PollEvents(counts[k - 1], plan.Every? && Counter(k - 1, plan.frequency) == plan.frequency, plan.sleep)
  }

  /** Step `j` of `e` comes where `wait` puts it: a report directly after
      the count it reports, a `retrieve` directly after its poll's count or
      report, and a sleep directly after a `retrieve`. */
  predicate StepInOrder(e: seq<WaitEvent>, j: nat)
    requires j < |e|
  {
    && (e[j].Report? ==> j >= 1 && e[j - 1] == Poll(e[j].count))
    && (e[j].Retrieve? ==> j >= 1 && (e[j - 1].Poll? || e[j - 1].Report?))
    && (e[j].Sleep? ==> j >= 1 && e[j - 1] == Retrieve)
  }

  predicate InOrder(e: seq<WaitEvent>)
  {
    forall j :: 0 <= j < |e| ==> StepInOrder(e, j)
  }

  lemma PollEventsInOrder(count: nat, report: bool, sleep: nat)
    ensures InOrder(PollEvents(count, report, sleep))
  {
  }

  /** Steps in order stay in order when a poll's steps follow them. */
  lemma InOrderAppend(prev: seq<WaitEvent>, block: seq<WaitEvent>)
    requires InOrder(prev) && InOrder(block) && block != [] && block[0].Poll?
    ensures InOrder(prev + block)
  {
    var e := prev + block;
    forall j | 0 <= j < |e|
      ensures StepInOrder(e, j)
    {
      if j < |prev| {
        assert StepInOrder(prev, j);
        assert e[j] == prev[j];
        if j >= 1 { assert e[j - 1] == prev[j - 1]; }
      } else {
        var t := j - |prev|;
        assert StepInOrder(block, t);
        assert e[j] == block[t];
        if t >= 1 { assert e[j - 1] == block[t - 1]; }
      }
    }
  }

  /** Within the steps of `wait`, every report directly follows the count
      it reports, every `retrieve` directly follows its poll's count or
      report, every sleep directly follows a `retrieve`, and a zero count
      ends the steps with a `retrieve`. */
  lemma {:induction false} WaitEventsOrder(counts: seq<nat>, plan: ReportPlan, k: nat)
    requires k <= |counts| && (plan.Every? ==> plan.frequency >= 1)
    ensures InOrder(WaitEvents(counts, plan, k))
    ensures k >= 1 && counts[k - 1] == 0 ==> WaitEvents(counts, plan, k)[|WaitEvents(counts, plan, k)| - 1] == Retrieve
  {
    if k > 0 {
      WaitEventsOrder(counts, plan, k - 1);
      var report := plan.Every? && Counter(k - 1, plan.frequency) == plan.frequency;
      var block := PollEvents(counts[k - 1], report, plan.sleep);
      PollEventsInOrder(counts[k - 1], report, plan.sleep);
      InOrderAppend(WaitEvents(counts, plan, k - 1), block);
    }
  }

  /** What one run of `wait` did: its steps in order, how many polls (each
      calling the count and then `retrieve` once), the counts it reported,
      how many times it slept and for how long each time, and whether it
      saw the work finish. */
  datatype WaitTrace = WaitTrace(
    events: seq<WaitEvent>,
    polls: nat, retrieves: nat, reports: seq<nat>, sleeps: nat, sleep: nat, finished: bool)

  /** Where the polling loop ends: after the first idle poll, or after
      all the counts when none is idle. */
  lemma PollsTaken(counts: seq<nat>, k: nat, finished: bool)
    requires k <= |counts| && (finished || k == |counts|)
    requires finished == (k >= 1 && counts[k - 1] == 0)
    requires forall j :: 0 <= j < (if finished then k - 1 else k) ==> counts[j] != 0
    ensures finished == (FirstIdle(counts) < |counts|)
    ensures k == if FirstIdle(counts) < |counts| then FirstIdle(counts) + 1 else |counts|
  {
    var f := FirstIdle(counts);
    if finished {
      assert f >= k - 1;
      assert f <= k - 1;
    }
  }

  /** One poll of `wait` once its count `inprog` is known: the report
      counter afterwards, the count reported (if a report is due), and the
      poll's steps. */
  method PollOnce(inprog: nat, plan: ReportPlan, freq: nat, i: nat) returns (next: nat, report: seq<nat>, step: seq<WaitEvent>)
    requires freq >= 1 && 1 <= i <= freq && (plan.Every? ==> freq == plan.frequency)
    ensures plan.Every? ==> next == (if i == freq then 1 else i + 1)
    ensures plan.Silent? ==> next == i
    ensures report == (if plan.Every? && i == freq then [inprog] else [])
    ensures step == PollEvents(inprog, plan.Every? && i == freq, plan.sleep)
  {
    next := i;
    report := [];
    step := [Poll(inprog)];
    if plan.Every? {
      if i == freq {
        report := [inprog];
        step := step + [Report(inprog)];
        next := 1;
      } else {
        next := i + 1;
      }
    }
    step := step + [Retrieve];
    if inprog != 0 {
      step := step + [Sleep(plan.sleep)];
    }
  }

  /** `wait`, driven by the counts successive polls return (from
      `inprogress`, or from `notcompleted` in sentinel mode). The loop stops
      at the first zero count; if `counts` runs out first, the model stops
      there and reports `finished == false`. */
  method Wait(sleeptime: nat, reporttime: Option<nat>, counts: seq<nat>) returns (r: Result<WaitTrace>)
    ensures PlanReports(sleeptime, reporttime).Err? ==> r == Err(PlanReports(sleeptime, reporttime).error)
    ensures PlanReports(sleeptime, reporttime).Ok? ==> r.Ok?
    ensures r.Ok? ==>
              var n := if FirstIdle(counts) < |counts| then FirstIdle(counts) + 1 else |counts|;
              var plan := PlanReports(sleeptime, reporttime).value;
              && r.value.finished == (FirstIdle(counts) < |counts|)
              && r.value.polls == n && r.value.retrieves == n
              && r.value.sleeps == (if r.value.finished then n - 1 else n)
              && r.value.sleep == plan.sleep
              && r.value.reports == (if plan.Silent? then [] else Reported(counts[..n], plan.frequency))
              && r.value.events == WaitEvents(counts, plan, n)
  {
    var planned := PlanReports(sleeptime, reporttime);
    if planned.Err? {
      return Err(planned.error);
    }
    var plan := planned.value;
    var k, reports, events, finished := Polls(plan, counts);
    PollsTaken(counts, k, finished);
    // One `retrieve` per poll, and a sleep after every poll but a final idle one.
    var sleeps := if finished then k - 1 else k;
    r := Ok(WaitTrace(events, k, k, reports, sleeps, plan.sleep, finished));
  }

  /** The polling loop of `wait` under `plan`: it polls until a count is
      zero, or until the counts run out. */
  method Polls(plan: ReportPlan, counts: seq<nat>)
    returns (k: nat, reports: seq<nat>, events: seq<WaitEvent>, finished: bool)
    requires plan.Every? ==> plan.frequency >= 1
    ensures k <= |counts| && (finished || k == |counts|)
    ensures finished == (k >= 1 && counts[k - 1] == 0)
    ensures forall j :: 0 <= j < (if finished then k - 1 else k) ==> counts[j] != 0
    ensures reports == (if plan.Silent? then [] else Reported(counts[..k], plan.frequency))
    ensures events == WaitEvents(counts, plan, k)
  {
    var freq := if plan.Every? then plan.frequency else 1;
    var i := 1;
    k := 0;
    reports := [];
    finished := false;
    events := [];
    while k < |counts| && !finished
      invariant 0 <= k <= |counts|
      invariant freq >= 1 && 1 <= i <= freq
      invariant i == Counter(k, freq)
      invariant plan.Silent? ==> reports == []
      invariant plan.Every? ==> reports == Reported(counts[..k], freq)
      invariant finished == (k >= 1 && counts[k - 1] == 0)
      invariant forall j :: 0 <= j < (if finished then k - 1 else k) ==> counts[j] != 0
      invariant events == WaitEvents(counts, plan, k)
    {
      var inprog := counts[k];
      ReportedStep(counts, k, freq);
      var report, step;
      i, report, step := PollOnce(inprog, plan, freq, i);
      assert i == Counter(k + 1, freq);
      assert plan.Every? ==> reports + report == Reported(counts[..k + 1], freq);
      assert events + step == WaitEvents(counts, plan, k + 1);
      reports := reports + report;
      finished := inprog == 0;
      events := events + step;
      k := k + 1;
    }
  }
}
