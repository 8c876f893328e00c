/** The older, stand-alone LSF backend: a `#BSUB` job script without a
    completion marker, submission of `job.sh` through `bsub < job.sh`,
    and the job count and cancellation by job name over `bjobs` and
    `bkill`. */
module LegacyLsf {
  import opened Errors
  import opened Text
  import opened Paths
  import Sim = SimQueue
  import Seqs
  import opened Scheduler

  const Prefix := "#BSUB"
  const RunScript := "run.sh"
  const JobScriptName := "job.sh"
  const NoQueue := "The queue needs to be defined."

  /** The settings, with their defaults in `Defaults`. A setting that is
      not set is written as Python writes `None`. */
  datatype Config = Config(
    jobname: Option<string>,
    queue: Option<string>,
    ngpu: nat,
    memory: nat,
    walltime: Option<nat>,
    environment: Option<seq<string>>,
    outputstream: string,
    errorstream: string,
    datadir: Option<Path>,
    trajext: string)

  const Defaults := Config(None, None, 1, 4000, None, None, "lsf.%J.out", "lsf.%J.err", None, "xtc")

  /** The executables found at construction. */
  datatype Queue = Queue(config: Config, qsubmit: Path, qlist: Path, qcancel: Path)

  /** `"{}".format(x)` of an optional string. */
  function Shown(x: Option<string>): (s: string)
    ensures x.Some? ==> s == x.value
    ensures x.None? ==> s == "None"
  {
    x.GetOr("None")
  }

  /* ---------------------------------------------------------------------
     The job script
     --------------------------------------------------------------------- */

  /** The `#BSUB` directives in the order they are written: job name,
      queue, GPU count as the slot count, memory, the bare working
      directory, the two streams and the time limit when set. */
  function Directives(cfg: Config, workdir: Path): (ds: seq<Directive>)
    ensures |ds| == 7 + (if cfg.walltime.Some? then 1 else 0)
  {
    [Opt("-J", Shown(cfg.jobname)), Opt("-q", Shown(cfg.queue)), Opt("-n", NatToString(cfg.ngpu)),
     Opt("-M", NatToString(cfg.memory)), Directive("", "", workdir),
     Opt("-o", cfg.outputstream), Opt("-e", cfg.errorstream)]
    + When(cfg.walltime.Some?, Opt("-W", NatToString(cfg.walltime.GetOr(0))))
  }

  /** The environment calls after a blank line, when there are any. */
  function EnvBlock(cfg: Config): (lines: seq<string>)
    ensures cfg.environment.None? ==> lines == []
    ensures cfg.environment.Some? ==> lines == [""] + cfg.environment.value
  {
    if cfg.environment.Some? then [""] + cfg.environment.value else []
  }

  /** The directory of `datadir` named after the job directory. */
  function OutDir(datadir: Path, cwd: Path, workdir: Path): Path
  {
    PathJoin(Abspath(cwd, datadir), Basename(Normpath(workdir)))
  }

  /** The line moving the finished trajectories, when `datadir` is set. */
  function MoveTail(cfg: Config, cwd: Path, workdir: Path): (tail: seq<string>)
    ensures |tail| == if cfg.datadir.Some? then 1 else 0
  {
    if cfg.datadir.None? then []
    else ["mv *." + cfg.trajext + " " + OutDir(cfg.datadir.value, cwd, workdir)]
  }

  /** `_createJobScript(fname, workdir, runsh)`: the lines of the script
      for directory `dir` (made absolute against `cwd`) running `runsh`;
      the text written is these lines joined by newlines. */
  function JobScript(cfg: Config, cwd: Path, dir: Path, runsh: string): seq<string>
  {
    var workdir := Abspath(cwd, dir);
    Body(Directives(cfg, workdir), EnvBlock(cfg), workdir, runsh, MoveTail(cfg, cwd, workdir))
  }

  /** The script around directives `ds` and the lines `env`: no
      completion marker, and the run command right after the change to
      the working directory. */
  function Body(ds: seq<Directive>, env: seq<string>, workdir: Path, runsh: string, tail: seq<string>): seq<string>
  {
    [Sim.Shebang, "#"] + RenderAll(Prefix, ds) + (env + ["", "cd " + workdir, runsh]) + tail
  }

  lemma BodyLayout(ds: seq<Directive>, env: seq<string>, workdir: Path, runsh: string, tail: seq<string>)
    ensures var lines, n, m := Body(ds, env, workdir, runsh, tail), |ds|, |env|;
            && |lines| == 5 + n + m + |tail|
            && lines[0] == Sim.Shebang && lines[1] == "#"
            && (forall k :: 0 <= k < n ==> lines[2 + k] == Render(Prefix, ds[k]))
            && (forall k :: 0 <= k < m ==> lines[2 + n + k] == env[k])
            && lines[2 + n + m] == "" && lines[3 + n + m] == "cd " + workdir && lines[4 + n + m] == runsh
            && lines[5 + n + m..] == tail
  {
    var middle := env + ["", "cd " + workdir, runsh];
    Seqs.Framed(Sim.Shebang, "#", RenderAll(Prefix, ds), middle, tail);
    Seqs.AfterHead(env, ["", "cd " + workdir, runsh]);
  }

  /** The script: the shell line, an empty comment, the job name, the
      queue, the GPU count, the memory, the working directory and the two
      streams; the time limit next when set; then the environment calls
      after a blank line, when given; then a blank line, the change to the
      working directory and at once the run command; the move line last,
      only with a data directory. */
  lemma ScriptShape(cfg: Config, cwd: Path, dir: Path, runsh: string)
    ensures var lines, workdir := JobScript(cfg, cwd, dir, runsh), Abspath(cwd, dir);
            var w, env := if cfg.walltime.Some? then 1 else 0, EnvBlock(cfg);
            var n := 9 + w + |env|;
            && |lines| == n + 3 + (if cfg.datadir.Some? then 1 else 0)
            && lines[0] == Sim.Shebang && lines[1] == "#"
            && lines[2] == Render(Prefix, Opt("-J", Shown(cfg.jobname)))
            && lines[3] == Render(Prefix, Opt("-q", Shown(cfg.queue)))
            && lines[4] == Render(Prefix, Opt("-n", NatToString(cfg.ngpu)))
            && lines[5] == Render(Prefix, Opt("-M", NatToString(cfg.memory)))
            && lines[6] == Render(Prefix, Directive("", "", workdir))
            && lines[7] == Render(Prefix, Opt("-o", cfg.outputstream))
            && lines[8] == Render(Prefix, Opt("-e", cfg.errorstream))
            && (cfg.walltime.Some? ==> lines[9] == Render(Prefix, Opt("-W", NatToString(cfg.walltime.value))))
            && (forall k :: 0 <= k < |env| ==> lines[9 + w + k] == env[k])
            && lines[n] == "" && lines[n + 1] == "cd " + workdir && lines[n + 2] == runsh
            && (cfg.datadir.Some? ==>
                  lines[n + 3] == "mv *." + cfg.trajext + " " + OutDir(cfg.datadir.value, cwd, workdir))
  {
    var workdir := Abspath(cwd, dir);
    var ds := Directives(cfg, workdir);
    BodyLayout(ds, EnvBlock(cfg), workdir, runsh, MoveTail(cfg, cwd, workdir));
    var fixed := [Opt("-J", Shown(cfg.jobname)), Opt("-q", Shown(cfg.queue)), Opt("-n", NatToString(cfg.ngpu)),
                  Opt("-M", NatToString(cfg.memory)), Directive("", "", workdir),
                  Opt("-o", cfg.outputstream), Opt("-e", cfg.errorstream)];
    Seqs.AfterHead(fixed, When(cfg.walltime.Some?, Opt("-W", NatToString(cfg.walltime.GetOr(0)))));
  }

  /** A line starting with neither `#` nor `c`, absent from the lines
      `env`, the tail and other than the run command, is no line of the
      script. */
  lemma BodyLacks(ds: seq<Directive>, env: seq<string>, workdir: Path, runsh: string, tail: seq<string>, t: string)
    requires |t| > 1 && t[0] != '#' && t[0] != 'c'
    requires t !in env && t != runsh && t !in tail
    ensures t !in Body(ds, env, workdir, runsh, tail)
  {
    var lines := Body(ds, env, workdir, runsh, tail);
    BodyLayout(ds, env, workdir, runsh, tail);
    forall k | 0 <= k < |lines|
      ensures lines[k] != t
    {
      if 2 <= k < 2 + |ds| {
        assert lines[k][0] == '#';
      } else if 2 + |ds| <= k < 2 + |ds| + |env| {
        assert lines[k] == env[k - 2 - |ds|];
      } else if k >= 5 + |ds| + |env| {
        assert lines[k] == tail[k - 5 - |ds| - |env|];
      }
    }
  }

  lemma StartsWith(a: string, b: string)
    requires |a| > 1
    ensures |a + b| > 1 && (a + b)[0] == a[0]
  {
  }

  /** No line the generator writes is the trap that creates a completion
      marker: only an environment call or the run command could be. */
  lemma NoTrap(cfg: Config, cwd: Path, dir: Path, runsh: string)
    requires runsh != Sim.TrapLine(Abspath(cwd, dir))
    requires Sim.TrapLine(Abspath(cwd, dir)) !in cfg.environment.GetOr([])
    ensures Sim.TrapLine(Abspath(cwd, dir)) !in JobScript(cfg, cwd, dir, runsh)
  {
    var workdir := Abspath(cwd, dir);
    var trap, tail := Sim.TrapLine(workdir), MoveTail(cfg, cwd, workdir);
    var marker := Normpath(PathJoin(workdir, Sim.Sentinel));
    StartsWith("trap \"touch ", marker);
    StartsWith("trap \"touch " + marker, "\" EXIT SIGTERM");
    assert trap[0] == 't' && |trap| > 1;
    if cfg.datadir.Some? {
      StartsWith("mv *.", cfg.trajext);
      StartsWith("mv *." + cfg.trajext, " ");
      StartsWith("mv *." + cfg.trajext + " ", OutDir(cfg.datadir.value, cwd, workdir));
      assert tail[0][0] == 'm';
    }
    BodyLacks(Directives(cfg, workdir), EnvBlock(cfg), workdir, runsh, tail, trap);
  }

  /* ---------------------------------------------------------------------
     The data directories
     --------------------------------------------------------------------- */

  /** `os.mkdir(p)`: refused when something already exists at `p`, and
      when the walk down to `p` meets a file (NotADirectoryError) or a
      missing directory (FileNotFoundError) on the way. */
  function MakeDir(fs: FileSystem, p: Path): (r: Result<FileSystem>)
    ensures r.Ok? <==> !fs.Exists(p) && fs.Blocking(fs.Resolve(p)).None?
  {
    var key := fs.Resolve(p);
    if fs.Exists(p) then Err(FileExistsError("[Errno 17] File exists: '" + p + "'"))
    else if fs.Blocking(key).Some? then
      if fs.Blocking(key).value in fs.files then Err(NotADirectoryError("[Errno 20] Not a directory: '" + p + "'"))
      else Err(FileNotFoundError("[Errno 2] No such file or directory: '" + p + "'"))
    else Ok(fs.(dirs := fs.dirs + {key}))
  }

  /** The directories `_createJobScript` makes for `workdir` when
      `datadir` is set: `datadir` itself unless it is a directory already,
      then the directory of the job in it, which must not exist yet. */
  function MakeOutDirs(cfg: Config, fs: FileSystem, workdir: Path): (r: Result<FileSystem>)
  {
    if cfg.datadir.None? then Ok(fs)
    else
      var data := Abspath(fs.cwd, cfg.datadir.value);
      var made := if fs.IsDir(data) then Ok(fs) else MakeDir(fs, data);
      if made.Err? then made
      else MakeDir(made.value, OutDir(cfg.datadir.value, fs.cwd, workdir))
  }

  /** Without a data directory nothing is made. With one, both
      directories exist afterwards and nothing but the directories
      changes; a job directory already present in the data directory, or
      a file in the place of the data directory, is refused, and so is a
      data directory whose parent is missing. */
  lemma OutDirsMade(cfg: Config, fs: FileSystem, workdir: Path)
    ensures cfg.datadir.None? ==> MakeOutDirs(cfg, fs, workdir) == Ok(fs)
    ensures var r, data := MakeOutDirs(cfg, fs, workdir), Abspath(fs.cwd, cfg.datadir.GetOr(""));
            cfg.datadir.Some? && r.Ok? ==>
              && r.value.IsDir(data) && r.value.IsDir(OutDir(cfg.datadir.value, fs.cwd, workdir))
              && fs.dirs <= r.value.dirs && r.value.(dirs := fs.dirs) == fs
    ensures var r, data := MakeOutDirs(cfg, fs, workdir), Abspath(fs.cwd, cfg.datadir.GetOr(""));
            cfg.datadir.Some? && fs.Exists(OutDir(cfg.datadir.value, fs.cwd, workdir)) ==>
              r.Err? && (fs.IsDir(data) ==> r.error.FileExistsError?)
    ensures var r, data := MakeOutDirs(cfg, fs, workdir), Abspath(fs.cwd, cfg.datadir.GetOr(""));
            cfg.datadir.Some? && fs.Exists(data) && !fs.IsDir(data) ==> r.Err? && r.error.FileExistsError?
    ensures var r, data := MakeOutDirs(cfg, fs, workdir), Abspath(fs.cwd, cfg.datadir.GetOr(""));
            cfg.datadir.Some? && !fs.Exists(data) && fs.Blocking(fs.Resolve(data)).Some? ==>
              r.Err? && (r.error.FileNotFoundError? || r.error.NotADirectoryError?)
    ensures var r := MakeOutDirs(cfg, fs, workdir);
            r.Err? ==> r.error.FileExistsError? || r.error.FileNotFoundError? || r.error.NotADirectoryError?
  {
    if cfg.datadir.Some? {
      var data := Abspath(fs.cwd, cfg.datadir.value);
      var odir := OutDir(cfg.datadir.value, fs.cwd, workdir);
      var r := MakeOutDirs(cfg, fs, workdir);
      if fs.IsDir(data) {
        MadeDir(fs, odir);
        assert r == MakeDir(fs, odir);
      } else {
        MadeDir(fs, data);
        var made := MakeDir(fs, data);
        if made.Ok? {
          MadeDir(made.value, odir);
          assert r == MakeDir(made.value, odir);
          assert fs.Exists(odir) ==> made.value.Exists(odir);
        } else {
          assert r == made;
        }
      }
    }
  }

  /** `os.mkdir` fails with the error of the first obstacle: something
      at the path itself, then a file or a missing directory on the way.
      A directory made exists afterwards, and nothing else changes. */
  lemma MadeDir(fs: FileSystem, p: Path)
    ensures var r, key := MakeDir(fs, p), fs.Resolve(p);
            && (r.Ok? ==> r.value.IsDir(p) && fs.dirs <= r.value.dirs && r.value.(dirs := fs.dirs) == fs)
            && (r.Ok? ==> forall x :: fs.IsDir(x) ==> r.value.IsDir(x))
            && (r.Err? && r.error.FileExistsError? <==> fs.Exists(p))
            && (r.Err? && r.error.NotADirectoryError? <==>
                  !fs.Exists(p) && fs.Blocking(key).Some? && fs.Blocking(key).value in fs.files)
            && (r.Err? && r.error.FileNotFoundError? <==>
                  !fs.Exists(p) && fs.Blocking(key).Some? && fs.Blocking(key).value !in fs.files)
  {
  }

  /* ---------------------------------------------------------------------
     Submission
     --------------------------------------------------------------------- */

  function RunPath(cwd: Path, d: Path): Path
  {
    Abspath(cwd, PathJoin(d, RunScript))
  }

  function JobPath(cwd: Path, d: Path): Path
  {
    Abspath(cwd, PathJoin(d, JobScriptName))
  }

  /** `bsub < job.sh`, one command line run by the shell. */
  function SubmitCommand(qsubmit: Path, jobPath: Path): seq<string>
  {
    [qsubmit + " < " + jobPath]
  }

  /** What `submit` does with each directory: checks its run script at
      `runPath` (`check` gives the error, if any), opens its job script at
      `jobPath` for writing (`open` gives the error, if any), makes the
      data directories (`make`), writes the script `script` gives and runs
      `command` on it with `exec`. */
  datatype Plan = Plan(
    check: (FileSystem, Path) -> Option<Error>,
    open: (FileSystem, Path) -> Option<Error>,
    make: (FileSystem, Path) -> Result<FileSystem>,
    runPath: Path -> Path,
    jobPath: Path -> Path,
    script: (Path, Path) -> seq<string>,
    command: Path -> seq<string>,
    exec: Exec)

  /** The error of a failed lookup. */
  function Failure(r: Result<Path>): (e: Option<Error>)
    ensures e.Some? <==> r.Err?
    ensures r.Err? ==> e == Some(r.error)
  {
    if r.Err? then Some(r.error) else None
  }

  /** The plan of this backend, for working directory `cwd`. */
  function PlanOf(q: Queue, exec: Exec, cwd: Path): Plan
  {
    Plan((f: FileSystem, d: Path) => Failure(Sim.GetRunScript(RunScript, f, d)),
         (f: FileSystem, p: Path) => f.OpenForWrite(p),
         (f: FileSystem, d: Path) => MakeOutDirs(q.config, f, Abspath(f.cwd, d)),
         (d: Path) => RunPath(cwd, d),
         (d: Path) => JobPath(cwd, d),
         (d: Path, run: Path) => JobScript(q.config, cwd, d, run),
         (p: Path) => SubmitCommand(q.qsubmit, p),
         exec)
  }

  /** One directory: nothing is written for it unless its run script is
      found and its job script opens; then the data directories are made,
      its job script written and submitted. */
  function SubmitStep(p: Plan, prev: Batch, d: Path): Batch
  {
    var failed := p.check(prev.fs, d);
    if failed.Some? then prev.(error := failed)
    else
      var refused := p.open(prev.fs, p.jobPath(d));
      if refused.Some? then prev.(error := refused)
      else
        var made := p.make(prev.fs, d);
        if made.Err? then prev.(error := Some(made.error))
        else
          var job := Job(d, p.runPath(d), p.jobPath(d), p.script(d, p.runPath(d)));
          var out := p.exec(p.command(job.path));
          if out.Err? then Batch(prev.jobs + [job], prev.outputs, made.value, Some(out.error))
          else Batch(prev.jobs + [job], prev.outputs + [out.value], made.value, None)
  }

  /** The loop of `submit` after the first `n` directories: it stops at
      the first error, which propagates. */
  function Queued(p: Plan, fs: FileSystem, ds: seq<Path>, n: nat): (r: Batch)
    requires n <= |ds|
    ensures |r.jobs| <= n && |r.outputs| <= |r.jobs| <= |r.outputs| + 1
    ensures r.error.None? ==> |r.jobs| == n && |r.outputs| == n
  {
    if n == 0 then Batch([], [], fs, None)
    else
      var prev := Queued(p, fs, ds, n - 1);
      if prev.error.Some? then prev else SubmitStep(p, prev, ds[n - 1])
  }

  /** Making directories leaves the working directory and the executable
      files alone. */
  ghost predicate MakeKeeps(make: (FileSystem, Path) -> Result<FileSystem>)
  {
    forall f: FileSystem, d: Path :: make(f, d).Ok? ==>
      make(f, d).value.cwd == f.cwd && make(f, d).value.executable == f.executable
  }

  /** In working directory `cwd`, the run script `runPath(d)` of a
      directory `d` that passes the check is executable, and stays so on
      any file system with the same working directory and executable
      files. */
  ghost predicate ChecksRun(check: (FileSystem, Path) -> Option<Error>, cwd: Path, runPath: Path -> Path)
  {
    forall f: FileSystem, g: FileSystem, d: Path ::
      f.cwd == cwd && g.cwd == cwd && g.executable == f.executable && check(f, d).None? ==>
        g.IsExecutable(runPath(d))
  }

  lemma {:induction false} QueuedKeeps(p: Plan, fs: FileSystem, ds: seq<Path>, n: nat)
    requires n <= |ds| && MakeKeeps(p.make)
    ensures var r := Queued(p, fs, ds, n);
            r.fs.cwd == fs.cwd && r.fs.executable == fs.executable
  {
    if n > 0 {
      QueuedKeeps(p, fs, ds, n - 1);
    }
  }

  /** The `k`-th job is that of the `k`-th directory: it runs the run
      script of that directory from the job script the plan writes for
      it. */
  lemma {:induction false} QueuedJobs(p: Plan, fs: FileSystem, ds: seq<Path>, n: nat)
    requires n <= |ds|
    ensures var r := Queued(p, fs, ds, n);
            forall k :: 0 <= k < |r.jobs| ==>
              r.jobs[k] == Job(ds[k], p.runPath(ds[k]), p.jobPath(ds[k]), p.script(ds[k], p.runPath(ds[k])))
  {
    if n > 0 {
      QueuedJobs(p, fs, ds, n - 1);
      var prev, r := Queued(p, fs, ds, n - 1), Queued(p, fs, ds, n);
      if prev.error.None? && r.jobs != prev.jobs {
        var d := ds[n - 1];
        assert r.jobs == prev.jobs + [Job(d, p.runPath(d), p.jobPath(d), p.script(d, p.runPath(d)))];
      }
    }
  }

  /** The run script of every job written is executable. */
  lemma QueuedRunsExecutable(p: Plan, fs: FileSystem, ds: seq<Path>, n: nat)
    requires n <= |ds| && MakeKeeps(p.make) && ChecksRun(p.check, fs.cwd, p.runPath)
    ensures var r := Queued(p, fs, ds, n);
            forall k :: 0 <= k < |r.jobs| ==> fs.IsExecutable(p.runPath(ds[k]))
  {
    forall k | 0 <= k < |Queued(p, fs, ds, n).jobs|
      ensures fs.IsExecutable(p.runPath(ds[k]))
    {
      QueuedRunExecutable(p, fs, ds, n, k);
    }
  }

  /** The run script of the `k`-th job is executable: the check let its
      directory through, and making directories since then has left the
      executable files alone. */
  lemma {:induction false} QueuedRunExecutable(p: Plan, fs: FileSystem, ds: seq<Path>, n: nat, k: nat)
    requires n <= |ds| && MakeKeeps(p.make) && ChecksRun(p.check, fs.cwd, p.runPath)
    requires k < |Queued(p, fs, ds, n).jobs|
    ensures fs.IsExecutable(p.runPath(ds[k]))
  {
    var prev := Queued(p, fs, ds, n - 1);
    QueuedGrows(p, fs, ds, n);
    if k < |prev.jobs| {
      QueuedRunExecutable(p, fs, ds, n - 1, k);
    } else {
      assert k == n - 1;
      QueuedKeeps(p, fs, ds, n - 1);
      RunChecked(p.check, fs.cwd, p.runPath, prev.fs, fs, ds[k]);
    }
  }

  lemma RunChecked(check: (FileSystem, Path) -> Option<Error>, cwd: Path, runPath: Path -> Path,
                   f: FileSystem, g: FileSystem, d: Path)
    requires ChecksRun(check, cwd, runPath)
    requires f.cwd == cwd && g.cwd == cwd && g.executable == f.executable && check(f, d).None?
    ensures g.IsExecutable(runPath(d))
  {
  }

  /** A step of the loop adds a job only after an error-free prefix and a
      check that passes. */
  lemma QueuedGrows(p: Plan, fs: FileSystem, ds: seq<Path>, n: nat)
    requires 0 < n <= |ds|
    ensures var prev, r := Queued(p, fs, ds, n - 1), Queued(p, fs, ds, n);
            && |r.jobs| <= |prev.jobs| + 1
            && (|r.jobs| > |prev.jobs| ==>
                  prev.error.None? && p.check(prev.fs, ds[n - 1]).None? && |prev.jobs| == n - 1)
  {
  }

  /** Each output is what the submission command printed for the job of
      the same position. */
  lemma {:induction false} QueuedOutputs(p: Plan, fs: FileSystem, ds: seq<Path>, n: nat)
    requires n <= |ds|
    ensures forall k :: 0 <= k < |Queued(p, fs, ds, n).outputs| ==>
              p.exec(p.command(Queued(p, fs, ds, n).jobs[k].path)) == Ok(Queued(p, fs, ds, n).outputs[k])
  {
    if n > 0 {
      QueuedOutputs(p, fs, ds, n - 1);
      var prev, r := Queued(p, fs, ds, n - 1), Queued(p, fs, ds, n);
      if prev.error.None? && r.outputs != prev.outputs {
        var d := ds[n - 1];
        var job := Job(d, p.runPath(d), p.jobPath(d), p.script(d, p.runPath(d)));
        var out := p.exec(p.command(job.path));
        assert r == SubmitStep(p, prev, d);
        assert out.Ok?;
        assert r.jobs == prev.jobs + [job] && r.outputs == prev.outputs + [out.value];
        forall k | 0 <= k < |r.outputs|
          ensures p.exec(p.command(r.jobs[k].path)) == Ok(r.outputs[k])
        {
          if k < n - 1 {
            assert r.jobs[k] == prev.jobs[k] && r.outputs[k] == prev.outputs[k];
          }
        }
      } else if prev.error.None? {
        assert r.outputs == prev.outputs && r.jobs[..|prev.jobs|] == prev.jobs;
        assert forall k :: 0 <= k < |prev.jobs| ==> r.jobs[k] == prev.jobs[k];
      }
    }
  }

  /** Once an error has ended the loop, the later directories change
      nothing. */
  lemma {:induction false} QueuedStopped(p: Plan, fs: FileSystem, ds: seq<Path>, n: nat, m: nat)
    requires n <= m <= |ds| && Queued(p, fs, ds, n).error.Some?
    ensures Queued(p, fs, ds, m) == Queued(p, fs, ds, n)
    decreases m - n
  {
    if n < m {
      QueuedStopped(p, fs, ds, n, m - 1);
    }
  }

  /** When the first `k` directories went through and the next one fails
      its check, that error ends `submit` and no job script is written for
      it or any later directory. */
  lemma CheckStops(p: Plan, fs: FileSystem, ds: seq<Path>, k: nat)
    requires k < |ds|
    requires var prev := Queued(p, fs, ds, k);
             prev.error.None? && p.check(prev.fs, ds[k]).Some?
    ensures var prev, r := Queued(p, fs, ds, k), Queued(p, fs, ds, |ds|);
            && r.jobs == prev.jobs && |r.jobs| == k
            && r.error == p.check(prev.fs, ds[k])
  {
    QueuedStopped(p, fs, ds, k + 1, |ds|);
  }

  /** When the first `k` directories went through and the next one passes
      its check but its job script cannot be opened, that error ends
      `submit`: no directory is made and no job is written for it or any
      later directory. */
  lemma OpenStops(p: Plan, fs: FileSystem, ds: seq<Path>, k: nat)
    requires k < |ds|
    requires var prev := Queued(p, fs, ds, k);
             prev.error.None? && p.check(prev.fs, ds[k]).None? && p.open(prev.fs, p.jobPath(ds[k])).Some?
    ensures var prev, r := Queued(p, fs, ds, k), Queued(p, fs, ds, |ds|);
            && r.jobs == prev.jobs && |r.jobs| == k && r.fs == prev.fs
            && r.error == p.open(prev.fs, p.jobPath(ds[k]))
  {
    QueuedStopped(p, fs, ds, k + 1, |ds|);
  }

  /** The plan of this backend keeps the working directory and lets
      through only directories whose `run.sh` is executable. */
  lemma PlanFacts(q: Queue, exec: Exec, cwd: Path)
    ensures MakeKeeps(PlanOf(q, exec, cwd).make)
    ensures ChecksRun(PlanOf(q, exec, cwd).check, cwd, PlanOf(q, exec, cwd).runPath)
  {
    var p := PlanOf(q, exec, cwd);
    forall f: FileSystem, d: Path | p.make(f, d).Ok?
      ensures p.make(f, d).value.cwd == f.cwd && p.make(f, d).value.executable == f.executable
    {
      OutDirsMade(q.config, f, Abspath(f.cwd, d));
    }
  }

  /** For `submit` itself: the `k`-th job runs `run.sh` of the `k`-th
      directory, which is executable, from `job.sh` beside it holding the
      script for that directory, and each output is what `bsub` printed
      for that job. */
  lemma SubmittedJobs(q: Queue, exec: Exec, fs: FileSystem, ds: seq<Path>)
    ensures var r := Queued(PlanOf(q, exec, fs.cwd), fs, ds, |ds|);
            && (forall k :: 0 <= k < |r.jobs| ==>
                  var run := RunPath(fs.cwd, ds[k]);
                  r.jobs[k] == Job(ds[k], run, JobPath(fs.cwd, ds[k]), JobScript(q.config, fs.cwd, ds[k], run))
                  && fs.IsExecutable(run))
            && (forall k :: 0 <= k < |r.outputs| ==> exec(SubmitCommand(q.qsubmit, r.jobs[k].path)) == Ok(r.outputs[k]))
  {
    PlanFacts(q, exec, fs.cwd);
    QueuedJobs(PlanOf(q, exec, fs.cwd), fs, ds, |ds|);
    QueuedRunsExecutable(PlanOf(q, exec, fs.cwd), fs, ds, |ds|);
    QueuedOutputs(PlanOf(q, exec, fs.cwd), fs, ds, |ds|);
  }

  /** When the first `k` directories went through and the `run.sh` of the
      next one is missing, `submit` raises FileExistsError naming it; when
      it exists but is not executable, PermissionError; either way before
      that directory's job script is written. */
  lemma RunScriptChecked(q: Queue, exec: Exec, fs: FileSystem, ds: seq<Path>, k: nat)
    requires k < |ds| && Queued(PlanOf(q, exec, fs.cwd), fs, ds, k).error.None?
    ensures var p := PlanOf(q, exec, fs.cwd);
            var prev, r, run := Queued(p, fs, ds, k), Queued(p, fs, ds, |ds|), RunPath(fs.cwd, ds[k]);
            && (!prev.fs.Exists(run) ==>
                  r.jobs == prev.jobs && r.error == Some(FileExistsError("File " + run + Sim.NotExisting)))
            && (prev.fs.Exists(run) && !fs.IsExecutable(run) ==>
                  r.jobs == prev.jobs && r.error == Some(PermissionError("File " + run + Sim.NotExecutable)))
  {
    var p := PlanOf(q, exec, fs.cwd);
    PlanFacts(q, exec, fs.cwd);
    QueuedKeeps(p, fs, ds, k);
    var prev := Queued(p, fs, ds, k);
    if p.check(prev.fs, ds[k]).Some? {
      CheckStops(p, fs, ds, k);
    }
  }

  /** When the first `k` directories went through and the `run.sh` of the
      next one is executable but its `job.sh` cannot be opened for writing
      (a missing or non-directory parent, or a directory in its place),
      `submit` raises the error of `open`, before any directory is made
      and before `bsub` runs. */
  lemma JobScriptRefused(q: Queue, exec: Exec, fs: FileSystem, ds: seq<Path>, k: nat)
    requires k < |ds| && Queued(PlanOf(q, exec, fs.cwd), fs, ds, k).error.None?
    ensures var p := PlanOf(q, exec, fs.cwd);
            var prev, r, run, job := Queued(p, fs, ds, k), Queued(p, fs, ds, |ds|), RunPath(fs.cwd, ds[k]), JobPath(fs.cwd, ds[k]);
            prev.fs.Exists(run) && fs.IsExecutable(run) && prev.fs.OpenForWrite(job).Some? ==>
              && r.jobs == prev.jobs && r.fs == prev.fs
              && r.error == prev.fs.OpenForWrite(job)
              && (r.error.value.FileNotFoundError? || r.error.value.NotADirectoryError? || r.error.value.IsADirectoryError?)
  {
    var p := PlanOf(q, exec, fs.cwd);
    PlanFacts(q, exec, fs.cwd);
    QueuedKeeps(p, fs, ds, k);
    var prev := Queued(p, fs, ds, k);
    if p.check(prev.fs, ds[k]).None? && p.open(prev.fs, p.jobPath(ds[k])).Some? {
      OpenStops(p, fs, ds, k);
    }
  }

  /** `submit(dirs)`: a single directory is a list of one; the directories
      are handled in order. */
  method Submit(q: Queue, fs: FileSystem, arg: Sim.DirsArg, exec: Exec) returns (b: Batch)
    ensures b == Queued(PlanOf(q, exec, fs.cwd), fs, Sim.EnsureList(arg), |Sim.EnsureList(arg)|)
  {
    var ds := Sim.EnsureList(arg);
    var p := PlanOf(q, exec, fs.cwd);
    b := Batch([], [], fs, None);
    for i := 0 to |ds|
      invariant b == Queued(p, fs, ds, i) && b.error.None?
    {
      b := SubmitStep(p, b, ds[i]);
      if b.error.Some? {
        QueuedStopped(p, fs, ds, i + 1, |ds|);
        return;
      }
    }
  }

  /* ---------------------------------------------------------------------
     Job count and cancellation
     --------------------------------------------------------------------- */

  /** The query of jobs of this name and `user` on the queue; `binary` is
      `bjobs` or `bkill`. */
  function ByName(binary: Path, cfg: Config, user: string): seq<string>
    requires cfg.queue.Some? && cfg.jobname.Some?
  {
    [binary, "-J", cfg.jobname.value, "-u", user, "-q", cfg.queue.value]
  }

  /** `inprogress`: refused without a queue; a job name that is not set
      cannot be passed to the command (TypeError); otherwise `bjobs` is
      run once and the pieces of its output split at newlines, less two,
      never below zero, are counted. */
  function InProgress(q: Queue, user: string, exec: Exec): (r: Result<nat>)
    ensures q.config.queue.None? ==> r == Err(ValueError(NoQueue))
    ensures q.config.queue.Some? && q.config.jobname.None? ==> r == Err(TypeError)
    ensures q.config.queue.Some? && q.config.jobname.Some? ==>
              var out := exec(ByName(q.qlist, q.config, user));
              && (r.Ok? <==> out.Ok?)
              && (out.Ok? ==> r.value == LineCount(out.value))
              && (out.Err? ==> r.error == out.error)
  {
    if q.config.queue.None? then Err(ValueError(NoQueue))
    else if q.config.jobname.None? then Err(TypeError)
    else
      var out := exec(ByName(q.qlist, q.config, user));
      if out.Err? then Err(out.error) else Ok(LineCount(out.value))
  }

  /** A listing of a header and one line per job counts those jobs. */
  lemma InProgressCountsRows(q: Queue, user: string, exec: Exec, header: string, rows: seq<string>)
    requires q.config.queue.Some? && q.config.jobname.Some?
    requires exec(ByName(q.qlist, q.config, user)) == Ok(header + "\n" + Rows(rows))
    requires '\n' !in header && forall k :: 0 <= k < |rows| ==> '\n' !in rows[k]
    ensures InProgress(q, user, exec) == Ok(|rows|)
  {
    ListingCount(header, rows);
  }

  /** `stop`: refused without a queue; otherwise one `bkill` of every job
      of this name and `user` on the queue, whose failure propagates. */
  function Stop(q: Queue, user: string, exec: Exec): (o: Outcome)
    ensures q.config.queue.None? ==> o == Fail(ValueError(NoQueue))
    ensures q.config.queue.Some? && q.config.jobname.None? ==> o == Fail(TypeError)
    ensures q.config.queue.Some? && q.config.jobname.Some? ==>
              var out := exec(ByName(q.qcancel, q.config, user));
              (o == Pass <==> out.Ok?) && (out.Err? ==> o == Fail(out.error))
  {
    if q.config.queue.None? then Fail(ValueError(NoQueue))
    else if q.config.jobname.None? then Fail(TypeError)
    else
      var out := exec(ByName(q.qcancel, q.config, user));
      if out.Err? then Fail(out.error) else Pass
  }
}
