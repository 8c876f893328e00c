/** The Sun Grid Engine backend: the `#$` job script, submission through
    `qsub`, the job count over `qstat` listings and cancellation with
    `qdel`. */
module SgeQueue {
  import opened Errors
  import opened Text
  import opened Paths
  import Sim = SimQueue
  import Seqs
  import opened Scheduler

  const Prefix := "#$"
  const NoQueue := "The queue needs to be defined."
  const NoJobName := "The jobname needs to be defined."
  /** The job script's file name inside each directory. */
  const JobFile := "job.sh"

  /** The settings read when writing a job script. The numeric settings
      are validated non-negative integers. */
  datatype Config = Config(
    queue: Option<seq<string>>,
    ngpu: nat,
    ncpu: nat,
    memory: nat,
    walltime: Option<nat>,
    envvars: Option<string>,
    prerun: Option<seq<string>>,
    outputstream: string,
    errorstream: string,
    datadir: Option<Path>,
    trajext: string)

  /* ---------------------------------------------------------------------
     The job script
     --------------------------------------------------------------------- */

  /** The `#$` directives, in the order they are written, for job name
      `jobname` and the absolute working directory `workdir`. */
  function Directives(cfg: Config, jobname: string, queues: seq<string>, workdir: Path): seq<Directive>
  {
    [Opt("-N", "PM" + jobname), Opt("-q", Quote(Join(queues, ","))), Opt("-pe", "thread " + NatToString(cfg.ncpu))]
    + Settings(cfg, workdir)
  }

  /** The directives after the name, the queues and the CPU count. */
  function Settings(cfg: Config, workdir: Path): seq<Directive>
  {
    [Opt("-l", "ngpus=" + NatToString(cfg.ngpu)), Opt("-l", "h_vmem=" + NatToString(cfg.memory)),
     Opt("-wd", workdir), Opt("-o", cfg.outputstream), Opt("-e", cfg.errorstream)]
    + When(cfg.envvars.Some?, Opt("-v", cfg.envvars.GetOr("")))
    + When(cfg.walltime.Some?, Opt("-l", "h_rt=" + NatToString(cfg.walltime.GetOr(0))))
  }

  /** The line moving the finished trajectories into the directory of the
      absolute `datadir` named after the job directory, when `datadir` is
      set. */
  function MoveTail(cfg: Config, cwd: Path, workdir: Path): (tail: seq<string>)
    ensures |tail| == if cfg.datadir.Some? then 1 else 0
  {
    if cfg.datadir.None? then []
    else
      var target := PathJoin(Abspath(cwd, cfg.datadir.value), Basename(Normpath(workdir)));
      ["mv *." + cfg.trajext + " " + target]
  }

  /** `_createJobScript(fname, workdir, runsh)`: the lines of the script
      written for directory `dir` (made absolute against `cwd`), running
      `runsh`; the text is these lines joined by newlines. */
  function JobScript(cfg: Config, jobname: string, queues: seq<string>, cwd: Path, dir: Path, runsh: string)
    : seq<string>
  {
    var workdir := Abspath(cwd, dir);
    Script(Prefix, Directives(cfg, jobname, queues, workdir), workdir, cfg.prerun.GetOr([]), runsh,
           MoveTail(cfg, cwd, workdir))
  }

  /** The directives start with the prefixed job name, the queues joined
      by commas and the thread count; eight are always written, plus one
      for each of the environment and the wall time that is set. */
  lemma HeaderStart(cfg: Config, jobname: string, queues: seq<string>, workdir: Path)
    ensures var ds := Directives(cfg, jobname, queues, workdir);
            && |ds| == 8 + (if cfg.envvars.Some? then 1 else 0) + (if cfg.walltime.Some? then 1 else 0)
            && ds[0] == Opt("-N", "PM" + jobname) && ds[1] == Opt("-q", Quote(Join(queues, ",")))
            && ds[2] == Opt("-pe", "thread " + NatToString(cfg.ncpu))
  {
    var a := [Opt("-N", "PM" + jobname), Opt("-q", Quote(Join(queues, ","))), Opt("-pe", "thread " + NatToString(cfg.ncpu))];
    Seqs.AfterHead(a, Settings(cfg, workdir));
  }

  /** The script starts with the shell line, the job name, the queues and
      the thread count; the trap follows the directives and precedes the
      preparation commands, which precede the change to the working
      directory and the run command; the move line comes last, and only
      with a data directory. */
  lemma ScriptShape(cfg: Config, jobname: string, queues: seq<string>, cwd: Path, dir: Path, runsh: string)
    ensures var lines, workdir, prerun := JobScript(cfg, jobname, queues, cwd, dir, runsh), Abspath(cwd, dir), cfg.prerun.GetOr([]);
            var n := |Directives(cfg, jobname, queues, workdir)|;
            && n == 8 + (if cfg.envvars.Some? then 1 else 0) + (if cfg.walltime.Some? then 1 else 0)
            && lines[0] == Sim.Shebang && lines[1] == "#"
            && lines[2] == Render(Prefix, Opt("-N", "PM" + jobname))
            && lines[3] == Render(Prefix, Opt("-q", Quote(Join(queues, ","))))
            && lines[4] == Render(Prefix, Opt("-pe", "thread " + NatToString(cfg.ncpu)))
            && lines[3 + n] == Sim.TrapLine(workdir)
            && (forall k :: 0 <= k < |prerun| ==> lines[5 + n + k] == prerun[k])
            && lines[6 + n + |prerun|] == "cd " + workdir
            && lines[7 + n + |prerun|] == runsh
            && |lines| == 8 + n + |prerun| + (if cfg.datadir.Some? then 1 else 0)
  {
    var workdir := Abspath(cwd, dir);
    HeaderStart(cfg, jobname, queues, workdir);
    ScriptLines(Prefix, Directives(cfg, jobname, queues, workdir), workdir, cfg.prerun.GetOr([]), runsh,
                MoveTail(cfg, cwd, workdir));
  }

  /** The job name is the third line of every script. */
  lemma ScriptNamed(cfg: Config, jobname: string, queues: seq<string>, cwd: Path, dir: Path, runsh: string)
    ensures var lines := JobScript(cfg, jobname, queues, cwd, dir, runsh);
            |lines| > 2 && lines[2] == Render(Prefix, Opt("-N", "PM" + jobname))
  {
    ScriptShape(cfg, jobname, queues, cwd, dir, runsh);
  }

  /** The resource requests: `-l` for the GPUs and the memory always and
      for the wall time when set; the `-v` export exactly when the
      environment is set. */
  lemma ResourceFlags(cfg: Config, jobname: string, queues: seq<string>, workdir: Path)
    ensures var ds := Directives(cfg, jobname, queues, workdir);
            && CountFlag(ds, "-l") == 2 + (if cfg.walltime.Some? then 1 else 0)
            && CountFlag(ds, "-v") == (if cfg.envvars.Some? then 1 else 0)
  {
    var a := [Opt("-N", "PM" + jobname), Opt("-q", Quote(Join(queues, ","))), Opt("-pe", "thread " + NatToString(cfg.ncpu))];
    var fixed := [Opt("-l", "ngpus=" + NatToString(cfg.ngpu)), Opt("-l", "h_vmem=" + NatToString(cfg.memory)),
                  Opt("-wd", workdir), Opt("-o", cfg.outputstream), Opt("-e", cfg.errorstream)];
    var e := When(cfg.envvars.Some?, Opt("-v", cfg.envvars.GetOr("")));
    var w := When(cfg.walltime.Some?, Opt("-l", "h_rt=" + NatToString(cfg.walltime.GetOr(0))));
    forall f | f in ["-l", "-v"]
      ensures CountFlag(Directives(cfg, jobname, queues, workdir), f)
              == CountFlag(fixed, f) + CountFlag(e, f) + CountFlag(w, f)
    {
      CountFlagAbsent(a, f);
      CountFlagAppend(a, Settings(cfg, workdir), f);
      CountFlagAppend(fixed, e, f);
      CountFlagAppend(fixed + e, w, f);
    }
    assert fixed == [Opt("-l", "ngpus=" + NatToString(cfg.ngpu)), Opt("-l", "h_vmem=" + NatToString(cfg.memory))]
                    + [Opt("-wd", workdir), Opt("-o", cfg.outputstream), Opt("-e", cfg.errorstream)];
    CountFlagUniform([Opt("-l", "ngpus=" + NatToString(cfg.ngpu)), Opt("-l", "h_vmem=" + NatToString(cfg.memory))], "-l", "-l");
    CountFlagUniform([Opt("-l", "ngpus=" + NatToString(cfg.ngpu)), Opt("-l", "h_vmem=" + NatToString(cfg.memory))], "-l", "-v");
    CountFlagAbsent([Opt("-wd", workdir), Opt("-o", cfg.outputstream), Opt("-e", cfg.errorstream)], "-l");
    CountFlagAbsent([Opt("-wd", workdir), Opt("-o", cfg.outputstream), Opt("-e", cfg.errorstream)], "-v");
    CountFlagAppend([Opt("-l", "ngpus=" + NatToString(cfg.ngpu)), Opt("-l", "h_vmem=" + NatToString(cfg.memory))],
                    [Opt("-wd", workdir), Opt("-o", cfg.outputstream), Opt("-e", cfg.errorstream)], "-l");
    CountFlagAppend([Opt("-l", "ngpus=" + NatToString(cfg.ngpu)), Opt("-l", "h_vmem=" + NatToString(cfg.memory))],
                    [Opt("-wd", workdir), Opt("-o", cfg.outputstream), Opt("-e", cfg.errorstream)], "-v");
  }

  /* ---------------------------------------------------------------------
     Submission steps
     --------------------------------------------------------------------- */

  /** The submission command: the job script fed to `qsub` by the shell. */
  function SubmitCommand(qsubmit: string, jobPath: Path): seq<string>
  {
    ["/bin/sh", "-c", qsubmit + " < " + jobPath]
  }

  /** What `submit` does with each directory once the job name is `name`:
      the directory's run script, its marker removed, `job.sh` written
      and fed to `qsub`. */
  function StepsFor(runscript: string, cfg: Config, name: string, queues: seq<string>, cwd: Path,
                    qsubmit: string, exec: Exec): Steps
  {
    Steps(
      Sim.LookupOf(runscript, None),
      (f: FileSystem, d: Path) => Sim.CleanSentinel(f, d).fs,
      (d: Path) => Abspath(cwd, PathJoin(d, JobFile)),
      (f: FileSystem, p: Path) => f.OpenForWrite(p),
      (d: Path, run: string) => Ok(JobScript(cfg, name, queues, cwd, d, run)),
      (p: Path) => SubmitCommand(qsubmit, p),
      exec)
  }

  /** Every job of one submission carries the same name, and the script of
      each is the one written for its directory and run script. */
  lemma JobsShareName(runscript: string, cfg: Config, name: string, queues: seq<string>, fs: FileSystem,
                      qsubmit: string, exec: Exec, ds: seq<Path>)
    ensures var r := Submitted(StepsFor(runscript, cfg, name, queues, fs.cwd, qsubmit, exec), fs, ds, |ds|);
            forall k :: 0 <= k < |r.jobs| ==> |r.jobs[k].script| > 2 && r.jobs[k].script[2] == Render(Prefix, Opt("-N", "PM" + name))
  {
    var st := StepsFor(runscript, cfg, name, queues, fs.cwd, qsubmit, exec);
    var named := (lines: seq<string>) => |lines| > 2 && lines[2] == Render(Prefix, Opt("-N", "PM" + name));
    forall d: Path, run: string | st.script(d, run).Ok?
      ensures named(st.script(d, run).value)
    {
      ScriptNamed(cfg, name, queues, fs.cwd, d, run);
    }
    JobsScripted(st, fs, ds, |ds|, named);
  }

  /** Each job runs its own directory's run script and is written to that
      directory's `job.sh`; the loop stops only at a directory without an
      executable run script or at a failed submission. */
  lemma JobsRunOwnScript(runscript: string, cfg: Config, name: string, queues: seq<string>, fs: FileSystem,
                         qsubmit: string, exec: Exec, ds: seq<Path>)
    ensures var r := Submitted(StepsFor(runscript, cfg, name, queues, fs.cwd, qsubmit, exec), fs, ds, |ds|);
            && (forall k :: 0 <= k < |r.jobs| ==> r.jobs[k].run == Abspath(fs.cwd, PathJoin(ds[k], runscript)))
            && (forall k :: 0 <= k < |r.jobs| ==> r.jobs[k].path == Abspath(fs.cwd, PathJoin(ds[k], JobFile)))
  {
    var st := StepsFor(runscript, cfg, name, queues, fs.cwd, qsubmit, exec);
    assert KeepsCwd(st.clean);
    Sim.LookupOfFinds(runscript, None);
    JobsRunScripts(st, runscript, fs, ds, |ds|);
    SubmittedJobs(st, fs, ds, |ds|);
    var r := Submitted(st, fs, ds, |ds|);
    forall k | 0 <= k < |r.jobs|
      ensures r.jobs[k].path == Abspath(fs.cwd, PathJoin(ds[k], JobFile))
    {
      assert JobFor(st, r.jobs[k], ds[k]);
    }
  }

  /* ---------------------------------------------------------------------
     The queue object
     --------------------------------------------------------------------- */

  /** `SGEQueue`: the shared registry, the settings, the paths of the SGE
      binaries, and the job name the queue sets itself. */
  class SgeQueue {
    const sim: Sim.SimQueue
    const config: Config
    const qsubmit: string
    const qstatus: string
    const qcancel: string
    var jobname: Option<string>

    /** A queue with no directory registered yet (`_dirs` is None). */
    constructor (runscript: string, jobscript: string, config: Config, jobname: Option<string>,
                 qsubmit: string, qstatus: string, qcancel: string)
      ensures fresh(sim) && sim.dirs.None? && sim.runscript == runscript && sim.jobscript == jobscript
      ensures this.config == config && this.jobname == jobname
      ensures this.qsubmit == qsubmit && this.qstatus == qstatus && this.qcancel == qcancel
    {
      this.sim := new Sim.SimQueue(None, runscript, jobscript);
      this.config := config;
      this.jobname := jobname;
      this.qsubmit := qsubmit;
      this.qstatus := qstatus;
      this.qcancel := qcancel;
    }

    /** `submit(dirs)`: registers the directories, refuses to go on
        without a queue, names the jobs after the first directory unless
        a name was set, and writes and submits one job script per
        directory until the first error. `digits` are the random digits of
        the automatic name. */
    method Submit(fs: FileSystem, arg: Sim.DirsArg, digits: string, exec: Exec) returns (b: Batch)
      requires |digits| == 5 && AllDigits(digits)
      modifies this, sim
      ensures sim.dirs == Some(old(sim.dirs).GetOr([]) + Sim.EnsureList(arg))
      ensures config.queue.None? ==> b == Batch([], [], fs, Some(ValueError(NoQueue))) && jobname == old(jobname)
      ensures config.queue.Some? ==>
                var ds := Sim.EnsureList(arg);
                && jobname == (if ds == [] then old(jobname) else Some(old(jobname).GetOr(AutoJobName(fs.cwd, ds[0], digits))))
                && (ds != [] ==>
                      b == Submitted(StepsFor(sim.runscript, config, old(jobname).GetOr(AutoJobName(fs.cwd, ds[0], digits)),
                                              config.queue.value, fs.cwd, qsubmit, exec), fs, ds, |ds|))
                && (ds == [] ==> b == Batch([], [], fs, None))
    {
      var ds := sim.SubmitInit(arg);
      if config.queue.None? {
        return Batch([], [], fs, Some(ValueError(NoQueue)));
      }
      if ds == [] {
        return Batch([], [], fs, None);
      }
      b := SubmitDirs(fs, ds, digits, exec);
      SetName(jobname.GetOr(AutoJobName(fs.cwd, ds[0], digits)));
    }

    /** The loop of `submit` over directories `ds`, once a queue is known. */
    method SubmitDirs(fs: FileSystem, ds: seq<Path>, digits: string, exec: Exec) returns (b: Batch)
      requires config.queue.Some? && ds != [] && |digits| == 5 && AllDigits(digits)
      ensures b == Submitted(StepsFor(sim.runscript, config, jobname.GetOr(AutoJobName(fs.cwd, ds[0], digits)),
                                      config.queue.value, fs.cwd, qsubmit, exec), fs, ds, |ds|)
    {
      var name := jobname.GetOr(AutoJobName(fs.cwd, ds[0], digits));
      b := SubmitLoop(StepsFor(sim.runscript, config, name, config.queue.value, fs.cwd, qsubmit, exec), fs, ds);
    }

    /** The job name `submit` leaves behind. */
    method SetName(name: string)
      modifies this
      ensures jobname == Some(name)
    {
      jobname := Some(name);
    }

    /** `inprogress`: needs a queue and a job name; then the jobs of that
        name and of `user` listed on each queue, each query tried up to
        three times, summed over the queues. */
    method InProgress(user: string, run: Attempts) returns (r: Result<nat>)
      ensures config.queue.None? ==> r == Err(ValueError(NoQueue))
      ensures config.queue.Some? && jobname.None? ==> r == Err(ValueError(NoJobName))
      ensures config.queue.Some? && jobname.Some? ==>
                r == Total(run, PerQueue(qstatus, "-N", jobname.value, user, config.queue.value))
    {
      if config.queue.None? {
        return Err(ValueError(NoQueue));
      }
      if jobname.None? {
        return Err(ValueError(NoJobName));
      }
      r := SumCounts(run, PerQueue(qstatus, "-N", jobname.value, user, config.queue.value));
    }

    /** `stop`: needs a queue and a job name; cancels the jobs of that name
        and of `user` on each queue in turn; the first failure propagates. */
    method Stop(user: string, exec: Exec) returns (o: Outcome)
      ensures config.queue.None? ==> o == Fail(ValueError(NoQueue))
      ensures config.queue.Some? && jobname.None? ==> o == Fail(ValueError(NoJobName))
      ensures config.queue.Some? && jobname.Some? ==>
                o == RunAll(exec, PerQueue(qcancel, "-N", jobname.value, user, config.queue.value))
    {
      if config.queue.None? {
        return Fail(ValueError(NoQueue));
      }
      if jobname.None? {
        return Fail(ValueError(NoJobName));
      }
      var issued;
      o, issued := RunInOrder(exec, PerQueue(qcancel, "-N", jobname.value, user, config.queue.value));
    }
  }
}
