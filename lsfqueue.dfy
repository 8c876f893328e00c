/** The LSF backend: the `#BSUB` job script, submission through `bsub`,
    the job count over `bjobs` listings and cancellation with `bkill`. */
module LsfQueue {
  import opened Errors
  import opened Text
  import opened Paths
  import Sim = SimQueue
  import Seqs
  import opened Scheduler

  const Prefix := "#BSUB"
  const NoQueue := "The queue needs to be defined."
  const NoJobName := "The jobname needs to be defined."
  const BadVersion := "Version not supported"

  /** `gpu_options`: a dictionary, in insertion order. */
  type GpuOptions = seq<(string, string)>

  /** The settings read when writing a job script and querying LSF. The
      numeric settings are validated non-negative integers. */
  datatype Config = Config(
    version: int,
    queue: Option<seq<string>>,
    app: Option<string>,
    ngpu: nat,
    ncpu: nat,
    memory: nat,
    walltime: Option<nat>,
    resources: Option<seq<string>>,
    envvars: Option<string>,
    prerun: Option<seq<string>>,
    outputstream: string,
    errorstream: string,
    datadir: Option<Path>,
    trajext: string)

  /* ---------------------------------------------------------------------
     GPU directives
     --------------------------------------------------------------------- */

  const DefaultGpuOptions: GpuOptions := [("mode", "exclusive_process")]

  /** The GPU options after a job script is written: on LSF 10 with GPUs
      requested, missing or empty options become the exclusive-process
      default; otherwise they stay as they are. */
  function GpuOptionsAfter(cfg: Config, opts: Option<GpuOptions>): (o: Option<GpuOptions>)
    ensures cfg.ngpu == 0 || cfg.version != 10 ==> o == opts
    ensures o != opts ==> o == Some(DefaultGpuOptions) && (opts.None? || opts.value == [])
  {
    if cfg.ngpu != 0 && cfg.version == 10 && (opts.None? || opts.value == []) then Some(DefaultGpuOptions)
    else opts
  }

  /** Writing a second script changes the options no further. */
  lemma GpuOptionsSettle(cfg: Config, opts: Option<GpuOptions>)
    ensures GpuOptionsAfter(cfg, GpuOptionsAfter(cfg, opts)) == GpuOptionsAfter(cfg, opts)
    ensures GpuOptionsAfter(cfg, opts).Some? && GpuOptionsAfter(cfg, opts).value == [] ==> cfg.ngpu == 0 || cfg.version != 10
  {
  }

  function OptionTerms(opts: GpuOptions): (terms: seq<string>)
    ensures |terms| == |opts|
    ensures forall k :: 0 <= k < |opts| ==> terms[k] == opts[k].0 + "=" + opts[k].1
  {
    seq(|opts|, k requires 0 <= k < |opts| => opts[k].0 + "=" + opts[k].1)
  }

  /** The GPU request: nothing without GPUs; an exclusive-use resource
      requirement on LSF 9; a `-gpu` request listing the number of GPUs and
      then each option on LSF 10; any other version is refused. */
  function GpuDirectives(cfg: Config, opts: Option<GpuOptions>): (r: Result<seq<Directive>>)
    ensures r.Err? <==> cfg.ngpu != 0 && cfg.version != 9 && cfg.version != 10
    ensures r.Err? ==> r.error == AttributeError(BadVersion)
    ensures r.Ok? && cfg.ngpu == 0 ==> r.value == []
    ensures r.Ok? && cfg.ngpu != 0 ==> |r.value| == 1
    ensures r.Ok? && cfg.ngpu != 0 && cfg.version == 9 ==> r.value[0].flag == "-R"
    ensures r.Ok? && cfg.ngpu != 0 && cfg.version == 10 ==> r.value[0].flag == "-gpu"
  {
    var n := NatToString(cfg.ngpu);
    if cfg.ngpu == 0 then Ok([])
    else if cfg.version == 9 then
      Ok([Opt("-R", Quote("select[ngpus>0] rusage[ngpus_excl_p=" + n + "]"))])
    else if cfg.version == 10 then
      var o := GpuOptionsAfter(cfg, opts).GetOr([]);
      Ok([Opt("-gpu", Quote(Join(["num=" + n] + OptionTerms(o), ":")))])
    else Err(AttributeError(BadVersion))
  }

  /** On LSF 10 with GPUs requested and no options, the request is for
      that many GPUs in exclusive-process mode. */
  lemma GpuDefaultRequest(cfg: Config, opts: Option<GpuOptions>)
    requires cfg.ngpu != 0 && cfg.version == 10 && (opts.None? || opts.value == [])
    ensures GpuDirectives(cfg, opts)
            == Ok([Opt("-gpu", Quote(Join(["num=" + NatToString(cfg.ngpu), "mode=exclusive_process"], ":")))])
  {
    assert OptionTerms(DefaultGpuOptions)[0] == "mode" + "=" + "exclusive_process" == "mode=exclusive_process";
    assert ["num=" + NatToString(cfg.ngpu)] + OptionTerms(DefaultGpuOptions)
           == ["num=" + NatToString(cfg.ngpu), "mode=exclusive_process"];
  }

  /* ---------------------------------------------------------------------
     The job script
     --------------------------------------------------------------------- */

  /** The `#BSUB` directives, in the order they are written; `gpu` is the
      GPU request and `workdir` the absolute working directory. */
  function Directives(cfg: Config, jobname: string, queues: seq<string>, gpu: seq<Directive>, workdir: Path)
    : seq<Directive>
  {
    [Opt("-J", jobname), Opt("-q", Quote(Join(queues, " "))), Opt("-n", NatToString(cfg.ncpu))]
    + Settings(cfg, gpu, workdir)
  }

  /** The directives after the name, the queues and the CPU count. */
  function Settings(cfg: Config, gpu: seq<Directive>, workdir: Path): seq<Directive>
  {
    When(cfg.app.Some?, Opt("-app", cfg.app.GetOr("")))
    + gpu
    + ResourceDirectives(cfg.resources.GetOr([]))
    + [Opt("-M", NatToString(cfg.memory)), Opt("-cwd", workdir), Opt("-outdir", workdir),
       Opt("-o", cfg.outputstream), Opt("-e", cfg.errorstream)]
    + When(cfg.envvars.Some?, Opt("--env", cfg.envvars.GetOr("")))
    + When(cfg.walltime.Some?, Opt("-W", NatToString(cfg.walltime.GetOr(0))))
  }

  function ResourceDirectives(resources: seq<string>): (ds: seq<Directive>)
    ensures |ds| == |resources|
    ensures forall k :: 0 <= k < |ds| ==> ds[k] == Opt("-R", Quote(resources[k]))
  {
    seq(|resources|, k requires 0 <= k < |resources| => Opt("-R", Quote(resources[k])))
  }

  /** The line moving the finished trajectories into a directory of
      `datadir` named after the job directory, when `datadir` is set. */
  function MoveTail(cfg: Config, cwd: Path, workdir: Path): (tail: seq<string>)
    ensures |tail| == if cfg.datadir.Some? then 1 else 0
  {
    if cfg.datadir.None? then []
    else
      var target := Abspath(cwd, PathJoin(cfg.datadir.value, Basename(Normpath(workdir))));
      ["mv *." + cfg.trajext + " " + target]
  }

  /** The directives of the script for working directory `workdir`;
      none are written when the GPU request fails. */
  function Header(cfg: Config, jobname: string, queues: seq<string>, opts: Option<GpuOptions>, workdir: Path)
    : seq<Directive>
  {
    Directives(cfg, jobname, queues, GpuDirectives(cfg, opts).GetOr([]), workdir)
  }

  /** `_createJobScript(fname, workdir, runsh)`: the lines of the script
      written for directory `dir` (made absolute against `cwd`), running
      `runsh`; the text is these lines joined by newlines. */
  function JobScript(cfg: Config, jobname: string, queues: seq<string>, opts: Option<GpuOptions>,
                     cwd: Path, dir: Path, runsh: string): Result<seq<string>>
  {
    var gpu := GpuDirectives(cfg, opts);
    if gpu.Err? then Err(gpu.error)
    else
      var workdir := Abspath(cwd, dir);
      Ok(Script(Prefix, Header(cfg, jobname, queues, opts, workdir), workdir, cfg.prerun.GetOr([]), runsh,
                MoveTail(cfg, cwd, workdir)))
  }

  /** The directives start with the job name, the queues and the CPU
      count, and hold at least the eight that are always written. */
  lemma HeaderStart(cfg: Config, jobname: string, queues: seq<string>, gpu: seq<Directive>, workdir: Path)
    ensures var ds := Directives(cfg, jobname, queues, gpu, workdir);
            && |ds| >= 8
            && ds[0] == Opt("-J", jobname) && ds[1] == Opt("-q", Quote(Join(queues, " ")))
            && ds[2] == Opt("-n", NatToString(cfg.ncpu))
  {
    var a := [Opt("-J", jobname), Opt("-q", Quote(Join(queues, " "))), Opt("-n", NatToString(cfg.ncpu))];
    Seqs.AfterHead(a, Settings(cfg, gpu, workdir));
  }

  /** The script fails only for an unsupported version with GPUs;
      otherwise its lines lie as `ScriptLayout` says. */
  lemma ScriptShape(cfg: Config, jobname: string, queues: seq<string>, opts: Option<GpuOptions>,
                    cwd: Path, dir: Path, runsh: string)
    ensures var r := JobScript(cfg, jobname, queues, opts, cwd, dir, runsh);
            r.Err? <==> cfg.ngpu != 0 && cfg.version != 9 && cfg.version != 10
    ensures var r := JobScript(cfg, jobname, queues, opts, cwd, dir, runsh);
            r.Ok? ==>
              var lines, workdir, prerun := r.value, Abspath(cwd, dir), cfg.prerun.GetOr([]);
              var n := |Header(cfg, jobname, queues, opts, workdir)|;
              && n >= 8
              && |lines| == 8 + n + |prerun| + (if cfg.datadir.Some? then 1 else 0)
              && lines[0] == Sim.Shebang && lines[1] == "#"
              && lines[2] == Render(Prefix, Opt("-J", jobname))
              && lines[3] == Render(Prefix, Opt("-q", Quote(Join(queues, " "))))
              && lines[4] == Render(Prefix, Opt("-n", NatToString(cfg.ncpu)))
              && lines[3 + n] == Sim.TrapLine(workdir)
              && Seqs.PartAt(lines, 5 + n, prerun)
              && lines[6 + n + |prerun|] == "cd " + workdir
              && lines[7 + n + |prerun|] == runsh
  {
    if JobScript(cfg, jobname, queues, opts, cwd, dir, runsh).Ok? {
      ScriptLayout(cfg, jobname, queues, opts, cwd, dir, runsh);
    }
  }

  /** A script that was written starts with the shell line, the job name,
      the queues joined by spaces and the CPU count; the trap follows the
      `n` directives and precedes the preparation commands, which precede
      the change to the working directory and the run command; the move
      line comes last, and only with a data directory. */
  lemma ScriptLayout(cfg: Config, jobname: string, queues: seq<string>, opts: Option<GpuOptions>,
                     cwd: Path, dir: Path, runsh: string)
    requires JobScript(cfg, jobname, queues, opts, cwd, dir, runsh).Ok?
    ensures var lines, workdir, prerun := JobScript(cfg, jobname, queues, opts, cwd, dir, runsh).value,
                                          Abspath(cwd, dir), cfg.prerun.GetOr([]);
            var n := |Header(cfg, jobname, queues, opts, workdir)|;
            && n >= 8
            && |lines| == 8 + n + |prerun| + (if cfg.datadir.Some? then 1 else 0)
            && lines[0] == Sim.Shebang && lines[1] == "#"
            && lines[2] == Render(Prefix, Opt("-J", jobname))
            && lines[3] == Render(Prefix, Opt("-q", Quote(Join(queues, " "))))
            && lines[4] == Render(Prefix, Opt("-n", NatToString(cfg.ncpu)))
            && lines[3 + n] == Sim.TrapLine(workdir)
            && Seqs.PartAt(lines, 5 + n, prerun)
            && lines[6 + n + |prerun|] == "cd " + workdir
            && lines[7 + n + |prerun|] == runsh
  {
    var workdir := Abspath(cwd, dir);
    HeaderStart(cfg, jobname, queues, GpuDirectives(cfg, opts).GetOr([]), workdir);
    HeadedLines(JobScript(cfg, jobname, queues, opts, cwd, dir, runsh).value, Header(cfg, jobname, queues, opts, workdir),
                workdir, cfg.prerun.GetOr([]), runsh, MoveTail(cfg, cwd, workdir), jobname, queues, cfg.ncpu);
  }

  /** Where the lines of a script lie, for directives that start with the
      job name, the queues and the CPU count. */
  lemma HeadedLines(lines: seq<string>, ds: seq<Directive>, workdir: Path, prerun: seq<string>, runsh: string,
                    tail: seq<string>, jobname: string, queues: seq<string>, ncpu: nat)
    requires lines == Script(Prefix, ds, workdir, prerun, runsh, tail)
    requires |ds| >= 8 && ds[0] == Opt("-J", jobname) && ds[1] == Opt("-q", Quote(Join(queues, " ")))
    requires ds[2] == Opt("-n", NatToString(ncpu))
    ensures && |lines| == 8 + |ds| + |prerun| + |tail|
            && lines[0] == Sim.Shebang && lines[1] == "#"
            && lines[2] == Render(Prefix, Opt("-J", jobname))
            && lines[3] == Render(Prefix, Opt("-q", Quote(Join(queues, " "))))
            && lines[4] == Render(Prefix, Opt("-n", NatToString(ncpu)))
            && lines[3 + |ds|] == Sim.TrapLine(workdir)
            && Seqs.PartAt(lines, 5 + |ds|, prerun)
            && lines[6 + |ds| + |prerun|] == "cd " + workdir
            && lines[7 + |ds| + |prerun|] == runsh
  {
    ScriptLines(Prefix, ds, workdir, prerun, runsh, tail);
    assert lines[2 + 0] == Render(Prefix, ds[0]) && lines[2 + 1] == Render(Prefix, ds[1]);
    assert lines[2 + 2] == Render(Prefix, ds[2]);
  }

  /** The count of a flag over the six pieces of the settings, when the
      fixed fourth piece does not carry it. */
  lemma CountFlagPieces(b: seq<Directive>, gpu: seq<Directive>, c: seq<Directive>,
                        d: seq<Directive>, e: seq<Directive>, w: seq<Directive>, f: string)
    requires forall k :: 0 <= k < |d| ==> d[k].flag != f
    ensures CountFlag(b + gpu + c + d + e + w, f)
            == CountFlag(b, f) + CountFlag(gpu, f) + CountFlag(c, f) + CountFlag(e, f) + CountFlag(w, f)
  {
    CountFlagAbsent(d, f);
    CountFlagAppend(b, gpu, f);
    CountFlagAppend(b + gpu, c, f);
    CountFlagAppend(b + gpu + c, d, f);
    CountFlagAppend(b + gpu + c + d, e, f);
    CountFlagAppend(b + gpu + c + d + e, w, f);
  }

  /** How often a flag other than those of the directives always written
      occurs among the directives: once for
      each setting that is present and carries it, once per resource for
      `-R`, plus its occurrences in the GPU request `gpu`. */
  lemma FlagCount(cfg: Config, jobname: string, queues: seq<string>, gpu: seq<Directive>, workdir: Path, f: string)
    requires f !in ["-J", "-q", "-n", "-M", "-cwd", "-outdir", "-o", "-e"]
    ensures CountFlag(Directives(cfg, jobname, queues, gpu, workdir), f)
            == (if cfg.app.Some? && f == "-app" then 1 else 0) + CountFlag(gpu, f)
               + (if f == "-R" then |cfg.resources.GetOr([])| else 0)
               + (if cfg.envvars.Some? && f == "--env" then 1 else 0)
               + (if cfg.walltime.Some? && f == "-W" then 1 else 0)
  {
    var a := [Opt("-J", jobname), Opt("-q", Quote(Join(queues, " "))), Opt("-n", NatToString(cfg.ncpu))];
    var b := When(cfg.app.Some?, Opt("-app", cfg.app.GetOr("")));
    var c := ResourceDirectives(cfg.resources.GetOr([]));
    var d := [Opt("-M", NatToString(cfg.memory)), Opt("-cwd", workdir), Opt("-outdir", workdir),
              Opt("-o", cfg.outputstream), Opt("-e", cfg.errorstream)];
    var e := When(cfg.envvars.Some?, Opt("--env", cfg.envvars.GetOr("")));
    var w := When(cfg.walltime.Some?, Opt("-W", NatToString(cfg.walltime.GetOr(0))));
    CountFlagAbsent(a, f);
    CountFlagAppend(a, Settings(cfg, gpu, workdir), f);
    CountFlagPieces(b, gpu, c, d, e, w, f);
    CountFlagUniform(c, "-R", f);
    assert CountFlag(b, f) == if cfg.app.Some? && f == "-app" then 1 else 0;
    assert CountFlag(e, f) == if cfg.envvars.Some? && f == "--env" then 1 else 0;
    assert CountFlag(w, f) == if cfg.walltime.Some? && f == "-W" then 1 else 0;
  }

  /** The application profile, the `--env` line and the `-W` line are
      each written once exactly when their setting is present. */
  lemma SettingFlags(cfg: Config, jobname: string, queues: seq<string>, opts: Option<GpuOptions>, workdir: Path)
    requires GpuDirectives(cfg, opts).Ok?
    ensures var ds := Directives(cfg, jobname, queues, GpuDirectives(cfg, opts).value, workdir);
            && CountFlag(ds, "-app") == (if cfg.app.Some? then 1 else 0)
            && CountFlag(ds, "--env") == (if cfg.envvars.Some? then 1 else 0)
            && CountFlag(ds, "-W") == (if cfg.walltime.Some? then 1 else 0)
  {
    var gpu := GpuDirectives(cfg, opts).value;
    CountFlagSingle(gpu, "-app");
    CountFlagSingle(gpu, "--env");
    CountFlagSingle(gpu, "-W");
    FlagCount(cfg, jobname, queues, gpu, workdir, "-app");
    FlagCount(cfg, jobname, queues, gpu, workdir, "--env");
    FlagCount(cfg, jobname, queues, gpu, workdir, "-W");
  }

  /** One `-R` line per resource plus the GPU requirement on LSF 9, and
      the `-gpu` request only on LSF 10 with GPUs. */
  lemma GpuFlags(cfg: Config, jobname: string, queues: seq<string>, opts: Option<GpuOptions>, workdir: Path)
    requires GpuDirectives(cfg, opts).Ok?
    ensures var ds := Directives(cfg, jobname, queues, GpuDirectives(cfg, opts).value, workdir);
            && CountFlag(ds, "-R") == (if cfg.ngpu != 0 && cfg.version == 9 then 1 else 0) + |cfg.resources.GetOr([])|
            && CountFlag(ds, "-gpu") == (if cfg.ngpu != 0 && cfg.version == 10 then 1 else 0)
  {
    var gpu := GpuDirectives(cfg, opts).value;
    CountFlagSingle(gpu, "-R");
    CountFlagSingle(gpu, "-gpu");
    FlagCount(cfg, jobname, queues, gpu, workdir, "-R");
    FlagCount(cfg, jobname, queues, gpu, workdir, "-gpu");
  }

  /** Writing the script with the options as they are after a first
      script gives the same lines: the default is applied once. */
  lemma ScriptAfterDefault(cfg: Config, jobname: string, queues: seq<string>, opts: Option<GpuOptions>,
                           cwd: Path, dir: Path, runsh: string)
    ensures JobScript(cfg, jobname, queues, GpuOptionsAfter(cfg, opts), cwd, dir, runsh)
            == JobScript(cfg, jobname, queues, opts, cwd, dir, runsh)
  {
    GpuOptionsSettle(cfg, opts);
  }

  /* ---------------------------------------------------------------------
     Submission steps
     --------------------------------------------------------------------- */

  /** The submission command: the job script fed to `bsub` by the shell. */
  function SubmitCommand(qsubmit: string, jobPath: Path): seq<string>
  {
    ["/bin/sh", "-c", qsubmit + " < " + jobPath]
  }

  /** What `submit` does with each directory once the job name is `name`. */
  function StepsFor(runscript: string, jobscript: string, cfg: Config, name: string, queues: seq<string>,
                    opts: Option<GpuOptions>, cwd: Path, commands: Option<seq<string>>,
                    qsubmit: string, exec: Exec): Steps
  {
    Steps(
      Sim.LookupOf(runscript, commands),
      (f: FileSystem, d: Path) => Sim.CleanSentinel(f, d).fs,
      (d: Path) => Abspath(cwd, PathJoin(d, jobscript)),
      (f: FileSystem, p: Path) => f.OpenForWrite(p),
      (d: Path, run: string) => JobScript(cfg, name, queues, opts, cwd, d, run),
      (p: Path) => SubmitCommand(qsubmit, p),
      exec)
  }

  /** The job name is the third line of every script written. */
  lemma ScriptNamed(cfg: Config, jobname: string, queues: seq<string>, opts: Option<GpuOptions>,
                    cwd: Path, dir: Path, runsh: string)
    ensures var r := JobScript(cfg, jobname, queues, opts, cwd, dir, runsh);
            r.Ok? ==> |r.value| > 2 && r.value[2] == Render(Prefix, Opt("-J", jobname))
  {
    ScriptShape(cfg, jobname, queues, opts, cwd, dir, runsh);
  }

  /** Every job of one submission carries the same name: the first
      directory's automatic name unless one was set. */
  lemma JobsShareName(runscript: string, jobscript: string, cfg: Config, name: string, queues: seq<string>,
                      opts: Option<GpuOptions>, fs: FileSystem, commands: Option<seq<string>>,
                      qsubmit: string, exec: Exec, ds: seq<Path>)
    ensures var r := Submitted(StepsFor(runscript, jobscript, cfg, name, queues, opts, fs.cwd, commands, qsubmit, exec), fs, ds, |ds|);
            forall k :: 0 <= k < |r.jobs| ==> |r.jobs[k].script| > 2 && r.jobs[k].script[2] == Render(Prefix, Opt("-J", name))
  {
    var st := StepsFor(runscript, jobscript, cfg, name, queues, opts, fs.cwd, commands, qsubmit, exec);
    var named := (lines: seq<string>) => |lines| > 2 && lines[2] == Render(Prefix, Opt("-J", name));
    forall d: Path, run: string | st.script(d, run).Ok?
      ensures named(st.script(d, run).value)
    {
      ScriptNamed(cfg, name, queues, opts, fs.cwd, d, run);
    }
    JobsScripted(st, fs, ds, |ds|, named);
  }

  /** Each job of one submission runs its own directory's run script, or
      the command given for it. */
  lemma JobsRunOwnCommand(runscript: string, jobscript: string, cfg: Config, name: string, queues: seq<string>,
                          opts: Option<GpuOptions>, fs: FileSystem, commands: Option<seq<string>>,
                          qsubmit: string, exec: Exec, ds: seq<Path>)
    ensures var r := Submitted(StepsFor(runscript, jobscript, cfg, name, queues, opts, fs.cwd, commands, qsubmit, exec), fs, ds, |ds|);
            && (commands.None? ==> forall k :: 0 <= k < |r.jobs| ==> r.jobs[k].run == Abspath(fs.cwd, PathJoin(ds[k], runscript)))
            && (commands.Some? ==> |r.jobs| <= |commands.value| && forall k :: 0 <= k < |r.jobs| ==> r.jobs[k].run == commands.value[k])
  {
    var st := StepsFor(runscript, jobscript, cfg, name, queues, opts, fs.cwd, commands, qsubmit, exec);
    assert KeepsCwd(st.clean);
    Sim.LookupOfFinds(runscript, commands);
    if commands.None? {
      JobsRunScripts(st, runscript, fs, ds, |ds|);
    } else {
      JobsRunCommands(st, commands.value, fs, ds, |ds|);
    }
  }

  /** With commands given, a first directory "b" missing below the working
      directory "/a" is not submitted: opening "b/<jobscript>" raises
      FileNotFoundError before any script is recorded or `bsub` runs. */
  lemma MissingDirectoryNotSubmitted(runscript: string, jobscript: string, cfg: Config, name: string, queues: seq<string>,
                                     opts: Option<GpuOptions>, fs: FileSystem, commands: seq<string>,
                                     qsubmit: string, exec: Exec, ds: seq<Path>, a: string)
    requires ds != [] && commands != []
    requires fs.cwd == "/" + a && Plain(a) && Plain(ds[0]) && Plain(jobscript)
    requires "/" + a + "/" + ds[0] !in fs.dirs && "/" + a + "/" + ds[0] !in fs.files && "/" + a !in fs.files
    ensures var r := Submitted(StepsFor(runscript, jobscript, cfg, name, queues, opts, fs.cwd, Some(commands), qsubmit, exec), fs, ds, |ds|);
            r.jobs == [] && r.outputs == [] && r.error.Some? && r.error.value.FileNotFoundError?
  {
    var st := StepsFor(runscript, jobscript, cfg, name, queues, opts, fs.cwd, Some(commands), qsubmit, exec);
    Sim.LookupOfFinds(runscript, Some(commands));
    MissingDirectoryStopsCommands(st, fs, ds, a, jobscript, commands);
  }

  /* ---------------------------------------------------------------------
     The queue object
     --------------------------------------------------------------------- */

  /** `LsfQueue`: the shared registry, the settings, the paths of the LSF
      binaries, and the two settings the queue itself updates. */
  class LsfQueue {
    const sim: Sim.SimQueue
    const config: Config
    const qsubmit: string
    const qstatus: string
    const qcancel: string
    var jobname: Option<string>
    var gpuOptions: Option<GpuOptions>

    /** A queue with no directory registered yet (`_dirs` is None). */
    constructor (runscript: string, jobscript: string, config: Config, jobname: Option<string>,
                 gpuOptions: Option<GpuOptions>, qsubmit: string, qstatus: string, qcancel: string)
      ensures fresh(sim) && sim.dirs.None? && sim.runscript == runscript && sim.jobscript == jobscript
      ensures this.config == config
      ensures this.jobname == jobname && this.gpuOptions == gpuOptions
      ensures this.qsubmit == qsubmit && this.qstatus == qstatus && this.qcancel == qcancel
    {
      this.sim := new Sim.SimQueue(None, runscript, jobscript);
      this.config := config;
      this.jobname := jobname;
      this.gpuOptions := gpuOptions;
      this.qsubmit := qsubmit;
      this.qstatus := qstatus;
      this.qcancel := qcancel;
    }

    /** `_createJobScript`: the script lines, with the job name and queues
        rendered as Python prints them (`None` when unset; joining no
        queue list fails); the GPU options take their default when LSF 10
        needs one. */
    method WriteJobScript(cwd: Path, dir: Path, runsh: string) returns (r: Result<seq<string>>)
      modifies this
      ensures config.queue.None? ==> r == Err(TypeError) && gpuOptions == old(gpuOptions)
      ensures config.queue.Some? ==>
                r == JobScript(config, jobname.GetOr("None"), config.queue.value, old(gpuOptions), cwd, dir, runsh)
                && gpuOptions == GpuOptionsAfter(config, old(gpuOptions))
      ensures jobname == old(jobname)
    {
      if config.queue.None? {
        return Err(TypeError);
      }
      var before := gpuOptions;
      gpuOptions := GpuOptionsAfter(config, gpuOptions);
      ScriptAfterDefault(config, jobname.GetOr("None"), config.queue.value, before, cwd, dir, runsh);
      r := JobScript(config, jobname.GetOr("None"), config.queue.value, gpuOptions, cwd, dir, runsh);
    }

    /** `submit(dirs, commands)`: registers the directories, refuses to go
        on without a queue, names the jobs after the first directory unless
        a name was set, and writes and submits one job script per
        directory until the first error. `digits` are the random digits of
        the automatic name. */
    method Submit(fs: FileSystem, arg: Sim.DirsArg, commands: Option<seq<string>>, digits: string, exec: Exec)
      returns (b: Batch)
      requires |digits| == 5 && AllDigits(digits)
      modifies this, sim
      ensures sim.dirs == Some(old(sim.dirs).GetOr([]) + Sim.EnsureList(arg))
      ensures config.queue.None? ==>
                b == Batch([], [], fs, Some(ValueError(NoQueue)))
                && jobname == old(jobname) && gpuOptions == old(gpuOptions)
      ensures config.queue.Some? ==>
                var ds := Sim.EnsureList(arg);
                && jobname == (if ds == [] then old(jobname) else Some(old(jobname).GetOr(AutoJobName(fs.cwd, ds[0], digits))))
                && (ds != [] ==>
                      b == Submitted(StepsFor(sim.runscript, sim.jobscript, config, old(jobname).GetOr(AutoJobName(fs.cwd, ds[0], digits)), config.queue.value, old(gpuOptions),
                                              fs.cwd, commands, qsubmit, exec), fs, ds, |ds|))
                && (ds == [] ==> b == Batch([], [], fs, None))
                && gpuOptions == (if ds != [] && Sim.RunCommand(sim.runscript, fs, ds[0], 0, commands).Ok?
                                     && fs.OpenForWrite(Abspath(fs.cwd, PathJoin(ds[0], sim.jobscript))).None?
                                  then GpuOptionsAfter(config, old(gpuOptions)) else old(gpuOptions))
    {
      var ds := sim.SubmitInit(arg);
      if config.queue.None? {
        return Batch([], [], fs, Some(ValueError(NoQueue)));
      }
      if ds == [] {
        return Batch([], [], fs, None);
      }
      var first := Sim.RunCommand(sim.runscript, fs, ds[0], 0, commands);
      var refused := fs.OpenForWrite(Abspath(fs.cwd, PathJoin(ds[0], sim.jobscript)));
      b := SubmitDirs(fs, ds, commands, digits, exec);
      Settle(jobname.GetOr(AutoJobName(fs.cwd, ds[0], digits)), first.Ok? && refused.None?);
    }

    /** What `submit` leaves behind: the job name it used, and the GPU
        options as the first job script set them, once it was opened for
        writing (`written`). */
    method Settle(name: string, written: bool)
      modifies this
      ensures jobname == Some(name)
      ensures gpuOptions == if written then GpuOptionsAfter(config, old(gpuOptions)) else old(gpuOptions)
    {
      jobname := Some(name);
      if written {
        gpuOptions := GpuOptionsAfter(config, gpuOptions);
      }
    }

    /** The loop of `submit` over directories `ds`, once a queue is known. */
    method SubmitDirs(fs: FileSystem, ds: seq<Path>, commands: Option<seq<string>>, digits: string, exec: Exec)
      returns (b: Batch)
      requires config.queue.Some? && ds != [] && |digits| == 5 && AllDigits(digits)
      ensures b == Submitted(StepsFor(sim.runscript, sim.jobscript, config, jobname.GetOr(AutoJobName(fs.cwd, ds[0], digits)),
                                      config.queue.value, gpuOptions, fs.cwd, commands, qsubmit, exec), fs, ds, |ds|)
    {
      var name := jobname.GetOr(AutoJobName(fs.cwd, ds[0], digits));
      b := SubmitLoop(StepsFor(sim.runscript, sim.jobscript, config, name, config.queue.value, gpuOptions, fs.cwd, commands, qsubmit, exec), fs, ds);
    }

    /** `inprogress`: needs a queue and a job name; then the jobs of that
        name and of `user` listed on each queue, each query tried up to
        three times, summed over the queues. */
    method InProgress(user: string, run: Attempts) returns (r: Result<nat>)
      ensures config.queue.None? ==> r == Err(ValueError(NoQueue))
      ensures config.queue.Some? && jobname.None? ==> r == Err(ValueError(NoJobName))
      ensures config.queue.Some? && jobname.Some? ==>
                r == Total(run, PerQueue(qstatus, "-J", jobname.value, user, config.queue.value))
    {
      if config.queue.None? {
        return Err(ValueError(NoQueue));
      }
      if jobname.None? {
        return Err(ValueError(NoJobName));
      }
      r := SumCounts(run, PerQueue(qstatus, "-J", jobname.value, user, config.queue.value));
    }

    /** `stop`: needs a job name; cancels the jobs of that name and of
        `user` on each queue in turn, or on every queue with a single
        command when no queue is set; the first failure propagates. */
    method Stop(user: string, exec: Exec) returns (o: Outcome)
      ensures jobname.None? ==> o == Fail(ValueError(NoJobName))
      ensures jobname.Some? ==> o == RunAll(exec, CancelCommands(config, qcancel, jobname.value, user))
    {
      if jobname.None? {
        return Fail(ValueError(NoJobName));
      }
      var issued;
      o, issued := RunInOrder(exec, CancelCommands(config, qcancel, jobname.value, user));
    }
  }

  /** The cancellations `stop` issues: one per queue, naming it, or one
      naming no queue. */
  function CancelCommands(cfg: Config, qcancel: string, name: string, user: string): (cmds: seq<seq<string>>)
    ensures cfg.queue.Some? ==> |cmds| == |cfg.queue.value|
    ensures cfg.queue.None? ==> cmds == [[qcancel, "-J", name, "-u", user]]
    ensures forall k :: 0 <= k < |cmds| ==> |cmds[k]| >= 5 && cmds[k][..5] == [qcancel, "-J", name, "-u", user]
  {
    if cfg.queue.Some? then PerQueue(qcancel, "-J", name, user, cfg.queue.value)
    else [[qcancel, "-J", name, "-u", user]]
  }
}
