/** The PBS backend: the `#PBS` job script (wall time as hours, minutes
    and seconds, the inherited environment, the `select` statement), the
    queue found from a `qstat` listing, submission through `qsub` with the
    job identifiers kept, the job count of one queue, and cancellation. */
module PbsQueue {
  import opened Errors
  import opened Text
  import opened Paths
  import Sim = SimQueue
  import Seqs
  import opened Scheduler

  const Prefix := "#PBS"
  const NoJobName := "The jobname needs to be defined."
  /** The queue GPU jobs go to when none is set. */
  const GpuQueue := "gpgpu"
  /** What reading the undeclared `partition` attribute raises. */
  const NoPartition := "'PBSQueue' object has no attribute 'partition'"

  /** The settings read when writing a job script that the queue does not
      change itself. The numeric settings are validated non-negative
      integers, the wall time a positive one. */
  datatype Config = Config(
    ngpu: nat,
    ncpu: nat,
    memory: nat,
    walltime: nat,
    environment: Option<string>,
    datadir: Option<Path>,
    trajext: string,
    cluster: Option<string>,
    scratchLocal: Option<nat>)

  /** The process environment: variable name to value. */
  type Environ = map<string, string>

  /** A Python string setting used as a condition: set and not empty. */
  predicate Truthy(s: Option<string>)
  {
    s.Some? && s.value != ""
  }

  /* ---------------------------------------------------------------------
     Settings the job script derives
     --------------------------------------------------------------------- */

  /** The queue after `_createJobScript` looked at it: a GPU job without a
      queue goes to the GPU queue. */
  function QueueAfter(queue: Option<string>, ngpu: nat): Option<string>
  {
    if !Truthy(queue) && ngpu > 0 then Some(GpuQueue) else queue
  }

  /** The default applies at most once, and afterwards a queue is named
      exactly when one was or the job wants GPUs. */
  lemma QueueDefaultOnce(queue: Option<string>, ngpu: nat)
    ensures QueueAfter(QueueAfter(queue, ngpu), ngpu) == QueueAfter(queue, ngpu)
    ensures Truthy(QueueAfter(queue, ngpu)) <==> Truthy(queue) || ngpu > 0
    ensures Truthy(queue) ==> QueueAfter(queue, ngpu) == queue
  {
  }

  /** A wall time split into hours, minutes and seconds. */
  datatype Hms = Hms(hours: nat, minutes: nat, seconds: nat)

  /** The split `_createJobScript` makes of a wall time in seconds. */
  function SplitWalltime(w: nat): Hms
  {
    Hms(w / 3600, (w % 3600) / 60, w % 3600 % 60)
  }

  /** The split gives the wall time back, with minutes and seconds below
      sixty. */
  lemma HmsSplit(w: nat)
    ensures var t := SplitWalltime(w);
            && t.hours * 3600 + t.minutes * 60 + t.seconds == w
            && t.minutes < 60 && t.seconds < 60
  {
    var h, r := w / 3600, w % 3600;
    assert h * 3600 + r == w;
    assert (r / 60) * 60 + r % 60 == r;
  }

  /** Minutes and seconds below sixty leave only one way to write a wall
      time. */
  lemma HmsUnique(w: nat, t: Hms)
    requires t.minutes < 60 && t.seconds < 60 && t.hours * 3600 + t.minutes * 60 + t.seconds == w
    ensures t == SplitWalltime(w)
  {
    var s := SplitWalltime(w);
    HmsSplit(w);
    MulGap(t.hours, s.hours, 3600);
    MulGap(s.hours, t.hours, 3600);
    assert t.minutes * 60 + t.seconds == s.minutes * 60 + s.seconds;
    MulGap(t.minutes, s.minutes, 60);
    MulGap(s.minutes, t.minutes, 60);
  }

  /** Distinct multiples of `q` lie at least `q` apart. */
  lemma {:induction false} MulGap(a: nat, b: nat, q: nat)
    ensures a < b ==> a * q + q <= b * q
    decreases b
  {
    if a < b {
      assert (b - 1) * q + q == b * q;
      if a + 1 < b {
        MulGap(a, b - 1, q);
      }
    }
  }

  /** `h:m:s`, each number without padding. */
  function WalltimeText(w: nat): string
  {
    var t := SplitWalltime(w);
    NatToString(t.hours) + ":" + NatToString(t.minutes) + ":" + NatToString(t.seconds)
  }

  /** Reading the wall time back: the text has three colon-separated
      numbers that give back the seconds. */
  lemma WalltimeReadBack(w: nat)
    ensures var parts := Split(WalltimeText(w), ':');
            && |parts| == 3 && AllDigits(parts[0]) && AllDigits(parts[1]) && AllDigits(parts[2])
            && DigitsValue(parts[0]) * 3600 + DigitsValue(parts[1]) * 60 + DigitsValue(parts[2]) == w
  {
    var t := SplitWalltime(w);
    HmsSplit(w);
    WalltimeFields(t);
    NatToStringRoundTrip(t.hours);
    NatToStringRoundTrip(t.minutes);
    NatToStringRoundTrip(t.seconds);
  }

  /** The three numbers of a wall time text, split at the colons. */
  lemma WalltimeFields(t: Hms)
    ensures Split(NatToString(t.hours) + ":" + NatToString(t.minutes) + ":" + NatToString(t.seconds), ':')
            == [NatToString(t.hours), NatToString(t.minutes), NatToString(t.seconds)]
  {
    var h, m, s := NatToString(t.hours), NatToString(t.minutes), NatToString(t.seconds);
    DigitsLack(h, ':');
    DigitsLack(m, ':');
    DigitsLack(s, ':');
    SplitThree(h, m, s, ':');
  }

  /** A variable a job inherits: set, with a non-empty value. */
  predicate Inherited(env: Environ, name: string)
  {
    name in env && env[name] != ""
  }

  /** The names among `names` that the job inherits, in their order. */
  function Exported(names: seq<string>, env: Environ): (r: seq<string>)
    ensures |r| <= |names|
  {
    if names == [] then []
    else
      var last := names[|names| - 1];
      Exported(names[..|names| - 1], env) + (if Inherited(env, last) then [last] else [])
  }

  /** Exactly the inherited names are exported. */
  lemma {:induction false} ExportedMembers(names: seq<string>, env: Environ)
    ensures forall x :: x in Exported(names, env) <==> x in names && Inherited(env, x)
  {
    if names != [] {
      var front, last := names[..|names| - 1], names[|names| - 1];
      ExportedMembers(front, env);
      assert names == front + [last];
    }
  }

  /** The filter keeps the order: filtering two lists one after the other
      filters their concatenation. */
  lemma {:induction false} ExportedAppend(a: seq<string>, b: seq<string>, env: Environ)
    ensures Exported(a + b, env) == Exported(a, env) + Exported(b, env)
    decreases |b|
  {
    if b == [] {
      assert a + b == a;
    } else {
      var s := a + b;
      ExportedAppend(a, b[..|b| - 1], env);
      assert s[..|s| - 1] == a + b[..|b| - 1] && s[|s| - 1] == b[|b| - 1];
    }
  }

  /** When every name is inherited, all of them are exported, in order. */
  lemma {:induction false} ExportedAll(names: seq<string>, env: Environ)
    requires forall k :: 0 <= k < |names| ==> Inherited(env, names[k])
    ensures Exported(names, env) == names
  {
    if names != [] {
      ExportedAll(names[..|names| - 1], env);
    }
  }

  /** The loop of `_createJobScript` collecting the inherited names. */
  method ExportList(names: seq<string>, env: Environ) returns (a: seq<string>)
    ensures a == Exported(names, env)
  {
    a := [];
    for i := 0 to |names|
      invariant a == Exported(names[..i], env)
    {
      assert names[..i + 1][..i] == names[..i];
      if names[i] in env && |env[names[i]]| > 0 {
        a := a + [names[i]];
      }
    }
    assert names[..|names|] == names;
  }

  /** The fields of the `-lselect` statement: one chunk of the CPUs, GPUs
      and memory asked for, then the local scratch space and the cluster
      when set. */
  function SelectFields(cfg: Config): (fields: seq<string>)
    ensures |fields| == 4 + (if cfg.scratchLocal.Some? then 1 else 0) + (if cfg.cluster.Some? then 1 else 0)
  {
    ["1", "ncpus=" + NatToString(cfg.ncpu), "ngpus=" + NatToString(cfg.ngpu), "mem=" + NatToString(cfg.memory) + "MB"]
    + (if cfg.scratchLocal.Some? then ["scratch_local=" + NatToString(cfg.scratchLocal.value) + "MB"] else [])
    + (if cfg.cluster.Some? then ["cl_" + cfg.cluster.value + "=True"] else [])
  }

  /** The value of the `-lselect` statement: the fields joined by colons. */
  function SelectValue(cfg: Config): string
  {
    Join(SelectFields(cfg), ":")
  }

  /** The statement reads back as its fields, split at the colons, and
      holds no line break, so it is one line of the script; this needs a
      cluster name without either character. */
  lemma SelectReadBack(cfg: Config)
    requires cfg.cluster.Some? ==> ':' !in cfg.cluster.value && '\n' !in cfg.cluster.value
    ensures Split(SelectValue(cfg), ':') == SelectFields(cfg)
    ensures '\n' !in SelectValue(cfg)
  {
    var fields := SelectFields(cfg);
    DigitsLack(NatToString(cfg.ncpu), ':');
    DigitsLack(NatToString(cfg.ngpu), ':');
    DigitsLack(NatToString(cfg.memory), ':');
    DigitsLack(NatToString(cfg.ncpu), '\n');
    DigitsLack(NatToString(cfg.ngpu), '\n');
    DigitsLack(NatToString(cfg.memory), '\n');
    if cfg.scratchLocal.Some? {
      DigitsLack(NatToString(cfg.scratchLocal.value), ':');
      DigitsLack(NatToString(cfg.scratchLocal.value), '\n');
    }
    assert forall k :: 0 <= k < |fields| ==> ':' !in fields[k] && '\n' !in fields[k];
    SplitJoin(fields, ':');
    JoinLacks(fields, ":", '\n');
  }

  /* ---------------------------------------------------------------------
     The job script
     --------------------------------------------------------------------- */

  /** The `#PBS` directives, in the order they are written, for a queue
      already defaulted. */
  function Directives(cfg: Config, queue: Option<string>, jobname: Option<string>, env: Environ): seq<Directive>
  {
    When(Truthy(jobname), Directive("-N", "=", jobname.GetOr("")))
    + [Directive("-lselect", "=", SelectValue(cfg))]
    + When(Truthy(queue), Directive("-q", "  ", queue.GetOr("")))
    + [Directive("-lwalltime", "=", WalltimeText(cfg.walltime))]
    + When(cfg.environment.Some?, Opt("-v", Join(Exported(Split(cfg.environment.GetOr(""), ','), env), ",")))
  }

  /** The line moving the finished trajectories into the absolute
      `datadir/<name of the job directory>`, when `datadir` is set. */
  function MoveTail(cfg: Config, cwd: Path, workdir: Path): (tail: seq<string>)
    ensures |tail| == if cfg.datadir.Some? then 1 else 0
  {
    if cfg.datadir.None? then []
    else ["mv *." + cfg.trajext + " " + Abspath(cwd, PathJoin(cfg.datadir.value, Basename(Normpath(workdir))))]
  }

  /** `_createJobScript(fname, workdir, runsh)`: the lines of the script
      written for directory `dir` (made absolute against `cwd`), running
      `runsh`, with the queue as the script leaves it; the text is these
      lines joined by newlines. */
  function JobScript(cfg: Config, queue: Option<string>, jobname: Option<string>, env: Environ,
                     cwd: Path, dir: Path, runsh: string): seq<string>
  {
    var workdir := Abspath(cwd, dir);
    Body(Directives(cfg, QueueAfter(queue, cfg.ngpu), jobname, env), workdir, runsh, MoveTail(cfg, cwd, workdir))
  }

  /** The script around its directives `ds`: the shell line, the
      directives, a blank line, the trap, a blank line, the change to the
      working directory, the run command, then `tail`. */
  function Body(ds: seq<Directive>, workdir: Path, runsh: string, tail: seq<string>): seq<string>
  {
    [Sim.Shebang, "#"] + RenderAll(Prefix, ds) + ["", Sim.TrapLine(workdir), "", "cd " + workdir, runsh] + tail
  }

  /** Where each part of the script lies; the change to the working
      directory is followed at once by the run command. */
  lemma BodyLayout(ds: seq<Directive>, workdir: Path, runsh: string, tail: seq<string>)
    ensures var lines, n := Body(ds, workdir, runsh, tail), |ds|;
            && |lines| == 7 + n + |tail|
            && lines[0] == Sim.Shebang && lines[1] == "#"
            && (forall k :: 0 <= k < n ==> lines[2 + k] == Render(Prefix, ds[k]))
            && lines[2 + n] == "" && lines[3 + n] == Sim.TrapLine(workdir) && lines[4 + n] == ""
            && lines[5 + n] == "cd " + workdir && lines[6 + n] == runsh
            && lines[7 + n..] == tail
  {
    Seqs.Framed(Sim.Shebang, "#", RenderAll(Prefix, ds), ["", Sim.TrapLine(workdir), "", "cd " + workdir, runsh], tail);
  }

  /** The directives: the job name only when set and not empty, then the
      `select` statement, the queue only when one is named after the
      default, the wall time, and the environment only when set. */
  lemma HeaderShape(cfg: Config, queue: Option<string>, jobname: Option<string>, env: Environ)
    ensures var ds, named, queued := Directives(cfg, queue, jobname, env), Truthy(jobname), Truthy(queue);
            var n, q := if named then 1 else 0, if queued then 1 else 0;
            && |ds| == 2 + n + q + (if cfg.environment.Some? then 1 else 0)
            && (named ==> ds[0] == Directive("-N", "=", jobname.value))
            && ds[n] == Directive("-lselect", "=", SelectValue(cfg))
            && (queued ==> ds[n + 1] == Directive("-q", "  ", queue.value))
            && ds[n + 1 + q] == Directive("-lwalltime", "=", WalltimeText(cfg.walltime))
  {
    var a := When(Truthy(jobname), Directive("-N", "=", jobname.GetOr("")));
    var b := [Directive("-lselect", "=", SelectValue(cfg))];
    var c := When(Truthy(queue), Directive("-q", "  ", queue.GetOr("")));
    var d := [Directive("-lwalltime", "=", WalltimeText(cfg.walltime))];
    var e := When(cfg.environment.Some?, Opt("-v", Join(Exported(Split(cfg.environment.GetOr(""), ','), env), ",")));
    Seqs.AfterHead(a + b + c + d, e);
    Seqs.AfterHead(a + b + c, d);
    Seqs.AfterHead(a + b, c);
    Seqs.AfterHead(a, b);
  }

  /** How often flag `f` occurs among the directives, part by part. */
  lemma FlagCount(cfg: Config, queue: Option<string>, jobname: Option<string>, env: Environ, f: string)
    ensures CountFlag(Directives(cfg, queue, jobname, env), f)
            == (if Truthy(jobname) && f == "-N" then 1 else 0) + (if f == "-lselect" then 1 else 0)
               + (if Truthy(queue) && f == "-q" then 1 else 0) + (if f == "-lwalltime" then 1 else 0)
               + (if cfg.environment.Some? && f == "-v" then 1 else 0)
  {
    var a := When(Truthy(jobname), Directive("-N", "=", jobname.GetOr("")));
    var b := [Directive("-lselect", "=", SelectValue(cfg))];
    var c := When(Truthy(queue), Directive("-q", "  ", queue.GetOr("")));
    var d := [Directive("-lwalltime", "=", WalltimeText(cfg.walltime))];
    var e := When(cfg.environment.Some?, Opt("-v", Join(Exported(Split(cfg.environment.GetOr(""), ','), env), ",")));
    CountFlagFive(a, b, c, d, e, f);
    CountFlagSingle(b, f);
    CountFlagSingle(d, f);
  }

  /** Each directive flag occurs as often as its setting asks: the name,
      the queue and the environment once each when present, the `select`
      statement and the wall time once always. */
  lemma HeaderFlags(cfg: Config, queue: Option<string>, jobname: Option<string>, env: Environ)
    ensures var ds := Directives(cfg, queue, jobname, env);
            && CountFlag(ds, "-N") == (if Truthy(jobname) then 1 else 0)
            && CountFlag(ds, "-lselect") == 1
            && CountFlag(ds, "-q") == (if Truthy(queue) then 1 else 0)
            && CountFlag(ds, "-lwalltime") == 1
            && CountFlag(ds, "-v") == (if cfg.environment.Some? then 1 else 0)
  {
    FlagCount(cfg, queue, jobname, env, "-N");
    FlagCount(cfg, queue, jobname, env, "-lselect");
    FlagCount(cfg, queue, jobname, env, "-q");
    FlagCount(cfg, queue, jobname, env, "-lwalltime");
    FlagCount(cfg, queue, jobname, env, "-v");
  }

  /** The script starts with the shell line, then the job name when there
      is one, then the `select` statement; the wall time follows the queue
      line when there is one. */
  lemma ScriptShape(cfg: Config, queue: Option<string>, jobname: Option<string>, env: Environ,
                    cwd: Path, dir: Path, runsh: string)
    ensures var lines := JobScript(cfg, queue, jobname, env, cwd, dir, runsh);
            var named := if Truthy(jobname) then 1 else 0;
            var queued := if Truthy(QueueAfter(queue, cfg.ngpu)) then 1 else 0;
            && |lines| > 3 + named + queued
            && lines[0] == Sim.Shebang
            && (Truthy(jobname) ==> lines[2] == Render(Prefix, Directive("-N", "=", jobname.value)))
            && lines[2 + named] == Render(Prefix, Directive("-lselect", "=", SelectValue(cfg)))
            && lines[3 + named + queued] == Render(Prefix, Directive("-lwalltime", "=", WalltimeText(cfg.walltime)))
  {
    var workdir := Abspath(cwd, dir);
    HeaderShape(cfg, QueueAfter(queue, cfg.ngpu), jobname, env);
    BodyLayout(Directives(cfg, QueueAfter(queue, cfg.ngpu), jobname, env), workdir, runsh, MoveTail(cfg, cwd, workdir));
  }

  /** Writing a script once the queue default has been applied gives the
      same lines: the default takes effect once. */
  lemma ScriptAfterDefault(cfg: Config, queue: Option<string>, jobname: Option<string>, env: Environ,
                           cwd: Path, dir: Path, runsh: string)
    ensures JobScript(cfg, QueueAfter(queue, cfg.ngpu), jobname, env, cwd, dir, runsh)
            == JobScript(cfg, queue, jobname, env, cwd, dir, runsh)
  {
    QueueDefaultOnce(queue, cfg.ngpu);
  }

  /* ---------------------------------------------------------------------
     The queue found from a listing
     --------------------------------------------------------------------- */

  /** The queues the rows name, in order: each row's first token with the
      asterisks at either end stripped. A blank row has no token, and
      Python raises IndexError. */
  function RowQueues(rows: seq<string>): (r: Result<seq<string>>)
    ensures r.Ok? <==> forall k :: 0 <= k < |rows| ==> FirstToken(rows[k]).Some?
    ensures r.Err? ==> r == Err(IndexError)
    ensures r.Ok? ==> |r.value| == |rows|
  {
    if forall k :: 0 <= k < |rows| ==> FirstToken(rows[k]).Some? then
      Ok(seq(|rows|, k requires 0 <= k < |rows| && FirstToken(rows[k]).Some? => Strip(FirstToken(rows[k]).value, '*')))
    else Err(IndexError)
  }

  /** The rows of a `qstat -a` listing: its lines but the first and the
      last piece. */
  function ListingRows(out: string): (rows: seq<string>)
    ensures var pieces := Split(out, '\n');
            |pieces| >= 2 ==> rows == pieces[1..|pieces| - 1]
    ensures |Split(out, '\n')| < 2 ==> rows == []
  {
    var pieces := Split(out, '\n');
    if |pieces| >= 2 then pieces[1..|pieces| - 1] else []
  }

  /** `_autoQueueName` given the listing: the distinct queue names of the
      rows, joined by commas. Python lists them in the iteration order of
      a set; here each stands where it first occurs. */
  function QueueNames(out: string): (r: Result<seq<string>>)
    ensures var tokens := RowQueues(ListingRows(out));
            && (r.Ok? <==> tokens.Ok?)
            && (r.Err? ==> r == Err(IndexError))
            && (r.Ok? ==> Seqs.Distinct(r.value) && forall x :: x in r.value <==> x in tokens.value)
  {
    var tokens := RowQueues(ListingRows(out));
    if tokens.Err? then Err(tokens.error) else Ok(Seqs.Dedup(tokens.value))
  }

  /* ---------------------------------------------------------------------
     Starting the `qstat` commands
     --------------------------------------------------------------------- */

  /** How `check_output` starts a command without a shell when its first
      argument holds a slash: that argument, taken literally (spaces
      included), is the path of the program. Where nothing is there it
      raises NotADirectoryError if the walk down the path stops at a file
      and FileNotFoundError otherwise; a directory, or a file without the
      execute permission, raises PermissionError; otherwise the command
      gives what `run` gives for it. An empty command raises IndexError. */
  function Launch(fs: FileSystem, run: Exec, argv: seq<string>): (r: Result<string>)
    ensures argv == [] ==> r == Err(IndexError)
    ensures argv != [] && !fs.Exists(argv[0]) ==>
              r.Err? && (r.error.FileNotFoundError? || r.error.NotADirectoryError?)
    ensures argv != [] && !fs.Exists(argv[0]) && fs.Blocking(fs.Resolve(argv[0])).None? ==>
              r.Err? && r.error.FileNotFoundError?
    ensures argv != [] && fs.Exists(argv[0]) && (fs.IsDir(argv[0]) || !fs.IsExecutable(argv[0])) ==>
              r.Err? && r.error.PermissionError?
    ensures argv != [] && fs.Exists(argv[0]) && !fs.IsDir(argv[0]) && fs.IsExecutable(argv[0]) ==> r == run(argv)
  {
    if argv == [] then Err(IndexError)
    else if !fs.Exists(argv[0]) then
      var b := fs.Blocking(fs.Resolve(argv[0]));
      if b.Some? && b.value in fs.files then Err(NotADirectoryError("[Errno 20] Not a directory: '" + argv[0] + "'"))
      else Err(FileNotFoundError("[Errno 2] No such file or directory: '" + argv[0] + "'"))
    else if fs.IsDir(argv[0]) || !fs.IsExecutable(argv[0]) then
      Err(PermissionError("[Errno 13] Permission denied: '" + argv[0] + "'"))
    else run(argv)
  }

  /** `_qinfo` and `_qstatus` AS WRITTEN: the path `_find_binary("qstat")`
      returns with its flag appended to the same string, so the command is
      one program name holding a space. */
  function QinfoAsWritten(qstat: Path): (argv: seq<string>)
    ensures |argv| == 1 && argv[0] != qstat
  {
    [qstat + " -a"]
  }

  function QstatusAsWritten(qstat: Path): (argv: seq<string>)
    ensures |argv| == 1 && argv[0] != qstat
  {
    [qstat + " -Q"]
  }

  /** The intended commands: `qstat` with its flag as an argument of its
      own. The queue uses these. */
  function Qinfo(qstat: Path): (argv: seq<string>)
    ensures |argv| == 2 && argv[0] == qstat && argv[1] == "-a"
  {
    [qstat, "-a"]
  }

  function Qstatus(qstat: Path): (argv: seq<string>)
    ensures |argv| == 2 && argv[0] == qstat && argv[1] == "-Q"
  {
    [qstat, "-Q"]
  }

  /** With `qstat` found at "/a/b/qstat" and no other executable, the
      commands as written raise FileNotFoundError (the queue listing of
      `_autoQueueName` and the count of `inprogress` never start), while
      the intended ones start `qstat` with its flag. */
  lemma QstatAsWrittenNotFound(fs: FileSystem, run: Exec, a: string, b: string, args: seq<string>)
    requires Plain(a) && Plain(b)
    requires fs.files == fs.executable == {"/" + a + "/" + b + "/qstat"} && fs.dirs == {"/" + a, "/" + a + "/" + b}
    ensures var qstat := "/" + a + "/" + b + "/qstat";
            && Launch(fs, run, QinfoAsWritten(qstat)).Err?
            && Launch(fs, run, QinfoAsWritten(qstat)).error.FileNotFoundError?
            && Launch(fs, run, QstatusAsWritten(qstat) + args).Err?
            && Launch(fs, run, QstatusAsWritten(qstat) + args).error.FileNotFoundError?
            && Launch(fs, run, Qinfo(qstat)) == run(Qinfo(qstat))
            && Launch(fs, run, Qstatus(qstat) + args) == run(Qstatus(qstat) + args)
  {
    var qstat := "/" + a + "/" + b + "/qstat";
    NothingBelow(fs, run, a, b, " -a", QinfoAsWritten(qstat));
    NothingBelow(fs, run, a, b, " -Q", QstatusAsWritten(qstat) + args);
    QstatStarts(fs, run, a, b, Qinfo(qstat));
    QstatStarts(fs, run, a, b, Qstatus(qstat) + args);
  }

  /** A program "/a/b/qstat<suffix>" missing from the directory "/a/b" is
      not found. */
  lemma NothingBelow(fs: FileSystem, run: Exec, a: string, b: string, suffix: string, argv: seq<string>)
    requires Plain(a) && Plain(b) && Plain("qstat" + suffix)
    requires argv != [] && argv[0] == "/" + a + "/" + b + "/qstat" + suffix
    requires fs.dirs == {"/" + a, "/" + a + "/" + b} && argv[0] !in fs.files
    ensures Launch(fs, run, argv).Err? && Launch(fs, run, argv).error.FileNotFoundError?
  {
    var c, dir := "qstat" + suffix, "/" + a + "/" + b;
    assert argv[0] == dir + "/" + c;
    assert "/qstat" == "/" + "qstat";
    assert argv[0] == dir + "/" + "qstat" + suffix;
    ProgramKey(a, b, "qstat", suffix);
    assert Normpath(argv[0]) == argv[0];
    AncestorsThree(a, b, c);
    assert fs.Resolve(argv[0]) == argv[0];
    assert fs.Blocking(argv[0]).None? && !fs.Exists(argv[0]);
  }

  /** The only executable file, "/a/b/qstat", starts. */
  lemma QstatStarts(fs: FileSystem, run: Exec, a: string, b: string, argv: seq<string>)
    requires Plain(a) && Plain(b) && argv != [] && argv[0] == "/" + a + "/" + b + "/qstat"
    requires fs.files == fs.executable == {argv[0]} && fs.dirs == {"/" + a, "/" + a + "/" + b}
    ensures Launch(fs, run, argv) == run(argv)
  {
    QstatKeys(a, b);
    assert |argv[0]| > |"/" + a + "/" + b|;
  }

  /** The keys of "/a/b/qstat" and of that path with a flag appended. */
  lemma QstatKeys(a: string, b: string)
    requires Plain(a) && Plain(b)
    ensures var qstat := "/" + a + "/" + b + "/qstat";
            && Normpath(qstat) == qstat
            && Normpath(qstat + " -a") == qstat + " -a"
            && Normpath(qstat + " -Q") == qstat + " -Q"
  {
    var qstat := "/" + a + "/" + b + "/qstat";
    assert qstat == "/" + a + "/" + b + "/" + "qstat";
    ProgramKey(a, b, "qstat", "");
    ProgramKey(a, b, "qstat", " -a");
    ProgramKey(a, b, "qstat", " -Q");
    assert qstat + "" == qstat;
  }

  /** The key of "/a/b/" followed by a program name and a suffix. */
  lemma ProgramKey(a: string, b: string, name: string, suffix: string)
    requires Plain(a) && Plain(b) && Plain(name + suffix)
    ensures var p := "/" + a + "/" + b + "/" + name;
            Normpath(p + suffix) == p + suffix
  {
    NormPlainThree(a, b, name + suffix);
    assert "/" + a + "/" + b + "/" + name + suffix == "/" + a + "/" + b + "/" + (name + suffix);
  }

  /** The queue `submit` and `inprogress` work with: the one set, or else
      the names listed by running `qinfo`; the listing's failure
      propagates. */
  function ResolvedQueue(queue: Option<string>, qinfo: seq<string>, exec: Exec): (r: Result<Option<string>>)
    ensures r.Ok? ==> r.value.Some?
  {
    if queue.Some? then Ok(queue)
    else
      var out := exec(qinfo);
      if out.Err? then Err(out.error)
      else
        var names := QueueNames(out.value);
        if names.Err? then Err(names.error) else Ok(Some(Join(names.value, ",")))
  }

  /** A queue set is kept; otherwise the queue is the comma-joined list of
      the distinct queues of the listing, and the listing's failure, or a
      blank row in it, is what `submit` and `inprogress` raise. */
  lemma QueueFound(queue: Option<string>, qinfo: seq<string>, exec: Exec)
    ensures var r := ResolvedQueue(queue, qinfo, exec);
            && (queue.Some? ==> r == Ok(queue))
            && (queue.None? && exec(qinfo).Err? ==> r == Err(exec(qinfo).error))
            && (queue.None? && exec(qinfo).Ok? ==>
                  var names := QueueNames(exec(qinfo).value);
                  && (names.Err? ==> r == Err(IndexError))
                  && (names.Ok? ==> r == Ok(Some(Join(names.value, ","))) && Seqs.Distinct(names.value)))
  {
  }

  /* ---------------------------------------------------------------------
     Submission steps
     --------------------------------------------------------------------- */

  /** The identifier `qsub` prints: the first line of its output. */
  function JobId(out: string): (id: string)
    ensures |id| <= |out| && id == out[..|id|] && '\n' !in id
    ensures |id| < |out| ==> out[|id|] == '\n'
  {
    FirstPiece(out, '\n');
    Split(out, '\n')[0]
  }

  /** The identifiers of the submissions that gave `outputs`. */
  function JobIds(outputs: seq<string>): (ids: seq<string>)
    ensures |ids| == |outputs|
    ensures forall k :: 0 <= k < |outputs| ==> ids[k] == JobId(outputs[k])
  {
    seq(|outputs|, k requires 0 <= k < |outputs| => JobId(outputs[k]))
  }

  /** What `submit` does with each directory once the queue is `queue` and
      the job name `name`: the run command, the marker removed, the job
      script written at `jobscript` in the directory and given to `qsub`.
      Each script applies the GPU queue default; the first sets the queue,
      and the later ones see that queue, which gives the same lines. */
  function StepsFor(runscript: string, jobscript: string, cfg: Config, queue: Option<string>, name: string,
                    env: Environ, cwd: Path, commands: Option<seq<string>>, qsubmit: string, exec: Exec): Steps
  {
    Steps(
      Sim.LookupOf(runscript, commands),
      (f: FileSystem, d: Path) => Sim.CleanSentinel(f, d).fs,
      (d: Path) => Abspath(cwd, PathJoin(d, jobscript)),
      (f: FileSystem, p: Path) => f.OpenForWrite(p),
      (d: Path, run: string) => Ok(JobScript(cfg, queue, Some(name), env, cwd, d, run)),
      (p: Path) => [qsubmit, p],
      exec)
  }

  /** Each job of one submission runs its own directory's run script, or
      the command given for it. */
  lemma JobsRunOwnCommand(runscript: string, jobscript: string, cfg: Config, queue: Option<string>, name: string,
                          env: Environ, fs: FileSystem, commands: Option<seq<string>>, qsubmit: string, exec: Exec,
                          ds: seq<Path>)
    ensures var r := Submitted(StepsFor(runscript, jobscript, cfg, queue, name, env, fs.cwd, commands, qsubmit, exec), fs, ds, |ds|);
            && (commands.None? ==> forall k :: 0 <= k < |r.jobs| ==> r.jobs[k].run == Abspath(fs.cwd, PathJoin(ds[k], runscript)))
            && (commands.Some? ==> |r.jobs| <= |commands.value| && forall k :: 0 <= k < |r.jobs| ==> r.jobs[k].run == commands.value[k])
  {
    var st := StepsFor(runscript, jobscript, cfg, queue, name, env, fs.cwd, commands, qsubmit, exec);
    assert KeepsCwd(st.clean);
    Sim.LookupOfFinds(runscript, commands);
    if commands.None? {
      JobsRunScripts(st, runscript, fs, ds, |ds|);
    } else {
      JobsRunCommands(st, commands.value, fs, ds, |ds|);
    }
  }

  /** Every script of one submission names the job, on its third line,
      when the name is not empty. */
  lemma JobsShareName(runscript: string, jobscript: string, cfg: Config, queue: Option<string>, name: string,
                      env: Environ, fs: FileSystem, commands: Option<seq<string>>, qsubmit: string, exec: Exec,
                      ds: seq<Path>)
    requires name != ""
    ensures var r := Submitted(StepsFor(runscript, jobscript, cfg, queue, name, env, fs.cwd, commands, qsubmit, exec), fs, ds, |ds|);
            forall k :: 0 <= k < |r.jobs| ==> |r.jobs[k].script| > 2 && r.jobs[k].script[2] == Render(Prefix, Directive("-N", "=", name))
  {
    var st := StepsFor(runscript, jobscript, cfg, queue, name, env, fs.cwd, commands, qsubmit, exec);
    var named := (lines: seq<string>) => |lines| > 2 && lines[2] == Render(Prefix, Directive("-N", "=", name));
    forall d: Path, run: string | st.script(d, run).Ok?
      ensures named(st.script(d, run).value)
    {
      ScriptNamed(cfg, queue, name, env, fs.cwd, d, run);
    }
    JobsScripted(st, fs, ds, |ds|, named);
  }

  /** A script written for a non-empty job name names it on its third
      line. */
  lemma ScriptNamed(cfg: Config, queue: Option<string>, name: string, env: Environ, cwd: Path, dir: Path, runsh: string)
    requires name != ""
    ensures var lines := JobScript(cfg, queue, Some(name), env, cwd, dir, runsh);
            |lines| > 2 && lines[2] == Render(Prefix, Directive("-N", "=", name))
  {
    ScriptShape(cfg, queue, Some(name), env, cwd, dir, runsh);
  }

  /** The submission loop over all of `ds` with the steps above. */
  function SubmitBatch(runscript: string, jobscript: string, cfg: Config, queue: Option<string>, name: string,
                       env: Environ, fs: FileSystem, ds: seq<Path>, commands: Option<seq<string>>, qsubmit: string,
                       exec: Exec): Batch
  {
    Submitted(StepsFor(runscript, jobscript, cfg, queue, name, env, fs.cwd, commands, qsubmit, exec), fs, ds, |ds|)
  }

  /** What `submit` leaves: the batch, and the queue, job name and job
      identifiers the queue object then holds. */
  datatype Submission = Submission(batch: Batch, queue: Option<string>, jobname: Option<string>, joblist: seq<string>)

  /** `submit` over directories `ds` from the given queue, job name and
      identifiers: a failing queue lookup changes nothing; no directories
      only fix the queue; otherwise the jobs are named after the first
      directory unless a name was set, the queue is as the first script
      written left it, and each submission's identifier is kept. */
  function SubmitState(runscript: string, jobscript: string, cfg: Config, qinfo: seq<string>, qsubmit: string,
                       queue: Option<string>, jobname: Option<string>, joblist: seq<string>,
                       fs: FileSystem, ds: seq<Path>, commands: Option<seq<string>>, env: Environ,
                       digits: string, exec: Exec): Submission
    requires |digits| == 5 && AllDigits(digits)
  {
    var q := ResolvedQueue(queue, qinfo, exec);
    if q.Err? then Submission(Batch([], [], fs, Some(q.error)), queue, jobname, joblist)
    else if ds == [] then Submission(Batch([], [], fs, None), q.value, jobname, joblist)
    else
      var name := jobname.GetOr(AutoJobName(fs.cwd, ds[0], digits));
      var b := SubmitBatch(runscript, jobscript, cfg, q.value, name, env, fs, ds, commands, qsubmit, exec);
      var written := Sim.RunCommand(runscript, fs, ds[0], 0, commands).Ok?;
      Submission(b, if written then QueueAfter(q.value, cfg.ngpu) else q.value, Some(name), joblist + JobIds(b.outputs))
  }

  /** With commands given, a first directory "b" missing below the working
      directory "/a" is not submitted: opening "b/<jobscript>" raises
      FileNotFoundError before any script is recorded or `qsub` runs, while
      the queue has already been set as writing the first script sets it. */
  lemma MissingDirectoryNotSubmitted(runscript: string, jobscript: string, cfg: Config, qinfo: seq<string>, qsubmit: string,
                                     queue: Option<string>, jobname: Option<string>, joblist: seq<string>,
                                     fs: FileSystem, ds: seq<Path>, commands: seq<string>, env: Environ,
                                     digits: string, exec: Exec, a: string)
    requires |digits| == 5 && AllDigits(digits)
    requires ResolvedQueue(queue, qinfo, exec).Ok?
    requires ds != [] && commands != []
    requires fs.cwd == "/" + a && Plain(a) && Plain(ds[0]) && Plain(jobscript)
    requires "/" + a + "/" + ds[0] !in fs.dirs && "/" + a + "/" + ds[0] !in fs.files && "/" + a !in fs.files
    ensures var s := SubmitState(runscript, jobscript, cfg, qinfo, qsubmit, queue, jobname, joblist, fs, ds, Some(commands), env, digits, exec);
            && s.batch.jobs == [] && s.batch.error.Some? && s.batch.error.value.FileNotFoundError?
            && s.joblist == joblist
            && s.queue == QueueAfter(ResolvedQueue(queue, qinfo, exec).value, cfg.ngpu)
  {
    var q := ResolvedQueue(queue, qinfo, exec).value;
    var name := jobname.GetOr(AutoJobName(fs.cwd, ds[0], digits));
    BatchStopsAtMissing(runscript, jobscript, cfg, q, name, env, fs, ds, commands, qsubmit, exec, a);
    SubmitStateOfDirs(runscript, jobscript, cfg, qinfo, qsubmit, queue, jobname, joblist, fs, ds, Some(commands), env, digits, exec);
  }

  /** `submit` over at least one directory once the queue is found: the
      batch of its steps, the queue as the first script written leaves it
      when the first run command is found, and the identifiers appended. */
  lemma SubmitStateOfDirs(runscript: string, jobscript: string, cfg: Config, qinfo: seq<string>, qsubmit: string,
                          queue: Option<string>, jobname: Option<string>, joblist: seq<string>,
                          fs: FileSystem, ds: seq<Path>, commands: Option<seq<string>>, env: Environ,
                          digits: string, exec: Exec)
    requires |digits| == 5 && AllDigits(digits)
    requires ResolvedQueue(queue, qinfo, exec).Ok? && ds != []
    ensures var q := ResolvedQueue(queue, qinfo, exec).value;
            var name := jobname.GetOr(AutoJobName(fs.cwd, ds[0], digits));
            var b := SubmitBatch(runscript, jobscript, cfg, q, name, env, fs, ds, commands, qsubmit, exec);
            var s := SubmitState(runscript, jobscript, cfg, qinfo, qsubmit, queue, jobname, joblist, fs, ds, commands, env, digits, exec);
            && s.batch == b && s.jobname == Some(name) && s.joblist == joblist + JobIds(b.outputs)
            && (Sim.RunCommand(runscript, fs, ds[0], 0, commands).Ok? ==> s.queue == QueueAfter(q, cfg.ngpu))
            && (Sim.RunCommand(runscript, fs, ds[0], 0, commands).Err? ==> s.queue == q)
  {
  }

  /** The batch of the lemma above, for any queue and job name. */
  lemma BatchStopsAtMissing(runscript: string, jobscript: string, cfg: Config, queue: Option<string>, name: string,
                            env: Environ, fs: FileSystem, ds: seq<Path>, commands: seq<string>, qsubmit: string,
                            exec: Exec, a: string)
    requires ds != [] && commands != []
    requires fs.cwd == "/" + a && Plain(a) && Plain(ds[0]) && Plain(jobscript)
    requires "/" + a + "/" + ds[0] !in fs.dirs && "/" + a + "/" + ds[0] !in fs.files && "/" + a !in fs.files
    ensures var b := SubmitBatch(runscript, jobscript, cfg, queue, name, env, fs, ds, Some(commands), qsubmit, exec);
            b.jobs == [] && b.outputs == [] && b.error.Some? && b.error.value.FileNotFoundError?
  {
    var st := StepsFor(runscript, jobscript, cfg, queue, name, env, fs.cwd, Some(commands), qsubmit, exec);
    Sim.LookupOfFinds(runscript, Some(commands));
    MissingDirectoryStopsCommands(st, fs, ds, a, jobscript, commands);
  }

  /* ---------------------------------------------------------------------
     Cancellation
     --------------------------------------------------------------------- */

  /** One `qdel` per job identifier kept, in submission order. */
  function CancelCommands(qcancel: string, joblist: seq<string>): (cmds: seq<seq<string>>)
    ensures |cmds| == |joblist|
    ensures forall k :: 0 <= k < |joblist| ==> cmds[k] == [qcancel, joblist[k]]
  {
    seq(|joblist|, k requires 0 <= k < |joblist| => [qcancel, joblist[k]])
  }

  /** `stop` AS WRITTEN: it first reads the attribute `partition`, which
      the class never declares, so it raises AttributeError whatever the
      jobs. */
  function StopAsWritten(qcancel: string, joblist: seq<string>): (o: Outcome)
    ensures o.Fail? && o.error.AttributeError?
  {
    Fail(AttributeError(NoPartition))
  }

  /** With one job kept and a `qdel` that succeeds, `stop` as written
      fails where cancelling the kept jobs succeeds. */
  lemma StopAsWrittenCancelsNothing(qcancel: string, exec: Exec)
    requires exec([qcancel, "1"]).Ok?
    ensures StopAsWritten(qcancel, ["1"]).Fail?
    ensures RunAll(exec, CancelCommands(qcancel, ["1"])) == Pass
  {
    assert CancelCommands(qcancel, ["1"]) == [[qcancel, "1"]];
  }

  /* ---------------------------------------------------------------------
     The queue object
     --------------------------------------------------------------------- */

  /** `PBSQueue`: the shared registry, the settings, the PBS commands, and
      the queue, job name and job identifiers the queue updates itself. */
  class PbsQueue {
    const sim: Sim.SimQueue
    const config: Config
    const qsubmit: string
    const qinfo: seq<string>
    const qcancel: string
    const qstatus: seq<string>
    var queue: Option<string>
    var jobname: Option<string>
    var joblist: seq<string>

    /** A queue whose registry starts as an empty list, not as None. */
    constructor (runscript: string, jobscript: string, config: Config, queue: Option<string>,
                 jobname: Option<string>, qsubmit: string, qstat: Path, qcancel: string)
      ensures fresh(sim) && sim.dirs == Some([]) && sim.runscript == runscript && sim.jobscript == jobscript
      ensures this.config == config
      ensures this.queue == queue && this.jobname == jobname && joblist == []
      ensures this.qsubmit == qsubmit && this.qcancel == qcancel
      ensures qinfo == Qinfo(qstat) && qstatus == Qstatus(qstat)
    {
      this.sim := new Sim.SimQueue(Some([]), runscript, jobscript);
      this.config := config;
      this.queue := queue;
      this.jobname := jobname;
      this.joblist := [];
      this.qsubmit := qsubmit;
      this.qinfo := Qinfo(qstat);
      this.qcancel := qcancel;
      this.qstatus := Qstatus(qstat);
    }

    /** `_createJobScript`: the script lines; a GPU job without a queue is
        sent to the GPU queue from now on. */
    method WriteJobScript(env: Environ, cwd: Path, dir: Path, runsh: string) returns (lines: seq<string>)
      modifies this
      ensures queue == QueueAfter(old(queue), config.ngpu)
      ensures lines == JobScript(config, old(queue), jobname, env, cwd, dir, runsh)
      ensures jobname == old(jobname) && joblist == old(joblist)
    {
      var before := queue;
      if !Truthy(queue) && config.ngpu > 0 {
        queue := Some(GpuQueue);
      }
      ScriptAfterDefault(config, before, jobname, env, cwd, dir, runsh);
      lines := JobScript(config, queue, jobname, env, cwd, dir, runsh);
    }

    /** `submit(dirs, commands)`: registers the directories, finds a queue
        when none is set, names the jobs after the first directory unless
        a name was set, and writes and submits one job script per
        directory until the first error, keeping each job's identifier.
        `env` is the process environment and `digits` the random digits of
        the automatic name. */
    method Submit(fs: FileSystem, arg: Sim.DirsArg, commands: Option<seq<string>>, env: Environ,
                  digits: string, exec: Exec) returns (b: Batch)
      requires |digits| == 5 && AllDigits(digits)
      modifies this, sim
      ensures sim.dirs == Some(old(sim.dirs).GetOr([]) + Sim.EnsureList(arg))
      ensures Submission(b, queue, jobname, joblist)
              == SubmitState(sim.runscript, sim.jobscript, config, qinfo, qsubmit, old(queue), old(jobname), old(joblist),
                             fs, Sim.EnsureList(arg), commands, env, digits, exec)
    {
      var ds := sim.SubmitInit(arg);
      b := SubmitAll(fs, ds, commands, env, digits, exec);
    }

    /** `submit` once the directories are registered. */
    method SubmitAll(fs: FileSystem, ds: seq<Path>, commands: Option<seq<string>>, env: Environ,
                     digits: string, exec: Exec) returns (b: Batch)
      requires |digits| == 5 && AllDigits(digits)
      modifies this
      ensures Submission(b, queue, jobname, joblist)
              == SubmitState(sim.runscript, sim.jobscript, config, qinfo, qsubmit, old(queue), old(jobname), old(joblist),
                             fs, ds, commands, env, digits, exec)
    {
      var q := ResolvedQueue(queue, qinfo, exec);
      if q.Err? {
        return Batch([], [], fs, Some(q.error));
      }
      if ds == [] {
        queue := q.value;
        return Batch([], [], fs, None);
      }
      var first := Sim.RunCommand(sim.runscript, fs, ds[0], 0, commands);
      var name := jobname.GetOr(AutoJobName(fs.cwd, ds[0], digits));
      b := SubmitDirs(fs, ds, q.value, name, commands, env, exec);
      Settle(q.value, first.Ok?, name, JobIds(b.outputs));
    }

    /** The loop of `submit` over directories `ds`, once the queue and the
        job name are known. */
    method SubmitDirs(fs: FileSystem, ds: seq<Path>, queue: Option<string>, name: string,
                      commands: Option<seq<string>>, env: Environ, exec: Exec) returns (b: Batch)
      ensures b == SubmitBatch(sim.runscript, sim.jobscript, config, queue, name, env, fs, ds, commands, qsubmit, exec)
    {
      b := SubmitLoop(StepsFor(sim.runscript, sim.jobscript, config, queue, name, env, fs.cwd, commands, qsubmit, exec), fs, ds);
    }

    /** What `submit` leaves behind: the queue it found, as the first job
        script written set it, the job name it used, and the identifiers
        of the jobs submitted appended to those kept. */
    method Settle(resolved: Option<string>, written: bool, name: string, ids: seq<string>)
      modifies this
      ensures queue == if written then QueueAfter(resolved, config.ngpu) else resolved
      ensures jobname == Some(name)
      ensures joblist == old(joblist) + ids
    {
      queue := if written then QueueAfter(resolved, config.ngpu) else resolved;
      jobname := Some(name);
      joblist := joblist + ids;
    }

    /** `inprogress`: finds a queue when none is set, needs a job name, and
        counts the jobs of that name and of `user` listed on the queue, the
        query tried up to three times. */
    method InProgress(user: string, run: Attempts, exec: Exec) returns (r: Result<nat>)
      modifies this
      ensures var q := ResolvedQueue(old(queue), qinfo, exec);
              && (q.Err? ==> r == Err(q.error) && queue == old(queue))
              && (q.Ok? ==> queue == q.value)
      ensures var q := ResolvedQueue(old(queue), qinfo, exec);
              q.Ok? && jobname.None? ==> r == Err(ValueError(NoJobName))
      ensures var q := ResolvedQueue(old(queue), qinfo, exec);
              q.Ok? && jobname.Some? ==>
                var out := Retry(run, qstatus + ["-J", jobname.value, "-u", user, "-q", q.value.value]);
                && (r.Ok? <==> out.Ok?)
                && (r.Ok? ==> r.value == LineCount(out.value))
                && (r.Err? ==> r.error == out.error)
      ensures jobname == old(jobname) && joblist == old(joblist)
    {
      var q := ResolvedQueue(queue, qinfo, exec);
      if q.Err? {
        return Err(q.error);
      }
      queue := q.value;
      if jobname.None? {
        return Err(ValueError(NoJobName));
      }
      var out, _ := QueryWithRetry(run, qstatus + ["-J", jobname.value, "-u", user, "-q", q.value.value]);
      if out.Err? {
        return Err(out.error);
      }
      r := Ok(LineCount(out.value));
    }

    /** `stop` as evidently intended: one `qdel` per job identifier kept,
        in order; the first failure propagates. */
    method Stop(exec: Exec) returns (o: Outcome)
      ensures o == RunAll(exec, CancelCommands(qcancel, joblist))
    {
      var issued;
      o, issued := RunInOrder(exec, CancelCommands(qcancel, joblist));
    }
  }
}
