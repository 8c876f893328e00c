/** What the batch-scheduler queues (LSF, SGE, PBS) share: the scheduler
    directives heading their job scripts, the line count of a status
    listing, the status query retried up to three times, commands run one
    after another, the automatic job name, and the submission loop that
    writes and submits one job script per directory. */
module Scheduler {
  import opened Errors
  import opened Text
  import opened Paths
  import Sim = SimQueue
  import Seqs

  /* ---------------------------------------------------------------------
     Scheduler directives
     --------------------------------------------------------------------- */

  /** One header line `<prefix> <flag><sep><value>` of a job script, such
      as `#BSUB -q "short"` or `#PBS -N=job`. */
  datatype Directive = Directive(flag: string, sep: string, value: string)

  /** The usual form, flag and value separated by one space. */
  function Opt(flag: string, value: string): Directive
  {
    Directive(flag, " ", value)
  }

  function Quote(s: string): string
  {
    "\"" + s + "\""
  }

  function Render(prefix: string, d: Directive): string
  {
    prefix + " " + d.flag + d.sep + d.value
  }

  /** The header lines, one per directive, in order. */
  function RenderAll(prefix: string, ds: seq<Directive>): (lines: seq<string>)
    ensures |lines| == |ds|
    ensures forall k :: 0 <= k < |ds| ==> lines[k] == Render(prefix, ds[k])
  {
    seq(|ds|, k requires 0 <= k < |ds| => Render(prefix, ds[k]))
  }

  /** How many of the directives carry flag `f`. */
  function CountFlag(ds: seq<Directive>, f: string): (n: nat)
    ensures n <= |ds|
  {
    if ds == [] then 0
    else CountFlag(ds[..|ds| - 1], f) + (if ds[|ds| - 1].flag == f then 1 else 0)
  }

  lemma {:induction false} CountFlagAppend(a: seq<Directive>, b: seq<Directive>, f: string)
    ensures CountFlag(a + b, f) == CountFlag(a, f) + CountFlag(b, f)
    decreases |b|
  {
    if b == [] {
      assert a + b == a;
    } else {
      CountFlagAppend(a, b[..|b| - 1], f);
      assert (a + b)[..|a + b| - 1] == a + b[..|b| - 1];
      assert (a + b)[|a + b| - 1] == b[|b| - 1];
    }
  }

  /** Directives that all carry flag `g` count once each for `g` and not
      at all for any other flag. */
  lemma {:induction false} CountFlagUniform(ds: seq<Directive>, g: string, f: string)
    requires forall k :: 0 <= k < |ds| ==> ds[k].flag == g
    ensures CountFlag(ds, f) == if f == g then |ds| else 0
  {
    if ds != [] {
      CountFlagUniform(ds[..|ds| - 1], g, f);
    }
  }

  /** The count over five parts written one after another. */
  lemma CountFlagFive(a: seq<Directive>, b: seq<Directive>, c: seq<Directive>, d: seq<Directive>,
                      e: seq<Directive>, f: string)
    ensures CountFlag(a + b + c + d + e, f)
            == CountFlag(a, f) + CountFlag(b, f) + CountFlag(c, f) + CountFlag(d, f) + CountFlag(e, f)
  {
    CountFlagAppend(a, b, f);
    CountFlagAppend(a + b, c, f);
    CountFlagAppend(a + b + c, d, f);
    CountFlagAppend(a + b + c + d, e, f);
  }

  /** At most one directive counts once for its own flag. */
  lemma CountFlagSingle(ds: seq<Directive>, f: string)
    requires |ds| <= 1
    ensures CountFlag(ds, f) == if ds != [] && ds[0].flag == f then 1 else 0
  {
    if ds != [] {
      assert ds[..0] == [];
    }
  }

  /** A directive given only when a setting is present. */
  function When(present: bool, d: Directive): (ds: seq<Directive>)
    ensures forall f :: CountFlag(ds, f) == if present && d.flag == f then 1 else 0
  {
    if present then [d] else []
  }

  /** Directives none of which carries flag `f` do not count for it. */
  lemma {:induction false} CountFlagAbsent(ds: seq<Directive>, f: string)
    requires forall k :: 0 <= k < |ds| ==> ds[k].flag != f
    ensures CountFlag(ds, f) == 0
  {
    if ds != [] {
      CountFlagAbsent(ds[..|ds| - 1], f);
    }
  }

  /* ---------------------------------------------------------------------
     Job script bodies
     --------------------------------------------------------------------- */

  /** A whole job script of the LSF or SGE layout: the shell line, an
      empty comment, one line per directive, a blank line, the trap
      creating the completion marker, a blank line, the preparation
      commands, a blank line, the change to the working directory, the run
      command and then `tail`. */
  function Script(prefix: string, ds: seq<Directive>, workdir: Path, prerun: seq<string>, runsh: string,
                  tail: seq<string>): seq<string>
  {
    [Sim.Shebang, "#"] + RenderAll(prefix, ds) + ["", Sim.TrapLine(workdir), ""] + prerun
    + ["", "cd " + workdir, runsh] + tail
  }

  /** Where each part of a job script lies among its lines. */
  lemma ScriptLines(prefix: string, ds: seq<Directive>, workdir: Path, prerun: seq<string>, runsh: string,
                    tail: seq<string>)
    ensures var lines := Script(prefix, ds, workdir, prerun, runsh, tail);
            && |lines| == 8 + |ds| + |prerun| + |tail|
            && lines[0] == Sim.Shebang && lines[1] == "#"
            && (forall k :: 0 <= k < |ds| ==> lines[2 + k] == Render(prefix, ds[k]))
            && lines[3 + |ds|] == Sim.TrapLine(workdir)
            && (forall k :: 0 <= k < |prerun| ==> lines[5 + |ds| + k] == prerun[k])
            && lines[6 + |ds| + |prerun|] == "cd " + workdir && lines[7 + |ds| + |prerun|] == runsh
            && lines[8 + |ds| + |prerun|..] == tail
  {
    Seqs.Layout(Sim.Shebang, "#", RenderAll(prefix, ds), "", Sim.TrapLine(workdir), "", prerun,
                "", "cd " + workdir, runsh, tail);
  }

  /* ---------------------------------------------------------------------
     Status listings
     --------------------------------------------------------------------- */

  /** The jobs a status listing shows: the pieces of `out.split("\n")`
      less two (the header and the empty piece after the final newline),
      never below zero. */
  function LineCount(out: string): (n: nat)
    ensures n == if Count(out, '\n') == 0 then 0 else Count(out, '\n') - 1
  {
    var pieces := |Split(out, '\n')| - 2;
    if pieces < 0 then 0 else pieces
  }

  /** Rows each followed by a newline. */
  function Rows(rows: seq<string>): string
  {
    if rows == [] then "" else Rows(rows[..|rows| - 1]) + rows[|rows| - 1] + "\n"
  }

  lemma {:induction false} CountAppend(a: string, b: string, c: char)
    ensures Count(a + b, c) == Count(a, c) + Count(b, c)
  {
    if a == [] {
      assert a + b == b;
    } else {
      CountAppend(a[1..], b, c);
      assert (a + b)[0] == a[0] && (a + b)[1..] == a[1..] + b;
    }
  }

  lemma {:induction false} CountAbsent(s: string, c: char)
    requires c !in s
    ensures Count(s, c) == 0
  {
    if s != [] {
      CountAbsent(s[1..], c);
    }
  }

  lemma {:induction false} CountRows(rows: seq<string>)
    requires forall k :: 0 <= k < |rows| ==> '\n' !in rows[k]
    ensures Count(Rows(rows), '\n') == |rows|
  {
    if rows != [] {
      var front, last := rows[..|rows| - 1], rows[|rows| - 1];
      CountRows(front);
      CountAppend(Rows(front) + last, "\n", '\n');
      CountAppend(Rows(front), last, '\n');
      CountAbsent(last, '\n');
    }
  }

  /** A listing made of a header line and one line per job, each ending
      in a newline, counts exactly its jobs. */
  lemma ListingCount(header: string, rows: seq<string>)
    requires '\n' !in header
    requires forall k :: 0 <= k < |rows| ==> '\n' !in rows[k]
    ensures LineCount(header + "\n" + Rows(rows)) == |rows|
  {
    CountAppend(header + "\n", Rows(rows), '\n');
    CountAppend(header, "\n", '\n');
    CountAbsent(header, '\n');
    CountRows(rows);
  }

  /* ---------------------------------------------------------------------
     Status queries, retried
     --------------------------------------------------------------------- */

  /** What attempt `k` (counting from 0) of running a command gives: its
      output, or the exception it raises. */
  type Attempts = (seq<string>, nat) -> Result<string>

  const MaxTries: nat := 3

  /** A failure the status query tries again after: a non-zero exit
      status. Any other exception propagates at once. */
  predicate Retryable(r: Result<string>)
  {
    r.Err? && r.error.CalledProcessError?
  }

  /** The outcome of the query from attempt `k` on. */
  function RetryFrom(run: Attempts, cmd: seq<string>, k: nat): Result<string>
    requires k < MaxTries
    decreases MaxTries - k
  {
    var r := run(cmd, k);
    if Retryable(r) && k < MaxTries - 1 then RetryFrom(run, cmd, k + 1) else r
  }

  /** The `while tries < 3` loop of `inprogress`. */
  function Retry(run: Attempts, cmd: seq<string>): Result<string>
  {
    RetryFrom(run, cmd, 0)
  }

  /** The query succeeds exactly when some attempt among the first three
      succeeds after only retryable failures; when all three fail that
      way, the third failure is what propagates. */
  lemma RetryOutcome(run: Attempts, cmd: seq<string>)
    ensures Retry(run, cmd).Ok? <==>
              exists k :: 0 <= k < MaxTries && run(cmd, k).Ok? && forall j :: 0 <= j < k ==> Retryable(run(cmd, j))
    ensures (forall k :: 0 <= k < MaxTries ==> Retryable(run(cmd, k))) ==> Retry(run, cmd) == run(cmd, 2)
    ensures Retry(run, cmd).Err? ==> exists k :: 0 <= k < MaxTries && Retry(run, cmd) == run(cmd, k)
  {
    var a0, a1, a2 := run(cmd, 0), run(cmd, 1), run(cmd, 2);
    if !Retryable(a0) {
      assert Retry(run, cmd) == a0;
    } else if !Retryable(a1) {
      assert Retry(run, cmd) == a1;
    } else {
      assert Retry(run, cmd) == a2;
    }
  }

  /** One status query with its retries. `calls` is the number of
      attempts made: every one before the last failed in a retryable way,
      and the last one's outcome is the result. */
  method QueryWithRetry(run: Attempts, cmd: seq<string>) returns (r: Result<string>, calls: nat)
    ensures r == Retry(run, cmd)
    ensures 1 <= calls <= MaxTries && r == run(cmd, calls - 1)
    ensures forall j :: 0 <= j < calls - 1 ==> Retryable(run(cmd, j))
  {
    var tries := 0;
    while true
      invariant tries < MaxTries
      invariant RetryFrom(run, cmd, tries) == Retry(run, cmd)
      invariant forall j :: 0 <= j < tries ==> Retryable(run(cmd, j))
      decreases MaxTries - tries
    {
      r := run(cmd, tries);
      if Retryable(r) {
        if tries == MaxTries - 1 {
          calls := tries + 1;
          return;
        }
        tries := tries + 1;
        continue;
      }
      break;
    }
    calls := tries + 1;
  }

  /** `inprogress` over the status commands of several queues: the sum of
      the jobs each listing shows; the first query that still fails after
      its retries ends the count with its error. */
  function Total(run: Attempts, cmds: seq<seq<string>>): Result<nat>
  {
    if cmds == [] then Ok(0)
    else
      var prev := Total(run, cmds[..|cmds| - 1]);
      if prev.Err? then prev
      else
        var out := Retry(run, cmds[|cmds| - 1]);
        if out.Err? then Err(out.error) else Ok(prev.value + LineCount(out.value))
  }

  /** One command per queue, `[binary, flag, name, "-u", user, "-q", q]`,
      in the order of the queues: the status queries of `inprogress` and
      the cancellations of `stop`. */
  function PerQueue(binary: string, flag: string, name: string, user: string, queues: seq<string>)
    : (cmds: seq<seq<string>>)
    ensures |cmds| == |queues|
    ensures forall k :: 0 <= k < |queues| ==> cmds[k] == [binary, flag, name, "-u", user, "-q", queues[k]]
  {
    seq(|queues|, k requires 0 <= k < |queues| => [binary, flag, name, "-u", user, "-q", queues[k]])
  }

  /** The count comes out exactly when every queue's query succeeds; an
      error is the one of the first queue whose query fails. */
  lemma {:induction false} TotalOutcome(run: Attempts, cmds: seq<seq<string>>)
    ensures Total(run, cmds).Ok? <==> forall i :: 0 <= i < |cmds| ==> Retry(run, cmds[i]).Ok?
    ensures Total(run, cmds).Err? ==>
              exists i :: 0 <= i < |cmds| && Retry(run, cmds[i]) == Err(Total(run, cmds).error)
                          && forall j :: 0 <= j < i ==> Retry(run, cmds[j]).Ok?
  {
    if cmds != [] {
      var front := cmds[..|cmds| - 1];
      TotalOutcome(run, front);
      assert forall i :: 0 <= i < |front| ==> front[i] == cmds[i];
      if Total(run, front).Ok? && Retry(run, cmds[|cmds| - 1]).Err? {
        assert Retry(run, cmds[|cmds| - 1]) == Err(Total(run, cmds).error);
      }
    }
  }

  /** The jobs counted over a single queue: its listing's count. */
  lemma TotalOne(run: Attempts, cmd: seq<string>)
    ensures Retry(run, cmd).Ok? ==> Total(run, [cmd]) == Ok(LineCount(Retry(run, cmd).value))
    ensures Retry(run, cmd).Err? ==> Total(run, [cmd]) == Err(Retry(run, cmd).error)
  {
    assert [cmd][..0] == [];
  }

  /** The loop of `inprogress` summing the listings queue by queue. */
  method SumCounts(run: Attempts, cmds: seq<seq<string>>) returns (r: Result<nat>)
    ensures r == Total(run, cmds)
  {
    var total := 0;
    for i := 0 to |cmds|
      invariant Total(run, cmds[..i]) == Ok(total)
    {
      assert cmds[..i + 1][..i] == cmds[..i];
      var out, _ := QueryWithRetry(run, cmds[i]);
      if out.Err? {
        r := Err(out.error);
        TotalStopped(run, cmds, i + 1);
        return;
      }
      total := total + LineCount(out.value);
    }
    assert cmds[..|cmds|] == cmds;
    return Ok(total);
  }

  /** Once a query has failed, the later queues do not change the
      outcome. */
  lemma {:induction false} TotalStopped(run: Attempts, cmds: seq<seq<string>>, n: nat)
    requires n <= |cmds| && Total(run, cmds[..n]).Err?
    ensures Total(run, cmds) == Total(run, cmds[..n])
    decreases |cmds| - n
  {
    if n < |cmds| {
      assert cmds[..n + 1][..n] == cmds[..n];
      TotalStopped(run, cmds, n + 1);
    } else {
      assert cmds[..n] == cmds;
    }
  }

  /* ---------------------------------------------------------------------
     Commands run in order
     --------------------------------------------------------------------- */

  /** What running a command once gives: its output, or the exception. */
  type Exec = seq<string> -> Result<string>

  /** Running the commands one after another, as `stop` does: the first
      failure propagates and the commands after it are not run. */
  function RunAll(exec: Exec, cmds: seq<seq<string>>): (o: Outcome)
    ensures o.Pass? <==> forall i :: 0 <= i < |cmds| ==> exec(cmds[i]).Ok?
    ensures o.Fail? ==> exists i :: 0 <= i < |cmds| && exec(cmds[i]) == Err(o.error)
                                    && forall j :: 0 <= j < i ==> exec(cmds[j]).Ok?
  {
    if cmds == [] then Pass
    else if exec(cmds[0]).Err? then Fail(exec(cmds[0]).error)
    else
      var rest := RunAll(exec, cmds[1..]);
      assert forall i :: 1 <= i < |cmds| ==> cmds[i] == cmds[1..][i - 1];
      rest
  }

  /** The loop issuing the commands: `issued` of them were run, all of
      them when none failed, and the last one run failed otherwise. */
  method RunInOrder(exec: Exec, cmds: seq<seq<string>>) returns (o: Outcome, issued: nat)
    ensures o == RunAll(exec, cmds)
    ensures issued <= |cmds|
    ensures forall j :: 0 <= j < issued && (o.Pass? || j < issued - 1) ==> exec(cmds[j]).Ok?
    ensures o.Pass? ==> issued == |cmds|
    ensures o.Fail? ==> issued >= 1 && exec(cmds[issued - 1]) == Err(o.error)
  {
    for i := 0 to |cmds|
      invariant forall j :: 0 <= j < i ==> exec(cmds[j]).Ok?
      invariant RunAll(exec, cmds[i..]) == RunAll(exec, cmds)
    {
      assert cmds[i..][1..] == cmds[i + 1..];
      var ret := exec(cmds[i]);
      if ret.Err? {
        return Fail(ret.error), i + 1;
      }
    }
    assert cmds[|cmds|..] == [];
    return Pass, |cmds|;
  }

  /* ---------------------------------------------------------------------
     Automatic job name
     --------------------------------------------------------------------- */

  /** `_autoJobName(path)`: the last component of the absolute path, an
      underscore and five decimal digits drawn at random (given here as
      `digits`). */
  function AutoJobName(cwd: Path, path: Path, digits: string): string
    requires |digits| == 5 && AllDigits(digits)
  {
    Suffixed(Basename(Abspath(cwd, path)), digits)
  }

  /** The name is the last component of the absolute path, an underscore
      and the five digits; it holds no slash. */
  lemma AutoJobNameFormat(cwd: Path, path: Path, digits: string)
    requires |digits| == 5 && AllDigits(digits)
    ensures var name := AutoJobName(cwd, path, digits);
            && |name| >= 6 && name[|name| - 6] == '_'
            && name[|name| - 5..] == digits
            && name[..|name| - 6] == Basename(Abspath(cwd, path))
            && '/' !in name
  {
  }

  function Suffixed(base: string, digits: string): (name: string)
    requires |digits| == 5 && AllDigits(digits) && '/' !in base
    ensures |name| == |base| + 6 && name[|base|] == '_'
    ensures name[|base| + 1..] == digits && name[..|base|] == base
    ensures '/' !in name
  {
    var name := base + "_" + digits;
    assert name[..|base|] == base && name[|base| + 1..] == digits;
    assert forall i :: 0 <= i < 5 ==> IsDigit(digits[i]);
    name
  }

  /* ---------------------------------------------------------------------
     The submission loop
     --------------------------------------------------------------------- */

  /** A job script written for directory `dir` with run command `run`, at
      `path`, with the given lines. */
  datatype Job = Job(dir: Path, run: string, path: Path, script: seq<string>)

  /** Progress of a submission: the job scripts written, the output of
      each submission command that succeeded, the file system (completion
      markers removed) and the error that ended the loop, if any. */
  datatype Batch = Batch(jobs: seq<Job>, outputs: seq<string>, fs: FileSystem, error: Option<Error>)

  /** What one backend does with each directory: finds its run command
      (`lookup`), updates the file system (`clean`: the removal of its
      completion marker, or nothing), opens its job script at `jobPath`
      for writing (`open`, which raises when the directory is missing),
      writes the
      lines `script` gives (which may raise) and runs the submission
      command `command` of that script with `exec`. */
  datatype Steps = Steps(
    lookup: Sim.Lookup,
    clean: (FileSystem, Path) -> FileSystem,
    jobPath: Path -> Path,
    open: (FileSystem, Path) -> Option<Error>,
    script: (Path, string) -> Result<seq<string>>,
    command: Path -> seq<string>,
    exec: Exec)

  /** A job written as the steps prescribe for directory `d`. */
  ghost predicate JobFor(st: Steps, job: Job, d: Path)
  {
    job.dir == d && job.path == st.jobPath(d) && st.script(d, job.run) == Ok(job.script)
  }

  /** One directory of the loop, the `i`-th, after the earlier ones. */
  function SubmitStep(st: Steps, prev: Batch, d: Path, i: nat): Batch
  {
    var run := st.lookup(prev.fs, d, i);
    if run.Err? then Batch(prev.jobs, prev.outputs, prev.fs, Some(run.error))
    else
      var cleaned := st.clean(prev.fs, d);
      var refused := st.open(cleaned, st.jobPath(d));
      if refused.Some? then Batch(prev.jobs, prev.outputs, cleaned, refused)
      else
        var lines := st.script(d, run.value);
        if lines.Err? then Batch(prev.jobs, prev.outputs, cleaned, Some(lines.error))
        else
          var job := Job(d, run.value, st.jobPath(d), lines.value);
          var out := st.exec(st.command(job.path));
          if out.Err? then Batch(prev.jobs + [job], prev.outputs, cleaned, Some(out.error))
          else Batch(prev.jobs + [job], prev.outputs + [out.value], cleaned, None)
  }

  /** The loop after the first `n` directories. It stops at the first
      error; until then it writes one job per directory, in order, and
      submits each; a job whose submission failed was written all the
      same. */
  function Submitted(st: Steps, fs: FileSystem, ds: seq<Path>, n: nat): (r: Batch)
    requires n <= |ds|
    ensures |r.jobs| <= n && |r.outputs| <= |r.jobs| <= |r.outputs| + 1
    ensures r.error.None? ==> |r.jobs| == n && |r.outputs| == n
  {
    if n == 0 then Batch([], [], fs, None)
    else
      var prev := Submitted(st, fs, ds, n - 1);
      if prev.error.Some? then prev else SubmitStep(st, prev, ds[n - 1], n - 1)
  }

  /** Every job written is the one the steps prescribe for its directory,
      in the order of the directories, and every submission output is
      what the submission command of its job gave. */
  lemma {:induction false} SubmittedJobs(st: Steps, fs: FileSystem, ds: seq<Path>, n: nat)
    requires n <= |ds|
    ensures var r := Submitted(st, fs, ds, n);
            && (forall k :: 0 <= k < |r.jobs| ==> JobFor(st, r.jobs[k], ds[k]))
            && (forall k :: 0 <= k < |r.outputs| ==> st.exec(st.command(r.jobs[k].path)) == Ok(r.outputs[k]))
  {
    if n > 0 {
      SubmittedJobs(st, fs, ds, n - 1);
      var p, r := Submitted(st, fs, ds, n - 1), Submitted(st, fs, ds, n);
      if p.error.None? && r.jobs != p.jobs {
        assert |p.jobs| == n - 1 && r.jobs == p.jobs + [r.jobs[n - 1]];
        forall k | 0 <= k < |r.jobs|
          ensures JobFor(st, r.jobs[k], ds[k])
        {
          if k < n - 1 {
            assert r.jobs[k] == p.jobs[k];
          }
        }
        forall k | 0 <= k < |r.outputs|
          ensures st.exec(st.command(r.jobs[k].path)) == Ok(r.outputs[k])
        {
          if k < n - 1 {
            assert r.jobs[k] == p.jobs[k] && r.outputs[k] == p.outputs[k];
          }
        }
      }
    }
  }

  /** The file system update leaves the working directory alone. */
  ghost predicate KeepsCwd(clean: (FileSystem, Path) -> FileSystem)
  {
    forall f: FileSystem, d: Path :: clean(f, d).cwd == f.cwd
  }

  lemma {:induction false} SubmittedCwd(st: Steps, fs: FileSystem, ds: seq<Path>, n: nat)
    requires n <= |ds| && KeepsCwd(st.clean)
    ensures Submitted(st, fs, ds, n).fs.cwd == fs.cwd
  {
    if n > 0 {
      SubmittedCwd(st, fs, ds, n - 1);
    }
  }

  /** Once an error has ended the loop, the later directories change
      nothing. */
  lemma {:induction false} SubmittedStopped(st: Steps, fs: FileSystem, ds: seq<Path>, n: nat, m: nat)
    requires n <= m <= |ds| && Submitted(st, fs, ds, n).error.Some?
    ensures Submitted(st, fs, ds, m) == Submitted(st, fs, ds, n)
    decreases m - n
  {
    if n < m {
      SubmittedStopped(st, fs, ds, n, m - 1);
    }
  }

  /** The file system update leaves the working directory and the
      directories alone, and at most removes files. */
  ghost predicate KeepsDirs(clean: (FileSystem, Path) -> FileSystem)
  {
    forall f: FileSystem, d: Path :: clean(f, d).cwd == f.cwd && clean(f, d).dirs == f.dirs && clean(f, d).files <= f.files
  }

  /** Whether the steps can open a job script depends only on the working
      directory and the directories, and with fewer files a missing
      directory on the way stays missing: as for `open(p, "w")`. */
  ghost predicate OpensByDirs(st: Steps)
  {
    forall f: FileSystem, g: FileSystem, p: Path {:trigger st.open(f, p), st.open(g, p)} | f.cwd == g.cwd && f.dirs == g.dirs ::
      && (st.open(f, p).None? <==> st.open(g, p).None?)
      && (g.files <= f.files && st.open(f, p).Some? && st.open(f, p).value.FileNotFoundError? ==>
            st.open(g, p).Some? && st.open(g, p).value.FileNotFoundError?)
  }

  /** The steps open job scripts as `open(p, "w")` does. */
  ghost predicate OpensFiles(st: Steps)
  {
    forall f: FileSystem, p: Path :: st.open(f, p) == f.OpenForWrite(p)
  }

  lemma OpensFilesByDirs(st: Steps)
    requires OpensFiles(st)
    ensures OpensByDirs(st)
  {
    forall f: FileSystem, g: FileSystem, p: Path | f.cwd == g.cwd && f.dirs == g.dirs
      ensures && (st.open(f, p).None? <==> st.open(g, p).None?)
              && (g.files <= f.files && st.open(f, p).Some? && st.open(f, p).value.FileNotFoundError? ==>
                    st.open(g, p).Some? && st.open(g, p).value.FileNotFoundError?)
    {
      OpenByDirs(f, g, p);
    }
  }

  /** Every job recorded had a job script path that could be opened for
      writing: no job is written, and none submitted, for a directory
      whose script cannot be created. */
  lemma {:induction false} JobsOpened(st: Steps, fs: FileSystem, ds: seq<Path>, n: nat)
    requires n <= |ds| && KeepsDirs(st.clean) && OpensByDirs(st)
    ensures var r := Submitted(st, fs, ds, n);
            && r.fs.cwd == fs.cwd && r.fs.dirs == fs.dirs && r.fs.files <= fs.files
            && forall k :: 0 <= k < |r.jobs| ==> st.open(fs, st.jobPath(ds[k])).None?
  {
    if n > 0 {
      JobsOpened(st, fs, ds, n - 1);
      var p, r := Submitted(st, fs, ds, n - 1), Submitted(st, fs, ds, n);
      if p.error.None? {
        var d := ds[n - 1];
        var cleaned := st.clean(p.fs, d);
        assert r == SubmitStep(st, p, d, n - 1);
        assert cleaned.cwd == fs.cwd && cleaned.dirs == fs.dirs && cleaned.files <= fs.files;
        if |r.jobs| > |p.jobs| {
          assert st.open(cleaned, st.jobPath(d)).None?;
        }
      }
    }
  }

  /** A directory whose job script cannot be opened adds no job. */
  lemma OpenRefused(st: Steps, prev: Batch, d: Path, i: nat)
    requires st.lookup(prev.fs, d, i).Ok? && st.open(st.clean(prev.fs, d), st.jobPath(d)).Some?
    ensures var r := SubmitStep(st, prev, d, i);
            r.jobs == prev.jobs && r.outputs == prev.outputs && r.error == st.open(st.clean(prev.fs, d), st.jobPath(d))
  {
  }

  /** Reaching a directory whose job script cannot be opened ends the
      loop there: no job is written for it, nothing more is submitted, and
      a missing directory gives FileNotFoundError. */
  lemma OpenStops(st: Steps, fs: FileSystem, ds: seq<Path>, i: nat)
    requires i < |ds| && KeepsDirs(st.clean) && OpensByDirs(st)
    requires Submitted(st, fs, ds, i).error.None?
    requires st.lookup(Submitted(st, fs, ds, i).fs, ds[i], i).Ok?
    requires st.open(fs, st.jobPath(ds[i])).Some?
    ensures var p, r, e := Submitted(st, fs, ds, i), Submitted(st, fs, ds, |ds|), st.open(fs, st.jobPath(ds[i]));
            && r.jobs == p.jobs && r.outputs == p.outputs && r.error.Some?
            && (e.value.FileNotFoundError? ==> r.error.value.FileNotFoundError?)
  {
    JobsOpened(st, fs, ds, i);
    var p, d := Submitted(st, fs, ds, i), ds[i];
    var cleaned := st.clean(p.fs, d);
    assert cleaned.cwd == fs.cwd && cleaned.dirs == fs.dirs && cleaned.files <= fs.files;
    OpenRefused(st, p, d, i);
    SubmittedStopped(st, fs, ds, i + 1, |ds|);
  }

  /** Below the working directory "/a", a first directory "b" that does
      not exist is not submitted: once its run command is found, opening
      "b/<name>" raises FileNotFoundError and nothing is written or run. */
  lemma MissingDirectoryStops(st: Steps, fs: FileSystem, ds: seq<Path>, a: string, name: string)
    requires ds != [] && KeepsDirs(st.clean) && OpensFiles(st)
    requires fs.cwd == "/" + a && Plain(a) && Plain(ds[0]) && Plain(name)
    requires st.jobPath(ds[0]) == Abspath(fs.cwd, PathJoin(ds[0], name))
    requires st.lookup(fs, ds[0], 0).Ok?
    requires "/" + a + "/" + ds[0] !in fs.dirs && "/" + a + "/" + ds[0] !in fs.files && "/" + a !in fs.files
    ensures var r := Submitted(st, fs, ds, |ds|);
            r.jobs == [] && r.outputs == [] && r.error.Some? && r.error.value.FileNotFoundError?
  {
    OpenBelow(fs, a, ds[0], name, st.jobPath(ds[0]));
    OpensFilesByDirs(st);
    OpenStops(st, fs, ds, 0);
  }

  /** The same, for steps that clean the completion marker and take the
      given commands in order. */
  lemma MissingDirectoryStopsCommands(st: Steps, fs: FileSystem, ds: seq<Path>, a: string, name: string,
                                      commands: seq<string>)
    requires ds != [] && commands != [] && OpensFiles(st) && Sim.FindsCommands(st.lookup, commands)
    requires forall f: FileSystem, d: Path :: st.clean(f, d) == Sim.CleanSentinel(f, d).fs
    requires fs.cwd == "/" + a && Plain(a) && Plain(ds[0]) && Plain(name)
    requires st.jobPath(ds[0]) == Abspath(fs.cwd, PathJoin(ds[0], name))
    requires "/" + a + "/" + ds[0] !in fs.dirs && "/" + a + "/" + ds[0] !in fs.files && "/" + a !in fs.files
    ensures var r := Submitted(st, fs, ds, |ds|);
            r.jobs == [] && r.outputs == [] && r.error.Some? && r.error.value.FileNotFoundError?
  {
    forall f: FileSystem, d: Path
      ensures st.clean(f, d).cwd == f.cwd && st.clean(f, d).dirs == f.dirs && st.clean(f, d).files <= f.files
    {
      var c := Sim.CleanSentinel(f, d);
    }
    assert st.lookup(fs, ds[0], 0).Ok?;
    MissingDirectoryStops(st, fs, ds, a, name);
  }

  /** The loop itself. */
  method SubmitLoop(st: Steps, fs: FileSystem, ds: seq<Path>) returns (b: Batch)
    ensures b == Submitted(st, fs, ds, |ds|)
  {
    b := Batch([], [], fs, None);
    for i := 0 to |ds|
      invariant b == Submitted(st, fs, ds, i) && b.error.None?
    {
      var d := ds[i];
      assert Submitted(st, fs, ds, i + 1) == SubmitStep(st, b, d, i);
      var run := st.lookup(b.fs, d, i);
      if run.Err? {
        b := Batch(b.jobs, b.outputs, b.fs, Some(run.error));
        SubmittedStopped(st, fs, ds, i + 1, |ds|);
        return;
      }
      var fs' := st.clean(b.fs, d);
      var refused := st.open(st.clean(b.fs, d), st.jobPath(d));
      if refused.Some? {
        b := Batch(b.jobs, b.outputs, fs', refused);
        SubmittedStopped(st, fs, ds, i + 1, |ds|);
        return;
      }
      var lines := st.script(d, run.value);
      if lines.Err? {
        b := Batch(b.jobs, b.outputs, fs', Some(lines.error));
        SubmittedStopped(st, fs, ds, i + 1, |ds|);
        return;
      }
      var job := Job(d, run.value, st.jobPath(d), lines.value);
      var out := st.exec(st.command(job.path));
      if out.Err? {
        b := Batch(b.jobs + [job], b.outputs, fs', Some(out.error));
        SubmittedStopped(st, fs, ds, i + 1, |ds|);
        return;
      }
      b := Batch(b.jobs + [job], b.outputs + [out.value], fs', None);
    }
  }

  /** With commands given, the `k`-th job runs the `k`-th command, and the
      loop gets through all directories only when there are enough
      commands. */
  lemma {:induction false} JobsRunCommands(st: Steps, commands: seq<string>, fs: FileSystem, ds: seq<Path>, n: nat)
    requires n <= |ds| && Sim.FindsCommands(st.lookup, commands)
    ensures var r := Submitted(st, fs, ds, n);
            && |r.jobs| <= |commands|
            && (forall k :: 0 <= k < |r.jobs| ==> r.jobs[k].run == commands[k])
            && (r.error.None? ==> n <= |commands|)
  {
    if n > 0 {
      JobsRunCommands(st, commands, fs, ds, n - 1);
      var prev := Submitted(st, fs, ds, n - 1);
      if prev.error.None? {
        var run := st.lookup(prev.fs, ds[n - 1], n - 1);
        assert run == if n - 1 < |commands| then Ok(commands[n - 1]) else Err(IndexError);
      }
    }
  }

  /** The jobs after one more directory: the same, or one more whose run
      command is the one found for that directory. */
  lemma SubmittedNext(st: Steps, fs: FileSystem, ds: seq<Path>, i: nat)
    requires i < |ds| && Submitted(st, fs, ds, i).error.None?
    ensures var p, r := Submitted(st, fs, ds, i), Submitted(st, fs, ds, i + 1);
            var run := st.lookup(p.fs, ds[i], i);
            || r.jobs == p.jobs
            || (run.Ok? && |r.jobs| == |p.jobs| + 1 && r.jobs[..|p.jobs|] == p.jobs && r.jobs[|p.jobs|].run == run.value)
  {
    var p, r := Submitted(st, fs, ds, i), Submitted(st, fs, ds, i + 1);
    if r.jobs != p.jobs {
      assert r.jobs[..|p.jobs|] == p.jobs;
    }
  }

  /** A lookup that, whenever it succeeds, gives `where(cwd, d)` for
      directory `d` and working directory `cwd`. */
  ghost predicate FindsBy(lookup: Sim.Lookup, where: (Path, Path) -> Path)
  {
    forall f: FileSystem, d: Path, i: nat :: lookup(f, d, i).Ok? ==> lookup(f, d, i).value == where(f.cwd, d)
  }

  /** Each job runs what the lookup gives for its own directory. */
  lemma {:induction false} JobsRunFound(st: Steps, where: (Path, Path) -> Path, fs: FileSystem, ds: seq<Path>, n: nat)
    requires n <= |ds| && FindsBy(st.lookup, where) && KeepsCwd(st.clean)
    ensures var r := Submitted(st, fs, ds, n);
            forall k :: 0 <= k < |r.jobs| ==> r.jobs[k].run == where(fs.cwd, ds[k])
  {
    if n > 0 {
      JobsRunFound(st, where, fs, ds, n - 1);
      var p, r := Submitted(st, fs, ds, n - 1), Submitted(st, fs, ds, n);
      if p.error.None? {
        SubmittedCwd(st, fs, ds, n - 1);
        SubmittedNext(st, fs, ds, n - 1);
        if r.jobs != p.jobs {
          forall k | 0 <= k < |r.jobs|
            ensures r.jobs[k].run == where(fs.cwd, ds[k])
          {
            if k < |p.jobs| {
              assert r.jobs[k] == r.jobs[..|p.jobs|][k];
            }
          }
        }
      }
    }
  }

  /** The run scripts' absolute paths, as `_getRunScript` gives them. */
  function RunScriptIn(runscript: string): (Path, Path) -> Path
  {
    (cwd: Path, d: Path) => Abspath(cwd, PathJoin(d, runscript))
  }

  /** Without commands, each job runs the absolute path of its own
      directory's run script. */
  lemma JobsRunScripts(st: Steps, runscript: string, fs: FileSystem, ds: seq<Path>, n: nat)
    requires n <= |ds| && Sim.FindsRunScripts(st.lookup, runscript) && KeepsCwd(st.clean)
    ensures var r := Submitted(st, fs, ds, n);
            forall k :: 0 <= k < |r.jobs| ==> r.jobs[k].run == Abspath(fs.cwd, PathJoin(ds[k], runscript))
  {
    assert FindsBy(st.lookup, RunScriptIn(runscript));
    JobsRunFound(st, RunScriptIn(runscript), fs, ds, n);
  }

  /** What every job script written satisfies, when every script the
      steps can produce satisfies it. */
  lemma JobsScripted(st: Steps, fs: FileSystem, ds: seq<Path>, n: nat, holds: seq<string> -> bool)
    requires n <= |ds|
    requires forall d: Path, run: string :: st.script(d, run).Ok? ==> holds(st.script(d, run).value)
    ensures var r := Submitted(st, fs, ds, n);
            forall k :: 0 <= k < |r.jobs| ==> holds(r.jobs[k].script)
  {
    SubmittedJobs(st, fs, ds, n);
    var r := Submitted(st, fs, ds, n);
    forall k | 0 <= k < |r.jobs|
      ensures holds(r.jobs[k].script)
    {
      assert JobFor(st, r.jobs[k], ds[k]);
    }
  }
}
