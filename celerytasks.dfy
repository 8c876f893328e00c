/** The tasks run by Celery workers: the sample `add` task, and
    `run_simulation`, which writes `job.sh` in a simulation folder and
    runs it. */
module CeleryTasks {
  import opened Errors
  import opened Text
  import opened Paths
  import Sim = SimQueue
  import Seqs
  import opened Scheduler

  const RunScript := "run.sh"
  const JobScriptName := "job.sh"
  const DevicesVariable := "CUDA_VISIBLE_DEVICES"

  /** `add(x, y)` on integers: the sum, from which either summand is
      recovered. */
  function Add(x: int, y: int): (r: int)
    ensures r - y == x && r - x == y
  {
    x + y
  }

  /* ---------------------------------------------------------------------
     The job script
     --------------------------------------------------------------------- */

  /** The trap creating the completion marker `sentinel` of `workdir`
      (the directory as given, not made absolute). */
  function Trap(workdir: Path, sentinel: string): string
  {
    "trap \"touch " + Normpath(PathJoin(workdir, sentinel)) + "\" EXIT SIGTERM"
  }

  /** The export of the device, only when one is given. */
  function DeviceLines(deviceid: Option<string>): (lines: seq<string>)
    ensures deviceid.None? ==> lines == []
    ensures deviceid.Some? ==> lines == ["export " + DevicesVariable + "=" + deviceid.value]
  {
    if deviceid.Some? then ["export " + DevicesVariable + "=" + deviceid.value] else []
  }

  /** The lines of the script: the shell line, two blank lines, the trap,
      a blank line, the device export when given, a blank line, the trap
      again, a blank line, the change to the absolute working directory,
      the run command and then `tail`. The text written is these lines
      joined by newlines. */
  function Lines(cwd: Path, workdir: Path, runsh: string, deviceid: Option<string>, sentinel: string,
                 tail: seq<string>): seq<string>
  {
    var trap := Trap(workdir, sentinel);
    [Sim.Shebang, "", "", trap, ""] + DeviceLines(deviceid) + ["", trap, "", "cd " + Abspath(cwd, workdir), runsh] + tail
  }

  /** The directory of `datadir` named after the simulation folder. */
  function OutDir(cwd: Path, datadir: Path, workdir: Path): Path
  {
    PathJoin(Abspath(cwd, datadir), Basename(Normpath(workdir)))
  }

  /** The line moving the listed files into the output directory: only
      with a data directory, and only when the output directory is not
      the simulation folder itself. */
  function MoveTail(cwd: Path, workdir: Path, datadir: Option<Path>, exts: seq<string>): (tail: seq<string>)
    ensures |tail| <= 1
    ensures tail != [] <==>
              datadir.Some? && Abspath(cwd, OutDir(cwd, datadir.value, workdir)) != Abspath(cwd, workdir)
    ensures tail != [] ==> tail[0] == "mv " + Join(exts, " ") + " " + OutDir(cwd, datadir.value, workdir)
  {
    if datadir.None? then []
    else
      var odir := OutDir(cwd, datadir.value, workdir);
      if Abspath(cwd, odir) != Abspath(cwd, workdir) then ["mv " + Join(exts, " ") + " " + odir] else []
  }

  /** Where each line lies; `d` is 1 when a device is given. */
  lemma LinesLayout(cwd: Path, workdir: Path, runsh: string, deviceid: Option<string>, sentinel: string,
                    tail: seq<string>)
    ensures var lines, trap := Lines(cwd, workdir, runsh, deviceid, sentinel, tail), Trap(workdir, sentinel);
            var d := if deviceid.Some? then 1 else 0;
            && |lines| == 10 + d + |tail|
            && lines[0] == Sim.Shebang && lines[1] == "" && lines[2] == "" && lines[3] == trap && lines[4] == ""
            && (deviceid.Some? ==> lines[5] == "export " + DevicesVariable + "=" + deviceid.value)
            && lines[5 + d] == "" && lines[6 + d] == trap && lines[7 + d] == ""
            && lines[8 + d] == "cd " + Abspath(cwd, workdir) && lines[9 + d] == runsh
            && lines[10 + d..] == tail
  {
    var trap := Trap(workdir, sentinel);
    var head := [Sim.Shebang, "", "", trap, ""] + DeviceLines(deviceid);
    var rest := ["", trap, "", "cd " + Abspath(cwd, workdir), runsh];
    Seqs.AfterHead(head + rest, tail);
    Seqs.AfterHead(head, rest);
    Seqs.AfterHead([Sim.Shebang, "", "", trap, ""], DeviceLines(deviceid));
  }

  lemma StartsWith(a: string, b: string)
    requires |a| > 1
    ensures |a + b| > 1 && (a + b)[0] == a[0]
  {
  }

  /** The first letters of the trap, export, `cd` and `mv` lines. */
  lemma Initials(marker: string, value: string, dir: string, files: string, odir: string)
    ensures var trap := "trap \"touch " + marker + "\" EXIT SIGTERM";
            trap != [] && trap[0] == 't'
    ensures var ex := "export " + DevicesVariable + "=" + value;
            ex != [] && ex[0] == 'e'
    ensures var cd := "cd " + dir; cd != [] && cd[0] == 'c'
    ensures var mv := "mv " + files + " " + odir; mv != [] && mv[0] == 'm'
  {
    StartsWith("trap \"touch ", marker);
    StartsWith("trap \"touch " + marker, "\" EXIT SIGTERM");
    StartsWith("export ", DevicesVariable);
    StartsWith("export " + DevicesVariable, "=");
    StartsWith("export " + DevicesVariable + "=", value);
    StartsWith("cd ", dir);
    StartsWith("mv ", files);
    StartsWith("mv " + files, " ");
    StartsWith("mv " + files + " ", odir);
  }

  /** In the layout of `Lines`, a line `t` that no other line equals is
      found at the two trap positions only. */
  lemma OnlyTwice(h: string, t: string, dev: seq<string>, c: string, r: string, tail: seq<string>)
    requires t != "" && h != t && c != t && r != t && |dev| <= 1
    requires forall x | x in dev :: x != t
    requires forall x | x in tail :: x != t
    ensures var lines := [h, "", "", t, ""] + dev + ["", t, "", c, r] + tail;
            forall k :: 0 <= k < |lines| ==> (lines[k] == t <==> k == 3 || k == 6 + |dev|)
  {
    var head := [h, "", "", t, ""] + dev;
    var rest := ["", t, "", c, r];
    Seqs.AfterHead(head + rest, tail);
    Seqs.AfterHead(head, rest);
    Seqs.AfterHead([h, "", "", t, ""], dev);
    var lines := head + rest + tail;
    forall k | 0 <= k < |lines|
      ensures lines[k] == t <==> k == 3 || k == 6 + |dev|
    {
      if k < 5 {
        assert lines[k] == [h, "", "", t, ""][k];
      } else if k < 5 + |dev| {
        assert lines[k] in dev;
      } else if k < 10 + |dev| {
        assert lines[k] == rest[k - 5 - |dev|];
      } else {
        assert lines[k] in tail;
      }
    }
  }

  /** The trap is written exactly twice, at the two places of the layout,
      unless the run command is itself that trap. */
  lemma TrapTwice(cwd: Path, workdir: Path, runsh: string, deviceid: Option<string>, sentinel: string,
                  datadir: Option<Path>, exts: seq<string>)
    requires runsh != Trap(workdir, sentinel)
    ensures var tail := MoveTail(cwd, workdir, datadir, exts);
            var lines := Lines(cwd, workdir, runsh, deviceid, sentinel, tail);
            var d := if deviceid.Some? then 1 else 0;
            forall k :: 0 <= k < |lines| ==> (lines[k] == Trap(workdir, sentinel) <==> k == 3 || k == 6 + d)
  {
    var trap, tail := Trap(workdir, sentinel), MoveTail(cwd, workdir, datadir, exts);
    var cd := "cd " + Abspath(cwd, workdir);
    var odir := if datadir.Some? then OutDir(cwd, datadir.value, workdir) else "";
    Initials(Normpath(PathJoin(workdir, sentinel)), deviceid.GetOr(""), Abspath(cwd, workdir), Join(exts, " "), odir);
    assert tail != [] ==> tail == [tail[0]];
    assert Sim.Shebang[0] == '#';
    OnlyTwice(Sim.Shebang, trap, DeviceLines(deviceid), cd, runsh, tail);
  }

  /* ---------------------------------------------------------------------
     Writing the script
     --------------------------------------------------------------------- */

  /** `os.makedirs(p, exist_ok=True)`: nothing to do for a directory that
      exists, refused where a file is (FileExistsError) or where a file
      stands in the place of a directory on the way (NotADirectoryError);
      otherwise `p` and every directory leading to it exist afterwards. */
  function MakeDirs(fs: FileSystem, p: Path): (r: Result<FileSystem>)
  {
    var key := fs.Resolve(p);
    if fs.IsDir(p) then Ok(fs)
    else if fs.Exists(p) then Err(FileExistsError("[Errno 17] File exists: '" + p + "'"))
    else if exists a :: a in Ancestors(key) && a in fs.files && a !in fs.dirs then
      Err(NotADirectoryError("[Errno 20] Not a directory: '" + p + "'"))
    else Ok(fs.(dirs := fs.dirs + {key} + (set a | a in Ancestors(key))))
  }

  /** `os.makedirs` succeeds exactly when `p` is a directory already or
      nothing but directories and missing paths lie on the way to it. The
      directory and those leading to it exist afterwards, nothing else
      changes, and making it again changes nothing. */
  lemma MakeDirsFacts(fs: FileSystem, p: Path)
    ensures var r, key := MakeDirs(fs, p), fs.Resolve(p);
            && (r.Ok? <==> fs.IsDir(p) || (!fs.Exists(p) && forall a :: a in Ancestors(key) && a in fs.files ==> a in fs.dirs))
            && (r.Ok? ==> r.value.IsDir(p) && fs.dirs <= r.value.dirs && r.value.(dirs := fs.dirs) == fs)
            && (r.Ok? && !fs.IsDir(p) ==> r.value.Blocking(key).None?)
            && (r.Ok? ==> MakeDirs(r.value, p) == Ok(r.value))
            && (r.Ok? ==> forall x :: x in r.value.dirs && x in fs.files ==> x in fs.dirs)
            && (r.Err? && r.error.FileExistsError? <==> fs.Exists(p) && !fs.IsDir(p))
            && (r.Err? ==> r.error.FileExistsError? || r.error.NotADirectoryError?)
  {
    var r, key := MakeDirs(fs, p), fs.Resolve(p);
    if r.Ok? && !fs.IsDir(p) {
      assert r.value.dirs == fs.dirs + {key} + (set a | a in Ancestors(key));
    }
  }

  /** What writing the job script leaves: the lines written (none when the
      script could not be opened, no move line when a directory could not
      be made), the file system, and the error raised, if any. */
  datatype Written = Written(lines: seq<string>, fs: FileSystem, error: Option<Error>)

  /** `_createJobScript(fname, workdir, runsh, deviceid, sentinel, datadir,
      copyextensions)`: `fname` is opened for writing first, which creates
      it, then the lines are written, then the data directory and the
      output directory are made and the move line is added; only when
      none of that raised is the script made executable. */
  function CreateJobScript(fs: FileSystem, fname: Path, workdir: Path, runsh: string, deviceid: Option<string>,
                           sentinel: string, datadir: Option<Path>, exts: seq<string>): Written
  {
    var refused := fs.OpenForWrite(fname);
    var key := fs.Resolve(fname);
    var created := fs.(files := fs.files + {key});
    var body := Lines(fs.cwd, workdir, runsh, deviceid, sentinel, []);
    if refused.Some? then Written([], fs, refused)
    else if datadir.None? then Written(body, created.(executable := fs.executable + {key}), None)
    else
      var data := Abspath(fs.cwd, datadir.value);
      var made := MakeDirs(created, data);
      if made.Err? then Written(body, created, Some(made.error))
      else
        var out := MakeDirs(made.value, OutDir(fs.cwd, datadir.value, workdir));
        if out.Err? then Written(body, made.value, Some(out.error))
        else Written(Lines(fs.cwd, workdir, runsh, deviceid, sentinel, MoveTail(fs.cwd, workdir, datadir, exts)),
                     out.value.(executable := fs.executable + {key}), None)
  }

  /** A script that cannot be opened gets no line and changes nothing.
      Otherwise the script file exists afterwards, and is executable
      exactly when nothing raised. Without a data directory the script has
      no move line and nothing else happens; with one, the move line is
      written only when both directories could be made, and they then
      exist. */
  lemma CreateOutcome(fs: FileSystem, fname: Path, workdir: Path, runsh: string, deviceid: Option<string>,
                      sentinel: string, datadir: Option<Path>, exts: seq<string>)
    ensures var w := CreateJobScript(fs, fname, workdir, runsh, deviceid, sentinel, datadir, exts);
            fs.OpenForWrite(fname).Some? ==> w == Written([], fs, fs.OpenForWrite(fname))
    ensures var w, key := CreateJobScript(fs, fname, workdir, runsh, deviceid, sentinel, datadir, exts), fs.Resolve(fname);
            fs.OpenForWrite(fname).None? && datadir.None? ==>
              w == Written(Lines(fs.cwd, workdir, runsh, deviceid, sentinel, []),
                           fs.(files := fs.files + {key}, executable := fs.executable + {key}), None)
    ensures var w, key := CreateJobScript(fs, fname, workdir, runsh, deviceid, sentinel, datadir, exts), fs.Resolve(fname);
            fs.OpenForWrite(fname).None? && w.error.Some? ==>
              && w.lines == Lines(fs.cwd, workdir, runsh, deviceid, sentinel, [])
              && w.fs.(dirs := fs.dirs) == fs.(files := fs.files + {key})
              && (w.error.value.FileExistsError? || w.error.value.NotADirectoryError?)
    ensures var w := CreateJobScript(fs, fname, workdir, runsh, deviceid, sentinel, datadir, exts);
            w.error.Some? ==> w.error.value.FileNotFoundError? || w.error.value.NotADirectoryError?
                              || w.error.value.IsADirectoryError? || w.error.value.FileExistsError?
    ensures var w := CreateJobScript(fs, fname, workdir, runsh, deviceid, sentinel, datadir, exts);
            w.error.None? ==> fs.OpenForWrite(fname).None?
    ensures var w, key := CreateJobScript(fs, fname, workdir, runsh, deviceid, sentinel, datadir, exts), fs.Resolve(fname);
            datadir.Some? && w.error.None? ==>
              && w.lines == Lines(fs.cwd, workdir, runsh, deviceid, sentinel, MoveTail(fs.cwd, workdir, datadir, exts))
              && w.fs.IsDir(Abspath(fs.cwd, datadir.value)) && w.fs.IsDir(OutDir(fs.cwd, datadir.value, workdir))
              && w.fs.(dirs := fs.dirs) == fs.(files := fs.files + {key}, executable := fs.executable + {key})
  {
    if fs.OpenForWrite(fname).None? && datadir.Some? {
      var key := fs.Resolve(fname);
      var created := fs.(files := fs.files + {key});
      var data := Abspath(fs.cwd, datadir.value);
      MakeDirsFacts(created, data);
      var made := MakeDirs(created, data);
      if made.Ok? {
        MakeDirsFacts(made.value, OutDir(fs.cwd, datadir.value, workdir));
      }
    }
  }

  /** Writing the script a second time, on the file system the first one
      left, gives the same lines and changes nothing: the directories are
      made only if missing. */
  lemma CreateAgain(fs: FileSystem, fname: Path, workdir: Path, runsh: string, deviceid: Option<string>,
                    sentinel: string, datadir: Option<Path>, exts: seq<string>)
    requires CreateJobScript(fs, fname, workdir, runsh, deviceid, sentinel, datadir, exts).error.None?
    ensures var w := CreateJobScript(fs, fname, workdir, runsh, deviceid, sentinel, datadir, exts);
            CreateJobScript(w.fs, fname, workdir, runsh, deviceid, sentinel, datadir, exts) == w
  {
    CreateOutcome(fs, fname, workdir, runsh, deviceid, sentinel, datadir, exts);
    var w := CreateJobScript(fs, fname, workdir, runsh, deviceid, sentinel, datadir, exts);
    var key := fs.Resolve(fname);
    if datadir.Some? {
      var created := fs.(files := fs.files + {key});
      var data := Abspath(fs.cwd, datadir.value);
      MakeDirsFacts(created, data);
      var made := MakeDirs(created, data);
      MakeDirsFacts(made.value, OutDir(fs.cwd, datadir.value, workdir));
    }
    assert key !in w.fs.dirs;
    assert w.fs.OpenForWrite(fname).None?;
  }

  /* ---------------------------------------------------------------------
     The simulation task
     --------------------------------------------------------------------- */

  /** What `run_simulation` leaves: where the job script is, what writing
      it left, and the output of running it or the exception raised. */
  datatype Simulation = Simulation(jobPath: Path, written: Written, result: Result<string>)

  /** `run_simulation(folder, deviceid, sentinel, datadir, copyextensions)`:
      writes `folder/job.sh` to run `folder/run.sh` and runs it; an
      exception from writing or from running it propagates. */
  function RunSimulation(fs: FileSystem, folder: Path, deviceid: Option<string>, sentinel: string,
                         datadir: Option<Path>, exts: seq<string>, exec: Exec): (s: Simulation)
    ensures s.jobPath == PathJoin(folder, JobScriptName)
    ensures s.written == CreateJobScript(fs, s.jobPath, folder, PathJoin(folder, RunScript), deviceid, sentinel, datadir, exts)
    ensures s.written.error.Some? ==> s.result == Err(s.written.error.value)
    ensures s.written.error.None? ==> s.result == exec([s.jobPath])
  {
    var jobsh := PathJoin(folder, JobScriptName);
    var w := CreateJobScript(fs, jobsh, folder, PathJoin(folder, RunScript), deviceid, sentinel, datadir, exts);
    if w.error.Some? then Simulation(jobsh, w, Err(w.error.value))
    else Simulation(jobsh, w, exec([jobsh]))
  }

  /** A `folder/job.sh` that cannot be opened fails the task with the
      error of opening it, nothing written and nothing run. Otherwise the
      script runs `folder/run.sh` right after changing to the absolute
      folder. The task succeeds exactly when the script was written and
      running it succeeded. */
  lemma SimulationRuns(fs: FileSystem, folder: Path, deviceid: Option<string>, sentinel: string,
                       datadir: Option<Path>, exts: seq<string>, exec: Exec)
    ensures var s := RunSimulation(fs, folder, deviceid, sentinel, datadir, exts, exec);
            var refused := fs.OpenForWrite(PathJoin(folder, JobScriptName));
            refused.Some? ==> s.result == Err(refused.value) && s.written.lines == [] && s.written.fs == fs
    ensures var s := RunSimulation(fs, folder, deviceid, sentinel, datadir, exts, exec);
            var d := if deviceid.Some? then 1 else 0;
            fs.OpenForWrite(PathJoin(folder, JobScriptName)).None? ==>
              && |s.written.lines| > 9 + d
              && s.written.lines[8 + d] == "cd " + Abspath(fs.cwd, folder)
              && s.written.lines[9 + d] == PathJoin(folder, RunScript)
    ensures var s := RunSimulation(fs, folder, deviceid, sentinel, datadir, exts, exec);
            s.result.Ok? <==> && fs.OpenForWrite(PathJoin(folder, JobScriptName)).None?
                              && s.written.error.None? && exec([PathJoin(folder, JobScriptName)]).Ok?
  {
    var runsh := PathJoin(folder, RunScript);
    CreateOutcome(fs, PathJoin(folder, JobScriptName), folder, runsh, deviceid, sentinel, datadir, exts);
    LinesLayout(fs.cwd, folder, runsh, deviceid, sentinel, []);
    LinesLayout(fs.cwd, folder, runsh, deviceid, sentinel, MoveTail(fs.cwd, folder, datadir, exts));
  }

  /** Below a working directory "/a", a folder "b" that does not exist
      fails the task with FileNotFoundError from opening "b/job.sh":
      nothing is written, no directory is made and nothing runs. */
  lemma MissingFolderFails(fs: FileSystem, a: string, folder: string, deviceid: Option<string>, sentinel: string,
                           datadir: Option<Path>, exts: seq<string>, exec: Exec)
    requires fs.cwd == "/" + a && Plain(a) && Plain(folder)
    requires "/" + a + "/" + folder !in fs.dirs && "/" + a + "/" + folder !in fs.files && "/" + a !in fs.files
    ensures var s := RunSimulation(fs, folder, deviceid, sentinel, datadir, exts, exec);
            && s.result.Err? && s.result.error.FileNotFoundError?
            && s.written.lines == [] && s.written.fs == fs
  {
    OpenBelow(fs, a, folder, JobScriptName, PathJoin(folder, JobScriptName));
    SimulationRuns(fs, folder, deviceid, sentinel, datadir, exts, exec);
  }
}
