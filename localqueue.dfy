/** The local execution engine (jobqueues/localqueue.py): a path-to-state
    table ("Q" queued, "R" running, "C" completed), a FIFO of work items
    that worker threads drain one at a time, the device pool the workers
    are bound to, and the job script each worker writes before running a
    job. Worker threads are modelled by their loop body, one step at a
    time. */
module LocalQueue {
  import opened Errors
  import opened Text
  import opened Paths
  import opened Seqs
  import Sim = SimQueue

  /* ---------------------------------------------------------------------
     Job states
     --------------------------------------------------------------------- */

  datatype JobState = Queued | Running | Completed
  {
    /** The one-letter code stored in the state table. */
    function Code(): (c: string)
      ensures |c| == 1
    {
      match this
      case Queued => "Q"
      case Running => "R"
      case Completed => "C"
    }
  }

  /** The letters identify the states. */
  lemma CodeInjective(a: JobState, b: JobState)
    ensures a.Code() == b.Code() <==> a == b
  {
  }

  /* ---------------------------------------------------------------------
     Device pool and memory
     --------------------------------------------------------------------- */

  type Pos = n: nat | n >= 1 witness 1

  /** The options the two local queues are configured with: the GPU queue's
      `ngpu` and `devices`, the CPU queue's `ncpu` (threads per job) and
      `maxcpu` (threads for the whole queue); both are validated positive. */
  datatype DeviceConfig =
    | Gpu(ngpu: Option<nat>, devices: Option<seq<nat>>)
    | Cpu(ncpu: Pos, maxcpu: Pos)

  /** What the queues ask of the machine: its total memory in bytes, its
      number of CPU threads and the GPUs detected on it (None when they
      cannot be determined). */
  datatype Machine = Machine(totalBytes: nat, cpuCount: Pos, detectedGpus: Option<seq<nat>>)

  const MiB: nat := 1048576

  /** Messages of the errors raised here. */
  const ExclusiveOptions := "Parameters `ngpu` and `devices` are mutually exclusive."
  const NoGpus := "Could not determine which GPUs to use. Specify the GPUs with the `ngpu` or `devices` parameters"
  const TooManyCpus := ") cannot be greater than the maxcpu ("

  /** `range(n)` */
  function Range(n: nat): (r: seq<nat>)
    ensures |r| == n
    ensures forall i :: 0 <= i < n ==> r[i] == i
  {
    if n == 0 then [] else Range(n - 1) + [n - 1]
  }

  /** `LocalGPUQueue._getdevices`: the GPU indices the queue runs jobs on,
      before the visibility filter is applied. */
  function GpuDevices(ngpu: Option<nat>, devices: Option<seq<nat>>, detected: Option<seq<nat>>)
    : (r: Result<seq<nat>>)
    ensures ngpu.Some? && devices.Some? ==>
              r == Err(ValueError(ExclusiveOptions))
    ensures ngpu.Some? && devices.None? ==>
              r.Ok? && |r.value| == ngpu.value && forall i :: 0 <= i < |r.value| ==> r.value[i] == i
    ensures ngpu.None? && devices.Some? ==> r == Ok(devices.value)
    ensures ngpu.None? && devices.None? && detected.Some? ==> r == Ok(detected.value)
    ensures r.Err? && r.error.RuntimeError? <==> ngpu.None? && devices.None? && detected.None?
  {
    if ngpu.Some? && devices.Some? then
      Err(ValueError(ExclusiveOptions))
    else
      var chosen := if ngpu.Some? then Some(Range(ngpu.value)) else if devices.Some? then devices else detected;
      if chosen.None? then
        Err(RuntimeError(NoGpus))
      else Ok(chosen.value)
  }

  /** `LocalCPUQueue._getdevices`: as many anonymous slots as whole jobs of
      `ncpu` threads fit in `maxcpu` threads. */
  function CpuDevices(ncpu: Pos, maxcpu: Pos): (r: Result<seq<Option<nat>>>)
    ensures r.Err? <==> ncpu > maxcpu
    ensures r.Err? ==> r.error.ValueError?
    ensures r.Ok? ==> |r.value| * ncpu <= maxcpu < (|r.value| + 1) * ncpu
    ensures r.Ok? ==> |r.value| >= 1 && forall i :: 0 <= i < |r.value| ==> r.value[i].None?
  {
    if ncpu > maxcpu then
      Err(ValueError("The ncpu (" + NatToString(ncpu) + TooManyCpus + NatToString(maxcpu) + ")"))
    else
      FloorDiv(maxcpu, ncpu);
      Ok(seq(maxcpu / ncpu, _ => None))
  }

  /** The device list a queue of either kind starts one worker for: GPU
      indices, or `None` entries for CPU slots. */
  function Devices(config: DeviceConfig, machine: Machine): (r: Result<seq<Option<nat>>>)
    ensures config.Gpu? ==>
              var g := GpuDevices(config.ngpu, config.devices, machine.detectedGpus);
              (r.Err? <==> g.Err?) && (r.Err? ==> r.error == g.error)
              && (r.Ok? ==> |r.value| == |g.value| && forall i :: 0 <= i < |r.value| ==> r.value[i] == Some(g.value[i]))
    ensures config.Cpu? ==> r == CpuDevices(config.ncpu, config.maxcpu)
  {
    match config
    case Gpu(ngpu, devices) =>
      var g := GpuDevices(ngpu, devices, machine.detectedGpus);
      if g.Err? then Err(g.error) else Ok(seq(|g.value|, i requires 0 <= i < |g.value| => Some(g.value[i])))
    case Cpu(ncpu, maxcpu) => CpuDevices(ncpu, maxcpu)
  }

  /** `_LocalQueue._getmemory`, used by the GPU queue: the machine's memory
      in whole MiB shared evenly between the devices, or None without
      devices. Selecting the devices can fail, and the failure propagates. */
  function GpuMemory(ngpu: Option<nat>, devices: Option<seq<nat>>, machine: Machine): (r: Result<Option<nat>>)
    ensures r.Err? <==> GpuDevices(ngpu, devices, machine.detectedGpus).Err?
    ensures r.Ok? ==>
              var n := |GpuDevices(ngpu, devices, machine.detectedGpus).value|;
              (r.value.None? <==> n == 0)
              && (r.value.Some? ==> Shares(r.value.value, n, machine.totalBytes / MiB))
  {
    var g := GpuDevices(ngpu, devices, machine.detectedGpus);
    if g.Err? then Err(g.error)
    else
      var n := |g.value|;
      if n != 0 then Ok(Some(EvenShare(machine.totalBytes / MiB, n))) else Ok(None)
  }

  /** `m` is what each of `n` sharers gets of `total`, rounded down. */
  predicate Shares(m: nat, n: nat, total: nat)
  {
    m * n <= total < (m + 1) * n
  }

  function EvenShare(total: nat, n: nat): (m: nat)
    requires n > 0
    ensures Shares(m, n, total)
  {
    SharesOfDivision(total, n);
    total / n
  }

  lemma SharesOfDivision(total: nat, n: nat)
    requires n > 0
    ensures Shares(total / n, n, total)
  {
    FloorDiv(total, n);
  }

  /** `LocalCPUQueue._getmemory`: the machine's memory in MiB scaled by
      `ncpu / cpu_count` clamped to at most 1, rounded down. */
  function CpuMemory(ncpu: Pos, machine: Machine): (m: nat)
    ensures var share := if ncpu < machine.cpuCount then ncpu else machine.cpuCount;
            m * (MiB * machine.cpuCount) <= machine.totalBytes * share < (m + 1) * (MiB * machine.cpuCount)
    ensures m * MiB <= machine.totalBytes
  {
    var share := if ncpu < machine.cpuCount then ncpu else machine.cpuCount;
    var m := EvenShare(machine.totalBytes * share, MiB * machine.cpuCount);
    ShareBound(m, machine.totalBytes, share, machine.cpuCount);
    m
  }

  lemma ShareBound(m: nat, total: nat, share: nat, count: Pos)
    requires share <= count
    requires m * (MiB * count) <= total * share
    ensures m * MiB <= total
  {
    assert total * share <= total * count;
    assert (m * MiB) * count <= total * count;
  }

  /** The memory the queue records when it sets up its workers. */
  function Memory(config: DeviceConfig, machine: Machine): (r: Result<Option<nat>>)
    ensures config.Cpu? ==> r == Ok(Some(CpuMemory(config.ncpu, machine)))
    ensures config.Gpu? ==> r == GpuMemory(config.ngpu, config.devices, machine)
    ensures r.Err? ==> Devices(config, machine).Err?
  {
    match config
    case Gpu(ngpu, devices) => GpuMemory(ngpu, devices, machine)
    case Cpu(ncpu, _) => Ok(Some(CpuMemory(ncpu, machine)))
  }

  /* ---------------------------------------------------------------------
     The job script a worker writes
     --------------------------------------------------------------------- */

  /** `datadir/<name of the job directory>` */
  function OutputDir(cwd: Path, workdir: Path, datadir: Path): Path
  {
    PathJoin(Abspath(cwd, datadir), Basename(Normpath(workdir)))
  }

  /** The closing `mv` of the results to `datadir`: written only when the
      output directory is not the job directory itself. */
  function MoveLine(cwd: Path, workdir: Path, datadir: Option<Path>, copy: seq<string>): (r: Option<string>)
    ensures r.Some? <==> datadir.Some? && Abspath(cwd, OutputDir(cwd, workdir, datadir.value)) != Abspath(cwd, workdir)
    ensures r.Some? ==> r.value == "mv " + Join(copy, " ") + " " + OutputDir(cwd, workdir, datadir.value)
  {
    if datadir.Some? && Abspath(cwd, OutputDir(cwd, workdir, datadir.value)) != Abspath(cwd, workdir) then
      Some("mv " + Join(copy, " ") + " " + OutputDir(cwd, workdir, datadir.value))
    else None
  }

  const ExportDevice := "export CUDA_VISIBLE_DEVICES="

  /** Position of the `cd` line. */
  function CdIndex(device: Option<nat>): nat
  {
    if device.Some? then 7 else 5
  }

  /** Everything before the `cd`: the shebang, the trap creating the
      completion marker on exit or termination, and the device export. */
  function Header(workdir: Path, device: Option<nat>): (h: seq<string>)
    ensures |h| == CdIndex(device)
    ensures h[0] == Sim.Shebang && h[3] == Sim.TrapLine(workdir)
    ensures device.Some? ==> h[5] == ExportDevice + NatToString(device.value)
  {
    var base := [Sim.Shebang, "", "", Sim.TrapLine(workdir), ""];
    if device.Some? then base + [ExportDevice + NatToString(device.value), ""] else base
  }

  /** `_createJobScript`: the text written, as the pieces it consists of
      between newlines (`runsh` is written verbatim as one piece). The
      shebang opens it, the trap precedes the `cd`, the run command follows
      the `cd` at once and closes the script unless the results are
      moved. */
  function JobScript(cwd: Path, workdir: Path, runsh: string, device: Option<nat>,
                     datadir: Option<Path>, copy: seq<string>): (lines: seq<string>)
    ensures var c := CdIndex(device);
            var mv := MoveLine(cwd, workdir, datadir, copy);
            && |lines| == c + 2 + (if mv.Some? then 1 else 0)
            && lines[..c] == Header(workdir, device)
            && lines[c] == "cd " + Abspath(cwd, workdir)
            && lines[c + 1] == runsh
            && (mv.Some? ==> lines[c + 2] == mv.value)
  {
    var cd, mv := "cd " + Abspath(cwd, workdir), MoveLine(cwd, workdir, datadir, copy);
    var tail := if mv.Some? then [mv.value] else [];
    Closing(Header(workdir, device), cd, runsh, tail);
    Header(workdir, device) + [cd, runsh] + tail
  }

  predicate IsExport(line: string)
  {
    |line| >= 7 && line[..7] == "export "
  }

  /** The device export appears in the header exactly when the worker has
      a device. */
  lemma HeaderExportIffDevice(workdir: Path, device: Option<nat>)
    ensures var h := Header(workdir, device);
            (exists k :: 0 <= k < |h| && IsExport(h[k])) <==> device.Some?
  {
    var h := Header(workdir, device);
    var t := Sim.TrapLine(workdir);
    assert t[..7] == "trap \"t";
    assert !IsExport(h[3]);
    if device.Some? {
      assert h[5][..7] == "export ";
      assert IsExport(h[5]);
    } else {
      assert h == [Sim.Shebang, "", "", t, ""];
    }
  }

  /* ---------------------------------------------------------------------
     Views of the state table
     --------------------------------------------------------------------- */

  /** An entry of the FIFO: the absolute job directory and the run command. */
  datatype WorkItem = WorkItem(path: Path, runscript: string)

  /** Number of the `keys` whose state is `st`. */
  function CountState<K(==)>(states: map<K, JobState>, keys: seq<K>, st: JobState): (n: nat)
    requires forall k :: k in keys ==> k in states
    ensures n <= |keys|
  {
    if keys == [] then 0
    else CountState(states, keys[..|keys| - 1], st) + (if states[keys[|keys| - 1]] == st then 1 else 0)
  }

  /** The `keys` whose state is Completed, in order. */
  function CompletedOf<K(==)>(states: map<K, JobState>, keys: seq<K>): (r: seq<K>)
    requires forall k :: k in keys ==> k in states
  {
    if keys == [] then []
    else CompletedOf(states, keys[..|keys| - 1])
         + (if states[keys[|keys| - 1]] == Completed then [keys[|keys| - 1]] else [])
  }

  /** The `keys` whose state is not Completed, in order. */
  function KeptOf<K(==)>(states: map<K, JobState>, keys: seq<K>): (r: seq<K>)
    requires forall k :: k in keys ==> k in states
  {
    if keys == [] then []
    else KeptOf(states, keys[..|keys| - 1])
         + (if states[keys[|keys| - 1]] != Completed then [keys[|keys| - 1]] else [])
  }

  /** The table without its Completed entries. */
  function WithoutCompleted<K(==)>(states: map<K, JobState>): map<K, JobState>
  {
    map p | p in states && states[p] != Completed :: states[p]
  }

  /** The walk splits the keys in two: those it returns are exactly the
      Completed ones, those it keeps exactly the others, and it keeps them
      once each when the keys are listed once each. */
  lemma {:induction false} RetrievalSplits<K>(states: map<K, JobState>, keys: seq<K>)
    requires forall k :: k in keys ==> k in states
    ensures forall p :: p in CompletedOf(states, keys) <==> p in keys && states[p] == Completed
    ensures forall p :: p in KeptOf(states, keys) <==> p in keys && states[p] != Completed
    ensures Distinct(keys) ==> Distinct(KeptOf(states, keys))
  {
    if keys != [] {
      var front, last := keys[..|keys| - 1], keys[|keys| - 1];
      RetrievalSplits(states, front);
      assert forall p :: p in keys <==> p in front || p == last;
      if Distinct(keys) {
        assert Distinct(front) && last !in front;
        if states[last] != Completed {
          assert KeptOf(states, keys) == KeptOf(states, front) + [last];
          DistinctAppend(KeptOf(states, front), last);
        } else {
          assert KeptOf(states, keys) == KeptOf(states, front);
        }
      }
    }
  }

  /** The paths of the items, in order. */
  function PathsOf(items: seq<WorkItem>): (ps: seq<Path>)
    ensures |ps| == |items| && forall k :: 0 <= k < |items| ==> ps[k] == items[k].path
  {
    seq(|items|, k requires 0 <= k < |items| => items[k].path)
  }

  /** The state table after marking every item's path Queued, item by
      item. */
  function QueueAll(states: map<Path, JobState>, items: seq<WorkItem>): (r: map<Path, JobState>)
    ensures r.Keys == states.Keys + set k | 0 <= k < |items| :: items[k].path
    ensures forall k :: 0 <= k < |items| ==> r[items[k].path] == Queued
    ensures forall p :: p in states && p !in PathsOf(items) ==> r[p] == states[p]
  {
    if items == [] then states
    else
      var front := items[..|items| - 1];
      assert PathsOf(items) == PathsOf(front) + [items[|items| - 1].path];
      QueueAll(states, front)[items[|items| - 1].path := Queued]
  }

  /** The key order after the same assignments. */
  function InsertAll(order: seq<Path>, items: seq<WorkItem>): (r: seq<Path>)
    ensures forall p :: p in r <==> p in order || p in PathsOf(items)
  {
    if items == [] then order
    else Insert(InsertAll(order, items[..|items| - 1]), items[|items| - 1].path)
  }

  /** Queueing items keeps the state table and the key order in step:
      the same keys, each listed once. */
  lemma QueueAllValid(states: map<Path, JobState>, order: seq<Path>, items: seq<WorkItem>)
    requires Distinct(order) && forall p :: p in states <==> p in order
    ensures Distinct(InsertAll(order, items))
    ensures forall p :: p in QueueAll(states, items) <==> p in InsertAll(order, items)
  {
    InsertAllDistinct(order, items);
    forall p | p in PathsOf(items)
      ensures p in QueueAll(states, items)
    {
      var k :| 0 <= k < |items| && PathsOf(items)[k] == p;
    }
  }

  lemma {:induction false} InsertAllDistinct(order: seq<Path>, items: seq<WorkItem>)
    requires Distinct(order)
    ensures Distinct(InsertAll(order, items))
  {
    if items != [] {
      InsertAllDistinct(order, items[..|items| - 1]);
    }
  }

  /** The set of keys whose state is in progress (queued or running). */
  function InProgressSet<K(==)>(states: map<K, JobState>): set<K>
  {
    set p | p in states && (states[p] == Running || states[p] == Queued)
  }

  /** Counting the running and the queued entries along a duplicate-free
      listing of the keys counts the in-progress keys. */
  lemma {:induction false} CountInProgress<K>(states: map<K, JobState>, keys: seq<K>)
    requires Distinct(keys)
    requires forall k :: k in keys ==> k in states
    ensures CountState(states, keys, Running) + CountState(states, keys, Queued)
            == |set p | p in keys && (states[p] == Running || states[p] == Queued)|
  {
    if keys != [] {
      var front, last := keys[..|keys| - 1], keys[|keys| - 1];
      assert Distinct(front);
      CountInProgress(states, front);
      var before := set p | p in front && (states[p] == Running || states[p] == Queued);
      var after := set p | p in keys && (states[p] == Running || states[p] == Queued);
      assert last !in front;
      if states[last] == Running || states[last] == Queued {
        assert after == before + {last};
      } else {
        assert after == before;
      }
    }
  }

  /** Removing completed entries removes nothing else: the in-progress set
      is the same, and a second retrieval finds nothing to return. */
  lemma WithoutCompletedKeepsWork<K>(states: map<K, JobState>)
    ensures InProgressSet(WithoutCompleted(states)) == InProgressSet(states)
    ensures forall p :: p in WithoutCompleted(states) ==> WithoutCompleted(states)[p] != Completed
  {
  }

  /** With no Completed entry, `retrieve` returns nothing. */
  lemma {:induction false} NothingCompleted<K>(states: map<K, JobState>, keys: seq<K>)
    requires forall k :: k in keys ==> k in states
    requires forall p :: p in states ==> states[p] != Completed
    ensures CompletedOf(states, keys) == []
  {
    if keys != [] {
      NothingCompleted(states, keys[..|keys| - 1]);
    }
  }

  /* ---------------------------------------------------------------------
     Submission, as a specification
     --------------------------------------------------------------------- */

  /** The first directory that does not exist, if any. */
  function FirstMissing(fs: FileSystem, ds: seq<Path>): (r: Option<nat>)
    ensures r.Some? ==> r.value < |ds| && !fs.IsDir(ds[r.value])
                        && forall j :: 0 <= j < r.value ==> fs.IsDir(ds[j])
    ensures r.None? ==> forall j :: 0 <= j < |ds| ==> fs.IsDir(ds[j])
  {
    if ds == [] then None
    else if !fs.IsDir(ds[0]) then Some(0)
    else
      var rest := FirstMissing(fs, ds[1..]);
      if rest.None? then None else Some(rest.value + 1)
  }

  /** The directory found missing is the first one that is not a
      directory. */
  lemma FirstMissingAt(fs: FileSystem, ds: seq<Path>, i: nat)
    requires i < |ds| && !fs.IsDir(ds[i])
    requires forall j :: 0 <= j < i ==> fs.IsDir(ds[j])
    ensures FirstMissing(fs, ds) == Some(i)
  {
    var r := FirstMissing(fs, ds);
    assert r.Some?;
    assert r.value <= i;
  }

  /** Below a working directory "/a", `submit` finds "b/", "./b" and "b"
      exactly when "/a/b" is a directory: every spelling names one. */
  lemma SpellingsFound(fs: FileSystem, a: string, b: string)
    requires fs.cwd == "/" + a && Plain(a) && Plain(b)
    ensures FirstMissing(fs, [b + "/", "./" + b, b]).None? <==> "/" + a + "/" + b in fs.dirs
  {
    var ds := [b + "/", "./" + b, b];
    var key := "/" + a + "/" + b;
    assert fs.IsDir(ds[0]) == fs.IsDir(ds[1]) == fs.IsDir(ds[2]) == (key in fs.dirs) by {
      SameDirectory(fs, a, b);
    }
    if key !in fs.dirs {
      FirstMissingAt(fs, ds, 0);
    }
  }

  /** Progress of the queueing loop after `n` directories: the run
      command of each directory queued so far, the file system (stale
      markers removed), and the error that stopped the loop, if any. */
  datatype Progress = Progress(runs: seq<string>, fs: FileSystem, error: Option<Error>)

  /** What the loop does to the file system for each directory it queues;
      the working directory stays where it is. */
  type Cleaner = clean: (FileSystem, Path) -> FileSystem | forall f, d :: clean(f, d).cwd == f.cwd
    witness (f: FileSystem, d: Path) => f

  /** `_cleanSentinel(d)`, the cleaner `submit` uses: the stale completion
      marker of `d` is removed. */
  function CleanStale(fs: FileSystem, d: Path): (r: FileSystem)
    ensures r.cwd == fs.cwd && r.dirs == fs.dirs
    ensures !Sim.HasSentinel(r, d) || r == fs
  {
    Sim.CleanSentinel(fs, d).fs
  }

  /** Progress after the first `n` directories: the loop stops at the
      first directory whose run command cannot be found. */
  function Enqueue(lookup: Sim.Lookup, clean: Cleaner, fs: FileSystem, ds: seq<Path>, n: nat)
    : (r: Progress)
    requires n <= |ds|
    ensures |r.runs| <= n
    ensures r.error.None? ==> |r.runs| == n
    ensures r.fs.cwd == fs.cwd
  {
    if n == 0 then Progress([], fs, None)
    else
      var prev := Enqueue(lookup, clean, fs, ds, n - 1);
      if prev.error.Some? then prev
      else
        var d := ds[n - 1];
        var run := lookup(prev.fs, d, n - 1);
        if run.Err? then Progress(prev.runs, prev.fs, Some(run.error))
        else Progress(prev.runs + [run.value], clean(prev.fs, d), None)
  }

  /** The work items queued for the first `|runs|` directories: the
      absolute path of each, paired with its run command. */
  function Items(cwd: Path, ds: seq<Path>, runs: seq<string>): (items: seq<WorkItem>)
    requires |runs| <= |ds|
    ensures |items| == |runs|
    ensures forall k :: 0 <= k < |runs| ==> items[k] == WorkItem(Abspath(cwd, ds[k]), runs[k])
  {
    seq(|runs|, k requires 0 <= k < |runs| => WorkItem(Abspath(cwd, ds[k]), runs[k]))
  }

  lemma ItemsSnoc(cwd: Path, ds: seq<Path>, runs: seq<string>, run: string)
    requires |runs| < |ds|
    ensures Items(cwd, ds, runs + [run]) == Items(cwd, ds, runs) + [WorkItem(Abspath(cwd, ds[|runs|]), run)]
  {
    var a, b := Items(cwd, ds, runs + [run]), Items(cwd, ds, runs) + [WorkItem(Abspath(cwd, ds[|runs|]), run)];
    assert forall k :: 0 <= k < |a| ==> a[k] == b[k];
  }

  /** The step from `i` to `i + 1` directories while no error has
      occurred. */
  lemma EnqueueNext(lookup: Sim.Lookup, clean: Cleaner, fs: FileSystem, ds: seq<Path>, i: nat)
    requires i < |ds| && Enqueue(lookup, clean, fs, ds, i).error.None?
    ensures var p, r := Enqueue(lookup, clean, fs, ds, i), Enqueue(lookup, clean, fs, ds, i + 1);
            var run := lookup(p.fs, ds[i], i);
            && r.runs == (if run.Err? then p.runs else p.runs + [run.value])
            && r.error == (if run.Err? then Some(run.error) else None)
            && r.fs == (if run.Err? then p.fs else clean(p.fs, ds[i]))
  {
  }

  /** The absolute paths of the run scripts of the first `m` directories. */
  function RunScripts(cwd: Path, ds: seq<Path>, runscript: string, m: nat): (r: seq<string>)
    requires m <= |ds|
    ensures |r| == m
  {
    seq(m, k requires 0 <= k < m => Abspath(cwd, PathJoin(ds[k], runscript)))
  }

  lemma RunScriptsSnoc(cwd: Path, ds: seq<Path>, runscript: string, m: nat)
    requires m < |ds|
    ensures RunScripts(cwd, ds, runscript, m + 1)
            == RunScripts(cwd, ds, runscript, m) + [Abspath(cwd, PathJoin(ds[m], runscript))]
  {
    var a, b := RunScripts(cwd, ds, runscript, m + 1), RunScripts(cwd, ds, runscript, m);
    assert forall k :: 0 <= k < m ==> a[k] == b[k];
  }

  /** Queueing with a lookup of run scripts queues, for each directory,
      the absolute path of its own run script. */
  lemma {:induction false} RunsAreScripts(lookup: Sim.Lookup, clean: Cleaner, runscript: string, fs: FileSystem, ds: seq<Path>, n: nat)
    requires n <= |ds| && Sim.FindsRunScripts(lookup, runscript)
    ensures var runs := Enqueue(lookup, clean, fs, ds, n).runs;
            runs == RunScripts(fs.cwd, ds, runscript, |runs|)
  {
    if n > 0 {
      var prev := Enqueue(lookup, clean, fs, ds, n - 1);
      RunsAreScripts(lookup, clean, runscript, fs, ds, n - 1);
      if prev.error.Some? {
        EnqueueStopped(lookup, clean, fs, ds, n - 1, n);
      } else {
        EnqueueNext(lookup, clean, fs, ds, n - 1);
        var run := lookup(prev.fs, ds[n - 1], n - 1);
        if run.Ok? {
          assert run.value == Abspath(fs.cwd, PathJoin(ds[n - 1], runscript));
          RunScriptsSnoc(fs.cwd, ds, runscript, n - 1);
        }
      }
    }
  }

  /** Queueing with a lookup of commands queues the commands in order, and
      stops with IndexError exactly when they run out. */
  lemma {:induction false} RunsAreCommands(lookup: Sim.Lookup, clean: Cleaner, commands: seq<string>, fs: FileSystem, ds: seq<Path>, n: nat)
    requires n <= |ds| && Sim.FindsCommands(lookup, commands)
    ensures var r := Enqueue(lookup, clean, fs, ds, n);
            && |r.runs| <= |commands| && r.runs == commands[..|r.runs|]
            && (r.error.None? <==> n <= |commands|)
            && (r.error.Some? ==> r.error.value == IndexError && |r.runs| == |commands|)
  {
    if n > 0 {
      var prev := Enqueue(lookup, clean, fs, ds, n - 1);
      RunsAreCommands(lookup, clean, commands, fs, ds, n - 1);
      if prev.error.Some? {
        EnqueueStopped(lookup, clean, fs, ds, n - 1, n);
      } else {
        EnqueueNext(lookup, clean, fs, ds, n - 1);
        if n - 1 < |commands| {
          TakeSnoc(prev.runs, commands, n);
        }
      }
    }
  }

  /** Without commands, each directory queued by `submit` runs the
      absolute path of its own run script. */
  lemma EnqueueRunScripts(sim: Sim.SimQueue, fs: FileSystem, ds: seq<Path>)
    ensures var runs := Enqueue(Sim.LookupOf(sim.runscript, None), CleanStale, fs, ds, |ds|).runs;
            runs == RunScripts(fs.cwd, ds, sim.runscript, |runs|)
  {
    Sim.LookupOfFinds(sim.runscript, None);
    RunsAreScripts(Sim.LookupOf(sim.runscript, None), CleanStale, sim.runscript, fs, ds, |ds|);
  }

  /** With commands given, `submit` queues the `k`-th directory with the
      `k`-th command, and fails with IndexError exactly when there are
      fewer commands than directories, after queueing one directory per
      command. */
  lemma EnqueueWithCommands(sim: Sim.SimQueue, fs: FileSystem, ds: seq<Path>, commands: seq<string>)
    ensures var r := Enqueue(Sim.LookupOf(sim.runscript, Some(commands)), CleanStale, fs, ds, |ds|);
            && |r.runs| <= |commands| && r.runs == commands[..|r.runs|]
            && (r.error.None? <==> |ds| <= |commands|)
            && (r.error.Some? ==> r.error.value == IndexError && |r.runs| == |commands|)
  {
    Sim.LookupOfFinds(sim.runscript, Some(commands));
    RunsAreCommands(Sim.LookupOf(sim.runscript, Some(commands)), CleanStale, commands, fs, ds, |ds|);
  }

  /** Once an error has stopped the queueing loop, later directories
      change nothing. */
  lemma {:induction false} EnqueueStopped(lookup: Sim.Lookup, clean: Cleaner, fs: FileSystem, ds: seq<Path>, n: nat, m: nat)
    requires n <= m <= |ds|
    requires Enqueue(lookup, clean, fs, ds, n).error.Some?
    ensures Enqueue(lookup, clean, fs, ds, m) == Enqueue(lookup, clean, fs, ds, n)
    decreases m
  {
    if m > n {
      EnqueueStopped(lookup, clean, fs, ds, n, m - 1);
      assert Enqueue(lookup, clean, fs, ds, m - 1).error == Enqueue(lookup, clean, fs, ds, n).error;
      EnqueueKeepsError(lookup, clean, fs, ds, m);
    }
  }

  /** One directory after an error leaves the progress as it was. */
  lemma EnqueueKeepsError(lookup: Sim.Lookup, clean: Cleaner, fs: FileSystem, ds: seq<Path>, m: nat)
    requires 0 < m <= |ds|
    requires Enqueue(lookup, clean, fs, ds, m - 1).error.Some?
    ensures Enqueue(lookup, clean, fs, ds, m) == Enqueue(lookup, clean, fs, ds, m - 1)
  {
  }

  /** The queueing loop of `submit`: for each directory in turn, its run
      command is looked up (the loop stops at the first failure), its stale
      completion marker removed, and the work item for its absolute path
      queued. */
  method EnqueueLoop(lookup: Sim.Lookup, clean: Cleaner, fs: FileSystem, ds: seq<Path>)
    returns (p: Progress, items: seq<WorkItem>)
    ensures p == Enqueue(lookup, clean, fs, ds, |ds|)
    ensures items == Items(fs.cwd, ds, p.runs)
  {
    p, items := Progress([], fs, None), [];
    for i := 0 to |ds|
      invariant p == Enqueue(lookup, clean, fs, ds, i) && p.error.None?
      invariant items == Items(fs.cwd, ds, p.runs)
    {
      var run := lookup(p.fs, ds[i], i);
      EnqueueNext(lookup, clean, fs, ds, i);
      if run.Err? {
        EnqueueStopped(lookup, clean, fs, ds, i + 1, |ds|);
        return Progress(p.runs, p.fs, Some(run.error)), items;
      }
      ItemsSnoc(fs.cwd, ds, p.runs, run.value);
      items := items + [WorkItem(Abspath(fs.cwd, ds[i]), run.value)];
      p := Progress(p.runs + [run.value], clean(p.fs, ds[i]), None);
    }
  }

  /** The table after deleting, one by one, the Completed entries among
      `done`. */
  function Cleared<K(==)>(m: map<K, JobState>, done: seq<K>): map<K, JobState>
  {
    if done == [] then m
    else
      var rest, k := Cleared(m, done[..|done| - 1]), done[|done| - 1];
      if k in m && m[k] == Completed then rest - {k} else rest
  }

  /** What the deletions leave: the entries not Completed among `done`,
      with their states. */
  lemma {:induction false} ClearedEntries<K>(m: map<K, JobState>, done: seq<K>)
    ensures forall p :: p in Cleared(m, done) <==> p in m && !(p in done && m[p] == Completed)
    ensures forall p :: p in Cleared(m, done) ==> Cleared(m, done)[p] == m[p]
  {
    if done != [] {
      var front := done[..|done| - 1];
      ClearedEntries(m, front);
      assert forall p :: p in done <==> p in front || p == done[|done| - 1];
    }
  }

  /** One step of the walk on the returned keys. */
  lemma CompletedOfStep<K>(m: map<K, JobState>, keys: seq<K>, i: nat)
    requires (forall p :: p in keys ==> p in m) && i < |keys|
    ensures CompletedOf(m, keys[..i + 1])
            == CompletedOf(m, keys[..i]) + (if m[keys[i]] == Completed then [keys[i]] else [])
  {
    assert keys[..i + 1][..i] == keys[..i];
  }

  /** One step of the walk on the key order: a Completed key is removed
      from where it stands, any other stays. */
  lemma KeptOfStep<K>(m: map<K, JobState>, keys: seq<K>, i: nat)
    requires Distinct(keys) && (forall p :: p in keys ==> p in m) && i < |keys|
    ensures m[keys[i]] == Completed ==>
              KeptOf(m, keys[..i + 1]) + keys[i + 1..] == Remove(KeptOf(m, keys[..i]) + keys[i..], keys[i])
    ensures m[keys[i]] != Completed ==>
              KeptOf(m, keys[..i + 1]) + keys[i + 1..] == KeptOf(m, keys[..i]) + keys[i..]
  {
    var k, done, rest := keys[i], keys[..i], keys[i + 1..];
    DistinctAt(keys, i);
    SplitAt(keys, i);
    assert keys[..i + 1][..i] == done;
    var kept := KeptOf(m, done);
    if m[k] == Completed {
      assert KeptOf(m, keys[..i + 1]) == kept;
      RetrievalSplits(m, done);
      RemoveAfter(kept, k, rest);
      assert kept + keys[i..] == kept + [k] + rest;
    } else {
      assert KeptOf(m, keys[..i + 1]) == kept + [k];
    }
  }

  /** One step of the walk on the table: the next key is still in it, and
      is deleted when Completed. */
  lemma ClearedStep<K>(m: map<K, JobState>, keys: seq<K>, i: nat)
    requires Distinct(keys) && (forall p :: p in keys ==> p in m) && i < |keys|
    ensures keys[i] in Cleared(m, keys[..i]) && Cleared(m, keys[..i])[keys[i]] == m[keys[i]]
    ensures Cleared(m, keys[..i + 1])
            == if m[keys[i]] == Completed then Cleared(m, keys[..i]) - {keys[i]} else Cleared(m, keys[..i])
  {
    DistinctAt(keys, i);
    SplitAt(keys, i);
    ClearedEntries(m, keys[..i]);
    assert keys[..i + 1][..i] == keys[..i];
  }

  /** The loop of `retrieve` over a snapshot `keys` of the table's keys in
      insertion order: every Completed entry is deleted from the table and
      from the key order, and appended to the list returned. */
  method Walk<K(==)>(m: map<K, JobState>, keys: seq<K>)
    returns (ret: seq<K>, table: map<K, JobState>, live: seq<K>)
    requires Distinct(keys) && forall p :: p in m <==> p in keys
    ensures ret == CompletedOf(m, keys)
    ensures table == Cleared(m, keys)
    ensures live == KeptOf(m, keys)
  {
    ret, table, live := [], m, keys;
    for i := 0 to |keys|
      invariant ret == CompletedOf(m, keys[..i])
      invariant live == KeptOf(m, keys[..i]) + keys[i..]
      invariant table == Cleared(m, keys[..i])
    {
      var k := keys[i];
      CompletedOfStep(m, keys, i);
      KeptOfStep(m, keys, i);
      ClearedStep(m, keys, i);
      if table[k] == Completed {
        table := table - {k};
        live := Remove(live, k);
        ret := ret + [k];
      }
    }
    assert keys[..|keys|] == keys;
  }

  /** At the end of the walk the table holds exactly the kept keys, each
      listed once. */
  lemma RetrieveDone<K>(m: map<K, JobState>, keys: seq<K>)
    requires Distinct(keys) && forall p :: p in m <==> p in keys
    ensures Cleared(m, keys) == WithoutCompleted(m)
    ensures Distinct(KeptOf(m, keys))
    ensures forall p :: p in WithoutCompleted(m) <==> p in KeptOf(m, keys)
  {
    RetrievalSplits(m, keys);
    ClearedEntries(m, keys);
    var c, w := Cleared(m, keys), WithoutCompleted(m);
    forall p
      ensures p in c <==> p in w
    {
      if p in m { assert p in keys; }
    }
    assert forall p :: p in c ==> c[p] == w[p];
    MapsAgree(c, w);
  }

  /* ---------------------------------------------------------------------
     The queue object
     --------------------------------------------------------------------- */

  const MissingDirectory := "Submit: directory "
  const DoesNotExist := " does not exist."

  class LocalQueue {
    /** The registry and checks shared by every queue. */
    const sim: Sim.SimQueue
    const config: DeviceConfig
    const machine: Machine
    /** Where results are moved (`datadir`), and the file names or globs
        moved (`copy`). */
    const datadir: Option<Path>
    const copy: seq<string>

    var memory: Option<nat>
    /** `_states`: the table, and the order its keys were inserted in. */
    var states: map<Path, JobState>
    var order: seq<Path>
    /** Whether `_queue` exists; the FIFO's contents and its count of
        unfinished tasks (raised by `put`, lowered by `task_done`). */
    var queueCreated: bool
    var pending: seq<WorkItem>
    var unfinished: nat
    /** One worker thread per entry: the device it is bound to. */
    var workers: seq<Option<nat>>
    var shutdown: bool

    /** The table's keys are listed once each in insertion order; every
        item still in the FIFO counts as an unfinished task; before the FIFO
        exists there is nothing in it and no worker. */
    ghost predicate Valid()
      reads this
    {
      && Distinct(order)
      && (forall p :: p in states <==> p in order)
      && |pending| <= unfinished
      && (!queueCreated ==> pending == [] && unfinished == 0 && workers == [])
    }

    /** A new queue. The memory of a CPU queue is worked out while `ncpu`
        still has its default of 1; setting up the workers works it out
        again with the `ncpu` configured. */
    constructor (config: DeviceConfig, machine: Machine, datadir: Option<Path>, copy: seq<string>)
      ensures Valid() && fresh(sim)
      ensures this.config == config && this.machine == machine
      ensures this.datadir == datadir && this.copy == copy
      ensures sim.dirs.None? && sim.runscript == "run.sh" && sim.jobscript == "job.sh"
      ensures memory == (if config.Cpu? then Some(CpuMemory(1, machine)) else None)
      ensures states == map[] && order == [] && !queueCreated && !shutdown
    {
      sim := new Sim.SimQueue(None, "run.sh", "job.sh");
      this.config := config;
      this.machine := machine;
      this.datadir := datadir;
      this.copy := copy;
      memory := if config.Cpu? then Some(CpuMemory(1, machine)) else None;
      states := map[];
      order := [];
      queueCreated := false;
      pending := [];
      unfinished := 0;
      workers := [];
      shutdown := false;
    }

    /** `inprogress`: the running entries plus the queued ones. */
    function InProgress(): (n: nat)
      reads this
      requires Valid()
      ensures n == |InProgressSet(states)|
    {
      CountInProgress(states, order);
      assert (set p | p in order && (states[p] == Running || states[p] == Queued)) == InProgressSet(states);
      CountState(states, order, Running) + CountState(states, order, Queued)
    }

    /** `_setRunning` / `_setCompleted` / the assignment in `submit`: one
        entry of the table set. */
    method SetState(p: Path, st: JobState)
      requires Valid()
      modifies this
      ensures Valid()
      ensures states == old(states)[p := st]
      ensures order == Insert(old(order), p)
      ensures pending == old(pending) && unfinished == old(unfinished) && queueCreated == old(queueCreated)
      ensures workers == old(workers) && shutdown == old(shutdown) && memory == old(memory)
    {
      InsertDistinct(order, p);
      if p !in states {
        order := order + [p];
      }
      states := states[p := st];
    }

    /** Whether `_setupQueue` raises now: only the first call does any
        work, and it fails when the devices cannot be picked. */
    predicate SetupFails()
      reads this
    {
      !queueCreated && Devices(config, machine).Err?
    }

    /** `_setupQueue`: creates the FIFO on the first call only, then picks
        the devices and the memory and starts one worker per device. The
        FIFO exists from then on even when picking the devices fails. */
    method SetupQueue() returns (o: Outcome)
      requires Valid()
      modifies this
      ensures Valid() && queueCreated
      ensures o.Fail? <==> old(SetupFails())
      ensures o.Fail? ==> o.error == Devices(config, machine).error
      ensures old(queueCreated) || o.Fail? ==> memory == old(memory) && workers == old(workers)
      ensures !old(queueCreated) && o.Pass? ==>
                workers == Devices(config, machine).value && Memory(config, machine) == Ok(memory)
      ensures pending == old(pending) && unfinished == old(unfinished)
      ensures states == old(states) && order == old(order) && shutdown == old(shutdown)
    {
      if queueCreated {
        return Pass;
      }
      queueCreated := true;
      var devices := Devices(config, machine);
      if devices.Err? {
        return Fail(devices.error);
      }
      var mem := Memory(config, machine);
      assert mem.Ok?;
      memory := mem.value;
      var started := [];
      for i := 0 to |devices.value|
        invariant started == devices.value[..i]
      {
        started := started + [devices.value[i]];
      }
      workers := started;
      return Pass;
    }

    /** One pass of a worker's loop (`run_job`) on a worker bound to
        `device`: unless shut down, it takes the oldest item if there is
        one, marks it running and writes its job script `jobsh`. Writing
        happens outside the `try` that guards the run: when it fails
        (`written`, the outcome of opening the script and making the data
        directories), the error ends the worker thread, and the item stays
        Running and is never acknowledged. Otherwise the script is run and
        the item marked completed whatever the run's outcome `ran`, and
        acknowledged once. */
    method WorkerStep(fs: FileSystem, device: Option<nat>, written: Outcome, ran: Outcome)
      returns (taken: Option<WorkItem>, jobsh: Path, script: seq<string>, crash: Option<Error>)
      requires Valid()
      modifies this
      ensures Valid()
      ensures old(shutdown) || old(pending) == [] ==>
                taken.None? && crash.None? && states == old(states) && order == old(order)
                && pending == old(pending) && unfinished == old(unfinished)
      ensures !old(shutdown) && old(pending) != [] ==>
                var item := old(pending)[0];
                && taken == Some(item)
                && pending == old(pending)[1..]
                && order == Insert(old(order), item.path)
      ensures !old(shutdown) && old(pending) != [] && written.Fail? ==>
                var item := old(pending)[0];
                && crash == Some(written.error)
                && states == old(states)[item.path := Running]
                && unfinished == old(unfinished)
      ensures !old(shutdown) && old(pending) != [] && written.Pass? ==>
                var item := old(pending)[0];
                && crash.None?
                && states == old(states)[item.path := Completed]
                && unfinished == old(unfinished) - 1
      ensures taken.Some? ==>
                && jobsh == PathJoin(taken.value.path, sim.jobscript)
                && script == JobScript(fs.cwd, taken.value.path, taken.value.runscript, device, datadir, copy)
      ensures queueCreated == old(queueCreated) && workers == old(workers)
      ensures shutdown == old(shutdown) && memory == old(memory)
    {
      jobsh, script, crash := "", [], None;
      if shutdown || pending == [] {
        return None, jobsh, script, crash;
      }
      ghost var states0, order0 := states, order;
      var item := Take();
      taken := Some(item);
      jobsh := PathJoin(item.path, sim.jobscript);
      script := JobScript(fs.cwd, item.path, item.runscript, device, datadir, copy);
      if written.Fail? {
        crash := Some(written.error);
        return;
      }
      // `check_output(jobsh)` runs here; both of its outcomes end alike.
      Complete(item.path);
      UpdateTwice(states0, item.path, Running, Completed);
      InsertAgain(order0, item.path);
    }

    /** `queue.get` followed by `_setRunning`: the first pending item is
        taken off the queue and its entry marked Running. */
    method Take() returns (item: WorkItem)
      requires Valid() && pending != []
      modifies this
      ensures Valid()
      ensures item == old(pending)[0] && pending == old(pending)[1..] && unfinished == old(unfinished)
      ensures states == old(states)[item.path := Running] && order == Insert(old(order), item.path)
      ensures queueCreated == old(queueCreated) && workers == old(workers)
      ensures shutdown == old(shutdown) && memory == old(memory)
    {
      item := pending[0];
      pending := pending[1..];
      SetState(item.path, Running);
    }

    /** `_setCompleted` followed by `queue.task_done`: the entry is marked
        Completed and one unfinished task fewer is counted. */
    method Complete(p: Path)
      requires Valid() && |pending| < unfinished
      modifies this
      ensures Valid()
      ensures states == old(states)[p := Completed] && order == Insert(old(order), p)
      ensures pending == old(pending) && unfinished == old(unfinished) - 1
      ensures queueCreated == old(queueCreated) && workers == old(workers)
      ensures shutdown == old(shutdown) && memory == old(memory)
    {
      SetState(p, Completed);
      unfinished := unfinished - 1;
    }

    /** `retrieve`: walks a snapshot of the keys in insertion order,
        deleting and returning every Completed entry. */
    method Retrieve() returns (ret: seq<Path>)
      requires Valid()
      modifies this
      ensures Valid()
      ensures ret == CompletedOf(old(states), old(order))
      ensures states == WithoutCompleted(old(states))
      ensures order == KeptOf(old(states), old(order))
      ensures pending == old(pending) && unfinished == old(unfinished) && queueCreated == old(queueCreated)
      ensures workers == old(workers) && shutdown == old(shutdown) && memory == old(memory)
    {
      RetrieveDone(states, order);
      ret, states, order := Walk(states, order);
    }

    /** `stop`: raises the shutdown flag; nothing else changes. */
    method Stop()
      modifies this
      ensures shutdown
      ensures states == old(states) && order == old(order) && pending == old(pending)
      ensures unfinished == old(unfinished) && queueCreated == old(queueCreated)
      ensures workers == old(workers) && memory == old(memory)
    {
      shutdown := true;
    }

    /** The check in `submit` that every directory exists, made before any
        is queued: the first one missing raises NameError. */
    method CheckDirs(fs: FileSystem, ds: seq<Path>) returns (o: Outcome)
      ensures FirstMissing(fs, ds).None? ==> o == Pass
      ensures FirstMissing(fs, ds).Some? ==>
                o == Fail(NameError(MissingDirectory + ds[FirstMissing(fs, ds).value] + DoesNotExist))
    {
      for i := 0 to |ds|
        invariant forall j :: 0 <= j < i ==> fs.IsDir(ds[j])
      {
        if !fs.IsDir(ds[i]) {
          FirstMissingAt(fs, ds, i);
          return Fail(NameError(MissingDirectory + ds[i] + DoesNotExist));
        }
      }
      return Pass;
    }

    /** The queue side of `submit`'s loop: each item's path is marked
        Queued in the table and the item put on the work queue. */
    method QueueItems(items: seq<WorkItem>)
      requires Valid() && queueCreated
      modifies this
      ensures Valid()
      ensures pending == old(pending) + items && unfinished == old(unfinished) + |items|
      ensures states == QueueAll(old(states), items) && order == InsertAll(old(order), items)
      ensures queueCreated == old(queueCreated) && workers == old(workers)
      ensures shutdown == old(shutdown) && memory == old(memory)
    {
      QueueAllValid(states, order, items);
      states, order := QueueAll(states, items), InsertAll(order, items);
      pending, unfinished := pending + items, unfinished + |items|;
    }

    /** `submit`: sets the queue up, registers the directories, checks that
        every one of them exists before queueing any, then queues them. The
        file system afterwards is returned. */
    method Submit(fs: FileSystem, arg: Sim.DirsArg, commands: Option<seq<string>>)
      returns (o: Outcome, fs': FileSystem)
      requires Valid()
      modifies this, sim
      ensures Valid() && queueCreated
      ensures old(queueCreated) || old(SetupFails()) ==> memory == old(memory) && workers == old(workers)
      ensures !old(queueCreated) && !old(SetupFails()) ==>
                workers == Devices(config, machine).value && Memory(config, machine) == Ok(memory)
      ensures old(SetupFails()) ==>
                o == Fail(Devices(config, machine).error) && fs' == fs && sim.dirs == old(sim.dirs)
                && states == old(states) && order == old(order) && pending == old(pending)
                && unfinished == old(unfinished)
      ensures !old(SetupFails()) ==> sim.dirs == Some(old(sim.dirs).GetOr([]) + Sim.EnsureList(arg))
      ensures !old(SetupFails()) && FirstMissing(fs, Sim.EnsureList(arg)).Some? ==>
                var ds := Sim.EnsureList(arg);
                && o == Fail(NameError(MissingDirectory + ds[FirstMissing(fs, ds).value] + DoesNotExist))
                && fs' == fs && states == old(states) && order == old(order) && pending == old(pending)
                && unfinished == old(unfinished)
      ensures !old(SetupFails()) && FirstMissing(fs, Sim.EnsureList(arg)).None? ==>
                var ds := Sim.EnsureList(arg);
                var p := Enqueue(Sim.LookupOf(sim.runscript, commands), CleanStale, fs, ds, |ds|);
                var items := Items(fs.cwd, ds, p.runs);
                && o == (if p.error.Some? then Fail(p.error.value) else Pass)
                && fs' == p.fs
                && pending == old(pending) + items
                && states == QueueAll(old(states), items)
                && order == InsertAll(old(order), items)
                && unfinished == old(unfinished) + |items|
      ensures shutdown == old(shutdown)
    {
      fs' := fs;
      o := SetupQueue();
      if o.Fail? {
        return;
      }
      var ds := sim.SubmitInit(arg);
      o := CheckDirs(fs, ds);
      if o.Fail? {
        return;
      }
      var p, items := EnqueueLoop(Sim.LookupOf(sim.runscript, commands), CleanStale, fs, ds);
      QueueItems(items);
      o := if p.error.Some? then Fail(p.error.value) else Pass;
      fs' := p.fs;
    }
  }

}
