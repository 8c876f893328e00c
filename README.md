# jobqueues in Dafny

A model of the job-queue layer of the `jobqueues` Python package. That layer
takes simulation directories, writes a bash job script for each one, and hands
the script to a scheduler:

- a local pool of worker threads, one per GPU or per slot of CPUs;
- LSF, either the current backend or the legacy module;
- Sun Grid Engine;
- PBS;
- a Celery task.

It then counts the jobs still queued or running, reports what has finished,
and cancels jobs.

The model has one module per source file:

- `SimQueue` is the base class. It holds the status enumeration, the
  directory registry, the sentinel file that marks a finished run, the lookup
  of run scripts, `notcompleted` and the polling loop of `wait`.
- `LocalQueue` is the local GPU and CPU queue. It is a class whose fields are
  the state table (a map plus its insertion order), the FIFO and its count of
  unfinished tasks, the workers and the shutdown flag.
- `LsfQueue`, `SgeQueue` and `PbsQueue` are classes holding the settings and
  the state the backends update: the job name, the GPU options, the queue and
  the job identifiers.
- `LegacyLsf` is the older `lsf.py`, which keeps no state of its own. It is
  written as functions over a configuration value.
- `CeleryTasks` is the Celery task module: `add`, `run_simulation` and its
  job script.

Three modules serve the others:

- `Scheduler` holds what the three cluster backends share. The three backends
  contain the same code for these operations:
  - the layout of the job script;
  - the three-attempt status query;
  - the line count of a listing;
  - the sum over queues;
  - the automatic job name;
  - the submission loop.
- `Text` models Python's `split` and `join`, `str(int)` and `strip`.
- `Paths` models `os.path`, including `normpath` and `abspath`. It also
  holds the file system as a value: the working directory, the directories,
  the files and the executable bits, each keyed by its normalised absolute
  path, so that `s`, `s/`, `./s` and `s/../s` name one entry.

Job scripts are sequences of lines; the file written is those lines joined
by newlines. Effects are modelled as follows:

- Subprocess calls are function parameters. `Exec` maps a command to its
  output or to the `CalledProcessError` it raises. `Attempts` also takes the
  attempt number.
- The user name is a parameter, and so are the five random digits of an
  automatic job name.
- The process environment and the machine's memory, CPU count and detected
  GPUs are parameters too.

## Model

| member | source | states |
|---|---|---|
| SimQueue.FromValue | jobqueues/simqueue.py:16-25 | An integer names a status exactly when it is one of the seven values 0..6, and the status found has that value |
| SimQueue.ValueIdentifiesStatus | jobqueues/simqueue.py:16-25 | Reading a status's value back gives that status: the enumeration's values are distinct |
| SimQueue.DescribeInjective | jobqueues/simqueue.py:27-37 | `describe` gives a non-empty text that differs from status to status |
| SimQueue.InProgressExactly | jobqueues/simqueue.py:43 | The in-progress statuses are exactly RUNNING (0) and PENDING (5) |
| SimQueue.EnsureList | jobqueues/simqueue.py:110-115 | A single directory becomes a list of one; a list is kept as given |
| SimQueue.SimQueue.constructor | jobqueues/simqueue.py:79-98 | A new registry has no directories yet and keeps the run script and job script names given |
| SimQueue.SimQueue.SubmitInit | jobqueues/simqueue.py:110-115 | `_submitinit` returns the directories as a list and appends them to the registry, which starts empty when unset |
| SimQueue.SimQueue.NotCompleted | jobqueues/simqueue.py:176-192 | Without registered directories it raises RuntimeError; otherwise it returns the number of registered directories without a sentinel file, each looked up under its normalised absolute path |
| SimQueue.CountUnfinishedZeroIff | jobqueues/simqueue.py:176-192 | The count of unfinished directories is zero exactly when every registered directory holds its sentinel |
| SimQueue.CleanSentinel | jobqueues/simqueue.py:194-203 | Only the sentinel may change: the directories stay and no file appears. With no sentinel nothing happens. When removing it succeeds it is gone; when removal fails only a warning is logged and nothing changes. The sentinel is found under its normalised absolute path |
| SimQueue.MarkerSpellings | jobqueues/simqueue.py:176-203 | Below a working directory `/a`, the directories `./b` and `b` share the marker `/a/b/jobqueues.done`: `notcompleted` sees it for both and `_cleanSentinel` removes it for both |
| SimQueue.GetRunScript | jobqueues/simqueue.py:205-215 | It succeeds exactly when the absolute run script path exists and is executable, and returns that path. A missing file raises FileExistsError; a file that is not executable raises PermissionError |
| SimQueue.LookupOfFinds | jobqueues/localqueue.py:187-195 | Without commands, each directory runs its own run script; with commands, the i-th directory runs the i-th command, and IndexError is raised past the end |
| SimQueue.PlanReportsAsWritten | jobqueues/simqueue.py:147-154 | As written: no report time means no reports; a report time up to the sleep time reports every poll; a longer one raises ImportError |
| SimQueue.PlanReportsAsWrittenFails | jobqueues/simqueue.py:149 | With sleep time 5 and report time 10, `wait` as written fails with ImportError before it polls at all |
| SimQueue.RoundHalfEven | jobqueues/simqueue.py:149-150 | Python's `round` of a quotient: within half a unit of the exact quotient, with ties going to the even number |
| SimQueue.PlanReports | jobqueues/simqueue.py:147-154 | Corrected: a longer report time reports every `round(reporttime / sleeptime)` polls, which is within half a poll of the exact ratio; the only error left is division by a zero sleep time |
| SimQueue.FirstIdle | jobqueues/simqueue.py:156-171 | The index of the first poll that finds nothing left to do; every earlier poll found work |
| SimQueue.Counter | jobqueues/simqueue.py:156-167 | The report counter always stays between 1 and the report frequency |
| SimQueue.ReportedEveryPoll | jobqueues/simqueue.py:160-167 | With frequency 1, every poll's count is reported |
| SimQueue.CounterClimbs | jobqueues/simqueue.py:160-167 | After a report the counter climbs by one per poll until the next report |
| SimQueue.ReportedStep | jobqueues/simqueue.py:160-167 | The reports over the first k+1 polls are those over the first k, plus the k-th count when the counter is due |
| SimQueue.PollEvents | jobqueues/simqueue.py:157-174 | One poll's steps start with its count and hold a `retrieve`; they end with that `retrieve` exactly when the count is zero |
| SimQueue.WaitEventsOrder | jobqueues/simqueue.py:157-174 | In `wait`'s steps a report directly follows the count it reports, each `retrieve` directly follows its poll's count or report, each sleep directly follows a `retrieve`, and a zero count ends the steps with a `retrieve` |
| SimQueue.PollOnce | jobqueues/simqueue.py:158-171 | One poll once its count is known: the report counter moves on as `wait`'s `i` does, the count is reported exactly when the counter is due, and the poll's steps are those of `PollEvents` |
| SimQueue.Polls | jobqueues/simqueue.py:156-174 | The loop ends at the first zero count or when the counts run out, every earlier count being non-zero; the reports and the steps are those of the polls made |
| SimQueue.Wait | jobqueues/simqueue.py:122-174 | `wait` stops at the first idle poll. Its steps are exactly those of its polls in order: count, report when due, `retrieve`, then a sleep unless the count was zero. So every poll is followed by a retrieve, and there is no sleep after the last. It reports the counts as the corrected plan says, and the plan's error is the only failure |
| Text.JoinSplit | jobqueues/pbsqueue.py:169-172 | Splitting a text at a character and joining the pieces with that character gives the text back |
| Text.SplitJoin | jobqueues/pbsqueue.py:169-172 | Joining pieces that do not contain the separator, then splitting, gives the pieces back |
| Text.NatToStringRoundTrip | jobqueues/pbsqueue.py:163-166 | `str(n)` is a string of decimal digits whose value is n |
| Text.FirstToken | jobqueues/pbsqueue.py:201 | `split()[0]`: none exactly when the row is blank. Otherwise the first token: the non-empty run without white space that starts right after the leading white space and ends at the next white space or at the end of the row |
| Paths.FileSystem.OpenForWrite | jobqueues/lsfqueue.py:221 | `open(path, "w")` succeeds exactly when every directory on the way exists and the path is not a directory. Otherwise it raises FileNotFoundError for a missing directory, NotADirectoryError for a file on the way, or IsADirectoryError |
| Paths.OpenBelow | jobqueues/lsfqueue.py:221 | Below a working directory `/a`, `b/c` and its absolute spelling cannot be opened when `b` is missing, with FileNotFoundError. They can be opened when `/a` and `/a/b` are directories and `/a/b/c` is not |
| LocalQueue.CodeInjective | jobqueues/localqueue.py:142-146 | The three job states are told apart by their one-letter codes |
| LocalQueue.GpuDevices | jobqueues/localqueue.py:311-332 | Setting both `ngpu` and `devices` raises ValueError. `ngpu` picks devices 0..ngpu-1; otherwise the devices given are used, then those detected. With none of them RuntimeError is raised |
| LocalQueue.CpuDevices | jobqueues/localqueue.py:412-430 | ValueError exactly when one job needs more than `maxcpu` threads. Otherwise as many slots, without a device, as whole jobs fit in `maxcpu` |
| LocalQueue.Devices | jobqueues/localqueue.py:66-78 | The device list of a GPU queue or of a CPU queue, by configuration |
| LocalQueue.GpuMemory | jobqueues/localqueue.py:218-226 | The GPU queue's memory fails exactly when its device choice fails |
| LocalQueue.CpuMemory | jobqueues/localqueue.py:432-440 | The memory in MiB is the floor of the machine's memory times `ncpu / cpu_count`, the share capped at 1, so it never exceeds the machine's memory |
| LocalQueue.Memory | jobqueues/localqueue.py:66-78 | The memory picked fails only when the device choice fails |
| LocalQueue.MoveLine | jobqueues/localqueue.py:130-138 | The `mv` line is written exactly when a data directory is set and the output directory is not the job directory itself. It moves the listed files there |
| LocalQueue.Header | jobqueues/localqueue.py:114-125 | The script starts with the shell line; the trap is on the fourth line; a worker's device is exported on the sixth line |
| LocalQueue.JobScript | jobqueues/localqueue.py:114-140 | The header is followed at once by the change to the absolute job directory, then by the run command, then by the move line only when it applies |
| LocalQueue.HeaderExportIffDevice | jobqueues/localqueue.py:124-125 | A device export line is in the header exactly when the worker has a device |
| LocalQueue.RetrievalSplits | jobqueues/localqueue.py:148-162 | `retrieve` reports exactly the completed entries and keeps exactly the others; the kept keys stay distinct |
| LocalQueue.QueueAll | jobqueues/localqueue.py:187-195 | Queueing marks every item's path Queued, adds those paths as keys and leaves every other entry unchanged |
| LocalQueue.QueueAllValid | jobqueues/localqueue.py:187-195 | After queueing, the insertion order still lists each key of the table exactly once |
| LocalQueue.CountInProgress | jobqueues/localqueue.py:197-209 | The running entries plus the queued ones number exactly the entries in progress |
| LocalQueue.WithoutCompletedKeepsWork | jobqueues/localqueue.py:148-162 | Dropping the completed entries loses no work in progress and leaves no completed entry |
| LocalQueue.NothingCompleted | jobqueues/localqueue.py:148-162 | A table without completed entries reports nothing on retrieve |
| LocalQueue.FirstMissing | jobqueues/localqueue.py:182-184 | The first directory that is not a directory under its normalised absolute path, or none when all of them are |
| LocalQueue.FirstMissingAt | jobqueues/localqueue.py:182-184 | A directory missing after only existing ones is the one reported |
| LocalQueue.SpellingsFound | jobqueues/localqueue.py:182-184 | Below a working directory `/a`, `b/`, `./b` and `b` all pass the check exactly when `/a/b` is a directory |
| LocalQueue.Enqueue | jobqueues/localqueue.py:187-195 | The queueing loop finds one run command per directory until the first failure, and cleans each directory's sentinel as it goes |
| LocalQueue.EnqueueNext | jobqueues/localqueue.py:187-195 | One more directory either adds its run command and cleans its sentinel, or stops the loop with the lookup's error and changes nothing |
| LocalQueue.RunsAreScripts | jobqueues/localqueue.py:191 | With a lookup of run scripts, each queued command is the absolute run script of its own directory |
| LocalQueue.RunsAreCommands | jobqueues/localqueue.py:191 | With a list of commands, they are queued in order. The loop fails with IndexError exactly when there are more directories than commands, after using all of them |
| LocalQueue.EnqueueRunScripts | jobqueues/localqueue.py:187-195 | For `submit` without commands, each directory runs its own run script |
| LocalQueue.EnqueueWithCommands | jobqueues/localqueue.py:187-195 | For `submit` with commands, the k-th directory runs the k-th command; IndexError exactly when commands run out |
| LocalQueue.CleanStale | jobqueues/localqueue.py:192 | The sentinel removal `submit` makes per directory keeps the working directory and the directories, and afterwards the sentinel is gone or nothing changed |
| LocalQueue.EnqueueKeepsError | jobqueues/localqueue.py:187-195 | Once the loop has failed, one more directory leaves its progress exactly as it was |
| LocalQueue.EnqueueStopped | jobqueues/localqueue.py:187-195 | Once the loop has failed, later directories change nothing |
| LocalQueue.EnqueueLoop | jobqueues/localqueue.py:187-195 | The loop method computes the progress function and the work items, which pair each absolute directory with its run command |
| LocalQueue.ClearedEntries | jobqueues/localqueue.py:148-162 | Removing the completed entries among the keys visited keeps every other entry with its state |
| LocalQueue.Walk | jobqueues/localqueue.py:148-162 | The walk over the table in insertion order returns the completed paths in order, the table without them, and the order of the kept keys |
| LocalQueue.RetrieveDone | jobqueues/localqueue.py:148-162 | A walk over all keys removes exactly the completed entries, and the kept order lists exactly the remaining keys, once each |
| LocalQueue.LocalQueue.constructor | jobqueues/localqueue.py:36-64 | A new queue has an empty table, no FIFO, no workers, and the default run and job script names. A CPU queue's default memory is the machine's share for one CPU, because `ncpu` still has its default of 1 when `_getmemory` runs at `localqueue.py` lines 388-410; setting up the workers computes it again at line 71 |
| LocalQueue.LocalQueue.InProgress | jobqueues/localqueue.py:197-209 | `inprogress` counts exactly the entries that are running or queued |
| LocalQueue.LocalQueue.SetState | jobqueues/localqueue.py:142-146 | One entry is set; a new key goes at the end of the insertion order; nothing else changes |
| LocalQueue.LocalQueue.SetupQueue | jobqueues/localqueue.py:66-78 | Only the first call does work. The FIFO exists from then on. Device selection failing is the only failure, and then no worker is started and the memory is unchanged. On success there is one worker per device and the memory is picked |
| LocalQueue.LocalQueue.WorkerStep | jobqueues/localqueue.py:80-110 | Unless shut down or idle, a worker takes the oldest item and marks it Running, and the job script for its device is written to `job.sh` in the item's directory. If writing fails, the thread ends with that error, the item stays Running and is never acknowledged. Otherwise, whatever the run's outcome, the item is marked Completed and acknowledged once |
| LocalQueue.LocalQueue.Take | jobqueues/localqueue.py:85-94 | `get` returns the oldest item and marks it Running |
| LocalQueue.LocalQueue.Complete | jobqueues/localqueue.py:104-110 | Marks the path Completed and acknowledges one task |
| LocalQueue.LocalQueue.Retrieve | jobqueues/localqueue.py:148-162 | Returns the completed paths in insertion order and removes exactly them from the table |
| LocalQueue.LocalQueue.Stop | jobqueues/localqueue.py:211-212 | Sets the shutdown flag and changes nothing else |
| LocalQueue.LocalQueue.CheckDirs | jobqueues/localqueue.py:182-184 | NameError naming the first directory that `os.path.isdir` rejects under its normalised absolute path, or success when every one is a directory |
| LocalQueue.LocalQueue.QueueItems | jobqueues/localqueue.py:187-195 | Each item is marked Queued and put on the FIFO in order, with one unfinished task per item |
| LocalQueue.LocalQueue.Submit | jobqueues/localqueue.py:164-195 | A failing setup changes nothing else, the count of unfinished tasks included. The first successful call sets up the workers, one per device, and the memory; later calls keep them. Otherwise the directories are registered. A missing directory raises NameError before any is queued, and the count stays. Otherwise every directory up to the first lookup failure is queued with its run command, the count of unfinished tasks grows by one per item queued, and that failure is raised |
| Scheduler.ScriptLines | jobqueues/lsfqueue.py:217-282 | The layout of a cluster job script: the shell line, the directives in order, the trap, the preparation commands, the change to the directory, the run command, then the tail |
| Scheduler.LineCount | jobqueues/lsfqueue.py:365-370 | The pieces of the output split at newlines, less two, never below zero |
| Scheduler.ListingCount | jobqueues/lsfqueue.py:365-370 | A listing made of a header line and one line per job counts exactly those jobs |
| Scheduler.RetryOutcome | jobqueues/lsfqueue.py:351-361 | The query succeeds exactly when one of the three attempts does before a failure that is not retried. After three failures the third one's error propagates |
| Scheduler.QueryWithRetry | jobqueues/lsfqueue.py:351-361 | The loop makes between one and three calls, retries only a CalledProcessError, and returns the last call's result |
| Scheduler.TotalOutcome | jobqueues/lsfqueue.py:345-371 | The sum over queues succeeds exactly when every queue's query does; otherwise the first failing query's error propagates |
| Scheduler.TotalOne | jobqueues/lsfqueue.py:345-371 | With one queue, the total is that queue's line count |
| Scheduler.SumCounts | jobqueues/lsfqueue.py:345-371 | The loop over queues computes the total |
| Scheduler.TotalStopped | jobqueues/lsfqueue.py:345-371 | After a failing queue, later queues change nothing |
| Scheduler.PerQueue | jobqueues/lsfqueue.py:345-347 | One status or cancel command per queue, naming the job name, the user and that queue |
| Scheduler.RunAll | jobqueues/lsfqueue.py:381-387 | Cancelling succeeds exactly when every command does; otherwise it fails with the first command's error |
| Scheduler.RunInOrder | jobqueues/lsfqueue.py:381-387 | The commands are issued in order and stop at the first failure, which is the last one issued |
| Scheduler.AutoJobNameFormat | jobqueues/lsfqueue.py:288-293 | The automatic name is the directory's base name, an underscore and the five digits, without a slash |
| Scheduler.SubmittedJobs | jobqueues/lsfqueue.py:309-327 | The k-th job belongs to the k-th directory, and each output is what the submission command printed for it |
| Scheduler.SubmittedStopped | jobqueues/lsfqueue.py:309-327 | Once a submission fails, later directories change nothing |
| Scheduler.JobsOpened | jobqueues/lsfqueue.py:221 | Cleaning markers keeps the directories, so every job recorded had a job script that could be opened on the file system the submission started from, and the file system keeps its directories |
| Scheduler.OpenStops | jobqueues/lsfqueue.py:221 | When the job script of the next directory cannot be opened, the submission stops there with that error: no job script is recorded and no submit command runs for it or for any later directory |
| Scheduler.MissingDirectoryStops | jobqueues/lsfqueue.py:221 | Below a working directory `/a`, a first directory `b` that does not exist raises FileNotFoundError from opening `b/<job script>`, and nothing is submitted |
| Scheduler.MissingDirectoryStopsCommands | jobqueues/lsfqueue.py:309-319 | The same, for steps that clean the sentinel and take given commands in order |
| Scheduler.SubmitLoop | jobqueues/lsfqueue.py:309-327 | The loop over directories computes the submission function |
| Scheduler.JobsRunCommands | jobqueues/lsfqueue.py:315 | With commands, the k-th job runs the k-th command; completing the loop needs as many commands as directories |
| Scheduler.JobsRunFound | jobqueues/lsfqueue.py:315 | Each job runs what the lookup finds for its directory |
| Scheduler.JobsRunScripts | jobqueues/lsfqueue.py:315 | Without commands, each job runs its own directory's absolute run script |
| Scheduler.JobsScripted | jobqueues/lsfqueue.py:318-319 | Every job's script is a script the writer produced, so whatever holds of every script holds of the jobs |
| LsfQueue.GpuOptionsAfter | jobqueues/lsfqueue.py:241-242 | The GPU options change only on LSF 10 with GPUs, and only from unset or empty to the default |
| LsfQueue.GpuOptionsSettle | jobqueues/lsfqueue.py:241-242 | The default applies once: writing a second script leaves the options as the first left them |
| LsfQueue.GpuDirectives | jobqueues/lsfqueue.py:229-249 | AttributeError exactly for GPUs on a version other than 9 or 10. Otherwise no GPU directive without GPUs; with GPUs, one `-R` on LSF 9 and one `-gpu` on LSF 10 |
| LsfQueue.GpuDefaultRequest | jobqueues/lsfqueue.py:241-249 | LSF 10 with GPUs and no options requests the default options |
| LsfQueue.HeaderStart | jobqueues/lsfqueue.py:222-226 | The directives start with the job name, the queues joined by spaces and the CPU count, and there are at least eight |
| LsfQueue.ScriptShape | jobqueues/lsfqueue.py:217-282 | Fails exactly on GPUs with an unsupported version. Otherwise: shell line, job name, queues, CPU count, then the trap after the directives, the preparation commands, the change to the directory and the run command, and the move line last only with a data directory |
| LsfQueue.ScriptLayout | jobqueues/lsfqueue.py:217-282 | A script that was written: shell line, job name, queues, CPU count, then the trap after the directives, the preparation commands in order, the change to the directory and the run command, and the move line last only with a data directory |
| LsfQueue.FlagCount | jobqueues/lsfqueue.py:227-261 | How often an optional flag occurs: once per setting present, once per resource for `-R`, plus the GPU request |
| LsfQueue.SettingFlags | jobqueues/lsfqueue.py:227-261 | `-app`, `--env` and `-W` occur once each exactly when their setting is present |
| LsfQueue.GpuFlags | jobqueues/lsfqueue.py:229-252 | `-R` occurs once per resource plus once on LSF 9 with GPUs; `-gpu` occurs once exactly on LSF 10 with GPUs |
| LsfQueue.ScriptAfterDefault | jobqueues/lsfqueue.py:241-242 | Writing a script after the default was applied gives the same script |
| LsfQueue.ScriptNamed | jobqueues/lsfqueue.py:222 | The job name is the third line of every script written |
| LsfQueue.JobsShareName | jobqueues/lsfqueue.py:312-313 | All jobs of one submission carry the same name |
| LsfQueue.JobsRunOwnCommand | jobqueues/lsfqueue.py:315 | Each job runs its directory's run script, or the command given for it |
| LsfQueue.CancelCommands | jobqueues/lsfqueue.py:373-392 | One `bkill` per queue, or a single one without a queue, each naming the job name and the user |
| LsfQueue.LsfQueue.constructor | jobqueues/lsfqueue.py:87-206 | A new queue has its own registry, with no directories registered yet and the run and job script names given. It keeps its settings, job name, GPU options and binaries |
| LsfQueue.LsfQueue.WriteJobScript | jobqueues/lsfqueue.py:217-282 | Without a queue the join raises TypeError. Otherwise the script is written, with an unset name shown as `None`, and the GPU default is applied to the options |
| LsfQueue.LsfQueue.Submit | jobqueues/lsfqueue.py:295-327 | The directories are registered and a missing queue raises ValueError. The jobs are named after the first directory unless a name was set, and each directory is submitted until the first error, which may come from the run-script lookup, from opening the job script or from `bsub`. The GPU options change as `GpuOptionsAfter` says only when the run command of the first directory is found and its job script opens for writing; otherwise they stay as they were |
| LsfQueue.MissingDirectoryNotSubmitted | jobqueues/lsfqueue.py:217-221 | With commands given, a first directory missing below the working directory is not submitted: opening its job script raises FileNotFoundError before `bsub` runs |
| LsfQueue.LsfQueue.Settle | jobqueues/lsfqueue.py:312-313 | The name used is kept, and the GPU options change only when the first job script was opened |
| LsfQueue.LsfQueue.SubmitDirs | jobqueues/lsfqueue.py:309-327 | The loop submits every directory under one job name |
| LsfQueue.LsfQueue.InProgress | jobqueues/lsfqueue.py:329-371 | ValueError without a queue or a job name. Otherwise the retried listings of each queue, counted and summed |
| LsfQueue.LsfQueue.Stop | jobqueues/lsfqueue.py:373-392 | ValueError without a job name. Otherwise the cancel commands are run in order and the first failure propagates |
| SgeQueue.HeaderStart | jobqueues/sgequeue.py:224-237 | The directives start with `PM` and the name, the queues joined by commas and the thread count. There are eight, plus one each for the environment and the wall time |
| SgeQueue.ScriptShape | jobqueues/sgequeue.py:221-262 | The script's lines, with the trap after the directives, then the preparation commands, the change to the directory and the run command, and the move line last only with a data directory |
| SgeQueue.ScriptNamed | jobqueues/sgequeue.py:225 | The job name is the third line of every script |
| SgeQueue.ResourceFlags | jobqueues/sgequeue.py:224-237 | `-l` is written for the GPUs and the memory always and for the wall time when set; `-v` exactly when the environment is set |
| SgeQueue.JobsShareName | jobqueues/sgequeue.py:291-292 | All jobs of one submission carry the same name |
| SgeQueue.JobsRunOwnScript | jobqueues/sgequeue.py:294-297 | Each job runs its own directory's run script from that directory's `job.sh` |
| SgeQueue.SgeQueue.constructor | jobqueues/sgequeue.py:50-199 | A new queue has its own registry, with no directories registered yet and the run and job script names given. It keeps its settings, job name and binaries |
| SgeQueue.SgeQueue.Submit | jobqueues/sgequeue.py:275-307 | The directories are registered and a missing queue raises ValueError. The jobs are named after the first directory unless a name was set, and each directory is submitted until the first error, which may come from opening the job script |
| SgeQueue.SgeQueue.SubmitDirs | jobqueues/sgequeue.py:288-307 | The loop submits every directory under one job name |
| SgeQueue.SgeQueue.SetName | jobqueues/sgequeue.py:291-292 | The job name used is kept |
| SgeQueue.SgeQueue.InProgress | jobqueues/sgequeue.py:309-351 | ValueError without a queue or a job name. Otherwise the retried listings of each queue, counted and summed |
| SgeQueue.SgeQueue.Stop | jobqueues/sgequeue.py:353-367 | ValueError without a queue or a job name. Otherwise one cancel per queue, in order, and the first failure propagates |
| PbsQueue.QueueDefaultOnce | jobqueues/pbsqueue.py:146-147 | A GPU job without a queue goes to `gpgpu`. The default applies once, and afterwards a queue is named exactly when one was or GPUs are wanted |
| PbsQueue.HmsSplit | jobqueues/pbsqueue.py:163-165 | The hours, minutes and seconds give the wall time back, with minutes and seconds below sixty |
| PbsQueue.HmsUnique | jobqueues/pbsqueue.py:163-165 | That split is the only one with minutes and seconds below sixty |
| PbsQueue.WalltimeReadBack | jobqueues/pbsqueue.py:163-166 | The wall time text is three colon-separated numbers whose value is the wall time in seconds |
| PbsQueue.WalltimeFields | jobqueues/pbsqueue.py:166 | Splitting the wall time text at the colons gives the three numbers |
| PbsQueue.Exported | jobqueues/pbsqueue.py:167-172 | At most as many names are exported as were listed |
| PbsQueue.ExportedMembers | jobqueues/pbsqueue.py:167-172 | A name is exported exactly when it is listed and set to a non-empty value in the environment |
| PbsQueue.ExportedAppend | jobqueues/pbsqueue.py:167-172 | Exporting keeps the order of the list |
| PbsQueue.ExportedAll | jobqueues/pbsqueue.py:167-172 | When every listed name is inherited, all of them are exported |
| PbsQueue.ExportList | jobqueues/pbsqueue.py:167-172 | The loop builds exactly the exported list |
| PbsQueue.SelectFields | jobqueues/pbsqueue.py:153-160 | The `select` statement has four fields, plus one each for local scratch and the cluster |
| PbsQueue.SelectReadBack | jobqueues/pbsqueue.py:153-160 | Splitting the `select` statement at its colons gives back its fields, and it fits on one line |
| PbsQueue.BodyLayout | jobqueues/pbsqueue.py:148-187 | The script's lines: the shell line and the directives, then the trap between blank lines, the change to the directory, the run command and then the tail |
| PbsQueue.HeaderShape | jobqueues/pbsqueue.py:151-172 | The name only when set and non-empty, then `select`, the queue only when named, the wall time, and the environment only when set |
| PbsQueue.FlagCount | jobqueues/pbsqueue.py:151-172 | How often each flag occurs among the directives, part by part |
| PbsQueue.HeaderFlags | jobqueues/pbsqueue.py:151-172 | `-N`, `-q` and `-v` once each exactly when present; `select` and the wall time exactly once |
| PbsQueue.ScriptShape | jobqueues/pbsqueue.py:144-189 | The shell line first, the name on the third line when set, then `select`, and the wall time after the queue line as the default left it |
| PbsQueue.ScriptAfterDefault | jobqueues/pbsqueue.py:146-147 | Writing a script after the queue default was applied gives the same script |
| PbsQueue.RowQueues | jobqueues/pbsqueue.py:201 | Each row's first token without its asterisks. A blank row raises IndexError |
| PbsQueue.ListingRows | jobqueues/pbsqueue.py:202 | The listing's lines without the first and the last piece |
| PbsQueue.QueueNames | jobqueues/pbsqueue.py:195-206 | The distinct queue names of the rows, each listed once, exactly those named; IndexError on a blank row |
| PbsQueue.Launch | jobqueues/pbsqueue.py:196 | `check_output` without a shell, the first argument taken as a path: no command raises IndexError. Nothing at that path raises FileNotFoundError, or NotADirectoryError when a file stands on the way. A directory or a file without the execute bit raises PermissionError. Otherwise the command runs |
| PbsQueue.QinfoAsWritten | jobqueues/pbsqueue.py:125 | As written: one argument, the `qstat` path with ` -a` appended |
| PbsQueue.QstatusAsWritten | jobqueues/pbsqueue.py:127 | As written: one argument, the `qstat` path with ` -Q` appended |
| PbsQueue.Qinfo | jobqueues/pbsqueue.py:125 | Corrected: `qstat` and `-a` as two arguments |
| PbsQueue.Qstatus | jobqueues/pbsqueue.py:127 | Corrected: `qstat` and `-Q` as two arguments |
| PbsQueue.QstatAsWrittenNotFound | jobqueues/pbsqueue.py:125-127 | With `qstat` the only file, at `/a/b/qstat`, both commands as written raise FileNotFoundError, while the corrected ones run `qstat` |
| PbsQueue.ResolvedQueue | jobqueues/pbsqueue.py:225-226 | The queue resolved is always set |
| PbsQueue.QueueFound | jobqueues/pbsqueue.py:195-206 | A queue that is set is kept. Otherwise the listing's failure propagates, or the distinct queue names are joined with commas |
| PbsQueue.JobId | jobqueues/pbsqueue.py:243 | The job identifier is the output's first line, without a newline |
| PbsQueue.JobIds | jobqueues/pbsqueue.py:241-244 | One identifier per submission, in order |
| PbsQueue.JobsRunOwnCommand | jobqueues/pbsqueue.py:235 | Each job runs its directory's run script, or the command given for it |
| PbsQueue.JobsShareName | jobqueues/pbsqueue.py:232-233 | All jobs of one submission carry the same name on their third line |
| PbsQueue.ScriptNamed | jobqueues/pbsqueue.py:151-152 | A script for a non-empty name carries it on its third line |
| PbsQueue.CancelCommands | jobqueues/pbsqueue.py:301-304 | One cancel command per job identifier kept, in submission order |
| PbsQueue.StopAsWritten | jobqueues/pbsqueue.py:299 | As written, `stop` always raises AttributeError |
| PbsQueue.StopAsWrittenCancelsNothing | jobqueues/pbsqueue.py:296-305 | With one job kept and a cancel command that succeeds, `stop` as written fails where cancelling the kept jobs succeeds |
| PbsQueue.PbsQueue.constructor | jobqueues/pbsqueue.py:60-133 | A new queue has its own registry, which starts as an empty list (line 132), and the run and job script names given. It keeps its settings, queue, name and binaries, with no job identifiers; the listing and status commands are the corrected `qstat -a` and `qstat -Q` |
| PbsQueue.PbsQueue.WriteJobScript | jobqueues/pbsqueue.py:144-189 | The script for the queue as it was, and the GPU queue default is applied |
| PbsQueue.PbsQueue.Submit | jobqueues/pbsqueue.py:215-253 | The directories are registered, then the state is what the submission function gives: the batch, the queue, the job name and the identifiers |
| PbsQueue.PbsQueue.SubmitAll | jobqueues/pbsqueue.py:225-253 | A failing queue lookup changes nothing. Without directories only the queue is set. Otherwise the jobs are named, submitted until the first error and their identifiers kept; the error may come from the run-script lookup, from opening the job script or from `qsub`. The GPU queue default is applied once the first run command is found, even when its script cannot be opened |
| PbsQueue.MissingDirectoryNotSubmitted | jobqueues/pbsqueue.py:144-148 | With commands given, a first directory missing below the working directory is not submitted: opening its job script raises FileNotFoundError before `qsub` runs and no identifier is kept, while the queue already has the GPU default applied |
| PbsQueue.PbsQueue.SubmitDirs | jobqueues/pbsqueue.py:229-253 | The loop submits every directory under one job name on the resolved queue |
| PbsQueue.PbsQueue.Settle | jobqueues/pbsqueue.py:225-244 | The queue as the first script left it, the name used, and the new identifiers appended to those kept |
| PbsQueue.PbsQueue.InProgress | jobqueues/pbsqueue.py:255-294 | The queue is resolved first and kept. ValueError without a job name. Otherwise the retried listing is counted, or its error propagates |
| PbsQueue.PbsQueue.Stop | jobqueues/pbsqueue.py:296-305 | Corrected: one cancel per job identifier kept, in order, and the first failure propagates |
| LegacyLsf.Shown | lsf.py:86-88 | A setting is written as its value, or as `None` when it is unset |
| LegacyLsf.Directives | lsf.py:86-94 | Seven directives, plus one for the time limit when set |
| LegacyLsf.EnvBlock | lsf.py:95-98 | The environment calls follow a blank line, only when given |
| LegacyLsf.MoveTail | lsf.py:103-111 | One move line exactly when a data directory is set |
| LegacyLsf.BodyLayout | lsf.py:81-112 | The lines in order: the shell line, the directives, the environment calls, a blank line, the change to the directory, the run command and the tail |
| LegacyLsf.ScriptShape | lsf.py:81-112 | Every line of the script, with the move line last only with a data directory |
| LegacyLsf.BodyLacks | lsf.py:81-112 | A line that starts with neither `#` nor `c` and is not the run command, an environment line or the tail is no line of the script |
| LegacyLsf.NoTrap | lsf.py:81-112 | Unlike the other backends, the legacy script writes no sentinel trap |
| LegacyLsf.MakeDir | lsf.py:103-111 | `os.mkdir` succeeds exactly when nothing exists at the path and every directory leading to it exists. Otherwise FileExistsError, NotADirectoryError when a file stands on the way, or FileNotFoundError when a parent is missing |
| LegacyLsf.OutDirsMade | lsf.py:103-111 | Without a data directory nothing is made. With one, both directories exist afterwards and only directories are added. A file in place of the data directory raises FileExistsError, and so does an existing job directory below an existing data directory. A missing parent raises FileNotFoundError or NotADirectoryError. No other error is raised |
| LegacyLsf.MadeDir | lsf.py:103-111 | A directory made exists afterwards, all others remain, and nothing else changes. FileExistsError exactly when the path exists, NotADirectoryError exactly when the first missing directory on the way is a file, FileNotFoundError exactly when it is absent |
| LegacyLsf.Failure | lsf.py:134-138 | A check fails exactly when the run script lookup does, with its error |
| LegacyLsf.Queued | lsf.py:118-146 | The loop submits one job per directory until the first error, which may come from the run-script checks, from opening the job script, from `mkdir` or from `bsub` |
| LegacyLsf.QueuedKeeps | lsf.py:118-146 | Submitting keeps the working directory and the executable bits |
| LegacyLsf.QueuedJobs | lsf.py:118-146 | The k-th job runs the k-th directory's run script from the script written for it |
| LegacyLsf.QueuedRunsExecutable | lsf.py:134-138 | Every job's run script is executable |
| LegacyLsf.QueuedRunExecutable | lsf.py:134-138 | The k-th job's run script is executable |
| LegacyLsf.QueuedOutputs | lsf.py:143 | Each output is what the submission printed for the job at the same position |
| LegacyLsf.QueuedStopped | lsf.py:118-146 | Once an error has ended the loop, later directories change nothing |
| LegacyLsf.CheckStops | lsf.py:134-138 | A failing check ends `submit` with its error, and no script is written for that directory or any later one |
| LegacyLsf.OpenStops | lsf.py:83 | A job script that cannot be opened ends `submit` with that error: no directory is made and no job is written for that directory or any later one |
| LegacyLsf.JobScriptRefused | lsf.py:83 | When `run.sh` passes its checks but `job.sh` cannot be opened for writing, `submit` raises FileNotFoundError, NotADirectoryError or IsADirectoryError, before any directory is made and before `bsub` runs |
| LegacyLsf.PlanFacts | lsf.py:118-146 | This backend's steps keep the working directory and let through only executable run scripts |
| LegacyLsf.SubmittedJobs | lsf.py:118-146 | For `submit`: the k-th job runs the k-th directory's executable `run.sh` from the `job.sh` beside it, holding that directory's script. Each output is what `bsub` printed for it |
| LegacyLsf.RunScriptChecked | lsf.py:134-138 | A missing `run.sh` raises FileExistsError and one that is not executable raises PermissionError, both before the job script is written |
| LegacyLsf.Submit | lsf.py:118-146 | The loop computes the submission function over the directories as a list |
| LegacyLsf.InProgress | lsf.py:148-169 | ValueError without a queue and TypeError without a name. Otherwise `bjobs` is run once and its lines are counted, or its error propagates |
| LegacyLsf.InProgressCountsRows | lsf.py:148-169 | A listing of a header and one line per job counts those jobs |
| LegacyLsf.Stop | lsf.py:171-180 | ValueError without a queue and TypeError without a name. Otherwise one `bkill`, whose failure propagates |
| CeleryTasks.Add | jobqueues/celeryfiles/tasks.py:4-6 | The sum less either operand is the other |
| CeleryTasks.DeviceLines | jobqueues/celeryfiles/tasks.py:42-43 | The device export line only when a device is given |
| CeleryTasks.MoveTail | jobqueues/celeryfiles/tasks.py:55-63 | The move line exactly when a data directory is given and the output directory is not the folder itself |
| CeleryTasks.LinesLayout | jobqueues/celeryfiles/tasks.py:28-65 | Where each line lies: the trap twice, the device export between them, then the change to the absolute folder and the run command |
| CeleryTasks.OnlyTwice | jobqueues/celeryfiles/tasks.py:36-49 | In that layout a line other than the others occurs exactly at its two places |
| CeleryTasks.TrapTwice | jobqueues/celeryfiles/tasks.py:36-49 | The trap line is written exactly twice, at its two places, unless the run command is that trap |
| CeleryTasks.MakeDirsFacts | jobqueues/celeryfiles/tasks.py:55-60 | `os.makedirs(exist_ok=True)` succeeds exactly when the path is a directory already, or nothing is there and no file stands on the way. FileExistsError exactly for a file at the path, NotADirectoryError for a file on the way. On success the directory and every directory leading to it exist, no file becomes a directory, nothing else changes, and a second call does nothing |
| CeleryTasks.CreateOutcome | jobqueues/celeryfiles/tasks.py:28-65 | A script that cannot be opened gets no line, changes nothing and raises FileNotFoundError, NotADirectoryError or IsADirectoryError. Otherwise the file exists afterwards. Without a data directory the lines are written and the file is made executable. With one, the move line is added only when both directories were made, which then exist; otherwise the error is FileExistsError or NotADirectoryError and the file is not made executable |
| CeleryTasks.CreateAgain | jobqueues/celeryfiles/tasks.py:28-65 | Writing the script again on the file system left gives the same lines and changes nothing |
| CeleryTasks.RunSimulation | jobqueues/celeryfiles/tasks.py:9-23 | The script is `folder/job.sh` running `folder/run.sh`. A failure to write it propagates; otherwise the result is running it |
| CeleryTasks.SimulationRuns | jobqueues/celeryfiles/tasks.py:9-23 | When `folder/job.sh` cannot be opened, the task fails with that error, nothing is written and nothing runs. Otherwise the script runs `folder/run.sh` right after changing to the absolute folder. The task succeeds exactly when the script could be opened and written and running it succeeded |
| CeleryTasks.MissingFolderFails | jobqueues/celeryfiles/tasks.py:14-33 | A folder missing below the working directory fails the task with FileNotFoundError from opening `job.sh`: nothing is written, no directory is made and nothing runs |

## Left out

### Concurrency and time

- Worker threads are not modelled as threads. Each iteration of `run_job`'s
  loop is one call of `WorkerStep`. Daemon threads and interleaving are not
  modelled.
- The timeout of `queue.get`, `time.sleep` and `sys.stdout.flush` are not
  modelled. `SimQueue.Wait` records how many sleeps there are and how long
  each is.
- `wait` reports through a callback or the logger. The model collects the
  reported counts as a sequence instead.
- SimQueue.Wait: the counts of the polls are given in advance, so an
  exception raised inside the loop by `inprogress`, `notcompleted` or
  `retrieve`, which would propagate out of `wait`, is not represented.
- LocalQueue.LocalQueue.WorkerStep: when writing `job.sh` fails, the model
  returns the error that ends the thread. That the thread then takes no
  further items is left to the caller.

### Effects not recorded

- No logging is modelled. Log calls have no effect on the outcome.
- `os.chmod(0o700)` is modelled only in CeleryTasks, where the script
  becomes executable. The cluster backends do not model it.
- LsfQueue, SgeQueue, PbsQueue, LegacyLsf: opening the job script for writing is
  modelled, so its failure stops the submission. The file written is
  returned as lines and is not recorded in the file system value.
- Permissions are not modelled when a job script is opened, so `open` never
  raises PermissionError.

### Machine and configuration inputs

- Binaries found with `shutil.which` / `_find_binary` are constructor
  parameters.
- The following are not part of this model:
  - YAML configuration loading;
  - `ProtocolInterface` validation and `_cmdDeprecated`;
  - the property getters and setters, including the recursive ones;
  - the `ncpu`, `ngpu` and `memory` properties that raise
    NotImplementedError;
  - SGE `_checkQueue`.
- `psutil` is replaced by the `Machine` parameter.
- The GPU detection helpers `_getGPUdevices` and `_filterVisibleGPUdevices`
  are not part of this model. The detected devices are a parameter, and the
  visibility filter is not applied.

### Numbers and text

- Floats are not modelled:
  - wait and report times are whole seconds;
  - the PBS wall time is whole seconds, so its divisions are exact;
  - the CPU memory share is computed exactly and rounded down.
- A failure of the ascii decode of command output is not modelled.
- PBS `_autoQueueName` lists the names of a Python `set`, whose iteration
  order is unspecified. The model lists each name where it first occurs.
- The legacy `bsub` command is one shell string.
- Paths are looked up as `os.path.abspath` gives them: joined to the working
  directory and normalised as text. Symbolic links are not modelled, so a
  `..` after a link is resolved textually.

### Directory creation

- SgeQueue: the `os.mkdir` of the data and output directories is not
  modelled, so the FileExistsError on a second submission of the same
  directory is not shown.
- LsfQueue, PbsQueue and LocalQueue: `os.makedirs(exist_ok=True)` is not
  modelled.
- CeleryTasks.MakeDirs: permissions are not modelled, so `os.makedirs`
  never fails with PermissionError.
- LegacyLsf: when `mkdir` fails, the partly written `job.sh` is not
  modelled.
- LegacyLsf.SubmitStep: when the job directory cannot be made after the
  data directory was, the error is kept but the file system is the one from
  before the step, without the new data directory.

### Operations with no behaviour here

- `retrieve` of LsfQueue, SgeQueue and PbsQueue does nothing in the source
  and is not modelled.
- The exception classes `RetrieveError`, `SubmitError`, `InProgressError` and
  `ProjectNotExistError` are never raised and are not modelled.
- The abstract methods of `SimQueue` are implemented per backend. Each
  backend holds a `SimQueue` instead of inheriting from it.
- The Celery app decorator and broker are not modelled.

### Modelling choices

- PbsQueue.Launch: the first argument is always taken as a path. A bare
  program name, which `check_output` would look up on `PATH`, is not
  modelled. The `qstat` commands start with the absolute path that
  `shutil.which` returns.
- CeleryTasks.CreateOutcome: the lines, the directories and the move line
  are promised only once `job.sh` could be opened. When it cannot be opened,
  the source writes nothing either.

- LegacyLsf.InProgress: an unset job name is shown as `None` in the script,
  but in the `bjobs` and `bkill` commands it raises TypeError; the model
  raises TypeError there.
- CeleryTasks.RunSimulation: `deviceid` is an optional string, formatted
  into the export line as given.

## Findings

| source | as written | input that shows it | evidently intended | confidence | as-written member | corrected member |
|---|---|---|---|---|---|---|
| jobqueues/simqueue.py:149 | `from math import round` fails: `math` has no `round`, so `wait` raises ImportError whenever the report time exceeds the sleep time | `wait(sleeptime=5, reporttime=10)` | the built-in `round(reporttime / sleeptime)` as the report frequency | not executed | SimQueue.PlanReportsAsWritten, SimQueue.PlanReportsAsWrittenFails | SimQueue.PlanReports |
| jobqueues/pbsqueue.py:125-127 | `_qinfo` and `_qstatus` are the `qstat` path with ` -a` or ` -Q` appended to the same string, and `check_output` runs them without a shell (lines 196 and 278), so the program looked for is a path holding a space and FileNotFoundError is raised: `_autoQueueName` and `inprogress` never reach `qstat` | `qstat` found at `/usr/bin/qstat`, no queue set, `inprogress()` | `[qstat, "-a"]` and `[qstat, "-Q", …]`, the flag as an argument of its own | not executed | PbsQueue.QinfoAsWritten, PbsQueue.QstatusAsWritten, PbsQueue.QstatAsWrittenNotFound | PbsQueue.Qinfo, PbsQueue.Qstatus |
| jobqueues/pbsqueue.py:299 | `stop` reads `self.partition`, which the PBS queue never defines, so it raises AttributeError and cancels nothing | one kept job id `"1"` and a `qdel` that succeeds | cancel every job identifier kept | not executed | PbsQueue.StopAsWritten, PbsQueue.StopAsWrittenCancelsNothing | PbsQueue.PbsQueue.Stop |
