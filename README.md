# xespresso, modelled in Dafny

xespresso drives Quantum ESPRESSO calculations from Python. It turns a
command template such as `PARALLEL PACKAGE.x -in PREFIX.pwi` into the
command that runs a job, writes job scripts for Slurm, PBS and plain bash,
manages SSH sessions and remote job submission, keeps track of submitted
jobs, translates machine configuration files into scheduler queues,
detects the Quantum ESPRESSO executables of a machine, and formats Hubbard
parameters for the input file. This project is a Dafny model of that core,
with the properties the code promises proved about it.

The model follows the program's own structure, one module per file:

- `pystr.dfy`, `pydict.dfy`, `json.dfy`, `pyerr.dfy`, `str_order.dfy`:
  Python's string operations (`in`, `replace`, `split`, `join`, `strip`,
  `lower`, `os.path.join`), insertion-ordered dictionaries, JSON-like values
  with Python truthiness and `str()`, raised exceptions as values, and the
  ordering of `str` values.
- `filesys.dfy`, `config_store.dfy`: a file store (path to text) standing
  for the file system, and the configuration files the machine loaders read.
- `placeholders.dfy`: the PACKAGE / PREFIX / PARALLEL substitution, with a
  reference description of each rule by splitting and joining.
- `jobtext.dfy`: text written line by line, and the `#SBATCH`/`#PBS`
  directive lines a queue yields.
- `espresso.dfy`, `param_diff.dfy`, `convergence.dfy`, `post_input.dfy`: the
  calculator of `xespresso.py`: its label, paths and `set_queue`, the
  parameter comparison, the convergence readers and the post-processing
  input writer.
- `schedbase.dfy`, `bash.dfy`, `factory.dfy`, `generators.dfy`: the
  scheduler record with its environment and post blocks, the bash script
  writer, the factory, and the module-level Slurm, PBS and plain-bash
  generators.
- `sq_scheduler.dfy`, `sq_old.dfy`, `sq_new.dfy`, `sq_not.dfy`: the four
  `set_queue` front ends.
- `slurm.dfy`, `slurm_utils.dfy`, `local.dfy`, `slurm_wait.dfy`: the Slurm
  scheduler, the job id read from `sbatch`, the local scheduler, and the
  Slurm completion poller of the scheduler tests.
- `remote_fs.dfy`, `ssh_schedulers.dfy`, `auth.dfy`, `mixin_run.dfy`,
  `plain_mixin.dfy`, `pooled_mixin.dfy`: the SSH schedulers, the remote
  directory tree they create, the SSH session of `utils/auth.py`, and the
  two remote-execution mixins.
- `ssh_steps.dfy`, `job_dirs.dfy`, `remote_jobs.dfy`, `gemini_jobs.dfy`,
  `old_jobs.dfy`, `oldest_jobs.dfy`: the remote job manager and its three
  earlier copies, with the requests they send to the cluster.
- `job_manager.dfy`: the job manager with its history and active jobs.
- `runner.dfy`: the remote runner with its persistent connection.
- `machine.dfy`, `loader.dfy`, `queue_loaders.dfy`, `migrate.dfy`: the
  machine description, the machine loader, the dictionary-style loaders
  and the migration of `machines.json` into one file per machine.
- `codes_config.dfy`, `codes_manager.dfy`: the configuration of the
  executables of a machine and their detection.
- `hubbard.dfy`: the Hubbard parameters in the old and the new format.
- `consistency.dfy`: the machine-configuration consistency tool.

Python objects whose fields change become Dafny classes (`Calc`,
`FileStore`, `RemoteJobManager`, `RemoteRunner`, `Manager`, `HubbardConfig`,
`CodesConfig` and others). State-changing functions become methods. Their
postconditions tie the new state to a specification function, and their
loops carry the invariants that connect them. The network, subprocesses,
prompts and the clock are parameters. A remote host is a sequence of
answers to the requests it receives, and the file system is a map from
path to text.

## Model

| member | source | states |
|---|---|---|
| Placeholders.PackageWithoutPw | xespresso/scheduler.py:20-25 | without "pw" in the package name, every PACKAGE is replaced by the package name (the command split on PACKAGE, joined with the package) |
| Placeholders.PackageWithPw | xespresso/scheduler.py:20-23 | with "pw" in the package name, the first PACKAGE becomes the package, the next two become "pw" and the remaining ones stay, when the package holds no PACKAGE itself |
| Placeholders.PrefixAndParallel | xespresso/scheduler.py:26-29 | every PREFIX is replaced by the prefix and every PARALLEL by the launcher |
| Placeholders.PrefixBeforeParallel | xespresso/scheduler.py:26-29 | PREFIX is replaced before PARALLEL, so a prefix spelling PARALLEL is itself replaced |
| Placeholders.NoTokensUnchanged | xespresso/scheduler.py:20-29 | a command without any token is left as it is |
| Placeholders.SubstituteCommand | xespresso/scheduler.py:20-29 | the successive `replace` steps compute the shared resolution |
| SchedulerQueue.SetQueue | xespresso/scheduler.py:13-41 | `calc.queue` becomes the argument when truthy, else stays; package, launcher and command fall back to the calculator's values and ASE_ESPRESSO_COMMAND; the command and the file store change as the dispatch effect says and nothing else changes |
| SchedulerQueue.DispatchCases | xespresso/scheduler.py:34-39 | an empty queue or one without "scheduler" sets the resolved command and writes nothing; a kind other than bash raises before anything is written; a raise never sets the command |
| SchedulerQueue.BashDispatch | xespresso/scheduler.py:39-41 | a bash queue writes the script to `<directory>/.job_file` once the scheduler is built, and on success the command becomes "bash .job_file" |
| SchedulerQueue.Dispatch | xespresso/scheduler.py:34-41 | the method sets the command and writes the file exactly as the dispatch effect says and changes no other field |
| SchedulerQueue.ResolveArguments | xespresso/scheduler.py:15-29 | the `or` defaults and the substitution steps yield the resolution of the defaulted arguments |
| SchedulerQueue.GetSchedulerInstance | xespresso/schedulers/factory.py:27-34 | the factory lookup then the constructor: a bash scheduler, a TypeError for the keyword-only Slurm constructor, or the factory's error |
| OldSchedulerQueue.ResolveAllAgrees | xespresso/old/scheduler.py:41-46 | the unconditional PACKAGE replacement agrees with the pw rule whenever the package has no "pw" |
| OldSchedulerQueue.ResolveArguments | xespresso/old/scheduler.py:34-46 | the guarded replaces compute PACKAGE everywhere, then PREFIX, then PARALLEL |
| OldSchedulerQueue.OldNoScheduler | xespresso/old/scheduler.py:52-59 | without a scheduler entry the command is set and nothing is written, and the call raises exactly when the calculator has no profile |
| OldSchedulerQueue.OldFailures | xespresso/old/scheduler.py:62-74 | a failure before the script is written is a RuntimeError (Slurm unavailable) or a ValueError (construction) and sets nothing |
| OldSchedulerQueue.OldJoinFailure | xespresso/old/scheduler.py:76-77 | a failed join of the script lines is a TypeError raised after the job file is opened, and the command is not set |
| OldSchedulerQueue.SlurmCheckExact | xespresso/old/scheduler.py:62 | the availability check applies to the exact string "slurm" only |
| OldSchedulerQueue.SetQueue | xespresso/old/scheduler.py:34-83 | the queue write-back, the resolution, and the command mirrored into the profile's command when a profile exists, as the dispatch effect says |
| OldSchedulerQueue.Dispatch | xespresso/old/scheduler.py:52-83 | the method matches the dispatch effect, including the profile's command, and keeps every other field |
| NewSchedulerQueue.FirstExistingIsFirst | xespresso/new-scheduler.py:20-24 | the text read is that of the first existing candidate file, or "" when none exists |
| NewSchedulerQueue.GetXespressoConfig | xespresso/new-scheduler.py:10-25 | the loop with its early exit computes the setup text: `$HOME/<config>` when given, else the first existing file of `CONFIG_FILES` |
| NewSchedulerQueue.ResolveOrPrefixCases | xespresso/new-scheduler.py:45-57 | the resolution is the shared one, with the launcher and a space put in front when no PARALLEL is left |
| NewSchedulerQueue.MissingKindNoGenerate | xespresso/new-scheduler.py:61-65 | a queue without a kind selects "slurm", whose module has no `generate` |
| NewSchedulerQueue.WriteBack | xespresso/new-scheduler.py:28-40 | each non-None argument replaces the calculator's value; nothing else changes |
| NewSchedulerQueue.Run | xespresso/new-scheduler.py:42-71 | the steps after the write-backs always end in the exception `NewError` names: TypeError for a missing command, AttributeError for a missing queue or for "slurm", TypeError for "direct"/"pbs", ValueError otherwise |
| NewSchedulerQueue.SetQueue | xespresso/new-scheduler.py:27-71 | after the write-backs the call raises, without changing the command or writing a file |
| NotSchedulerQueue.NotDispatchCases | xespresso/not-scheduler.py:38-47 | exactly one generator runs for "direct" or "pbs", writing `<directory>/.job_file` that ends with the resolved command and setting "bash .job_file" or "qsub .job_file"; every other case raises and writes nothing |
| NotSchedulerQueue.SameFailureAsNew | xespresso/not-scheduler.py:22-47 | for the kinds neither front end generates for, this front end fails exactly as the other one does |
| NotSchedulerQueue.SetQueue | xespresso/not-scheduler.py:7-47 | the `is None` write-backs, then the command and the file store as the dispatch effect says |
| NotSchedulerQueue.Dispatch | xespresso/not-scheduler.py:22-47 | the method matches the dispatch effect and changes only the command |
| Factory.SchedulerType | xespresso/schedulers/factory.py:27 | the kind is the lower-cased "scheduler" entry, "slurm" when absent; a non-string entry raises |
| Factory.GetSchedulerCases | xespresso/schedulers/factory.py:27-34 | every string kind gives exactly one of Slurm ("slurm"), bash ("bash") or ValueError("Unsupported scheduler: <kind>") |
| Factory.MissingKindIsSlurm | xespresso/schedulers/factory.py:27-30 | a missing kind selects Slurm |
| Factory.KindIgnoresCase | xespresso/schedulers/factory.py:27-32 | the kind is compared case-insensitively |
| Factory.DirectAndPbsUnsupported | xespresso/schedulers/factory.py:33-34 | "direct" and "pbs" raise ValueError |
| Factory.NonStringKind | xespresso/schedulers/factory.py:27 | a non-string kind raises AttributeError |
| SchedBase.NewScheduler | xespresso/schedulers/old/base.py:34-41 | the job file is ".job_file", the script directory the calculator's directory, and both blocks come from the queue |
| SchedBase.ConfigPrependFirst | xespresso/schedulers/old/base.py:58-60 | the prepend entry is the first line whenever its key exists, whatever its value |
| SchedBase.ConfigBlocks | xespresso/schedulers/old/base.py:55-77 | the config lines are exactly the prepend block, then the module block, then the rc block, with nothing in between |
| SchedBase.ModuleBlockShape | xespresso/schedulers/old/base.py:64-66 | the module block is empty iff the module list is; otherwise it is "module purge" followed by one "module load" per module, in list order |
| SchedBase.ModuleListCases | xespresso/schedulers/old/base.py:62-64 | modules are loaded only when `use_modules` is truthy and `modules` is a non-empty list |
| SchedBase.ConfigNoModules | xespresso/schedulers/old/base.py:61-77 | with `use_modules` falsy the lines are the prepend entry followed by the rc text, with no module line |
| SchedBase.ConfigPrependNotString | xespresso/schedulers/old/base.py:58-77 | a non-string prepend entry makes the join fail |
| SchedBase.PostScript | xespresso/schedulers/old/base.py:86 | the post block is the "postpend" entry, or "" when absent |
| SchedBase.LoadModules | xespresso/schedulers/old/base.py:62-67 | the loop appends "module purge" and one load line per module, only for a truthy `use_modules` and a non-empty list |
| SchedBase.LoadConfigScript | xespresso/schedulers/old/base.py:43-77 | the appends and the join compute the environment block |
| SchedBase.Init | xespresso/schedulers/old/base.py:34-41 | the constructor computes exactly `NewScheduler` (the config block fails the same way) |
| SchedBase.JoinLines | xespresso/schedulers/old/base.py:77 | `"\n".join` succeeds exactly on a list of strings |
| BashScheduler.ScriptTextOk | xespresso/schedulers/bash.py:27-45 | the script can be joined exactly when the post block is a string or falsy, and is then the joined string lines |
| BashScheduler.ScriptStartsWithShebang | xespresso/schedulers/bash.py:28 | the text begins with "#!/bin/bash", a newline and a blank line |
| BashScheduler.ScriptLayout | xespresso/schedulers/bash.py:28-45 | the shebang, the environment block with its blank line when non-empty, the command and a blank line, then the post block |
| BashScheduler.ScriptEnd | xespresso/schedulers/bash.py:36-45 | without a post block the text ends with the command and one newline; with one it ends in that block |
| BashScheduler.WriteScript | xespresso/schedulers/old/bash.py:27-45 | the appends build the lines and the file receives their join (empty when the join fails) |
| Generators.ConfigInsert | xespresso/schedulers/old-slurm.py:16-22 | the inserted text is the named file's text, nothing for a falsy or missing file, and a raise for a non-string path |
| Generators.GenEffect | xespresso/schedulers/old-slurm.py:3-26 | the job file goes to `<directory>/.job_file` with the front lines, the config text and the command, and the command is set; a raise leaves only the front lines |
| Generators.GenerateSlurm | xespresso/schedulers/old-slurm.py:1-26 | the header, one `#SBATCH --k=v` per kept entry, the config text and the command, then "sbatch .job_file" |
| Generators.GeneratePbs | xespresso/schedulers/pbs.py:1-24 | the header, one `#PBS -l k=v` per kept entry, the config text and the command, then "qsub .job_file" |
| Generators.GenerateDirect | xespresso/schedulers/direct.py:1-17 | the shebang, the config text and the command, then "bash .job_file" |
| Generators.GenDirectivesExactly | xespresso/schedulers/old-slurm.py:11-13 | an entry gives a directive exactly when its value is truthy and its key is neither "scheduler" nor "config" |
| Generators.GenFileShape | xespresso/schedulers/pbs.py:5-22 | the job file starts with the header and directive lines and ends with the command line |
| Generators.DirectOnlyConfig | xespresso/schedulers/direct.py:7 | only the "config" entry of the queue affects the plain-bash job file |
| JobText.WriteDirectives | xespresso/schedulers/old-slurm.py:11-13 | the loop writes one directive line per kept entry, in queue order |
| JobText.KeptExactly | xespresso/schedulers/pbs.py:10-12 | an entry is kept exactly when it is in the queue and passes the key and truthiness filter |
| JobText.DirectiveRoundTrip | xespresso/schedulers/pbs.py:12 | each directive line starts with its head and splits back at "=" into the entry's key and value text |
| Espresso.DefaultPrefix | xespresso/xespresso.py:109-113 | the prefix is the given one, or the text after the label's last "/" (empty for a trailing "/") |
| Espresso.LabelPaths | xespresso/xespresso.py:116-121 | label, .pwi, .pwo, .asei and .save are `directory/prefix` plus the extension; the temporary file is `directory/.prefix.asei_temp` |
| Espresso.Calc.SetLabel | xespresso/xespresso.py:105-121 | the directory is the label, the prefix and paths as above, and the other fields are unchanged |
| Espresso.Calc.SetQueue | xespresso/xespresso.py:152-210 | given arguments are written back, then the command and the file store change as the queue effect says |
| Espresso.QueueEffectCases | xespresso/xespresso.py:169-209 | a missing template raises; without a queue the resolved command is set and nothing written; with one the job file goes to `<directory>/.job_file` and the command becomes "sbatch .job_file" |
| Espresso.JobFileText | xespresso/xespresso.py:195-206 | the job file is the five header lines, the directives, then the config line and the command line, each with a trailing space |
| Espresso.JobDirectivesExactly | xespresso/xespresso.py:201-204 | every truthy entry except "config" gives a directive, including the "scheduler" key |
| Placeholders.PackageAlways | xespresso/xespresso.py:176 | the unconditional replacement puts the package name in place of every PACKAGE (the command split on PACKAGE, joined with the package) |
| Placeholders.ParallelFallback | xespresso/new-scheduler.py:53-57 | with a PARALLEL token every one is replaced by the launcher; without one the launcher and a space are put in front of the command |
| SchedulerQueue.Construct | xespresso/scheduler.py:39 | `get_scheduler(calc, queue, command)` gives a bash scheduler built from the queue, the TypeError of the keyword-only Slurm constructor, or the factory's error |
| SchedulerQueue.ScriptEffect | xespresso/scheduler.py:40-41 | the job file is always written (empty when the join fails) and the command is set exactly when the script text can be joined |
| SchedulerQueue.WriteAndSubmit | xespresso/scheduler.py:40-41 | the outcome, the submit command and the new file store are those of ScriptEffect |
| OldSchedulerQueue.Finish | xespresso/old/scheduler.py:78-82 | the call completes exactly when the calculator has a profile; otherwise the debug print raises |
| NewSchedulerQueue.XespressoConfig | xespresso/new-scheduler.py:10-25 | a "config" entry must be a string (else the join raises) and gives `$HOME/<config>` when it exists, else ""; without one, the first existing file of the list |
| NewSchedulerQueue.NewError | xespresso/new-scheduler.py:42-71 | the exception the call ends with: TypeError without a command, AttributeError without a queue or for "slurm", the setup file's error or TypeError for "direct" and "pbs", ValueError for any other kind |
| Espresso.RcScript | xespresso/xespresso.py:189-193 | without a "config" entry the last existing rc file wins: `.xespressorc` in the working directory over `$HOME/.xespressorc`, and "" when neither exists |
| Espresso.QueueScript | xespresso/xespresso.py:183-193 | with a "config" entry, `$HOME/<config>` must exist and its text is the setup text; without one, RcScript |
| Espresso.WriteJobFile | xespresso/xespresso.py:195-206 | the writes of the block produce exactly JobFile's text |
| Espresso.JobFileEnds | xespresso/xespresso.py:205-206 | the job file ends with the setup text line and then the command line |
| Espresso.Calc.constructor | xespresso/xespresso.py:50-101 | the directory is the label and the prefix the default one, with package "pw", launcher "" and no command |
| Espresso.Calc.Relabel | xespresso/xespresso.py:108-120 | directory, prefix and paths take the given values and the run fields are untouched |
| Espresso.Calc.ApplyQueue | xespresso/xespresso.py:169-209 | the command and the file store change as the queue effect says; queue, package, launcher, directory, prefix and paths are kept |
| JobText.KeptAppend | xespresso/schedulers/pbs.py:10-12 | the directive filter distributes over concatenation, so queue order is kept |
| ParamDiff.KeySet | xespresso/xespresso.py:310 | the keys visited are exactly the keys of either dictionary |
| ParamDiff.DictCases | xespresso/xespresso.py:307-323 | the ignore list is consulted first; a key missing from the old dictionary is changed; a key missing from the new one is changed unless its old value equals its default; any other key is changed exactly when the values differ; no key is both changed and ignored |
| ParamDiff.ValueSelf | xespresso/xespresso.py:324-343 | a comparable value compared with itself is equal |
| ParamDiff.DictSelf | xespresso/xespresso.py:307-323 | a dictionary compared with itself changes nothing and ignores exactly its keys that are in the ignore list |
| ParamDiff.StringsIgnoreCase | xespresso/xespresso.py:327-329 | a string equals exactly the strings with the same upper-case form; compared with a non-string it raises |
| ParamDiff.WalkLists | xespresso/xespresso.py:312-322 | the loop raises exactly when some key's comparison does, and otherwise lists each key under its fate |
| ParamDiff.WalkAnyOrder | xespresso/xespresso.py:310-323 | in whatever order the set of keys is visited, the loop raises exactly when the comparison does and lists the same keys as ignored and as changed |
| ParamDiff.WalkStep | xespresso/xespresso.py:312-322 | one turn of the loop files key `i` by its fate and walks the rest |
| ParamDiff.WalkRaises | xespresso/xespresso.py:312-322 | a key whose comparison raises makes the rest of the walk raise too |
| ParamDiff.CompareDictLoop | xespresso/xespresso.py:307-323 | the loop over the keys in the set's iteration order computes `compare_dict` for that order |
| ParamDiff.PseudoChanges | xespresso/xespresso.py:282-290 | one "pseudopotentials" per species whose value differs, and one more when a lookup in the new parameters raises, which ends the loop |
| ParamDiff.SetToMultiset | xespresso/xespresso.py:310 | the key set as a multiset holds each key once |
| ParamDiff.ParamsEmpty | xespresso/xespresso.py:278-280 | without restart parameters everything counts as changed: `['all']` and nothing ignored |
| ParamDiff.UniqueGet | xespresso/xespresso.py:285-286 | in a dictionary without repeated keys, each entry is what its key looks up |
| ParamDiff.PseudoSelf | xespresso/xespresso.py:282-290 | every species' pseudopotential matches itself |
| ParamDiff.SectionsSelf | xespresso/xespresso.py:299-305 | every namelist section compared with itself changes nothing and ignores only keys of the ignore list |
| ParamDiff.DictSelfAnyDefault | xespresso/xespresso.py:307-323 | with both dictionaries the same, the defaults are never consulted |
| ParamDiff.ParamsSelf | xespresso/xespresso.py:271-306 | well-formed parameters compared with themselves change nothing, and what is ignored is in the ignore list |
| Convergence.MarkCodes | xespresso/xespresso.py:479-490 | a marked line decides one of the codes 0, 1 and 2, each code with its own markers |
| Convergence.Window | xespresso/xespresso.py:476-477 | the lines examined are the last `min(200, len)` lines but the very last one |
| Convergence.FirstMarkDecides | xespresso/xespresso.py:478-490 | the first marked line decides, and nothing is decided when no line is marked |
| Convergence.ScannedDecides | xespresso/xespresso.py:476-492 | the first marked line in the window decides the code and message; with none the code is 4 with the second-to-last line |
| Convergence.FirstMarkCode | xespresso/xespresso.py:478-490 | a decided status carries a code 0, 1 or 2 |
| Convergence.SplitHasSecond | xespresso/xespresso.py:474 | `split('starts on')` gives a second piece exactly when the separator occurs |
| Convergence.ReadCases | xespresso/xespresso.py:467-492 | 3 exactly for a missing file; 1 with "pwo file has nothing" for an empty one; IndexError exactly when there is no second line holding "starts on"; otherwise the scan's verdict |
| Convergence.LastLineIgnored | xespresso/xespresso.py:477 | the final line is never examined: replacing it changes nothing |
| Convergence.ScanWindow | xespresso/xespresso.py:478-490 | the loop with its early returns finds the first marked line's status |
| Convergence.ReadConvergence | xespresso/xespresso.py:428-492 | the method computes the outcome `read_convergence` is specified to have |
| Convergence.FirstDoneFinds | xespresso/xespresso.py:510-513 | a line holding "JOB DONE." is found exactly when one exists, and it is the earliest |
| Convergence.PostCases | xespresso/xespresso.py:493-514 | done exactly when "JOB DONE." occurs among the last `min(100, len)` lines but the last; a missing or empty file is not done; only a one-line file makes the final `line` unbound and raises |
| Convergence.ReadConvergencePost | xespresso/xespresso.py:493-514 | the method computes the outcome `read_convergence_post` is specified to have |
| PostInput.Pad | xespresso/xespresso.py:774-776 | the key padded to ten characters: it starts with the key and is `max(10, len)` long, spaces after |
| PostInput.SubLines | xespresso/xespresso.py:767-771 | one line per entry of a dictionary value, in order |
| PostInput.OnlyKeeps | xespresso/xespresso.py:764-765 | exactly the keyword arguments the section lists are written |
| PostInput.OnlyInOrder | xespresso/xespresso.py:764-765 | the arguments are written in the order given |
| PostInput.BareLines | xespresso/xespresso.py:779-781 | the LINE block holds one bare value per listed argument |
| PostInput.EntriesHaveNoHeader | xespresso/xespresso.py:767-776 | every keyword line starts with two spaces, so none opens a namelist |
| PostInput.BlocksHeaders | xespresso/xespresso.py:761-781 | the file's namelists are exactly the package's sections other than LINE, each once and in table order, whatever the arguments |
| PostInput.PostCases | xespresso/xespresso.py:758-781 | an unknown package raises KeyError; otherwise the file is `<directory>/<prefix>.<package>i` and its namelists are the package's sections in table order |
| PostInput.WriteEntry | xespresso/xespresso.py:766-776 | a dictionary value gives one line per entry, any other value one padded line |
| PostInput.WriteNamelist | xespresso/xespresso.py:762-777 | a namelist section is its header, one entry per listed argument, and "/ " |
| PostInput.WriteBare | xespresso/xespresso.py:778-781 | the LINE section is one bare value per listed argument |
| PostInput.WriteSections | xespresso/xespresso.py:761-781 | the loop writes each of the package's sections in table order |
| PostInput.PostWriteInput | xespresso/xespresso.py:698-781 | the table lookup and the loop compute the file `post_write_input` is specified to write |
| SlurmWait.TimeoutOf | tests/test_scheduler.py:220 | the timeout is the queue's "job_timeout", 3600 when absent |
| SlurmWait.Deadline | tests/test_scheduler.py:224 | integer, boolean and float timeouts are numbers, a float being the exact value of its decimal text; any other value makes the comparison raise TypeError, whatever the clock says |
| SlurmWait.WholeFloatTimeout | tests/test_scheduler.py:220-227 | a whole-number float timeout such as 3600.0 waits exactly as long as the integer 3600; only the text in the timeout message differs |
| SlurmWait.OneAndAHalf | tests/test_scheduler.py:220-224 | the float 1.5 read from the queue is a 1.5-second timeout shown as "1.5" |
| SlurmWait.OneSleepThenTimeout | tests/test_scheduler.py:223-247 | for any comparable timeout, a job still queued at the first query with the first check within the timeout and the second past it gives one queue query, one sleep, then the timeout error |
| SlurmWait.FloatTimeoutExample | tests/test_scheduler.py:220-247 | a float timeout of 1.5 with clock readings 0, 1.0 and 2.0 raises "Job 12345 timed out after 1.5 seconds" after one queue query and one sleep |
| Json.FloatOfDecimal | tests/test_scheduler.py:220-224 | a float literal of digits, a point and digits denotes the whole part plus the fraction over a power of ten |
| Json.FloatOfWhole | tests/test_scheduler.py:220-224 | a whole number written with ".0", as `str()` writes a whole float, denotes that number |
| Json.FloatOfTenths | tests/test_scheduler.py:220-224 | a literal of one digit, a point and one digit denotes a number of tenths |
| SlurmWait.VerdictCases | tests/test_scheduler.py:234-245 | a blank `sacct` answer returns without classification; otherwise the call returns exactly when the first line is COMPLETED or COMPLETING and raises "failed with state: <state>" for any other |
| SlurmWait.FirstLineDecides | tests/test_scheduler.py:236 | only the first line of the `sacct` answer is classified |
| SlurmWait.Run | tests/test_scheduler.py:230-234 | a command is answered by its number and recorded once |
| SlurmWait.Round | tests/test_scheduler.py:223-247 | one iteration reads the clock, checks the timeout, asks the queue, then sleeps or asks `sacct` once and decides |
| SlurmWait.PollTraceEvents | tests/test_scheduler.py:223-247 | every request of a poll is a queue query, an account query or a sleep |
| SlurmWait.WaitStop | tests/test_scheduler.py:232-245 | an iteration that ends the call ends the loop with its own result |
| SlurmWait.WaitAgain | tests/test_scheduler.py:247 | an iteration that goes round again puts its queue query and sleep before the rest of the loop |
| SlurmWait.WaitOutcomes | tests/test_scheduler.py:223-247 | a poll returns only after the account query, with its verdict; a raise right after a sleep or before any command is the timeout, with the last clock reading more than the timeout after the start |
| SlurmWait.Continue | tests/test_scheduler.py:223-247 | going round again moves the iteration's requests from the rest of the loop to those already made |
| SlurmWait.PollOnce | tests/test_scheduler.py:224-247 | one iteration: when it stops, the whole call's result; when it goes on, the requests it adds |
| SlurmWait.Iterate | tests/test_scheduler.py:224-247 | the statements of one iteration compute the iteration's specification |
| SlurmWait.WaitForCompletion | tests/test_scheduler.py:216-247 | the timeout is looked up and the clock read once, then the loop computes the call's specification |
| SlurmWait.Poll | tests/test_scheduler.py:223-247 | the loop, for at most `fuel` iterations, computes the poll's specification |
| SlurmWait.WaitRequests | tests/test_scheduler.py:216-247 | the requests are rounds of a queue query and a sleep followed by at most one queue query and one account query, so no job is cancelled; the call returns only on the account query's verdict |
| SlurmWait.TimeoutExample | tests/test_scheduler.py:62-88 | a one-second timeout with clock readings 0, 0.5 and 1.5 raises "Job 12345 timed out after 1 seconds" after one queue query and one sleep |
| Slurm.FloorDiv | xespresso/schedulers/slurm.py:27 | Python's `//`: the quotient rounded toward negative infinity, so quotient times divisor plus a remainder between 0 and the divisor gives the dividend |
| Slurm.OptionOrder | xespresso/schedulers/slurm.py:37-48 | the optional directives come in the order mem, account, mail-user, mail-type; each appears exactly when its setting is truthy, and the two mail lines appear together |
| Slurm.RankedBlocksOrder | xespresso/schedulers/slurm.py:37-48 | blocks that may be present or absent keep their fixed order |
| Slurm.SbatchEntriesExactly | xespresso/schedulers/slurm.py:51-52 | an `extra_params` entry is passed on exactly when its key starts with "sbatch_" |
| Slurm.ExtraLineOption | xespresso/schedulers/slurm.py:53-54 | a "sbatch_<name>" key becomes the option "--<name>", with any further "sbatch_" in the name also replaced |
| Slurm.SlurmScript | xespresso/schedulers/slurm.py:25-69 | the script's lines, or the ZeroDivisionError of zero nodes |
| Slurm.SlurmDirectivesLayout | xespresso/schedulers/slurm.py:15-54 | the script opens with the 8-line filled template, then the optional directives, then the "sbatch_" lines (one per such entry, in order, by ExtraLines' contract) |
| Slurm.TemplateLines | xespresso/schedulers/slurm.py:15-34 | the template has 8 lines, opens with the login-shell line, and its tasks per node (floor division) times the node count never exceed the cores for positive counts |
| Slurm.ExtraLines | xespresso/schedulers/slurm.py:50-54 | one directive per "sbatch_" entry of the extra parameters, in their order, each being "#SBATCH " with every "sbatch_" in the key replaced by "--", then "=" and the value |
| Slurm.SlurmCommandsBlock | xespresso/schedulers/slurm.py:62-67 | the commands appear one per line and in order between "# Job commands" and the "# Cleanup" block that ends the script |
| Slurm.SlurmCommandsText | xespresso/schedulers/slurm.py:62-69 | the script text ends with the "# Job commands" line, the commands one per line, and the cleanup block |
| Slurm.GenerateScript | xespresso/schedulers/slurm.py:25-69 | the method, growing the text as the source does, produces the specified script |
| Slurm.OptionText | xespresso/schedulers/slurm.py:37-48 | the `if` blocks append exactly the optional directive lines |
| Slurm.ExtraText | xespresso/schedulers/slurm.py:51-54 | the loop over `extra_params` appends exactly the "sbatch_" lines |
| Slurm.JobIdOf | xespresso/schedulers/slurm.py:99-101 | a job id exists exactly when the output mentions "Submitted batch job", and is then its last whitespace-separated word |
| Slurm.JobIdIsLastWord | xespresso/schedulers/slurm.py:94-101 | on stripped output the job id ends the output and follows whitespace |
| Slurm.SubmitReplyCases | xespresso/schedulers/slurm.py:71-124 | success exactly when the command ran and returned 0; only a success carries a job id, found exactly when the output mentions "Submitted batch job"; a failure carries the exit status, and an exception its text |
| Slurm.SubmitJob | xespresso/schedulers/slurm.py:71-124 | `sbatch <temp file>` runs in the working directory and its reply becomes the specified result |
| SlurmUtils.FirstMatch | xespresso/schedulers/utils.py:9 | the result is the leftmost position at or after the start where "Submitted batch job " and a digit occur, or -1 when there is none |
| SlurmUtils.DigitRunEnd | xespresso/schedulers/utils.py:9 | `\d+` takes the whole run of digits: every character up to the end is a digit, and the next is not |
| SlurmUtils.ParseSlurmOutput | xespresso/schedulers/utils.py:4-12 | with a match, the job id is the digits of the leftmost match and success is set; without one the output is returned unchanged |
| SlurmUtils.ParseLeftmostLongest | xespresso/schedulers/utils.py:9-11 | the id is the whole digit run right after the leftmost match: no match starts earlier and no digit follows it |
| SlurmUtils.ParseUsualReply | xespresso/schedulers/utils.py:8-11 | "Submitted batch job <digits>" yields exactly those digits |
| SlurmUtils.ValidateIffForm | xespresso/schedulers/utils.py:14-19 | the check accepts exactly the strings of the form `[digits-]H[H]:MM:SS`, with or without one final newline |
| SlurmUtils.WalltimeWithDays | xespresso/schedulers/utils.py:16-18 | a day-prefixed walltime passes |
| SlurmUtils.ClockOf | xespresso/schedulers/utils.py:16-18 | `HH:MM:SS` with one or two hour digits is a clock time |
| SlurmUtils.ValidWalltimes | xespresso/schedulers/utils.py:16-19 | every walltime of the documented forms passes, with or without a day count and a final newline |
| SlurmUtils.WalltimeRejected | xespresso/schedulers/utils.py:18-19 | three hour digits, a missing seconds field and an empty day count are rejected |
| LocalRun.LocalLayout | xespresso/schedulers/local.py:11-21 | the script is the shebang, the start message, the change to the working directory, the commands one per line in order, and the completion message |
| LocalRun.GenerateScript | xespresso/schedulers/local.py:11-21 | the loop over the commands produces that script |
| LocalRun.CommandsOfSound | xespresso/schedulers/local.py:27-31 | every extracted command is a line of the script, stripped |
| LocalRun.CommandsOfComplete | xespresso/schedulers/local.py:27-31 | every stripped line that is non-empty and starts with neither "#" nor "echo" is extracted |
| LocalRun.CommandsOfAppend | xespresso/schedulers/local.py:28-31 | extraction keeps the order of the lines: it distributes over concatenation |
| LocalRun.CommandsOfNone | xespresso/schedulers/local.py:30 | lines none of which runs contribute nothing |
| LocalRun.EchoSkipped | xespresso/schedulers/local.py:30 | a status line is skipped |
| LocalRun.CdKept | xespresso/schedulers/local.py:15 | the `cd` line always runs, whatever the working directory |
| LocalRun.OnlyFourthRuns | xespresso/schedulers/local.py:28-31 | of five lines of which only the fourth runs, that line alone is extracted |
| LocalRun.HeadExtracted | xespresso/schedulers/local.py:13-15 | of the lines before the commands, only the change of directory is extracted |
| LocalRun.TailExtracted | xespresso/schedulers/local.py:20 | nothing after the commands is extracted |
| LocalRun.LocalSplit | xespresso/schedulers/local.py:28 | splitting the script at newlines gives its lines, then "" after the last one |
| LocalRun.LocalRoundTrip | xespresso/schedulers/local.py:11-31 | reading a generated script back yields the change of directory, then exactly the commands, when they are stripped runnable lines and the directory holds no newline |
| LocalRun.ExtractLoop | xespresso/schedulers/local.py:27-31 | the loop computes the extracted commands |
| LocalRun.RunUpToCases | xespresso/schedulers/local.py:34-48 | the run succeeds exactly when no command raises, and then result `i` is command `i` with what it returned; otherwise the exception is the first command's that raised |
| LocalRun.LocalSubmitCases | xespresso/schedulers/local.py:23-67 | the job id is "local_execution", one result per command in order, success exactly when every command returned 0, output and error the streams joined with newlines; when a command raises, the failure carries its text |
| LocalRun.NothingToRun | xespresso/schedulers/local.py:51-58 | a script with nothing to run succeeds, vacuously, with empty output |
| LocalRun.SubmitJob | xespresso/schedulers/local.py:23-67 | extraction, the run of each command in turn and the gathering of results compute the specified reply |
| LocalRun.AllReturnedZero | xespresso/schedulers/local.py:51 | true exactly when every result's return code is 0 |
| LocalRun.StaysErr | xespresso/schedulers/local.py:35-48 | once a command raises, every longer run raises the same exception |
| RemoteFs.Components | xespresso/schedulers/ssh_direct.py:55-59 | the pieces the loop uses are exactly the non-empty pieces of `path.split('/')`, in order, none holding "/" |
| RemoteFs.Prefixes | xespresso/schedulers/ssh_direct.py:56-60 | the values `current_path` takes are "/c1", "/c1/c2", …, one per component |
| RemoteFs.PrefixesRooted | xespresso/schedulers/ssh_direct.py:56-60 | each value of `current_path` starts with "/" and is no longer than the full path of the components |
| RemoteFs.PrefixStep | xespresso/schedulers/ssh_direct.py:57-60 | one more piece of the split path extends the components, the prefixes and `current_path` together |
| RemoteFs.NewPrefix | xespresso/schedulers/ssh_direct.py:61-65 | visiting a prefix longer than every earlier one leaves it a directory exactly when it was one before the call, or makes it one |
| RemoteFs.PrefixesDistinct | xespresso/schedulers/ssh_direct.py:56-60 | no directory is visited twice: the prefixes grow strictly |
| RemoteFs.MissingExactly | xespresso/schedulers/ssh_direct.py:61-65 | exactly the prefixes that were not directories are made |
| RemoteFs.EnsureEffect | xespresso/schedulers/ssh_direct.py:50-65 | after the call on a path that is not yet a directory, every prefix of its non-empty components is one; exactly the missing prefixes are made, each once, and no directory or file that was there changes |
| RemoteFs.EnsureExisting | xespresso/schedulers/ssh_direct.py:52-53 | a path that is already a directory changes nothing |
| RemoteFs.CreatedRooted | xespresso/schedulers/remote.py:56-61 | every directory made starts with "/", even for a relative path |
| RemoteFs.EnsureIdempotent | xespresso/schedulers/remote.py:51-66 | a second call makes nothing and changes nothing |
| RemoteFs.CoveredAfter | xespresso/schedulers/ssh_direct.py:56-65 | once every prefix is a directory, visiting them again changes nothing |
| RemoteFs.EnsureReachesPath | xespresso/schedulers/ssh_direct.py:56-65 | an absolute path without empty components is itself the last directory made |
| RemoteFs.SplitJoinFree | xespresso/schedulers/ssh_direct.py:55 | splitting the "/"-join of slash-free pieces gives the pieces back |
| RemoteFs.UploadEffect | xespresso/schedulers/ssh_direct.py:67-73 | the file lands at the remote path with the local text, after the parent directory is ensured when its name is non-empty; a missing local file raises and writes nothing |
| RemoteFs.RemoteRootUnder | xespresso/schedulers/ssh_direct.py:81 | a walked root under `local_dir` maps to the same place under `remote_dir` |
| RemoteFs.RemoteRootFirstOnly | xespresso/schedulers/ssh_direct.py:81 | only the first occurrence of `local_dir` is replaced; a later one stays |
| RemoteFs.RunNext | xespresso/schedulers/ssh_direct.py:79-88 | one more walk entry after a completed prefix of the loop continues it |
| RemoteFs.RunStops | xespresso/schedulers/ssh_direct.py:79-88 | once an entry raises, the remaining ones are skipped |
| RemoteFs.RunKeys | xespresso/schedulers/ssh_direct.py:79-88 | when each completing entry adds exactly its own files, the loop adds their union |
| RemoteFs.Targets | xespresso/schedulers/ssh_direct.py:85-88 | each file of an entry is copied from `join(root, file)` to `join(remote_root, file)`, in order |
| RemoteFs.TransfersKeys | xespresso/schedulers/ssh_direct.py:85-88 | transfers that all succeed add exactly their remote paths |
| RemoteFs.EntryKeys | xespresso/schedulers/ssh_direct.py:80-88 | an entry that completes adds exactly its mapped file paths |
| RemoteFs.UploadDirKeys | xespresso/schedulers/ssh_direct.py:75-88 | a directory upload that completes leaves a file at every mapped path of the walk and adds no other file |
| RemoteFs.Sftp.constructor | xespresso/schedulers/ssh_direct.py:30-47 | a channel over the given directories and files |
| RemoteFs.Sftp.EnsureRemoteDir | xespresso/schedulers/ssh_direct.py:50-65 | nothing changes when `chdir(path)` succeeds; otherwise each prefix is visited in turn, as the prefix specification says |
| RemoteFs.Sftp.VisitPrefixes | xespresso/schedulers/ssh_direct.py:55-65 | the loop accumulates "/c1/…/ck" over the pieces, making each missing one |
| RemoteFs.Sftp.Visit | xespresso/schedulers/ssh_direct.py:61-65 | `chdir(p)`, and when it fails `mkdir(p)`: `p` is a directory afterwards and nothing else changes |
| RemoteFs.Sftp.WriteFile | xespresso/schedulers/remote.py:78-79 | the file then holds exactly the text written, and nothing else changes |
| RemoteFs.Sftp.UploadFile | xespresso/schedulers/ssh_direct.py:67-73 | the upload has the specified effect on directories and files |
| RemoteFs.Sftp.UploadDirectory | xespresso/schedulers/ssh_direct.py:75-88 | the walk loop has the specified effect: each entry's directory ensured, then its files copied |
| RemoteFs.Sftp.UploadEntry | xespresso/schedulers/ssh_direct.py:80-88 | one walk entry: the mapped directory ensured, then its files |
| RemoteFs.Sftp.UploadNames | xespresso/schedulers/ssh_direct.py:85-88 | the inner loop uploads each file of the entry |
| SshSchedulers.LoginFor | xespresso/schedulers/ssh_direct.py:29-47 | the key file is used when it is set and non-empty, else the password, possibly None |
| SshSchedulers.ExecReplyCases | xespresso/schedulers/ssh_direct.py:90-127 | success exactly when the command was handed over and, when waited for, exited with status 0; every reply names the command, and only a waited reply carries the exit status and stripped output |
| SshSchedulers.DirectLayout | xespresso/schedulers/ssh_direct.py:128-139 | the script moves to the working directory before anything runs, has the commands one per line in order after the two start messages, and ends with the completion message |
| SshSchedulers.DirectSplit | xespresso/schedulers/ssh_direct.py:128-139 | split at newlines, the script gives exactly its lines when none holds a newline |
| SshSchedulers.GenerateScript | xespresso/schedulers/ssh_direct.py:128-139 | the loop over the commands builds that script |
| SshSchedulers.ModuleLoads | xespresso/schedulers/ssh_direct.py:187-189 | one "module load m" per module, in order |
| SshSchedulers.DirectStepsLayout | xespresso/schedulers/ssh_direct.py:185-195 | the module loads come first in order, then `cd <working_dir>`, then the commands in order |
| SshSchedulers.BackgroundShape | xespresso/schedulers/ssh_direct.py:197-199 | in the background the joined steps are wrapped as `nohup bash -c '…' > <remote_dir>/nohup.out 2>&1 &` |
| SshSchedulers.SshDirect.constructor | xespresso/schedulers/ssh_direct.py:13-27 | `remote_dir` falls back to "/home/<username>/direct_jobs", and nothing is connected |
| SshSchedulers.SshDirect.Connect | xespresso/schedulers/ssh_direct.py:29-48 | the client is created before the handshake, so it stays set when the handshake fails |
| SshSchedulers.SshDirect.ExecuteCommand | xespresso/schedulers/ssh_direct.py:90-127 | connects first only when there is no client, a failed handshake propagates, otherwise the command is handed over and the reply describes it |
| SshSchedulers.SshDirect.Steps | xespresso/schedulers/ssh_direct.py:185-195 | the loop gathers exactly the specified steps into `all_commands` |
| SshSchedulers.SshDirect.RunDirect | xespresso/schedulers/ssh_direct.py:172-201 | the steps joined with " && " run and are waited for in the foreground, or are handed to `nohup` without waiting in the background |
| SshSchedulers.RemoteSlurm.constructor | xespresso/schedulers/remote.py:14-28 | `remote_dir` falls back to "/home/<username>/slurm_jobs", and nothing is connected |
| SshSchedulers.RemoteSlurm.Connect | xespresso/schedulers/remote.py:30-49 | the client first, then the handshake, then the SFTP channel |
| SshSchedulers.RemoteSlurm.SubmitJob | xespresso/schedulers/remote.py:68-121 | the remote directory is ensured, the script written to `<remote_dir>/<script_name>`, made executable and submitted with `cd <remote_dir> && sbatch <script_name>`; the reply follows the exit status |
| SshSchedulers.RemoteSubmitReply | xespresso/schedulers/remote.py:94-113 | success exactly when `sbatch` exited with 0, carrying the script path and, when the output says "Submitted batch job", its last word as job id; otherwise no job id and the exit code |
| Auth.ConfigureCases | xespresso/utils/auth.py:51-62 | a session is configured exactly when the method is "key" (and the key path is text); the defaults are port 22 and "~/.ssh/id_rsa" under the home directory, and a refused method is named in the ValueError |
| Auth.RequestKeeps | xespresso/utils/auth.py:84-129 | a request after the handshake keeps the session invariant: at most one handshake, and it comes first |
| Auth.ConnectKeeps | xespresso/utils/auth.py:64-82 | connecting keeps the invariant and leaves the client set, whether or not the handshake succeeds |
| Auth.HandshakesFirst | xespresso/utils/auth.py:69-76 | a trace that starts with the handshake holds at least one |
| Auth.ConnectOnce | xespresso/utils/auth.py:66-67 | once `connect` has run, a second one makes no request and changes nothing, however the first handshake ended |
| Auth.ConnectFailure | xespresso/utils/auth.py:78-82 | a failed handshake raises RuntimeError naming user@host:port |
| Auth.RunCases | xespresso/utils/auth.py:84-93 | the command runs exactly when the session is connected or the handshake succeeds; its output is returned as is, and every failure is a RuntimeError whose message starts by naming the command |
| Auth.TransferCases | xespresso/utils/auth.py:95-115 | a transfer completes exactly when the channel is open after connecting and the remote side accepts it; every failure is a RuntimeError naming both paths |
| Auth.DigestOfSumLine | xespresso/utils/auth.py:117-125 | on the usual reply "<digest>  <path>" with nothing on standard error the result is the digest; any text on standard error makes it fail |
| Auth.CloseKeepsFields | xespresso/utils/auth.py:131-137 | closing keeps `client` and `sftp` set, so a later `connect` makes no second handshake |
| Auth.RunKeeps | xespresso/utils/auth.py:84-93 | running a command keeps the session invariant |
| Auth.TransfersKeep | xespresso/utils/auth.py:95-115 | transfers keep the session invariant |
| Auth.ShaKeeps | xespresso/utils/auth.py:117-129 | computing a digest keeps the session invariant |
| Auth.RemoteAuth.constructor | xespresso/utils/auth.py:51-62 | a fresh session: no client, no channel, no request made |
| Auth.RemoteAuth.Connect | xespresso/utils/auth.py:64-82 | the session changes and the outcome is as the connect specification says |
| Auth.RemoteAuth.RunCommand | xespresso/utils/auth.py:84-93 | the session changes and the result is as the run specification says |
| Auth.RemoteAuth.SendFile | xespresso/utils/auth.py:95-104 | the session changes and the outcome is as the upload specification says |
| Auth.RemoteAuth.RetrieveFile | xespresso/utils/auth.py:106-115 | the session changes and the outcome is as the download specification says |
| Auth.RemoteAuth.Sha256 | xespresso/utils/auth.py:117-129 | the session changes and the digest is as the checksum specification says |
| Auth.RemoteAuth.Close | xespresso/utils/auth.py:131-142 | the channel then the client are closed, neither reset, and a failure is wrapped |
| Auth.NewRemoteAuth | xespresso/utils/auth.py:51-62 | a fresh, unconnected session with the configured settings, or the constructor's error |
| MixinRun.PerformCases | xespresso/schedulers/remote_mixin.py:41-48 | a run completes exactly when the session is or gets connected with an open channel and the remote side accepts all four requests; it then adds the handshake if one was due and the four requests in order, and returns the submit command's output; otherwise the first failing request's exception |
| MixinRun.Execute | xespresso/schedulers/test.py:79-88 | the two uploads, the submit command and the download, on the session object, change it as the run specification says |
| PlainMixin.PerformNoClose | xespresso/schedulers/remote_mixin.py:41-48 | the four requests add only the handshake and those requests: they never close the session |
| PlainMixin.PlainRunOrder | xespresso/schedulers/remote_mixin.py:29-51 | a run that returns has made, on its own new session, exactly the handshake, the two uploads, the submit command, the download and one close; a run that fails after setup never closes |
| PlainMixin.PlainScheduler.constructor | xespresso/schedulers/remote_mixin.py:4-19 | a scheduler with its queue, calculator, job file and script directory, and no session yet |
| PlainMixin.PlainScheduler.SetupRemote | xespresso/schedulers/remote_mixin.py:21-27 | the remote path is the queue's "remote_path" verbatim, and the session is new and unconnected |
| PlainMixin.PlainScheduler.Run | xespresso/schedulers/remote_mixin.py:29-51 | outside remote execution nothing is set up; otherwise the reply and the final state of the session this run built are those the plain run specifies |
| PooledMixin.PooledRunOrder | xespresso/schedulers/test.py:68-88 | a run on a pooled session that is already connected makes no new handshake; a completed run adds exactly the four requests in order and returns the output of `cd <remote_path> && <submit>` |
| PooledMixin.OpenFailure | xespresso/schedulers/test.py:39-45 | a new session is connected once it is built, and a failed handshake is reported wrapped |
| PooledMixin.Open | xespresso/schedulers/test.py:39-44 | the session for a new key is built from the queue and connected |
| PooledMixin.Pool.constructor | xespresso/schedulers/test.py:29-30 | the shared dictionary starts empty, with no last remote path |
| PooledMixin.Pool.Add | xespresso/schedulers/test.py:45 | the session is stored under a key that was not there, and the other entries stay |
| PooledMixin.Pool.CloseAll | xespresso/schedulers/test.py:90-99 | every session is closed in insertion order with its own host's transport, then the dictionary is emptied and the last path is None; a close that raises stops the loop and leaves the dictionary as it was |
| PooledMixin.PooledScheduler.constructor | xespresso/schedulers/test.py:4-27 | a scheduler over the shared pool, with no session or remote path of its own |
| PooledMixin.PooledScheduler.SetupRemote | xespresso/schedulers/test.py:32-53 | a key in the pool reuses its session as it is, with no new handshake; a new key gets a new connected session that is then added, and a failure on the way adds nothing; the remote path is `join(remote_dir, directory)` |
| PooledMixin.PooledScheduler.Attach | xespresso/schedulers/test.py:37-46 | a key in the pool gives its session unchanged; a new key gets a new session, connected, then added under the key at the end of the order; a failure on the way raises what KeyOf or the opening raised and adds nothing |
| PooledMixin.PooledScheduler.Run | xespresso/schedulers/test.py:55-88 | outside remote execution nothing is touched; otherwise the pooled session for the key runs the four requests and the reply is the submit command's output or the first exception |
| SshSteps.Dial | xespresso/remote_job_manager.py:56-75 | the handshake is recorded with its credential kind and ends as the host decides |
| SshSteps.Send | xespresso/remote_job_manager.py:84-90 | the command is recorded once, and both outputs come back stripped as the host gives them |
| SshSteps.Note | xespresso/remote_job_manager.py:77-82 | a channel or client open or close is recorded and nothing else happens |
| SshSteps.Transfers | xespresso/remote_job_manager.py:168-172 | one upload request per (local, remote) pair, in order |
| SshSteps.PutAllSends | xespresso/remote_job_manager.py:168-172 | every pair is sent when the host accepts every one; otherwise the pairs up to and including the first refused one are sent and the loop raises what that one raised |
| SshSteps.PutAllOnlyUploads | xespresso/remote_job_manager.py:168-172 | the upload loop makes upload requests and nothing else |
| SshSteps.PutAllAt | xespresso/remote_job_manager.py:168-172 | one step of the loop at position `i` extends its requests by that pair's upload |
| SshSteps.PutEach | xespresso/remote_job_manager.py:168-172 | the loop makes the specified requests, in order, and ends as specified |
| JobDirs.FieldHasBrace | xespresso/remote_job_manager.py:15 | a text holding `{user}` holds a brace |
| JobDirs.FormatUserPlain | xespresso/remote_job_manager.py:15 | `str.format` keeps a template without braces as it is |
| JobDirs.FormatUserOf | xespresso/remote_job_manager.py:15 | a single `{user}` between brace-free text is replaced by the user name, so `/home/{user}/jobs` becomes `/home/<user>/jobs` |
| JobDirs.FirstPwi | xespresso/remote_job_manager.py:118-121 | the first entry of the listing that ends in ".pwi", or none when there is no such entry |
| JobDirs.FindPwi | xespresso/remote_job_manager.py:118-121 | the loop stops at the first ".pwi" entry and finds exactly that |
| JobDirs.Without | xespresso/remote_job_manager.py:145 | the listing without the removed name, and with every other entry |
| JobDirs.RemoveInfo | xespresso/remote_job_manager.py:145 | the submission record is gone and every other file stays |
| JobDirs.WriteInfo | xespresso/remote_job_manager.py:206-216 | the submission record holds the record written and every other file stays |
| JobDirs.CommandsDiffer | xespresso/old-remote_job_manager.py:76-85 | the `sbatch`, `bash` and `pw.x` commands differ, whatever the directory, job file and prefix |
| JobDirs.FindExtension | xespresso/old-remote_job_manager.py:84 | in `<p>.pwi` with no ".pwi" inside `p`, the first ".pwi" is the extension |
| JobDirs.PwXOutput | xespresso/old-remote_job_manager.py:84-85 | an input `<p>.pwi` with no other ".pwi" writes its output to `<p>.pwo` |
| RemoteJobs.NewConfig | xespresso/remote_job_manager.py:9-20 | the key path is expanded, `{user}` is filled into the remote base, and a manager with neither key nor password is refused with ValueError |
| RemoteJobs.DefaultBase | xespresso/remote_job_manager.py:13-15 | the default remote base becomes `/home/<user>/jobs` |
| RemoteJobs.DisconnectSpec | xespresso/remote_job_manager.py:77-82 | disconnecting closes a held connection and forgets it; without one nothing happens |
| RemoteJobs.ExecReusesConnection | xespresso/remote_job_manager.py:51-90 | a command on a held connection does not log in again; from a fresh state it logs in first, with the key when one is set |
| RemoteJobs.ReadQueueConfig | xespresso/remote_job_manager.py:22-49 | the scheduler comes from the job file's text, else from the record, else "direct" |
| RemoteJobs.QueuePrecedence | xespresso/remote_job_manager.py:22-49 | "#SBATCH" wins over "#PBS" over a shebang, any marker wins over the record, and the record's scheduler is used only without a marker |
| RemoteJobs.PrefixOf | xespresso/remote_job_manager.py:117-123 | the given prefix, else the first `.pwi` entry of the listing with ".pwi" removed |
| RemoteJobs.RemoteDirPrecedence | xespresso/remote_job_manager.py:132-155 | the recorded remote directory is kept unless the restart answer is "s", which removes the old directory and the record; then the label's directory under the base, else a timestamped one |
| RemoteJobs.UploadsExactly | xespresso/remote_job_manager.py:166-173 | when no upload raises, exactly the regular files other than `.remote_info.json` are uploaded, in listing order, each to the same name under the remote directory |
| RemoteJobs.RecordNeverUploaded | xespresso/remote_job_manager.py:166-173 | the record file is never uploaded |
| RemoteJobs.StageNeedsJobFile | xespresso/remote_job_manager.py:161-186 | staging passes only when the cluster's listing of the remote directory names the job file |
| RemoteJobs.SlurmVerdict | xespresso/remote_job_manager.py:231-254 | as written, `sbatch` succeeds only when its stdout is all digits |
| RemoteJobs.SlurmVerdictRejectsUsualReply | xespresso/remote_job_manager.py:248 | as written, the reply "Submitted batch job 123" counts as a failure |
| RemoteJobs.FixedSlurmVerdict | xespresso/remote_job_manager.py:231-254 | the intended verdict takes the bare id or the id in "Submitted batch job <id>" |
| RemoteJobs.FixedSlurmVerdictAccepts | xespresso/remote_job_manager.py:248 | both forms of `sbatch`'s reply yield the job id |
| RemoteJobs.PbsJobId | xespresso/remote_job_manager.py:256-278 | the PBS job id is the reply up to its first "." and contains no "." |
| RemoteJobs.SafeProperties | xespresso/remote_job_manager.py:301-322 | a login node is refused without asking, the answer is asked once and remembered, and only a remembered "s" makes direct execution safe |
| RemoteJobs.DirectNeedsConfirmation | xespresso/remote_job_manager.py:280-299 | a direct run is accepted only after a positive safety answer and records no job id |
| RemoteJobs.SubmitSpec | xespresso/remote_job_manager.py:113-229 | the connection is always closed at the end; the record is written exactly when the submission returns True, with status "submitted", the host and the remote directory; a Slurm submission returns True only for an all-digit `sbatch` reply |
| RemoteJobs.SubmitNeedsRemoteJobFile | xespresso/remote_job_manager.py:176-203 | a successful submission has seen the job file in the remote listing |
| RemoteJobs.QueueStatus | xespresso/remote_job_manager.py:334-346 | the queue's word: "slurm_" and squeue's answer, "pbs_" and the stripped text after the first "=" of qstat's job_state, else "unknown" |
| RemoteJobs.PwoStatus | xespresso/remote_job_manager.py:348-357 | without `remote_dir` or `prefix` the status is "error"; a failing `ls` check is "error"; an answer that does not contain "none" makes the job "completed" whatever the queue said; otherwise the queue's word is kept |
| RemoteJobs.NotSubmittedIsNoQueueWord | xespresso/remote_job_manager.py:324-357 | the word for a missing record differs from every word of the queue |
| RemoteJobs.StatusSpec | xespresso/remote_job_manager.py:324-357 | without a record the status is "not_submitted" and the cluster is not asked; the connection stays open |
| RemoteJobs.PwoCheckHidesNone | xespresso/remote_job_manager.py:349-351 | as written, a finished job whose remote directory or prefix contains "none" is never reported completed |
| RemoteJobs.FixedCompletedListing | xespresso/remote_job_manager.py:349-351 | with the intended check, the path `ls` prints for an existing `.pwo` always counts as completed |
| RemoteJobs.DownloadsExactly | xespresso/remote_job_manager.py:359-395 | when no download raises, exactly the remote entries allowed by `overwrite` are downloaded, in order; without `overwrite` no local file is replaced |
| RemoteJobs.MonitorLoop | xespresso/remote_job_manager.py:397-427 | monitoring stops only on "completed" or "error" and otherwise polls until its fuel runs out, downloading on completion; "completed" comes from the `.pwo` check whose answer does not contain "none" |
| RemoteJobs.MonitorWithoutRecord | xespresso/remote_job_manager.py:397-427 | without a record every poll says "not_submitted" and monitoring never stops by itself |
| RemoteJobs.UploadLoop | xespresso/remote_job_manager.py:166-173 | the upload loop's requests, in order, and how it ends |
| RemoteJobs.DownloadLoop | xespresso/remote_job_manager.py:377-384 | the download loop's requests, in order, and how it ends |
| RemoteJobs.NewManager | xespresso/remote_job_manager.py:9-20 | the constructor gives a manager in the initial state or the ValueError it raises |
| RemoteJobs.RemoteJobManager.constructor | xespresso/remote_job_manager.py:9-20 | a new manager holds the configuration and no connection |
| RemoteJobs.RemoteJobManager.ConnectSsh | xespresso/remote_job_manager.py:51-75 | the new connection state and outcome are those of the connection specification |
| RemoteJobs.RemoteJobManager.DisconnectSsh | xespresso/remote_job_manager.py:77-82 | the new state is DisconnectSpec of the old one |
| RemoteJobs.RemoteJobManager.ExecuteCommand | xespresso/remote_job_manager.py:84-90 | new state and result are those of the command specification, which reuses a held connection |
| RemoteJobs.RemoteJobManager.SubmitSlurm | xespresso/remote_job_manager.py:231-254 | new state and result follow the sbatch specification: no `sbatch` or any stderr is a failure, and success needs a non-empty, all-digit reply, which is the job id |
| RemoteJobs.RemoteJobManager.SubmitPbs | xespresso/remote_job_manager.py:256-278 | new state and result follow the qsub specification |
| RemoteJobs.RemoteJobManager.IsSafeForDirectExecution | xespresso/remote_job_manager.py:301-322 | new state and verdict follow the safety specification |
| RemoteJobs.RemoteJobManager.SubmitDirect | xespresso/remote_job_manager.py:280-299 | new state and result follow the direct-run specification |
| RemoteJobs.RemoteJobManager.Dispatch | xespresso/remote_job_manager.py:188-203 | slurm, pbs and everything else go to their own submission, as the dispatch specification says |
| RemoteJobs.RemoteJobManager.Resolve | xespresso/remote_job_manager.py:132-158 | the remote directory and the disk follow the restart specification |
| RemoteJobs.RemoteJobManager.Stage | xespresso/remote_job_manager.py:161-186 | connection, directory, uploads and listing follow the staging specification |
| RemoteJobs.RemoteJobManager.SubmitSteps | xespresso/remote_job_manager.py:115-226 | the body of the `try` follows SubmitBody |
| RemoteJobs.RemoteJobManager.Submit | xespresso/remote_job_manager.py:113-229 | new state, disk and result are those of SubmitSpec |
| RemoteJobs.RemoteJobManager.QueueStatusOf | xespresso/remote_job_manager.py:334-346 | new state and word follow QueueStatus |
| RemoteJobs.RemoteJobManager.PwoStatusOf | xespresso/remote_job_manager.py:348-353 | new state and word follow PwoStatus: "completed" when the `ls` answer does not contain "none", else the queue's word |
| RemoteJobs.RemoteJobManager.GetJobStatus | xespresso/remote_job_manager.py:324-357 | new state and status are those of StatusSpec |
| RemoteJobs.RemoteJobManager.DownloadSteps | xespresso/remote_job_manager.py:366-393 | new state and result follow the download body |
| RemoteJobs.RemoteJobManager.DownloadResults | xespresso/remote_job_manager.py:359-395 | new state and result are those of the download specification |
| RemoteJobs.RemoteJobManager.Poll | xespresso/remote_job_manager.py:403-423 | one poll: the status, then a download and a stop on "completed", a stop on "error", otherwise a sleep of the interval (PollSpec) |
| RemoteJobs.RemoteJobManager.MonitorJob | xespresso/remote_job_manager.py:397-427 | the statuses reported are those of MonitorLoop and the connection is closed afterwards |
| RemoteJobs.RemoteJobManager.MonitorPolls | xespresso/remote_job_manager.py:402-423 | the polling loop leaves the manager in MonitorLoop's final state and returns its statuses, so it stops only on "completed" or "error" |
| RemoteJobs.RemoteJobManager.MonitorRound | xespresso/remote_job_manager.py:403-423 | one poll: the round either stops or leaves one poll fewer, and the statuses seen, the new status and what the remaining polls do still make up the whole run |
| RemoteJobs.MonitorRoundSpec | xespresso/remote_job_manager.py:403-423 | after a poll that stops, the run ends with that poll's state and status; after one that goes on, the run is that status followed by the loop with one poll fewer |
| GeminiJobs.NewConfig | xespresso/gemini-remote_job_manager.py:8-17 | the base defaults to `/home/<user>/jobs`; a manager with neither key path nor password is refused with ValueError |
| GeminiJobs.DefaultBase | xespresso/gemini-remote_job_manager.py:12 | without a base, or with an empty one, a user name without slashes gives `/home/<user>/jobs` |
| GeminiJobs.ConnectError | xespresso/gemini-remote_job_manager.py:32-37 | a failed login is reported as the generic exception `_connect_ssh` raises |
| GeminiJobs.Connect | xespresso/gemini-remote_job_manager.py:19-37 | a new client logs in with the key file when one is set, else with the password |
| GeminiJobs.Run | xespresso/gemini-remote_job_manager.py:39-49 | a command's result is what it printed, stripped; an SSH failure is reworded |
| GeminiJobs.ResolveSpec | xespresso/gemini-remote_job_manager.py:54-73 | the recorded remote directory is kept unless the answer is "y" in any case, which removes the old directory over its own client and deletes the record; then the label's directory, else `job_<seconds>` under the base |
| GeminiJobs.RemoteDirPrecedence | xespresso/gemini-remote_job_manager.py:54-73 | the precedence of record, restart answer, label and timestamp, and what a restart does to the cluster |
| GeminiJobs.PrefixOf | xespresso/gemini-remote_job_manager.py:75-79 | the given prefix, else the first `.pwi` entry of the listing with its extension, else FileNotFoundError |
| GeminiJobs.ChoiceRequests | xespresso/gemini-remote_job_manager.py:93-101 | the existence test is asked once, or twice when sbatch was found and the first answer was empty |
| GeminiJobs.ChoiceReasons | xespresso/gemini-remote_job_manager.py:91-101 | sbatch exactly when sbatch exists and the first test finds the job file; bash when the last test finds it otherwise; pw.x when no test finds it |
| GeminiJobs.Pairs | xespresso/gemini-remote_job_manager.py:85-88 | every listing entry goes to the same name under the remote directory |
| GeminiJobs.Launch | xespresso/gemini-remote_job_manager.py:91-103 | after the uploads sbatch is looked for, the run command is chosen and run |
| GeminiJobs.Record | xespresso/gemini-remote_job_manager.py:106-111 | the record holds the remote directory, the host and the submission time |
| GeminiJobs.SubmitSpec | xespresso/gemini-remote_job_manager.py:51-111 | remote directory, then prefix, then one client for staging and run, closed however the block ends; the record is written only when all succeeded |
| GeminiJobs.ChooseGrows | xespresso/gemini-remote_job_manager.py:91-101 | choosing the command only appends to the requests made before |
| GeminiJobs.SessionUploads | xespresso/gemini-remote_job_manager.py:81-103 | a session that ends well has uploaded every listing entry |
| GeminiJobs.SubmitUploadsEverything | xespresso/gemini-remote_job_manager.py:51-111 | a successful submission has uploaded every entry of the listing it staged from, the record included |
| GeminiJobs.ResolveRemoteDir | xespresso/gemini-remote_job_manager.py:54-73 | the method's remote directory and disk are those of ResolveSpec |
| GeminiJobs.ChooseCommand | xespresso/gemini-remote_job_manager.py:91-101 | the chosen command and requests are those of the choice specification |
| GeminiJobs.Session | xespresso/gemini-remote_job_manager.py:81-103 | the requests and outcome of the second `with` block follow the session specification |
| GeminiJobs.Submit | xespresso/gemini-remote_job_manager.py:51-111 | the method's disk, requests and outcome are those of SubmitSpec |
| OldJobs.NewConfig | xespresso/old-remote_job_manager.py:7-12 | `{user}` is filled into the remote base; nothing else is checked |
| OldJobs.PlainBase | xespresso/old-remote_job_manager.py:12 | a base without braces is kept as it is |
| OldJobs.DefaultBase | xespresso/old-remote_job_manager.py:7-12 | the default base becomes `/home/<user>/jobs` |
| OldJobs.PrefixOf | xespresso/old-remote_job_manager.py:16-22 | the given prefix, else the first `.pwi` entry of the listing with its extension, else FileNotFoundError |
| OldJobs.ResolveSpec | xespresso/old-remote_job_manager.py:25-51 | the recorded remote directory is kept unless the answer is "s" in any case, which removes the old directory over its own client and deletes the record; then the label's directory, else `job_<clock>` under the base |
| OldJobs.RemoteDirPrecedence | xespresso/old-remote_job_manager.py:28-51 | the precedence of record, restart answer, label and clock, and what a restart does to the cluster |
| OldJobs.CommandCases | xespresso/old-remote_job_manager.py:76-85 | sbatch exactly when sbatch exists and the remote listing names the job file; bash when only the listing names it; pw.x otherwise |
| OldJobs.Pairs | xespresso/old-remote_job_manager.py:63-64 | every listing entry goes to `<remote dir>/<name>` |
| OldJobs.Launch | xespresso/old-remote_job_manager.py:68-89 | after the uploads sbatch is looked for, the remote directory listed and the chosen command run |
| OldJobs.Record | xespresso/old-remote_job_manager.py:93-98 | the record holds the remote directory, the host and the submission time |
| OldJobs.SubmitSpec | xespresso/old-remote_job_manager.py:14-98 | prefix, remote directory, then one client for staging and run that is closed only when everything succeeded; the record is written after that |
| OldJobs.LaunchStaysOpen | xespresso/old-remote_job_manager.py:68-89 | the launch only runs commands and never closes the client |
| OldJobs.StageNeverCloses | xespresso/old-remote_job_manager.py:59-65 | staging adds requests and never closes the client |
| OldJobs.FailureLeavesClientOpen | xespresso/old-remote_job_manager.py:54-90 | a submission that raises after its first request leaves the last client open |
| OldJobs.StageUploads | xespresso/old-remote_job_manager.py:59-65 | a staging that ends well has uploaded every listing entry |
| OldJobs.SubmitUploadsEverything | xespresso/old-remote_job_manager.py:14-98 | a successful submission has uploaded every listing entry, the record included |
| OldJobs.ResolveRemoteDir | xespresso/old-remote_job_manager.py:25-51 | the method's remote directory and disk are those of ResolveSpec |
| OldJobs.Stage | xespresso/old-remote_job_manager.py:54-90 | the requests and outcome of staging and launch follow their specification |
| OldJobs.Submit | xespresso/old-remote_job_manager.py:14-98 | the method's disk, requests and outcome are those of SubmitSpec |
| OldestJobs.CommandCases | xespresso/remote_job_manager-old.py:33-43 | each command is chosen exactly in its own case; sbatch whenever it exists, even without the job file |
| OldestJobs.DefaultHasOneExtension | xespresso/remote_job_manager-old.py:12 | the default prefix ends in ".pwi" and holds it once |
| OldestJobs.DefaultOutput | xespresso/remote_job_manager-old.py:42 | the default prefix's output is `test.pwo` |
| OldestJobs.DefaultRun | xespresso/remote_job_manager-old.py:40-43 | with the default prefix, no sbatch and no job file, pw.x reads `test.pwi` and writes `test.pwo` |
| OldestJobs.SubmitSpec | xespresso/remote_job_manager-old.py:12-48 | one client makes `<base>/job_<clock>`, uploads every local entry, looks for sbatch, runs the chosen command and is closed; a failing step raises and leaves it open |
| OldestJobs.Launch | xespresso/remote_job_manager-old.py:29-48 | after the uploads sbatch is looked for and the chosen command run, then the client is closed |
| OldestJobs.SubmitRequests | xespresso/remote_job_manager-old.py:12-48 | a successful submission makes, in order: login, directory, channel, one upload per entry, channel close, sbatch lookup, run, close |
| OldestJobs.Submit | xespresso/remote_job_manager-old.py:12-48 | the method's requests and outcome are those of SubmitSpec |
| JobManager.InitializeCases | xespresso/job_manager.py:71-103 | "ssh_direct" and "remote_slurm" need a hostname and a username (ValueError otherwise) and default the remote directory to `/home/<user>/xespresso_jobs`; "local" builds the local scheduler; every other type reaches the factory, which refuses its keywords |
| JobManager.Ask | xespresso/job_manager.py:116-174 | a request to the scheduler adds exactly one entry to the trace and changes no record |
| JobManager.Record | xespresso/job_manager.py:153-164 | the record is appended to the history and enters `active_jobs` when its id is truthy |
| JobManager.RecordKeepsBooks | xespresso/job_manager.py:153-164 | every recorded job adds exactly one history entry; it is active under its id exactly when the id is truthy, and no other key changes |
| JobManager.MarkFirst | xespresso/job_manager.py:277-282 | only the first history entry with the id takes the final status, then the loop stops |
| JobManager.MarkFirstAt | xespresso/job_manager.py:277-282 | the first entry with the id takes the final status and the completion stamp; every other entry is unchanged |
| JobManager.StatusOf | xespresso/job_manager.py:249-255 | the scheduler's answer when it can check statuses, else an "unknown" status without asking |
| JobManager.WaitFrom | xespresso/job_manager.py:257-294 | the waiting loop polls, stops on COMPLETED, FAILED or CANCELLED, and raises TimeoutError once more than `timeout` seconds have passed, pausing 30 seconds between polls |
| JobManager.WaitOutcomes | xespresso/job_manager.py:257-294 | waiting ends with a terminal status, recorded in the first history entry with the id, which is no longer active; or with TimeoutError, never for a timeout of None or 0, with the records untouched; no cancel is ever sent |
| JobManager.WaitStep | xespresso/job_manager.py:271-294 | one iteration of the waiting loop, unfolded |
| JobManager.Poll | xespresso/job_manager.py:271-294 | the method's state and outcome are those of WaitFrom |
| JobManager.UploadSpec | xespresso/job_manager.py:217-229 | each existing file is put under the scheduler's working directory, in order; a missing one is skipped; a failing put raises |
| JobManager.UploadsOnlyExisting | xespresso/job_manager.py:223-229 | only existing files of the list are ever uploaded |
| JobManager.UploadsAllExisting | xespresso/job_manager.py:223-229 | when no put raises, exactly the existing files are uploaded, in order, one request each |
| JobManager.UploadEach | xespresso/job_manager.py:223-229 | the upload loop follows UploadSpec |
| JobManager.Downloads | xespresso/job_manager.py:231-247 | every file is asked for, into the working directory, and a failure is only logged |
| JobManager.DownloadEach | xespresso/job_manager.py:239-247 | the download loop follows Downloads |
| JobManager.Prepare | xespresso/job_manager.py:142-147 | the job name is set when given and supported, and the inputs are uploaded when the scheduler can |
| JobManager.Conclude | xespresso/job_manager.py:166-174 | the optional wait, and the downloads after a successful one |
| JobManager.Fetch | xespresso/job_manager.py:171-172 | the outputs are fetched only after a successful job |
| JobManager.SubmitRecords | xespresso/job_manager.py:116-174 | a submission whose run call returns adds exactly one history record; one that raises before adds none; without waiting the record is last, "submitted", and active exactly when its id is truthy |
| JobManager.SubmitWaitFinishes | xespresso/job_manager.py:162-174 | a submission that waits and sees its job finish leaves it inactive; the returned record shows the final status exactly when no earlier record has the same id |
| JobManager.ConcludeOutcome | xespresso/job_manager.py:166-174 | the wait after recording ends as SubmitWaitFinishes states |
| JobManager.EspressoCommandCases | xespresso/job_manager.py:196-203 | the command is the executable reading the input and writing the output, prefixed by `mpirun -np <n>` exactly when a non-zero process count is given and the type is not "ssh_direct" |
| JobManager.OutputOfInput | xespresso/job_manager.py:196 | an input `<p>.in` with no other ".in" writes `<p>.out` |
| JobManager.EspressoRequest | xespresso/job_manager.py:176-215 | the request carries the one QE command, the modules defaulting to `["quantum-espresso"]`, the input as upload and the output as download, and keeps the other keywords |
| JobManager.CancelCases | xespresso/job_manager.py:296-310 | at most one request: the scheduler's cancel when it has one, else `scancel <id>` for the Slurm types or `qdel <id>` for PBS; any other type answers False without asking; the records never change |
| JobManager.JobsWith | xespresso/job_manager.py:327-331 | with a status, the entries with that status in history order; without one, the whole history |
| JobManager.JobsWithMembers | xespresso/job_manager.py:327-331 | with a status, exactly the entries with that status are listed |
| JobManager.JobsWithAppend | xespresso/job_manager.py:327-331 | the filter keeps history order: it distributes over appending records |
| JobManager.ListedAfterRecord | xespresso/job_manager.py:153-164 | right after it is recorded, a job is listed last among the "submitted" ones |
| JobManager.Manager.constructor | xespresso/job_manager.py:31-69 | a new manager has the scheduler's job name stamped with the construction time and no job yet |
| JobManager.Manager.WaitForJob | xespresso/job_manager.py:257-294 | the new state and outcome are those of the waiting specification |
| JobManager.Manager.PrepareJob | xespresso/job_manager.py:142-147 | the new state and outcome are those of Prepare |
| JobManager.Manager.RecordJob | xespresso/job_manager.py:162-164 | the new state is Record of the old one |
| JobManager.Manager.ConcludeJob | xespresso/job_manager.py:166-174 | the new state and reply are those of Conclude |
| JobManager.Manager.SubmitJob | xespresso/job_manager.py:116-174 | the new state and reply are those of SubmitSpec |
| JobManager.Manager.SubmitEspressoJob | xespresso/job_manager.py:176-215 | the new state and reply are those of SubmitSpec on EspressoRequest |
| JobManager.Manager.Cancel | xespresso/job_manager.py:296-310 | the new state and result are those of the cancel specification |
| JobManager.Manager.ListJobs | xespresso/job_manager.py:327-331 | the listed jobs are JobsWith of the history |
| Runner.AttemptEvents | xespresso/remote_runner.py:103-153 | one attempt dials first, tries the key before the password, and offers the password only when there is no key or the key attempt failed in a way that allows it; a successful login takes the new client |
| Runner.AttemptLogCounts | xespresso/remote_runner.py:100-153 | every attempt dials once and sleeps once unless it logs in |
| Runner.AttemptsCount | xespresso/remote_runner.py:100-155 | at most `retries` attempts, one dial each; when none logs in, each slept once and the ConnectionError names the host and `retries`; with `retries` at most 0 it fails at once |
| Runner.ConnectReuse | xespresso/remote_runner.py:86-89 | a live connection is reused: the probe is the only request and no new client is made |
| Runner.ConnectReset | xespresso/remote_runner.py:90-98 | a failed probe closes client and channel and clears both, leaving the runner disconnected before reconnecting |
| Runner.ConnectOk | xespresso/remote_runner.py:121-123 | a connect that succeeds leaves the runner connected to the client it returns |
| Runner.SubmitReply | xespresso/remote_runner.py:285-296 | the reply is the stripped stdout, unless stderr holds anything other than text starting with "Loading", which raises RuntimeError |
| Runner.SubmitCommandShape | xespresso/remote_runner.py:274-283 | the command enters `<base>/<subdir>`, sources the profile, loads the modules and ends with the calculator's command or `sbatch .job_file` |
| Runner.FetchAllExactly | xespresso/remote_runner.py:317-325 | when no download raises, exactly the entries ending in ".out", ".err" or ".pwo" are downloaded, in listing order, to the same name in the local directory |
| Runner.LexTrichotomy | xespresso/remote_runner.py:416-417 | tuple comparison is a strict total order |
| Runner.LexPrefix | xespresso/remote_runner.py:416-417 | a tuple is less than any longer tuple it begins |
| Runner.VersionTuple | xespresso/remote_runner.py:416 | the integer tuple of a dotted version, or nothing when some part is not an integer |
| Runner.FirstPwscf | xespresso/remote_runner.py:413-414 | the first output line that mentions "Program PWSCF" |
| Runner.VersionAgainstMinimum | xespresso/remote_runner.py:413-426 | a banner whose version equals the minimum passes; one below it yields False rather than raising |
| Runner.CloseSpec | xespresso/remote_runner.py:483-511 | each close that raises leaves its field set; the runner always ends disconnected |
| Runner.CloseClears | xespresso/remote_runner.py:494-510 | when neither close raises nothing is held afterwards, so a later connect must dial again |
| Runner.AttemptsQuiet | xespresso/remote_runner.py:100-155 | attempts only dial, offer credentials and sleep |
| Runner.ConnectQuiet | xespresso/remote_runner.py:63-155 | connecting only probes, closes, dials, offers credentials and sleeps |
| Runner.SftpNoCopy | xespresso/remote_runner.py:157-170 | getting a channel copies no file |
| Runner.TransferNeverUploads | xespresso/remote_runner.py:222-227 | as written, no upload ever happens and a directory holding a "pseudos" folder always fails |
| Runner.UploadsExactly | xespresso/remote_runner.py:222-244 | every regular file of the listing is uploaded, and nothing else |
| Runner.FixedTransferReachesPseudos | xespresso/remote_runner.py:229-244 | with `os.path.join` at line 223, a "pseudos" folder's files are uploaded |
| Runner.FetchLoop | xespresso/remote_runner.py:320-325 | the download loop's requests, in order, and how it ends |
| Runner.ScanBanner | xespresso/remote_runner.py:413-423 | the line loop stops at the first "Program PWSCF" line, which decides |
| Runner.RemoteRunner.constructor | xespresso/remote_runner.py:30-61 | a new runner holds the configuration, no client, no channel and is disconnected |
| Runner.RemoteRunner.Attempt | xespresso/remote_runner.py:103-153 | one attempt's new state and outcome follow the attempt specification |
| Runner.RemoteRunner.Connect | xespresso/remote_runner.py:63-155 | the new state and the client in use are those of the connect specification |
| Runner.RemoteRunner.Reset | xespresso/remote_runner.py:90-98 | after a failed probe: disconnected, the client closed, the channel closed when open, then both cleared; a close that raises stops there |
| Runner.RemoteRunner.Retry | xespresso/remote_runner.py:100-155 | the attempts from 1 to `retries` end in the state and result of the attempts specification: the first client that logs in, or the ConnectionError |
| Runner.RemoteRunner.SubmitRemoteJob | xespresso/remote_runner.py:249-296 | the new state and reply are those of the submission specification |
| Runner.RemoteRunner.GetSftp | xespresso/remote_runner.py:157-170 | the channel is reused when alive, else the runner connects and opens one |
| Runner.RemoteRunner.RetrieveResults | xespresso/remote_runner.py:298-327 | the listing is walked once, downloading exactly the wanted entries |
| Runner.RemoteRunner.CheckQeVersion | xespresso/remote_runner.py:386-426 | the verdict is that of the first "Program PWSCF" line against the minimum, False on any failure |
| Runner.RemoteRunner.RunBanner | xespresso/remote_runner.py:407-426 | once connected, `pw.x < /dev/null` is run after the module command, and the verdict is that of its stdout followed by its stderr; a failing command gives False |
| Runner.RemoteRunner.Close | xespresso/remote_runner.py:483-511 | the new state is CloseSpec of the old one |
| Runner.RemoteRunner.TransferInputs | xespresso/remote_runner.py:192-247 | as written: the directory is made, and any non-empty listing fails at its first entry |
| Machines.ValidateCases | xespresso/machines/machine.py:121-135 | validation accepts exactly the valid machines and reports the first broken rule: an execution other than "local"/"remote", a remote machine without host or username, or an auth method other than "key" |
| Machines.NewValid | xespresso/machines/machine.py:57-135 | a machine the constructor returns is valid, hence local or remote and never both |
| Machines.BindFields | xespresso/machines/machine.py:57-116 | each attribute is the given keyword when present, else its default; `modules`, `resources`, `prepend`, `postpend` and `auth` fall back when falsy; unnamed keywords become the extras |
| Machines.FromDictName | xespresso/machines/machine.py:148-163 | the machine's name is the config's "name" entry when it has one, else the name argument |
| Machines.UpdateGet | xespresso/machines/machine.py:220 | after `update`, a key of the extras answers with the extras' last value for it, any other key as before |
| Machines.UpdateAppends | xespresso/machines/machine.py:220 | extras with fresh, distinct keys are appended in order |
| Machines.BaseDictKeys | xespresso/machines/machine.py:199-217 | the base dict has the eleven common keys, and host, username, auth and port exactly for a remote machine |
| Machines.DictOfGet | xespresso/machines/machine.py:192-222 | a lookup in `to_dict` is answered by the extras when they hold the key, else by the base dict |
| Machines.DictOfAppends | xespresso/machines/machine.py:192-222 | a bound machine serialises to its base dict followed by its extras |
| Machines.ParamLookup | xespresso/machines/machine.py:192-222 | looking up a constructor parameter in the serialised dict reaches the base dict, never an extra |
| Machines.BaseLookups | xespresso/machines/machine.py:199-211 | the base dict answers each common parameter with the machine's attribute |
| Machines.RemoteLookups | xespresso/machines/machine.py:213-217 | the base dict holds host, username, auth and port exactly for a remote machine |
| Machines.BindSerialised | xespresso/machines/machine.py:57-116 | binding a dict that answers every parameter as the machine does rebuilds that machine |
| Machines.SerialisedParts | xespresso/machines/machine.py:192-222 | the serialised dict answers every parameter from its base part and keeps the extras unchanged |
| Machines.ExtrasOfParams | xespresso/machines/machine.py:116 | a dict holding only constructor parameters leaves no extras |
| Machines.RoundTrip | xespresso/machines/machine.py:148-222 | `from_dict(name, m.to_dict())` rebuilds every attribute of a valid machine, except that a local machine's host, username, auth and port return to their defaults |
| Machines.RoundTripFields | xespresso/machines/machine.py:148-222 | name, execution, scheduler, workdir and the launch settings survive the round trip on every machine |
| Machines.NormalizeCases | xespresso/machines/machine.py:247-251 | a list of strings becomes their newline join, a list holding a non-string raises TypeError naming the first one, a falsy value becomes "", anything else is kept |
| Machines.QueueOk | xespresso/machines/machine.py:237-277 | for a valid machine, `to_queue` fails only when a script block is a list holding a non-string |
| Machines.QueueScripts | xespresso/machines/machine.py:253-263 | the queue carries the normalised prepend and postpend blocks and the machine's execution, scheduler, modules, resources, launcher and nprocs |
| Machines.QueueLocal | xespresso/machines/machine.py:265-266 | a local queue has `local_dir = workdir` and none of the remote keys |
| Machines.QueueRemote | xespresso/machines/machine.py:267-275 | a remote queue has host, user and `remote_dir = workdir`, and `remote_auth` with the auth's method, key and port or the defaults "key", "~/.ssh/id_rsa" and the machine's port; it has no `local_dir` |
| Machines.Machine.Assign | xespresso/machines/machine.py:97-116 | the object's attributes are the bound settings |
| Machines.Machine.ToDict | xespresso/machines/machine.py:192-222 | the loop over the extras computes `to_dict` of the object's settings |
| Machines.Create | xespresso/machines/machine.py:57-119 | the constructor returns an object with the bound settings exactly when binding and validation succeed, and the error otherwise |
| ConfigStore.Document | xespresso/machines/config/loader.py:96-98 | the parsed document of an existing, well-formed file; None exactly where opening or parsing would raise |
| ConfigStore.Listing | xespresso/machines/config/loader.py:258-260 | the entries of a listed directory; None where `os.listdir` raises |
| MachineLoader.ExtRoot | xespresso/machines/machine.py:188 | `splitext(...)[0]` is a prefix of the base name: the text before its last ".", unless only dots precede that dot |
| MachineLoader.ExtRootJson | xespresso/machines/machine.py:188 | a name with some character other than "." loses exactly its ".json" |
| MachineLoader.FromFile | xespresso/machines/machine.py:166-190 | loading succeeds exactly when the expanded path holds a JSON dict that `from_dict` accepts under the file's stem, and then gives that machine |
| MachineLoader.IndividualFile | xespresso/machines/config/loader.py:59-79 | a machine comes back only from an existing `<dir>/<name>.json` that loads; a missing file or any failure gives None |
| MachineLoader.MachinesJson | xespresso/machines/config/loader.py:82-109 | a machine comes back exactly when the name is a string key of the "machines" dict of machines.json whose entry is a dict `from_dict` accepts |
| MachineLoader.DefaultIn | xespresso/machines/config/loader.py:128-137 | a default is found exactly when the file holds a dict whose "default" entry is truthy, and is that entry |
| MachineLoader.DefaultName | xespresso/machines/config/loader.py:112-152 | the default machine is machines.json's truthy "default" when present, else default.json's; it is always truthy |
| MachineLoader.DirNamesMembers | xespresso/machines/config/loader.py:258-264 | a name is listed from the directory exactly when some entry ending in ".json", other than "default.json", has it as stem |
| MachineLoader.MachineListMembers | xespresso/machines/config/loader.py:240-278 | the list is strictly increasing (so without duplicates) and holds exactly the directory's machine files and the keys of machines.json's "machines" |
| MachineLoader.ListMachines | xespresso/machines/config/loader.py:255-278 | the two loops and `sorted(list(machines))` compute that list |
| MachineLoader.Find | xespresso/machines/config/loader.py:193-198 | the machine's own file is tried first, machines.json only when it gives nothing |
| MachineLoader.DefaultFromMachinesJson | xespresso/machines/config/loader.py:187-190 | asking for "local_desktop" loads machines.json's truthy default instead, whatever default.json says |
| MachineLoader.DefaultFromDefaultJson | xespresso/machines/config/loader.py:187-190 | without one, asking for "local_desktop" loads default.json's truthy default |
| MachineLoader.NoDefaultLookup | xespresso/machines/config/loader.py:187-198 | any other name, and "local_desktop" without a configured default, is looked up as given |
| MachineLoader.IndividualFileWins | xespresso/machines/config/loader.py:193-238 | a machine found in its own file is returned as the object, or as its queue (or the queue's error) |
| MachineLoader.MachinesJsonFallback | xespresso/machines/config/loader.py:196-198 | without its own file, the machines.json entry is delivered |
| MachineLoader.NothingAnywhere | xespresso/machines/config/loader.py:201-216 | with no machine anywhere the loader warns, naming both places, and returns None without prompting |
| MachineLoader.RetryPrompt | xespresso/machines/config/loader.py:218-232 | a non-empty stripped answer that is listed is loaded as if asked for; any other answer aborts with None; no answer left raises at `input` |
| MachineLoader.IndividualFileName | xespresso/machines/config/loader.py:70-73 | a machine read from its own file is named by its "name" entry, else by the file's stem, which is the name asked for |
| MachineLoader.FileStem | xespresso/machines/config/loader.py:70 | the stem of `<dir>/<name>.json` is the name again |
| StrOrder.SortedSet | xespresso/machines/config/loader.py:278 | `sorted(set(ys))` is strictly increasing and holds exactly the elements of `ys` |
| StrOrder.SortedUnique | xespresso/machines/config/loader.py:278 | two strictly increasing sequences with the same elements are equal, so the sorted list is determined by the set |
| StrOrder.LessTotal | xespresso/machines/config/loader.py:278 | Python's string order is strict and total: exactly one of `a < b`, `a == b`, `b < a` |
| QueueLoaders.Script | xespresso/utils/machines/config/loader.py:34-41 | the script blocks are copied as given (default []) by the oldest loader and otherwise normalised: a list is joined with newlines, a falsy value becomes "" |
| QueueLoaders.RemoteValues | xespresso/utils/machines/config/loader.py:107-122 | a remote block yields its host, username, authentication entry and workdir, failing on the first of them that is missing or wrong |
| QueueLoaders.Leading | xespresso/utils/machines/machine_config.py:78-88 | the queue opens with the scheduler entries, each the block's value or the loader's default, the script blocks built before anything else is looked up |
| QueueLoaders.QueueOf | xespresso/utils/machines/config/loader.py:91-125 | a machine block becomes its queue dictionary, or the first exception raised in evaluation order |
| QueueLoaders.ListMachines | xespresso/utils/machines/config/loader.py:127-145 | the machine names are the keys of the "machines" table in file order, and [] when the file is missing or unreadable |
| QueueLoaders.EmptyBlockDefaults | xespresso/utils/machines/config/loader.py:93-105 | a block with no entries still gives a queue: local execution in "./" through the direct scheduler |
| QueueLoaders.EmptyScripts | xespresso/utils/machines/config/loader.py:99-100 | absent script blocks are "" for the normalising loaders and [] for the oldest one |
| QueueLoaders.QueueParts | xespresso/utils/machines/config/loader.py:93-125 | the queue is the leading entries followed by the entries the execution mode adds, and fails exactly when one of the two does |
| QueueLoaders.LeadingEntries | xespresso/utils/machines/machine_config.py:78-88 | the leading entries are the block's values or the defaults "local", "direct", False, [], {} (and the launcher and process count for the launching loader) |
| QueueLoaders.LeadingKeys | xespresso/machines/machine_config.py:69-77 | every leading entry is named by the loader's key list, in that order |
| QueueLoaders.LocalEntries | xespresso/utils/machines/config/loader.py:103-104 | a local machine adds only `local_dir`, the block's workdir or "./" |
| QueueLoaders.RemoteEntries | xespresso/utils/machines/config/loader.py:107-122 | a remote machine adds `remote_host`, `remote_user`, `remote_auth` and `remote_dir`, in that order, from host, username, auth and workdir |
| QueueLoaders.OtherEntries | xespresso/utils/machines/config/loader.py:103-107 | any other execution mode adds nothing after the leading entries |
| QueueLoaders.TrailingKeys | xespresso/utils/machines/config/loader.py:103-122 | every entry after the leading ones is `local_dir` or one of the four remote entries |
| QueueLoaders.RemoteValuesOk | xespresso/utils/machines/config/loader.py:108-122 | when the remote part succeeds its values are the block's host, username, authentication entry and workdir |
| QueueLoaders.RemoteRequired | xespresso/utils/machines/config/loader.py:108-122 | a remote block lacking host, username or workdir raises KeyError naming the first one missing |
| QueueLoaders.NoLauncherUnlessLaunching | xespresso/utils/machines/config/old/loader.py:75-85 | only the launching loaders put a `launcher` or `nprocs` entry into the queue |
| QueueLoaders.AuthCases | xespresso/machines/machine_config.py:86-99 | the oldest loader accepts "key" (with the key path) or "password" (with the password); the others accept only "key" and add the port, default 22; any other method raises ValueError with the loader's own message |
| QueueLoaders.StrictCases | xespresso/machines/machine_config.py:51-103 | a missing file warns and gives None; a document without "machines", or without the name in it, raises KeyError; otherwise the named block's queue is returned |
| QueueLoaders.PromptCases | xespresso/utils/machines/config/loader.py:56-125 | a missing file warns and gives None; an unreadable one gives None; a listed name is loaded; otherwise a stripped, non-empty listed answer is loaded, any other answer gives None, and no answer left raises at `input` |
| Migration.StemOf | xespresso/machines/config/migrate.py:241 | a ".json" file name is the file name of the stem it is reported under |
| Migration.Save | xespresso/machines/config/migrate.py:149-150 | writing a machine file fails exactly for a directory or a protected path; otherwise only that file changes and it reads back as the document written |
| Migration.Delete | xespresso/machines/config/migrate.py:240 | removing a file fails exactly for a directory or a protected path; otherwise only that file disappears |
| Migration.MakeDirs | xespresso/machines/config/migrate.py:130 | creating the output directory succeeds exactly when it exists already or nothing else occupies the path, and leaves every file as it was |
| Migration.RunMigration | xespresso/machines/config/migrate.py:137-159 | the loop over the blocks to migrate computes the report and file system of the one-machine-at-a-time specification |
| Migration.Migrate | xespresso/machines/config/migrate.py:41-187 | `migrate_machines` computes its specification: report, raised exception and file system afterwards |
| Migration.JsonFiles | xespresso/machines/config/migrate.py:227 | the files chosen from a listing are exactly its entries ending in ".json" |
| Migration.Rollback | xespresso/machines/config/migrate.py:190-258 | `rollback_migration` computes its specification: report, raised exception and file system afterwards |
| Migration.MissingSource | xespresso/machines/config/migrate.py:85-90 | a missing machines.json is reported under "file_not_found", unsuccessful, and nothing is written |
| Migration.UnreadableSource | xespresso/machines/config/migrate.py:93-102 | an unreadable machines.json is reported under "load_error" with the exception's text, and nothing is written |
| Migration.NoMachines | xespresso/machines/config/migrate.py:105-117 | a config whose "machines" entry is missing or empty is reported under "no_machines", with the default already recorded, and nothing is written |
| Migration.SuccessRule | xespresso/machines/config/migrate.py:179-180 | the report succeeds exactly when something was migrated, or something was skipped and nothing failed |
| Migration.SelectedEntries | xespresso/machines/config/migrate.py:120-128 | with names given, exactly the named blocks the table has are chosen, with their values |
| Migration.LoopFrame | xespresso/machines/config/migrate.py:137-159 | the loop leaves the directories, the protected paths and the home directory as they were |
| Migration.LoopPartition | xespresso/machines/config/migrate.py:137-159 | every block to migrate is appended to exactly one of migrated, skipped and failed, once per occurrence |
| Migration.StepTally | xespresso/machines/config/migrate.py:141-159 | one machine adds its name to exactly one list, and a failure records its message |
| Migration.FailuresExplained | xespresso/machines/config/migrate.py:155-159 | every failed machine has its message under its name in the errors |
| Migration.KeepsExisting | xespresso/machines/config/migrate.py:141-146 | without overwrite, no file that existed before the loop is changed by it |
| Migration.StepOutcome | xespresso/machines/config/migrate.py:138-159 | an existing file without overwrite is skipped and left alone; otherwise the file is written and reads back as the block, or the write fails, the machine is listed as failed and nothing changes |
| Migration.DefaultRecorded | xespresso/machines/config/migrate.py:161-177 | a configured default is reported and, once the blocks are migrated, default.json names it, unless that path is a directory or protected |
| Migration.DefaultReported | xespresso/machines/config/migrate.py:107-109 | a default found in the config is in the report on every path past the load |
| Migration.ExactlyOne | xespresso/machines/config/migrate.py:137-159 | with distinct machine names, each block lands in exactly one of migrated, skipped and failed, exactly once |
| Migration.RollbackMissingDir | xespresso/machines/config/migrate.py:218-221 | a missing output directory gives an unsuccessful report and removes nothing |
| Migration.RemoveFrame | xespresso/machines/config/migrate.py:231-253 | the rollback loop only removes files: every file left was there before, with the same contents |
| Migration.RemovesTargets | xespresso/machines/config/migrate.py:231-245 | every target that could be removed is gone afterwards |
| Migration.RemovedNames | xespresso/machines/config/migrate.py:234-245 | both ways: every name reported as removed is a ".json" target, with ".json" dropped, whose file could be removed; and every target whose file could be removed is reported, under its own stem or that of another target joining to the same path |
| Migration.RemovedEach | xespresso/machines/config/migrate.py:234-245 | when no two targets join to the same path, a target's stem is reported exactly when its file could be removed |
| Migration.SamePathReportedOnce | xespresso/machines/config/migrate.py:231-245 | targets "a.json" and "/d/a.json" in "/d" both join to "/d/a.json": the file is removed and reported once, as "a", and "/d/a" is never reported |
| Migration.RemovedPrefix | xespresso/machines/config/migrate.py:231-253 | the names reported before the loop stay, in order, at the front of the report |
| Migration.RemovedGrows | xespresso/machines/config/migrate.py:231-253 | the loop never drops a name already reported as removed |
| Migration.RemovesSome | xespresso/machines/config/migrate.py:231-253 | something is removed exactly when some target is a removable file |
| Migration.RollbackSuccess | xespresso/machines/config/migrate.py:255-256 | the rollback succeeds exactly when one of its target files could be removed |
| Codes.Kept | xespresso/codes/config.py:30-32 | the entries of a dict literal whose values pass the filter, in order |
| Codes.KeptGet | xespresso/codes/config.py:30-32 | a key of a literal with distinct keys is found with its value when kept, and is absent otherwise |
| Codes.CodeToDict | xespresso/codes/config.py:30-32 | the code's fields in declaration order, those holding None left out |
| Codes.CodeFromDict | xespresso/codes/config.py:34-37 | a code from its keyword arguments; an unknown key or a missing name or path raises TypeError |
| Codes.CodeRoundTrip | xespresso/codes/config.py:30-37 | reading back `to_dict` of a code gives the code whenever its path is not None |
| Codes.CodesToDict | xespresso/codes/config.py:72 | each code of the table through `Code.to_dict`, under the same name |
| Codes.CodesFrom | xespresso/codes/config.py:88 | each entry of the codes table read through `Code.from_dict`; the first failure is raised |
| Codes.AfterFromDict | xespresso/codes/config.py:87 | the caller's dict loses its "codes" entry |
| Codes.CodesRoundTrip | xespresso/codes/config.py:72-88 | reading back the codes table of `to_dict` gives the codes |
| Codes.CodesFromEach | xespresso/codes/config.py:88 | a table whose every entry reads back as the code under the same name reads back as those codes |
| Codes.ToDictShape | xespresso/codes/config.py:68-82 | `to_dict` always holds machine_name and codes, and each optional field exactly when it is truthy |
| Codes.SettingsRoundTrip | xespresso/codes/config.py:68-89 | `from_dict(to_dict())` is the configuration with its falsy optional fields set to None |
| Codes.PopCodesOfToDict | xespresso/codes/config.py:72-87 | the codes table popped from `to_dict` is the one `to_dict` wrote |
| Codes.ReadBack | xespresso/codes/config.py:84-89 | `from_dict` of a dict whose codes table and remaining entries read back gives that configuration |
| Codes.RestValues | xespresso/codes/config.py:70-87 | the entries left once "codes" is popped from `to_dict` |
| Codes.RestAccepted | xespresso/codes/config.py:85-89 | once "codes" is popped, every key left in `to_dict` is an accepted keyword argument |
| Codes.KeyOfToDict | xespresso/codes/config.py:68-82 | every key of `to_dict` other than "codes" is an accepted keyword argument |
| Codes.CodesConfig.constructor | xespresso/codes/config.py:40-58 | a configuration with the given machine name, codes and optional fields |
| Codes.CodesConfig.GetCode | xespresso/codes/config.py:64-66 | the code stored under the name, if any |
| Codes.CodesConfig.HasCode | xespresso/codes/config.py:107-109 | true exactly when a code is stored under the name |
| Codes.CodesConfig.ListCodes | xespresso/codes/config.py:103-105 | the names in insertion order |
| Codes.CodesConfig.AddCode | xespresso/codes/config.py:60-62 | the code is stored under its name, replacing one of the same name in place; every other name keeps its code |
| Codes.CodesConfig.ToDict | xespresso/codes/config.py:68-82 | the dict is the settings' `to_dict` |
| Codes.FromDict | xespresso/codes/config.py:84-89 | a new configuration or the exception; the caller's dict loses "codes" either way |
| CodesManager.Printed | xespresso/codes/manager.py:107-112 | the stripped output of a command that exited with status 0, when it is not empty |
| CodesManager.SearchPathsFromPath | xespresso/codes/manager.py:72-75 | with neither paths nor a prefix, the search paths joined back with ":" are PATH |
| CodesManager.PrefixFirst | xespresso/codes/manager.py:67-70 | a prefix is always the first search path, followed by the given ones in order |
| CodesManager.SearchPaths | xespresso/codes/manager.py:66-75 | a truthy prefix is inserted at the front of the caller's list when it is not empty (an empty or missing list is replaced by a new one); without paths, PATH split on ":" |
| CodesManager.LoadLines | xespresso/codes/manager.py:80 | the load line of each module, in order |
| CodesManager.ModuleCommandIsPrefix | xespresso/codes/manager.py:78-81 | the module command is one "module load m && " per module, in order |
| CodesManager.ManualFirst | xespresso/codes/manager.py:116-122 | the manual search returns the first search path whose join with the executable exists and is executable, and nothing when there is none |
| CodesManager.RemoteFirst | xespresso/codes/manager.py:142-153 | the remote search returns the output of the first path test that prints something, after every earlier test ran quietly |
| CodesManager.DetectLocal | xespresso/codes/manager.py:101-122 | the `which` answer when it names an existing file, else the manual search |
| CodesManager.DetectRemote | xespresso/codes/manager.py:125-153 | the remote `which` answer when it printed something, else one remote test per search path |
| CodesManager.DetectedGet | xespresso/codes/manager.py:84-96 | a name that was found maps to its path; every other name keeps what the accumulator held |
| CodesManager.DetectedExactly | xespresso/codes/manager.py:84-98 | the detected table maps exactly the common codes whose "<name>.x" was found to the path found |
| CodesManager.DetectCodes | xespresso/codes/manager.py:45-98 | the search paths, the module command, then one detection per common code, locally or over SSH |
| CodesManager.DetectAll | xespresso/codes/manager.py:84-96 | the loop over the common codes follows the detection of each |
| CodesManager.FindOne | xespresso/codes/manager.py:87-93 | one detection, over SSH when a connection is given, locally otherwise |
| CodesManager.VersionAtExactly | xespresso/codes/manager.py:181 | a match is found at a position exactly when digits-dot-digits text starts there, and it is taken greedily |
| CodesManager.VersionAtShape | xespresso/codes/manager.py:181 | a match found at a position is version text followed by no digit |
| CodesManager.VersionHere | xespresso/codes/manager.py:181 | version text starting at a position is found there |
| CodesManager.NoneBeforeStart | xespresso/codes/manager.py:181 | no match starts before the first match position |
| CodesManager.VersionLeftmost | xespresso/codes/manager.py:181-183 | the version found is the leftmost digits-dot-digits text, taken greedily; none found means the text holds none |
| CodesManager.NoVersionAnywhere | xespresso/codes/manager.py:181-187 | without a match no position starts version text |
| CodesManager.VersionNeedsOutput | xespresso/codes/manager.py:156-187 | a version is read only from a command that succeeded or wrote to stderr, from stdout followed by stderr |
| CodesManager.CodesOfDetected | xespresso/codes/manager.py:219-225 | each detected entry becomes a code with its name, path and the version |
| CodesManager.CreatedExactly | xespresso/codes/manager.py:190-227 | with distinct detected names, the codes table has them as keys, in order, each with the detected path and the version |
| CodesManager.CreateConfig | xespresso/codes/manager.py:190-227 | a configuration without codes, then `add_code` once per detected entry |
| CodesManager.SavedAt | xespresso/codes/manager.py:230-252 | the file is `output_dir/<machine_name>.json` or the given name, and reads back as the configuration's `to_dict`; nothing else changes |
| CodesManager.SaveFails | xespresso/codes/manager.py:244-250 | saving under the machine's name succeeds exactly when the directory and the file can be written |
| CodesManager.SaveThenLoad | xespresso/codes/manager.py:230-276 | saving without a file name and loading back by machine name gives the configuration with falsy optional fields as None, when every code has a path |
| CodesManager.LoadReads | xespresso/codes/manager.py:255-276 | a file that reads as a dict `from_dict` accepts loads as that configuration; a missing or unreadable one gives None |
| CodesManager.LoadConfigObject | xespresso/codes/manager.py:255-276 | a new configuration object, or none |
| CodesManager.QeCodesCases | xespresso/codes/manager.py:279-330 | without detected codes the configuration holds only the machine name; otherwise its codes are the detected ones, each with the version pw.x printed (None without pw) |
| CodesManager.DetectQeCodes | xespresso/codes/manager.py:279-330 | detection, the version from pw.x, then `create_config` |
| CodesManager.CreateCodesConfig | xespresso/codes/manager.py:333-367 | `detect_qe_codes`, then, when asked and when codes were found, the save under the machine's name; a failed save raises |
| Hubbard.UKeyShape | xespresso/hubbard.py:49-62 | `add_u` stores under "species-orbital" exactly when an orbital is given and the format is not forced old; otherwise under the species |
| Hubbard.AddUStores | xespresso/hubbard.py:49-62 | after `add_u` the key holds the new value and every other key keeps its own |
| Hubbard.AddUFormat | xespresso/hubbard.py:49-62 | with the format undecided, after a U value for a species without a dash the new format is chosen exactly when an orbital was given |
| Hubbard.AddVFormat | xespresso/hubbard.py:64-85 | with the format undecided, after a V value whose first species has no dash the new format is chosen exactly when both orbitals were given |
| Hubbard.CardShape | xespresso/hubbard.py:175-195 | the card is one header line, one "  U key value" line per U entry in insertion order, then one "  V a b i j value" line per V entry: 1 + \|U\| + \|V\| lines |
| Hubbard.PutAllGet | xespresso/hubbard.py:134-173 | a parameter name written several times keeps the last value written; an unwritten name keeps its old value |
| Hubbard.SectionLetters | xespresso/hubbard.py:134-173 | names from different sections of the old form never coincide |
| Hubbard.PutAllFront | xespresso/hubbard.py:134-173 | a name no later section writes is present exactly when an earlier section writes it |
| Hubbard.OldFormatUSection | xespresso/hubbard.py:137-142 | a `Hubbard_U(...)` name can only come from the U section |
| Hubbard.OldFormatU | xespresso/hubbard.py:137-142 | the old form has a `Hubbard_U(i)` entry exactly for the indices of the U keys whose species, orbital suffix removed, is listed |
| Hubbard.OldFormatV | xespresso/hubbard.py:145-153 | every V entry appears as `Hubbard_V(i,j,1)`, whatever its species labels |
| Hubbard.OldFormatJ | xespresso/hubbard.py:156-159 | with the intended reading (OldFormat, not what `to_old_format_dict` does), every J value whose species is listed appears as `Hubbard_J(component,index)`; a bare species key uses component 1 |
| Hubbard.PlainJKeyAsWritten | xespresso/hubbard.py:156-159 | as written, the J values `add_j` stores without `ityp` break the old form: "Fe1" makes it raise and "Fe" is read as species "F", so its entry vanishes |
| Hubbard.OnlyJ | xespresso/hubbard.py:156-173 | a configuration holding only J values writes only their entries |
| Hubbard.OneJTable | xespresso/hubbard.py:87-93 | the J table after one `add_j` without `ityp` on a fresh configuration |
| Hubbard.RaisedJPairs | xespresso/hubbard.py:156 | "Fe1" has three characters, so unpacking it into two raises ValueError |
| Hubbard.DroppedJPairs | xespresso/hubbard.py:156-157 | "Fe" unpacks as species "F", which is not listed, so the entry is dropped |
| Hubbard.VersionFlagOf | xespresso/hubbard.py:210-216 | a version "X.Y" with numeric fields chooses the new format exactly when X >= 7; a lone "X" chooses nothing |
| Hubbard.FormatPrecedence | xespresso/hubbard.py:210-226 | the format flag's precedence: a `hubbard` dict, then `hubbard_format`, then the version |
| Hubbard.VKeyOf | xespresso/hubbard.py:281-285 | a "(na,nb,k)" key gives (na, nb); the third index is parsed and dropped |
| Hubbard.VKeyTooShort | xespresso/hubbard.py:283 | a key with only two fields is ignored |
| Hubbard.HubbardVEntries | xespresso/hubbard.py:278-287 | `hubbard_v` appends, after the existing V entries, an unlabelled entry for exactly the keys that parse, keeping each value |
| Hubbard.CardUKey | xespresso/hubbard.py:236-242 | a `u` entry "species-orbital" with one dash and a non-empty orbital is stored under exactly that key |
| Hubbard.BuildHubbardCases | xespresso/hubbard.py:292-325 | no lines without Hubbard markers or when the old format applies; otherwise the card of the configuration read from the input |
| Hubbard.PutAllStep | xespresso/hubbard.py:134-173 | writing a section one entry at a time: an entry yields at most one name |
| Hubbard.HubbardConfig.constructor | xespresso/hubbard.py:30-47 | projector "atomic" by default and every table empty |
| Hubbard.HubbardConfig.AddU | xespresso/hubbard.py:49-62 | the value goes under the key UKeyShape describes, overwriting an earlier one |
| Hubbard.HubbardConfig.AddV | xespresso/hubbard.py:64-85 | one entry is appended, with orbital-qualified labels when both orbitals are given |
| Hubbard.HubbardConfig.AddJ | xespresso/hubbard.py:87-93 | keyed by (species, ityp) for a non-zero `ityp`, else by the species alone |
| Hubbard.HubbardConfig.AddAlpha | xespresso/hubbard.py:95-97 | the alpha value is stored under the species |
| Hubbard.HubbardConfig.AddBeta | xespresso/hubbard.py:99-101 | the beta value is stored under the species |
| Hubbard.HubbardConfig.ShouldUseNewFormat | xespresso/hubbard.py:103-122 | the explicit flag, else true exactly when some U key or the first label of some V entry contains a dash |
| Hubbard.HubbardConfig.ToNewFormatCard | xespresso/hubbard.py:175-195 | the card lines, as CardShape states |
| Hubbard.HubbardConfig.ToOldFormatDict | xespresso/hubbard.py:124-173 | the U, V, J, alpha and beta entries in that order, every J key unpacked as a pair: None (ValueError) for a bare species key whose length is not 2, its two characters as species and component when it is |
| Hubbard.OldFormatAgrees | xespresso/hubbard.py:156-159 | when every J key carries its `ityp`, the old form as written is the intended one; when it raises, some J key is a bare species |
| Hubbard.JPairsAsWrittenRaises | xespresso/hubbard.py:156 | once one J key fails to unpack, the whole conversion raises, whatever keys follow |
| Hubbard.WriteJAsWritten | xespresso/hubbard.py:156-159 | the J loop writes each unpacked key's entry in turn and stops with None at the first key that does not unpack |
| Hubbard.HubbardConfig.LoadSpecOrbs | xespresso/hubbard.py:236-238 | the `u` entries of the `hubbard` dict, each split at its dashes |
| Hubbard.HubbardConfig.LoadVSpecs | xespresso/hubbard.py:245-255 | the `v` entries, with their defaults; false at the first one that is not a dict |
| Hubbard.HubbardConfig.LoadCard | xespresso/hubbard.py:229-255 | projector, then `u`, then `v`; false where Python raises |
| Hubbard.HubbardConfig.LoadUTable | xespresso/hubbard.py:261-263 | each species of a Hubbard_U table becomes a U key |
| Hubbard.HubbardConfig.LoadJTable | xespresso/hubbard.py:265-267 | each species of a Hubbard_J table becomes a bare J key |
| Hubbard.HubbardConfig.LoadNtyp | xespresso/hubbard.py:258-275 | the INPUT_NTYP tables in turn; false where Python raises |
| Hubbard.HubbardConfig.LoadHubbardV | xespresso/hubbard.py:278-287 | the `hubbard_v` entries as HubbardVEntries states; false when it is not a dict |
| Hubbard.HubbardConfig.FromInputData | xespresso/hubbard.py:197-289 | a configuration with the flag of FormatPrecedence and the tables loaded in source order; null where Python raises |
| Hubbard.BuildHubbardStr | xespresso/hubbard.py:292-325 | the HUBBARD card lines when the new format applies, else no lines; None where it raises |
| Consistency.AuthOfTests | tools/verify_machine_consistency.py:61-76 | code that tests the method against "password" supports password; code that compares it with "key" either way supports key |
| Consistency.AuthNeedsMethod | tools/verify_machine_consistency.py:61-76 | code that never mentions `method ` supports neither method |
| Consistency.Excerpt | tools/verify_machine_consistency.py:98 | the first 200 characters and "..." for a long docstring, else all of it |
| Consistency.DocPasswordIff | tools/verify_machine_consistency.py:88-96 | a docstring supports password authentication exactly when it mentions "password" and "authentication" and never "no longer supported", in any letter case |
| Consistency.DeprecationWins | tools/verify_machine_consistency.py:88-96 | a docstring announcing that password support is gone never counts as supporting it |
| Consistency.InconsistencyOrder | tools/verify_machine_consistency.py:150-216 | at most one entry per kind, in the order scheduler, auth, docstring |
| Consistency.SchedulerDefaultsKeys | tools/verify_machine_consistency.py:159-162 | a file's default is recorded exactly when it has a truthy scheduler default |
| Consistency.SchedulerDefaultsValues | tools/verify_machine_consistency.py:159-162 | with one entry per file, the recorded defaults are exactly the truthy scheduler defaults of the files |
| Consistency.DisagreeIff | tools/verify_machine_consistency.py:164 | two recorded values differ exactly when their set has more than one element |
| Consistency.SchedulerReported | tools/verify_machine_consistency.py:157-176 | the scheduler inconsistency is reported exactly when two files have different truthy scheduler defaults |
| Consistency.PasswordFilesMember | tools/verify_machine_consistency.py:178-185 | the auth details list exactly the files whose code supports password |
| Consistency.DocPasswordFilesMember | tools/verify_machine_consistency.py:198-202 | the docstring details list exactly the files whose docstring claims password |
| Consistency.PasswordFilesEmpty | tools/verify_machine_consistency.py:185-186 | the auth list is empty exactly when no file supports password |
| Consistency.CollectSchedulerDefaults | tools/verify_machine_consistency.py:159-162 | the loop records the defaults as SchedulerDefaultsValues states |
| Consistency.CollectPasswordFiles | tools/verify_machine_consistency.py:178-185 | the loop collects the files PasswordFilesMember describes |
| Consistency.CollectDocPasswordFiles | tools/verify_machine_consistency.py:198-202 | the loop collects the files DocPasswordFilesMember describes |
| Consistency.FindInconsistencies | tools/verify_machine_consistency.py:150-216 | the three checks in turn, each adding at most one entry |
| Consistency.ExitZeroIff | tools/verify_machine_consistency.py:328-369 | the tool exits with 0 exactly when the loader tests pass, no two files disagree on the scheduler default, and no file's code or docstring supports password authentication |

## Left out

- Logging, `print` and debug messages: they change no state the model keeps.
- The transport, subprocesses and the clock: they become parameters (a file store, responses, the environment variables and HOME).
- Directories in the file store: a file path names text and nothing else. So `os.path.exists` on a directory, and the IsADirectoryError that follows, are not modelled.
- Integer file descriptors passed as paths to `open`: every path is a string.
- The SlurmScheduler constructor takes keyword arguments only, so its positional construction in `get_scheduler` raises TypeError. The model represents that with a constant message.
- `schedulers/base.py` holds only an abstract base class. The fields `bash.py` uses come from `schedulers/old/base.py`.
- Floating point: numeric values of parameters, Hubbard values and tolerances are kept as opaque text. `compare_value`'s numeric tolerance branch is not modelled.
- SlurmWait.Deadline: a float `job_timeout` is read as the exact decimal its JSON text denotes, not rounded to a binary double, and its `str()` is taken to be that text (so "1e3" is shown as written, not as "1000.0"). Literals beyond the float range, which Python reads as infinity, are not modelled.
- Python integers in text: `int()` accepts digits with an optional sign and surrounding whitespace. Underscores between digits are not modelled.
- Whitespace is the ASCII whitespace set, and digits are ASCII digits: `isdigit()`, `int()` and the regular expressions' `\d` accept only 0-9 here, where Python also accepts other Unicode decimal digits. Unicode whitespace and non-ASCII letter case (`lower()`) are not modelled.
- Interactive prompts are parameters: the restart question, the direct-execution confirmation and the loader's retry prompt. The interactive `create_machine` functions of both machine_config modules are not modelled.
- `utils/auth.py` `generate_ssh_key`, `install_ssh_key` and `test_ssh_connection` only run external programs, so they are not modelled.
- `ssh_direct.py`'s `submit_job`, `close` and context-manager methods are not modelled beyond the session requests that the modelled operations make.
- `remote_job_manager.py` `test_connection` and `__del__` are not modelled. They only open or close the connection and print.
- `job_manager.py` `connect`, `disconnect`, `get_job_output`, `cleanup`, `save_state`, `load_state`, the context-manager methods and `submit_remote_job` are not modelled. They are thin wrappers over the scheduler object or over JSON files.
- `remote_runner.py` `run_command`, `test_connection`, `check_quantum_espresso`, `list_available_modules` and `list_remote_files` are not modelled. They pass a command to the connection and print its output.
- `codes/manager.py` `load_codes_config` and `add_version_to_config` use version APIs that `codes/config.py` does not have, so they are not modelled. `CodesManager.__init__` only stores its argument.
- `CodesConfig.to_json` and `from_json` are modelled only through `save_config` and `load_config`, which read and write the file store.
- Waiting loops take a `fuel` bound, the number of polls modelled. These are `wait_for_job`, `monitor_job` and the Slurm completion poller. A wait that never ends is the limit of ever larger fuel.
- Timestamps in directory names and records (`datetime.now()`, `time.time()`, `os.times()`) are parameters.
- Recorded values are kept as JSON values, and f-strings use `str()` of them. The TypeError that `os.path.join` raises on a non-string recorded directory is not modelled.
- `apply_hubbard_to_system` in `hubbard.py` is not modelled. `species_info` is modelled as a map from species to index, and a non-string species in a `v` entry goes through `str()`.
- `to_old_format_dict`'s check that a V entry has five fields always holds for the entries the model builds, so it is not modelled.
- The consistency tool reads the loaders' source with `ast`. The model takes the facts it extracts as inputs: the function defaults, the text searched for authentication and the cleaned docstring. `test_loaders` is its pass/fail result, and `analyze_machine_files` is modelled only through its results.
- The consistency tool compares scheduler defaults through a Python `set`, where `True == 1`. The model compares JSON values structurally.
- The parsed dictionaries the loaders read have distinct keys, as Python dictionaries do. Members that take one require it.
- The class-level session pool of `schedulers/test.py` is modelled single-threaded.

## Findings

| source | as written | input that shows it | evidently intended | confidence | as-written member | corrected member |
|---|---|---|---|---|---|---|
| xespresso/hubbard.py:156 | every J key is unpacked as a `(species, ityp)` pair, but `add_j` without `ityp` stores the bare species | `add_j('Fe1', 0.5)` makes `to_old_format_dict` raise ValueError; `add_j('Fe', 0.5)` is read as species "F" and silently dropped | a bare species key writes `Hubbard_J(1,index)` | not executed | Hubbard.PlainJKeyAsWritten | Hubbard.OldFormatJ |
| xespresso/remote_job_manager.py:248 | `sbatch` succeeds only when its whole stdout is digits, while `--parsable` is commented out at the command | the reply "Submitted batch job 123" counts as a failed submission | accept the bare id or the id after "Submitted batch job" | not executed | RemoteJobs.SlurmVerdictRejectsUsualReply | RemoteJobs.FixedSlurmVerdictAccepts |
| xespresso/remote_job_manager.py:349-351 | completion is decided by the text "none" not occurring in the output of `ls <dir>/<prefix>.pwo \|\| echo 'none'` | a remote directory or prefix containing "none" (for example `/home/nonempty/...`) is never reported completed | test for the exact fallback answer "none" | not executed | RemoteJobs.PwoCheckHidesNone | RemoteJobs.FixedCompletedListing |
| xespresso/remote_runner.py:223 | `os.pathjoin` does not exist, so `transfer_inputs` raises AttributeError on the first local entry | any non-empty local directory, and so every directory holding a `pseudos` folder | `os.path.join`, uploading the files and then the pseudopotentials | not executed | Runner.TransferNeverUploads | Runner.FixedTransferReachesPseudos |

