# test_tube SLURM job-script generator, in Dafny

`test_tube/hpc.py` lets a training script run a hyperparameter search on a
SLURM cluster. A `SlurmCluster` holds the job settings: log path, Python
command, log switches, experiment name, modules, time, GPUs, partition,
nodes, memory, mail notifications, job name and GPU type. The launcher
process does four things:

1. it asks the optimizer for the trials;
2. it makes sure the log directories exist;
3. it renders one batch script per trial (header comments, `#SBATCH`
   directives, `module load` lines, and an `srun` line carrying the trial's
   flags and the trigger flag `--from_cluster_hopt`);
4. it writes each script to `slurm_cmd.sh` in the log path and makes a
   shell call of `.` followed by that path.

A process started with the trigger flag is a scheduled job. It only calls
the (empty) experiment runner.

The project has three modules:

- `PyStr` (`pystr.dfy`) covers the Python library behaviour the generator
  relies on: `str.lstrip()` with the `str.isspace` character set,
  `str.join`, `str(int)` with its read-back, `'{}'.format` of a possible
  `None`, and POSIX `os.path.join`.
- `Hpc` (`hpc.dfy`) holds the class `SlurmCluster` with the source's fields,
  and methods that build the script string by string as the source does.
  Beside them are specification functions: `BodyLines` describes the
  script line by line as fixed template lines, `Directive` lines and
  `ModuleLoad` lines, `ScriptLines` gives the list after `lstrip` plus the
  launch line, and `Script` gives the joined text. `DriverEffects` gives
  what the driver does to the outside world, as a list of `Effect`s. The
  methods that build the script, lay out the log directories and drive the
  trials are proved equal to these functions; the constructor,
  `LoadModules` and `NotifyJobStatus` are proved to set exactly their
  fields of `Config()`.
- `HpcProps` (`hpcprops.dfy`) proves what the script and the driver
  promise, stated on those functions:
  - which `#SBATCH` lines appear, how often, and in which order;
  - the layout of the line list;
  - the launch line;
  - the effects of the two driver modes;
  - the log directory layout;
  - the defaults.

The model keeps these behaviours of the source as they are:

- The error-log directive is `#SBATCH --output=slurm_output.err`. It uses
  `--output`, the same option as the output log, not `--error`.
- No directive requests CPUs.
- GPU requests use `#SBATCH --gres gpu:<n>`, with a space, not `=`.
- The `'\n'` element before the module lines becomes an empty line after
  `lstrip`.
- Every `#################\n` rule keeps its newline, so the text has a
  blank line after each block.
- The shell call is `.` put straight in front of the script path, with no
  separator. For log path `/tmp/logs` the command is
  `./tmp/logs/slurm_cmd.sh`, a path relative to the working directory; for
  log path `logs` it is `.logs/slurm_cmd.sh`. Neither names the written
  file unless the working directory is `/`. The `srun` line puts `.` in
  front of the script name in the same way.

## Model

| member | source | states |
|---|---|---|
| Hpc.SlurmCluster.constructor | test_tube/hpc.py:10-41 | The settings start at the source's defaults: no modules, time `15:00`, one GPU, no `hns_gpu`, one node, 4000 MB, no e-mail, no notifications, no job name, no GPU type, no err/out log paths. The log path, Python command (default `python3`), log switches (default on) and experiment name are taken from the caller. The trigger-flag detection is kept as given. |
| Hpc.SlurmCluster.LoadModules | test_tube/hpc.py:44-45 | Replaces the module list and changes no other setting. |
| Hpc.SlurmCluster.NotifyJobStatus | test_tube/hpc.py:47-50 | Sets the e-mail, notify-on-end and notify-on-fail settings and changes no other setting. |
| Hpc.SlurmCluster.GetHoptParams | test_tube/hpc.py:141-158 | The loop over the trial's fields returns `HoptParams(trial)`: one `--<name> <value>` per field in field order, then `--from_cluster_hopt`, joined by single spaces. |
| Hpc.SlurmCluster.BuildSlurmCommand | test_tube/hpc.py:160-284 | The script built block by block equals `Script(Config(), trial)`: header, job name, out/err logs, time, gres, partition, nodes, memory, optional mail, the `'\n'` element, module lines, all left-stripped, then the `srun` line, joined by newlines. |
| Hpc.SlurmCluster.LogCommands | test_tube/hpc.py:179-195 | The out-log block when output logging is on, then the err-log block when error logging is on. Both use `--output=`. |
| Hpc.SlurmCluster.GpuCommands | test_tube/hpc.py:205-218 | The gres block, with value `gpu:<n>`, or `gpu:<type>:<n>` when a GPU type is set. |
| Hpc.SlurmCluster.PartitionCommands | test_tube/hpc.py:220-232 | The `-p hns_gpu` block when `hns_gpu` is on, otherwise the `--qos=batch` block. |
| Hpc.SlurmCluster.MailCommands | test_tube/hpc.py:250-266 | No lines unless a notification is requested. Otherwise the mail note, `--mail-type=` with `END`/`FAIL` joined by commas, and `--mail-user=` with the e-mail (`None` when unset). |
| Hpc.SlurmCluster.AddModuleCommands | test_tube/hpc.py:270-272 | Appends one `module load <m>` line per module, in order, after the given lines. |
| Hpc.SlurmCluster.LayoutLoggingDir | test_tube/hpc.py:109-137 | Returns the directories made to exist, in order: the log path, then (with an experiment name) its folder, `err_logs` and `out_logs` when enabled. Records the err/out log paths exactly in those cases and changes no setting. |
| Hpc.SlurmCluster.SaveSlurmCmd | test_tube/hpc.py:102-106 | Writes the script to `slurm_cmd.sh` joined onto the log path, and returns that path. |
| Hpc.SlurmCluster.SubmitTrial | test_tube/hpc.py:90-97 | For one trial: its script, a write of it to the script path, then a shell call of `.` + that path. |
| Hpc.SlurmCluster.SubmitTrials | test_tube/hpc.py:89-97 | The loop over the trials gives, trial by trial in order, the write of that trial's script and the shell call. |
| Hpc.SlurmCluster.OptimizeParallelCluster | test_tube/hpc.py:63-97 | Sets the job name. A scheduled job only runs the experiment and leaves the log paths alone. Otherwise it generates the trials, lays out the log directories, then writes each trial's script and makes the shell call of `.` followed by its path: exactly `DriverEffects` of the settings with the new job name. In that case the err/out log paths become `<log path>/<name>/err_logs` and `.../out_logs` when the experiment name is set and the log is enabled; otherwise they keep their old values. |
| Hpc.RenderDirectiveLines | test_tube/hpc.py:161-266 | Rendering the directive section equals rendering its blocks one after another, in the order the source extends `sub_commands`. |
| Hpc.RenderBodyLines | test_tube/hpc.py:268-272 | The rendered body is the rendered directives, the `'\n'` element, then the rendered module lines. |
| Hpc.ScriptsSnoc | test_tube/hpc.py:90-92 | Scripts of one more trial are the earlier scripts plus that trial's script. |
| Hpc.SubmissionsSnoc | test_tube/hpc.py:90-96 | One more script adds exactly its write and its shell call at the end. |
| HpcProps.StripLine | test_tube/hpc.py:274-275 | `lstrip` leaves every template, directive and module line unchanged, except the `'\n'` element, which becomes empty. |
| HpcProps.SbatchLine | test_tube/hpc.py:163-272 | After `lstrip`, a line starts with `#SBATCH ` exactly when it is a directive. |
| HpcProps.DirectivesOfBody | test_tube/hpc.py:160-272 | The directives among the body lines are exactly `ExpectedDirectives`: job name, the enabled logs, time, gres, partition choice, nodes, memory, and the mail pair when requested. |
| HpcProps.SbatchOfScript | test_tube/hpc.py:160-284 | The lines of a script that start with `#SBATCH ` are exactly the expected directives, rendered, in order. The launch line is not one of them. |
| HpcProps.DirectiveCounts | test_tube/hpc.py:171-266 | Per option: job name, time, gres, nodes and memory are set once. `--qos=batch` is set once without `hns_gpu`, and `-p hns_gpu` once with it. There is one `--output` per enabled log. Mail type and mail user are set once each when a notification is requested, and never otherwise. |
| HpcProps.ScriptDirectiveCounts | test_tube/hpc.py:160-284 | On the script's own line list: the number of lines starting with the directive prefix of an option equals that option's expected count. So job name, time, gres, nodes and memory each appear on exactly one line. |
| HpcProps.LinePrefixed | test_tube/hpc.py:163-272 | A rendered line starts with the directive prefix of option `o` exactly when it is a directive for `o`, because no option's prefix is a prefix of another's. |
| HpcProps.PrefixesDistinct | test_tube/hpc.py:174-264 | No option's `#SBATCH` prefix is a prefix of another option's. |
| HpcProps.DirectiveOrderLogs | test_tube/hpc.py:171-195 | Job name first, then the out file (when enabled), then the err file (when enabled). The total count is given. |
| HpcProps.DirectiveOrderResources | test_tube/hpc.py:197-248 | After the logs: time, gres, the partition choice, nodes, memory. Nodes and memory are rendered with `str(int)`. |
| HpcProps.DirectiveOrderMail | test_tube/hpc.py:250-266 | When requested, the mail pair closes the directives: the type (`END`, `FAIL` or `END,FAIL`), then the user. |
| HpcProps.DirectiveParts | test_tube/hpc.py:171-266 | The expected directive list splits by position into job name, logs, the five resource directives and the mail pair. |
| HpcProps.GresValueShape | test_tube/hpc.py:205-216 | The gres value starts with `gpu:` and ends with the GPU count. Between them is nothing, or `<type>:` when a GPU type is set. |
| HpcProps.StripEffect | test_tube/hpc.py:274-275 | In the line list, every body line but the `'\n'` element is its rendering unchanged, the `'\n'` element is empty, and no line before the launch line starts with whitespace. |
| HpcProps.ScriptShape | test_tube/hpc.py:160-280 | Line list layout: `#!/bin/bash` first. After the directive section comes an empty element, then `module load <m>` for each module in order. The launch line comes last. |
| HpcProps.ScriptText | test_tube/hpc.py:282-284 | The script text is the stripped lines joined by newlines, then a newline, then the launch line. |
| HpcProps.ScriptStartsWithShebang | test_tube/hpc.py:163-168 | Every script starts with `#!/bin/bash` followed by a newline. |
| HpcProps.HoptParamsShape | test_tube/hpc.py:148-158 | The argument string is the trial's flags joined by spaces, then a space (only when there are flags), then `--from_cluster_hopt`. Flag `i` is `--<name_i> <value_i>`. |
| HpcProps.LaunchShape | test_tube/hpc.py:277-279 | The launch line starts with `srun ` and ends with the trigger flag. |
| HpcProps.LaunchNotSbatch | test_tube/hpc.py:277-280 | The launch line is not a scheduler directive. |
| HpcProps.SubmissionsIndex | test_tube/hpc.py:90-96 | Script `i` is written at position `2i` and the shell call of `.` followed by the path sits at `2i+1`. |
| HpcProps.EffectsLayout | test_tube/hpc.py:83-96 | Launcher layout for any directories and scripts: trial generation first, directory creation next, then pairs of a script write and its shell call. No experiment run. |
| HpcProps.LauncherEffects | test_tube/hpc.py:83-96 | The launcher asks for the trials first, then creates each log directory, then writes trial `i`'s script to `slurm_cmd.sh` followed by the shell call of `.` and that path, for each trial in order. The experiment is never started. |
| HpcProps.DriverModes | test_tube/hpc.py:76-96 | A scheduled job does nothing but run the experiment: no trials, no directories, no script, no shell call. The launcher writes exactly one script per generated trial, in trial order. The experiment runs exactly when the trigger flag is present. |
| HpcProps.LogDirsShape | test_tube/hpc.py:115-137 | The log path comes first. Without an experiment name it is the only directory. With one, its folder comes next, then `err_logs`/`out_logs` inside that folder when enabled. |
| HpcProps.LogDirsInside | test_tube/hpc.py:119-137 | With a relative experiment name, every created directory's path string starts with the log path. When the log path is non-empty and has no trailing `/`, every directory after the log path starts with the log path followed by `/`. |
| HpcProps.DefaultDirectiveLines | test_tube/hpc.py:19-38 | With the constructor's defaults and a job name, the directives are: the name, both log files, `15:00`, `gpu:1`, `--qos=batch`, one node and 4000 MB, with no mail. |
| HpcProps.NewClusterDirectives | test_tube/hpc.py:19-38 | A cluster made by the constructor with its default arguments, as a launcher, then driven by `OptimizeParallelCluster` under a job name, has the settings `DefaultConfig` with that name. The directives it asks for, `ExpectedDirectives` of its settings, are exactly the eight default directives. This ties `DefaultDirectiveLines` to the constructor and the driver. |
| PyStr.LStrip | test_tube/hpc.py:275 | `str.lstrip()`: the result is a suffix of the input, only whitespace was removed, and it does not start with whitespace. |
| PyStr.LStripAllSpace | test_tube/hpc.py:269-275 | A string made only of whitespace (the `'\n'` element) strips to empty. |
| PyStr.JoinAppend | test_tube/hpc.py:157 | Joining two non-empty lists puts exactly one separator at the seam. |
| PyStr.IntStr | test_tube/hpc.py:208 | `str(int)`: an optional minus sign, exactly for negatives, then decimal digits with no leading zero (a leading `0` only in `"0"` itself). |
| PyStr.IntStrRoundTrip | test_tube/hpc.py:237-245 | `str(n)` reads back as `n`, so the node count and memory in the directives are exact. |
| PyStr.PathJoin | test_tube/hpc.py:103 | `os.path.join`: an absolute second part replaces the first. Otherwise the result starts with the first part and ends with the second. |
| PyStr.PathJoinSeparator | test_tube/hpc.py:121 | A relative second part joined onto a non-empty first part without a trailing `/` gives exactly the first part, `/`, then the second. |

## Left out

- File system, shell and console are not performed. Directory creation,
  the script write and the `call(..., shell=True)` shell call are returned as
  `Effect`s in order. `os.path.exists` is folded into `EnsureDir`, which
  means "make unless it exists". The printed exit status is not modelled.
- `sys.argv[0]` and the check for the trigger flag among the optimizer's
  parsed arguments are constructor inputs (`scriptName`,
  `isFromSlurmObject`). `generate_trials` is a function parameter.
  `HyperOptArgumentParser` is not part of this model.
- Trial values are given already rendered as text, because `str()` of
  arbitrary Python values is not modelled. A trial is its fields in
  iteration order.
- Hpc.SlurmCluster.OptimizeParallelCluster: the `train_function` argument is
  unused in the source and is dropped. `__run_experiment` is an empty
  placeholder, recorded as the `RunExperiment` effect.
- `AbstractCluster.optimize_parallel_cluster` only raises
  `NotImplementedError`, and `optimize_parallel_slurm` is an empty stub.
  Neither is modelled. The base class and the subclass are one class here.
- LogDirsInside: states that every path string starts with the log path
  (and with the log path and `/` for the deeper folders), not that each
  directory lies inside it. The source does no normalisation, so an
  experiment name with a `..` part (`../x` gives `<log path>/../x`) leads
  outside the log path, and the model does not exclude that.
- Failing file-system calls are not modelled. An `os.makedirs` or `open`
  that raises aborts the driver in the source; here every effect is
  taken to succeed.
- Hpc.SlurmCluster.LoadModules: the source keeps a reference to the
  caller's list, so later changes by the caller show up in the scripts.
  The model stores a value copy, so that aliasing is not captured.
- HpcProps.SbatchOfScript: the directive property is stated on the
  script's line list (`ScriptLines`), not on the joined text. A setting
  whose value contains a newline would add text lines, and the model says
  nothing about those.
- Python integers are unbounded, like Dafny's `int`, so no width is
  modelled. Only `int` settings are rendered with `str(int)`. The job time
  and GPU type are strings, as in the source's defaults.
- `examples/hpc_cpu_example.py` is not part of this model: it is a usage
  example that configures a cluster and calls the driver.
