/**
  The SLURM side of test_tube's `hpc.py`: a `SlurmCluster` holds the job
  settings, renders one batch script per hyperparameter trial, and (when it
  is the launcher rather than a scheduled job) writes one script per trial
  and makes a shell call of `.` followed by the script path.

  The specification functions describe the script line by line: every line
  is a fixed template line, an `#SBATCH` directive, or a `module load` line,
  and the launch line comes last.  The class methods build the same text
  the way the source does, string by string, and are proved against them.
  Effects on the outside world (directories, files, shell calls) are
  returned as a list of `Effect`s instead of being performed.
 */
module Hpc {
  import opened PyStr

  /** One trial: its fields in iteration order, each value already rendered as text. */
  type Trial = seq<(string, string)>

  /** `AbstractCluster.TRIGGER_CMD`: the flag that marks a scheduled job. */
  const TriggerCmd: string := "from_cluster_hopt"

  /** The settings of a cluster that the script and the logging layout depend on. */
  datatype ClusterConfig = ClusterConfig(
    logPath: string,
    pythonCmd: string,
    enableLogErr: bool,
    enableLogOut: bool,
    testTubeExpName: Option<string>,
    modules: seq<string>,
    scriptName: string,
    jobTime: string,
    perExperimentNbGpus: int,
    hnsGpu: bool,
    perExperimentNbNodes: int,
    memoryMbPerNode: int,
    email: Option<string>,
    notifyOnEnd: bool,
    notifyOnFail: bool,
    jobName: Option<string>,
    gpuType: Option<string>)

  // ---------------------------------------------------------------------
  // Lines of a script
  // ---------------------------------------------------------------------

  /** The scheduler options the script sets. */
  datatype Opt = JobName | Output | Time | Gres | Qos | Partition | Nodes | Mem | MailType | MailUser

  /** The start of the directive line for each option, up to its value. */
  function DirectivePrefix(o: Opt): string
  {
    match o
    case JobName => "#SBATCH --job-name="
    case Output => "#SBATCH --output="
    case Time => "#SBATCH --time="
    case Gres => "#SBATCH --gres "
    case Qos => "#SBATCH --qos="
    case Partition => "#SBATCH -p "
    case Nodes => "#SBATCH --nodes="
    case Mem => "#SBATCH --mem="
    case MailType => "#SBATCH --mail-type="
    case MailUser => "#SBATCH --mail-user="
  }

  /** The template lines that do not depend on the settings. */
  datatype Text =
    | Shebang | Hash | Banner | Rule | Newline
    | JobNameNote | OutNote | ErrNote | TimeNote | GpuNote | PartitionNote | NodesNote | MemNote | MailNote

  /**
    The template text of each line. Every note is a `# ` comment; the
    comment marker is written apart from the note's words so that proofs
    see the marker without reading the whole literal.
   */
  function TextOf(t: Text): string
  {
    match t
    case Shebang => "#!/bin/bash"
    case Hash => "#"
    case Banner => "# " + "Auto-generated by test-tube (https://github.com/williamFalcon/test-tube)"
    case Rule => "#################\n"   // its newline survives `lstrip`
    case Newline => "\n"                  // the element that `lstrip` empties
    case JobNameNote => "# " + "set a job name"
    case OutNote => "# " + "a file for job output, you can check job progress"
    case ErrNote => "# " + "a file for errors"
    case TimeNote => "# " + "time needed for job"
    case GpuNote => "# " + "gpus per cluster"
    case PartitionNote => "# " + "gpu partition"
    case NodesNote => "# " + "number of requested nodes"
    case MemNote => "# " + "memory per node"
    case MailNote => "# " + "Have SLURM send you an email when the job ends or fails"
  }

  datatype Line =
    | Fixed(text: Text)                  // a line of the template that does not depend on the settings
    | Directive(opt: Opt, value: string) // `#SBATCH <option><value>`
    | ModuleLoad(name: string)           // `module load <name>`

  function Render(l: Line): string
  {
    match l
    case Fixed(t) => TextOf(t)
    case Directive(o, v) => DirectivePrefix(o) + v
    case ModuleLoad(m) => "module load " + m
  }

  function RenderAll(ls: seq<Line>): seq<string>
  {
    seq(|ls|, i requires 0 <= i < |ls| => Render(ls[i]))
  }

  lemma RenderAllAppend(a: seq<Line>, b: seq<Line>)
    ensures RenderAll(a + b) == RenderAll(a) + RenderAll(b)
  {
    forall i | 0 <= i < |a| + |b|
      ensures RenderAll(a + b)[i] == (RenderAll(a) + RenderAll(b))[i]
    {
      if i < |a| {
        assert (a + b)[i] == a[i];
      } else {
        assert (a + b)[i] == b[i - |a|];
      }
    }
  }

  // ---------------------------------------------------------------------
  // The blocks of __build_slurm_command, in the order it emits them
  // ---------------------------------------------------------------------

  function HeaderBlock(): seq<Line>
  {
    [ Fixed(Shebang),
      Fixed(Hash),
      Fixed(Banner),
      Fixed(Rule) ]
  }

  /** A comment, one directive and the closing rule. */
  function DirectiveBlock(note: Text, o: Opt, value: string): seq<Line>
  {
    [Fixed(note), Directive(o, value), Fixed(Rule)]
  }

  function JobNameBlock(name: string): seq<Line>
  {
    DirectiveBlock(JobNameNote, JobName, name)
  }

  function OutBlock(): seq<Line>
  {
    DirectiveBlock(OutNote, Output, "slurm_output.out")
  }

  /** The error log is requested with `--output=` as well, as the source does. */
  function ErrBlock(): seq<Line>
  {
    DirectiveBlock(ErrNote, Output, "slurm_output.err")
  }

  function TimeBlock(time: string): seq<Line>
  {
    DirectiveBlock(TimeNote, Time, time)
  }

  function GpuBlock(value: string): seq<Line>
  {
    DirectiveBlock(GpuNote, Gres, value)
  }

  function QosBlock(): seq<Line>
  {
    DirectiveBlock(PartitionNote, Qos, "batch")
  }

  function HnsGpuBlock(): seq<Line>
  {
    DirectiveBlock(PartitionNote, Partition, "hns_gpu")
  }

  function NodesBlock(nodes: int): seq<Line>
  {
    DirectiveBlock(NodesNote, Nodes, IntStr(nodes))
  }

  function MemBlock(mb: int): seq<Line>
  {
    DirectiveBlock(MemNote, Mem, IntStr(mb))
  }

  function MailTypeQuery(mailTypes: seq<string>): seq<Line>
  {
    [ Fixed(MailNote),
      Directive(MailType, Join(",", mailTypes)) ]
  }

  function EmailQuery(email: Option<string>): seq<Line>
  {
    [Directive(MailUser, FormatOpt(email))]
  }

  // ---------------------------------------------------------------------
  // The choices __build_slurm_command makes from the settings
  // ---------------------------------------------------------------------

  /** `gpu:<n>`, or `gpu:<type>:<n>` when a GPU type is set. */
  function GresValue(c: ClusterConfig): string
  {
    match c.gpuType
    case None => "gpu:" + IntStr(c.perExperimentNbGpus)
    case Some(t) => "gpu:" + t + ":" + IntStr(c.perExperimentNbGpus)
  }

  function PartitionBlock(c: ClusterConfig): seq<Line>
  {
    if c.hnsGpu then HnsGpuBlock() else QosBlock()
  }

  /** The list `mail_type` of the source. */
  function MailTypes(c: ClusterConfig): seq<string>
  {
    (if c.notifyOnEnd then ["END"] else []) + (if c.notifyOnFail then ["FAIL"] else [])
  }

  function MailBlock(c: ClusterConfig): seq<Line>
  {
    if |MailTypes(c)| > 0 then MailTypeQuery(MailTypes(c)) + EmailQuery(c.email) else []
  }

  /** The output log block, then the error log block, each only when enabled. */
  function LogBlocks(c: ClusterConfig): seq<Line>
  {
    (if c.enableLogOut then OutBlock() else []) + (if c.enableLogErr then ErrBlock() else [])
  }

  /** Everything up to the module section. */
  function DirectiveLines(c: ClusterConfig): seq<Line>
  {
    HeaderBlock()
    + JobNameBlock(FormatOpt(c.jobName))
    + LogBlocks(c)
    + TimeBlock(c.jobTime)
    + GpuBlock(GresValue(c))
    + PartitionBlock(c)
    + NodesBlock(c.perExperimentNbNodes)
    + MemBlock(c.memoryMbPerNode)
    + MailBlock(c)
  }

  function ModuleLines(modules: seq<string>): seq<Line>
  {
    seq(|modules|, i requires 0 <= i < |modules| => ModuleLoad(modules[i]))
  }

  /** `sub_commands` just before the `lstrip` pass: directives, the `'\n'` element, modules. */
  function BodyLines(c: ClusterConfig): seq<Line>
  {
    DirectiveLines(c) + [Fixed(Newline)] + ModuleLines(c.modules)
  }

  // ---------------------------------------------------------------------
  // __get_hopt_params and the launch line
  // ---------------------------------------------------------------------

  function Flag(k: string, v: string): string
  {
    "--" + k + " " + v
  }

  /** One `--<name> <value>` per trial field, in field order. */
  function Flags(trial: Trial): seq<string>
  {
    seq(|trial|, i requires 0 <= i < |trial| => Flag(trial[i].0, trial[i].1))
  }

  /** The argument string of the launch line: the trial's flags, then the trigger flag. */
  function HoptParams(trial: Trial): string
  {
    Join(" ", Flags(trial) + ["--" + TriggerCmd])
  }

  function LaunchCommand(c: ClusterConfig, trial: Trial): string
  {
    "srun " + c.pythonCmd + " ." + c.scriptName + " " + HoptParams(trial)
  }

  function StripAll(ss: seq<string>): seq<string>
  {
    seq(|ss|, i requires 0 <= i < |ss| => LStrip(ss[i]))
  }

  /** The list of lines that is joined into the script. */
  function ScriptLines(c: ClusterConfig, trial: Trial): seq<string>
  {
    StripAll(RenderAll(BodyLines(c))) + [LaunchCommand(c, trial)]
  }

  /** The script text `__build_slurm_command` returns for a trial. */
  function Script(c: ClusterConfig, trial: Trial): string
  {
    Join("\n", ScriptLines(c, trial))
  }

  // ---------------------------------------------------------------------
  // Driver effects
  // ---------------------------------------------------------------------

  /** What the driver would do to the outside world, in order. */
  datatype Effect =
    | RunExperiment               // the placeholder `__run_experiment`
    | GenerateTrials(count: int)  // `generate_trials(nb_trials)` on the optimizer
    | EnsureDir(path: string)     // `os.makedirs(path)` unless it already exists
    | WriteFile(path: string, text: string)
    | Shell(command: string)      // `call(command, shell=True)`

  /** The directories `__layout_logging_dir` makes sure exist, in order. */
  function LogDirs(c: ClusterConfig): seq<string>
  {
    [c.logPath] +
    match c.testTubeExpName
    case None => []
    case Some(name) =>
      var d := PathJoin(c.logPath, name);
      [d] + (if c.enableLogErr then [PathJoin(d, "err_logs")] else [])
          + (if c.enableLogOut then [PathJoin(d, "out_logs")] else [])
  }

  function EnsureDirs(dirs: seq<string>): seq<Effect>
  {
    seq(|dirs|, i requires 0 <= i < |dirs| => EnsureDir(dirs[i]))
  }

  function SlurmCmdPath(c: ClusterConfig): string
  {
    PathJoin(c.logPath, "slurm_cmd.sh")
  }

  /** `f` applied to each element, in order. */
  function MapSeq<A, B>(f: A -> B, xs: seq<A>): (r: seq<B>)
    ensures |r| == |xs|
  {
    seq(|xs|, i requires 0 <= i < |xs| => f(xs[i]))
  }

  /** Mapping one more element adds its image at the end. */
  lemma MapSnoc<A, B>(f: A -> B, xs: seq<A>, i: nat)
    requires i < |xs|
    ensures MapSeq(f, xs[..i + 1]) == MapSeq(f, xs[..i]) + [f(xs[i])]
  {
    var t := xs[..i + 1];
    forall k | 0 <= k < i + 1
      ensures MapSeq(f, t)[k] == (MapSeq(f, xs[..i]) + [f(xs[i])])[k]
    {
      if k < i {
        assert t[k] == xs[..i][k];
      }
    }
  }

  /** The script of each trial, in trial order. */
  function Scripts(c: ClusterConfig, trials: seq<Trial>): seq<string>
  {
    MapSeq(t => Script(c, t), trials)
  }

  /** One more trial in order: the scripts so far, then the new trial's script. */
  lemma ScriptsSnoc(c: ClusterConfig, trials: seq<Trial>, i: nat)
    requires i < |trials|
    ensures Scripts(c, trials[..i + 1]) == Scripts(c, trials[..i]) + [Script(c, trials[i])]
  {
    MapSnoc(t => Script(c, t), trials, i);
  }

  /** For each script in turn: write it to the one script path, then a shell call of `.` + that path. */
  function Submissions(path: string, scripts: seq<string>): seq<Effect>
  {
    if scripts == [] then []
    else
      Submissions(path, scripts[..|scripts| - 1])
      + [WriteFile(path, scripts[|scripts| - 1]), Shell("." + path)]
  }

  /** One more script adds its write and its shell call at the end. */
  lemma SubmissionsSnoc(path: string, scripts: seq<string>, script: string)
    ensures Submissions(path, scripts + [script]) ==
      Submissions(path, scripts) + [WriteFile(path, script), Shell("." + path)]
  {
    assert (scripts + [script])[..|scripts|] == scripts;
  }

  /** The submissions of the first `i + 1` trials extend those of the first `i` by the next script's pair. */
  lemma SubmissionsStep(c: ClusterConfig, trials: seq<Trial>, i: nat)
    requires i < |trials|
    ensures Submissions(SlurmCmdPath(c), Scripts(c, trials[..i + 1])) ==
      Submissions(SlurmCmdPath(c), Scripts(c, trials[..i]))
      + [WriteFile(SlurmCmdPath(c), Script(c, trials[i])), Shell("." + SlurmCmdPath(c))]
  {
    ScriptsSnoc(c, trials, i);
    SubmissionsSnoc(SlurmCmdPath(c), Scripts(c, trials[..i]), Script(c, trials[i]));
  }

  /** `optimize_parallel_cluster`, seen from outside, when the settings are `c`. */
  function DriverEffects(c: ClusterConfig, fromSlurm: bool, nbTrials: int,
                         generateTrials: int -> seq<Trial>): seq<Effect>
  {
    if fromSlurm then [RunExperiment]
    else [GenerateTrials(nbTrials)] + EnsureDirs(LogDirs(c)) + Submissions(SlurmCmdPath(c), Scripts(c, generateTrials(nbTrials)))
  }

  /** The rendering of the directive part, block by block as `__build_slurm_command` extends it. */
  lemma RenderDirectiveLines(c: ClusterConfig)
    ensures RenderAll(DirectiveLines(c)) ==
      RenderAll(HeaderBlock())
      + RenderAll(JobNameBlock(FormatOpt(c.jobName)))
      + RenderAll(LogBlocks(c))
      + RenderAll(TimeBlock(c.jobTime))
      + RenderAll(GpuBlock(GresValue(c)))
      + RenderAll(PartitionBlock(c))
      + RenderAll(NodesBlock(c.perExperimentNbNodes))
      + RenderAll(MemBlock(c.memoryMbPerNode))
      + RenderAll(MailBlock(c))
  {
    var h := HeaderBlock() + JobNameBlock(FormatOpt(c.jobName));
    RenderAllAppend(HeaderBlock(), JobNameBlock(FormatOpt(c.jobName)));
    RenderAllAppend(h, LogBlocks(c));
    var t := h + LogBlocks(c);
    RenderAllAppend(t, TimeBlock(c.jobTime));
    RenderAllAppend(t + TimeBlock(c.jobTime), GpuBlock(GresValue(c)));
    var g := t + TimeBlock(c.jobTime) + GpuBlock(GresValue(c));
    RenderAllAppend(g, PartitionBlock(c));
    RenderAllAppend(g + PartitionBlock(c), NodesBlock(c.perExperimentNbNodes));
    var n := g + PartitionBlock(c) + NodesBlock(c.perExperimentNbNodes);
    RenderAllAppend(n, MemBlock(c.memoryMbPerNode));
    RenderAllAppend(n + MemBlock(c.memoryMbPerNode), MailBlock(c));
  }

  /** The rendering of the body: the directives, the empty separator element, the module lines. */
  lemma RenderBodyLines(c: ClusterConfig)
    ensures RenderAll(BodyLines(c)) == RenderAll(DirectiveLines(c)) + ["\n"] + RenderAll(ModuleLines(c.modules))
  {
    assert Render(Fixed(Newline)) == "\n";
    RenderAround(DirectiveLines(c), Fixed(Newline), ModuleLines(c.modules));
  }

  /** Rendering a list with one line in the middle. */
  lemma RenderAround(a: seq<Line>, l: Line, b: seq<Line>)
    ensures RenderAll(a + [l] + b) == RenderAll(a) + [Render(l)] + RenderAll(b)
  {
    RenderAllAppend(a, [l]);
    RenderAllAppend(a + [l], b);
  }

  /** The rendered module lines: one `module load` line per module, in order. */
  lemma RenderModules(mods: seq<string>)
    ensures |RenderAll(ModuleLines(mods))| == |mods|
    ensures forall k :: 0 <= k < |mods| ==> RenderAll(ModuleLines(mods))[k] == "module load " + mods[k]
  {
    forall k | 0 <= k < |mods|
      ensures RenderAll(ModuleLines(mods))[k] == "module load " + mods[k]
    {
      assert ModuleLines(mods)[k] == ModuleLoad(mods[k]);
    }
  }

  /** A prefix followed by one `module load` line per module, in order. */
  lemma ModuleSection(base: seq<string>, mods: seq<string>, s: seq<string>)
    requires |s| == |base| + |mods| && s[..|base|] == base
    requires forall k :: 0 <= k < |mods| ==> s[|base| + k] == "module load " + mods[k]
    ensures s == base + RenderAll(ModuleLines(mods))
  {
    var r := RenderAll(ModuleLines(mods));
    RenderModules(mods);
    forall i | 0 <= i < |s|
      ensures s[i] == (base + r)[i]
    {
      if i < |base| {
        assert s[i] == s[..|base|][i];
      } else {
        assert s[i] == r[i - |base|];
      }
    }
  }

  // ---------------------------------------------------------------------
  // The cluster object
  // ---------------------------------------------------------------------

  class SlurmCluster {
    var logPath: string
    var pythonCmd: string
    var enableLogErr: bool
    var enableLogOut: bool
    var testTubeExpName: Option<string>
    var errLogPath: Option<string>
    var outLogPath: Option<string>
    var modules: seq<string>
    var scriptName: string
    var jobTime: string
    var perExperimentNbGpus: int
    var hnsGpu: bool
    var perExperimentNbNodes: int
    var memoryMbPerNode: int
    var email: Option<string>
    var notifyOnEnd: bool
    var notifyOnFail: bool
    var jobName: Option<string>
    var gpuType: Option<string>
    /** Whether the parsed arguments carry the trigger flag, i.e. this process is a scheduled job. */
    var isFromSlurmObject: bool

    /** The settings the script and the logging layout are built from. */
    function Config(): ClusterConfig
      reads this
    {
      ClusterConfig(logPath, pythonCmd, enableLogErr, enableLogOut, testTubeExpName, modules,
                    scriptName, jobTime, perExperimentNbGpus, hnsGpu, perExperimentNbNodes,
                    memoryMbPerNode, email, notifyOnEnd, notifyOnFail, jobName, gpuType)
    }

    /**
      `scriptName` stands for `sys.argv[0]` and `isFromSlurmObject` for the
      presence of the trigger flag among the optimizer's parsed arguments.
     */
    constructor (logPath: string, scriptName: string, isFromSlurmObject: bool,
                 pythonCmd: string := "python3", enableLogErr: bool := true,
                 enableLogOut: bool := true, testTubeExpName: Option<string> := None)
      ensures Config() == ClusterConfig(
                logPath, pythonCmd, enableLogErr, enableLogOut, testTubeExpName, [], scriptName,
                "15:00", 1, false, 1, 4000, None, false, false, None, None)
      ensures errLogPath == None && outLogPath == None
      ensures this.isFromSlurmObject == isFromSlurmObject
    {
      this.logPath := logPath;
      this.enableLogErr := enableLogErr;
      this.enableLogOut := enableLogOut;
      this.testTubeExpName := testTubeExpName;
      this.errLogPath := None;
      this.outLogPath := None;
      this.modules := [];
      this.scriptName := scriptName;
      this.jobTime := "15:00";
      this.perExperimentNbGpus := 1;
      this.hnsGpu := false;
      this.perExperimentNbNodes := 1;
      this.memoryMbPerNode := 4000;
      this.email := None;
      this.notifyOnEnd := false;
      this.notifyOnFail := false;
      this.jobName := None;
      this.pythonCmd := pythonCmd;
      this.gpuType := None;
      this.isFromSlurmObject := isFromSlurmObject;
    }

    method LoadModules(modules: seq<string>)
      modifies this`modules
      ensures Config() == old(Config()).(modules := modules)
    {
      this.modules := modules;
    }

    method NotifyJobStatus(email: Option<string>, onDone: bool, onFail: bool)
      modifies this`email, this`notifyOnEnd, this`notifyOnFail
      ensures Config() == old(Config()).(email := email, notifyOnEnd := onDone, notifyOnFail := onFail)
    {
      this.email := email;
      this.notifyOnEnd := onDone;
      this.notifyOnFail := onFail;
    }

    /** `__get_hopt_params`: the trial as command-line flags, ending with the trigger flag. */
    method GetHoptParams(trial: Trial) returns (fullCmd: string)
      ensures fullCmd == HoptParams(trial)
    {
      var params: seq<string> := [];
      var i := 0;
      while i < |trial|
        invariant 0 <= i <= |trial|
        invariant |params| == i
        invariant forall j :: 0 <= j < i ==> params[j] == Flag(trial[j].0, trial[j].1)
      {
        var (k, v) := trial[i];
        var cmd := "--" + k + " " + v;
        params := params + [cmd];
        i := i + 1;
      }
      assert params == Flags(trial);
      params := params + ["--" + TriggerCmd];
      fullCmd := Join(" ", params);
    }

    /** `__build_slurm_command`: the batch script for one trial. */
    method BuildSlurmCommand(trial: Trial) returns (fullCommand: string)
      ensures fullCommand == Script(Config(), trial)
    {
      ghost var c := Config();
      var subCommands: seq<string> := [];

      subCommands := subCommands + RenderAll(HeaderBlock());

      // the job name block
      subCommands := subCommands + RenderAll(JobNameBlock(FormatOpt(jobName)));
      assert subCommands == RenderAll(HeaderBlock()) + RenderAll(JobNameBlock(FormatOpt(c.jobName)));

      // the log file blocks: output first, then errors
      var logCommands := LogCommands();
      subCommands := subCommands + logCommands;

      // the time limit block
      subCommands := subCommands + RenderAll(TimeBlock(jobTime));

      // the gres block
      var gpuCommands := GpuCommands();
      subCommands := subCommands + gpuCommands;

      // the qos or partition block
      var partitionCommands := PartitionCommands();
      subCommands := subCommands + partitionCommands;

      // the node count block
      subCommands := subCommands + RenderAll(NodesBlock(perExperimentNbNodes));

      // the memory block
      subCommands := subCommands + RenderAll(MemBlock(memoryMbPerNode));

      // the mail block, only when a notification is asked for
      var mailCommands := MailCommands();
      subCommands := subCommands + mailCommands;

      RenderDirectiveLines(c);
      assert subCommands == RenderAll(DirectiveLines(c));

      // the separator element, then one line per module
      subCommands := subCommands + ["\n"];
      subCommands := AddModuleCommands(subCommands);
      assert modules == c.modules;
      RenderBodyLines(c);
      assert subCommands == RenderAll(BodyLines(c));

      // left-strip every element (only the separator element changes)
      subCommands := StripAll(subCommands);

      // the launch line, appended after stripping
      var trialArgs := GetHoptParams(trial);
      var cmd := "srun " + pythonCmd + " ." + scriptName + " " + trialArgs;
      assert cmd == LaunchCommand(c, trial);
      subCommands := subCommands + [cmd];
      assert subCommands == ScriptLines(c, trial);

      fullCommand := Join("\n", subCommands);
      assert c == Config();
    }

    /** The module loop of `__build_slurm_command`: one `module load` line per module, in order. */
    method AddModuleCommands(subCommands: seq<string>) returns (r: seq<string>)
      ensures r == subCommands + RenderAll(ModuleLines(modules))
    {
      r := subCommands;
      var j := 0;
      while j < |modules|
        invariant 0 <= j <= |modules|
        invariant |r| == |subCommands| + j && r[..|subCommands|] == subCommands
        invariant forall k :: 0 <= k < j ==> r[|subCommands| + k] == "module load " + modules[k]
      {
        var cmd := "module load " + modules[j];
        r := r + [cmd];
        j := j + 1;
      }
      ModuleSection(subCommands, modules, r);
    }

    /** The output and error log blocks of `__build_slurm_command`. */
    method LogCommands() returns (cmds: seq<string>)
      ensures cmds == RenderAll(LogBlocks(Config()))
    {
      cmds := [];
      if enableLogOut {
        cmds := cmds + RenderAll(OutBlock());
      }
      if enableLogErr {
        cmds := cmds + RenderAll(ErrBlock());
      }
      RenderAllAppend(if enableLogOut then OutBlock() else [], if enableLogErr then ErrBlock() else []);
    }

    /** The gres block of `__build_slurm_command`, typed when a GPU type is set. */
    method GpuCommands() returns (cmds: seq<string>)
      ensures cmds == RenderAll(GpuBlock(GresValue(Config())))
    {
      var command := GpuBlock("gpu:" + IntStr(perExperimentNbGpus));
      if gpuType.Some? {
        command := GpuBlock("gpu:" + gpuType.value + ":" + IntStr(perExperimentNbGpus));
      }
      cmds := RenderAll(command);
    }

    /** The partition block of `__build_slurm_command`. */
    method PartitionCommands() returns (cmds: seq<string>)
      ensures cmds == RenderAll(PartitionBlock(Config()))
    {
      var partitionCmd := QosBlock();
      if hnsGpu {
        partitionCmd := HnsGpuBlock();
      }
      cmds := RenderAll(partitionCmd);
    }

    /** The mail block of `__build_slurm_command`: present only when a notification is asked for. */
    method MailCommands() returns (cmds: seq<string>)
      ensures cmds == RenderAll(MailBlock(Config()))
    {
      var mailType: seq<string> := [];
      if notifyOnEnd {
        mailType := mailType + ["END"];
      }
      if notifyOnFail {
        mailType := mailType + ["FAIL"];
      }
      cmds := [];
      if |mailType| > 0 {
        cmds := cmds + RenderAll(MailTypeQuery(mailType));
        cmds := cmds + RenderAll(EmailQuery(email));
        RenderAllAppend(MailTypeQuery(mailType), EmailQuery(email));
      }
    }

    /**
      `__layout_logging_dir`: the directories it makes sure exist, in order,
      and the log paths it records.
     */
    method LayoutLoggingDir() returns (dirs: seq<string>)
      modifies this`errLogPath, this`outLogPath
      ensures Config() == old(Config())
      ensures dirs == LogDirs(Config())
      ensures errLogPath == if testTubeExpName.Some? && enableLogErr
                              then Some(PathJoin(PathJoin(logPath, testTubeExpName.value), "err_logs"))
                              else old(errLogPath)
      ensures outLogPath == if testTubeExpName.Some? && enableLogOut
                              then Some(PathJoin(PathJoin(logPath, testTubeExpName.value), "out_logs"))
                              else old(outLogPath)
    {
      dirs := [logPath];
      if testTubeExpName.Some? {
        var slurmOutPath := PathJoin(logPath, testTubeExpName.value);
        dirs := dirs + [slurmOutPath];
        if enableLogErr {
          var errPath := PathJoin(slurmOutPath, "err_logs");
          dirs := dirs + [errPath];
          errLogPath := Some(errPath);
        }
        if enableLogOut {
          var outPath := PathJoin(slurmOutPath, "out_logs");
          dirs := dirs + [outPath];
          outLogPath := Some(outPath);
        }
      }
    }

    /** `__save_slurm_cmd`: the script goes to `slurm_cmd.sh` inside the log path. */
    method SaveSlurmCmd(slurmCmd: string) returns (path: string, write: Effect)
      ensures path == SlurmCmdPath(Config())
      ensures write == WriteFile(path, slurmCmd)
    {
      path := PathJoin(logPath, "slurm_cmd.sh");
      write := WriteFile(path, slurmCmd);
    }

    /**
      `optimize_parallel_cluster`: a scheduled job only runs the experiment;
      the launcher asks for the trials, lays out the log directories and then
      writes one script per trial, in trial order, each followed by the shell
      call of `.` and the script path.
     */
    method OptimizeParallelCluster(nbTrials: int, name: string, generateTrials: int -> seq<Trial>)
      returns (effects: seq<Effect>)
      modifies this`jobName, this`errLogPath, this`outLogPath
      ensures jobName == Some(name)
      ensures effects == DriverEffects(old(Config()).(jobName := Some(name)), isFromSlurmObject,
                                       nbTrials, generateTrials)
      ensures isFromSlurmObject ==> errLogPath == old(errLogPath) && outLogPath == old(outLogPath)
      ensures !isFromSlurmObject ==>
        && errLogPath == (if testTubeExpName.Some? && enableLogErr
                          then Some(PathJoin(PathJoin(logPath, testTubeExpName.value), "err_logs"))
                          else old(errLogPath))
        && outLogPath == (if testTubeExpName.Some? && enableLogOut
                          then Some(PathJoin(PathJoin(logPath, testTubeExpName.value), "out_logs"))
                          else old(outLogPath))
    {
      jobName := Some(name);

      if isFromSlurmObject {
        effects := [RunExperiment];
        return;
      }

      var trials := generateTrials(nbTrials);
      effects := [GenerateTrials(nbTrials)];

      var dirs := LayoutLoggingDir();
      effects := effects + EnsureDirs(dirs);

      assert Config() == old(Config()).(jobName := Some(name));

      // write one script per trial, in order, each followed by its shell call
      var submissions := SubmitTrials(trials);
      effects := effects + submissions;
    }

    /** The loop of `optimize_parallel_cluster` over the generated trials. */
    method SubmitTrials(trials: seq<Trial>) returns (effects: seq<Effect>)
      ensures effects == Submissions(SlurmCmdPath(Config()), Scripts(Config(), trials))
    {
      ghost var c := Config();
      effects := [];
      for i := 0 to |trials|
        invariant effects == Submissions(SlurmCmdPath(c), Scripts(c, trials[..i]))
      {
        var script, write, shell := SubmitTrial(trials[i]);
        SubmissionsStep(c, trials, i);
        effects := effects + [write, shell];
      }
      assert trials[..|trials|] == trials;
    }

    /** One pass of that loop: build the trial's script, save it, then a shell call of `.` + the saved path. */
    method SubmitTrial(trial: Trial) returns (slurmCmd: string, write: Effect, shell: Effect)
      ensures slurmCmd == Script(Config(), trial)
      ensures write == WriteFile(SlurmCmdPath(Config()), slurmCmd)
      ensures shell == Shell("." + SlurmCmdPath(Config()))
    {
      slurmCmd := BuildSlurmCommand(trial);
      var slurmScriptPath;
      slurmScriptPath, write := SaveSlurmCmd(slurmCmd);
      shell := Shell("." + slurmScriptPath);
    }
  }


}
