/**
  Properties of the SLURM script and of the launcher's effects, stated on
  the specification functions of `Hpc` (which the class methods are proved
  to compute) and checked against independent reference definitions.
 */
module HpcProps {
  import opened PyStr
  import opened Hpc

  // ---------------------------------------------------------------------
  // Prefixes
  // ---------------------------------------------------------------------

  /** What a scheduler directive line starts with. */
  const Sbatch: string := "#SBATCH "

  predicate IsSbatch(s: string) {
    Sbatch <= s
  }

  /** A string differing from `p` at position `i` (or too short to reach it) does not start with `p`. */
  lemma NotPrefixAt(p: string, s: string, i: nat)
    requires i < |p| && (i >= |s| || p[i] != s[i])
    ensures !(p <= s)
  {
  }

  /** A prefix of `a` is a prefix of `a + b`. */
  lemma PrefixConcat(p: string, a: string, b: string)
    requires p <= a
    ensures p <= a + b
  {
    assert (a + b)[..|p|] == a[..|p|];
  }

  // ---------------------------------------------------------------------
  // One line at a time
  // ---------------------------------------------------------------------

  /** Every template line but the `'\n'` element starts with `#` and then not with `SBATCH `. */
  lemma TextStart(t: Text)
    ensures t != Newline ==> |TextOf(t)| > 0 && TextOf(t)[0] == '#' && !IsSbatch(TextOf(t))
    ensures t == Newline ==> TextOf(t) == "\n"
  {
    match t
    case Shebang => NotPrefixAt(Sbatch, TextOf(t), 1);
    case Hash => NotPrefixAt(Sbatch, TextOf(t), 1);
    case Banner => NotPrefixAt(Sbatch, TextOf(t), 1);
    case Rule => NotPrefixAt(Sbatch, TextOf(t), 1);
    case Newline =>
    case JobNameNote => NotPrefixAt(Sbatch, TextOf(t), 1);
    case OutNote => NotPrefixAt(Sbatch, TextOf(t), 1);
    case ErrNote => NotPrefixAt(Sbatch, TextOf(t), 1);
    case TimeNote => NotPrefixAt(Sbatch, TextOf(t), 1);
    case GpuNote => NotPrefixAt(Sbatch, TextOf(t), 1);
    case PartitionNote => NotPrefixAt(Sbatch, TextOf(t), 1);
    case NodesNote => NotPrefixAt(Sbatch, TextOf(t), 1);
    case MemNote => NotPrefixAt(Sbatch, TextOf(t), 1);
    case MailNote => NotPrefixAt(Sbatch, TextOf(t), 1);
  }

  /** Every directive line starts with `#SBATCH `. */
  lemma DirectiveStart(o: Opt, v: string)
    ensures IsSbatch(Render(Directive(o, v)))
  {
    assert Sbatch <= DirectivePrefix(o);
    PrefixConcat(Sbatch, DirectivePrefix(o), v);
  }

  /** Every rendered line starts with `#`, except module lines and the lone `'\n'` element. */
  lemma RenderStart(l: Line)
    ensures (l.Fixed? && l.text != Newline) || l.Directive? ==> Render(l) != [] && Render(l)[0] == '#'
    ensures l.ModuleLoad? ==> Render(l)[0] == 'm'
    ensures l == Fixed(Newline) ==> Render(l) == "\n"
  {
    match l
    case Fixed(t) =>
      TextStart(t);
    case Directive(o, v) =>
      assert Render(l) == DirectivePrefix(o) + v;
      assert DirectivePrefix(o)[0] == '#';
    case ModuleLoad(m) =>
      assert Render(l) == "module load " + m;
  }

  /**
    `lstrip` changes no line of the template except the `'\n'` element,
    which it empties.
   */
  lemma StripLine(l: Line)
    ensures l != Fixed(Newline) ==> LStrip(Render(l)) == Render(l)
    ensures l == Fixed(Newline) ==> LStrip(Render(l)) == ""
  {
    RenderStart(l);
    if l == Fixed(Newline) {
      LStripAllSpace("\n");
    } else {
      LStripKeeps(Render(l));
    }
  }

  /** After `lstrip`, a line starts with `#SBATCH ` exactly when it is a directive. */
  lemma SbatchLine(l: Line)
    ensures IsSbatch(LStrip(Render(l))) <==> l.Directive?
  {
    StripLine(l);
    match l
    case Directive(o, v) =>
      DirectiveStart(o, v);
    case ModuleLoad(m) =>
      RenderStart(l);
      NotPrefixAt(Sbatch, Render(l), 0);
    case Fixed(t) =>
      TextStart(t);
      if t == Newline {
        NotPrefixAt(Sbatch, "", 0);
      }
  }

  // ---------------------------------------------------------------------
  // The directive lines of a script
  // ---------------------------------------------------------------------

  /** Appending to the empty list. */
  lemma EmptyAppend<T>(a: seq<T>, b: seq<T>)
    requires a == []
    ensures a + b == b
  {
  }

  /** Appending to a non-empty list keeps its head and appends to its tail. */
  lemma ConsAppend<T>(a: seq<T>, b: seq<T>)
    requires a != []
    ensures a + b != [] && (a + b)[0] == a[0] && (a + b)[1..] == a[1..] + b
  {
  }

  lemma AppendAssoc<T>(a: seq<T>, b: seq<T>, c: seq<T>)
    ensures a + (b + c) == a + b + c
  {
  }

  /** The directive lines among `ls`, in order. */
  function Directives(ls: seq<Line>): seq<Line>
  {
    if ls == [] then []
    else (if ls[0].Directive? then [ls[0]] else []) + Directives(ls[1..])
  }

  /** The lines of `ss` that start with `#SBATCH `, in order. */
  function SbatchLines(ss: seq<string>): seq<string>
  {
    if ss == [] then []
    else (if IsSbatch(ss[0]) then [ss[0]] else []) + SbatchLines(ss[1..])
  }

  lemma {:induction false} DirectivesAppend(a: seq<Line>, b: seq<Line>)
    ensures Directives(a + b) == Directives(a) + Directives(b)
  {
    if a == [] {
      EmptyAppend(a, b);
    } else {
      ConsAppend(a, b);
      DirectivesAppend(a[1..], b);
      AppendAssoc(if a[0].Directive? then [a[0]] else [], Directives(a[1..]), Directives(b));
    }
  }

  lemma {:induction false} SbatchAppend(a: seq<string>, b: seq<string>)
    ensures SbatchLines(a + b) == SbatchLines(a) + SbatchLines(b)
  {
    if a == [] {
      EmptyAppend(a, b);
    } else {
      ConsAppend(a, b);
      SbatchAppend(a[1..], b);
      AppendAssoc(if IsSbatch(a[0]) then [a[0]] else [], SbatchLines(a[1..]), SbatchLines(b));
    }
  }

  /**
    After rendering and `lstrip`, the lines starting with `#SBATCH ` are
    exactly the rendered directive lines, in their order.
   */
  lemma {:induction false} SbatchOfLines(ls: seq<Line>)
    ensures SbatchLines(StripAll(RenderAll(ls))) == RenderAll(Directives(ls))
  {
    if ls != [] {
      var ss := StripAll(RenderAll(ls));
      StripRenderCons(ls);
      SbatchHead(ls[0]);
      SbatchOfLines(ls[1..]);
      RenderAllAppend(if ls[0].Directive? then [ls[0]] else [], Directives(ls[1..]));
    }
  }

  lemma StripRenderCons(ls: seq<Line>)
    requires ls != []
    ensures StripAll(RenderAll(ls))[0] == LStrip(Render(ls[0]))
    ensures StripAll(RenderAll(ls))[1..] == StripAll(RenderAll(ls[1..]))
  {
    RenderTail(ls);
    StripTail(RenderAll(ls));
  }

  lemma RenderTail(ls: seq<Line>)
    requires ls != []
    ensures RenderAll(ls)[1..] == RenderAll(ls[1..])
  {
    forall i | 0 <= i < |ls| - 1
      ensures RenderAll(ls)[1..][i] == RenderAll(ls[1..])[i]
    {
      assert ls[1..][i] == ls[i + 1];
    }
  }

  lemma StripTail(ss: seq<string>)
    requires ss != []
    ensures StripAll(ss)[1..] == StripAll(ss[1..])
  {
    forall i | 0 <= i < |ss| - 1
      ensures StripAll(ss)[1..][i] == StripAll(ss[1..])[i]
    {
      assert ss[1..][i] == ss[i + 1];
    }
  }

  /** What the first line contributes on either side. */
  lemma SbatchHead(l: Line)
    ensures (if IsSbatch(LStrip(Render(l))) then [LStrip(Render(l))] else [])
            == RenderAll(if l.Directive? then [l] else [])
  {
    SbatchLine(l);
    StripLine(l);
  }

  /** A single line contributes itself when it is a directive, nothing otherwise. */
  lemma DirectivesOne(l: Line)
    ensures Directives([l]) == if l.Directive? then [l] else []
  {
    assert [l][1..] == [];
  }

  lemma DirectivesOfBlock(note: Text, o: Opt, v: string)
    ensures Directives(DirectiveBlock(note, o, v)) == [Directive(o, v)]
  {
    assert DirectiveBlock(note, o, v) == [Fixed(note)] + [Directive(o, v)] + [Fixed(Rule)];
    DirectivesOne(Fixed(note));
    DirectivesOne(Directive(o, v));
    DirectivesOne(Fixed(Rule));
    DirectivesAppend([Fixed(note)], [Directive(o, v)]);
    DirectivesAppend([Fixed(note)] + [Directive(o, v)], [Fixed(Rule)]);
  }

  lemma DirectivesOfHeader()
    ensures Directives(HeaderBlock()) == []
  {
    assert HeaderBlock() == [Fixed(Shebang)] + [Fixed(Hash)] + [Fixed(Banner)] + [Fixed(Rule)];
    DirectivesOne(Fixed(Shebang));
    DirectivesOne(Fixed(Hash));
    DirectivesOne(Fixed(Banner));
    DirectivesOne(Fixed(Rule));
    DirectivesAppend([Fixed(Shebang)], [Fixed(Hash)]);
    DirectivesAppend([Fixed(Shebang)] + [Fixed(Hash)], [Fixed(Banner)]);
    DirectivesAppend([Fixed(Shebang)] + [Fixed(Hash)] + [Fixed(Banner)], [Fixed(Rule)]);
  }

  lemma {:induction false} DirectivesOfModules(mods: seq<string>)
    ensures Directives(ModuleLines(mods)) == []
  {
    if mods != [] {
      assert ModuleLines(mods)[1..] == ModuleLines(mods[1..]);
      DirectivesOfModules(mods[1..]);
    }
  }

  /** The `--mail-type` value for the requested notifications. */
  function MailTypeValue(c: ClusterConfig): string
  {
    if c.notifyOnEnd && c.notifyOnFail then "END,FAIL"
    else if c.notifyOnEnd then "END"
    else "FAIL"
  }

  lemma DirectivesOfMail(c: ClusterConfig)
    ensures Directives(MailBlock(c)) == MailDirectives(c)
  {
    if c.notifyOnEnd || c.notifyOnFail {
      assert Join(",", MailTypes(c)) == MailTypeValue(c) by {
        if c.notifyOnEnd && c.notifyOnFail {
          assert MailTypes(c) == ["END", "FAIL"];
          assert MailTypes(c)[1..] == ["FAIL"];
        } else if c.notifyOnEnd {
          assert MailTypes(c) == ["END"];
        } else {
          assert MailTypes(c) == ["FAIL"];
        }
      }
      var mt := Directive(MailType, Join(",", MailTypes(c)));
      var mu := Directive(MailUser, FormatOpt(c.email));
      assert MailBlock(c) == [Fixed(MailNote)] + [mt] + [mu];
      DirectivesOne(Fixed(MailNote));
      DirectivesOne(mt);
      DirectivesOne(mu);
      DirectivesAppend([Fixed(MailNote)], [mt]);
      DirectivesAppend([Fixed(MailNote)] + [mt], [mu]);
    }
  }

  /** The `--output` directives: the out file, then the err file, each when enabled. */
  function LogDirectives(c: ClusterConfig): seq<Line>
  {
    (if c.enableLogOut then [Directive(Output, "slurm_output.out")] else [])
    + (if c.enableLogErr then [Directive(Output, "slurm_output.err")] else [])
  }

  /** Time, gres, the partition choice, nodes and memory, always present. */
  function ResourceDirectives(c: ClusterConfig): seq<Line>
  {
    [ Directive(Time, c.jobTime),
      Directive(Gres, match c.gpuType
                      case None => "gpu:" + IntStr(c.perExperimentNbGpus)
                      case Some(t) => "gpu:" + t + ":" + IntStr(c.perExperimentNbGpus)),
      if c.hnsGpu then Directive(Partition, "hns_gpu") else Directive(Qos, "batch"),
      Directive(Nodes, IntStr(c.perExperimentNbNodes)),
      Directive(Mem, IntStr(c.memoryMbPerNode)) ]
  }

  /** The mail pair, present when either notification is requested. */
  function MailDirectives(c: ClusterConfig): seq<Line>
  {
    if c.notifyOnEnd || c.notifyOnFail
    then [Directive(MailType, MailTypeValue(c)), Directive(MailUser, FormatOpt(c.email))]
    else []
  }

  /** The directives a script must carry, in the order they must appear. */
  function ExpectedDirectives(c: ClusterConfig): seq<Line>
  {
    [Directive(JobName, FormatOpt(c.jobName))] + LogDirectives(c) + ResourceDirectives(c)
    + MailDirectives(c)
  }

  lemma DirectivesOfLogs(c: ClusterConfig)
    ensures Directives(LogBlocks(c)) == LogDirectives(c)
  {
    DirectivesOfBlock(OutNote, Output, "slurm_output.out");
    DirectivesOfBlock(ErrNote, Output, "slurm_output.err");
    DirectivesAppend(if c.enableLogOut then OutBlock() else [], if c.enableLogErr then ErrBlock() else []);
  }

  /** The middle of the directive list: time, gres, partition, nodes, memory. */
  lemma DirectivesOfMiddle(c: ClusterConfig)
    ensures Directives(TimeBlock(c.jobTime) + GpuBlock(GresValue(c)) + PartitionBlock(c)
                       + NodesBlock(c.perExperimentNbNodes) + MemBlock(c.memoryMbPerNode)) ==
      ResourceDirectives(c)
  {
    DirectivesOfBlock(TimeNote, Time, c.jobTime);
    DirectivesOfBlock(GpuNote, Gres, GresValue(c));
    DirectivesOfPartition(c);
    DirectivesOfBlock(NodesNote, Nodes, IntStr(c.perExperimentNbNodes));
    DirectivesOfBlock(MemNote, Mem, IntStr(c.memoryMbPerNode));
    DirectivesOfFive(TimeBlock(c.jobTime), GpuBlock(GresValue(c)), PartitionBlock(c),
                     NodesBlock(c.perExperimentNbNodes), MemBlock(c.memoryMbPerNode));
  }

  lemma DirectivesOfPartition(c: ClusterConfig)
    ensures Directives(PartitionBlock(c)) ==
      [if c.hnsGpu then Directive(Partition, "hns_gpu") else Directive(Qos, "batch")]
  {
    DirectivesOfBlock(PartitionNote, Qos, "batch");
    DirectivesOfBlock(PartitionNote, Partition, "hns_gpu");
  }

  /** The directives of five blocks in a row are theirs, in order. */
  lemma DirectivesOfFive(b1: seq<Line>, b2: seq<Line>, b3: seq<Line>, b4: seq<Line>, b5: seq<Line>)
    ensures Directives(b1 + b2 + b3 + b4 + b5) ==
      Directives(b1) + Directives(b2) + Directives(b3) + Directives(b4) + Directives(b5)
  {
    DirectivesAppend(b1, b2);
    DirectivesAppend(b1 + b2, b3);
    DirectivesAppend(b1 + b2 + b3, b4);
    DirectivesAppend(b1 + b2 + b3 + b4, b5);
  }

  lemma DirectiveLinesSplit(c: ClusterConfig)
    ensures DirectiveLines(c) ==
      HeaderBlock() + JobNameBlock(FormatOpt(c.jobName)) + LogBlocks(c)
      + (TimeBlock(c.jobTime) + GpuBlock(GresValue(c)) + PartitionBlock(c)
         + NodesBlock(c.perExperimentNbNodes) + MemBlock(c.memoryMbPerNode))
      + MailBlock(c)
  {
    var x := HeaderBlock() + JobNameBlock(FormatOpt(c.jobName)) + LogBlocks(c);
    var t, g, p := TimeBlock(c.jobTime), GpuBlock(GresValue(c)), PartitionBlock(c);
    var n, m := NodesBlock(c.perExperimentNbNodes), MemBlock(c.memoryMbPerNode);
    AppendAssoc(x, t, g);
    AppendAssoc(x, t + g, p);
    AppendAssoc(x, t + g + p, n);
    AppendAssoc(x, t + g + p + n, m);
  }

  /** The `#SBATCH` lines of the directive section are the expected ones, in order. */
  lemma DirectivesOfDirectiveLines(c: ClusterConfig)
    ensures Directives(DirectiveLines(c)) == ExpectedDirectives(c)
  {
    var h := HeaderBlock() + JobNameBlock(FormatOpt(c.jobName));
    var l := h + LogBlocks(c);
    var mid := TimeBlock(c.jobTime) + GpuBlock(GresValue(c)) + PartitionBlock(c)
               + NodesBlock(c.perExperimentNbNodes) + MemBlock(c.memoryMbPerNode);
    DirectiveLinesSplit(c);
    DirectivesOfHeader();
    DirectivesOfBlock(JobNameNote, JobName, FormatOpt(c.jobName));
    DirectivesAppend(HeaderBlock(), JobNameBlock(FormatOpt(c.jobName)));
    var dh := [Directive(JobName, FormatOpt(c.jobName))];
    assert Directives(h) == dh;
    DirectivesOfLogs(c);
    DirectivesAppend(h, LogBlocks(c));
    DirectivesOfMiddle(c);
    DirectivesAppend(l, mid);
    DirectivesOfMail(c);
    DirectivesAppend(l + mid, MailBlock(c));
  }

  /** The blank line and the module lines add no `#SBATCH` line. */
  lemma DirectivesOfBody(c: ClusterConfig)
    ensures Directives(BodyLines(c)) == ExpectedDirectives(c)
  {
    DirectivesOfDirectiveLines(c);
    DirectivesOfModules(c.modules);
    DirectivesOne(Fixed(Newline));
    DirectivesAppend(DirectiveLines(c), [Fixed(Newline)]);
    DirectivesAppend(DirectiveLines(c) + [Fixed(Newline)], ModuleLines(c.modules));
  }

  // ---------------------------------------------------------------------
  // How often and where each option appears
  // ---------------------------------------------------------------------

  /** How many directives among `ds` set option `o`. */
  function CountOpt(ds: seq<Line>, o: Opt): nat
  {
    if ds == [] then 0
    else (if ds[0].Directive? && ds[0].opt == o then 1 else 0) + CountOpt(ds[1..], o)
  }

  lemma {:induction false} CountAppend(a: seq<Line>, b: seq<Line>, o: Opt)
    ensures CountOpt(a + b, o) == CountOpt(a, o) + CountOpt(b, o)
  {
    if a == [] {
      EmptyAppend(a, b);
    } else {
      ConsAppend(a, b);
      CountAppend(a[1..], b, o);
    }
  }

  function Ind(b: bool): nat { if b then 1 else 0 }

  /** How often the script sets each option. */
  function ExpectedCount(c: ClusterConfig, o: Opt): nat
  {
    match o
    case JobName => 1
    case Output => Ind(c.enableLogOut) + Ind(c.enableLogErr)
    case Time => 1
    case Gres => 1
    case Qos => Ind(!c.hnsGpu)
    case Partition => Ind(c.hnsGpu)
    case Nodes => 1
    case Mem => 1
    case MailType => Ind(c.notifyOnEnd || c.notifyOnFail)
    case MailUser => Ind(c.notifyOnEnd || c.notifyOnFail)
  }

  lemma CountPair(x: Line, y: Line, o: Opt)
    ensures CountOpt([x, y], o) == CountOpt([x], o) + CountOpt([y], o)
  {
    assert [x, y] == [x] + [y];
    CountAppend([x], [y], o);
  }

  lemma CountOne(x: Line, o: Opt)
    ensures CountOpt([x], o) == Ind(x.Directive? && x.opt == o)
  {
    assert [x][1..] == [];
  }

  lemma CountOfLogs(c: ClusterConfig, o: Opt)
    ensures CountOpt(LogDirectives(c), o) == if o == Output then Ind(c.enableLogOut) + Ind(c.enableLogErr) else 0
  {
    var a := if c.enableLogOut then [Directive(Output, "slurm_output.out")] else [];
    var b := if c.enableLogErr then [Directive(Output, "slurm_output.err")] else [];
    CountAppend(a, b, o);
    CountOne(Directive(Output, "slurm_output.out"), o);
    CountOne(Directive(Output, "slurm_output.err"), o);
  }

  lemma CountOfResources(c: ClusterConfig, o: Opt)
    ensures CountOpt(ResourceDirectives(c), o) ==
      Ind(o == Time) + Ind(o == Gres) + Ind(o == Qos && !c.hnsGpu) + Ind(o == Partition && c.hnsGpu)
      + Ind(o == Nodes) + Ind(o == Mem)
  {
    var r := ResourceDirectives(c);
    assert r == [r[0]] + [r[1]] + [r[2]] + [r[3]] + [r[4]];
    CountAppend([r[0]], [r[1]], o);
    CountAppend([r[0]] + [r[1]], [r[2]], o);
    CountAppend([r[0]] + [r[1]] + [r[2]], [r[3]], o);
    CountAppend([r[0]] + [r[1]] + [r[2]] + [r[3]], [r[4]], o);
    CountOne(r[0], o);
    CountOne(r[1], o);
    CountOne(r[2], o);
    CountOne(r[3], o);
    CountOne(r[4], o);
  }

  lemma CountOfMail(c: ClusterConfig, o: Opt)
    ensures CountOpt(MailDirectives(c), o) ==
      if o == MailType || o == MailUser then Ind(c.notifyOnEnd || c.notifyOnFail) else 0
  {
    if c.notifyOnEnd || c.notifyOnFail {
      var mt := Directive(MailType, MailTypeValue(c));
      var mu := Directive(MailUser, FormatOpt(c.email));
      CountPair(mt, mu, o);
      CountOne(mt, o);
      CountOne(mu, o);
    }
  }

  /**
    The job name, time, gres, node count and memory are each set exactly
    once; exactly one of `--qos=batch` and `-p hns_gpu` is set, the latter
    when `hns_gpu` is on; there is one `--output` per enabled log; the mail
    type and mail user are set once each when a notification is requested
    and not at all otherwise.
   */
  lemma DirectiveCounts(c: ClusterConfig, o: Opt)
    ensures CountOpt(ExpectedDirectives(c), o) == ExpectedCount(c, o)
  {
    var j := [Directive(JobName, FormatOpt(c.jobName))];
    CountOne(Directive(JobName, FormatOpt(c.jobName)), o);
    CountAppend(j, LogDirectives(c), o);
    CountAppend(j + LogDirectives(c), ResourceDirectives(c), o);
    CountAppend(j + LogDirectives(c) + ResourceDirectives(c), MailDirectives(c), o);
    CountOfLogs(c, o);
    CountOfResources(c, o);
    CountOfMail(c, o);
  }

  /** A list made of four parts, the first of length one, the third of length five, read back by position. */
  lemma FourParts<T>(j: seq<T>, l: seq<T>, r: seq<T>, m: seq<T>)
    requires |j| == 1 && |r| == 5
    ensures var ds := j + l + r + m;
      && |ds| == |l| + 6 + |m|
      && ds[0] == j[0]
      && ds[1..|l| + 1] == l
      && ds[|l| + 1..|l| + 6] == r
      && ds[|l| + 6..] == m
  {
    var ds := j + l + r + m;
    assert ds == j + (l + (r + m));
    assert ds[1..] == l + (r + m);
    assert ds[1..|l| + 1] == ds[1..][..|l|];
    assert ds[|l| + 1..] == r + m;
    assert ds[|l| + 1..|l| + 6] == ds[|l| + 1..][..5];
  }

  /** The four parts of the expected directive list, by position. */
  lemma DirectiveParts(c: ClusterConfig)
    ensures var ds := ExpectedDirectives(c);
      var k := |LogDirectives(c)|;
      && |ds| == k + 6 + |MailDirectives(c)|
      && ds[0] == Directive(JobName, FormatOpt(c.jobName))
      && ds[1..k + 1] == LogDirectives(c)
      && ds[k + 1..k + 6] == ResourceDirectives(c)
      && ds[k + 6..] == MailDirectives(c)
  {
    FourParts([Directive(JobName, FormatOpt(c.jobName))], LogDirectives(c), ResourceDirectives(c),
              MailDirectives(c));
  }

  /** The directive list opens with the job name, then the out file, then the err file. */
  lemma DirectiveOrderLogs(c: ClusterConfig)
    ensures var ds := ExpectedDirectives(c);
      var k := Ind(c.enableLogOut) + Ind(c.enableLogErr);
      && |ds| == k + 6 + 2 * Ind(c.notifyOnEnd || c.notifyOnFail)
      && ds[0] == Directive(JobName, FormatOpt(c.jobName))
      && (c.enableLogOut ==> ds[1] == Directive(Output, "slurm_output.out"))
      && (c.enableLogErr ==> ds[k] == Directive(Output, "slurm_output.err"))
  {
    var ds := ExpectedDirectives(c);
    var l := LogDirectives(c);
    DirectiveParts(c);
    if c.enableLogOut {
      assert ds[1] == l[0];
    }
    if c.enableLogErr {
      assert ds[|l|] == l[|l| - 1];
    }
  }

  /** After the log files: time, gres, the partition choice, nodes, memory. */
  lemma DirectiveOrderResources(c: ClusterConfig)
    ensures var ds := ExpectedDirectives(c);
      var k := Ind(c.enableLogOut) + Ind(c.enableLogErr);
      && k + 6 <= |ds|
      && ds[k + 1] == Directive(Time, c.jobTime)
      && ds[k + 2] == Directive(Gres, GresValue(c))
      && ds[k + 3] == (if c.hnsGpu then Directive(Partition, "hns_gpu") else Directive(Qos, "batch"))
      && ds[k + 4] == Directive(Nodes, IntStr(c.perExperimentNbNodes))
      && ds[k + 5] == Directive(Mem, IntStr(c.memoryMbPerNode))
  {
    var ds := ExpectedDirectives(c);
    var k := |LogDirectives(c)|;
    DirectiveParts(c);
    var r := ResourceDirectives(c);
    assert ds[k + 1..k + 6] == r;
    assert r[1] == Directive(Gres, GresValue(c));
    assert ds[k + 1] == r[0] && ds[k + 2] == r[1] && ds[k + 3] == r[2];
    assert ds[k + 4] == r[3] && ds[k + 5] == r[4];
  }

  /** The mail pair, when present, closes the directive list: type, then user. */
  lemma DirectiveOrderMail(c: ClusterConfig)
    ensures var ds := ExpectedDirectives(c);
      var k := Ind(c.enableLogOut) + Ind(c.enableLogErr);
      c.notifyOnEnd || c.notifyOnFail ==>
        && |ds| == k + 8
        && ds[k + 6] == Directive(MailType, MailTypeValue(c))
        && ds[k + 7] == Directive(MailUser, FormatOpt(c.email))
  {
    var ds := ExpectedDirectives(c);
    var k := |LogDirectives(c)|;
    DirectiveParts(c);
    if c.notifyOnEnd || c.notifyOnFail {
      var m := ds[k + 6..];
      assert ds[k + 6] == m[0] && ds[k + 7] == m[1];
    }
  }

  // ---------------------------------------------------------------------
  // The scheduler directives of a script
  // ---------------------------------------------------------------------

  /** The launch line is not a directive. */
  lemma LaunchNotSbatch(c: ClusterConfig, trial: Trial)
    ensures SbatchLines([LaunchCommand(c, trial)]) == []
  {
    NotPrefixAt(Sbatch, LaunchCommand(c, trial), 0);
    assert [LaunchCommand(c, trial)][1..] == [];
  }

  /**
    The lines of a script that start with `#SBATCH ` are exactly the
    expected directives, rendered, in the expected order.
   */
  lemma SbatchOfScript(c: ClusterConfig, trial: Trial)
    ensures SbatchLines(ScriptLines(c, trial)) == RenderAll(ExpectedDirectives(c))
  {
    SbatchAppend(StripAll(RenderAll(BodyLines(c))), [LaunchCommand(c, trial)]);
    SbatchOfLines(BodyLines(c));
    DirectivesOfBody(c);
    LaunchNotSbatch(c, trial);
  }

  /** The gres value: `gpu:<n>`, or `gpu:<type>:<n>` when a GPU type is set. */
  lemma GresValueShape(c: ClusterConfig)
    ensures var g := GresValue(c);
      var n := IntStr(c.perExperimentNbGpus);
      && "gpu:" <= g && |n| < |g| && g[|g| - |n|..] == n
      && (c.gpuType.None? ==> |g| == 4 + |n|)
      && (c.gpuType.Some? ==> g[4..|g| - |n|] == c.gpuType.value + ":")
  {
    var n := IntStr(c.perExperimentNbGpus);
    match c.gpuType
    case None =>
      assert GresValue(c) == "gpu:" + n;
    case Some(t) =>
      var g := GresValue(c);
      assert g == "gpu:" + (t + ":") + n;
  }

  // ---------------------------------------------------------------------
  // Counting directives on the script's own lines
  // ---------------------------------------------------------------------

  /** How many of the strings `ss` start with `p`. */
  function CountPrefixed(ss: seq<string>, p: string): nat
  {
    if ss == [] then 0 else (if p <= ss[0] then 1 else 0) + CountPrefixed(ss[1..], p)
  }

  /** The character at position 10 of each directive prefix, right after `#SBATCH -`. */
  function Mark(o: Opt): char
  {
    match o
    case JobName => 'j'
    case Output => 'o'
    case Time => 't'
    case Gres => 'g'
    case Qos => 'q'
    case Partition => ' '
    case Nodes => 'n'
    case Mem => 'm'
    case MailType => 'm'
    case MailUser => 'm'
  }

  lemma MarkAt(o: Opt)
    ensures |DirectivePrefix(o)| > 10 && DirectivePrefix(o)[10] == Mark(o)
  {
  }

  /** The three options whose mark is `m` differ at positions 11 and 15. */
  lemma MailMarks()
    ensures DirectivePrefix(Mem)[11] == 'e'
    ensures |DirectivePrefix(MailType)| > 15 && DirectivePrefix(MailType)[11] == 'a' && DirectivePrefix(MailType)[15] == 't'
    ensures |DirectivePrefix(MailUser)| > 15 && DirectivePrefix(MailUser)[11] == 'a' && DirectivePrefix(MailUser)[15] == 'u'
  {
  }

  /** No option's directive prefix is a prefix of another option's. */
  lemma PrefixesDistinct(o: Opt, o': Opt)
    requires o != o'
    ensures !(DirectivePrefix(o) <= DirectivePrefix(o'))
  {
    var p, q := DirectivePrefix(o), DirectivePrefix(o');
    MarkAt(o);
    MarkAt(o');
    if Mark(o) != Mark(o') {
      NotPrefixAt(p, q, 10);
    } else {
      MailMarks();
      if o == Mem || o' == Mem {
        NotPrefixAt(p, q, 11);
      } else {
        NotPrefixAt(p, q, 15);
      }
    }
  }

  /** Two prefixes of one string: the shorter is a prefix of the longer. */
  lemma PrefixesComparable(p: string, q: string, s: string)
    requires p <= s && q <= s && |p| <= |q|
    ensures p <= q
  {
    assert q[..|p|] == s[..|p|];
  }

  /** A rendered line starts with the prefix of option `o` exactly when it is a directive for `o`. */
  lemma LinePrefixed(l: Line, o: Opt)
    ensures DirectivePrefix(o) <= Render(l) <==> l.Directive? && l.opt == o
  {
    var p := DirectivePrefix(o);
    assert Sbatch <= p;
    match l
    case Directive(o', v) =>
      var s := Render(l);
      PrefixConcat(DirectivePrefix(o'), DirectivePrefix(o'), v);
      if o' != o && p <= s {
        if |p| <= |DirectivePrefix(o')| {
          PrefixesComparable(p, DirectivePrefix(o'), s);
          PrefixesDistinct(o, o');
        } else {
          PrefixesComparable(DirectivePrefix(o'), p, s);
          PrefixesDistinct(o', o);
        }
      }
    case Fixed(t) =>
      StripLine(l);
      SbatchLine(l);
      if p <= Render(l) {
        PrefixTrans(Sbatch, p, Render(l));
      }
    case ModuleLoad(m) =>
      RenderStart(l);
      NotPrefixAt(p, Render(l), 0);
  }

  /** Only `#SBATCH ` lines can start with a directive prefix. */
  lemma {:induction false} CountPrefixedSbatch(ss: seq<string>, o: Opt)
    ensures CountPrefixed(ss, DirectivePrefix(o)) == CountPrefixed(SbatchLines(ss), DirectivePrefix(o))
  {
    if ss != [] {
      var p := DirectivePrefix(o);
      var h := if IsSbatch(ss[0]) then [ss[0]] else [];
      CountPrefixedSbatch(ss[1..], o);
      if p <= ss[0] {
        assert Sbatch <= p;
        PrefixTrans(Sbatch, p, ss[0]);
      }
      CountPrefixedAppend(h, SbatchLines(ss[1..]), p);
    }
  }

  lemma {:induction false} CountPrefixedAppend(a: seq<string>, b: seq<string>, p: string)
    ensures CountPrefixed(a + b, p) == CountPrefixed(a, p) + CountPrefixed(b, p)
  {
    if a == [] {
      EmptyAppend(a, b);
    } else {
      ConsAppend(a, b);
      CountPrefixedAppend(a[1..], b, p);
    }
  }

  /** Counting rendered lines by prefix is counting lines by option. */
  lemma {:induction false} CountPrefixedRender(ls: seq<Line>, o: Opt)
    ensures CountPrefixed(RenderAll(ls), DirectivePrefix(o)) == CountOpt(ls, o)
  {
    if ls != [] {
      RenderTail(ls);
      LinePrefixed(ls[0], o);
      CountPrefixedRender(ls[1..], o);
    }
  }

  /**
    On the script's own lines: the number of lines starting with the
    directive prefix of `o` is the expected count of `o` (so the job name,
    time, gres, nodes and memory lines appear exactly once each).
   */
  lemma ScriptDirectiveCounts(c: ClusterConfig, trial: Trial, o: Opt)
    ensures CountPrefixed(ScriptLines(c, trial), DirectivePrefix(o)) == ExpectedCount(c, o)
  {
    CountPrefixedSbatch(ScriptLines(c, trial), o);
    SbatchOfScript(c, trial);
    CountPrefixedRender(ExpectedDirectives(c), o);
    DirectiveCounts(c, o);
  }

  // ---------------------------------------------------------------------
  // The line list and the text of a script
  // ---------------------------------------------------------------------

  /** Each body line becomes its rendering, left-stripped, in the line list. */
  lemma ScriptLineAt(c: ClusterConfig, trial: Trial, i: nat)
    requires i < |BodyLines(c)|
    ensures |ScriptLines(c, trial)| == |BodyLines(c)| + 1
    ensures ScriptLines(c, trial)[i] == LStrip(Render(BodyLines(c)[i]))
  {
  }

  /**
    `lstrip` changes no element of the line list except the `'\n'` element,
    which becomes empty; no element before the launch line starts with
    whitespace.
   */
  lemma StripEffect(c: ClusterConfig, trial: Trial)
    ensures var lines := ScriptLines(c, trial);
      var body := BodyLines(c);
      && |lines| == |body| + 1
      && (forall i :: 0 <= i < |body| && body[i] != Fixed(Newline) ==> lines[i] == Render(body[i]))
      && (forall i :: 0 <= i < |body| && body[i] == Fixed(Newline) ==> lines[i] == "")
      && (forall i :: 0 <= i < |lines| - 1 ==> lines[i] == "" || !IsSpace(lines[i][0]))
  {
    var body := BodyLines(c);
    forall i | 0 <= i < |body|
      ensures ScriptLines(c, trial)[i] == LStrip(Render(body[i]))
      ensures body[i] != Fixed(Newline) ==> ScriptLines(c, trial)[i] == Render(body[i])
      ensures body[i] == Fixed(Newline) ==> ScriptLines(c, trial)[i] == ""
    {
      ScriptLineAt(c, trial, i);
      StripLine(body[i]);
    }
  }

  /** The head of a concatenation of blocks is the head of the first block. */
  lemma HeadOfBlocks<T>(h: seq<T>, b1: seq<T>, b2: seq<T>, b3: seq<T>, b4: seq<T>, b5: seq<T>,
                        b6: seq<T>, b7: seq<T>, b8: seq<T>)
    requires h != []
    ensures var s := h + b1 + b2 + b3 + b4 + b5 + b6 + b7 + b8;
      s != [] && s[0] == h[0]
  {
  }

  /** The header opens the directive section: its first line is the shebang. */
  lemma FirstDirectiveLine(c: ClusterConfig)
    ensures |DirectiveLines(c)| > 0 && DirectiveLines(c)[0] == Fixed(Shebang)
  {
    HeadOfBlocks(HeaderBlock(), JobNameBlock(FormatOpt(c.jobName)), LogBlocks(c),
                 TimeBlock(c.jobTime), GpuBlock(GresValue(c)), PartitionBlock(c),
                 NodesBlock(c.perExperimentNbNodes), MemBlock(c.memoryMbPerNode), MailBlock(c));
  }

  /** So the body starts with the shebang as well. */
  lemma FirstBodyLine(c: ClusterConfig)
    ensures |BodyLines(c)| > 0 && BodyLines(c)[0] == Fixed(Shebang)
  {
    FirstDirectiveLine(c);
    ConsAppend(DirectiveLines(c), [Fixed(Newline)]);
    ConsAppend(DirectiveLines(c) + [Fixed(Newline)], ModuleLines(c.modules));
  }

  /** A `module load` line is left alone by `lstrip`. */
  lemma ModuleLineStrip(m: string)
    ensures LStrip(Render(ModuleLoad(m))) == "module load " + m
  {
    StripLine(ModuleLoad(m));
  }

  lemma ShebangStrip()
    ensures LStrip(Render(Fixed(Shebang))) == "#!/bin/bash"
  {
    StripLine(Fixed(Shebang));
  }

  lemma NewlineStrip()
    ensures LStrip(Render(Fixed(Newline))) == ""
  {
    StripLine(Fixed(Newline));
  }

  /** Element `i` of a line list is body line `i`, rendered and left-stripped. */
  lemma StripAt(body: seq<Line>, i: nat, launch: string)
    requires i < |body|
    ensures |StripAll(RenderAll(body)) + [launch]| == |body| + 1
    ensures (StripAll(RenderAll(body)) + [launch])[i] == LStrip(Render(body[i]))
  {
    assert RenderAll(body)[i] == Render(body[i]);
  }

  /**
    The layout of a script's line list: `d` elements up to the empty
    separator, the shebang first, one `module load` line per module after the
    separator, the launch line last.
   */
  predicate LinesLayout(lines: seq<string>, d: nat, mods: seq<string>, launch: string)
  {
    && |lines| == d + |mods| + 2
    && lines[0] == "#!/bin/bash"
    && lines[d] == ""
    && (forall j :: 0 <= j < |mods| ==> lines[d + 1 + j] == "module load " + mods[j])
    && lines[|lines| - 1] == launch
  }

  lemma StripShebangAt(body: seq<Line>, launch: string)
    requires |body| > 0 && body[0] == Fixed(Shebang)
    ensures (StripAll(RenderAll(body)) + [launch])[0] == "#!/bin/bash"
  {
    StripAt(body, 0, launch);
    ShebangStrip();
  }

  lemma StripNewlineAt(body: seq<Line>, i: nat, launch: string)
    requires i < |body| && body[i] == Fixed(Newline)
    ensures (StripAll(RenderAll(body)) + [launch])[i] == ""
  {
    StripAt(body, i, launch);
    NewlineStrip();
  }

  lemma StripModuleAt(body: seq<Line>, i: nat, m: string, launch: string)
    requires i < |body| && body[i] == ModuleLoad(m)
    ensures (StripAll(RenderAll(body)) + [launch])[i] == "module load " + m
  {
    StripAt(body, i, launch);
    ModuleLineStrip(m);
  }

  /**
    The shape of the line list: the shebang first; after the template and
    the directives the empty element, then one `module load` line per
    module in order; the launch line last.
   */
  lemma ScriptShape(c: ClusterConfig, trial: Trial)
    ensures LinesLayout(ScriptLines(c, trial), |DirectiveLines(c)|, c.modules, LaunchCommand(c, trial))
  {
    FirstDirectiveLine(c);
    LayoutOf(DirectiveLines(c), c.modules, LaunchCommand(c, trial));
  }

  /** The layout of the line list built from directive lines `a` that open with the shebang. */
  lemma LayoutOf(a: seq<Line>, mods: seq<string>, launch: string)
    requires |a| > 0 && a[0] == Fixed(Shebang)
    ensures LinesLayout(StripAll(RenderAll(a + [Fixed(Newline)] + ModuleLines(mods))) + [launch],
                        |a|, mods, launch)
  {
    LayoutEnds(a, mods, launch);
    LayoutFirst(a, mods, launch);
    LayoutSeparator(a, mods, launch);
    LayoutModules(a, mods, launch);
  }

  lemma LayoutEnds(a: seq<Line>, mods: seq<string>, launch: string)
    ensures var lines := StripAll(RenderAll(a + [Fixed(Newline)] + ModuleLines(mods))) + [launch];
      |lines| == |a| + |mods| + 2 && lines[|lines| - 1] == launch
  {
  }

  lemma LayoutFirst(a: seq<Line>, mods: seq<string>, launch: string)
    requires |a| > 0 && a[0] == Fixed(Shebang)
    ensures (StripAll(RenderAll(a + [Fixed(Newline)] + ModuleLines(mods))) + [launch])[0] == "#!/bin/bash"
  {
    ConsAppend(a, [Fixed(Newline)]);
    ConsAppend(a + [Fixed(Newline)], ModuleLines(mods));
    StripShebangAt(a + [Fixed(Newline)] + ModuleLines(mods), launch);
  }

  lemma LayoutSeparator(a: seq<Line>, mods: seq<string>, launch: string)
    ensures |a| < |a| + |mods| + 2
    ensures (StripAll(RenderAll(a + [Fixed(Newline)] + ModuleLines(mods))) + [launch])[|a|] == ""
  {
    var body := a + [Fixed(Newline)] + ModuleLines(mods);
    assert body[|a|] == Fixed(Newline);
    StripNewlineAt(body, |a|, launch);
  }

  lemma LayoutModules(a: seq<Line>, mods: seq<string>, launch: string)
    ensures forall j :: 0 <= j < |mods| ==>
      (StripAll(RenderAll(a + [Fixed(Newline)] + ModuleLines(mods))) + [launch])[|a| + 1 + j]
      == "module load " + mods[j]
  {
    var body := a + [Fixed(Newline)] + ModuleLines(mods);
    forall j | 0 <= j < |mods|
      ensures (StripAll(RenderAll(body)) + [launch])[|a| + 1 + j] == "module load " + mods[j]
    {
      assert body[|a| + 1 + j] == ModuleLines(mods)[j];
      StripModuleAt(body, |a| + 1 + j, mods[j], launch);
    }
  }

  /** The script text: the stripped lines joined by newlines, then the launch line. */
  lemma ScriptText(c: ClusterConfig, trial: Trial)
    ensures var lines := ScriptLines(c, trial);
      Script(c, trial) == Join("\n", lines[..|lines| - 1]) + "\n" + LaunchCommand(c, trial)
  {
    var lines := ScriptLines(c, trial);
    var init := StripAll(RenderAll(BodyLines(c)));
    FirstBodyLine(c);
    assert lines[..|lines| - 1] == init;
    JoinAppend("\n", init, [LaunchCommand(c, trial)]);
  }

  /** A script starts with the shebang line. */
  lemma ScriptStartsWithShebang(c: ClusterConfig, trial: Trial)
    ensures "#!/bin/bash\n" <= Script(c, trial)
  {
    var lines := ScriptLines(c, trial);
    ScriptShape(c, trial);
    assert |lines| >= 2;
    var rest := Join("\n", lines[1..]);
    assert Script(c, trial) == lines[0] + "\n" + rest;
    assert lines[0] + "\n" == "#!/bin/bash\n";
    PrefixConcat("#!/bin/bash\n", lines[0] + "\n", rest);
  }

  // ---------------------------------------------------------------------
  // The launch line
  // ---------------------------------------------------------------------

  /** The argument string: the trial's flags separated by spaces, then the trigger flag. */
  lemma HoptParamsShape(trial: Trial)
    ensures HoptParams(trial) ==
      (if trial == [] then "" else Join(" ", Flags(trial)) + " ") + "--" + TriggerCmd
    ensures forall i :: 0 <= i < |trial| ==> Flags(trial)[i] == "--" + trial[i].0 + " " + trial[i].1
  {
    if trial != [] {
      JoinAppend(" ", Flags(trial), ["--" + TriggerCmd]);
    } else {
      assert Flags(trial) + ["--" + TriggerCmd] == ["--" + TriggerCmd];
    }
  }

  lemma ConcatEnds(a: string, m: string, t: string)
    ensures var s := a + m + t;
      a <= s && |t| <= |s| && s[|s| - |t|..] == t
  {
    var s := a + m + t;
    assert s[..|a|] == a;
  }

  /** The launch line starts with `srun` and ends with the trigger flag. */
  lemma LaunchShape(c: ClusterConfig, trial: Trial)
    ensures var l := LaunchCommand(c, trial);
      var t := "--" + TriggerCmd;
      && "srun " <= l && |t| <= |l| && l[|l| - |t|..] == t
  {
    HoptParamsShape(trial);
    var t := "--" + TriggerCmd;
    var mid := c.pythonCmd + " ." + c.scriptName + " "
               + (if trial == [] then "" else Join(" ", Flags(trial)) + " ");
    assert LaunchCommand(c, trial) == "srun " + mid + t;
    ConcatEnds("srun ", mid, t);
  }

  // ---------------------------------------------------------------------
  // The launcher's effects
  // ---------------------------------------------------------------------

  /** Each script is written to the one script path, then comes a shell call of `.` + that path. */
  lemma {:induction false} SubmissionsIndex(path: string, scripts: seq<string>)
    ensures |Submissions(path, scripts)| == 2 * |scripts|
    ensures forall i :: 0 <= i < |scripts| ==>
      Submissions(path, scripts)[2 * i] == WriteFile(path, scripts[i])
      && Submissions(path, scripts)[2 * i + 1] == Shell("." + path)
  {
    if scripts != [] {
      var n := |scripts| - 1;
      SubmissionsIndex(path, scripts[..n]);
      forall i | 0 <= i < n
        ensures Submissions(path, scripts)[2 * i] == WriteFile(path, scripts[i])
        ensures Submissions(path, scripts)[2 * i + 1] == Shell("." + path)
      {
        assert scripts[..n][i] == scripts[i];
      }
    }
  }

  lemma {:induction false} NoRunInSubmissions(path: string, scripts: seq<string>)
    ensures RunExperiment !in Submissions(path, scripts)
  {
    if scripts != [] {
      NoRunInSubmissions(path, scripts[..|scripts| - 1]);
    }
  }

  /** The launcher's effects laid out over any directories and scripts. */
  lemma EffectsLayout(nbTrials: int, dirs: seq<string>, path: string, scripts: seq<string>)
    ensures var e := [GenerateTrials(nbTrials)] + EnsureDirs(dirs) + Submissions(path, scripts);
      && |e| == 1 + |dirs| + 2 * |scripts|
      && e[0] == GenerateTrials(nbTrials)
      && (forall j :: 0 <= j < |dirs| ==> e[1 + j] == EnsureDir(dirs[j]))
      && (forall i :: 0 <= i < |scripts| ==>
            e[1 + |dirs| + 2 * i] == WriteFile(path, scripts[i])
            && e[2 + |dirs| + 2 * i] == Shell("." + path))
      && RunExperiment !in e
  {
    var e := [GenerateTrials(nbTrials)] + EnsureDirs(dirs) + Submissions(path, scripts);
    var subs := Submissions(path, scripts);
    SubmissionsIndex(path, scripts);
    NoRunInSubmissions(path, scripts);
    forall i | 0 <= i < |scripts|
      ensures e[1 + |dirs| + 2 * i] == WriteFile(path, scripts[i])
      ensures e[2 + |dirs| + 2 * i] == Shell("." + path)
    {
      assert e[1 + |dirs| + 2 * i] == subs[2 * i];
      assert e[2 + |dirs| + 2 * i] == subs[2 * i + 1];
    }
    assert RunExperiment !in EnsureDirs(dirs);
  }

  /**
    The launcher asks for the trials once, makes sure the log directories
    exist, then for each trial in turn writes its script to `slurm_cmd.sh`
    in the log path, followed by a shell call of `.` and that path; it never
    starts the experiment itself.
   */
  lemma LauncherEffects(c: ClusterConfig, nbTrials: int, generateTrials: int -> seq<Trial>)
    ensures var e := DriverEffects(c, false, nbTrials, generateTrials);
      var trials := generateTrials(nbTrials);
      var dirs := LogDirs(c);
      var path := SlurmCmdPath(c);
      && |e| == 1 + |dirs| + 2 * |trials|
      && e[0] == GenerateTrials(nbTrials)
      && (forall j :: 0 <= j < |dirs| ==> e[1 + j] == EnsureDir(dirs[j]))
      && (forall i :: 0 <= i < |trials| ==>
            e[1 + |dirs| + 2 * i] == WriteFile(path, Script(c, trials[i]))
            && e[2 + |dirs| + 2 * i] == Shell("." + path))
      && RunExperiment !in e
  {
    EffectsLayout(nbTrials, LogDirs(c), SlurmCmdPath(c), Scripts(c, generateTrials(nbTrials)));
  }

  /** The texts of the files written, in order. */
  function WrittenScripts(effects: seq<Effect>): seq<string>
  {
    if effects == [] then []
    else (if effects[0].WriteFile? then [effects[0].text] else []) + WrittenScripts(effects[1..])
  }

  lemma {:induction false} WrittenAppend(a: seq<Effect>, b: seq<Effect>)
    ensures WrittenScripts(a + b) == WrittenScripts(a) + WrittenScripts(b)
  {
    if a == [] {
      EmptyAppend(a, b);
    } else {
      ConsAppend(a, b);
      WrittenAppend(a[1..], b);
      AppendAssoc(if a[0].WriteFile? then [a[0].text] else [], WrittenScripts(a[1..]), WrittenScripts(b));
    }
  }

  lemma {:induction false} WrittenOfDirs(dirs: seq<string>)
    ensures WrittenScripts(EnsureDirs(dirs)) == []
  {
    if dirs != [] {
      assert EnsureDirs(dirs)[1..] == EnsureDirs(dirs[1..]);
      WrittenOfDirs(dirs[1..]);
    }
  }

  lemma {:induction false} WrittenOfSubmissions(path: string, scripts: seq<string>)
    ensures WrittenScripts(Submissions(path, scripts)) == scripts
  {
    if scripts != [] {
      var n := |scripts| - 1;
      var pair := [WriteFile(path, scripts[n]), Shell("." + path)];
      WrittenOfSubmissions(path, scripts[..n]);
      WrittenAppend(Submissions(path, scripts[..n]), pair);
      assert pair[1..] == [Shell("." + path)];
      assert pair[1..][1..] == [];
      assert WrittenScripts(pair[1..]) == [];
      assert WrittenScripts(pair) == [scripts[n]];
      assert scripts == scripts[..n] + [scripts[n]];
    }
  }

  /**
    A scheduled job (the trigger flag present) writes no script at all; the
    launcher writes exactly one script per generated trial, in trial order.
    The experiment is started exactly when the trigger flag is present.
   */
  lemma DriverModes(c: ClusterConfig, fromSlurm: bool, nbTrials: int, generateTrials: int -> seq<Trial>)
    ensures WrittenScripts(DriverEffects(c, fromSlurm, nbTrials, generateTrials)) ==
      if fromSlurm then [] else Scripts(c, generateTrials(nbTrials))
    ensures RunExperiment in DriverEffects(c, fromSlurm, nbTrials, generateTrials) <==> fromSlurm
    ensures fromSlurm ==> DriverEffects(c, fromSlurm, nbTrials, generateTrials) == [RunExperiment]
  {
    if fromSlurm {
      assert [RunExperiment][1..] == [];
    } else {
      var g := [GenerateTrials(nbTrials)];
      var dirs := EnsureDirs(LogDirs(c));
      var subs := Submissions(SlurmCmdPath(c), Scripts(c, generateTrials(nbTrials)));
      assert g[1..] == [];
      WrittenAppend(g, dirs);
      WrittenAppend(g + dirs, subs);
      WrittenOfDirs(LogDirs(c));
      WrittenOfSubmissions(SlurmCmdPath(c), Scripts(c, generateTrials(nbTrials)));
      LauncherEffects(c, nbTrials, generateTrials);
    }
  }

  // ---------------------------------------------------------------------
  // The logging layout
  // ---------------------------------------------------------------------

  /** A prefix of a prefix is a prefix. */
  lemma PrefixTrans(a: string, b: string, s: string)
    requires a <= b && b <= s
    ensures a <= s
  {
  }

  /**
    The log path comes first; with an experiment name, its folder inside the
    log path, then `err_logs` and `out_logs` inside that folder when the
    respective log is enabled.
   */
  lemma LogDirsShape(c: ClusterConfig)
    ensures var dirs := LogDirs(c);
      && |dirs| > 0 && dirs[0] == c.logPath
      && (c.testTubeExpName.None? ==> |dirs| == 1)
      && (c.testTubeExpName.Some? ==>
            var exp := PathJoin(c.logPath, c.testTubeExpName.value);
            && |dirs| == 2 + Ind(c.enableLogErr) + Ind(c.enableLogOut)
            && dirs[1] == exp
            && (c.enableLogErr ==> dirs[2] == PathJoin(exp, "err_logs"))
            && (c.enableLogOut ==> dirs[|dirs| - 1] == PathJoin(exp, "out_logs")))
  {
    if c.testTubeExpName.Some? {
      var exp := PathJoin(c.logPath, c.testTubeExpName.value);
      var err := if c.enableLogErr then [PathJoin(exp, "err_logs")] else [];
      var out := if c.enableLogOut then [PathJoin(exp, "out_logs")] else [];
      assert LogDirs(c) == [c.logPath] + [exp] + err + out;
    }
  }

  /** The log folders that are created inside the experiment folder `exp`. */
  function LogSubDirs(exp: string, err: bool, out: bool): seq<string>
  {
    (if err then [PathJoin(exp, "err_logs")] else []) + (if out then [PathJoin(exp, "out_logs")] else [])
  }

  lemma LogDirsSplit(c: ClusterConfig)
    requires c.testTubeExpName.Some?
    ensures var exp := PathJoin(c.logPath, c.testTubeExpName.value);
      LogDirs(c) == [c.logPath, exp] + LogSubDirs(exp, c.enableLogErr, c.enableLogOut)
  {
  }

  lemma SubDirsInside(exp: string, err: bool, out: bool)
    ensures forall i :: 0 <= i < |LogSubDirs(exp, err, out)| ==> exp <= LogSubDirs(exp, err, out)[i]
  {
  }

  lemma PrefixedAll(p: string, e: string, tail: seq<string>)
    requires p <= e
    requires forall i :: 0 <= i < |tail| ==> e <= tail[i]
    ensures forall i :: 0 <= i < |[p, e] + tail| ==> p <= ([p, e] + tail)[i]
  {
    forall i | 2 <= i < |[p, e] + tail|
      ensures p <= ([p, e] + tail)[i]
    {
      assert ([p, e] + tail)[i] == tail[i - 2];
      PrefixTrans(p, e, tail[i - 2]);
    }
  }

  /** Every element after the first starts with `q` when `e` does and the tail's elements start with `e`. */
  lemma PrefixedAfterFirst(p: string, q: string, e: string, tail: seq<string>)
    requires q <= e
    requires forall i :: 0 <= i < |tail| ==> e <= tail[i]
    ensures forall i :: 1 <= i < |[p, e] + tail| ==> q <= ([p, e] + tail)[i]
  {
    forall i | 2 <= i < |[p, e] + tail|
      ensures q <= ([p, e] + tail)[i]
    {
      assert ([p, e] + tail)[i] == tail[i - 2];
      PrefixTrans(q, e, tail[i - 2]);
    }
  }

  /**
    With a relative experiment name, every directory's path starts with the
    log path; when the log path is non-empty and has no trailing `/`, every
    directory after the log path itself starts with the log path and a `/`.
   */
  lemma LogDirsInside(c: ClusterConfig)
    requires c.testTubeExpName.Some?
    requires !(|c.testTubeExpName.value| > 0 && c.testTubeExpName.value[0] == '/')
    ensures forall i :: 0 <= i < |LogDirs(c)| ==> c.logPath <= LogDirs(c)[i]
    ensures c.logPath != [] && c.logPath[|c.logPath| - 1] != '/' ==>
      forall i :: 1 <= i < |LogDirs(c)| ==> c.logPath + "/" <= LogDirs(c)[i]
  {
    var exp := PathJoin(c.logPath, c.testTubeExpName.value);
    var sub := LogSubDirs(exp, c.enableLogErr, c.enableLogOut);
    LogDirsSplit(c);
    SubDirsInside(exp, c.enableLogErr, c.enableLogOut);
    PrefixedAll(c.logPath, exp, sub);
    if c.logPath != [] && c.logPath[|c.logPath| - 1] != '/' {
      PathJoinSeparator(c.logPath, c.testTubeExpName.value);
      PrefixConcat(c.logPath + "/", c.logPath + "/", c.testTubeExpName.value);
      PrefixedAfterFirst(c.logPath, c.logPath + "/", exp, sub);
    }
  }

  // ---------------------------------------------------------------------
  // The defaults
  // ---------------------------------------------------------------------

  /** The settings of a freshly constructed cluster once the driver has named the job. */
  function DefaultConfig(logPath: string, scriptName: string, pythonCmd: string, name: string): ClusterConfig
  {
    ClusterConfig(logPath, pythonCmd, true, true, None, [], scriptName,
                  "15:00", 1, false, 1, 4000, None, false, false, Some(name), None)
  }

  lemma SmallIntStr()
    ensures IntStr(1) == "1" && IntStr(4000) == "4000"
  {
    assert NatDigits(4) == "4";
    assert NatDigits(40) == "4" + "0";
    assert NatDigits(400) == "40" + "0";
  }

  /**
    With the defaults, a script asks for 15 minutes, one GPU of any type,
    the `batch` QOS, one node and 4000 MB, writes both log files, and
    requests no mail.
   */
  lemma DefaultDirectiveLines(logPath: string, scriptName: string, pythonCmd: string, name: string)
    ensures ExpectedDirectives(DefaultConfig(logPath, scriptName, pythonCmd, name)) ==
      [ Directive(JobName, name), Directive(Output, "slurm_output.out"),
        Directive(Output, "slurm_output.err"), Directive(Time, "15:00"),
        Directive(Gres, "gpu:1"), Directive(Qos, "batch"), Directive(Nodes, "1"),
        Directive(Mem, "4000") ]
  {
    var c := DefaultConfig(logPath, scriptName, pythonCmd, name);
    SmallIntStr();
    assert "gpu:" + IntStr(1) == "gpu:1";
    assert LogDirectives(c) == [Directive(Output, "slurm_output.out"), Directive(Output, "slurm_output.err")];
    assert ResourceDirectives(c) == [ Directive(Time, "15:00"), Directive(Gres, "gpu:1"),
                                      Directive(Qos, "batch"), Directive(Nodes, "1"),
                                      Directive(Mem, "4000") ];
    assert MailDirectives(c) == [];
  }

  /**
    A cluster built with the constructor's default arguments, as a launcher,
    and then driven by `OptimizeParallelCluster` under a job name, asks for
    exactly those eight directives.
   */
  method NewClusterDirectives(logPath: string, scriptName: string, name: string)
    returns (s: SlurmCluster, ds: seq<Line>)
    ensures s.Config() == DefaultConfig(logPath, scriptName, "python3", name)
    ensures ds == ExpectedDirectives(s.Config())
    ensures ds ==
      [ Directive(JobName, name), Directive(Output, "slurm_output.out"),
        Directive(Output, "slurm_output.err"), Directive(Time, "15:00"),
        Directive(Gres, "gpu:1"), Directive(Qos, "batch"), Directive(Nodes, "1"),
        Directive(Mem, "4000") ]
  {
    s := new SlurmCluster(logPath, scriptName, false);
    var effects := s.OptimizeParallelCluster(1, name, n => []);
    DefaultDirectiveLines(logPath, scriptName, "python3", name);
    ds := ExpectedDirectives(s.Config());
  }
}
