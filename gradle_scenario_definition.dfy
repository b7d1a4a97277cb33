/**
 * A Gradle benchmark scenario (GradleScenarioDefinition): a descriptor
 * whose fields are bound by its constructor and which no method of the
 * class changes. It derives
 * display and profile names from the scenario name and the Gradle version,
 * renders its measured tasks, and prints a fixed sequence of detail lines.
 */
module GradleScenario {
  import opened Text
  import opened Output

  datatype Option<T> = None | Some(value: T)

  /**
   * The Gradle version, seen through the two things the scenario asks of it:
   * how it renders itself (toString) and its version string (getVersion()).
   * Both are uninterpreted strings here.
   */
  datatype GradleVersion = GradleVersion(rendering: string, version: string)

  /** A java.io.File, seen through the path its toString gives. */
  datatype File = File(path: string)

  /** The resolved Gradle installation: its version and its home directory. */
  datatype GradleBuildConfiguration = GradleBuildConfiguration(gradleVersion: GradleVersion, gradleHome: File)

  /** How Gradle is launched, seen through how it renders itself. */
  datatype Invoker = Invoker(rendering: string)

  /** A Class<?> naming the tooling model to fetch, seen through how it renders itself. */
  datatype ModelClass = ModelClass(rendering: string)

  /** The Supplier<BuildMutator> handed to the base scenario: an opaque stored value. */
  datatype MutatorSupplier = MutatorSupplier(handle: nat)

  /** No two entries of `entries` share a key, as in a java.util.Map. */
  predicate DistinctKeys(entries: seq<(string, string)>)
  {
    forall i, j :: 0 <= i < j < |entries| ==> entries[i].0 != entries[j].0
  }

  /** The system-property map, as its entries in iteration order. */
  type SystemProperties = entries: seq<(string, string)> | DistinctKeys(entries)

  /** The map the entries stand for; a later entry would override an earlier one, as Map.put does. */
  function ToMap(entries: seq<(string, string)>): (m: map<string, string>)
    ensures m.Keys == set i | 0 <= i < |entries| :: entries[i].0
  {
    if |entries| == 0 then map[]
    else
      var last := entries[|entries| - 1];
      ToMap(entries[..|entries| - 1])[last.0 := last.1]
  }

  /** With distinct keys, every entry is in the map, under its own key. */
  lemma {:induction false} ToMapLookup(entries: seq<(string, string)>)
    requires DistinctKeys(entries)
    ensures forall i :: 0 <= i < |entries| ==> entries[i].0 in ToMap(entries) && ToMap(entries)[entries[i].0] == entries[i].1
  {
    if |entries| > 0 {
      var init := entries[..|entries| - 1];
      ToMapLookup(init);
      forall i | 0 <= i < |entries|
        ensures entries[i].0 in ToMap(entries) && ToMap(entries)[entries[i].0] == entries[i].1
      {
        if i < |entries| - 1 {
          assert init[i] == entries[i];
        }
      }
    }
  }

  /** With distinct keys, the map has exactly one key per entry. */
  lemma {:induction false} ToMapSize(entries: seq<(string, string)>)
    requires DistinctKeys(entries)
    ensures |ToMap(entries)| == |entries|
  {
    if |entries| > 0 {
      var init := entries[..|entries| - 1];
      var last := entries[|entries| - 1];
      ToMapSize(init);
      assert last.0 !in ToMap(init);
    }
  }

  const RunUsingPrefix := "  Run using: "
  const CleanupTasksPrefix := "  Cleanup Tasks: "
  const TasksPrefix := "  Tasks: "
  const ToolingModelPrefix := "  Tooling model: "
  const GradleArgsPrefix := "  Gradle args: "
  const SystemPropertiesHeader := "  System properties:"
  const PropertyIndent := "    "

  /** The detail line printed for one system property: indented `key=value`. */
  function PropertyLine(entry: (string, string)): string
  {
    PropertyIndent + entry.0 + "=" + entry.1
  }

  /** One detail line per entry, in the entries' order. */
  function PropertyLines(entries: seq<(string, string)>): (lines: seq<string>)
    ensures |lines| == |entries|
    ensures forall i :: 0 <= i < |entries| ==> lines[i] == PropertyLine(entries[i])
  {
    if |entries| == 0 then [] else [PropertyLine(entries[0])] + PropertyLines(entries[1..])
  }

  /** Printing the entries one more entry further appends that entry's line. */
  lemma PropertyLinesAppend(entries: seq<(string, string)>, i: nat)
    requires i < |entries|
    ensures PropertyLines(entries[..i + 1]) == PropertyLines(entries[..i]) + [PropertyLine(entries[i])]
  {
  }

  /** The last `n` elements of `a + b` are the last `n` elements of `b`. */
  lemma SuffixOfAppend<T>(a: seq<T>, b: seq<T>, n: nat)
    requires n <= |b|
    ensures (a + b)[|a + b| - n..] == b[|b| - n..]
  {
  }

  /**
   * The scenario. The constructor takes the Java constructor's parameters in
   * the same order and binds each to the field of the same name; the
   * destructors are the accessors (getName, getInvoker, getTasks, ...), and
   * no operation below changes a field.
   */
  datatype GradleScenarioDefinition = GradleScenarioDefinition(
    name: string,
    invoker: Invoker,
    buildConfiguration: GradleBuildConfiguration,
    tasks: seq<string>,
    toolingModel: Option<ModelClass>,
    cleanupTasks: seq<string>,
    gradleArgs: seq<string>,
    systemProperties: SystemProperties,
    buildMutator: MutatorSupplier,
    warmUpCount: int,
    buildCount: int,
    outputDir: File)
  {
    /** getDisplayName: the scenario name, " using ", then the Gradle version as it renders itself. */
    function DisplayName(): (r: string)
      ensures StartsWith(r, name)
      ensures r[|name|..] == " using " + buildConfiguration.gradleVersion.rendering
    {
      name + " using " + buildConfiguration.gradleVersion.rendering
    }

    /** getBuildToolDisplayName: the Gradle version string. */
    function BuildToolDisplayName(): (r: string)
      ensures r == buildConfiguration.gradleVersion.version
    {
      buildConfiguration.gradleVersion.version
    }

    /** getProfileName: the scenario name, "-", then the Gradle version string. */
    function ProfileName(): (r: string)
      ensures r == name + "-" + BuildToolDisplayName()
      ensures StartsWith(r, name)
    {
      name + "-" + buildConfiguration.gradleVersion.version
    }

    /** getTasksDisplayName: the measured tasks joined by single spaces, in order. */
    function TasksDisplayName(): (r: string)
      ensures |tasks| == 0 ==> r == ""
      ensures |tasks| == 1 ==> r == tasks[0]
    {
      Join(tasks, " ")
    }

    /** The first detail line: the Gradle version and, in parentheses, the Gradle home. */
    function HeaderLine(): string
    {
      "  " + buildConfiguration.gradleVersion.rendering + " (" + buildConfiguration.gradleHome.path + ")"
    }

    function RunUsingLine(): string { RunUsingPrefix + invoker.rendering }

    function CleanupTasksLine(): string { CleanupTasksPrefix + ListToString(cleanupTasks) }

    function TasksLine(): string { TasksPrefix + ListToString(tasks) }

    /** The tooling-model line, printed only when a tooling model is set. */
    function ToolingModelLines(): seq<string>
    {
      match toolingModel
      case Some(model) => [ToolingModelPrefix + model.rendering]
      case None => []
    }

    function GradleArgsLine(): string { GradleArgsPrefix + ListToString(gradleArgs) }

    /** Index of the "Gradle args" line: right after Tasks, or after the tooling-model line when there is one. */
    function ArgsIndex(): nat
    {
      if toolingModel.Some? then 5 else 4
    }

    /** The lines printDetail always prints, up to and including "Gradle args". */
    function FixedLines(): (lines: seq<string>)
      ensures |lines| == ArgsIndex() + 1
    {
      [HeaderLine(), RunUsingLine(), CleanupTasksLine(), TasksLine()] + ToolingModelLines() + [GradleArgsLine()]
    }

    /** The system-properties block: nothing for an empty map, else a header and one line per entry. */
    function PropertiesBlock(): (lines: seq<string>)
      ensures |lines| == if |systemProperties| > 0 then 1 + |systemProperties| else 0
    {
      if |systemProperties| == 0 then [] else [SystemPropertiesHeader] + PropertyLines(systemProperties)
    }

    /** Everything printDetail prints, line by line. */
    function DetailLines(): (lines: seq<string>)
      ensures |lines| == 5 + (if toolingModel.Some? then 1 else 0)
                           + (if |systemProperties| > 0 then 1 + |systemProperties| else 0)
    {
      FixedLines() + PropertiesBlock()
    }

    /** printDetail: prints the detail lines to `out`, one println each, and nothing else. */
    method PrintDetail(out: PrintSink)
      modifies out
      ensures out.lines == old(out.lines) + DetailLines()
    {
      PrintFixedLines(out);
      PrintSystemProperties(out);
    }

    /** The head of printDetail: the lines printed whatever the scenario holds, and the tooling model when set. */
    method PrintFixedLines(out: PrintSink)
      modifies out
      ensures out.lines == old(out.lines) + FixedLines()
    {
      out.Println("  " + buildConfiguration.gradleVersion.rendering + " (" + buildConfiguration.gradleHome.path + ")");
      out.Println(RunUsingPrefix + invoker.rendering);
      out.Println(CleanupTasksPrefix + ListToString(cleanupTasks));
      out.Println(TasksPrefix + ListToString(tasks));
      if toolingModel.Some? {
        out.Println(ToolingModelPrefix + toolingModel.value.rendering);
      }
      out.Println(GradleArgsPrefix + ListToString(gradleArgs));
    }

    /** The tail of printDetail: the system-properties block, printed only when there are properties. */
    method PrintSystemProperties(out: PrintSink)
      modifies out
      ensures out.lines == old(out.lines) + PropertiesBlock()
    {
      if |systemProperties| > 0 {
        out.Println(SystemPropertiesHeader);
        PrintPropertyLines(out);
      }
    }

    /** The loop over the system properties: one indented `key=value` line per entry, in order. */
    method PrintPropertyLines(out: PrintSink)
      modifies out
      ensures out.lines == old(out.lines) + PropertyLines(systemProperties)
    {
      var i := 0;
      while i < |systemProperties|
        invariant 0 <= i <= |systemProperties|
        invariant out.lines == old(out.lines) + PropertyLines(systemProperties[..i])
      {
        var (key, value) := systemProperties[i];
        out.Println(PropertyIndent + key + "=" + value);
        PropertyLinesAppend(systemProperties, i);
        i := i + 1;
      }
      assert systemProperties[..i] == systemProperties;
    }
  }

  /**
   * The constructor binds each parameter to the field of the same name, and
   * each accessor (getName, getInvoker, getBuildConfiguration, getTasks,
   * getToolingModel, getCleanupTasks, getGradleArgs, getSystemProperties)
   * returns it unchanged.
   */
  lemma ConstructorBindsFields(
    name: string, invoker: Invoker, buildConfiguration: GradleBuildConfiguration, tasks: seq<string>,
    toolingModel: Option<ModelClass>, cleanupTasks: seq<string>, gradleArgs: seq<string>,
    systemProperties: SystemProperties, buildMutator: MutatorSupplier, warmUpCount: int, buildCount: int,
    outputDir: File)
    ensures var d := GradleScenarioDefinition(name, invoker, buildConfiguration, tasks, toolingModel, cleanupTasks,
                                              gradleArgs, systemProperties, buildMutator, warmUpCount, buildCount, outputDir);
      && d.name == name && d.invoker == invoker && d.buildConfiguration == buildConfiguration
      && d.tasks == tasks && d.toolingModel == toolingModel && d.cleanupTasks == cleanupTasks
      && d.gradleArgs == gradleArgs && d.systemProperties == systemProperties
      && d.buildMutator == buildMutator && d.warmUpCount == warmUpCount && d.buildCount == buildCount
      && d.outputDir == outputDir
  {
  }

  /** What a printed detail line says, told by how it begins. */
  datatype LineKind = RunUsing | CleanupTasks | Tasks | ToolingModel | GradleArgs | PropertiesHeader | Property | Unrecognised

  /**
   * Classifies a detail line by how it begins. Every labelled line starts
   * with two spaces, and the labels differ in their first letter, or in
   * their second for "Tasks" and "Tooling model"; a property line is
   * indented by four spaces.
   */
  function KindOf(line: string): LineKind
  {
    if |line| < 4 || line[0] != ' ' || line[1] != ' ' then Unrecognised
    else if line[2] == 'R' then RunUsing
    else if line[2] == 'C' then CleanupTasks
    else if line[2] == 'T' && line[3] == 'a' then Tasks
    else if line[2] == 'T' && line[3] == 'o' then ToolingModel
    else if line[2] == 'G' then GradleArgs
    else if line[2] == 'S' then PropertiesHeader
    else if line[2] == ' ' && line[3] == ' ' then Property
    else Unrecognised
  }

  /** The position of each kind of line in printDetail's fixed order. */
  function Rank(kind: LineKind): nat
  {
    match kind
    case RunUsing => 1
    case CleanupTasks => 2
    case Tasks => 3
    case ToolingModel => 4
    case GradleArgs => 5
    case PropertiesHeader => 6
    case Property => 7
    case Unrecognised => 0
  }

  /** Each label printDetail uses is recognised as its own kind, whatever follows it. */
  lemma KindOfPrefixed(prefix: string, rest: string)
    ensures prefix == RunUsingPrefix ==> KindOf(prefix + rest) == RunUsing
    ensures prefix == CleanupTasksPrefix ==> KindOf(prefix + rest) == CleanupTasks
    ensures prefix == TasksPrefix ==> KindOf(prefix + rest) == Tasks
    ensures prefix == ToolingModelPrefix ==> KindOf(prefix + rest) == ToolingModel
    ensures prefix == GradleArgsPrefix ==> KindOf(prefix + rest) == GradleArgs
    ensures prefix == PropertyIndent ==> KindOf(prefix + rest) == Property
    ensures prefix == SystemPropertiesHeader && rest == [] ==> KindOf(prefix + rest) == PropertiesHeader
  {
  }

  /**
   * The kind of line printDetail puts at position `i` (counting the header
   * as 0): Run using, Cleanup Tasks and Tasks, the tooling model when there
   * is one, Gradle args, the properties header, then property lines.
   */
  function PositionKind(hasToolingModel: bool, i: nat): LineKind
  {
    var argsIndex := if hasToolingModel then 5 else 4;
    if i == 1 then RunUsing
    else if i == 2 then CleanupTasks
    else if i == 3 then Tasks
    else if i < argsIndex then ToolingModel
    else if i == argsIndex then GradleArgs
    else if i == argsIndex + 1 then PropertiesHeader
    else Property
  }

  /** Along the positions, kinds only move forward in the fixed order, and only property lines repeat. */
  lemma PositionKindInOrder(hasToolingModel: bool, i: nat, j: nat)
    requires 1 <= i < j
    ensures Rank(PositionKind(hasToolingModel, i)) < Rank(PositionKind(hasToolingModel, j))
            || (PositionKind(hasToolingModel, i) == Property && PositionKind(hasToolingModel, j) == Property)
  {
  }

  /** The kinds of the always-printed lines after the header. */
  lemma FixedLineKinds(d: GradleScenarioDefinition)
    ensures var fixed := d.FixedLines();
      forall i :: 1 <= i < |fixed| ==> KindOf(fixed[i]) == PositionKind(d.toolingModel.Some?, i)
  {
  }

  /** The kinds of the lines of the system-properties block: its header, then one property line per entry. */
  lemma PropertiesBlockKinds(d: GradleScenarioDefinition)
    ensures var block := d.PropertiesBlock();
      forall j :: 0 <= j < |block| ==> KindOf(block[j]) == if j == 0 then PropertiesHeader else Property
  {
  }

  /** Position by position, the kind of each detail line after the header is the one printDetail puts there. */
  lemma DetailLineKinds(d: GradleScenarioDefinition)
    ensures var lines := d.DetailLines();
      forall i :: 1 <= i < |lines| ==> KindOf(lines[i]) == PositionKind(d.toolingModel.Some?, i)
  {
    var lines, fixed, block := d.DetailLines(), d.FixedLines(), d.PropertiesBlock();
    FixedLineKinds(d);
    PropertiesBlockKinds(d);
    forall i | 1 <= i < |lines|
      ensures KindOf(lines[i]) == PositionKind(d.toolingModel.Some?, i)
    {
      if i < |fixed| {
        assert lines[i] == fixed[i];
      } else {
        assert lines[i] == block[i - |fixed|];
      }
    }
  }

  /**
   * The detail lines after the header come in printDetail's fixed order:
   * Run using, Cleanup Tasks, Tasks, Tooling model, Gradle args, System
   * properties, then the property lines; every kind but a property line
   * appears at most once.
   */
  lemma DetailLinesInFixedOrder(d: GradleScenarioDefinition)
    ensures var lines := d.DetailLines();
      forall i, j :: 1 <= i < j < |lines| ==>
        Rank(KindOf(lines[i])) < Rank(KindOf(lines[j]))
        || (KindOf(lines[i]) == Property && KindOf(lines[j]) == Property)
  {
    var lines := d.DetailLines();
    DetailLineKinds(d);
    forall i, j | 1 <= i < j < |lines|
      ensures Rank(KindOf(lines[i])) < Rank(KindOf(lines[j]))
              || (KindOf(lines[i]) == Property && KindOf(lines[j]) == Property)
    {
      PositionKindInOrder(d.toolingModel.Some?, i, j);
    }
  }

  /** The Gradle args line is always printed, after the Tasks line and before every line of the system-properties block. */
  lemma GradleArgsAfterTasksBeforeProperties(d: GradleScenarioDefinition)
    ensures var lines := d.DetailLines();
      && 3 < d.ArgsIndex() < |lines|
      && KindOf(lines[3]) == Tasks
      && KindOf(lines[d.ArgsIndex()]) == GradleArgs
      && forall i :: 1 <= i < |lines| && KindOf(lines[i]) in {PropertiesHeader, Property} ==> d.ArgsIndex() < i
  {
    DetailLineKinds(d);
  }

  /** A tooling-model line is printed if and only if a tooling model is set, and it names that model. */
  lemma ToolingModelLineIff(d: GradleScenarioDefinition)
    ensures var lines := d.DetailLines();
      (exists i :: 1 <= i < |lines| && KindOf(lines[i]) == ToolingModel) <==> d.toolingModel.Some?
    ensures d.toolingModel.Some? ==> d.DetailLines()[4] == ToolingModelPrefix + d.toolingModel.value.rendering
  {
    DetailLineKinds(d);
    LaidOutToolingModel(d.DetailLines(), d.toolingModel.Some?, |d.systemProperties|);
    ToolingModelLineContent(d);
  }

  /** When a tooling model is set, the line after Tasks names it. */
  lemma ToolingModelLineContent(d: GradleScenarioDefinition)
    ensures d.toolingModel.Some? ==> d.DetailLines()[4] == ToolingModelPrefix + d.toolingModel.value.rendering
  {
    if d.toolingModel.Some? {
      assert d.DetailLines()[4] == d.FixedLines()[4];
    }
  }

  /** In any lines laid out as printDetail lays them out, a tooling-model line appears exactly when there is a tooling model. */
  lemma LaidOutToolingModel(lines: seq<string>, hasToolingModel: bool, n: nat)
    requires |lines| == (if hasToolingModel then 6 else 5) + (if n > 0 then 1 + n else 0)
    requires forall i :: 1 <= i < |lines| ==> KindOf(lines[i]) == PositionKind(hasToolingModel, i)
    ensures (exists i :: 1 <= i < |lines| && KindOf(lines[i]) == ToolingModel) <==> hasToolingModel
  {
    if hasToolingModel {
      assert KindOf(lines[4]) == ToolingModel;
    }
  }

  /**
   * The system-properties header is printed if and only if there are
   * properties, and the property lines are exactly the last lines, one per
   * entry.
   */
  lemma SystemPropertiesBlockIff(d: GradleScenarioDefinition)
    ensures var lines := d.DetailLines();
      (exists i :: 1 <= i < |lines| && KindOf(lines[i]) == PropertiesHeader) <==> |d.systemProperties| > 0
    ensures var lines, n := d.DetailLines(), |d.systemProperties|;
      forall i :: 1 <= i < |lines| ==> (KindOf(lines[i]) == Property <==> |lines| - n <= i)
  {
    DetailLineKinds(d);
    LaidOutPropertiesBlock(d.DetailLines(), d.toolingModel.Some?, |d.systemProperties|);
  }

  /**
   * In any lines laid out as printDetail lays them out for `n` properties,
   * the properties header appears exactly when `n > 0`, and the property
   * lines are the last `n`.
   */
  lemma LaidOutPropertiesBlock(lines: seq<string>, hasToolingModel: bool, n: nat)
    requires |lines| == (if hasToolingModel then 6 else 5) + (if n > 0 then 1 + n else 0)
    requires forall i :: 1 <= i < |lines| ==> KindOf(lines[i]) == PositionKind(hasToolingModel, i)
    ensures (exists i :: 1 <= i < |lines| && KindOf(lines[i]) == PropertiesHeader) <==> n > 0
    ensures forall i :: 1 <= i < |lines| ==> (KindOf(lines[i]) == Property <==> |lines| - n <= i)
  {
    var argsIndex := if hasToolingModel then 5 else 4;
    if n > 0 {
      assert KindOf(lines[argsIndex + 1]) == PropertiesHeader;
    }
  }

  /** The last lines printed are the property lines, one `key=value` line per entry, in the entries' order. */
  lemma PropertyLinesAtEnd(d: GradleScenarioDefinition)
    ensures var lines, n := d.DetailLines(), |d.systemProperties|;
      && n <= |lines|
      && lines[|lines| - n..] == PropertyLines(d.systemProperties)
  {
    var fixed, block := d.FixedLines(), d.PropertiesBlock();
    var n := |d.systemProperties|;
    if n > 0 {
      assert block[1..] == PropertyLines(d.systemProperties);
    }
    SuffixOfAppend(fixed, block, n);
  }

  /**
   * Seen as a map, the system properties give exactly one printed line per
   * key: the map has as many keys as there are property lines, and each key
   * is printed with its value among them.
   */
  lemma PropertyLinesCoverMap(d: GradleScenarioDefinition)
    ensures var m, lines := ToMap(d.systemProperties), d.DetailLines();
      && |m| == |d.systemProperties| <= |lines|
      && forall k :: k in m ==> PropertyIndent + k + "=" + m[k] in lines[|lines| - |m|..]
  {
    var entries := d.systemProperties;
    var m := ToMap(entries);
    var tail := PropertyLines(entries);
    ToMapSize(entries);
    ToMapLookup(entries);
    PropertyLinesAtEnd(d);
    forall k | k in m
      ensures PropertyIndent + k + "=" + m[k] in tail
    {
      var j :| 0 <= j < |entries| && entries[j].0 == k;
      assert tail[j] == PropertyLine(entries[j]);
    }
  }

  /** For a fixed scenario name, the display name tells Gradle versions apart exactly when their renderings differ. */
  lemma DisplayNameSeparatesVersions(d1: GradleScenarioDefinition, d2: GradleScenarioDefinition)
    requires d1.name == d2.name
    ensures d1.DisplayName() == d2.DisplayName()
            <==> d1.buildConfiguration.gradleVersion.rendering == d2.buildConfiguration.gradleVersion.rendering
  {
    if d1.DisplayName() == d2.DisplayName() {
      assert d1.DisplayName()[|d1.name| + 7..] == d1.buildConfiguration.gradleVersion.rendering;
      assert d2.DisplayName()[|d2.name| + 7..] == d2.buildConfiguration.gradleVersion.rendering;
    }
  }

  /** For a fixed scenario name, profile names collide exactly when the Gradle version strings are equal. */
  lemma ProfileNameSeparatesVersions(d1: GradleScenarioDefinition, d2: GradleScenarioDefinition)
    requires d1.name == d2.name
    ensures d1.ProfileName() == d2.ProfileName() <==> d1.BuildToolDisplayName() == d2.BuildToolDisplayName()
  {
    if d1.ProfileName() == d2.ProfileName() {
      assert d1.ProfileName()[|d1.name| + 1..] == d1.BuildToolDisplayName();
      assert d2.ProfileName()[|d2.name| + 1..] == d2.BuildToolDisplayName();
    }
  }

  /**
   * Across different names the profile name does not identify the
   * (name, version) pair: "app-8" at version "1" and "app" at version "8-1"
   * share the profile name "app-8-1".
   */
  lemma ProfileNameCollidesAcrossNames(d: GradleScenarioDefinition)
    ensures var v := d.buildConfiguration.gradleVersion;
      var d1 := d.(name := "app-8", buildConfiguration := d.buildConfiguration.(gradleVersion := v.(version := "1")));
      var d2 := d.(name := "app", buildConfiguration := d.buildConfiguration.(gradleVersion := v.(version := "8-1")));
      && d1.ProfileName() == d2.ProfileName()
      && d1.name != d2.name
      && d1.BuildToolDisplayName() != d2.BuildToolDisplayName()
  {
    var v := d.buildConfiguration.gradleVersion;
    var d1 := d.(name := "app-8", buildConfiguration := d.buildConfiguration.(gradleVersion := v.(version := "1")));
    var d2 := d.(name := "app", buildConfiguration := d.buildConfiguration.(gradleVersion := v.(version := "8-1")));
    assert d1.ProfileName() == "app-8-1";
    assert d2.ProfileName() == "app-8-1";
  }

  /** When no task contains a space, splitting the tasks display name on spaces gives back the tasks, in order. */
  lemma TasksDisplayNameRoundTrip(d: GradleScenarioDefinition)
    requires |d.tasks| >= 1
    requires forall i :: 0 <= i < |d.tasks| ==> ' ' !in d.tasks[i]
    ensures Split(d.TasksDisplayName(), ' ') == d.tasks
  {
    SplitJoin(d.tasks, ' ');
  }

  /** The tasks display name holds every task's characters plus one space between each neighbouring pair of tasks. */
  lemma TasksDisplayNameLength(d: GradleScenarioDefinition)
    ensures |d.TasksDisplayName()| == TotalLength(d.tasks) + (if |d.tasks| == 0 then 0 else |d.tasks| - 1)
  {
    JoinLength(d.tasks, " ");
  }

  /** The tasks display name is built from the measured tasks only: the cleanup tasks never affect it. */
  lemma TasksDisplayNameIgnoresCleanupTasks(d: GradleScenarioDefinition, cleanupTasks: seq<string>)
    ensures d.(cleanupTasks := cleanupTasks).TasksDisplayName() == d.TasksDisplayName()
  {
  }
}
