# GradleScenarioDefinition in Dafny

This project models `GradleScenarioDefinition` from gradle-profiler. That class is the descriptor
of one Gradle benchmark scenario. No method of the class changes a field. Its constructor binds:

- the scenario name, invoker and build configuration (Gradle version and Gradle home);
- the measured tasks, an optional tooling-model class and the cleanup tasks;
- the extra Gradle arguments and the system-property map;
- the build-mutator supplier, the warm-up and build counts, and the output directory.

The class derives these strings from its fields:

- the display name, `name using <version>`;
- the profile name, `name-<version string>`;
- the build-tool display name;
- the tasks display name, the tasks joined by spaces.

`printDetail` writes a fixed sequence of lines to a `PrintStream`: the version and Gradle home,
`Run using`, `Cleanup Tasks`, `Tasks`, an optional `Tooling model` line, `Gradle args`, and an
optional system-properties block (a header plus one indented `key=value` line per entry).

Files:

- `gradle_scenario_definition.dfy` (module `GradleScenario`):
  - The scenario is a `datatype`. Its constructor takes the Java constructor's parameters in the
    same order, and its destructors are the accessors.
  - The name operations are member functions.
  - `PrintDetail` is a member method that appends to a `PrintSink`. It is proved against the
    function `DetailLines`.
  - The line-order and if-and-only-if properties are lemmas. They are stated through a classifier
    `KindOf` that tells a detail line's kind from its first characters.
- `text.dfy` (module `Text`):
  - `Join` models `Collectors.joining`, and `Split` on one character is its inverse.
  - `ListToString` gives `java.util.List`'s rendering, `[a, b]`.
- `print_sink.dfy` (module `Output`): `PrintSink`, the output stream seen as the list of the
  arguments passed to `println`, one entry per call.

One might expect the profile name to identify the (name, version string) pair. The code guarantees
this only for a fixed name: across names it fails, as `ProfileNameCollidesAcrossNames` shows.

## Model

| member | source | states |
|---|---|---|
| Output.PrintSink.Println | src/main/java/org/gradle/profiler/GradleScenarioDefinition.java:81-92 | one println call appends its argument as one entry, after the entries already printed |
| GradleScenario.ConstructorBindsFields | src/main/java/org/gradle/profiler/GradleScenarioDefinition.java:20-29 | each constructor parameter is bound to its field, and each accessor returns exactly that value |
| GradleScenario.GradleScenarioDefinition.DisplayName | src/main/java/org/gradle/profiler/GradleScenarioDefinition.java:32-34 | the display name begins with the scenario name, and what follows is " using " and the Gradle version's rendering |
| GradleScenario.DisplayNameSeparatesVersions | src/main/java/org/gradle/profiler/GradleScenarioDefinition.java:32-34 | for one scenario name, two display names are equal exactly when the version renderings are equal |
| GradleScenario.GradleScenarioDefinition.ProfileName | src/main/java/org/gradle/profiler/GradleScenarioDefinition.java:37-44 | the profile name is the scenario name, "-", then the build-tool display name, so it begins with the scenario name |
| GradleScenario.ProfileNameSeparatesVersions | src/main/java/org/gradle/profiler/GradleScenarioDefinition.java:37-44 | for one scenario name, two profile names are equal exactly when the Gradle version strings are equal |
| GradleScenario.ProfileNameCollidesAcrossNames | src/main/java/org/gradle/profiler/GradleScenarioDefinition.java:37-39 | "app-8" at version "1" and "app" at version "8-1" share the profile name, so the profile name does not identify the (name, version) pair |
| GradleScenario.GradleScenarioDefinition.BuildToolDisplayName | src/main/java/org/gradle/profiler/GradleScenarioDefinition.java:42-44 | the build-tool display name is the Gradle version string |
| GradleScenario.GradleScenarioDefinition.TasksDisplayName | src/main/java/org/gradle/profiler/GradleScenarioDefinition.java:47-49 | the result is "" when there are no tasks and the task itself when there is one |
| GradleScenario.TasksDisplayNameRoundTrip | src/main/java/org/gradle/profiler/GradleScenarioDefinition.java:47-49 | when no task contains a space, splitting the tasks display name on spaces gives back the tasks in order |
| GradleScenario.TasksDisplayNameLength | src/main/java/org/gradle/profiler/GradleScenarioDefinition.java:47-49 | the tasks display name has every task's characters plus exactly one separator between neighbouring tasks |
| GradleScenario.TasksDisplayNameIgnoresCleanupTasks | src/main/java/org/gradle/profiler/GradleScenarioDefinition.java:47-49 | changing the cleanup tasks never changes the tasks display name |
| Text.Join | src/main/java/org/gradle/profiler/GradleScenarioDefinition.java:48 | joining no parts gives "", and joining one part gives that part |
| Text.JoinLength | src/main/java/org/gradle/profiler/GradleScenarioDefinition.java:48 | a join is as long as its parts plus one separator between each neighbouring pair |
| Text.SplitJoin | src/main/java/org/gradle/profiler/GradleScenarioDefinition.java:48 | splitting a join on a one-character separator that no part contains gives the parts back |
| Text.JoinSplit | src/main/java/org/gradle/profiler/GradleScenarioDefinition.java:48 | joining the pieces of a split with the separator gives the string back |
| Text.Split | src/main/java/org/gradle/profiler/GradleScenarioDefinition.java:48 | a split has at least one piece, and no piece contains the separator |
| Text.ListToString | src/main/java/org/gradle/profiler/GradleScenarioDefinition.java:83-88 | a rendered list is bracketed by "[" and "]", and the empty list renders as "[]" |
| GradleScenario.ToMap | src/main/java/org/gradle/profiler/GradleScenarioDefinition.java:18 | the map's keys are exactly the entries' keys |
| GradleScenario.ToMapLookup | src/main/java/org/gradle/profiler/GradleScenarioDefinition.java:18 | with distinct keys, each entry's key maps to that entry's value |
| GradleScenario.ToMapSize | src/main/java/org/gradle/profiler/GradleScenarioDefinition.java:18 | with distinct keys, the map has exactly one key per entry |
| GradleScenario.PropertyLines | src/main/java/org/gradle/profiler/GradleScenarioDefinition.java:91-93 | one indented key=value line per entry, in the entries' order |
| GradleScenario.GradleScenarioDefinition.FixedLines | src/main/java/org/gradle/profiler/GradleScenarioDefinition.java:81-88 | the unconditional lines and the optional tooling-model line number 5, plus 1 when a tooling model is set |
| GradleScenario.GradleScenarioDefinition.PropertiesBlock | src/main/java/org/gradle/profiler/GradleScenarioDefinition.java:89-94 | the properties block is empty for an empty map, and otherwise has 1 + one line per entry |
| GradleScenario.GradleScenarioDefinition.DetailLines | src/main/java/org/gradle/profiler/GradleScenarioDefinition.java:81-94 | printDetail prints 5 lines, plus 1 for a tooling model, plus 1 + one per entry when there are system properties |
| GradleScenario.GradleScenarioDefinition.PrintDetail | src/main/java/org/gradle/profiler/GradleScenarioDefinition.java:80-95 | printDetail appends exactly the detail lines to the stream, in order, and nothing else |
| GradleScenario.GradleScenarioDefinition.PrintFixedLines | src/main/java/org/gradle/profiler/GradleScenarioDefinition.java:81-88 | the first println calls append the header, Run using, Cleanup Tasks, Tasks, the tooling model when set, and Gradle args |
| GradleScenario.GradleScenarioDefinition.PrintSystemProperties | src/main/java/org/gradle/profiler/GradleScenarioDefinition.java:89-94 | nothing is appended for an empty map; otherwise the header and then the property lines are appended |
| GradleScenario.GradleScenarioDefinition.PrintPropertyLines | src/main/java/org/gradle/profiler/GradleScenarioDefinition.java:91-93 | the loop appends one key=value line per entry, in order; its invariant covers the entries printed so far |
| GradleScenario.KindOfPrefixed | src/main/java/org/gradle/profiler/GradleScenarioDefinition.java:82-92 | a line that begins with one of printDetail's labels (Run using, Cleanup Tasks, Tasks, Tooling model, Gradle args, the property indent), or is the properties header, is classified as that label's kind |
| GradleScenario.PositionKindInOrder | src/main/java/org/gradle/profiler/GradleScenarioDefinition.java:80-95 | along printDetail's positions, line kinds strictly advance in the fixed order, and only property lines repeat |
| GradleScenario.DetailLineKinds | src/main/java/org/gradle/profiler/GradleScenarioDefinition.java:81-94 | every detail line after the header has the kind printDetail prints at that position |
| GradleScenario.DetailLinesInFixedOrder | src/main/java/org/gradle/profiler/GradleScenarioDefinition.java:80-95 | for any two detail lines after the header, the earlier one's kind comes strictly before the later one's, unless both are property lines |
| GradleScenario.GradleArgsAfterTasksBeforeProperties | src/main/java/org/gradle/profiler/GradleScenarioDefinition.java:84-94 | the Gradle args line is always printed, after the Tasks line and before every line of the system-properties block |
| GradleScenario.ToolingModelLineIff | src/main/java/org/gradle/profiler/GradleScenarioDefinition.java:85-87 | a tooling-model line is printed if and only if a tooling model is set, and it names that model |
| GradleScenario.SystemPropertiesBlockIff | src/main/java/org/gradle/profiler/GradleScenarioDefinition.java:89-94 | the header is printed if and only if the map is non-empty, and a line is a property line if and only if it is among the last lines, one per entry |
| GradleScenario.PropertyLinesAtEnd | src/main/java/org/gradle/profiler/GradleScenarioDefinition.java:89-94 | the last detail lines, one per entry, are the entries' key=value lines, in the entries' order |
| GradleScenario.PropertyLinesCoverMap | src/main/java/org/gradle/profiler/GradleScenarioDefinition.java:89-94 | viewed as a Map, the properties have one printed line per key, and every key is printed with its own value |

## Left out

- The `ScenarioDefinition` base class is not part of this model:
  - Its constructor checks are not modelled.
  - `getBuildMutator` and `getOutputDir` are not modelled.
  - `getName` is taken to return the name passed to the constructor.
  - The mutator supplier, the counts and the output directory are stored values only.
  - The warm-up and build counts are unbounded integers, not 32-bit ints.
- The `Supplier<BuildMutator>` is never invoked: it is a foreign callable, kept as an opaque value.
- `PrintSink` records one entry per `println` call. An argument that contains a line separator (a
  property key or value, a task, a path, a rendering) is still one entry, though the stream shows
  several lines. The line counts, the order lemmas and the if-and-only-if lemmas are about
  `println` calls.
- The `PrintStream` is a list of printed entries. Character encoding, flushing and I/O errors are not
  modelled.
- The rendering of `GradleVersion`, `Invoker`, `Class<?>` and `File` (their `toString`), and
  `GradleVersion.getVersion()`, belong to types outside this file. They are uninterpreted strings.
  - The version-and-home header line is therefore not classified: a version may render as anything.
- Java `null` is modelled only for the tooling model, as `Option`, because the code tests it. The
  other fields are taken to be non-null.
- The task lists and the system-property map are the caller's objects, stored and returned without
  copying. Anyone holding them can change them after construction, and `getTasksDisplayName` and
  `printDetail` would then print the new contents. The model treats their contents as fixed at
  construction, and their elements, keys and values as non-null (Java would print a null as
  "null").
- `HashMap` iteration order is implementation-defined. The system properties are a sequence of
  entries with distinct keys, and `printDetail` prints them in that sequence's order.
- `List.toString` is taken to be `AbstractCollection`'s format, `[a, b]`.
- `KindOf` tells a line's kind from its first characters (the two-space indent and the label's first
  letter, or its second for `Tasks` and `Tooling model`), not from the whole label.
- `printDetail` is written as four methods (`PrintDetail`, `PrintFixedLines`, `PrintSystemProperties`,
  `PrintPropertyLines`), with the same println calls in the same order.
