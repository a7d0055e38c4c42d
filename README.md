# JUnit Platform console launcher: launch dispatch and engine listing

This project models in Dafny the core of the JUnit Platform's `ConsoleLauncher`.
It covers two pieces of behaviour.

The first is how one invocation runs. The arguments are parsed first. Then
exactly one mode runs, in priority order: list engines, list tests, display
help, execute tests. The banner is printed before every mode except engine
listing, unless it is disabled. A `JUnitException` that leaves the try block is handled by the outer
catch. Any `Exception` thrown by the test executor is contained. Both writers
are flushed on every way out.

The second is the engine listing. Engines are sorted by id and printed one
line each, as `id (group:artifact:version)` with only the fields that are
present.

The collaborators are the options parser, the `ServiceLoader` engine registry
and the `ConsoleTestExecutor`. The model does not run them. It takes the
outcome each one produces for the invocation as input (`Launcher.Collaborators`).
A parse either yields `Options` or throws. Loading the registry yields engines
or throws. Discovery and execution print lines and then return (execution
with a summary) or throw.

Java exceptions are values. `Throwable` has three kinds, split the way the two
catch clauses split them:
- `JUnitException`, taken by the outer catch;
- `OtherException`, any other `java.lang.Exception`;
- `Error`, standing for every throwable that is not an `Exception` (a
  `java.lang.Error` or any other), which neither catch clause takes.

A call either returns a `LaunchResult` or propagates a `Throwable`
(`Completion`). The two `PrintWriter`s are fields `out` and `err` of the class
`Launcher.ConsoleLauncher`. Both hold sequences of `Event`s (a line, the
banner, help, a stack trace, a flush), and the methods append to them in place.

`ConsoleLauncher.Execute` is proved to append exactly what the pure function
`Launcher.Invocation` describes and to return the completion it gives. The
module `LauncherProperties` proves the launcher's guarantees about that trace.
The engine listing (module `EngineListing`) is stated as pure functions:
- an insertion sort by id in the order of `String.compareTo`;
- the line format, built on `Joining.Join`.

`DisplayEngines` and `DisplayEngine` print exactly those lines.
`DisplayEngine` builds the details with a model of `java.util.StringJoiner`
(`Joining.StringJoiner`). That model is proved to produce the specified join.

Dafny has no exceptions. So the try block of `execute` is the method
`Dispatch`, which returns a propagating throwable as a value. `Execute` then
does the catch clause and the `finally`.

Behaviour of the code worth noting:
- The outer `catch (JUnitException)` also catches a `JUnitException` thrown
  while loading engines for `--list-engines`.
- After a fault in discovery or execution, help goes to `out`, not to the
  error stream.
- List-tests returns success whenever discovery returns, without classifying
  what was found.
- Parse failures and contained faults both return the same `failed()` result.
  No distinct exit codes are chosen in this file.

## Model

| member | source | states |
|---|---|---|
| `Launcher.SelectMode` | junit-platform-console/src/main/java/org/junit/platform/console/ConsoleLauncher.java:71-85 | the mode is list engines exactly when that flag is set, list tests exactly when it is set and list engines is not, help exactly when it is set and neither listing is, and execute otherwise |
| `Launcher.Contain` | junit-platform-console/src/main/java/org/junit/platform/console/ConsoleLauncher.java:126-147 | a throw from the test executor propagates exactly when it is an Error, unchanged and with nothing added; otherwise the result is failed, err starts with its stack trace, and out gains exactly help with the options' colour flag after what was printed and err is exactly the stack trace and a blank line |
| `Launcher.CatchJUnit` | junit-platform-console/src/main/java/org/junit/platform/console/ConsoleLauncher.java:87-92 | no `JUnitException` leaves the catch clause; out is untouched; a caught one turns into failed with its message, a blank line and colourless help appended to err; anything else passes unchanged |
| `Launcher.ConsoleLauncher.constructor` | junit-platform-console/src/main/java/org/junit/platform/console/ConsoleLauncher.java:62-66 | the launcher starts with the writers it is given |
| `Launcher.ConsoleLauncher.Execute` | junit-platform-console/src/main/java/org/junit/platform/console/ConsoleLauncher.java:68-97 | the completion and everything appended to out and err are those of `Invocation`: the try block, then message, blank line and colourless help on err with failure for a propagated `JUnitException`, then one flush of out and one of err |
| `Launcher.ConsoleLauncher.Dispatch` | junit-platform-console/src/main/java/org/junit/platform/console/ConsoleLauncher.java:69-86 | the try block appends and completes as `TryBlock`: a parse throw propagates; otherwise the first of list engines, list tests, help, execute runs, with the banner before the last three unless disabled |
| `Launcher.ConsoleLauncher.DisplayBanner` | junit-platform-console/src/main/java/org/junit/platform/console/ConsoleLauncher.java:99-103 | appends the banner to out and nothing to err |
| `Launcher.ConsoleLauncher.DisplayEngines` | junit-platform-console/src/main/java/org/junit/platform/console/ConsoleLauncher.java:105-111 | a registry throw is rethrown with nothing printed; otherwise out gains exactly one line per engine in ascending id order (`Listing`) and err is unchanged |
| `Launcher.ConsoleLauncher.DisplayEngine` | junit-platform-console/src/main/java/org/junit/platform/console/ConsoleLauncher.java:113-119 | out gains exactly the line `EngineLine(engine)`: id, " (", present fields joined by ":", ")" |
| `Launcher.ConsoleLauncher.ListTests` | junit-platform-console/src/main/java/org/junit/platform/console/ConsoleLauncher.java:121-129 | after discovery's own lines, success when discovery returns; an Exception goes to the handler; an Error propagates |
| `Launcher.ConsoleLauncher.ExecuteTests` | junit-platform-console/src/main/java/org/junit/platform/console/ConsoleLauncher.java:131-139 | after the run's own lines, the result for the returned summary and these options; an Exception goes to the handler; an Error propagates |
| `Launcher.ConsoleLauncher.HandleTestExecutorException` | junit-platform-console/src/main/java/org/junit/platform/console/ConsoleLauncher.java:141-147 | err gains the stack trace and a blank line, out gains help with the options' colour flag, the result is failed |
| `Joining.StringJoiner.constructor` | junit-platform-console/src/main/java/org/junit/platform/console/ConsoleLauncher.java:114 | a joiner with delimiter ":", prefix " (" and suffix ")" that holds no parts |
| `Joining.StringJoiner.Add` | junit-platform-console/src/main/java/org/junit/platform/console/ConsoleLauncher.java:115-117 | each add appends one part, and the accumulated text stays the parts joined by the delimiter |
| `Joining.StringJoiner.ToString` | junit-platform-console/src/main/java/org/junit/platform/console/ConsoleLauncher.java:118 | the rendering is prefix, parts joined by the delimiter, suffix; with no parts it is prefix + suffix, " ()" here |
| `Joining.SplitJoin` | junit-platform-console/src/main/java/org/junit/platform/console/ConsoleLauncher.java:114-117 | splitting the joined text at the separator gives back the parts, when there is at least one and none contains the separator |
| `Joining.JoinEmpty` | junit-platform-console/src/main/java/org/junit/platform/console/ConsoleLauncher.java:114-118 | a join is empty exactly when there are no parts or a single empty part |
| `EngineListing.IdLe` | junit-platform-console/src/main/java/org/junit/platform/console/ConsoleLauncher.java:109 | the id order holds exactly when `String.compareTo` is at most zero: the first id is a prefix of the second, or has the smaller character at the first position where they differ |
| `EngineListing.SortById` | junit-platform-console/src/main/java/org/junit/platform/console/ConsoleLauncher.java:108-109 | the sort yields as many engines as it was given; `SortByIdCorrect` states the rest |
| `EngineListing.IdLeReflexive` | junit-platform-console/src/main/java/org/junit/platform/console/ConsoleLauncher.java:109 | the id order relates every id to itself |
| `EngineListing.IdLeTotal` | junit-platform-console/src/main/java/org/junit/platform/console/ConsoleLauncher.java:109 | any two ids are comparable |
| `EngineListing.IdLeAntisymmetric` | junit-platform-console/src/main/java/org/junit/platform/console/ConsoleLauncher.java:109 | ids each at most the other are equal |
| `EngineListing.IdLeTransitive` | junit-platform-console/src/main/java/org/junit/platform/console/ConsoleLauncher.java:109 | the id order is transitive |
| `EngineListing.InsertCorrect` | junit-platform-console/src/main/java/org/junit/platform/console/ConsoleLauncher.java:108-109 | inserting into an id-sorted sequence keeps it sorted and adds exactly the one engine |
| `EngineListing.SortByIdCorrect` | junit-platform-console/src/main/java/org/junit/platform/console/ConsoleLauncher.java:108-109 | the sort yields the input engines, as a multiset, in ascending id order |
| `EngineListing.SortedUnique` | junit-platform-console/src/main/java/org/junit/platform/console/ConsoleLauncher.java:108-109 | two id-sorted arrangements of the same engines are equal when ids identify engines |
| `EngineListing.ListingIsSortedPermutation` | junit-platform-console/src/main/java/org/junit/platform/console/ConsoleLauncher.java:105-119 | the listing has one line per engine; line i renders engine i of an ascending-by-id permutation of the input |
| `EngineListing.ListingDeterministic` | junit-platform-console/src/main/java/org/junit/platform/console/ConsoleLauncher.java:105-110 | the listing does not depend on the order the registry yields the engines in, when ids identify engines |
| `EngineListing.NoProvenanceLine` | junit-platform-console/src/main/java/org/junit/platform/console/ConsoleLauncher.java:113-118 | an engine with no group, artifact or version is listed as its id followed by " ()" |
| `EngineListing.EngineLineReadsBack` | junit-platform-console/src/main/java/org/junit/platform/console/ConsoleLauncher.java:113-118 | the line starts with the id and " (", ends with ")", and between them reads back as the present fields in order group, artifact, version |
| `EngineListing.EmptyDetails` | junit-platform-console/src/main/java/org/junit/platform/console/ConsoleLauncher.java:113-118 | the parentheses are empty exactly when no field is present or the only present one is empty |
| `LauncherProperties.ListEnginesWins` | junit-platform-console/src/main/java/org/junit/platform/console/ConsoleLauncher.java:71-74 | with list-engines set, out is exactly the listing then a flush and err only a flush: no banner, no help, success, and discovery or execution make no difference |
| `LauncherProperties.BannerRule` | junit-platform-console/src/main/java/org/junit/platform/console/ConsoleLauncher.java:75-77 | the banner is on out if and only if parsing succeeded, the banner is not disabled and engines are not listed; it is then the first event on out, and never on err |
| `LauncherProperties.ListTestsBeforeHelp` | junit-platform-console/src/main/java/org/junit/platform/console/ConsoleLauncher.java:78-80 | with list-tests set, execution is never consulted; when discovery returns, the result is success, no help is printed even if help was requested, and err holds only the flush |
| `LauncherProperties.DisplayHelpMode` | junit-platform-console/src/main/java/org/junit/platform/console/ConsoleLauncher.java:81-84 | help mode writes banner (unless disabled) and help with the options' colour flag to out and returns success, whatever the registry and executor would do |
| `LauncherProperties.ExecuteReturnsForSummary` | junit-platform-console/src/main/java/org/junit/platform/console/ConsoleLauncher.java:131-134 | in execute mode, a returned summary gives exactly `forSummary(summary, options)` with only banner and the run's lines on out |
| `LauncherProperties.ParseFailure` | junit-platform-console/src/main/java/org/junit/platform/console/ConsoleLauncher.java:87-92 | a `JUnitException` from parsing writes message, blank line and colourless help to err, only a flush to out, and fails |
| `LauncherProperties.EngineListingJUnitFailure` | junit-platform-console/src/main/java/org/junit/platform/console/ConsoleLauncher.java:71-72 | a `JUnitException` while loading engines to list is caught by the outer handler: message, blank line and colourless help on err, failure |
| `LauncherProperties.DelegatedFaultContained` | junit-platform-console/src/main/java/org/junit/platform/console/ConsoleLauncher.java:126-127 | any Exception from discovery or execution, a `JUnitException` too, gives stack trace and blank line on err, help with the options' colour flag on out after the delegate's lines, and failure |
| `LauncherProperties.OnlyUncaughtPropagates` | junit-platform-console/src/main/java/org/junit/platform/console/ConsoleLauncher.java:87 | a throwable leaves execute only if it is not a `JUnitException` and came from the parser, from the registry, or is an Error |
| `LauncherProperties.FlushedOnceAtEnd` | junit-platform-console/src/main/java/org/junit/platform/console/ConsoleLauncher.java:93-96 | on every path, out and err each end with a flush and contain exactly one |
| `LauncherProperties.NoFlushBeforeFinally` | junit-platform-console/src/main/java/org/junit/platform/console/ConsoleLauncher.java:69-92 | neither the try block nor the catch clause flushes either writer |
| `LauncherProperties.StreamSeparation` | junit-platform-console/src/main/java/org/junit/platform/console/ConsoleLauncher.java:143-145 | stack traces never go to out; help reaches err only colourless and only on a failed invocation |

## Left out

- `main`, `System.exit` and the `PrintStream` and `PrintWriter` overloads of the static `execute` (lines 41-56) are process and I/O plumbing. The model starts at the instance `execute`.
- The Picocli parser and the text of its help are not modelled. Parsing is an input outcome, and `printHelp(writer, colourDisabled)` is one `Help` event on that writer.
- `ServiceLoaderTestEngineRegistry` is an input: the engines in load order, or a throw. Loading finishes before anything is printed, because `sorted` needs every engine. A throw from an engine's own accessors is not modelled.
- The work of `ConsoleTestExecutor` is an input: the lines it prints, then a return or a throw.
- `ConsoleLauncherExecutionResult` is not part of this model. `success`, `failed` and `forSummary` stay abstract, so the exit codes and the policy that maps a summary to a code are not modelled. The options that only the result reads, such as fail-if-no-tests, are one opaque field `Options.rest`, so `ForSummary` still tells apart two runs that differ only in them.
- Stack-trace text, ANSI colouring and the banner's wording are cosmetic. The banner is one event standing for its three lines: a blank line, the sponsoring message, a blank line.
- `out` and `err` are two separate event sequences, so the order of writes across the two writers is not recorded: the stack trace on `err` comes before help on `out` (lines 143-145), and `out` is flushed before `err` (lines 94-95).
- `LauncherProperties.FlushedOnceAtEnd`: holds for two distinct writers only. A caller of the static `execute(PrintWriter, PrintWriter, …)` (line 52) may pass the same writer twice, and that writer then receives two flushes.
- `LauncherProperties.StreamSeparation`: the test executor's own output is modelled only as printed lines, so this lemma and `FlushedOnceAtEnd` cover only the launcher's own flushes and stack traces.
- `println` and `flush` on a `PrintWriter` never throw, because it records I/O errors instead. A throw from `printHelp` itself is not modelled.
- A `JUnitException` with a null message is printed by Java as "null". The model's messages are always strings.
- `EngineListing.IdLe`: Java's `String.compareTo` compares UTF-16 code units. The model compares Unicode scalar values. The two orders differ only between supplementary characters and the characters U+E000 to U+FFFF.
- `EngineListing.SortedUnique`: the listing is proved unique only when no two different engines share an id. The stability of `sorted` among different engines with equal ids is not stated.
