/**
  The console launcher's execute(String...): parse the arguments, then run
  exactly one of list engines, list tests, display help or execute tests
  (printing the banner first unless it is disabled or engines are listed),
  handle a JUnitException in an outer catch, contain any Exception from the
  test executor, and flush both writers on every way out.

  The collaborators (the options parser, the engine registry, the test
  executor) are given as the outcomes they produce for this invocation.
  Java's exceptions are values: a call either returns normally or throws a
  Throwable, which Completion records.
 */
module Launcher {
  import opened Wrappers
  import opened Joining
  import opened EngineListing

  /** What can be thrown, split the way the two catch clauses split it. */
  datatype Throwable =
    | JUnitException(message: string)   // caught by the outer catch (JUnitException)
    | OtherException(detail: string)    // any other java.lang.Exception
    | Error(detail: string)             // any Throwable that is not an Exception (a java.lang.Error, say): no catch clause here takes it

  /**
    The parsed command line: the flags execute inspects, and the rest of the
    options (fail-if-no-tests and the like), which only the result reads.
   */
  datatype Options = Options(
    listEngines: bool,
    bannerDisabled: bool,
    listTests: bool,
    displayHelp: bool,
    ansiColorOutputDisabled: bool,
    rest: nat)

  /** The parser either yields options or throws. */
  datatype ParseOutcome = Parsed(options: Options) | ParseThrew(fault: Throwable)

  /** Loading the registered engines either yields them, in the registry's order, or throws. */
  datatype RegistryOutcome = Loaded(engines: seq<Engine>) | LoadThrew(fault: Throwable)

  /** The test executor's opaque summary of a run. */
  datatype Summary = Summary(handle: nat)

  /** Discovery prints its lines to out and then returns or throws. */
  datatype DiscoveryOutcome =
    | Discovered(printed: seq<string>)
    | DiscoveryThrew(printed: seq<string>, fault: Throwable)

  /** Execution prints its lines to out and then returns a summary or throws. */
  datatype ExecutionOutcome =
    | Executed(printed: seq<string>, summary: Summary)
    | ExecutionThrew(printed: seq<string>, fault: Throwable)

  /** How every collaborator behaves in this invocation. */
  datatype Collaborators = Collaborators(
    parse: ParseOutcome,
    registry: RegistryOutcome,
    discovery: DiscoveryOutcome,
    execution: ExecutionOutcome)

  /** ConsoleLauncherExecutionResult, kept abstract: its exit codes are not part of this model. */
  datatype LaunchResult = Success | Failed | ForSummary(summary: Summary, options: Options)

  /** A call returns a result normally or lets a Throwable propagate. */
  datatype Completion = Returned(result: LaunchResult) | Propagated(fault: Throwable)

  /** What is written to a PrintWriter. */
  datatype Event =
    | Line(text: string)               // println(text); println() is Line("")
    | Banner                           // the three banner lines: blank, the sponsoring message, blank
    | Help(ansiColorOutputDisabled: bool)  // the parser's help text
    | StackTrace(fault: Throwable)     // printStackTrace
    | Flush

  /** println of each line in turn. */
  function Println(lines: seq<string>): seq<Event>
  {
    seq(|lines|, i requires 0 <= i < |lines| => Line(lines[i]))
  }

  // ---------------------------------------------------------------------
  // The specification: what one invocation writes and how it completes.
  // ---------------------------------------------------------------------

  /** The run modes, in the priority order execute checks them. */
  datatype Mode = ListEngines | ListTests | DisplayHelp | ExecuteTests

  function SelectMode(o: Options): (m: Mode)
    ensures m == ListEngines <==> o.listEngines
    ensures m == ListTests <==> !o.listEngines && o.listTests
    ensures m == DisplayHelp <==> !o.listEngines && !o.listTests && o.displayHelp
  {
    if o.listEngines then ListEngines
    else if o.listTests then ListTests
    else if o.displayHelp then DisplayHelp
    else ExecuteTests
  }

  /** The completion of the invocation and everything it appends to out and to err. */
  datatype Trace = Trace(completion: Completion, out: seq<Event>, err: seq<Event>)

  /** The banner that precedes every mode but engine listing, unless it is disabled. */
  function BannerOf(o: Options): seq<Event>
  {
    if o.bannerDisabled then [] else [Banner]
  }

  /**
    handleTestExecutorException after the delegate printed `out`: an Exception
    puts a stack trace and a blank line on err and help on out and fails; an
    Error passes every catch (Exception) and propagates.
   */
  function Contain(fault: Throwable, o: Options, out: seq<Event>): (r: Trace)
    ensures r.completion.Propagated? <==> fault.Error?
    ensures r.completion.Propagated? ==> r.completion.fault == fault && r.out == out && r.err == []
    ensures r.completion.Returned? ==> r.completion.result == Failed
    ensures out <= r.out && |r.out| <= |out| + 1
    ensures r.err != [] <==> !fault.Error?
    ensures r.err != [] ==> r.err[0] == StackTrace(fault)
    ensures r.completion.Returned? ==>
      r.out == out + [Help(o.ansiColorOutputDisabled)] && r.err == [StackTrace(fault), Line("")]
  {
    if fault.Error? then Trace(Propagated(fault), out, [])
    else Trace(Returned(Failed), out + [Help(o.ansiColorOutputDisabled)], [StackTrace(fault), Line("")])
  }

  /** List engines: the listing on out and success, or the registry's fault propagates. */
  function ListEnginesTrace(registry: RegistryOutcome): Trace
  {
    match registry
    case Loaded(engines) => Trace(Returned(Success), Println(Listing(engines)), [])
    case LoadThrew(fault) => Trace(Propagated(fault), [], [])
  }

  /** List tests: success whenever discovery returns, whatever it found. */
  function ListTestsTrace(o: Options, discovery: DiscoveryOutcome): Trace
  {
    match discovery
    case Discovered(printed) => Trace(Returned(Success), Println(printed), [])
    case DiscoveryThrew(printed, fault) => Contain(fault, o, Println(printed))
  }

  /** Display help: help on out with the options' colour setting, and success. */
  function DisplayHelpTrace(o: Options): Trace
  {
    Trace(Returned(Success), [Help(o.ansiColorOutputDisabled)], [])
  }

  /** Execute tests: the result for the returned summary, or the contained fault. */
  function ExecuteTestsTrace(o: Options, execution: ExecutionOutcome): Trace
  {
    match execution
    case Executed(printed, summary) => Trace(Returned(ForSummary(summary, o)), Println(printed), [])
    case ExecutionThrew(printed, fault) => Contain(fault, o, Println(printed))
  }

  /** The banner, unless disabled, ahead of what the mode writes to out. */
  function AfterBanner(o: Options, t: Trace): Trace
  {
    Trace(t.completion, BannerOf(o) + t.out, t.err)
  }

  /** The try block of execute: parse, then the selected mode. */
  function TryBlock(env: Collaborators): Trace
  {
    match env.parse
    case ParseThrew(fault) => Trace(Propagated(fault), [], [])
    case Parsed(o) =>
      match SelectMode(o)
      case ListEngines => ListEnginesTrace(env.registry)
      case ListTests => AfterBanner(o, ListTestsTrace(o, env.discovery))
      case DisplayHelp => AfterBanner(o, DisplayHelpTrace(o))
      case ExecuteTests => AfterBanner(o, ExecuteTestsTrace(o, env.execution))
  }

  /** The catch (JUnitException) clause: message, blank line and help to err, then failed. */
  function CatchJUnit(t: Trace): (r: Trace)
    ensures !(r.completion.Propagated? && r.completion.fault.JUnitException?)
    ensures r.out == t.out && t.err <= r.err
    ensures r.completion == t.completion ==> r == t
    ensures r.completion != t.completion ==>
      && t.completion.Propagated? && t.completion.fault.JUnitException?
      && r.completion == Returned(Failed)
      && r.err == t.err + [Line(t.completion.fault.message), Line(""), Help(false)]
  {
    match t.completion
    case Propagated(JUnitException(message)) =>
      Trace(Returned(Failed), t.out, t.err + [Line(message), Line(""), Help(false)])
    case _ => t
  }

  /**
    The whole invocation: try, catch, and the finally that flushes both
    writers. Each writer is its own sequence, so the order of the two flushes
    relative to each other is not recorded.
   */
  function Invocation(env: Collaborators): Trace
  {
    var t := CatchJUnit(TryBlock(env));
    Trace(t.completion, t.out + [Flush], t.err + [Flush])
  }

  // ---------------------------------------------------------------------
  // The launcher: the two writers are event sequences appended in place.
  // ---------------------------------------------------------------------

  class ConsoleLauncher {
    var out: seq<Event>
    var err: seq<Event>

    constructor (out: seq<Event>, err: seq<Event>)
      ensures this.out == out && this.err == err
    {
      this.out := out;
      this.err := err;
    }

    /** execute(String...): the try block, the catch (JUnitException) clause and the finally. */
    method Execute(env: Collaborators) returns (c: Completion)
      modifies this
      ensures c == Invocation(env).completion
      ensures out == old(out) + Invocation(env).out
      ensures err == old(err) + Invocation(env).err
    {
      c := Dispatch(env);
      if c.Propagated? && c.fault.JUnitException? {
        err := err + [Line(c.fault.message)];
        err := err + [Line("")];
        err := err + [Help(false)];
        c := Returned(Failed);
      }
      out := out + [Flush];
      err := err + [Flush];
    }

    /**
      The try block of execute: parse, then the first selected mode. A throw
      that leaves the block is returned as Propagated.
     */
    method Dispatch(env: Collaborators) returns (c: Completion)
      modifies this
      ensures c == TryBlock(env).completion
      ensures out == old(out) + TryBlock(env).out
      ensures err == old(err) + TryBlock(env).err
    {
      if env.parse.ParseThrew? {
        return Propagated(env.parse.fault);
      }
      var options := env.parse.options;
      if options.listEngines {
        assert TryBlock(env) == ListEnginesTrace(env.registry);
        var thrown := DisplayEngines(env.registry);
        return if thrown.Some? then Propagated(thrown.value) else Returned(Success);
      }
      if !options.bannerDisabled {
        DisplayBanner();
      }
      assert out == old(out) + BannerOf(options) && err == old(err);
      if options.listTests {
        assert TryBlock(env) == AfterBanner(options, ListTestsTrace(options, env.discovery));
        c := ListTests(options, env.discovery);
        return;
      }
      if options.displayHelp {
        assert TryBlock(env) == AfterBanner(options, DisplayHelpTrace(options));
        out := out + [Help(options.ansiColorOutputDisabled)];
        return Returned(Success);
      }
      assert TryBlock(env) == AfterBanner(options, ExecuteTestsTrace(options, env.execution));
      c := ExecuteTests(options, env.execution);
    }

    method DisplayBanner()
      modifies this
      ensures out == old(out) + [Banner] && err == old(err)
    {
      out := out + [Banner];
    }

    /** Loads the engines, sorts them by id and prints one line each; a loading fault is rethrown. */
    method DisplayEngines(registry: RegistryOutcome) returns (thrown: Option<Throwable>)
      modifies this
      ensures registry.LoadThrew? ==> thrown == Some(registry.fault) && out == old(out)
      ensures registry.Loaded? ==> thrown == None && out == old(out) + Println(Listing(registry.engines))
      ensures err == old(err)
    {
      if registry.LoadThrew? {
        return Some(registry.fault);
      }
      var sorted := SortById(registry.engines);
      for i := 0 to |sorted|
        invariant out == old(out) + Println(Rendered(sorted[..i]))
        invariant err == old(err)
      {
        DisplayEngine(sorted[i]);
        assert Println(Rendered(sorted[..i + 1])) == Println(Rendered(sorted[..i])) + [Line(EngineLine(sorted[i]))];
      }
      assert sorted[..|sorted|] == sorted;
      thrown := None;
    }

    /** Prints the engine's id followed by its provenance joined inside " (" and ")". */
    method DisplayEngine(engine: Engine)
      modifies this
      ensures out == old(out) + [Line(EngineLine(engine))] && err == old(err)
    {
      var details := new StringJoiner(":", " (", ")");
      if engine.groupId.Some? {
        details.Add(engine.groupId.value);
      }
      if engine.artifactId.Some? {
        details.Add(engine.artifactId.value);
      }
      if engine.version.Some? {
        details.Add(engine.version.value);
      }
      assert details.parts == PresentFields(engine);
      assert engine.id + details.ToString() == EngineLine(engine);
      out := out + [Line(engine.id + details.ToString())];
    }

    /** Discovers the tests, which print themselves; any Exception goes to the handler. */
    method ListTests(options: Options, discovery: DiscoveryOutcome) returns (c: Completion)
      modifies this
      ensures c == ListTestsTrace(options, discovery).completion
      ensures out == old(out) + ListTestsTrace(options, discovery).out
      ensures err == old(err) + ListTestsTrace(options, discovery).err
    {
      out := out + Println(discovery.printed);
      if discovery.Discovered? {
        return Returned(Success);
      }
      if discovery.fault.Error? {
        return Propagated(discovery.fault);
      }
      c := HandleTestExecutorException(discovery.fault, options);
    }

    /** Runs the tests, which print their report; the summary becomes the result. */
    method ExecuteTests(options: Options, execution: ExecutionOutcome) returns (c: Completion)
      modifies this
      ensures c == ExecuteTestsTrace(options, execution).completion
      ensures out == old(out) + ExecuteTestsTrace(options, execution).out
      ensures err == old(err) + ExecuteTestsTrace(options, execution).err
    {
      out := out + Println(execution.printed);
      if execution.Executed? {
        return Returned(ForSummary(execution.summary, options));
      }
      if execution.fault.Error? {
        return Propagated(execution.fault);
      }
      c := HandleTestExecutorException(execution.fault, options);
    }

    /** Stack trace and a blank line to err, help to out, then failed. */
    method HandleTestExecutorException(exception: Throwable, options: Options) returns (c: Completion)
      requires !exception.Error?
      modifies this
      ensures c == Returned(Failed)
      ensures err == old(err) + [StackTrace(exception), Line("")]
      ensures out == old(out) + [Help(options.ansiColorOutputDisabled)]
    {
      err := err + [StackTrace(exception)];
      err := err + [Line("")];
      out := out + [Help(options.ansiColorOutputDisabled)];
      c := Returned(Failed);
    }
  }
}
