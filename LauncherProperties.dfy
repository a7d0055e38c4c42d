/**
  What an invocation of the console launcher guarantees, stated over the
  Invocation trace that ConsoleLauncher.Execute is proved to produce.
 */
module LauncherProperties {
  import opened EngineListing
  import opened Launcher

  /**
    Listing engines wins outright: out receives exactly the sorted listing,
    nothing goes to err, the result is success, and neither the banner nor
    help is printed, whatever the other flags say and whatever the test
    executor would have done.
   */
  lemma ListEnginesWins(env: Collaborators, d: DiscoveryOutcome, x: ExecutionOutcome)
    requires env.parse.Parsed? && env.parse.options.listEngines
    requires env.registry.Loaded?
    ensures Invocation(env) ==
      Trace(Returned(Success), Println(Listing(env.registry.engines)) + [Flush], [Flush])
    ensures Banner !in Invocation(env).out && forall b :: Help(b) !in Invocation(env).out
    ensures Invocation(env.(discovery := d, execution := x)) == Invocation(env)
  {
  }

  /**
    The banner is written to out exactly when parsing succeeded, the banner
    is not disabled and engines are not listed; it is then the first thing
    written, and it never goes to err.
   */
  lemma BannerRule(env: Collaborators)
    ensures Banner in Invocation(env).out <==>
      env.parse.Parsed? && !env.parse.options.bannerDisabled && !env.parse.options.listEngines
    ensures Banner in Invocation(env).out ==> Invocation(env).out[0] == Banner
    ensures Banner !in Invocation(env).err
  {
  }

  /**
    Listing tests comes before help and execution: with list-tests set the
    executor's execute is never consulted, and when discovery returns the
    result is success without looking at what was found, and no help is
    printed even when help was asked for too.
   */
  lemma ListTestsBeforeHelp(env: Collaborators, x: ExecutionOutcome)
    requires env.parse.Parsed? && !env.parse.options.listEngines && env.parse.options.listTests
    ensures Invocation(env.(execution := x)) == Invocation(env)
    ensures env.discovery.Discovered? ==>
      && Invocation(env).completion == Returned(Success)
      && (forall b :: Help(b) !in Invocation(env).out)
      && Invocation(env).err == [Flush]
  {
  }

  /**
    Help mode (help set, neither listing set): help to out with the options'
    colour flag after the banner, success, and no collaborator consulted.
   */
  lemma DisplayHelpMode(env: Collaborators, r: RegistryOutcome, d: DiscoveryOutcome, x: ExecutionOutcome)
    requires env.parse.Parsed?
    requires !env.parse.options.listEngines && !env.parse.options.listTests && env.parse.options.displayHelp
    ensures var o := env.parse.options;
      Invocation(env) == Trace(Returned(Success), BannerOf(o) + [Help(o.ansiColorOutputDisabled), Flush], [Flush])
    ensures Invocation(env.(registry := r, discovery := d, execution := x)) == Invocation(env)
  {
  }

  /** Execute mode returns exactly the result for the returned summary and the options. */
  lemma ExecuteReturnsForSummary(env: Collaborators)
    requires env.parse.Parsed? && SelectMode(env.parse.options) == ExecuteTests
    requires env.execution.Executed?
    ensures var o := env.parse.options;
      Invocation(env) == Trace(
        Returned(ForSummary(env.execution.summary, o)),
        BannerOf(o) + Println(env.execution.printed) + [Flush],
        [Flush])
  {
  }

  /**
    A JUnitException from the parser puts its message, a blank line and help
    without colour on err, writes nothing but the flush to out, and fails.
   */
  lemma ParseFailure(env: Collaborators, message: string)
    requires env.parse == ParseThrew(JUnitException(message))
    ensures Invocation(env) ==
      Trace(Returned(Failed), [Flush], [Line(message), Line(""), Help(false), Flush])
  {
  }

  /**
    The outer handler also catches a JUnitException thrown while loading the
    engines to list: same message, blank line and help on err, and failure.
   */
  lemma EngineListingJUnitFailure(env: Collaborators, message: string)
    requires env.parse.Parsed? && env.parse.options.listEngines
    requires env.registry == LoadThrew(JUnitException(message))
    ensures Invocation(env) ==
      Trace(Returned(Failed), [Flush], [Line(message), Line(""), Help(false), Flush])
  {
  }

  /**
    Any Exception from discovery or execution, a JUnitException included, is
    contained: the stack trace and a blank line go to err, help with the
    options' colour flag goes to out after what the delegate printed, and the
    result is failure, never the outer handler's message.
   */
  lemma DelegatedFaultContained(env: Collaborators)
    requires env.parse.Parsed?
    requires var m := SelectMode(env.parse.options);
      (m == ListTests && env.discovery.DiscoveryThrew? && !env.discovery.fault.Error?)
      || (m == ExecuteTests && env.execution.ExecutionThrew? && !env.execution.fault.Error?)
    ensures var o := env.parse.options;
      var (printed, fault) :=
        if SelectMode(o) == ListTests then (env.discovery.printed, env.discovery.fault)
        else (env.execution.printed, env.execution.fault);
      Invocation(env) == Trace(
        Returned(Failed),
        BannerOf(o) + Println(printed) + [Help(o.ansiColorOutputDisabled), Flush],
        [StackTrace(fault), Line(""), Flush])
  {
  }

  /**
    Only what no catch clause takes leaves execute: a non-JUnit throwable from
    the parser or the registry, or an Error from the test executor.
   */
  lemma OnlyUncaughtPropagates(env: Collaborators)
    ensures var c := Invocation(env).completion;
      c.Propagated? ==>
        && !c.fault.JUnitException?
        && (env.parse == ParseThrew(c.fault)
            || env.registry == LoadThrew(c.fault)
            || c.fault.Error?)
  {
  }

  /**
    Both writers are flushed exactly once per invocation, after everything
    else written to them, on every way out, a propagating throwable included.
   */
  lemma FlushedOnceAtEnd(env: Collaborators)
    ensures var t := Invocation(env);
      && t.out != [] && t.out[|t.out| - 1] == Flush && multiset(t.out)[Flush] == 1
      && t.err != [] && t.err[|t.err| - 1] == Flush && multiset(t.err)[Flush] == 1
  {
    var caught := CatchJUnit(TryBlock(env));
    NoFlushBeforeFinally(env);
    assert multiset(caught.out + [Flush])[Flush] == multiset(caught.out)[Flush] + 1;
    assert multiset(caught.err + [Flush])[Flush] == multiset(caught.err)[Flush] + 1;
  }

  /** Nothing in the try block or the catch clause flushes. */
  lemma NoFlushBeforeFinally(env: Collaborators)
    ensures Flush !in CatchJUnit(TryBlock(env)).out && Flush !in CatchJUnit(TryBlock(env)).err
  {
  }

  /**
    Which writer gets what: stack traces only ever go to err, and help goes
    to err only with colour disabled off, after a JUnitException that failed
    the invocation.
   */
  lemma StreamSeparation(env: Collaborators)
    ensures forall f :: StackTrace(f) !in Invocation(env).out
    ensures forall b :: Help(b) in Invocation(env).err ==>
      !b && Invocation(env).completion == Returned(Failed)
  {
  }
}
