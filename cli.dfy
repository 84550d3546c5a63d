/** Main.call: the settings of a run are the defaults or the YAML file's,
    overridden by what the command line states; the jar is transformed with
    them and the report written when a report path is given. */
module Cli {
  import opened Common
  import opened Report
  import opened Configuration
  import opened ConfigLoader
  import opened Archive
  import opened JarTransformer

  /** The option fields once the command line is parsed. A string or list
      option not given is null; a flag not given is false. `config` is the
      document the `-c` file holds, when the option is given. */
  datatype Options = Options(
    config: Option<Document>,
    dryRun: bool,
    report: Option<string>,
    includeClassRegex: Option<string>,
    excludeClassRegex: Option<seq<string>>,
    includeMethodRegex: Option<string>,
    excludeMethodRegex: Option<seq<string>>,
    requireAnnotationDesc: Option<string>,
    entryLog: bool,
    timing: bool,
    logger: Option<string>,
    logPrefix: Option<string>)

  /** `--logger` and `--log-prefix` declare the default values "stdout" and
      "[BC]", which the parser fills in when the option is not given. */
  function WithOptionDefaults(o: Options): (r: Options)
    ensures r.logger.Some? && r.logPrefix.Some?
    ensures o.logger.Some? ==> r.logger == o.logger
    ensures o.logPrefix.Some? ==> r.logPrefix == o.logPrefix
  {
    o.(logger := if o.logger.Some? then o.logger else Some("stdout"),
       logPrefix := if o.logPrefix.Some? then o.logPrefix else Some("[BC]"))
  }

  /** The settings `call` starts from: the file's when `-c` is given, the
      defaults otherwise. */
  function Initial(o: Options): (r: Settings)
    ensures o.config.None? ==> r == Defaults
  {
    if o.config.Some? then Loaded(o.config.value) else Defaults
  }

  /** A list option overrides only when it is given with at least one value. */
  function ListOverride(given: Option<seq<string>>, current: seq<string>): seq<string>
  {
    if given.Some? && |given.value| > 0 then given.value else current
  }

  /** The settings once the command line is applied over `file`: a given
      pattern or annotation replaces the file's, a non-empty list replaces
      the file's list, the feature flags can only turn features on, a
      given logger or prefix replaces the file's, and the dry-run flag and
      report path always come from the command line. */
  function Merged(file: Settings, o: Options): Settings
  {
    Settings(
      entryLog := file.entryLog || o.entryLog,
      timing := file.timing || o.timing,
      dryRun := o.dryRun,
      logger := if o.logger.Some? then o.logger.value else file.logger,
      logPrefix := if o.logPrefix.Some? then o.logPrefix.value else file.logPrefix,
      includeClassRegex := if o.includeClassRegex.Some? then o.includeClassRegex else file.includeClassRegex,
      excludeClassRegex := ListOverride(o.excludeClassRegex, file.excludeClassRegex),
      includeMethodRegex := if o.includeMethodRegex.Some? then o.includeMethodRegex else file.includeMethodRegex,
      excludeMethodRegex := ListOverride(o.excludeMethodRegex, file.excludeMethodRegex),
      requireAnnotationDesc := if o.requireAnnotationDesc.Some? then o.requireAnnotationDesc else file.requireAnnotationDesc,
      reportPath := o.report)
  }

  /** The overrides of `call`, one conditional assignment per option. */
  method ApplyOverrides(cfg: Config, o: Options)
    modifies cfg
    ensures cfg.Value() == Merged(old(cfg.Value()), o)
  {
    OverrideClassFilters(cfg, o);
    OverrideMethodFilters(cfg, o);
    OverrideFeatures(cfg, o);
    cfg.dryRun := o.dryRun;
    cfg.reportPath := o.report;
  }

  /** The class filters. */
  method OverrideClassFilters(cfg: Config, o: Options)
    modifies cfg
    ensures cfg.Value() == old(cfg.Value()).(
              includeClassRegex := if o.includeClassRegex.Some? then o.includeClassRegex else old(cfg.includeClassRegex),
              excludeClassRegex := ListOverride(o.excludeClassRegex, old(cfg.excludeClassRegex)))
  {
    if o.includeClassRegex.Some? {
      cfg.includeClassRegex := o.includeClassRegex;
    }
    if o.excludeClassRegex.Some? && |o.excludeClassRegex.value| > 0 {
      cfg.excludeClassRegex := o.excludeClassRegex.value;
    }
  }

  /** The method filters and the required annotation. */
  method OverrideMethodFilters(cfg: Config, o: Options)
    modifies cfg
    ensures cfg.Value() == old(cfg.Value()).(
              includeMethodRegex := if o.includeMethodRegex.Some? then o.includeMethodRegex else old(cfg.includeMethodRegex),
              excludeMethodRegex := ListOverride(o.excludeMethodRegex, old(cfg.excludeMethodRegex)),
              requireAnnotationDesc := if o.requireAnnotationDesc.Some? then o.requireAnnotationDesc else old(cfg.requireAnnotationDesc))
  {
    if o.includeMethodRegex.Some? {
      cfg.includeMethodRegex := o.includeMethodRegex;
    }
    if o.excludeMethodRegex.Some? && |o.excludeMethodRegex.value| > 0 {
      cfg.excludeMethodRegex := o.excludeMethodRegex.value;
    }
    if o.requireAnnotationDesc.Some? {
      cfg.requireAnnotationDesc := o.requireAnnotationDesc;
    }
  }

  /** The feature flags, the logger and the message prefix. */
  method OverrideFeatures(cfg: Config, o: Options)
    modifies cfg
    ensures cfg.Value() == old(cfg.Value()).(
              entryLog := old(cfg.entryLog) || o.entryLog,
              timing := old(cfg.timing) || o.timing,
              logger := if o.logger.Some? then o.logger.value else old(cfg.logger),
              logPrefix := if o.logPrefix.Some? then o.logPrefix.value else old(cfg.logPrefix))
  {
    if o.entryLog {
      cfg.entryLog := true;
    }
    if o.timing {
      cfg.timing := true;
    }
    if o.logger.Some? {
      cfg.logger := o.logger.value;
    }
    if o.logPrefix.Some? {
      cfg.logPrefix := o.logPrefix.value;
    }
  }

  /** Applying the same command line twice changes nothing more. */
  lemma MergedIdempotent(file: Settings, o: Options)
    ensures Merged(Merged(file, o), o) == Merged(file, o)
  {
  }

  /** A feature the file turns on stays on, whatever the command line says. */
  lemma FeaturesOnlyTurnOn(file: Settings, o: Options)
    ensures file.entryLog ==> Merged(file, o).entryLog
    ensures file.timing ==> Merged(file, o).timing
    ensures Merged(file, o).entryLog ==> file.entryLog || o.entryLog
    ensures Merged(file, o).timing ==> file.timing || o.timing
  {
  }

  /** What the command line states does not depend on the file. */
  lemma CommandLineWins(f1: Settings, f2: Settings, o: Options)
    ensures Merged(f1, o).dryRun == Merged(f2, o).dryRun == o.dryRun
    ensures Merged(f1, o).reportPath == Merged(f2, o).reportPath == o.report
    ensures o.includeClassRegex.Some? ==> Merged(f1, o).includeClassRegex == Merged(f2, o).includeClassRegex
    ensures o.includeMethodRegex.Some? ==> Merged(f1, o).includeMethodRegex == Merged(f2, o).includeMethodRegex
    ensures o.requireAnnotationDesc.Some? ==> Merged(f1, o).requireAnnotationDesc == Merged(f2, o).requireAnnotationDesc
    ensures o.excludeClassRegex.Some? && o.excludeClassRegex.value != [] ==>
              Merged(f1, o).excludeClassRegex == Merged(f2, o).excludeClassRegex
    ensures o.excludeMethodRegex.Some? && o.excludeMethodRegex.value != [] ==>
              Merged(f1, o).excludeMethodRegex == Merged(f2, o).excludeMethodRegex
    ensures o.entryLog ==> Merged(f1, o).entryLog && Merged(f2, o).entryLog
    ensures o.timing ==> Merged(f1, o).timing && Merged(f2, o).timing
  {
  }

  /** A command line that states no filter, annotation or feature keeps
      every other setting of the file, but for the dry-run flag, the report
      path, and the logger and prefix, which are the given ones or the
      option defaults; an empty list option counts as not stated. */
  lemma SilentCommandLineKeepsFile(file: Settings, o: Options)
    requires o.includeClassRegex.None? && o.includeMethodRegex.None? && o.requireAnnotationDesc.None?
    requires o.excludeClassRegex.None? || o.excludeClassRegex.value == []
    requires o.excludeMethodRegex.None? || o.excludeMethodRegex.value == []
    requires !o.entryLog && !o.timing
    ensures Merged(file, WithOptionDefaults(o))
            == file.(dryRun := o.dryRun, reportPath := o.report,
                     logger := if o.logger.Some? then o.logger.value else "stdout",
                     logPrefix := if o.logPrefix.Some? then o.logPrefix.value else "[BC]")
  {
  }

  /** Because the parser fills in their defaults, the logger and the
      prefix always come from the command line, never from the file. */
  lemma LoggerNeverFromFile(f1: Settings, f2: Settings, o: Options)
    ensures Merged(f1, WithOptionDefaults(o)).logger == Merged(f2, WithOptionDefaults(o)).logger
    ensures Merged(f1, WithOptionDefaults(o)).logPrefix == Merged(f2, WithOptionDefaults(o)).logPrefix
    ensures o.logger.None? ==> Merged(f1, WithOptionDefaults(o)).logger == "stdout"
    ensures o.logPrefix.None? ==> Merged(f1, WithOptionDefaults(o)).logPrefix == "[BC]"
  {
  }

  /** The JSON report written to a path. */
  datatype ReportFile = ReportFile(path: string, contents: ReportValue)

  /** The two summary lines printed after the run. */
  function Summary(r: ReportValue): (lines: seq<string>)
    ensures |lines| == 2
    ensures StartsWith(lines[0], "Transformed classes: ") && StartsWith(lines[1], "Transformed methods: ")
    ensures lines[0][|"Transformed classes: "|..] == DecimalText(r.transformedClasses)
    ensures lines[1][|"Transformed methods: "|..] == DecimalText(r.transformedMethods)
  {
    var a := "Transformed classes: ";
    var b := "Transformed methods: ";
    var l0 := a + DecimalText(r.transformedClasses);
    var l1 := b + DecimalText(r.transformedMethods);
    assert l0[..|a|] == a && l0[|a|..] == DecimalText(r.transformedClasses);
    assert l1[..|b|] == b && l1[|b|..] == DecimalText(r.transformedMethods);
    [l0, l1]
  }

  /** call: builds the settings, transforms the jar, writes the report
      when a report path is set, prints the two counters and returns 0.
      `o` holds the options as given; the parser's defaults for the logger
      and the prefix are filled in first. */
  method Call(o: Options, jar: Jar, finds: Finder, read: ClassReading, write: ClassWriting)
    returns (code: int, report: ReportValue, output: Option<Jar>, reportFile: Option<ReportFile>, lines: seq<string>)
    ensures code == 0
    ensures lines == Summary(report)
    ensures var s := Merged(Initial(o), WithOptionDefaults(o));
            && (s.dryRun ==> output.None? && report == DryRunReport(s, finds, jar.entries))
            && (!s.dryRun ==>
                  && output == Some(Jar(jar.manifest, Outputs(s, finds, read, write, Written(jar.entries, jar.manifest.Some?))))
                  && report == RunReport(s, finds, read, Written(jar.entries, jar.manifest.Some?)))
    ensures reportFile == if o.report.Some? then Some(ReportFile(o.report.value, report)) else None
  {
    var cfg := new Config();
    if o.config.Some? {
      cfg := Load(o.config.value);
    }
    ApplyOverrides(cfg, WithOptionDefaults(o));
    var rep;
    rep, output := TransformJar(jar, cfg, finds, read, write);
    report := rep.Value();
    reportFile := if cfg.reportPath.Some? then Some(ReportFile(cfg.reportPath.value, report)) else None;
    lines := ["Transformed classes: " + DecimalText(report.transformedClasses),
              "Transformed methods: " + DecimalText(report.transformedMethods)];
    code := 0;
  }
}
