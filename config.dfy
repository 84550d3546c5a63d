/** Config: the settings of one run, as a mutable record with defaults. */
module Configuration {
  import opened Common

  /** The contents of a Config at one moment; a Path is kept as its text. */
  datatype Settings = Settings(
    entryLog: bool,
    timing: bool,
    dryRun: bool,
    logger: string,
    logPrefix: string,
    includeClassRegex: Option<string>,
    excludeClassRegex: seq<string>,
    includeMethodRegex: Option<string>,
    excludeMethodRegex: seq<string>,
    requireAnnotationDesc: Option<string>,
    reportPath: Option<string>)

  /** Features off, console sink, prefix "[BC]", no filters, no report. */
  const Defaults: Settings :=
    Settings(false, false, false, "stdout", "[BC]", None, [], None, [], None, None)

  class Config {
    var entryLog: bool
    var timing: bool
    var dryRun: bool
    var logger: string
    var logPrefix: string
    var includeClassRegex: Option<string>
    var excludeClassRegex: seq<string>
    var includeMethodRegex: Option<string>
    var excludeMethodRegex: seq<string>
    var requireAnnotationDesc: Option<string>
    var reportPath: Option<string>

    /** A new Config holds the defaults. */
    constructor ()
      ensures Value() == Defaults
    {
      entryLog := false;
      timing := false;
      dryRun := false;
      logger := "stdout";
      logPrefix := "[BC]";
      includeClassRegex := None;
      excludeClassRegex := [];
      includeMethodRegex := None;
      excludeMethodRegex := [];
      requireAnnotationDesc := None;
      reportPath := None;
    }

    /** Overwrites every field with the corresponding setting of `s`. */
    method Assign(s: Settings)
      modifies this
      ensures Value() == s
    {
      entryLog, timing, dryRun, logger, logPrefix := s.entryLog, s.timing, s.dryRun, s.logger, s.logPrefix;
      includeClassRegex, excludeClassRegex := s.includeClassRegex, s.excludeClassRegex;
      includeMethodRegex, excludeMethodRegex := s.includeMethodRegex, s.excludeMethodRegex;
      requireAnnotationDesc, reportPath := s.requireAnnotationDesc, s.reportPath;
    }

    /** The settings the fields hold now. */
    function Value(): Settings
      reads this
    {
      Settings(entryLog, timing, dryRun, logger, logPrefix, includeClassRegex, excludeClassRegex,
               includeMethodRegex, excludeMethodRegex, requireAnnotationDesc, reportPath)
    }
  }
}
