# bytecode-transformer, modelled in Dafny

This project models the core of *bytecode-transformer*, a tool that rewrites
the classes of a jar. It can inject two things into each method:

- an entry log line (`<prefix> enter <owner>.<name><desc>`);
- nanosecond timing logged before every exit (`<prefix> exit|throw ... durationNs=<n>`).

The log goes to the console or to an slf4j logger. The run writes a report:

- the scanned classes;
- the transformed classes;
- the transformed methods;
- one record per instrumented method.

Both generations of the tool are modelled.

**The current tool** (package `com.arda.bctransform`):

- `Config` and its defaults (`config.dfy`).
- `ConfigLoader`, which reads a YAML document (`config_loader.dfy`).
- `TransformReport` (`report.dfy`).
- `MethodTransformAdapter` and `ClassTransformVisitor` (`instrument.dfy`). These are classes whose callbacks update their fields and the shared report in place.
- The instruction sequences they emit and their operand-stack effect (`bytecode.dfy`, `injection.dfy`).
- `JarTransformer` (`jar_transformer.dfy`, with the entry selection shared with the legacy tool in `archive.dfy`). It covers class eligibility, the dry-run loop and the rewrite loop.
- `Main.call`, which merges the command line over the file settings and drives the run (`cli.dfy`).

**The legacy tool** (the root-level files):

- `EntryLoggingClassVisitor` (`legacy_entry_logging.dfy`).
- The prefix-based `JarTransformer` with its `Config` (`legacy_jar.dfy`).
- The argument loop of `Main` (`legacy_main.dfy`).

**Where the model sits between the code and the outside world:**

- Regular expressions are a parameter `finds(pattern, text)`, standing for `Pattern.compile(pattern).matcher(text).find()`.
- The ASM class reader and class writer are the function parameters `ClassReading` and `ClassWriting`.
  - The reader yields a `ClassInfo`: the internal name, and per method its flags, name, descriptor, annotations, exits and first free local slot. Each exit is its opcode and the number of slots the local-variable sorter handed the method's own locals since the previous exit.
  - The writer receives the original bytes and the code injected into each method.
- A jar is its manifest (or none) and its entries in archive order. A Java jar declares a manifest exactly when it holds the `META-INF/MANIFEST.MF` entry; that entry is never a class, so the manifest skip cannot change what is counted.
- A parsed YAML document is a `Document` value.
- Java `null` is `Option.None`.

Each loop of the source is a `method` with a `while` loop (or recursion over the method list, for the class reader's callbacks). Each is proved against a specification function:

| loop | function it is proved against |
|---|---|
| the rewrite loop | `Written` / `Outputs` / `RunReport` |
| the dry run | `DryRunReport` |
| `getStrList` | `StrList` |
| `computeEligible` | `Eligible` |
| `shouldTransform` | `ShouldTransform` |
| the legacy argument loop | `Parse` |

The lemmas beside the functions state what the tool promises.

Two points about what the tool does:

- **Logger sink.** The slf4j sink is selected by the logger value `"slf4j"`, in any case (`Injection.IsSlf4j`). Every other value prints to standard output.
- **Dry-run counts are not the real run's counts.** The legacy usage text says a dry run will "just report what would be transformed" (Main.java:15), and the current option says "Scan and report only" (src/main/java/com/arda/bctransform/Main.java:40). The dry run counts every eligible class entry, including:
  - duplicates of a name;
  - classes that would be left as they are, because no feature is on or no method would be instrumented.

  The real run counts a class as transformed only when one of its methods was instrumented. So the two runs' counters are not equal in general. `JarTransformer.DryRunBoundsRun` proves the dry run's counters are upper bounds. `LegacyJar.RunCountIsDryCount` proves equality for the legacy tool when names are distinct. The manifest entry the real run skips is never a class (`Archive.ManifestIsNoClass`), so it never counts in either run.

## Model

| member | source | states |
|---|---|---|
| Injection.Phase | src/main/java/com/arda/bctransform/MethodTransformAdapter.java:117-121 | the phase word is "throw" exactly for ATHROW and "exit" exactly for every other exit opcode |
| Injection.LogCodeNeutral | src/main/java/com/arda/bctransform/MethodTransformAdapter.java:124-161 | the log sequence on either sink leaves the operand stack as deep as it found it and never pops a word it did not push |
| Injection.Slf4jLogNeutral | src/main/java/com/arda/bctransform/MethodTransformAdapter.java:128-145 | getLogger(owner).info(msg) is stack-neutral |
| Injection.ConsoleLogNeutral | src/main/java/com/arda/bctransform/MethodTransformAdapter.java:147-160 | System.out.println(msg) is stack-neutral |
| Injection.TimingCodeNeutral | src/main/java/com/arda/bctransform/MethodTransformAdapter.java:163-268 | the timing log on either sink is stack-neutral |
| Injection.Slf4jTimingNeutral | src/main/java/com/arda/bctransform/MethodTransformAdapter.java:165-207 | logger lookup, text, Long.toString(dur), concat and info is stack-neutral (the long takes two words) |
| Injection.ConsoleTimingNeutral | src/main/java/com/arda/bctransform/MethodTransformAdapter.java:210-267 | the StringBuilder form of the timing line is stack-neutral |
| Injection.TimerCodeNeutral | src/main/java/com/arda/bctransform/MethodTransformAdapter.java:88-115 | the clock capture into the start slot and the nanoTime-minus-start measurement into the duration slot are each stack-neutral |
| Injection.EntryCodeNeutral | src/main/java/com/arda/bctransform/MethodTransformAdapter.java:79-98 | everything onMethodEnter emits is stack-neutral, for every combination of features and sinks |
| Injection.ExitCodeNeutral | src/main/java/com/arda/bctransform/MethodTransformAdapter.java:100-122 | everything onMethodExit emits is stack-neutral |
| Injection.LogCodeSink | src/main/java/com/arda/bctransform/MethodTransformAdapter.java:124-161 | both sinks load the same message; Logger.info is called iff the logger is "slf4j" ignoring case, println iff it is not |
| Injection.TimingCodeSink | src/main/java/com/arda/bctransform/MethodTransformAdapter.java:163-268 | both sinks load the same timing text and the duration slot; Logger.info iff slf4j, println iff not |
| Injection.EntryCodeCarries | src/main/java/com/arda/bctransform/MethodTransformAdapter.java:84-95 | the entry code loads the "enter" message iff entry logging is on and stores into the start slot iff timing is on |
| Injection.ExitCodeCarries | src/main/java/com/arda/bctransform/MethodTransformAdapter.java:107-121 | the exit code reads the start slot, stores and reloads the duration slot, loads "<prefix> <phase> <owner>.<name><desc> durationNs=" and uses the slf4j sink iff slf4j is configured |
| Report.AddEmptyReport | src/main/java/com/arda/bctransform/JarTransformer.java:111-115 | adding a report with zero counters and no records leaves a report unchanged, on either side |
| Report.AddReportAssociative | src/main/java/com/arda/bctransform/JarTransformer.java:111-115 | summing class reports into the run's report does not depend on grouping |
| Report.TransformReport.constructor | src/main/java/com/arda/bctransform/TransformReport.java:8-11 | a new report has all three counters at zero and no records |
| Configuration.Config.constructor | src/main/java/com/arda/bctransform/Config.java:9-24 | a new Config has both features and the dry run off, logger "stdout", prefix "[BC]", no patterns, empty exclude lists, no annotation, no report path |
| Configuration.Config.Assign | src/main/java/com/arda/bctransform/ConfigLoader.java:18-40 | after the field assignments the Config holds exactly the given settings |
| ConfigLoader.Texts | src/main/java/com/arda/bctransform/ConfigLoader.java:73 | stringifying a list yields one text per element |
| ConfigLoader.TextsAt | src/main/java/com/arda/bctransform/ConfigLoader.java:73 | element i of the stringified list is String.valueOf of element i: same order |
| ConfigLoader.GetBool | src/main/java/com/arda/bctransform/ConfigLoader.java:46-51 | absent key gives the default; a Boolean is returned as is; a String is true iff it is "true" ignoring case; any other value gives the default |
| ConfigLoader.GetStr | src/main/java/com/arda/bctransform/ConfigLoader.java:53-56 | absent or null gives the default; a string is returned as is; anything else its String.valueOf |
| ConfigLoader.GetStrOrNull | src/main/java/com/arda/bctransform/ConfigLoader.java:58-61 | null iff the key is absent or null, otherwise String.valueOf of the value |
| ConfigLoader.StrList | src/main/java/com/arda/bctransform/ConfigLoader.java:63-77 | a list value yields its elements' texts; any other value, absent and null included, yields the default |
| ConfigLoader.GetStrList | src/main/java/com/arda/bctransform/ConfigLoader.java:63-77 | the element-by-element loop returns exactly StrList |
| ConfigLoader.Loaded | src/main/java/com/arda/bctransform/ConfigLoader.java:11-44 | a document that is not a mapping yields the defaults; the dry-run flag and report path are never read from the file |
| ConfigLoader.Load | src/main/java/com/arda/bctransform/ConfigLoader.java:11-44 | load returns a fresh Config holding Loaded(doc) |
| ConfigLoader.ReadKeys | src/main/java/com/arda/bctransform/ConfigLoader.java:18-40 | the nine key reads produce the settings Loaded describes for a mapping |
| ConfigLoader.AbsentKeysKeepDefaults | src/main/java/com/arda/bctransform/ConfigLoader.java:19-40 | each key the document omits leaves its setting at the Config default (false, "stdout", "[BC]", null, empty list) |
| ConfigLoader.TextsOfTextItems | src/main/java/com/arda/bctransform/ConfigLoader.java:70-74 | a YAML list of strings reads back as the same strings in the same order |
| ConfigLoader.LoadRoundTrip | src/main/java/com/arda/bctransform/ConfigLoader.java:11-44 | a document stating every file setting loads back to exactly those settings, with dry run and report path at their defaults |
| ConfigLoader.StatedScalarsRead | src/main/java/com/arda/bctransform/ConfigLoader.java:19-29 | stated flags, logger, prefix and the three optional strings read back unchanged |
| ConfigLoader.StatedListsRead | src/main/java/com/arda/bctransform/ConfigLoader.java:31-40 | stated exclude lists read back unchanged |
| Instrument.ComputeEligible | src/main/java/com/arda/bctransform/MethodTransformAdapter.java:49-63 | the early-return loop is true iff not abstract or native, not `<init>`/`<clinit>`, the include pattern (if set) is found in name+desc, no exclude pattern is found there, and some feature is on |
| Instrument.MethodRecord | src/main/java/com/arda/bctransform/MethodTransformAdapter.java:274-282 | a record carries the dotted owner, the name, the descriptor and the two feature flags unchanged |
| Instrument.ClassTransformVisitor.constructor | src/main/java/com/arda/bctransform/ClassTransformVisitor.java:18-28 | keeps settings, include pattern and report; no owner yet; class not yet counted; accounting invariant holds |
| Instrument.ClassTransformVisitor.Visit | src/main/java/com/arda/bctransform/ClassTransformVisitor.java:39-40 | the owner becomes the visited class's internal name |
| Instrument.ClassTransformVisitor.VisitMethod | src/main/java/com/arda/bctransform/ClassTransformVisitor.java:43-69 | every method gets a fresh adapter with the current owner, the same settings, pattern and report, its eligibility decided, and nothing visited yet |
| Instrument.ClassTransformVisitor.MarkClassTransformed | src/main/java/com/arda/bctransform/ClassTransformVisitor.java:71-76 | the first call moves classTransformed from 0 to 1 and adds one transformed class; a later call changes nothing |
| Instrument.MethodTransformAdapter.constructor | src/main/java/com/arda/bctransform/MethodTransformAdapter.java:26-47 | the adapter's eligibility is Eligible of its flags, name and descriptor; no annotation seen, start slot -1, nothing emitted |
| Instrument.MethodTransformAdapter.VisitAnnotation | src/main/java/com/arda/bctransform/MethodTransformAdapter.java:65-77 | the flag becomes true iff it was true or the descriptor equals the required one; it never reverts |
| Instrument.MethodTransformAdapter.NewLongLocal | src/main/java/com/arda/bctransform/MethodTransformAdapter.java:93 | a long local gets the next slot, and the allocator moves two slots on |
| Instrument.MethodTransformAdapter.SorterRemaps | src/main/java/com/arda/bctransform/MethodTransformAdapter.java:116 | the sorter's renumbering of the method's own locals draws from the counter `newLocal` uses, moving it on by the slots handed out |
| Instrument.MethodTransformAdapter.OnMethodEnter | src/main/java/com/arda/bctransform/MethodTransformAdapter.java:79-98 | inactive: nothing emitted and report unchanged; active: the entry code emitted, a start slot allocated iff timing, exactly one record with (entryLog, timing), accounting preserved |
| Instrument.MethodTransformAdapter.OnMethodExit | src/main/java/com/arda/bctransform/MethodTransformAdapter.java:100-122 | code is emitted iff eligible, annotation satisfied, timing on and a start slot allocated; then one exit patch measuring into a fresh slot, tagged with the opcode |
| Instrument.MethodTransformAdapter.Record | src/main/java/com/arda/bctransform/MethodTransformAdapter.java:270-283 | when transformed: one record with the dotted owner appended, methods counter up by one, class counted once; transformedMethods == number of records is preserved |
| Instrument.MethodPatches | src/main/java/com/arda/bctransform/MethodTransformAdapter.java:79-122 | an inactive method receives nothing; an active one one entry patch, then one patch per exit, in order, when timing |
| Instrument.Records | src/main/java/com/arda/bctransform/MethodTransformAdapter.java:270-283 | a class adds at most one record per method |
| Instrument.RecordsShape | src/main/java/com/arda/bctransform/ClassTransformVisitor.java:43-76 | a class has no records iff none of its methods is instrumented, and every record carries the dotted class name and the configured flags |
| Instrument.ClassPatches | src/main/java/com/arda/bctransform/ClassTransformVisitor.java:43-69 | one patch list per method of the class |
| Instrument.ClassPatchesAt | src/main/java/com/arda/bctransform/ClassTransformVisitor.java:43-69 | the class's j-th patch list is the j-th method's |
| Instrument.ClassReport | src/main/java/com/arda/bctransform/ClassTransformVisitor.java:71-76 | a class's own report scans nothing, counts one method per record, and counts the class once iff it has a record |
| Instrument.ClassCountedOnce | src/main/java/com/arda/bctransform/ClassTransformVisitor.java:71-76 | the class is counted as transformed iff some method is instrumented, however many are |
| Instrument.FeedAnnotations | src/main/java/com/arda/bctransform/MethodTransformAdapter.java:65-77 | after all annotation callbacks the flag is set iff it was set or the required descriptor is among the annotations |
| Instrument.FeedExits | src/main/java/com/arda/bctransform/MethodTransformAdapter.java:100-122 | a timed method gets one exit patch per exit in order, each measuring into the slot `newLocal` hands out after the sorter's slots and the earlier exits' slots; any other method gets nothing; the allocator ends past all of them |
| Instrument.ExitPatchesFromStep | src/main/java/com/arda/bctransform/MethodTransformAdapter.java:100-122 | the exit patches of all exits are those of all but the last, then the last exit's, measuring into the slot the allocator stands at when its callback runs |
| Instrument.RemappedGrows | src/main/java/com/arda/bctransform/MethodTransformAdapter.java:116 | the slots handed out before an exit never decrease along the exits |
| Instrument.DurSlotsFresh | src/main/java/com/arda/bctransform/MethodTransformAdapter.java:116-117 | every duration slot lies past the start slot's two words, and no two exits' long slots overlap |
| Instrument.EnterMethod | src/main/java/com/arda/bctransform/ClassTransformVisitor.java:43-69 | visitMethod, the annotations and onMethodEnter leave the method's entry patch and record exactly when it is active, and a timer slot at the first free local when timed |
| Instrument.AcceptMethod | src/main/java/com/arda/bctransform/ClassTransformVisitor.java:43-69 | all callbacks for one method produce MethodPatches and append its record iff active |
| Instrument.AcceptMethods | src/main/java/com/arda/bctransform/ClassTransformVisitor.java:43-69 | all methods in order: the report gains exactly the class's Records and the patches are ClassPatches |
| Instrument.TransformClass | src/main/java/com/arda/bctransform/JarTransformer.java:161-169 | visiting a class adds exactly its ClassReport to the report and returns ClassPatches |
| Instrument.MethodPatchesNeutral | src/main/java/com/arda/bctransform/MethodTransformAdapter.java:79-122 | every patch injected into a method is stack-neutral |
| Archive.WrittenStep | src/main/java/com/arda/bctransform/JarTransformer.java:72-85 | one more input entry is written iff it is neither the manifest nor a name already written |
| Archive.ManifestIsNoClass | JarTransformer.java:60 | an entry whose name equals the manifest's, ignoring case, is never a class entry, so the manifest skip never hides a class |
| Archive.WrittenNamesFromInput | src/main/java/com/arda/bctransform/JarTransformer.java:81 | a name absent from the input is never written |
| Archive.WrittenFromInput | src/main/java/com/arda/bctransform/JarTransformer.java:72-85 | every written entry is an input entry, and none is the manifest when the jar has one |
| Archive.WrittenDistinct | src/main/java/com/arda/bctransform/JarTransformer.java:66-81 | no two written entries share a name |
| Archive.WrittenAll | src/main/java/com/arda/bctransform/JarTransformer.java:72-85 | with distinct names and no manifest entry to skip, every entry is written, in order |
| Archive.WrittenComplete | src/main/java/com/arda/bctransform/JarTransformer.java:72-85 | every input name other than the skipped manifest is written |
| Archive.WrittenPrefix | src/main/java/com/arda/bctransform/JarTransformer.java:69-85 | what is written for a prefix of the input is a prefix of the output |
| Archive.WrittenFirst | src/main/java/com/arda/bctransform/JarTransformer.java:81-85 | the first entry of each name is the one written, right after what the earlier entries wrote |
| Archive.WrittenInOrder | src/main/java/com/arda/bctransform/JarTransformer.java:69-85 | first-of-their-name entries are written in input order |
| JarTransformer.ClassName | src/main/java/com/arda/bctransform/JarTransformer.java:137-139 | exactly one trailing ".class" is removed; other names are kept |
| JarTransformer.ComputeEligibleClass | src/main/java/com/arda/bctransform/JarTransformer.java:132-153 | the early-return loop is true iff the name is not module-info/package-info, the include pattern (if set) is found in the dotted name and no exclude pattern is |
| JarTransformer.Rewritten | src/main/java/com/arda/bctransform/JarTransformer.java:83-121 | an entry keeps its name and kind, and is copied byte for byte unless it is a class entry that is eligible with a feature on |
| JarTransformer.EntryReport | src/main/java/com/arda/bctransform/JarTransformer.java:88-115 | a written class entry is scanned once; only a transformed class adds transformed classes or records, at most one class |
| JarTransformer.Outputs | src/main/java/com/arda/bctransform/JarTransformer.java:69-125 | one output entry per kept entry |
| JarTransformer.RunReport | src/main/java/com/arda/bctransform/JarTransformer.java:69-125 | transformedMethods equals the number of records, and transformed ≤ scanned ≤ kept entries |
| JarTransformer.DryEntryReport | src/main/java/com/arda/bctransform/JarTransformer.java:43-49 | a class entry is scanned, and counted transformed iff eligible; no methods |
| JarTransformer.DryRunReport | src/main/java/com/arda/bctransform/JarTransformer.java:39-52 | transformed ≤ scanned ≤ number of entries, no methods counted or recorded |
| JarTransformer.RewriteStep | src/main/java/com/arda/bctransform/JarTransformer.java:72-121 | a skipped entry changes nothing; a kept one adds its name, its rewriting and its report |
| JarTransformer.DryRunStep | src/main/java/com/arda/bctransform/JarTransformer.java:40-50 | each dry-run step adds the entry's dry report |
| JarTransformer.OutputsAt | src/main/java/com/arda/bctransform/JarTransformer.java:69-125 | output k is the rewriting of kept entry k |
| JarTransformer.RunReportAppend | src/main/java/com/arda/bctransform/JarTransformer.java:111-115 | run totals over two runs of entries are the sums, and the records are concatenated in entry order |
| JarTransformer.RunWithinDryRun | src/main/java/com/arda/bctransform/JarTransformer.java:39-115 | over the same entries, the run scans what the dry run scans and transforms no more classes |
| JarTransformer.DryRunOfWritten | src/main/java/com/arda/bctransform/JarTransformer.java:39-81 | the dry run over the kept entries counts no more than over all entries |
| JarTransformer.DryRunBoundsRun | src/main/java/com/arda/bctransform/JarTransformer.java:39-125 | the real run's scanned and transformed counters never exceed the dry run's on the same jar |
| JarTransformer.FeaturesOffCopiesAll | src/main/java/com/arda/bctransform/JarTransformer.java:93-121 | with neither feature on, every kept entry is copied unchanged |
| JarTransformer.FeaturesOffTransformsNothing | src/main/java/com/arda/bctransform/JarTransformer.java:93-100 | with neither feature on, no class is transformed and no method recorded |
| JarTransformer.RewriteOutput | src/main/java/com/arda/bctransform/JarTransformer.java:66-125 | output names are distinct, none is the manifest when the jar has one, and each is the rewriting of the kept entry at its place |
| JarTransformer.TransformClassBytes | src/main/java/com/arda/bctransform/JarTransformer.java:155-171 | the class's report is added to the given report and the writer receives every method's patches |
| JarTransformer.CountScanned | src/main/java/com/arda/bctransform/JarTransformer.java:92 | adds one scanned class and nothing else |
| JarTransformer.CountTransformed | src/main/java/com/arda/bctransform/JarTransformer.java:49 | adds one transformed class and nothing else |
| JarTransformer.AddClassTotals | src/main/java/com/arda/bctransform/JarTransformer.java:111-115 | adds the class's transformed counters and appends its records, but not its scanned counter |
| JarTransformer.InstrumentOnOwnReport | src/main/java/com/arda/bctransform/JarTransformer.java:101-110 | the fresh class report ends as the class's ClassReport, and the written bytes carry its patches |
| JarTransformer.InstrumentEntry | src/main/java/com/arda/bctransform/JarTransformer.java:101-115 | the run's report gains exactly the class's report |
| JarTransformer.CopyEntry | src/main/java/com/arda/bctransform/JarTransformer.java:87-121 | writes Rewritten(e) and adds EntryReport(e) to the run's report |
| JarTransformer.RewriteEntries | src/main/java/com/arda/bctransform/JarTransformer.java:58-125 | the loop writes Outputs of the kept entries and leaves RunReport of them in the report |
| JarTransformer.DryRunEntries | src/main/java/com/arda/bctransform/JarTransformer.java:39-52 | the dry-run loop leaves DryRunReport of all entries, duplicates included |
| JarTransformer.DryCountEntry | src/main/java/com/arda/bctransform/JarTransformer.java:42-49 | one dry-run step adds the entry's dry report |
| JarTransformer.TransformJar | src/main/java/com/arda/bctransform/JarTransformer.java:21-130 | dry run: nothing written and DryRunReport; otherwise the output jar keeps the manifest and holds Outputs of the kept entries, and the report is RunReport |
| Cli.WithOptionDefaults | src/main/java/com/arda/bctransform/Main.java:92-104 | after parsing, logger and prefix are always set, to the given values when given |
| Cli.Initial | src/main/java/com/arda/bctransform/Main.java:113-114 | without -c the starting settings are the defaults |
| Cli.ApplyOverrides | src/main/java/com/arda/bctransform/Main.java:116-135 | the overrides leave exactly Merged(file settings, options) |
| Cli.OverrideClassFilters | src/main/java/com/arda/bctransform/Main.java:116-120 | a given include pattern replaces the file's; the exclude list only when given non-empty |
| Cli.OverrideMethodFilters | src/main/java/com/arda/bctransform/Main.java:121-127 | the same for the method patterns, and a given annotation replaces the file's |
| Cli.OverrideFeatures | src/main/java/com/arda/bctransform/Main.java:129-132 | features become file-or-flag; a given logger or prefix replaces the file's |
| Cli.MergedIdempotent | src/main/java/com/arda/bctransform/Main.java:116-135 | applying the same command line twice changes nothing more |
| Cli.FeaturesOnlyTurnOn | src/main/java/com/arda/bctransform/Main.java:129-130 | a feature the file turns on stays on; a feature is on only if the file or the flag turns it on |
| Cli.CommandLineWins | src/main/java/com/arda/bctransform/Main.java:116-135 | dry run and report path, and every option stated on the command line, do not depend on the file |
| Cli.SilentCommandLineKeepsFile | src/main/java/com/arda/bctransform/Main.java:92-135 | a command line stating no filter, annotation or feature (empty lists included) keeps every file setting except the dry run, the report path, and the logger and prefix, which are the given ones or "stdout" and "[BC]" |
| Cli.LoggerNeverFromFile | src/main/java/com/arda/bctransform/Main.java:92-104 | because the parser fills their defaults, logger and prefix never come from the file: "stdout" and "[BC]" unless given |
| Cli.Summary | src/main/java/com/arda/bctransform/Main.java:139-140 | two lines, "Transformed classes: " and "Transformed methods: " followed by the decimal counters |
| Cli.Call | src/main/java/com/arda/bctransform/Main.java:92-142 | returns 0; runs the jar with the file's or the default settings merged with the options, the logger and prefix defaults filled in; the report file is written iff a report path is given; prints the summary of the report |
| LegacyEntryLogging.EntryMessage | EntryLoggingClassVisitor.java:63-64 | the message starts "[BC] ", has the dotted class name at position 5, and ends "." + name + descriptor |
| LegacyEntryLogging.EntryLogPatches | EntryLoggingClassVisitor.java:29-76 | one patch list per method |
| LegacyEntryLogging.EntryLogPatchesAt | EntryLoggingClassVisitor.java:29-76 | patch list j belongs to method j |
| LegacyEntryLogging.EntryLogPatchesShape | EntryLoggingClassVisitor.java:45-74 | a wrapped method gets exactly one stack-neutral entry patch loading its message; abstract, native, `<init>` and `<clinit>` get none |
| LegacyEntryLogging.EntryLoggingClassVisitor.constructor | EntryLoggingClassVisitor.java:12-14 | no class name yet |
| LegacyEntryLogging.EntryLoggingClassVisitor.Visit | EntryLoggingClassVisitor.java:16-27 | keeps the class's internal name |
| LegacyEntryLogging.EntryLoggingClassVisitor.VisitMethod | EntryLoggingClassVisitor.java:29-76 | skipped methods get nothing; every other one the println of its entry message |
| LegacyEntryLogging.InstrumentClass | JarTransformer.java:114-119 | the reader's visit and visitMethod calls yield EntryLogPatches of the class |
| LegacyJar.LegacyConfig.constructor | JarTransformer.java:13-24 | logging and dry run off, no include prefix, the five platform exclude prefixes |
| LegacyJar.ComputeShouldTransform | JarTransformer.java:92-107 | the early-return loop is ShouldTransform: include prefix, exclude prefixes ('.' read as '/'), module/package descriptors, then injectEntryLog |
| LegacyJar.PlatformClassesSkipped | JarTransformer.java:21-23 | while the default excludes lead the exclude list (as every command line leaves them), no java/, javax/, jdk/, sun/ or kotlin/ class is ever transformed, whatever else is excluded |
| LegacyJar.NoPatches | JarTransformer.java:113 | without the logging visitor every method receives nothing |
| LegacyJar.LegacyRewritten | JarTransformer.java:72-81 | an entry keeps its name and kind, and is copied unless it is transformed |
| LegacyJar.LegacyOutputs | JarTransformer.java:56-85 | one output per kept entry |
| LegacyJar.TransformedCount | JarTransformer.java:31-89 | the count never exceeds the number of entries |
| LegacyJar.LegacyCopies | JarTransformer.java:78-81 | every entry not transformed is written unchanged |
| LegacyJar.NoLogNoChange | JarTransformer.java:106 | without entry logging the count is 0 and every kept entry is copied unchanged |
| LegacyJar.RunCountWithinDryCount | JarTransformer.java:36-89 | the real run never counts more classes than the dry run |
| LegacyJar.RunCountIsDryCount | JarTransformer.java:36-89 | with distinct names, manifest or not, both runs count the same classes |
| LegacyJar.TransformClassBytes | JarTransformer.java:109-121 | the writer receives the entry-logging patches when logging is on, and no patches otherwise |
| LegacyJar.LegacyCopyEntry | JarTransformer.java:72-82 | writes LegacyRewritten(e), and reports a transformation iff the entry is transformed |
| LegacyJar.LegacyTransformJar | JarTransformer.java:26-90 | dry run: nothing written, count over all entries; otherwise the manifest is kept, the kept entries rewritten, and the count over them |
| LegacyJar.DryCount | JarTransformer.java:36-45 | counts the class entries passing shouldTransform, duplicates included |
| LegacyJar.LegacyRewriteEntries | JarTransformer.java:49-86 | the loop writes LegacyOutputs of the kept entries and counts the transformed ones |
| LegacyMain.ParseFrom | Main.java:32-51 | the option loop never yields the usage error, and a run keeps the first two arguments as paths |
| LegacyMain.Parse | Main.java:22-51 | usage with exit code 2 iff fewer than two arguments; a run keeps the two paths |
| LegacyMain.Tokens | Main.java:32-51 | the options the loop takes from a position on, never more than the arguments left |
| LegacyMain.StopAt | Main.java:32-51 | the first argument the loop does not take lies in range; if it takes a value, it is the last argument |
| LegacyMain.ValuesOf | Main.java:34-42 | the values given to one option, each of them a token of that option |
| LegacyMain.SettledStep | Main.java:32-51 | taking one option and then the rest settles like taking all of them at once |
| LegacyMain.ParseFromMeaning | Main.java:32-51 | reaching the end: a run whose flags are on iff their switch is among the options, whose include prefix is the last given, and whose excludes gain every given one in order; stopping early: "<opt> needs value" for a value option without a value, Help for --help or -h, "Unknown arg: <a>" otherwise |
| LegacyMain.ParseMeaning | Main.java:22-51 | the same for the whole command line, starting from no flags, no include prefix and the default excludes |
| LegacyMain.ParseFromExtends | Main.java:32-51 | exclude prefixes are only appended, and the --log and --dry-run flags never turn off |
| LegacyMain.DefaultExcludesKept | Main.java:39-42 | the default exclude prefixes survive any command line |
| LegacyMain.LogOnlyWhenAsked | Main.java:43 | entry logging is on only if "--log" is among the options |
| LegacyMain.WithoutLogNothingChanges | Main.java:32-53 | a command line with no --log among its options (the two paths may be anything) transforms nothing and copies every kept entry |
| LegacyMain.UsageExample | Main.java:18 | the usage example parses to logging on, include prefix com/myapp/, default excludes |
| LegacyMain.DoneLine | Main.java:54 | the line is "Done. Transformed classes: ", then exactly the count's decimal text, then " (dry-run)" iff it was a dry run |
| LegacyMain.ParseArguments | Main.java:22-51 | the index loop mutating a Config yields Parse(args), and on a run the Config holds the parsed settings |
| LegacyMain.Execute | Main.java:22-55 | no run, no output; a run transforms the jar with the parsed settings and prints DoneLine of the count |

## Left out

- ASM's ClassReader and ClassWriter are foreign code, so they are not modelled. This covers class parsing, serialisation and COMPUTE_FRAMES / EXPAND_FRAMES stack-map recomputation. The model receives the parsed class as `ClassReading` and the writer as `ClassWriting`.
- AdviceAdapter internals are library code, so they are not modelled:
  - How AdviceAdapter finds the return and ATHROW instructions: the exit opcodes of a method are given in order.
  - Where `newLocal` starts: the first free slot is given, and each long local takes the next two slots.
  - The local-variable sorter: the number of slots it hands the method's own locals before each exit is given with the exit. The renumbering of their load and store instructions is not modelled.
- `java.util.regex` semantics and `Pattern.compile` failures are not modelled. Matching is the parameter `finds`, and a pattern that does not compile has no counterpart.
- Zip streaming is left out:
  - entry timestamps (`setTime`);
  - `Files.createDirectories`;
  - the paths of the input and output jars;
  - I/O failures.
- ReportWriter's JSON serialisation is left out: `Cli.ReportFile` carries the path and the report value that would be serialised.
- picocli's parsing of the new command line is not modelled. Its result is the `Options` value, with `WithOptionDefaults` for the two declared defaults.
- snakeyaml's parsing is not modelled. The loader starts from a `Document`; floats, dates and nested maps are `Other` with their `toString` text.
- The runtime behaviour of the injected code is not modelled: clock values, logger lookup and printing. Only the instructions, their message texts and their operand-stack effect are.
- `System.exit` is not modelled; legacy main's usage text and exceptions are the `Outcome` value; output is modelled only for the printed summary lines.
- The no-argument `TransformedMethod` constructor is left out; it exists only for JSON deserialisation.
- `equalsIgnoreCase` (manifest name, logger, `parseBoolean`) folds ASCII letters only. The compared constants are ASCII, but non-ASCII case folding of the other side is not modelled.
- Report counters are unbounded integers; Java's 32-bit `int` overflow of the counters is not modelled.
- Instrument.AcceptMethods: the class reader's method loop is recursion over the method list, not a loop with a field.
- ConfigLoader.Load: the field-by-field assignments into the fresh Config are one `Assign` of the settings the nine reads produce.
