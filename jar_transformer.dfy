/** JarTransformer: which classes of a jar are instrumented, the dry run
    that only counts them, and the rewrite loop that copies the jar entry by
    entry, instrumenting eligible classes and summing their reports. */
module JarTransformer {
  import opened Common
  import opened Report
  import opened Configuration
  import opened Archive
  import opened Instrument

  /** The class reader: the class a class file's bytes hold. */
  type ClassReading = seq<bv8> -> ClassInfo

  /** The class writer: the bytes of the class read from the given bytes,
      with the patches each of its methods received, in method order. */
  type ClassWriting = (seq<bv8>, seq<seq<Patch>>) -> seq<bv8>

  /** The entry name with one trailing `.class` removed. */
  function ClassName(entryName: string): (r: string)
    ensures EndsWith(entryName, ".class") ==> r + ".class" == entryName
    ensures !EndsWith(entryName, ".class") ==> r == entryName
  {
    if EndsWith(entryName, ".class") then entryName[..|entryName| - 6] else entryName
  }

  /** eligibleClass: not a module or package descriptor, the include
      pattern (when set) found in the dotted class name, and no exclude
      pattern found there. */
  predicate EligibleClass(entryName: string, includeClass: Option<string>, excludes: seq<string>, finds: Finder)
  {
    var name := ClassName(entryName);
    && !EndsWith(name, "module-info") && !EndsWith(name, "package-info")
    && (includeClass.Some? ==> finds(includeClass.value, Dotted(name)))
    && (forall i :: 0 <= i < |excludes| ==> !finds(excludes[i], Dotted(name)))
  }

  /** eligibleClass, with its early returns and its loop over the exclude
      patterns. */
  method ComputeEligibleClass(entryName: string, includeClass: Option<string>, cfg: Config, finds: Finder)
    returns (e: bool)
    ensures e == EligibleClass(entryName, includeClass, cfg.excludeClassRegex, finds)
  {
    var name := if EndsWith(entryName, ".class") then entryName[..|entryName| - 6] else entryName;
    if EndsWith(name, "module-info") || EndsWith(name, "package-info") {
      return false;
    }
    var dotted := Dotted(name);
    if includeClass.Some? && !finds(includeClass.value, dotted) {
      return false;
    }
    var i := 0;
    while i < |cfg.excludeClassRegex|
      invariant 0 <= i <= |cfg.excludeClassRegex|
      invariant forall j :: 0 <= j < i ==> !finds(cfg.excludeClassRegex[j], dotted)
    {
      if finds(cfg.excludeClassRegex[i], dotted) {
        return false;
      }
      i := i + 1;
    }
    return true;
  }

  /** Whether the dry run counts the entry as a class it would transform. */
  predicate DryEligible(s: Settings, finds: Finder, e: Entry)
  {
    IsClassEntry(e) && EligibleClass(e.name, s.includeClassRegex, s.excludeClassRegex, finds)
  }

  /** Whether the rewrite loop instruments the entry: an eligible class,
      with at least one feature on. */
  predicate Transforms(s: Settings, finds: Finder, e: Entry)
  {
    DryEligible(s, finds, e) && (s.entryLog || s.timing)
  }

  /** The entry the rewrite loop writes for `e`: the same name, with the
      instrumented class's bytes when it transforms `e`, and `e` byte for
      byte otherwise. */
  function Rewritten(s: Settings, finds: Finder, read: ClassReading, write: ClassWriting, e: Entry): (r: Entry)
    ensures r.name == e.name && r.isDirectory == e.isDirectory
    ensures !Transforms(s, finds, e) ==> r == e
  {
    if Transforms(s, finds, e) then
      var c := read(e.data);
      e.(data := write(e.data, ClassPatches(s, s.includeMethodRegex, finds, c.name, c.methods)))
    else e
  }

  /** What one written entry adds to the run's report: a scanned class
      for every class entry, and the class's own report when it is
      instrumented. */
  function EntryReport(s: Settings, finds: Finder, read: ClassReading, e: Entry): (r: ReportValue)
    ensures r.scannedClasses == (if IsClassEntry(e) then 1 else 0)
    ensures r.transformedMethods == |r.methods|
    ensures 0 <= r.transformedClasses <= r.scannedClasses
    ensures !Transforms(s, finds, e) ==> r.transformedClasses == 0 && |r.methods| == 0
  {
    if !IsClassEntry(e) then EmptyReport
    else if Transforms(s, finds, e) then
      AddReport(ReportValue(1, 0, 0, []), ClassReport(s, s.includeMethodRegex, finds, read(e.data)))
    else ReportValue(1, 0, 0, [])
  }

  /** The entries written for the entries `ws` the loop keeps, in order. */
  function Outputs(s: Settings, finds: Finder, read: ClassReading, write: ClassWriting, ws: seq<Entry>): (r: seq<Entry>)
    ensures |r| == |ws|
  {
    if ws == [] then []
    else Outputs(s, finds, read, write, ws[..|ws| - 1]) + [Rewritten(s, finds, read, write, ws[|ws| - 1])]
  }

  /** The run's report over the entries `ws` the loop keeps: the sum of
      their entry reports, in order. */
  function RunReport(s: Settings, finds: Finder, read: ClassReading, ws: seq<Entry>): (r: ReportValue)
    ensures r.transformedMethods == |r.methods|
    ensures 0 <= r.transformedClasses <= r.scannedClasses <= |ws|
  {
    if ws == [] then EmptyReport
    else AddReport(RunReport(s, finds, read, ws[..|ws| - 1]), EntryReport(s, finds, read, ws[|ws| - 1]))
  }

  /** What one entry adds to the dry run's report: a scanned class for a
      class entry, transformed when eligible. */
  function DryEntryReport(s: Settings, finds: Finder, e: Entry): (r: ReportValue)
    ensures r.scannedClasses == (if IsClassEntry(e) then 1 else 0)
    ensures r.transformedClasses == (if DryEligible(s, finds, e) then 1 else 0)
    ensures r.transformedMethods == 0 && |r.methods| == 0
  {
    if IsClassEntry(e) then ReportValue(1, if DryEligible(s, finds, e) then 1 else 0, 0, []) else EmptyReport
  }

  /** The dry run's report over all entries, duplicates included: the sum
      of their entry reports. */
  function DryRunReport(s: Settings, finds: Finder, entries: seq<Entry>): (r: ReportValue)
    ensures 0 <= r.transformedClasses <= r.scannedClasses <= |entries|
    ensures r.transformedMethods == 0 && |r.methods| == 0
  {
    if entries == [] then EmptyReport
    else
      var front := DryRunReport(s, finds, entries[..|entries| - 1]);
      var d := DryEntryReport(s, finds, entries[|entries| - 1]);
      ReportValue(front.scannedClasses + d.scannedClasses, front.transformedClasses + d.transformedClasses, 0, [])
  }

  lemma OutputsSnoc(s: Settings, finds: Finder, read: ClassReading, write: ClassWriting, ws: seq<Entry>, e: Entry)
    ensures Outputs(s, finds, read, write, ws + [e]) == Outputs(s, finds, read, write, ws) + [Rewritten(s, finds, read, write, e)]
  {
    assert (ws + [e])[..|ws|] == ws;
  }

  /** The rewrite loop's step: an entry it skips changes nothing, and an
      entry it keeps adds its name, its rewriting and its report. */
  lemma RewriteStep(s: Settings, finds: Finder, read: ClassReading, write: ClassWriting,
                    entries: seq<Entry>, hasManifest: bool, i: nat)
    requires i < |entries|
    ensures var e := entries[i];
            var w := Written(entries[..i], hasManifest);
            var w' := Written(entries[..i + 1], hasManifest);
            if SkippedAsManifest(hasManifest, e.name) || e.name in Names(w) then w' == w
            else
              && Names(w') == Names(w) + {e.name}
              && Outputs(s, finds, read, write, w') == Outputs(s, finds, read, write, w) + [Rewritten(s, finds, read, write, e)]
              && RunReport(s, finds, read, w') == AddReport(RunReport(s, finds, read, w), EntryReport(s, finds, read, e))
  {
    WrittenStep(entries, hasManifest, i);
    var e := entries[i];
    var w := Written(entries[..i], hasManifest);
    NamesSnoc(w, e);
    OutputsSnoc(s, finds, read, write, w, e);
    RunReportSnoc(s, finds, read, w, e);
  }

  /** The dry-run loop's step. */
  lemma DryRunStep(s: Settings, finds: Finder, entries: seq<Entry>, i: nat)
    requires i < |entries|
    ensures DryRunReport(s, finds, entries[..i + 1]) == AddReport(DryRunReport(s, finds, entries[..i]), DryEntryReport(s, finds, entries[i]))
  {
    assert entries[..i + 1][..i] == entries[..i];
  }

  lemma RunReportSnoc(s: Settings, finds: Finder, read: ClassReading, ws: seq<Entry>, e: Entry)
    ensures RunReport(s, finds, read, ws + [e]) == AddReport(RunReport(s, finds, read, ws), EntryReport(s, finds, read, e))
  {
    assert (ws + [e])[..|ws|] == ws;
  }

  /** Each written entry is the rewriting of the kept entry at its place. */
  lemma {:induction false} OutputsAt(s: Settings, finds: Finder, read: ClassReading, write: ClassWriting, ws: seq<Entry>, k: nat)
    requires k < |ws|
    ensures Outputs(s, finds, read, write, ws)[k] == Rewritten(s, finds, read, write, ws[k])
  {
    if k < |ws| - 1 {
      OutputsAt(s, finds, read, write, ws[..|ws| - 1], k);
    }
  }

  /** The run's totals over two runs of entries are the sums of their
      totals, and its records the first run's followed by the second's. */
  lemma {:induction false} RunReportAppend(s: Settings, finds: Finder, read: ClassReading, a: seq<Entry>, b: seq<Entry>)
    ensures RunReport(s, finds, read, a + b) == AddReport(RunReport(s, finds, read, a), RunReport(s, finds, read, b))
    decreases |b|
  {
    if b == [] {
      assert a + b == a;
      AddEmptyReport(RunReport(s, finds, read, a));
    } else {
      var front := b[..|b| - 1];
      var e := b[|b| - 1];
      assert a + b == (a + front) + [e];
      RunReportAppend(s, finds, read, a, front);
      RunReportSnoc(s, finds, read, a + front, e);
      AddReportAssociative(RunReport(s, finds, read, a), RunReport(s, finds, read, front), EntryReport(s, finds, read, e));
    }
  }

  /** The rewrite loop scans each kept class entry once, as the dry run
      does, and transforms no more classes than the dry run counts. */
  lemma {:induction false} RunWithinDryRun(s: Settings, finds: Finder, read: ClassReading, ws: seq<Entry>)
    ensures RunReport(s, finds, read, ws).scannedClasses == DryRunReport(s, finds, ws).scannedClasses
    ensures RunReport(s, finds, read, ws).transformedClasses <= DryRunReport(s, finds, ws).transformedClasses
  {
    if ws != [] {
      RunWithinDryRun(s, finds, read, ws[..|ws| - 1]);
    }
  }

  /** The dry run over the kept entries counts no more than over all. */
  lemma {:induction false} DryRunOfWritten(s: Settings, finds: Finder, entries: seq<Entry>, hasManifest: bool)
    ensures DryRunReport(s, finds, Written(entries, hasManifest)).scannedClasses <= DryRunReport(s, finds, entries).scannedClasses
    ensures DryRunReport(s, finds, Written(entries, hasManifest)).transformedClasses <= DryRunReport(s, finds, entries).transformedClasses
  {
    if entries != [] {
      var front := entries[..|entries| - 1];
      DryRunOfWritten(s, finds, front, hasManifest);
      var w := Written(front, hasManifest);
      var e := entries[|entries| - 1];
      assert (w + [e])[..|w|] == w;
    }
  }

  /** A dry run scans at least the classes the real run scans and counts
      at least the classes the real run transforms: it counts every
      duplicate too, and counts eligible classes even when no feature is
      on. */
  lemma DryRunBoundsRun(s: Settings, finds: Finder, read: ClassReading, jar: Jar)
    ensures var run := RunReport(s, finds, read, Written(jar.entries, jar.manifest.Some?));
            var dry := DryRunReport(s, finds, jar.entries);
            run.scannedClasses <= dry.scannedClasses && run.transformedClasses <= dry.transformedClasses
  {
    RunWithinDryRun(s, finds, read, Written(jar.entries, jar.manifest.Some?));
    DryRunOfWritten(s, finds, jar.entries, jar.manifest.Some?);
  }

  /** With neither feature on, the rewrite copies every kept entry byte for
      byte. */
  lemma FeaturesOffCopiesAll(s: Settings, finds: Finder, read: ClassReading, write: ClassWriting, ws: seq<Entry>)
    requires !s.entryLog && !s.timing
    ensures Outputs(s, finds, read, write, ws) == ws
  {
    forall k | 0 <= k < |ws|
      ensures Outputs(s, finds, read, write, ws)[k] == ws[k]
    {
      OutputsAt(s, finds, read, write, ws, k);
    }
  }

  /** With neither feature on, the run transforms no class and records no
      method. */
  lemma {:induction false} FeaturesOffTransformsNothing(s: Settings, finds: Finder, read: ClassReading, ws: seq<Entry>)
    requires !s.entryLog && !s.timing
    ensures RunReport(s, finds, read, ws).transformedClasses == 0
    ensures |RunReport(s, finds, read, ws).methods| == 0
  {
    if ws != [] {
      FeaturesOffTransformsNothing(s, finds, read, ws[..|ws| - 1]);
    }
  }

  /** The output of the rewrite: no two entries share a name, none is the
      manifest when the jar has one, and each is the rewriting of the first
      input entry of its name, in input order. */
  lemma RewriteOutput(s: Settings, finds: Finder, read: ClassReading, write: ClassWriting, jar: Jar)
    ensures var ws := Written(jar.entries, jar.manifest.Some?);
            var out := Outputs(s, finds, read, write, ws);
            && DistinctNames(out)
            && (forall k :: 0 <= k < |out| ==> !SkippedAsManifest(jar.manifest.Some?, out[k].name))
            && (forall k :: 0 <= k < |out| ==> out[k] == Rewritten(s, finds, read, write, ws[k]))
  {
    var ws := Written(jar.entries, jar.manifest.Some?);
    var out := Outputs(s, finds, read, write, ws);
    WrittenDistinct(jar.entries, jar.manifest.Some?);
    WrittenFromInput(jar.entries, jar.manifest.Some?);
    forall k | 0 <= k < |out|
      ensures out[k] == Rewritten(s, finds, read, write, ws[k])
    {
      OutputsAt(s, finds, read, write, ws, k);
    }
  }

  /** transformClassBytes, with the class reader and writer as parameters:
      the class's report is added to `rep`, and the written bytes are the
      class with every method's patches. */
  method TransformClassBytes(bytes: seq<bv8>, cfg: Config, includeMethod: Option<string>, finds: Finder,
                             read: ClassReading, write: ClassWriting, rep: TransformReport)
    returns (out: seq<bv8>)
    modifies rep
    ensures rep.Value() == AddReport(old(rep.Value()), ClassReport(cfg.Value(), includeMethod, finds, read(bytes)))
    ensures var c := read(bytes);
            out == write(bytes, ClassPatches(cfg.Value(), includeMethod, finds, c.name, c.methods))
  {
    var info := read(bytes);
    var patches := TransformClass(info, cfg, includeMethod, finds, rep);
    out := write(bytes, patches);
  }

  /** `rep.scannedClasses++`. */
  method CountScanned(rep: TransformReport)
    modifies rep
    ensures rep.Value() == AddReport(old(rep.Value()), ReportValue(1, 0, 0, []))
  {
    rep.scannedClasses := rep.scannedClasses + 1;
  }

  /** `rep.transformedClasses++`. */
  method CountTransformed(rep: TransformReport)
    modifies rep
    ensures rep.Value() == AddReport(old(rep.Value()), ReportValue(0, 1, 0, []))
  {
    rep.transformedClasses := rep.transformedClasses + 1;
  }

  /** Adds a class's transformed-class and transformed-method counters to
      the run's, and appends its records; its scanned counter is not added. */
  method AddClassTotals(rep: TransformReport, classRep: TransformReport)
    requires rep != classRep
    modifies rep
    ensures rep.Value() == AddReport(old(rep.Value()), classRep.Value().(scannedClasses := 0))
  {
    rep.transformedClasses := rep.transformedClasses + classRep.transformedClasses;
    rep.transformedMethods := rep.transformedMethods + classRep.transformedMethods;
    rep.methods := rep.methods + classRep.methods;
  }

  /** Instruments one class on a report of its own. */
  method InstrumentOnOwnReport(bytes: seq<bv8>, cfg: Config, finds: Finder, read: ClassReading, write: ClassWriting)
    returns (data: seq<bv8>, classRep: TransformReport)
    ensures fresh(classRep)
    ensures classRep.Value().(scannedClasses := 0) == ClassReport(cfg.Value(), cfg.includeMethodRegex, finds, read(bytes))
    ensures var c := read(bytes);
            data == write(bytes, ClassPatches(cfg.Value(), cfg.includeMethodRegex, finds, c.name, c.methods))
  {
    ghost var s := cfg.Value();
    ghost var c := read(bytes);
    ghost var cr := ClassReport(s, s.includeMethodRegex, finds, c);
    classRep := new TransformReport();
    data := TransformClassBytes(bytes, cfg, cfg.includeMethodRegex, finds, read, write, classRep);
    assert cfg.Value() == s && read(bytes) == c;
    assert classRep.Value() == AddReport(EmptyReport, cr);
    assert EmptyReport.methods + cr.methods == cr.methods;
  }

  /** Instruments one class entry on a report of its own, then adds that
      report's totals to the run's. */
  method InstrumentEntry(e: Entry, cfg: Config, finds: Finder, read: ClassReading, write: ClassWriting,
                         rep: TransformReport) returns (data: seq<bv8>)
    modifies rep
    ensures rep.Value() == AddReport(old(rep.Value()), ClassReport(cfg.Value(), cfg.includeMethodRegex, finds, read(e.data)))
    ensures var c := read(e.data);
            data == write(e.data, ClassPatches(cfg.Value(), cfg.includeMethodRegex, finds, c.name, c.methods))
  {
    var classRep;
    data, classRep := InstrumentOnOwnReport(e.data, cfg, finds, read, write);
    AddClassTotals(rep, classRep);
  }

  /** The body of the rewrite loop for an entry it keeps: a class entry is
      scanned, and instrumented when eligible and some feature is on, its
      class report added to the run's; any other entry is copied. */
  method CopyEntry(e: Entry, cfg: Config, finds: Finder, read: ClassReading, write: ClassWriting,
                   rep: TransformReport) returns (out: Entry)
    modifies rep
    ensures out == Rewritten(cfg.Value(), finds, read, write, e)
    ensures rep.Value() == AddReport(old(rep.Value()), EntryReport(cfg.Value(), finds, read, e))
  {
    out := e;
    if !e.isDirectory && EndsWith(e.name, ".class") {
      CountScanned(rep);
      var eligible := ComputeEligibleClass(e.name, cfg.includeClassRegex, cfg, finds);
      if eligible && (cfg.entryLog || cfg.timing) {
        ghost var scanned := rep.Value();
        var data := InstrumentEntry(e, cfg, finds, read, write, rep);
        out := e.(data := data);
        AddReportAssociative(old(rep.Value()), ReportValue(1, 0, 0, []),
                             ClassReport(cfg.Value(), cfg.includeMethodRegex, finds, read(e.data)));
      }
    } else {
      AddEmptyReport(rep.Value());
    }
  }

  /** The rewrite loop, on the fresh report of the run: skips the manifest
      when the jar has one and every name already written, and copies or
      instruments the rest in order. */
  method RewriteEntries(jar: Jar, cfg: Config, finds: Finder, read: ClassReading, write: ClassWriting,
                        rep: TransformReport) returns (out: seq<Entry>)
    requires rep.Value() == EmptyReport
    modifies rep
    ensures out == Outputs(cfg.Value(), finds, read, write, Written(jar.entries, jar.manifest.Some?))
    ensures rep.Value() == RunReport(cfg.Value(), finds, read, Written(jar.entries, jar.manifest.Some?))
  {
    var hasManifest := jar.manifest.Some?;
    ghost var s := cfg.Value();
    var written: set<string> := {};
    out := [];
    var i := 0;
    while i < |jar.entries|
      invariant 0 <= i <= |jar.entries|
      invariant written == Names(Written(jar.entries[..i], hasManifest))
      invariant out == Outputs(s, finds, read, write, Written(jar.entries[..i], hasManifest))
      invariant rep.Value() == RunReport(s, finds, read, Written(jar.entries[..i], hasManifest))
    {
      var e := jar.entries[i];
      RewriteStep(s, finds, read, write, jar.entries, hasManifest, i);
      if hasManifest && EqualsIgnoreCase(ManifestName, e.name) {
        i := i + 1;
        continue;
      }
      if e.name in written {
        i := i + 1;
        continue;
      }
      written := written + {e.name};
      var o := CopyEntry(e, cfg, finds, read, write, rep);
      assert cfg.Value() == s;
      out := out + [o];
      i := i + 1;
    }
    assert jar.entries[..i] == jar.entries;
  }

  /** The dry-run loop, on the fresh report of the run: every class entry
      of the jar, duplicates included, is scanned, and counted as
      transformed when eligible. */
  method DryRunEntries(jar: Jar, cfg: Config, finds: Finder, rep: TransformReport)
    requires rep.Value() == EmptyReport
    modifies rep
    ensures rep.Value() == DryRunReport(cfg.Value(), finds, jar.entries)
  {
    ghost var s := cfg.Value();
    var i := 0;
    while i < |jar.entries|
      invariant 0 <= i <= |jar.entries|
      invariant rep.Value() == DryRunReport(s, finds, jar.entries[..i])
    {
      DryRunStep(s, finds, jar.entries, i);
      DryCountEntry(jar.entries[i], cfg, finds, rep);
      assert cfg.Value() == s;
      i := i + 1;
    }
    assert jar.entries[..i] == jar.entries;
  }

  /** The body of the dry-run loop: a class entry is scanned, and counted
      as transformed when eligible. */
  method DryCountEntry(e: Entry, cfg: Config, finds: Finder, rep: TransformReport)
    modifies rep
    ensures rep.Value() == AddReport(old(rep.Value()), DryEntryReport(cfg.Value(), finds, e))
  {
    if e.isDirectory || !EndsWith(e.name, ".class") {
      AddEmptyReport(rep.Value());
      return;
    }
    CountScanned(rep);
    var eligible := ComputeEligibleClass(e.name, cfg.includeClassRegex, cfg, finds);
    if eligible {
      CountTransformed(rep);
    }
  }

  /** transformJar: a fresh report; a dry run fills it from every entry and
      writes nothing; otherwise the output jar carries the input's manifest
      and the rewritten entries, and the report their totals. */
  method TransformJar(jar: Jar, cfg: Config, finds: Finder, read: ClassReading, write: ClassWriting)
    returns (rep: TransformReport, output: Option<Jar>)
    ensures fresh(rep)
    ensures cfg.dryRun ==> output.None? && rep.Value() == DryRunReport(cfg.Value(), finds, jar.entries)
    ensures !cfg.dryRun ==>
              && output == Some(Jar(jar.manifest, Outputs(cfg.Value(), finds, read, write, Written(jar.entries, jar.manifest.Some?))))
              && rep.Value() == RunReport(cfg.Value(), finds, read, Written(jar.entries, jar.manifest.Some?))
  {
    rep := new TransformReport();
    if cfg.dryRun {
      DryRunEntries(jar, cfg, finds, rep);
      return rep, None;
    }
    var entries := RewriteEntries(jar, cfg, finds, read, write, rep);
    output := Some(Jar(jar.manifest, entries));
  }
}
