/** The earlier JarTransformer: classes are chosen by internal-name
    prefixes, entry logging is the only transformation, and the run returns
    the number of classes it transformed. */
module LegacyJar {
  import opened Common
  import opened Archive
  import opened Instrument
  import opened LegacyEntryLogging
  import JarTransformer

  /** The contents of a legacy Config at one moment. */
  datatype LegacySettings = LegacySettings(injectEntryLog: bool, dryRun: bool, includePrefix: Option<string>,
                                           excludePrefixes: seq<string>)

  /** The platform and language runtime packages skipped by default. */
  const DefaultExcludes: seq<string> := ["java/", "javax/", "jdk/", "sun/", "kotlin/"]

  /** Logging off, no dry run, every class included, the platform skipped. */
  const LegacyDefaults: LegacySettings := LegacySettings(false, false, None, DefaultExcludes)

  class LegacyConfig {
    var injectEntryLog: bool
    var dryRun: bool
    var includePrefix: Option<string>
    var excludePrefixes: seq<string>

    /** A new Config holds the defaults. */
    constructor ()
      ensures Value() == LegacyDefaults
    {
      injectEntryLog := false;
      dryRun := false;
      includePrefix := None;
      excludePrefixes := ["java/", "javax/", "jdk/", "sun/", "kotlin/"];
    }

    /** The settings the fields hold now. */
    function Value(): LegacySettings
      reads this
    {
      LegacySettings(injectEntryLog, dryRun, includePrefix, excludePrefixes)
    }
  }

  /** shouldTransform: with one trailing `.class` removed, the name starts
      with the include prefix (when set), with no exclude prefix, is not a
      module or package descriptor, and entry logging is on. Prefixes may
      be written with dots. */
  predicate ShouldTransform(entryName: string, s: LegacySettings)
  {
    var internal := JarTransformer.ClassName(entryName);
    && (s.includePrefix.Some? ==> StartsWith(internal, Slashed(s.includePrefix.value)))
    && (forall i :: 0 <= i < |s.excludePrefixes| ==> !StartsWith(internal, Slashed(s.excludePrefixes[i])))
    && !EndsWith(internal, "module-info") && !EndsWith(internal, "package-info")
    && s.injectEntryLog
  }

  /** shouldTransform, with its early returns and its loop over the
      exclude prefixes. */
  method ComputeShouldTransform(entryName: string, cfg: LegacyConfig) returns (r: bool)
    ensures r == ShouldTransform(entryName, cfg.Value())
  {
    var internal := entryName;
    if EndsWith(internal, ".class") {
      internal := internal[..|internal| - |".class"|];
    }
    if cfg.includePrefix.Some? && !StartsWith(internal, Slashed(cfg.includePrefix.value)) {
      return false;
    }
    var i := 0;
    while i < |cfg.excludePrefixes|
      invariant 0 <= i <= |cfg.excludePrefixes|
      invariant forall j :: 0 <= j < i ==> !StartsWith(internal, Slashed(cfg.excludePrefixes[j]))
    {
      if StartsWith(internal, Slashed(cfg.excludePrefixes[i])) {
        return false;
      }
      i := i + 1;
    }
    if EndsWith(internal, "module-info") || EndsWith(internal, "package-info") {
      return false;
    }
    return cfg.injectEntryLog;
  }

  /** While the default prefixes lead the exclude list, as every command
      line leaves them, no class of the platform or the Kotlin runtime is
      transformed, whatever else is excluded or set. */
  lemma PlatformClassesSkipped(s: LegacySettings, internal: string, k: nat)
    requires DefaultExcludes <= s.excludePrefixes
    requires k < |DefaultExcludes| && StartsWith(internal, DefaultExcludes[k])
    ensures !ShouldTransform(internal + ".class", s)
  {
    var name := internal + ".class";
    assert name[..|name| - 6] == internal;
    var p := DefaultExcludes[k];
    assert Slashed(p) == p by {
      assert forall c :: 0 <= c < |p| ==> p[c] != '.';
    }
    assert s.excludePrefixes[k] == p;
  }

  /** Whether the rewrite loop instruments the entry. */
  predicate LegacyTransforms(s: LegacySettings, e: Entry)
  {
    IsClassEntry(e) && ShouldTransform(e.name, s)
  }

  /** The patches of a class whose writer sees no instrumenting visitor. */
  function NoPatches(n: nat): (r: seq<seq<Patch>>)
    ensures |r| == n && forall j :: 0 <= j < n ==> r[j] == []
  {
    seq(n, j => [])
  }

  /** The entry the rewrite loop writes for `e`: the same name, with the
      class rewritten with entry logging when it transforms `e`, and `e`
      byte for byte otherwise. */
  function LegacyRewritten(s: LegacySettings, read: JarTransformer.ClassReading, write: JarTransformer.ClassWriting,
                           e: Entry): (r: Entry)
    ensures r.name == e.name && r.isDirectory == e.isDirectory
    ensures !LegacyTransforms(s, e) ==> r == e
  {
    if LegacyTransforms(s, e) then
      var c := read(e.data);
      e.(data := write(e.data, EntryLogPatches(c.name, c.methods)))
    else e
  }

  /** The entries written for the entries `ws` the loop keeps, in order. */
  function LegacyOutputs(s: LegacySettings, read: JarTransformer.ClassReading, write: JarTransformer.ClassWriting,
                         ws: seq<Entry>): (r: seq<Entry>)
    ensures |r| == |ws|
  {
    if ws == [] then []
    else LegacyOutputs(s, read, write, ws[..|ws| - 1]) + [LegacyRewritten(s, read, write, ws[|ws| - 1])]
  }

  /** How many of the entries the loop transforms. */
  function TransformedCount(s: LegacySettings, ws: seq<Entry>): (n: nat)
    ensures n <= |ws|
  {
    if ws == [] then 0
    else TransformedCount(s, ws[..|ws| - 1]) + (if LegacyTransforms(s, ws[|ws| - 1]) then 1 else 0)
  }

  lemma LegacyOutputsSnoc(s: LegacySettings, read: JarTransformer.ClassReading, write: JarTransformer.ClassWriting,
                          ws: seq<Entry>, e: Entry)
    ensures LegacyOutputs(s, read, write, ws + [e]) == LegacyOutputs(s, read, write, ws) + [LegacyRewritten(s, read, write, e)]
  {
    assert (ws + [e])[..|ws|] == ws;
  }

  lemma TransformedCountSnoc(s: LegacySettings, ws: seq<Entry>, e: Entry)
    ensures TransformedCount(s, ws + [e]) == TransformedCount(s, ws) + (if LegacyTransforms(s, e) then 1 else 0)
  {
    assert (ws + [e])[..|ws|] == ws;
  }

  /** Each written entry is the rewriting of the kept entry at its place. */
  lemma {:induction false} LegacyOutputsAt(s: LegacySettings, read: JarTransformer.ClassReading,
                                           write: JarTransformer.ClassWriting, ws: seq<Entry>, k: nat)
    requires k < |ws|
    ensures LegacyOutputs(s, read, write, ws)[k] == LegacyRewritten(s, read, write, ws[k])
  {
    if k < |ws| - 1 {
      LegacyOutputsAt(s, read, write, ws[..|ws| - 1], k);
    }
  }

  /** The count is the number of written entries that differ from what was
      read only by being transformed: every other entry is copied as is. */
  lemma LegacyCopies(s: LegacySettings, read: JarTransformer.ClassReading, write: JarTransformer.ClassWriting,
                     ws: seq<Entry>)
    ensures forall k :: 0 <= k < |ws| && !LegacyTransforms(s, ws[k]) ==> LegacyOutputs(s, read, write, ws)[k] == ws[k]
  {
    forall k | 0 <= k < |ws| && !LegacyTransforms(s, ws[k])
      ensures LegacyOutputs(s, read, write, ws)[k] == ws[k]
    {
      LegacyOutputsAt(s, read, write, ws, k);
    }
  }

  /** Without entry logging nothing is transformed: the count is zero and
      every kept entry is copied byte for byte. */
  lemma {:induction false} NoLogNoChange(s: LegacySettings, read: JarTransformer.ClassReading,
                                         write: JarTransformer.ClassWriting, ws: seq<Entry>)
    requires !s.injectEntryLog
    ensures TransformedCount(s, ws) == 0
    ensures LegacyOutputs(s, read, write, ws) == ws
  {
    if ws != [] {
      NoLogNoChange(s, read, write, ws[..|ws| - 1]);
      assert ws[..|ws| - 1] + [ws[|ws| - 1]] == ws;
    }
  }

  /** The real run never counts more classes than the dry run over the
      same jar, which counts duplicates too. */
  lemma {:induction false} RunCountWithinDryCount(s: LegacySettings, entries: seq<Entry>, hasManifest: bool)
    ensures TransformedCount(s, Written(entries, hasManifest)) <= TransformedCount(s, entries)
  {
    if entries != [] {
      var front := entries[..|entries| - 1];
      RunCountWithinDryCount(s, front, hasManifest);
      var w := Written(front, hasManifest);
      var e := entries[|entries| - 1];
      assert (w + [e])[..|w|] == w;
    }
  }

  /** With distinct names the real run and the dry run count the same
      classes: the only other entry the run skips is the manifest, which is
      never a class. */
  lemma {:induction false} RunCountIsDryCount(s: LegacySettings, entries: seq<Entry>, hasManifest: bool)
    requires DistinctNames(entries)
    ensures TransformedCount(s, Written(entries, hasManifest)) == TransformedCount(s, entries)
  {
    if entries != [] {
      var front := entries[..|entries| - 1];
      var e := entries[|entries| - 1];
      assert forall i :: 0 <= i < |front| ==> front[i] == entries[i];
      RunCountIsDryCount(s, front, hasManifest);
      WrittenNamesFromInput(front, hasManifest, e.name);
      var w := Written(front, hasManifest);
      assert front + [e] == entries;
      TransformedCountSnoc(s, front, e);
      if SkippedAsManifest(hasManifest, e.name) {
        ManifestIsNoClass(e);
      } else {
        TransformedCountSnoc(s, w, e);
      }
    }
  }

  /** transformClassBytes: the class rewritten, through the entry-logging
      visitor when logging is on. */
  method TransformClassBytes(bytes: seq<bv8>, cfg: LegacyConfig, read: JarTransformer.ClassReading,
                             write: JarTransformer.ClassWriting) returns (out: seq<bv8>)
    ensures var c := read(bytes);
            out == write(bytes, if cfg.injectEntryLog then EntryLogPatches(c.name, c.methods) else NoPatches(|c.methods|))
  {
    var info := read(bytes);
    var patches := NoPatches(|info.methods|);
    if cfg.injectEntryLog {
      patches := InstrumentClass(info);
    }
    out := write(bytes, patches);
  }

  /** The body of the rewrite loop for an entry it keeps. */
  method LegacyCopyEntry(e: Entry, cfg: LegacyConfig, read: JarTransformer.ClassReading,
                         write: JarTransformer.ClassWriting) returns (out: Entry, transformed: bool)
    ensures out == LegacyRewritten(cfg.Value(), read, write, e)
    ensures transformed == LegacyTransforms(cfg.Value(), e)
  {
    out := e;
    transformed := false;
    if !e.isDirectory && EndsWith(e.name, ".class") {
      transformed := ComputeShouldTransform(e.name, cfg);
      if transformed {
        var data := TransformClassBytes(e.data, cfg, read, write);
        out := e.(data := data);
      }
    }
  }

  /** transformJar: a dry run counts every class entry it would transform,
      duplicates included, and writes nothing; otherwise the output jar
      carries the input's manifest and the kept entries, rewritten, and the
      count is the number of classes transformed. */
  method LegacyTransformJar(jar: Jar, cfg: LegacyConfig, read: JarTransformer.ClassReading,
                            write: JarTransformer.ClassWriting) returns (count: int, output: Option<Jar>)
    ensures cfg.dryRun ==> output.None? && count == TransformedCount(cfg.Value(), jar.entries)
    ensures !cfg.dryRun ==>
              && output == Some(Jar(jar.manifest, LegacyOutputs(cfg.Value(), read, write, Written(jar.entries, jar.manifest.Some?))))
              && count == TransformedCount(cfg.Value(), Written(jar.entries, jar.manifest.Some?))
  {
    if cfg.dryRun {
      count := DryCount(jar, cfg);
      return count, None;
    }
    var entries;
    entries, count := LegacyRewriteEntries(jar, cfg, read, write);
    output := Some(Jar(jar.manifest, entries));
  }

  /** The dry-run loop. */
  method DryCount(jar: Jar, cfg: LegacyConfig) returns (count: int)
    ensures count == TransformedCount(cfg.Value(), jar.entries)
  {
    count := 0;
    var i := 0;
    while i < |jar.entries|
      invariant 0 <= i <= |jar.entries|
      invariant count == TransformedCount(cfg.Value(), jar.entries[..i])
    {
      var e := jar.entries[i];
      assert jar.entries[..i + 1][..i] == jar.entries[..i];
      if e.isDirectory || !EndsWith(e.name, ".class") {
        i := i + 1;
        continue;
      }
      var t := ComputeShouldTransform(e.name, cfg);
      if t {
        count := count + 1;
      }
      i := i + 1;
    }
    assert jar.entries[..i] == jar.entries;
  }

  /** The rewrite loop: skips the manifest when the jar has one and every
      name already written, and copies or instruments the rest in order. */
  method LegacyRewriteEntries(jar: Jar, cfg: LegacyConfig, read: JarTransformer.ClassReading,
                              write: JarTransformer.ClassWriting) returns (out: seq<Entry>, count: int)
    ensures out == LegacyOutputs(cfg.Value(), read, write, Written(jar.entries, jar.manifest.Some?))
    ensures count == TransformedCount(cfg.Value(), Written(jar.entries, jar.manifest.Some?))
  {
    var hasManifest := jar.manifest.Some?;
    ghost var s := cfg.Value();
    var written: set<string> := {};
    out := [];
    count := 0;
    var i := 0;
    while i < |jar.entries|
      invariant 0 <= i <= |jar.entries|
      invariant written == Names(Written(jar.entries[..i], hasManifest))
      invariant out == LegacyOutputs(s, read, write, Written(jar.entries[..i], hasManifest))
      invariant count == TransformedCount(s, Written(jar.entries[..i], hasManifest))
    {
      var e := jar.entries[i];
      WrittenStep(jar.entries, hasManifest, i);
      if hasManifest && EqualsIgnoreCase(ManifestName, e.name) {
        i := i + 1;
        continue;
      }
      if e.name in written {
        i := i + 1;
        continue;
      }
      written := written + {e.name};
      ghost var w := Written(jar.entries[..i], hasManifest);
      var o, t := LegacyCopyEntry(e, cfg, read, write);
      out := out + [o];
      if t {
        count := count + 1;
      }
      NamesSnoc(w, e);
      LegacyOutputsSnoc(s, read, write, w, e);
      TransformedCountSnoc(s, w, e);
      i := i + 1;
    }
    assert jar.entries[..i] == jar.entries;
  }
}
