/** MethodTransformAdapter and ClassTransformVisitor: the per-method
    instrumentation policy driven by the class reader's callbacks, and the
    per-class accounting in the report. */
module Instrument {
  import opened Common
  import opened Bytecode
  import opened Injection
  import opened Report
  import opened Configuration

  const ACC_NATIVE: bv32 := 0x0100
  const ACC_ABSTRACT: bv32 := 0x0400

  /** Where injected code sits: at the start of the method, or just before
      an exit instruction (a return or ATHROW) with the given opcode. */
  datatype Site = MethodEntry | Exit(opcode: int)

  /** Code the adapter emitted at one site. */
  datatype Patch = Patch(site: Site, code: seq<Insn>)

  /** computeEligible: neither abstract nor native, not a constructor or
      static initialiser, the include pattern (when set) found in
      `name + desc`, no exclude pattern found there, and some feature on. */
  predicate Eligible(access: bv32, name: string, desc: string, includeMethod: Option<string>,
                     excludes: seq<string>, entryLog: bool, timing: bool, finds: Finder)
  {
    && access & (ACC_ABSTRACT | ACC_NATIVE) == 0
    && name != "<init>" && name != "<clinit>"
    && (includeMethod.Some? ==> finds(includeMethod.value, name + desc))
    && (forall i :: 0 <= i < |excludes| ==> !finds(excludes[i], name + desc))
    && (entryLog || timing)
  }

  /** computeEligible, with its early returns and its loop over the exclude
      patterns. */
  method ComputeEligible(access: bv32, name: string, desc: string, cfg: Config,
                         includeMethod: Option<string>, finds: Finder) returns (e: bool)
    ensures e == Eligible(access, name, desc, includeMethod, cfg.excludeMethodRegex, cfg.entryLog, cfg.timing, finds)
  {
    if access & (ACC_ABSTRACT | ACC_NATIVE) != 0 {
      return false;
    }
    if name == "<init>" || name == "<clinit>" {
      return false;
    }
    var sig := name + desc;
    if includeMethod.Some? && !finds(includeMethod.value, sig) {
      return false;
    }
    var i := 0;
    while i < |cfg.excludeMethodRegex|
      invariant 0 <= i <= |cfg.excludeMethodRegex|
      invariant forall j :: 0 <= j < i ==> !finds(cfg.excludeMethodRegex[j], sig)
    {
      if finds(cfg.excludeMethodRegex[i], sig) {
        return false;
      }
      i := i + 1;
    }
    return cfg.entryLog || cfg.timing;
  }

  /** The record `record` appends for a method of the class `ownerInternal`. */
  function MethodRecord(ownerInternal: string, name: string, desc: string, entry: bool, timing: bool): (t: TransformedMethod)
    ensures t.owner == Dotted(ownerInternal) && t.name == name && t.desc == desc
    ensures t.entryLog == entry && t.timing == timing
  {
    TransformedMethod(Dotted(ownerInternal), name, desc, entry, timing)
  }

  class ClassTransformVisitor {
    const cfg: Config
    const includeMethod: Option<string>
    const rep: TransformReport
    const finds: Finder
    var ownerInternal: Option<string>
    var classTransformed: int
    /** The report as the visitor found it. */
    ghost const baseline: ReportValue

    /** The report holds the baseline followed by this class's records, with
        one method counter step per record and the class counted once,
        exactly when it has a record. */
    ghost predicate Accounting()
      reads this, rep
    {
      && (classTransformed == 0 || classTransformed == 1)
      && |baseline.methods| <= |rep.methods|
      && rep.methods[..|baseline.methods|] == baseline.methods
      && rep.scannedClasses == baseline.scannedClasses
      && rep.transformedMethods == baseline.transformedMethods + (|rep.methods| - |baseline.methods|)
      && rep.transformedClasses == baseline.transformedClasses + classTransformed
      && (classTransformed == 1 <==> |rep.methods| > |baseline.methods|)
    }

    constructor (cfg: Config, includeMethod: Option<string>, rep: TransformReport, finds: Finder)
      ensures this.cfg == cfg && this.includeMethod == includeMethod && this.rep == rep && this.finds == finds
      ensures ownerInternal.None? && classTransformed == 0
      ensures baseline == rep.Value() && Accounting()
    {
      this.cfg := cfg;
      this.includeMethod := includeMethod;
      this.rep := rep;
      this.finds := finds;
      ownerInternal := None;
      classTransformed := 0;
      baseline := rep.Value();
    }

    /** visit: remembers the internal name of the class. */
    method Visit(name: string)
      modifies this`ownerInternal
      ensures ownerInternal == Some(name)
    {
      ownerInternal := Some(name);
    }

    /** visitMethod: every method gets an adapter, with the current owner,
        the shared settings and the same report. */
    method VisitMethod(access: bv32, name: string, descriptor: string, firstFreeLocal: nat)
      returns (mv: MethodTransformAdapter)
      requires ownerInternal.Some?
      ensures fresh(mv)
      ensures mv.access == access && mv.ownerInternal == ownerInternal.value
      ensures mv.name == name && mv.desc == descriptor
      ensures mv.cfg == cfg && mv.includeMethod == includeMethod && mv.finds == finds
      ensures mv.rep == rep && mv.parent == this
      ensures mv.eligible == Eligible(access, name, descriptor, includeMethod, cfg.excludeMethodRegex, cfg.entryLog, cfg.timing, finds)
      ensures mv.Unvisited(firstFreeLocal)
    {
      mv := new MethodTransformAdapter(access, ownerInternal.value, name, descriptor, cfg, includeMethod,
                                       rep, this, finds, firstFreeLocal);
    }

    /** markClassTransformed: counts the class on the first call only. */
    method MarkClassTransformed()
      modifies this`classTransformed, rep`transformedClasses
      ensures old(classTransformed) == 0 ==> classTransformed == 1 && rep.transformedClasses == old(rep.transformedClasses) + 1
      ensures old(classTransformed) != 0 ==> classTransformed == old(classTransformed) && rep.transformedClasses == old(rep.transformedClasses)
    {
      if classTransformed == 0 {
        rep.transformedClasses := rep.transformedClasses + 1;
        classTransformed := 1;
      }
    }
  }

  class MethodTransformAdapter {
    const access: bv32
    const ownerInternal: string
    const name: string
    const desc: string
    const cfg: Config
    const includeMethod: Option<string>
    const rep: TransformReport
    const parent: ClassTransformVisitor
    const finds: Finder
    const eligible: bool
    var hasRequiredAnnotation: bool
    var startTimeLocal: int
    /** The next slot the local-variable allocator hands out. */
    var nextLocal: nat
    /** The code emitted so far, site by site. */
    var patches: seq<Patch>

    /** The state before any callback: no annotation seen, no start slot,
        nothing emitted. */
    predicate Unvisited(firstFreeLocal: nat)
      reads this
    {
      !hasRequiredAnnotation && startTimeLocal == -1 && nextLocal == firstFreeLocal && patches == []
    }

    /** Instrumentation applies: eligible, and the required annotation seen
        when one is configured. */
    predicate Active()
      reads this, cfg
    {
      eligible && (cfg.requireAnnotationDesc.None? || hasRequiredAnnotation)
    }

    /** Exits are timed: active, timing on, and a start slot allocated. */
    predicate Timed()
      reads this, cfg
    {
      Active() && cfg.timing && startTimeLocal >= 0
    }

    constructor (access: bv32, ownerInternal: string, name: string, desc: string, cfg: Config,
                 includeMethod: Option<string>, rep: TransformReport, parent: ClassTransformVisitor,
                 finds: Finder, firstFreeLocal: nat)
      ensures this.access == access && this.ownerInternal == ownerInternal
      ensures this.name == name && this.desc == desc
      ensures this.cfg == cfg && this.includeMethod == includeMethod && this.finds == finds
      ensures this.rep == rep && this.parent == parent
      ensures eligible == Eligible(access, name, desc, includeMethod, cfg.excludeMethodRegex, cfg.entryLog, cfg.timing, finds)
      ensures Unvisited(firstFreeLocal)
    {
      this.access := access;
      this.ownerInternal := ownerInternal;
      this.name := name;
      this.desc := desc;
      this.cfg := cfg;
      this.includeMethod := includeMethod;
      this.rep := rep;
      this.parent := parent;
      this.finds := finds;
      var e := ComputeEligible(access, name, desc, cfg, includeMethod, finds);
      this.eligible := e;
      hasRequiredAnnotation := false;
      startTimeLocal := -1;
      nextLocal := firstFreeLocal;
      patches := [];
    }

    /** visitAnnotation: latches the flag when the descriptor is the
        required one; the flag never goes back to false. */
    method VisitAnnotation(descriptor: string)
      modifies this`hasRequiredAnnotation
      ensures hasRequiredAnnotation == (old(hasRequiredAnnotation) || cfg.requireAnnotationDesc == Some(descriptor))
    {
      if cfg.requireAnnotationDesc.Some? && cfg.requireAnnotationDesc.value == descriptor {
        hasRequiredAnnotation := true;
      }
    }

    /** newLocal for a long: the next two slots. */
    method NewLongLocal() returns (slot: nat)
      modifies this`nextLocal
      ensures slot == old(nextLocal) && nextLocal == old(nextLocal) + 2
    {
      slot := nextLocal;
      nextLocal := nextLocal + 2;
    }

    /** The local-variable sorter renumbering the method's own locals on
        their first use: it hands them `slots` slots from the counter
        newLocal draws from. */
    method SorterRemaps(slots: nat)
      modifies this`nextLocal
      ensures nextLocal == old(nextLocal) + slots
    {
      nextLocal := nextLocal + slots;
    }

    /** onMethodEnter: for an active method, the entry log (when on), the
        clock capture into a newly allocated start slot (when timing), and
        exactly one record; for any other method nothing at all. */
    method OnMethodEnter()
      requires parent.rep == rep && parent.Accounting()
      modifies this`startTimeLocal, this`nextLocal, this`patches
      modifies parent`classTransformed, rep`transformedClasses, rep`transformedMethods, rep`methods
      ensures parent.Accounting()
      ensures !Active() ==>
        && patches == old(patches) && startTimeLocal == old(startTimeLocal) && nextLocal == old(nextLocal)
        && rep.Value() == old(rep.Value()) && parent.classTransformed == old(parent.classTransformed)
      ensures Active() ==>
        && startTimeLocal == (if cfg.timing then old(nextLocal) else old(startTimeLocal))
        && nextLocal == old(nextLocal) + (if cfg.timing then 2 else 0)
        && patches == old(patches) + [Patch(MethodEntry, EntryCode(cfg.logger, cfg.logPrefix, ownerInternal, name, desc,
                                                             cfg.entryLog, cfg.timing, old(nextLocal)))]
        && rep.methods == old(rep.methods) + [MethodRecord(ownerInternal, name, desc, cfg.entryLog, cfg.timing)]
        && rep.transformedMethods == old(rep.transformedMethods) + 1
        && rep.scannedClasses == old(rep.scannedClasses)
        && parent.classTransformed == 1
        && rep.transformedClasses == old(rep.transformedClasses) + (if old(parent.classTransformed) == 0 then 1 else 0)
    {
      if !eligible {
        return;
      }
      if cfg.requireAnnotationDesc.Some? && !hasRequiredAnnotation {
        return;
      }
      var code: seq<Insn> := [];
      if cfg.entryLog {
        code := LogCode(cfg.logger, ownerInternal, EventText(cfg.logPrefix, "enter", ownerInternal, name, desc));
      }
      if cfg.timing {
        var slot := NewLongLocal();
        startTimeLocal := slot;
        code := code + StartTimerCode(slot);
      } else {
        assert code + [] == code;
      }
      patches := patches + [Patch(MethodEntry, code)];
      Record(true, cfg.entryLog, cfg.timing);
    }

    /** onMethodExit: for a timed method, the measurement into a newly
        allocated slot and the timing event tagged by the exit's opcode;
        otherwise nothing. The report is not touched. */
    method OnMethodExit(opcode: int)
      modifies this`nextLocal, this`patches
      ensures Timed() ==>
        && nextLocal == old(nextLocal) + 2
        && patches == old(patches) + [Patch(Exit(opcode), ExitCode(cfg.logger, cfg.logPrefix, ownerInternal, name, desc,
                                                                   opcode, startTimeLocal, old(nextLocal)))]
      ensures !Timed() ==> nextLocal == old(nextLocal) && patches == old(patches)
    {
      if !eligible {
        return;
      }
      if cfg.requireAnnotationDesc.Some? && !hasRequiredAnnotation {
        return;
      }
      if !cfg.timing {
        return;
      }
      if startTimeLocal < 0 {
        return;
      }
      var durLocal := NewLongLocal();
      patches := patches + [Patch(Exit(opcode), ExitCode(cfg.logger, cfg.logPrefix, ownerInternal, name, desc,
                                                         opcode, startTimeLocal, durLocal))];
    }

    /** record: when `transformed`, counts the class (once), steps the
        method counter and appends one record with the dotted owner. */
    method Record(transformed: bool, entry: bool, timing: bool)
      requires parent.rep == rep && parent.Accounting()
      modifies parent`classTransformed, rep`transformedClasses, rep`transformedMethods, rep`methods
      ensures parent.Accounting()
      ensures !transformed ==> rep.Value() == old(rep.Value()) && parent.classTransformed == old(parent.classTransformed)
      ensures transformed ==>
        && rep.methods == old(rep.methods) + [MethodRecord(ownerInternal, name, desc, entry, timing)]
        && rep.transformedMethods == old(rep.transformedMethods) + 1
        && rep.scannedClasses == old(rep.scannedClasses)
        && parent.classTransformed == 1
        && rep.transformedClasses == old(rep.transformedClasses) + (if old(parent.classTransformed) == 0 then 1 else 0)
    {
      if !transformed {
        return;
      }
      parent.MarkClassTransformed();
      rep.transformedMethods := rep.transformedMethods + 1;
      rep.methods := rep.methods + [MethodRecord(ownerInternal, name, desc, entry, timing)];
      assert rep.methods[..|parent.baseline.methods|] == old(rep.methods)[..|parent.baseline.methods|];
    }
  }

  // ---- one class, as the class reader drives the visitor -----------------


  /** A class: its internal name and its methods in order. */
  datatype ClassInfo = ClassInfo(name: string, methods: seq<MethodInfo>)

  /** One exit instruction of a method, as the class reader meets it: its
      opcode, and how many local slots the local-variable sorter handed to
      the method's own locals (renumbering them on first use) since the
      previous callback. The sorter draws those slots from the same counter
      as `newLocal`. */
  datatype ExitPoint = ExitPoint(opcode: int, remapped: nat)

  /** What the class reader reports about one method: its flags, name and
      descriptor, its annotation descriptors in order, its exit instructions
      in order, and the first local slot after its parameters (where the
      allocator starts). */
  datatype MethodInfo = MethodInfo(access: bv32, name: string, desc: string, annotations: seq<string>,
                                   exits: seq<ExitPoint>, firstFreeLocal: nat)

  /** The slots the sorter handed to the method's own locals before the
      callbacks of the first `upTo` exits had all run. */
  function Remapped(exits: seq<ExitPoint>, upTo: nat): nat
    requires upTo <= |exits|
  {
    if upTo == 0 then 0 else Remapped(exits, upTo - 1) + exits[upTo - 1].remapped
  }

  /** The long slot exit `j` stores its duration in, when the allocator
      stood at `firstDur` after onMethodEnter: past every slot the sorter
      handed out up to that exit and the two slots of each earlier exit. */
  function DurSlot(exits: seq<ExitPoint>, firstDur: nat, j: nat): nat
    requires j < |exits|
  {
    firstDur + Remapped(exits, j + 1) + 2 * j
  }

  /** The sorter's count up to an exit ignores the exits after it. */
  lemma {:induction false} RemappedOfPrefix(exits: seq<ExitPoint>, upTo: nat, n: nat)
    requires upTo <= n <= |exits|
    ensures Remapped(exits[..n], upTo) == Remapped(exits, upTo)
  {
    if upTo > 0 {
      RemappedOfPrefix(exits, upTo - 1, n);
    }
  }

  /** The sorter's count only grows along the exits. */
  lemma {:induction false} RemappedGrows(exits: seq<ExitPoint>, j: nat, k: nat)
    requires j <= k <= |exits|
    ensures Remapped(exits, j) <= Remapped(exits, k)
    decreases k - j
  {
    if j < k {
      RemappedGrows(exits, j, k - 1);
    }
  }

  /** Every duration slot is a fresh long slot: it lies past the start slot's
      two words, and two exits never share a slot or overlap. */
  lemma DurSlotsFresh(exits: seq<ExitPoint>, startSlot: nat, j: nat, k: nat)
    requires j < k < |exits|
    ensures startSlot + 2 <= DurSlot(exits, startSlot + 2, j)
    ensures DurSlot(exits, startSlot + 2, j) + 2 <= DurSlot(exits, startSlot + 2, k)
  {
    RemappedGrows(exits, j + 1, k + 1);
  }

  predicate AnnotationSeen(required: Option<string>, annotations: seq<string>)
  {
    required.Some? && required.value in annotations
  }

  /** The method is instrumented under settings `s`. */
  predicate MethodActive(s: Settings, includeMethod: Option<string>, finds: Finder, m: MethodInfo)
  {
    && Eligible(m.access, m.name, m.desc, includeMethod, s.excludeMethodRegex, s.entryLog, s.timing, finds)
    && (s.requireAnnotationDesc.None? || AnnotationSeen(s.requireAnnotationDesc, m.annotations))
  }

  /** One timing patch per exit, in order: each measures from `startSlot`
      into the slot the allocator hands out at that exit. */
  function ExitPatchesFrom(logger: string, prefix: string, ownerInternal: string, name: string, desc: string,
                           exits: seq<ExitPoint>, startSlot: nat, firstDur: nat): seq<Patch>
  {
    seq(|exits|, j requires 0 <= j < |exits| =>
      Patch(Exit(exits[j].opcode), ExitCode(logger, prefix, ownerInternal, name, desc, exits[j].opcode, startSlot,
                                            DurSlot(exits, firstDur, j))))
  }

  /** The exit patches of a timed method: the start reading sits in the
      method's first free slot, and the allocator continues after it. */
  function ExitPatches(s: Settings, ownerInternal: string, m: MethodInfo): seq<Patch>
  {
    ExitPatchesFrom(s.logger, s.logPrefix, ownerInternal, m.name, m.desc, m.exits, m.firstFreeLocal, m.firstFreeLocal + 2)
  }

  /** The code injected into one method: nothing when it is not
      instrumented; otherwise the entry patch, then, when timing, one patch
      before every exit in order. */
  function MethodPatches(s: Settings, includeMethod: Option<string>, finds: Finder, ownerInternal: string,
                         m: MethodInfo): (r: seq<Patch>)
    ensures !MethodActive(s, includeMethod, finds, m) ==> r == []
    ensures MethodActive(s, includeMethod, finds, m) ==>
              |r| == 1 + (if s.timing then |m.exits| else 0) && r[0].site == MethodEntry
    ensures forall j :: 1 <= j < |r| ==> r[j].site == Exit(m.exits[j - 1].opcode)
  {
    if !MethodActive(s, includeMethod, finds, m) then []
    else [Patch(MethodEntry, EntryCode(s.logger, s.logPrefix, ownerInternal, m.name, m.desc, s.entryLog, s.timing,
                                 m.firstFreeLocal))]
         + (if s.timing then ExitPatches(s, ownerInternal, m) else [])
  }

  /** The records a class adds to the report, in method order. */
  function Records(s: Settings, includeMethod: Option<string>, finds: Finder, ownerInternal: string,
                   methods: seq<MethodInfo>): (r: seq<TransformedMethod>)
    ensures |r| <= |methods|
    decreases |methods|
  {
    if methods == [] then []
    else
      var front := methods[..|methods| - 1];
      var m := methods[|methods| - 1];
      Records(s, includeMethod, finds, ownerInternal, front)
      + (if MethodActive(s, includeMethod, finds, m) then [MethodRecord(ownerInternal, m.name, m.desc, s.entryLog, s.timing)] else [])
  }

  /** A class has records exactly when one of its methods is instrumented,
      and every record carries the dotted class name and the settings' flags. */
  lemma {:induction false} RecordsShape(s: Settings, includeMethod: Option<string>, finds: Finder, ownerInternal: string,
                                        methods: seq<MethodInfo>)
    ensures var r := Records(s, includeMethod, finds, ownerInternal, methods);
            && (|r| == 0 <==> forall i :: 0 <= i < |methods| ==> !MethodActive(s, includeMethod, finds, methods[i]))
            && (forall t :: t in r ==> t.owner == Dotted(ownerInternal) && t.entryLog == s.entryLog && t.timing == s.timing)
    decreases |methods|
  {
    if methods != [] {
      var front := methods[..|methods| - 1];
      RecordsShape(s, includeMethod, finds, ownerInternal, front);
      assert forall i :: 0 <= i < |front| ==> front[i] == methods[i];
    }
  }

  /** The patches of a class's methods, in method order. */
  function ClassPatches(s: Settings, includeMethod: Option<string>, finds: Finder, ownerInternal: string,
                        methods: seq<MethodInfo>): (r: seq<seq<Patch>>)
    ensures |r| == |methods|
    decreases |methods|
  {
    if methods == [] then []
    else
      ClassPatches(s, includeMethod, finds, ownerInternal, methods[..|methods| - 1])
      + [MethodPatches(s, includeMethod, finds, ownerInternal, methods[|methods| - 1])]
  }

  /** The class's `j`-th patch list is that of its `j`-th method. */
  lemma {:induction false} ClassPatchesAt(s: Settings, includeMethod: Option<string>, finds: Finder, ownerInternal: string,
                                          methods: seq<MethodInfo>, j: nat)
    requires j < |methods|
    ensures ClassPatches(s, includeMethod, finds, ownerInternal, methods)[j]
            == MethodPatches(s, includeMethod, finds, ownerInternal, methods[j])
    decreases |methods|
  {
    var front := methods[..|methods| - 1];
    if j < |front| {
      ClassPatchesAt(s, includeMethod, finds, ownerInternal, front, j);
    }
  }

  /** The report of one class on its own: no class scanned, one method
      count per record, and the class counted once exactly when some method
      was instrumented. */
  function ClassReport(s: Settings, includeMethod: Option<string>, finds: Finder, c: ClassInfo): (r: ReportValue)
    ensures ClassReportShape(r)
  {
    var recs := Records(s, includeMethod, finds, c.name, c.methods);
    ReportValue(0, if |recs| > 0 then 1 else 0, |recs|, recs)
  }

  /** A class is counted as transformed exactly when one of its methods is
      instrumented, however many are. */
  lemma ClassCountedOnce(s: Settings, includeMethod: Option<string>, finds: Finder, c: ClassInfo)
    ensures ClassReport(s, includeMethod, finds, c).transformedClasses == 1
            <==> exists i :: 0 <= i < |c.methods| && MethodActive(s, includeMethod, finds, c.methods[i])
  {
    RecordsShape(s, includeMethod, finds, c.name, c.methods);
  }

  /** The class reader's annotation callbacks, in order. */
  method FeedAnnotations(mv: MethodTransformAdapter, annotations: seq<string>)
    modifies mv`hasRequiredAnnotation
    ensures mv.hasRequiredAnnotation
            == (old(mv.hasRequiredAnnotation) || AnnotationSeen(mv.cfg.requireAnnotationDesc, annotations))
  {
    var i := 0;
    while i < |annotations|
      invariant 0 <= i <= |annotations|
      invariant mv.hasRequiredAnnotation
                == (old(mv.hasRequiredAnnotation) || AnnotationSeen(mv.cfg.requireAnnotationDesc, annotations[..i]))
    {
      mv.VisitAnnotation(annotations[i]);
      assert annotations[..i + 1] == annotations[..i] + [annotations[i]];
      i := i + 1;
    }
    assert annotations[..i] == annotations;
  }

  /** The exit callbacks, one per exit instruction in order, each after
      the sorter's renumbering of the locals the code before it uses: a
      timed method gets one patch per exit, each measuring into a newly
      allocated slot; any other method gets nothing. */
  method FeedExits(mv: MethodTransformAdapter, exits: seq<ExitPoint>)
    modifies mv`nextLocal, mv`patches
    ensures mv.Timed() ==>
      && mv.nextLocal == old(mv.nextLocal) + Remapped(exits, |exits|) + 2 * |exits|
      && mv.patches == old(mv.patches) + ExitPatchesFrom(mv.cfg.logger, mv.cfg.logPrefix, mv.ownerInternal, mv.name,
                                                         mv.desc, exits, mv.startTimeLocal, old(mv.nextLocal))
    ensures !mv.Timed() ==> mv.nextLocal == old(mv.nextLocal) + Remapped(exits, |exits|) && mv.patches == old(mv.patches)
    decreases |exits|
  {
    if exits == [] {
      assert mv.patches + [] == mv.patches;
      return;
    }
    var n := |exits| - 1;
    ghost var timed := mv.Timed();
    FeedExits(mv, exits[..n]);
    ghost var (patches1, next1) := (mv.patches, mv.nextLocal);
    mv.SorterRemaps(exits[n].remapped);
    assert mv.Timed() == timed;
    mv.OnMethodExit(exits[n].opcode);
    ExitPatchesFromStep(mv.cfg.logger, mv.cfg.logPrefix, mv.ownerInternal, mv.name, mv.desc, exits,
                        if mv.startTimeLocal >= 0 then mv.startTimeLocal else 0, old(mv.nextLocal));
    if timed {
      assert next1 == old(mv.nextLocal) + Remapped(exits[..n], n) + 2 * n;
      assert mv.patches == patches1 + [ExitPatchesFrom(mv.cfg.logger, mv.cfg.logPrefix, mv.ownerInternal, mv.name,
                                                       mv.desc, exits, mv.startTimeLocal, old(mv.nextLocal))[n]];
    } else {
      assert next1 == old(mv.nextLocal) + Remapped(exits[..n], n);
    }
  }

  /** An exit's patch depends only on the exits up to it. */
  lemma ExitPatchOfPrefix(logger: string, prefix: string, ownerInternal: string, name: string, desc: string,
                          exits: seq<ExitPoint>, startSlot: nat, firstDur: nat, j: nat, n: nat)
    requires j < n <= |exits|
    ensures ExitPatchesFrom(logger, prefix, ownerInternal, name, desc, exits[..n], startSlot, firstDur)[j]
         == ExitPatchesFrom(logger, prefix, ownerInternal, name, desc, exits, startSlot, firstDur)[j]
  {
    RemappedOfPrefix(exits, j + 1, n);
    assert DurSlot(exits[..n], firstDur, j) == DurSlot(exits, firstDur, j);
  }

  /** The exit patches of all exits are those of all but the last, then the
      last one's, measuring into the slot after the sorter's and the earlier
      exits' slots. */
  lemma ExitPatchesFromStep(logger: string, prefix: string, ownerInternal: string, name: string, desc: string,
                            exits: seq<ExitPoint>, startSlot: nat, firstDur: nat)
    requires exits != []
    ensures Remapped(exits, |exits|) == Remapped(exits[..|exits| - 1], |exits| - 1) + exits[|exits| - 1].remapped
    ensures ExitPatchesFrom(logger, prefix, ownerInternal, name, desc, exits, startSlot, firstDur)
            == ExitPatchesFrom(logger, prefix, ownerInternal, name, desc, exits[..|exits| - 1], startSlot, firstDur)
               + [ExitPatchesFrom(logger, prefix, ownerInternal, name, desc, exits, startSlot, firstDur)[|exits| - 1]]
    ensures ExitPatchesFrom(logger, prefix, ownerInternal, name, desc, exits, startSlot, firstDur)[|exits| - 1]
            == Patch(Exit(exits[|exits| - 1].opcode),
                     ExitCode(logger, prefix, ownerInternal, name, desc, exits[|exits| - 1].opcode,
                              startSlot, DurSlot(exits, firstDur, |exits| - 1)))
    ensures DurSlot(exits, firstDur, |exits| - 1) == firstDur + Remapped(exits, |exits|) + 2 * (|exits| - 1)
  {
    RemappedOfPrefix(exits, |exits| - 1, |exits| - 1);
    ExitPatchesSplit(logger, prefix, ownerInternal, name, desc, exits, startSlot, firstDur);
  }

  /** All exit patches are those of all but the last exit, then the last. */
  lemma ExitPatchesSplit(logger: string, prefix: string, ownerInternal: string, name: string, desc: string,
                         exits: seq<ExitPoint>, startSlot: nat, firstDur: nat)
    requires exits != []
    ensures ExitPatchesFrom(logger, prefix, ownerInternal, name, desc, exits, startSlot, firstDur)
            == ExitPatchesFrom(logger, prefix, ownerInternal, name, desc, exits[..|exits| - 1], startSlot, firstDur)
               + [ExitPatchesFrom(logger, prefix, ownerInternal, name, desc, exits, startSlot, firstDur)[|exits| - 1]]
  {
    var n := |exits| - 1;
    var all := ExitPatchesFrom(logger, prefix, ownerInternal, name, desc, exits, startSlot, firstDur);
    var init := ExitPatchesFrom(logger, prefix, ownerInternal, name, desc, exits[..n], startSlot, firstDur);
    forall k | 0 <= k <= n
      ensures all[k] == (init + [all[n]])[k]
    {
      if k < n {
        ExitPatchOfPrefix(logger, prefix, ownerInternal, name, desc, exits, startSlot, firstDur, k, n);
      }
    }
    assert all == init + [all[n]];
  }

  /** The class reader's calls for the start of one method: visitMethod,
      visitAnnotation for each annotation, then onMethodEnter. */
  method EnterMethod(cv: ClassTransformVisitor, m: MethodInfo, ghost s: Settings, owner: string)
    returns (mv: MethodTransformAdapter)
    requires cv.ownerInternal == Some(owner) && cv.cfg.Value() == s && cv.Accounting()
    modifies cv`classTransformed, cv.rep`transformedClasses, cv.rep`transformedMethods, cv.rep`methods
    ensures fresh(mv) && cv.Accounting()
    ensures mv.cfg == cv.cfg && mv.ownerInternal == owner && mv.name == m.name && mv.desc == m.desc
    ensures mv.Timed() == (MethodActive(s, cv.includeMethod, cv.finds, m) && s.timing)
    ensures mv.Timed() ==> mv.startTimeLocal == m.firstFreeLocal && mv.nextLocal == m.firstFreeLocal + 2
    ensures mv.patches == if MethodActive(s, cv.includeMethod, cv.finds, m)
                          then [Patch(MethodEntry, EntryCode(s.logger, s.logPrefix, owner, m.name, m.desc,
                                                       s.entryLog, s.timing, m.firstFreeLocal))]
                          else []
    ensures cv.rep.methods == old(cv.rep.methods)
              + (if MethodActive(s, cv.includeMethod, cv.finds, m)
                 then [MethodRecord(owner, m.name, m.desc, s.entryLog, s.timing)] else [])
  {
    mv := cv.VisitMethod(m.access, m.name, m.desc, m.firstFreeLocal);
    FeedAnnotations(mv, m.annotations);
    assert mv.Active() == MethodActive(s, cv.includeMethod, cv.finds, m);
    mv.OnMethodEnter();
  }

  /** The class reader's calls for one method: those of EnterMethod, then
      onMethodExit before each exit. */
  method AcceptMethod(cv: ClassTransformVisitor, m: MethodInfo, ghost s: Settings, owner: string)
    returns (p: seq<Patch>)
    requires cv.ownerInternal == Some(owner) && cv.cfg.Value() == s && cv.Accounting()
    modifies cv`classTransformed, cv.rep`transformedClasses, cv.rep`transformedMethods, cv.rep`methods
    ensures cv.Accounting()
    ensures p == MethodPatches(s, cv.includeMethod, cv.finds, owner, m)
    ensures cv.rep.methods == old(cv.rep.methods)
              + (if MethodActive(s, cv.includeMethod, cv.finds, m)
                 then [MethodRecord(owner, m.name, m.desc, s.entryLog, s.timing)] else [])
  {
    var mv := EnterMethod(cv, m, s, owner);
    FeedExits(mv, m.exits);
    p := mv.patches;
    if mv.Timed() {
      assert ExitPatches(s, owner, m)
          == ExitPatchesFrom(mv.cfg.logger, mv.cfg.logPrefix, mv.ownerInternal, mv.name, mv.desc, m.exits,
                             mv.startTimeLocal, m.firstFreeLocal + 2);
    } else if MethodActive(s, cv.includeMethod, cv.finds, m) {
      assert p == [Patch(MethodEntry, EntryCode(s.logger, s.logPrefix, owner, m.name, m.desc,
                                          s.entryLog, s.timing, m.firstFreeLocal))] + [];
    }
  }

  /** ClassReader.accept's method loop: every method, in order. */
  method AcceptMethods(cv: ClassTransformVisitor, methods: seq<MethodInfo>, ghost s: Settings, owner: string)
    returns (patches: seq<seq<Patch>>)
    requires cv.ownerInternal == Some(owner) && cv.cfg.Value() == s && cv.Accounting()
    modifies cv`classTransformed, cv.rep`transformedClasses, cv.rep`transformedMethods, cv.rep`methods
    ensures cv.Accounting()
    ensures cv.rep.methods == old(cv.rep.methods) + Records(s, cv.includeMethod, cv.finds, owner, methods)
    ensures patches == ClassPatches(s, cv.includeMethod, cv.finds, owner, methods)
    decreases |methods|
  {
    if methods == [] {
      assert cv.rep.methods + [] == cv.rep.methods;
      return [];
    }
    var n := |methods| - 1;
    ghost var before := cv.rep.methods;
    var done := AcceptMethods(cv, methods[..n], s, owner);
    var p := AcceptMethod(cv, methods[n], s, owner);
    patches := done + [p];
    AcceptStep(s, cv.includeMethod, cv.finds, owner, methods, before, cv.rep.methods);
  }

  /** One more method: its records and patches follow those of the methods
      before it. */
  lemma AcceptStep(s: Settings, includeMethod: Option<string>, finds: Finder, owner: string,
                   methods: seq<MethodInfo>, before: seq<TransformedMethod>, after: seq<TransformedMethod>)
    requires methods != []
    requires var m := methods[|methods| - 1];
             after == before + Records(s, includeMethod, finds, owner, methods[..|methods| - 1])
                      + (if MethodActive(s, includeMethod, finds, m)
                         then [MethodRecord(owner, m.name, m.desc, s.entryLog, s.timing)] else [])
    ensures after == before + Records(s, includeMethod, finds, owner, methods)
  {
    var m := methods[|methods| - 1];
    var front := Records(s, includeMethod, finds, owner, methods[..|methods| - 1]);
    var last := if MethodActive(s, includeMethod, finds, m) then [MethodRecord(owner, m.name, m.desc, s.entryLog, s.timing)] else [];
    assert before + front + last == before + (front + last);
  }

  /** transformClassBytes without the parsing and writing: a visitor over
      `rep` sees the class and each of its methods; the class's report is
      added to `rep`, and each method's patches are returned in order. */
  method TransformClass(info: ClassInfo, cfg: Config, includeMethod: Option<string>, finds: Finder,
                        rep: TransformReport) returns (patches: seq<seq<Patch>>)
    modifies rep
    ensures rep.Value() == AddReport(old(rep.Value()), ClassReport(cfg.Value(), includeMethod, finds, info))
    ensures patches == ClassPatches(cfg.Value(), includeMethod, finds, info.name, info.methods)
  {
    var cv := new ClassTransformVisitor(cfg, includeMethod, rep, finds);
    cv.Visit(info.name);
    patches := AcceptMethods(cv, info.methods, cfg.Value(), info.name);
    ghost var recs := Records(cfg.Value(), includeMethod, finds, info.name, info.methods);
    assert ClassReport(cfg.Value(), includeMethod, finds, info)
        == ReportValue(0, if |recs| > 0 then 1 else 0, |recs|, recs);
  }

  /** Every patch of every method leaves the operand stack as it found it. */
  lemma MethodPatchesNeutral(s: Settings, includeMethod: Option<string>, finds: Finder, ownerInternal: string,
                             m: MethodInfo)
    ensures forall j :: 0 <= j < |MethodPatches(s, includeMethod, finds, ownerInternal, m)| ==>
              StackNeutral(MethodPatches(s, includeMethod, finds, ownerInternal, m)[j].code)
  {
    var P := MethodPatches(s, includeMethod, finds, ownerInternal, m);
    forall j | 0 <= j < |P|
      ensures StackNeutral(P[j].code)
    {
      if j == 0 {
        EntryCodeNeutral(s.logger, s.logPrefix, ownerInternal, m.name, m.desc, s.entryLog, s.timing, m.firstFreeLocal);
      } else {
        ExitCodeNeutral(s.logger, s.logPrefix, ownerInternal, m.name, m.desc, m.exits[j - 1].opcode,
                        m.firstFreeLocal, DurSlot(m.exits, m.firstFreeLocal + 2, j - 1));
      }
    }
  }
}
