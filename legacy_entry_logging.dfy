/** The earlier EntryLoggingClassVisitor: a console line at the entry of
    every concrete method other than constructors and static initialisers,
    naming the class and the method. */
module LegacyEntryLogging {
  import opened Common
  import opened Bytecode
  import opened Injection
  import opened Instrument

  /** visitMethod's skip rules: abstract and native methods, constructors
      and static initialisers get the next visitor unwrapped. */
  predicate Wrapped(access: bv32, name: string)
  {
    access & (ACC_ABSTRACT | ACC_NATIVE) == 0 && name != "<init>" && name != "<clinit>"
  }

  /** The entry line: the fixed prefix "[BC] ", the class with dots, a dot,
      then the method's name and descriptor. */
  function EntryMessage(classInternal: string, name: string, desc: string): (msg: string)
    ensures StartsWith(msg, "[BC] ") && EndsWith(msg, "." + name + desc)
    ensures |msg| == 6 + |classInternal| + |name| + |desc|
    ensures msg[5..5 + |classInternal|] == Dotted(classInternal)
  {
    var m := "[BC] " + Dotted(classInternal) + "." + name + desc;
    assert m[..5] == "[BC] ";
    assert m[|m| - |"." + name + desc|..] == "." + name + desc;
    assert m[5..5 + |classInternal|] == Dotted(classInternal);
    m
  }

  /** The code the wrapped method gets at its entry. */
  function EntryLogCode(classInternal: string, name: string, desc: string): seq<Insn>
  {
    ConsoleLogCode(EntryMessage(classInternal, name, desc))
  }

  /** The patches one method of the class receives. */
  function MethodEntryPatches(classInternal: string, m: MethodInfo): seq<Patch>
  {
    if Wrapped(m.access, m.name) then [Patch(MethodEntry, EntryLogCode(classInternal, m.name, m.desc))] else []
  }

  /** The patches of a class's methods, in method order. */
  function EntryLogPatches(classInternal: string, methods: seq<MethodInfo>): (r: seq<seq<Patch>>)
    ensures |r| == |methods|
  {
    if methods == [] then []
    else EntryLogPatches(classInternal, methods[..|methods| - 1]) + [MethodEntryPatches(classInternal, methods[|methods| - 1])]
  }

  /** The patches at position `j` are those of method `j`. */
  lemma {:induction false} EntryLogPatchesAt(classInternal: string, methods: seq<MethodInfo>, j: nat)
    requires j < |methods|
    ensures EntryLogPatches(classInternal, methods)[j] == MethodEntryPatches(classInternal, methods[j])
  {
    if j < |methods| - 1 {
      EntryLogPatchesAt(classInternal, methods[..|methods| - 1], j);
    }
  }

  /** Every wrapped method gets exactly one entry patch that prints its line,
      and that patch leaves the operand stack as it found it; a skipped
      method gets nothing. */
  lemma EntryLogPatchesShape(classInternal: string, methods: seq<MethodInfo>)
    ensures var P := EntryLogPatches(classInternal, methods);
            forall j :: 0 <= j < |methods| ==>
              && |P[j]| == (if Wrapped(methods[j].access, methods[j].name) then 1 else 0)
              && (forall k :: 0 <= k < |P[j]| ==>
                    && P[j][k].site == MethodEntry
                    && StackNeutral(P[j][k].code)
                    && Ldc(EntryMessage(classInternal, methods[j].name, methods[j].desc)) in P[j][k].code)
  {
    var P: seq<seq<Patch>> := EntryLogPatches(classInternal, methods);
    forall j | 0 <= j < |methods|
      ensures && |P[j]| == (if Wrapped(methods[j].access, methods[j].name) then 1 else 0)
              && (forall k :: 0 <= k < |P[j]| ==>
                    && P[j][k].site == MethodEntry
                    && StackNeutral(P[j][k].code)
                    && Ldc(EntryMessage(classInternal, methods[j].name, methods[j].desc)) in P[j][k].code)
    {
      EntryLogPatchesAt(classInternal, methods, j);
      ConsoleLogNeutral(EntryMessage(classInternal, methods[j].name, methods[j].desc));
    }
  }

  class EntryLoggingClassVisitor {
    var classNameInternal: Option<string>

    /** No class seen yet. */
    constructor ()
      ensures classNameInternal.None?
    {
      classNameInternal := None;
    }

    /** visit: keeps the class's internal name for the messages. */
    method Visit(name: string)
      modifies this
      ensures classNameInternal == Some(name)
    {
      classNameInternal := Some(name);
    }

    /** visitMethod, with the wrapped adapter's single callback: the patches
      the method receives. */
    method VisitMethod(access: bv32, name: string, descriptor: string) returns (patches: seq<Patch>)
      requires classNameInternal.Some?
      ensures Wrapped(access, name) ==>
                patches == [Patch(MethodEntry, EntryLogCode(classNameInternal.value, name, descriptor))]
      ensures !Wrapped(access, name) ==> patches == []
    {
      if access & (ACC_ABSTRACT | ACC_NATIVE) != 0 {
        return [];
      }
      if name == "<init>" || name == "<clinit>" {
        return [];
      }
      var cn := Dotted(classNameInternal.value);
      var msg := "[BC] " + cn + "." + name + descriptor;
      patches := [Patch(MethodEntry, [GetSystemOut, Ldc(msg), Invoke(PrintStreamPrintln)])];
    }
  }

  /** The class reader driving the visitor over a class: `visit` first,
      then `visitMethod` for each method in order. */
  method InstrumentClass(info: ClassInfo) returns (patches: seq<seq<Patch>>)
    ensures patches == EntryLogPatches(info.name, info.methods)
  {
    var v := new EntryLoggingClassVisitor();
    v.Visit(info.name);
    patches := [];
    var i := 0;
    while i < |info.methods|
      invariant 0 <= i <= |info.methods|
      invariant v.classNameInternal == Some(info.name)
      invariant patches == EntryLogPatches(info.name, info.methods[..i])
    {
      var m := info.methods[i];
      var p := v.VisitMethod(m.access, m.name, m.desc);
      assert info.methods[..i + 1][..i] == info.methods[..i];
      patches := patches + [p];
      i := i + 1;
    }
    assert info.methods[..i] == info.methods;
  }
}
