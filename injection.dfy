/** The code MethodTransformAdapter and the legacy EntryLoggingClassVisitor
    inject: the message texts, the instruction sequences, and their effect
    on the operand stack. */
module Injection {
  import opened Common
  import opened Bytecode

  /** The slf4j sink is chosen when the logger setting is "slf4j" in any case. */
  predicate IsSlf4j(logger: string)
  {
    EqualsIgnoreCase("slf4j", logger)
  }

  /** `logPrefix + " " + phase + " " + owner + "." + name + desc`, the owner written with dots. */
  function EventText(prefix: string, phase: string, ownerInternal: string, name: string, desc: string): string
  {
    prefix + " " + phase + " " + Dotted(ownerInternal) + "." + name + desc
  }

  /** The text a timing event starts with; the duration follows it. */
  function TimingText(prefix: string, phase: string, ownerInternal: string, name: string, desc: string): string
  {
    EventText(prefix, phase, ownerInternal, name, desc) + " durationNs="
  }

  /** emitLog: log a constant message on the configured sink. */
  function LogCode(logger: string, ownerInternal: string, msg: string): seq<Insn>
  {
    if IsSlf4j(logger) then Slf4jLogCode(ownerInternal, msg) else ConsoleLogCode(msg)
  }

  /** `LoggerFactory.getLogger(owner).info(msg)` */
  function Slf4jLogCode(ownerInternal: string, msg: string): seq<Insn>
  {
    [Ldc(ownerInternal), Invoke(LoggerFactoryGetLogger), Ldc(msg), Invoke(LoggerInfo)]
  }

  /** `System.out.println(msg)` */
  function ConsoleLogCode(msg: string): seq<Insn>
  {
    [GetSystemOut, Ldc(msg), Invoke(PrintStreamPrintln)]
  }

  /** emitTiming: log `text` followed by the long held in `durSlot`. */
  function TimingCode(logger: string, ownerInternal: string, text: string, durSlot: nat): seq<Insn>
  {
    if IsSlf4j(logger) then Slf4jTimingCode(ownerInternal, text, durSlot) else ConsoleTimingCode(text, durSlot)
  }

  /** `LoggerFactory.getLogger(owner).info(text.concat(Long.toString(dur)))` */
  function Slf4jTimingCode(ownerInternal: string, text: string, durSlot: nat): seq<Insn>
  {
    [Ldc(ownerInternal), Invoke(LoggerFactoryGetLogger), Ldc(text), LLoad(durSlot),
     Invoke(LongToString), Invoke(StringConcat), Invoke(LoggerInfo)]
  }

  /** `System.out.println(new StringBuilder().append(text).append(dur).toString())` */
  function ConsoleTimingCode(text: string, durSlot: nat): seq<Insn>
  {
    [GetSystemOut, NewBuilder, Dup, Invoke(BuilderInit), Ldc(text),
     Invoke(BuilderAppendString), LLoad(durSlot), Invoke(BuilderAppendLong),
     Invoke(BuilderToString), Invoke(PrintStreamPrintln)]
  }

  /** The entry capture of the clock: `nanoTime()` stored into `startSlot`. */
  function StartTimerCode(startSlot: nat): seq<Insn>
  {
    [Invoke(SystemNanoTime), LStore(startSlot)]
  }

  /** The exit measurement: `nanoTime() - start` stored into `durSlot`. */
  function StopTimerCode(startSlot: nat, durSlot: nat): seq<Insn>
  {
    [Invoke(SystemNanoTime), LLoad(startSlot), LSub, LStore(durSlot)]
  }

  /** The phase word of an exit: "throw" for ATHROW, "exit" for a return. */
  function Phase(opcode: int): (p: string)
    ensures p == "throw" <==> opcode == ATHROW
    ensures p == "exit" <==> opcode != ATHROW
  {
    if opcode == ATHROW then "throw" else "exit"
  }

  /** What onMethodEnter emits for an active method: the entry log when
      enabled, then the clock capture into `startSlot` when timing. */
  function EntryCode(logger: string, prefix: string, ownerInternal: string, name: string, desc: string,
                     entryLog: bool, timing: bool, startSlot: nat): seq<Insn>
  {
    (if entryLog then LogCode(logger, ownerInternal, EventText(prefix, "enter", ownerInternal, name, desc)) else [])
    + (if timing then StartTimerCode(startSlot) else [])
  }

  /** What onMethodExit emits before an exit instruction with `opcode`: the
      measurement into `durSlot`, then the timing event. */
  function ExitCode(logger: string, prefix: string, ownerInternal: string, name: string, desc: string,
                    opcode: int, startSlot: nat, durSlot: nat): seq<Insn>
  {
    StopTimerCode(startSlot, durSlot)
    + TimingCode(logger, ownerInternal, TimingText(prefix, Phase(opcode), ownerInternal, name, desc), durSlot)
  }

  // ---- stack words ---------------------------------------------------------

  lemma LogCodeNeutral(logger: string, ownerInternal: string, msg: string)
    ensures StackNeutral(LogCode(logger, ownerInternal, msg))
  {
    if IsSlf4j(logger) {
      Slf4jLogNeutral(ownerInternal, msg);
    } else {
      ConsoleLogNeutral(msg);
    }
  }

  lemma Slf4jLogNeutral(ownerInternal: string, msg: string)
    ensures StackNeutral(Slf4jLogCode(ownerInternal, msg))
  {
    var code := Slf4jLogCode(ownerInternal, msg);
    assert WordsBalance(code[4..], 0, 0);
    BalanceAt(code, 3, 2, 0);
    BalanceAt(code, 2, 1, 0);
    BalanceAt(code, 1, 1, 0);
    BalanceAt(code, 0, 0, 0);
    assert code[0..] == code;
  }

  lemma ConsoleLogNeutral(msg: string)
    ensures StackNeutral(ConsoleLogCode(msg))
  {
    var code := ConsoleLogCode(msg);
    assert WordsBalance(code[3..], 0, 0);
    BalanceAt(code, 2, 2, 0);
    BalanceAt(code, 1, 1, 0);
    BalanceAt(code, 0, 0, 0);
    assert code[0..] == code;
  }

  lemma TimingCodeNeutral(logger: string, ownerInternal: string, text: string, durSlot: nat)
    ensures StackNeutral(TimingCode(logger, ownerInternal, text, durSlot))
  {
    if IsSlf4j(logger) {
      Slf4jTimingNeutral(ownerInternal, text, durSlot);
    } else {
      ConsoleTimingNeutral(text, durSlot);
    }
  }

  lemma Slf4jTimingNeutral(ownerInternal: string, text: string, durSlot: nat)
    ensures StackNeutral(Slf4jTimingCode(ownerInternal, text, durSlot))
  {
    var code := Slf4jTimingCode(ownerInternal, text, durSlot);
    assert WordsBalance(code[7..], 0, 0);
    BalanceAt(code, 6, 2, 0);
    BalanceAt(code, 5, 3, 0);
    BalanceAt(code, 4, 4, 0);
    BalanceAt(code, 3, 2, 0);
    BalanceAt(code, 2, 1, 0);
    BalanceAt(code, 1, 1, 0);
    BalanceAt(code, 0, 0, 0);
    assert code[0..] == code;
  }

  lemma ConsoleTimingNeutral(text: string, durSlot: nat)
    ensures StackNeutral(ConsoleTimingCode(text, durSlot))
  {
    var head := [GetSystemOut, NewBuilder, Dup, Invoke(BuilderInit), Ldc(text)];
    var tail := [Invoke(BuilderAppendString), LLoad(durSlot), Invoke(BuilderAppendLong),
                 Invoke(BuilderToString), Invoke(PrintStreamPrintln)];
    assert ConsoleTimingCode(text, durSlot) == head + tail;
    ConsoleHeadBalance(head, text);
    ConsoleTailBalance(tail, durSlot);
    WordsBalanceAppend(head, tail, 0, 3, 0);
  }

  lemma ConsoleHeadBalance(head: seq<Insn>, text: string)
    requires head == [GetSystemOut, NewBuilder, Dup, Invoke(BuilderInit), Ldc(text)]
    ensures WordsBalance(head, 0, 3)
  {
    assert WordsBalance(head[5..], 3, 3);
    BalanceAt(head, 4, 2, 3);
    BalanceAt(head, 3, 3, 3);
    BalanceAt(head, 2, 2, 3);
    BalanceAt(head, 1, 1, 3);
    BalanceAt(head, 0, 0, 3);
    assert head[0..] == head;
  }

  lemma ConsoleTailBalance(tail: seq<Insn>, durSlot: nat)
    requires tail == [Invoke(BuilderAppendString), LLoad(durSlot), Invoke(BuilderAppendLong),
                      Invoke(BuilderToString), Invoke(PrintStreamPrintln)]
    ensures WordsBalance(tail, 3, 0)
  {
    assert WordsBalance(tail[5..], 0, 0);
    BalanceAt(tail, 4, 2, 0);
    BalanceAt(tail, 3, 2, 0);
    BalanceAt(tail, 2, 4, 0);
    BalanceAt(tail, 1, 2, 0);
    BalanceAt(tail, 0, 3, 0);
    assert tail[0..] == tail;
  }

  lemma TimerCodeNeutral(startSlot: nat, durSlot: nat)
    ensures StackNeutral(StartTimerCode(startSlot))
    ensures StackNeutral(StopTimerCode(startSlot, durSlot))
  {
    var start := StartTimerCode(startSlot);
    assert WordsBalance(start[2..], 0, 0);
    BalanceAt(start, 1, 2, 0);
    BalanceAt(start, 0, 0, 0);
    assert start[0..] == start;
    var stop := StopTimerCode(startSlot, durSlot);
    assert WordsBalance(stop[4..], 0, 0);
    BalanceAt(stop, 3, 2, 0);
    BalanceAt(stop, 2, 4, 0);
    BalanceAt(stop, 1, 2, 0);
    BalanceAt(stop, 0, 0, 0);
    assert stop[0..] == stop;
  }

  /** Entry code never disturbs the operand stack. */
  lemma EntryCodeNeutral(logger: string, prefix: string, ownerInternal: string, name: string, desc: string,
                         entryLog: bool, timing: bool, startSlot: nat)
    ensures StackNeutral(EntryCode(logger, prefix, ownerInternal, name, desc, entryLog, timing, startSlot))
  {
    var log := if entryLog then LogCode(logger, ownerInternal, EventText(prefix, "enter", ownerInternal, name, desc)) else [];
    var timer := if timing then StartTimerCode(startSlot) else [];
    LogCodeNeutral(logger, ownerInternal, EventText(prefix, "enter", ownerInternal, name, desc));
    TimerCodeNeutral(startSlot, startSlot);
    assert WordsBalance(log, 0, 0);
    assert WordsBalance(timer, 0, 0);
    WordsBalanceAppend(log, timer, 0, 0, 0);
  }

  /** Exit code never disturbs the operand stack, so the value being
      returned or thrown is still on top when the exit instruction runs. */
  lemma ExitCodeNeutral(logger: string, prefix: string, ownerInternal: string, name: string, desc: string,
                        opcode: int, startSlot: nat, durSlot: nat)
    ensures StackNeutral(ExitCode(logger, prefix, ownerInternal, name, desc, opcode, startSlot, durSlot))
  {
    var text := TimingText(prefix, Phase(opcode), ownerInternal, name, desc);
    TimerCodeNeutral(startSlot, durSlot);
    TimingCodeNeutral(logger, ownerInternal, text, durSlot);
    WordsBalanceAppend(StopTimerCode(startSlot, durSlot), TimingCode(logger, ownerInternal, text, durSlot), 0, 0, 0);
  }

  // ---- what the code carries ----------------------------------------------

  /** Both sinks carry the message itself as a constant; the code calls
      Logger.info exactly on the slf4j sink and PrintStream.println exactly
      on the console sink. */
  lemma LogCodeSink(logger: string, ownerInternal: string, msg: string)
    ensures Ldc(msg) in LogCode(logger, ownerInternal, msg)
    ensures Invoke(LoggerInfo) in LogCode(logger, ownerInternal, msg) <==> IsSlf4j(logger)
    ensures Invoke(PrintStreamPrintln) in LogCode(logger, ownerInternal, msg) <==> !IsSlf4j(logger)
  {
    if IsSlf4j(logger) {
      assert Slf4jLogCode(ownerInternal, msg)[2] == Ldc(msg);
    } else {
      assert ConsoleLogCode(msg)[1] == Ldc(msg);
    }
  }

  /** The timing log carries its text as a constant and reads the duration
      from `durSlot`, on the sink the logger setting selects. */
  lemma TimingCodeSink(logger: string, ownerInternal: string, text: string, durSlot: nat)
    ensures Ldc(text) in TimingCode(logger, ownerInternal, text, durSlot)
    ensures LLoad(durSlot) in TimingCode(logger, ownerInternal, text, durSlot)
    ensures Invoke(LoggerInfo) in TimingCode(logger, ownerInternal, text, durSlot) <==> IsSlf4j(logger)
    ensures Invoke(PrintStreamPrintln) in TimingCode(logger, ownerInternal, text, durSlot) <==> !IsSlf4j(logger)
  {
    if IsSlf4j(logger) {
      var code := Slf4jTimingCode(ownerInternal, text, durSlot);
      assert code[2] == Ldc(text) && code[3] == LLoad(durSlot);
    } else {
      var code := ConsoleTimingCode(text, durSlot);
      assert code[4] == Ldc(text) && code[6] == LLoad(durSlot);
    }
  }

  /** The entry code logs the "enter" message exactly when entry logging is
      on, and stores into `startSlot` exactly when timing is on. */
  lemma EntryCodeCarries(logger: string, prefix: string, ownerInternal: string, name: string, desc: string,
                         entryLog: bool, timing: bool, startSlot: nat)
    ensures var code := EntryCode(logger, prefix, ownerInternal, name, desc, entryLog, timing, startSlot);
            && (Ldc(EventText(prefix, "enter", ownerInternal, name, desc)) in code <==> entryLog)
            && (LStore(startSlot) in code <==> timing)
  {
    var msg := EventText(prefix, "enter", ownerInternal, name, desc);
    var log := if entryLog then LogCode(logger, ownerInternal, msg) else [];
    var timer := if timing then StartTimerCode(startSlot) else [];
    LogCodeSink(logger, ownerInternal, msg);
    assert forall i :: i in log ==> !i.LStore?;
    assert forall i :: i in timer ==> !i.Ldc?;
    assert timing ==> timer[1] == LStore(startSlot);
    assert EntryCode(logger, prefix, ownerInternal, name, desc, entryLog, timing, startSlot) == log + timer;
  }

  /** The exit code reads the start slot, stores the duration into
      `durSlot`, and logs the timing text of the exit's phase followed by
      that duration. */
  lemma ExitCodeCarries(logger: string, prefix: string, ownerInternal: string, name: string, desc: string,
                        opcode: int, startSlot: nat, durSlot: nat)
    ensures var code := ExitCode(logger, prefix, ownerInternal, name, desc, opcode, startSlot, durSlot);
            && LLoad(startSlot) in code && LStore(durSlot) in code && LLoad(durSlot) in code
            && Ldc(TimingText(prefix, Phase(opcode), ownerInternal, name, desc)) in code
            && (Invoke(LoggerInfo) in code <==> IsSlf4j(logger))
  {
    var text := TimingText(prefix, Phase(opcode), ownerInternal, name, desc);
    var stop := StopTimerCode(startSlot, durSlot);
    var log := TimingCode(logger, ownerInternal, text, durSlot);
    TimingCodeSink(logger, ownerInternal, text, durSlot);
    assert stop[1] == LLoad(startSlot) && stop[3] == LStore(durSlot);
    assert Invoke(LoggerInfo) !in stop;
  }
}
