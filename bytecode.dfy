/** The abstract JVM instructions the instrumentation emits, each with the
    number of operand-stack words it pops and pushes. */
module Bytecode {
  import opened Common

  /** The library methods called by injected code. */
  datatype Callee =
    | SystemNanoTime          // INVOKESTATIC    java/lang/System.nanoTime ()J
    | PrintStreamPrintln      // INVOKEVIRTUAL   java/io/PrintStream.println (Ljava/lang/String;)V
    | LoggerFactoryGetLogger  // INVOKESTATIC    org/slf4j/LoggerFactory.getLogger (Ljava/lang/String;)Lorg/slf4j/Logger;
    | LoggerInfo              // INVOKEINTERFACE org/slf4j/Logger.info (Ljava/lang/String;)V
    | LongToString            // INVOKESTATIC    java/lang/Long.toString (J)Ljava/lang/String;
    | StringConcat            // INVOKEVIRTUAL   java/lang/String.concat (Ljava/lang/String;)Ljava/lang/String;
    | BuilderInit             // INVOKESPECIAL   java/lang/StringBuilder.<init> ()V
    | BuilderAppendString     // INVOKEVIRTUAL   java/lang/StringBuilder.append (Ljava/lang/String;)Ljava/lang/StringBuilder;
    | BuilderAppendLong       // INVOKEVIRTUAL   java/lang/StringBuilder.append (J)Ljava/lang/StringBuilder;
    | BuilderToString         // INVOKEVIRTUAL   java/lang/StringBuilder.toString ()Ljava/lang/String;

  /** The opcode of ATHROW; every other exit is a return instruction. */
  const ATHROW: int := 191

  datatype Insn =
    | GetSystemOut            // GETSTATIC java/lang/System.out : Ljava/io/PrintStream;
    | Ldc(text: string)       // LDC of a string constant
    | NewBuilder              // NEW java/lang/StringBuilder
    | Dup                     // DUP
    | LLoad(slot: nat)        // LLOAD
    | LStore(slot: nat)       // LSTORE
    | LSub                    // LSUB
    | Invoke(callee: Callee)  // INVOKESTATIC / INVOKEVIRTUAL / INVOKESPECIAL / INVOKEINTERFACE

  /** Whether the call takes a receiver object from the stack (all but INVOKESTATIC). */
  predicate HasReceiver(c: Callee)
  {
    !(c.SystemNanoTime? || c.LoggerFactoryGetLogger? || c.LongToString?)
  }

  /** Stack words taken by the arguments of the descriptor (a long takes two). */
  function ArgumentWords(c: Callee): nat
  {
    match c
    case SystemNanoTime => 0
    case BuilderInit => 0
    case BuilderToString => 0
    case LongToString => 2
    case BuilderAppendLong => 2
    case _ => 1
  }

  /** Stack words of the descriptor's return type (void none, long two). */
  function ReturnWords(c: Callee): nat
  {
    match c
    case SystemNanoTime => 2
    case PrintStreamPrintln => 0
    case LoggerInfo => 0
    case BuilderInit => 0
    case _ => 1
  }

  /** Operand-stack words an instruction consumes. */
  function Pops(i: Insn): nat
  {
    match i
    case Dup => 1
    case LStore(_) => 2
    case LSub => 4
    case Invoke(c) => ArgumentWords(c) + (if HasReceiver(c) then 1 else 0)
    case _ => 0
  }

  /** Operand-stack words an instruction produces. */
  function Pushes(i: Insn): nat
  {
    match i
    case GetSystemOut => 1
    case Ldc(_) => 1
    case NewBuilder => 1
    case Dup => 2
    case LLoad(_) => 2
    case LStore(_) => 0
    case LSub => 2
    case Invoke(c) => ReturnWords(c)
  }

  /** Starting `depth` words above the words the code found on the stack,
      no instruction of `code` consumes a word the code did not push itself,
      and the code ends `final` words above that starting point. */
  predicate WordsBalance(code: seq<Insn>, depth: nat, final: nat)
    decreases |code|
  {
    if code == [] then depth == final
    else Pops(code[0]) <= depth &&
         WordsBalance(code[1..], depth - Pops(code[0]) + Pushes(code[0]), final)
  }

  /** The code leaves the operand stack as deep as it found it, and never
      reaches into what was on the stack before it (a return value, say). */
  predicate StackNeutral(code: seq<Insn>)
  {
    WordsBalance(code, 0, 0)
  }

  /** Balance from position `k` follows from balance from `k + 1`. */
  lemma BalanceAt(code: seq<Insn>, k: nat, depth: nat, final: nat)
    requires k < |code| && Pops(code[k]) <= depth
    requires WordsBalance(code[k + 1..], depth - Pops(code[k]) + Pushes(code[k]), final)
    ensures WordsBalance(code[k..], depth, final)
  {
    assert code[k..][0] == code[k];
    assert code[k..][1..] == code[k + 1..];
  }

  /** Two balanced pieces run one after the other balance. */
  lemma {:induction false} WordsBalanceAppend(a: seq<Insn>, b: seq<Insn>, d0: nat, d1: nat, d2: nat)
    requires WordsBalance(a, d0, d1) && WordsBalance(b, d1, d2)
    ensures WordsBalance(a + b, d0, d2)
  {
    if a != [] {
      assert (a + b)[0] == a[0];
      assert (a + b)[1..] == a[1..] + b;
      WordsBalanceAppend(a[1..], b, d0 - Pops(a[0]) + Pushes(a[0]), d1, d2);
    } else {
      assert a + b == b;
    }
  }
}
