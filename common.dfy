/** Small vocabulary shared by every module: Java's nullable references,
    regular-expression search, and the string operations the source uses. */
module Common {

  /** A Java reference that may be null. */
  datatype Option<T> = None | Some(value: T)

  /** `Pattern.compile(pattern).matcher(text).find()`: whether the regular
      expression `pattern` occurs somewhere in `text`. The regular-expression
      language itself is not modelled, so every member that searches takes
      the search as a parameter and holds for every choice of it. */
  type Finder = (string, string) -> bool

  /** `String.startsWith`. */
  predicate StartsWith(s: string, prefix: string)
  {
    |prefix| <= |s| && s[..|prefix|] == prefix
  }

  /** `String.endsWith`. */
  predicate EndsWith(s: string, suffix: string)
  {
    |suffix| <= |s| && s[|s| - |suffix|..] == suffix
  }

  /** `String.replace(char, char)`: every occurrence of `from` becomes `to`. */
  function Replace(s: string, from: char, to: char): string
  {
    seq(|s|, i requires 0 <= i < |s| => if s[i] == from then to else s[i])
  }

  /** A JVM internal name written with dots: `com/acme/Foo` becomes `com.acme.Foo`. */
  function Dotted(internalName: string): string
  {
    Replace(internalName, '/', '.')
  }

  /** A dotted name or prefix written as an internal name: `com.acme` becomes `com/acme`. */
  function Slashed(name: string): string
  {
    Replace(name, '.', '/')
  }

  /** ASCII lower-casing of one character. */
  function LowerAscii(c: char): char
  {
    if 'A' <= c <= 'Z' then (c as int - 'A' as int + 'a' as int) as char else c
  }

  /** `String.equalsIgnoreCase`, with ASCII case folding. */
  predicate EqualsIgnoreCase(a: string, b: string)
  {
    |a| == |b| && forall i :: 0 <= i < |a| ==> LowerAscii(a[i]) == LowerAscii(b[i])
  }

  function DigitChar(d: nat): char
    requires d < 10
  {
    "0123456789"[d]
  }

  function Digits(n: nat): string
    decreases n
  {
    if n < 10 then [DigitChar(n)] else Digits(n / 10) + [DigitChar(n % 10)]
  }

  /** `Long.toString` / `Integer.toString`: decimal digits, with a leading
      minus sign for a negative value. */
  function DecimalText(n: int): string
  {
    if n < 0 then "-" + Digits(-n) else Digits(n)
  }
}
