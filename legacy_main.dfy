/** The earlier command line: two paths, then options that switch on entry
    logging or the dry run and set the include and exclude prefixes; the
    jar is transformed and the number of transformed classes reported. */
module LegacyMain {
  import opened Common
  import opened Archive
  import opened LegacyJar
  import JarTransformer

  /** How `main` ends: usage and exit status 2 when the paths are missing,
      usage and a normal return on `--help`, an IllegalArgumentException
      with its message, or a run with the paths and the settings. */
  datatype Outcome =
    | Usage(exitCode: int)
    | Help
    | Failure(message: string)
    | Run(input: string, output: string, settings: LegacySettings)

  /** The option loop from position `i` on, with the settings so far. An
      option's value is the argument after it. */
  function ParseFrom(args: seq<string>, i: nat, s: LegacySettings): (r: Outcome)
    requires 2 <= i <= |args|
    ensures !r.Usage?
    ensures r.Run? ==> r.input == args[0] && r.output == args[1]
    decreases |args| - i
  {
    if i == |args| then Run(args[0], args[1], s)
    else
      var a := args[i];
      if a == "--include-prefix" then
        if i + 1 >= |args| then Failure("--include-prefix needs value")
        else ParseFrom(args, i + 2, s.(includePrefix := Some(args[i + 1])))
      else if a == "--exclude-prefix" then
        if i + 1 >= |args| then Failure("--exclude-prefix needs value")
        else ParseFrom(args, i + 2, s.(excludePrefixes := s.excludePrefixes + [args[i + 1]]))
      else if a == "--log" then ParseFrom(args, i + 1, s.(injectEntryLog := true))
      else if a == "--dry-run" then ParseFrom(args, i + 1, s.(dryRun := true))
      else if a == "--help" || a == "-h" then Help
      else Failure("Unknown arg: " + a)
  }

  /** The whole command line: fewer than two arguments is a usage error,
      and otherwise the first two are the input and output paths. */
  function Parse(args: seq<string>): (r: Outcome)
    ensures r.Usage? <==> |args| < 2
    ensures r.Usage? ==> r.exitCode == 2
    ensures r.Run? ==> r.input == args[0] && r.output == args[1]
  {
    if |args| < 2 then Usage(2) else ParseFrom(args, 2, LegacyDefaults)
  }

  // ---- the options as a list of tokens ------------------------------------

  /** One option the loop takes: a switch, or an option with its value. */
  datatype OptionToken = Switch(name: string) | Valued(name: string, value: string)

  /** The two options that read the argument after them. */
  predicate TakesValue(a: string)
  {
    a == "--include-prefix" || a == "--exclude-prefix"
  }

  /** The loop takes the argument at `j` and goes on: a switch it knows,
      or an option that takes a value and has one. */
  predicate Continues(args: seq<string>, j: nat)
    requires j < |args|
  {
    args[j] == "--log" || args[j] == "--dry-run" || (TakesValue(args[j]) && j + 1 < |args|)
  }

  /** Where the loop looks after taking the option at `j`. */
  function After(args: seq<string>, j: nat): (k: nat)
    requires j < |args| && Continues(args, j)
    ensures j < k <= |args|
  {
    if TakesValue(args[j]) then j + 2 else j + 1
  }

  /** The options the loop takes from position `i` on, in order, up to the
      end or to the first argument it does not take. */
  function Tokens(args: seq<string>, i: nat): (ts: seq<OptionToken>)
    requires i <= |args|
    ensures |ts| <= |args| - i
    decreases |args| - i
  {
    if i == |args| || !Continues(args, i) then []
    else
      var t := if TakesValue(args[i]) then Valued(args[i], args[i + 1]) else Switch(args[i]);
      [t] + Tokens(args, After(args, i))
  }

  /** The first argument from `i` on that the loop does not take, if any:
      an unknown word, `--help`, or a value option with nothing after it. */
  function StopAt(args: seq<string>, i: nat): (k: Option<nat>)
    requires i <= |args|
    ensures k.Some? ==> i <= k.value < |args| && !Continues(args, k.value)
    ensures k.Some? && TakesValue(args[k.value]) ==> k.value == |args| - 1
    decreases |args| - i
  {
    if i == |args| then None
    else if !Continues(args, i) then Some(i)
    else StopAt(args, After(args, i))
  }

  /** The values given to option `name`, in order. */
  function ValuesOf(ts: seq<OptionToken>, name: string): (vs: seq<string>)
    ensures |vs| <= |ts|
    ensures forall v :: v in vs ==> Valued(name, v) in ts
  {
    if ts == [] then []
    else (if ts[0].Valued? && ts[0].name == name then [ts[0].value] else []) + ValuesOf(ts[1..], name)
  }

  /** The settings `s` after the options `ts`: the switches among them
      turn their flags on, the last include prefix given wins, and every
      exclude prefix given is appended in order. */
  function Settled(s: LegacySettings, ts: seq<OptionToken>): LegacySettings
  {
    var includes := ValuesOf(ts, "--include-prefix");
    s.(injectEntryLog := s.injectEntryLog || Switch("--log") in ts,
       dryRun := s.dryRun || Switch("--dry-run") in ts,
       includePrefix := if includes == [] then s.includePrefix else Some(includes[|includes| - 1]),
       excludePrefixes := s.excludePrefixes + ValuesOf(ts, "--exclude-prefix"))
  }

  /** Taking one more option first: its effect on the settings, then the rest. */
  lemma SettledStep(s: LegacySettings, t: OptionToken, rest: seq<OptionToken>)
    requires t.Switch? ==> t.name == "--log" || t.name == "--dry-run"
    requires t.Valued? ==> TakesValue(t.name)
    ensures var s' := if t.Valued? && t.name == "--include-prefix" then s.(includePrefix := Some(t.value))
                      else if t.Valued? then s.(excludePrefixes := s.excludePrefixes + [t.value])
                      else if t.name == "--log" then s.(injectEntryLog := true)
                      else s.(dryRun := true);
            Settled(s', rest) == Settled(s, [t] + rest)
  {
    var ts := [t] + rest;
    assert ts[1..] == rest;
    var includes, excludes := ValuesOf(rest, "--include-prefix"), ValuesOf(rest, "--exclude-prefix");
    assert (Switch("--log") in ts) == (t == Switch("--log") || Switch("--log") in rest);
    assert (Switch("--dry-run") in ts) == (t == Switch("--dry-run") || Switch("--dry-run") in rest);
    if t.Valued? && t.name == "--include-prefix" {
      assert ValuesOf(ts, "--include-prefix") == [t.value] + includes;
      assert ValuesOf(ts, "--exclude-prefix") == excludes;
    } else if t.Valued? {
      assert ValuesOf(ts, "--include-prefix") == includes;
      assert ValuesOf(ts, "--exclude-prefix") == [t.value] + excludes;
      assert s.excludePrefixes + [t.value] + excludes == s.excludePrefixes + ([t.value] + excludes);
    } else {
      assert ValuesOf(ts, "--include-prefix") == includes;
      assert ValuesOf(ts, "--exclude-prefix") == excludes;
    }
  }

  /** What the option loop yields from position `i` with settings `s`: when
      it reaches the end, a run with the settings after the options it took;
      when it stops early, a value option without a value and an unknown
      word fail with their messages, and `--help` or `-h` asks for the
      usage text. */
  lemma {:induction false} ParseFromMeaning(args: seq<string>, i: nat, s: LegacySettings)
    requires 2 <= i <= |args|
    ensures StopAt(args, i).None? ==> ParseFrom(args, i, s) == Run(args[0], args[1], Settled(s, Tokens(args, i)))
    ensures StopAt(args, i).Some? ==>
              var a := args[StopAt(args, i).value];
              && (TakesValue(a) ==> ParseFrom(args, i, s) == Failure(a + " needs value"))
              && (a == "--help" || a == "-h" ==> ParseFrom(args, i, s) == Help)
              && (!TakesValue(a) && a != "--help" && a != "-h" ==> ParseFrom(args, i, s) == Failure("Unknown arg: " + a))
    decreases |args| - i
  {
    if i == |args| {
      assert Settled(s, []) == s;
    } else if !Continues(args, i) {
      var a := args[i];
      if a == "--include-prefix" {
        assert a + " needs value" == "--include-prefix needs value";
      } else if a == "--exclude-prefix" {
        assert a + " needs value" == "--exclude-prefix needs value";
      }
    } else {
      var a := args[i];
      var t := if TakesValue(a) then Valued(a, args[i + 1]) else Switch(a);
      var s' := if t.Valued? && t.name == "--include-prefix" then s.(includePrefix := Some(t.value))
                else if t.Valued? then s.(excludePrefixes := s.excludePrefixes + [t.value])
                else if t.name == "--log" then s.(injectEntryLog := true)
                else s.(dryRun := true);
      assert ParseFrom(args, i, s) == ParseFrom(args, After(args, i), s');
      ParseFromMeaning(args, After(args, i), s');
      SettledStep(s, t, Tokens(args, After(args, i)));
    }
  }

  /** The whole command line read as tokens: entry logging and the dry run
      are on exactly when their switch is among the options, the include
      prefix is the last one given (none without one), and the exclude
      prefixes are the defaults followed by every one given, in order. */
  lemma ParseMeaning(args: seq<string>)
    requires |args| >= 2
    ensures var ts := Tokens(args, 2);
            var includes := ValuesOf(ts, "--include-prefix");
            StopAt(args, 2).None? ==>
              Parse(args)
              == Run(args[0], args[1],
                     LegacySettings(Switch("--log") in ts, Switch("--dry-run") in ts,
                                    if includes == [] then None else Some(includes[|includes| - 1]),
                                    DefaultExcludes + ValuesOf(ts, "--exclude-prefix")))
    ensures StopAt(args, 2).Some? ==>
              var a := args[StopAt(args, 2).value];
              && (TakesValue(a) ==> Parse(args) == Failure(a + " needs value"))
              && (a == "--help" || a == "-h" ==> Parse(args) == Help)
              && (!TakesValue(a) && a != "--help" && a != "-h" ==> Parse(args) == Failure("Unknown arg: " + a))
  {
    ParseFromMeaning(args, 2, LegacyDefaults);
  }

  /** Options only add to the settings: exclude prefixes are appended
      after those already there, and the flags never turn off. */
  lemma {:induction false} ParseFromExtends(args: seq<string>, i: nat, s: LegacySettings)
    requires 2 <= i <= |args|
    ensures var r := ParseFrom(args, i, s);
            r.Run? ==>
              && s.excludePrefixes <= r.settings.excludePrefixes
              && (s.injectEntryLog ==> r.settings.injectEntryLog)
              && (s.dryRun ==> r.settings.dryRun)
    decreases |args| - i
  {
    if i < |args| {
      var a := args[i];
      if a == "--include-prefix" || a == "--exclude-prefix" {
        if i + 1 < |args| {
          if a == "--include-prefix" {
            ParseFromExtends(args, i + 2, s.(includePrefix := Some(args[i + 1])));
          } else {
            var s' := s.(excludePrefixes := s.excludePrefixes + [args[i + 1]]);
            ParseFromExtends(args, i + 2, s');
            assert s.excludePrefixes <= s'.excludePrefixes;
          }
        }
      } else if a == "--log" {
        ParseFromExtends(args, i + 1, s.(injectEntryLog := true));
      } else if a == "--dry-run" {
        ParseFromExtends(args, i + 1, s.(dryRun := true));
      }
    }
  }

  /** The default exclude prefixes cannot be removed from the command line,
      only added to. */
  lemma DefaultExcludesKept(args: seq<string>)
    requires Parse(args).Run?
    ensures DefaultExcludes <= Parse(args).settings.excludePrefixes
  {
    ParseFromExtends(args, 2, LegacyDefaults);
  }

  /** Entry logging is on only when `--log` is among the arguments. */
  lemma {:induction false} LogOnlyWhenAsked(args: seq<string>, i: nat, s: LegacySettings)
    requires 2 <= i <= |args|
    ensures ParseFrom(args, i, s).Run? && !s.injectEntryLog && "--log" !in args[i..] ==>
              !ParseFrom(args, i, s).settings.injectEntryLog
    decreases |args| - i
  {
    if i < |args| {
      var a := args[i];
      assert args[i] == args[i..][0];
      if (a == "--include-prefix" || a == "--exclude-prefix") && i + 1 < |args| {
        var s' := if a == "--include-prefix" then s.(includePrefix := Some(args[i + 1]))
                  else s.(excludePrefixes := s.excludePrefixes + [args[i + 1]]);
        LogOnlyWhenAsked(args, i + 2, s');
        assert forall x :: x in args[i + 2..] ==> x in args[i..];
      } else if a == "--dry-run" {
        LogOnlyWhenAsked(args, i + 1, s.(dryRun := true));
        assert forall x :: x in args[i + 1..] ==> x in args[i..];
      }
    }
  }

  /** A command line with no `--log` among its options (the two paths may
      be named anything) transforms nothing and copies every kept entry as
      it is. */
  lemma WithoutLogNothingChanges(args: seq<string>, read: JarTransformer.ClassReading,
                                 write: JarTransformer.ClassWriting, ws: seq<Entry>)
    requires Parse(args).Run? && "--log" !in args[2..]
    ensures TransformedCount(Parse(args).settings, ws) == 0
    ensures LegacyOutputs(Parse(args).settings, read, write, ws) == ws
  {
    LogOnlyWhenAsked(args, 2, LegacyDefaults);
    NoLogNoChange(Parse(args).settings, read, write, ws);
  }

  /** The usage text's example: entry logging on, classes under
      `com/myapp/` only, the platform still excluded. */
  lemma UsageExample()
    ensures Parse(["in.jar", "out.jar", "--log", "--include-prefix", "com/myapp/"])
            == Run("in.jar", "out.jar", LegacySettings(true, false, Some("com/myapp/"), DefaultExcludes))
  {
    var args := ["in.jar", "out.jar", "--log", "--include-prefix", "com/myapp/"];
    var s1 := LegacyDefaults.(injectEntryLog := true);
    assert ParseFrom(args, 2, LegacyDefaults) == ParseFrom(args, 3, s1);
    assert ParseFrom(args, 3, s1) == ParseFrom(args, 5, s1.(includePrefix := Some("com/myapp/")));
  }

  const DonePrefix: string := "Done. Transformed classes: "
  const DryRunMark: string := " (dry-run)"

  /** The printed summary: the count's decimal text after the prefix,
      marked when nothing was written. */
  function DoneLine(count: int, dryRun: bool): (line: string)
    ensures StartsWith(line, DonePrefix)
    ensures dryRun <==> EndsWith(line, DryRunMark)
    ensures |DonePrefix| <= |line| - (if dryRun then |DryRunMark| else 0)
    ensures line[|DonePrefix|..|line| - (if dryRun then |DryRunMark| else 0)] == DecimalText(count)
  {
    var digits := DecimalText(count);
    var mark := if dryRun then DryRunMark else "";
    var l := DonePrefix + digits + mark;
    ThreeParts(DonePrefix, digits, mark);
    if dryRun then
      l
    else
      assert l[|l| - 1] == digits[|digits| - 1];
      l
  }

  /** The three parts of a concatenation can be cut back out of it. */
  lemma ThreeParts(a: string, b: string, c: string)
    ensures (a + b + c)[..|a|] == a
    ensures (a + b + c)[|a|..|a| + |b|] == b
    ensures (a + b + c)[|a| + |b|..] == c
  {
  }

  /** The option loop, changing a Config in place; on a run the Config
      holds the parsed settings. */
  method ParseArguments(args: seq<string>) returns (r: Outcome, cfg: LegacyConfig?)
    ensures r == Parse(args)
    ensures r.Run? ==> cfg != null && cfg.Value() == r.settings
  {
    if |args| < 2 {
      return Usage(2), null;
    }
    var c := new LegacyConfig();
    var i := 2;
    while i < |args|
      invariant 2 <= i <= |args|
      invariant ParseFrom(args, i, c.Value()) == Parse(args)
      decreases |args| - i
    {
      var a := args[i];
      if a == "--include-prefix" {
        if i + 1 >= |args| {
          return Failure("--include-prefix needs value"), null;
        }
        i := i + 1;
        c.includePrefix := Some(args[i]);
      } else if a == "--exclude-prefix" {
        if i + 1 >= |args| {
          return Failure("--exclude-prefix needs value"), null;
        }
        i := i + 1;
        c.excludePrefixes := c.excludePrefixes + [args[i]];
      } else if a == "--log" {
        c.injectEntryLog := true;
      } else if a == "--dry-run" {
        c.dryRun := true;
      } else if a == "--help" || a == "-h" {
        return Help, null;
      } else {
        return Failure("Unknown arg: " + a), null;
      }
      i := i + 1;
    }
    return Run(args[0], args[1], c.Value()), c;
  }

  /** main: parses the command line and, on a run, transforms the jar the
      input path names and prints the summary line. */
  method Execute(args: seq<string>, jar: Jar, read: JarTransformer.ClassReading, write: JarTransformer.ClassWriting)
    returns (r: Outcome, output: Option<Jar>, line: Option<string>)
    ensures r == Parse(args)
    ensures !r.Run? ==> output.None? && line.None?
    ensures r.Run? ==>
              var s := r.settings;
              var count := if s.dryRun then TransformedCount(s, jar.entries)
                           else TransformedCount(s, Written(jar.entries, jar.manifest.Some?));
              && line == Some(DoneLine(count, s.dryRun))
              && (s.dryRun ==> output.None?)
              && (!s.dryRun ==> output == Some(Jar(jar.manifest, LegacyOutputs(s, read, write, Written(jar.entries, jar.manifest.Some?)))))
  {
    var cfg;
    r, cfg := ParseArguments(args);
    if !r.Run? {
      return r, None, None;
    }
    var count;
    count, output := LegacyTransformJar(jar, cfg, read, write);
    line := Some(DoneLine(count, cfg.dryRun));
  }
}
