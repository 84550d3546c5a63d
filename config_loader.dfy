/** ConfigLoader: reading a Config from a parsed YAML document. Parsing the
    text is left to the YAML library; the model starts from its result. */
module ConfigLoader {
  import opened Common
  import opened Configuration

  /** The values the YAML library produces, as far as the loader tells them
      apart; `Other` carries the `toString` of anything else (a float, a
      nested mapping, a date). */
  datatype Yaml =
    | Null
    | Bool(b: bool)
    | Text(s: string)
    | Number(n: int)
    | List(items: seq<Yaml>)
    | Other(text: string)

  /** The loaded document: a mapping from keys to values, or anything else
      (an empty file, a scalar, a list). */
  datatype Document = Mapping(entries: map<string, Yaml>) | NotMapping(node: Yaml)

  /** `Map.get`: the value of the key, or null when it is absent. */
  function Get(m: map<string, Yaml>, k: string): Yaml
  {
    if k in m then m[k] else Null
  }

  /** `String.valueOf`; a list prints as `[a, b]`. */
  function ValueOf(v: Yaml): string
    decreases v, 1
  {
    match v
    case Null => "null"
    case Bool(b) => if b then "true" else "false"
    case Text(s) => s
    case Number(n) => DecimalText(n)
    case List(items) => "[" + Join(Texts(items), ", ") + "]"
    case Other(t) => t
  }

  /** The texts of list elements, one per element, in order. */
  function Texts(items: seq<Yaml>): (r: seq<string>)
    ensures |r| == |items|
    decreases items, 0
  {
    if items == [] then [] else [ValueOf(items[0])] + Texts(items[1..])
  }

  /** Element `i` of the texts is the text of element `i`. */
  lemma {:induction false} TextsAt(items: seq<Yaml>, i: nat)
    requires i < |items|
    ensures Texts(items)[i] == ValueOf(items[i])
    decreases |items|
  {
    if i > 0 {
      TextsAt(items[1..], i - 1);
    }
  }

  function Join(parts: seq<string>, sep: string): string
  {
    if |parts| == 0 then ""
    else if |parts| == 1 then parts[0]
    else parts[0] + sep + Join(parts[1..], sep)
  }

  /** `Boolean.parseBoolean`: true exactly for "true" in any case. */
  predicate ParseBoolean(s: string)
  {
    EqualsIgnoreCase("true", s)
  }

  /** getBool: a boolean as is, a string parsed, anything else (absent
      included) the default. */
  function GetBool(m: map<string, Yaml>, k: string, d: bool): (r: bool)
    ensures k !in m ==> r == d
    ensures k in m && m[k].Bool? ==> r == m[k].b
    ensures k in m && m[k].Text? ==> (r <==> ParseBoolean(m[k].s))
    ensures k in m && !m[k].Bool? && !m[k].Text? ==> r == d
  {
    match Get(m, k)
    case Bool(b) => b
    case Text(s) => ParseBoolean(s)
    case _ => d
  }

  /** getStr: the text of the value, or the default when the key is absent
      or null. */
  function GetStr(m: map<string, Yaml>, k: string, d: string): (r: string)
    ensures Get(m, k).Null? ==> r == d
    ensures Get(m, k).Text? ==> r == Get(m, k).s
    ensures !Get(m, k).Null? ==> r == ValueOf(m[k])
  {
    var v := Get(m, k);
    if v.Null? then d else ValueOf(v)
  }

  /** getStrOrNull: the text of the value, or null when the key is absent
      or null. */
  function GetStrOrNull(m: map<string, Yaml>, k: string): (r: Option<string>)
    ensures r.None? <==> Get(m, k).Null?
    ensures r.Some? ==> r.value == ValueOf(m[k])
  {
    var v := Get(m, k);
    if v.Null? then None else Some(ValueOf(v))
  }

  /** getStrList, as a value: a list becomes the texts of its elements, in
      order; anything else (absent and null included) the default. */
  function StrList(m: map<string, Yaml>, k: string, d: seq<string>): (r: seq<string>)
    ensures Get(m, k).List? ==> r == Texts(m[k].items)
    ensures !Get(m, k).List? ==> r == d
  {
    match Get(m, k)
    case List(items) => Texts(items)
    case _ => d
  }

  /** getStrList: converts the list element by element. */
  method GetStrList(m: map<string, Yaml>, k: string, d: seq<string>) returns (r: seq<string>)
    ensures r == StrList(m, k, d)
  {
    var v := Get(m, k);
    if v.Null? {
      return d;
    }
    if v.List? {
      var out: seq<string> := [];
      var i := 0;
      while i < |v.items|
        invariant 0 <= i <= |v.items|
        invariant |out| == i
        invariant forall j :: 0 <= j < i ==> out[j] == Texts(v.items)[j]
      {
        TextsAt(v.items, i);
        out := out + [ValueOf(v.items[i])];
        i := i + 1;
      }
      return out;
    }
    return d;
  }

  /** The Config `load` returns for a document. */
  function Loaded(doc: Document): (r: Settings)
    ensures doc.NotMapping? ==> r == Defaults
    ensures r.dryRun == Defaults.dryRun && r.reportPath == Defaults.reportPath
  {
    match doc
    case NotMapping(_) => Defaults
    case Mapping(m) =>
      Defaults.(
        entryLog := GetBool(m, "entryLog", Defaults.entryLog),
        timing := GetBool(m, "timing", Defaults.timing),
        logger := GetStr(m, "logger", Defaults.logger),
        logPrefix := GetStr(m, "logPrefix", Defaults.logPrefix),
        includeClassRegex := GetStrOrNull(m, "includeClassRegex"),
        includeMethodRegex := GetStrOrNull(m, "includeMethodRegex"),
        requireAnnotationDesc := GetStrOrNull(m, "requireAnnotationDesc"),
        excludeClassRegex := StrList(m, "excludeClassRegex", Defaults.excludeClassRegex),
        excludeMethodRegex := StrList(m, "excludeMethodRegex", Defaults.excludeMethodRegex))
  }

  /** load: a fresh Config with the defaults, overwritten by the keys the
      document maps. */
  method Load(doc: Document) returns (cfg: Config)
    ensures fresh(cfg)
    ensures cfg.Value() == Loaded(doc)
  {
    cfg := new Config();
    if doc.NotMapping? {
      return;
    }
    var s := ReadKeys(doc.entries);
    cfg.Assign(s);
  }

  /** The reads `load` performs on a mapping, each falling back to the
      default of its field. */
  method ReadKeys(m: map<string, Yaml>) returns (s: Settings)
    ensures s == Loaded(Mapping(m))
  {
    var d := Defaults;
    var excludeClasses := GetStrList(m, "excludeClassRegex", d.excludeClassRegex);
    var excludeMethods := GetStrList(m, "excludeMethodRegex", d.excludeMethodRegex);
    s := d.(
      entryLog := GetBool(m, "entryLog", d.entryLog),
      timing := GetBool(m, "timing", d.timing),
      logger := GetStr(m, "logger", d.logger),
      logPrefix := GetStr(m, "logPrefix", d.logPrefix),
      includeClassRegex := GetStrOrNull(m, "includeClassRegex"),
      includeMethodRegex := GetStrOrNull(m, "includeMethodRegex"),
      requireAnnotationDesc := GetStrOrNull(m, "requireAnnotationDesc"),
      excludeClassRegex := excludeClasses,
      excludeMethodRegex := excludeMethods);
  }

  /** A key the document does not mention leaves its setting at the default. */
  lemma AbsentKeysKeepDefaults(m: map<string, Yaml>)
    ensures "entryLog" !in m ==> !Loaded(Mapping(m)).entryLog
    ensures "timing" !in m ==> !Loaded(Mapping(m)).timing
    ensures "logger" !in m ==> Loaded(Mapping(m)).logger == "stdout"
    ensures "logPrefix" !in m ==> Loaded(Mapping(m)).logPrefix == "[BC]"
    ensures "includeClassRegex" !in m ==> Loaded(Mapping(m)).includeClassRegex.None?
    ensures "includeMethodRegex" !in m ==> Loaded(Mapping(m)).includeMethodRegex.None?
    ensures "requireAnnotationDesc" !in m ==> Loaded(Mapping(m)).requireAnnotationDesc.None?
    ensures "excludeClassRegex" !in m ==> Loaded(Mapping(m)).excludeClassRegex == []
    ensures "excludeMethodRegex" !in m ==> Loaded(Mapping(m)).excludeMethodRegex == []
  {
  }

  /** The document a user writes to state settings `s` directly: booleans as
      booleans, strings as strings, an unset regex left out, lists as lists
      of strings. */
  function Stated(s: Settings): Document
  {
    Mapping(map[
      "entryLog" := Bool(s.entryLog),
      "timing" := Bool(s.timing),
      "logger" := Text(s.logger),
      "logPrefix" := Text(s.logPrefix),
      "includeClassRegex" := OptionalText(s.includeClassRegex),
      "includeMethodRegex" := OptionalText(s.includeMethodRegex),
      "requireAnnotationDesc" := OptionalText(s.requireAnnotationDesc),
      "excludeClassRegex" := TextList(s.excludeClassRegex),
      "excludeMethodRegex" := TextList(s.excludeMethodRegex)])
  }

  function OptionalText(o: Option<string>): Yaml
  {
    if o.Some? then Text(o.value) else Null
  }

  function TextList(xs: seq<string>): Yaml
  {
    List(TextItems(xs))
  }

  function TextItems(xs: seq<string>): seq<Yaml>
  {
    if xs == [] then [] else [Text(xs[0])] + TextItems(xs[1..])
  }

  /** A list of strings stated in YAML reads back as the same strings. */
  lemma {:induction false} TextsOfTextItems(xs: seq<string>)
    ensures Texts(TextItems(xs)) == xs
  {
    if xs != [] {
      TextsOfTextItems(xs[1..]);
      assert TextItems(xs)[1..] == TextItems(xs[1..]);
    }
  }

  /** Loading a document that states every setting gives those settings
      back; only the command-line-only ones (dry run, report path) keep
      their defaults. */
  lemma LoadRoundTrip(s: Settings)
    ensures Loaded(Stated(s)) == s.(dryRun := false, reportPath := None)
  {
    StatedScalarsRead(s);
    StatedListsRead(s);
  }

  /** The flags, the logger, the prefix and the patterns read back. */
  lemma StatedScalarsRead(s: Settings)
    ensures var r := Loaded(Stated(s));
            && r.entryLog == s.entryLog && r.timing == s.timing
            && r.logger == s.logger && r.logPrefix == s.logPrefix
            && r.includeClassRegex == s.includeClassRegex
            && r.includeMethodRegex == s.includeMethodRegex
            && r.requireAnnotationDesc == s.requireAnnotationDesc
  {
  }

  /** The two exclude lists read back. */
  lemma StatedListsRead(s: Settings)
    ensures Loaded(Stated(s)).excludeClassRegex == s.excludeClassRegex
    ensures Loaded(Stated(s)).excludeMethodRegex == s.excludeMethodRegex
  {
    TextsOfTextItems(s.excludeClassRegex);
    TextsOfTextItems(s.excludeMethodRegex);
  }
}
