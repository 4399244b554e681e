/** The editor's language detection, `getLanguageFromPath` in lib/utils.ts:
    the lower-cased text after the last "." of a path, looked up in a fixed
    table, with "plaintext" for anything else. */
module Utils {
  import opened Js

  /** `path.split(".").pop()`: the longest suffix without a ".". */
  function LastSegment(path: string): (r: string)
    ensures '.' !in r
    ensures |r| <= |path| && path[|path| - |r|..] == r
    ensures |r| < |path| ==> path[|path| - |r| - 1] == '.'
    decreases |path|
  {
    if |path| == 0 then ""
    else if path[|path| - 1] == '.' then ""
    else
      var init := path[..|path| - 1];
      var q := LastSegment(init);
      var n := |init| - |q|;
      assert path[n..] == init[n..] + [path[|path| - 1]];
      assert n > 0 ==> path[n - 1] == init[n - 1];
      q + [path[|path| - 1]]
  }

  /** The lookup key: the last segment, lower-cased. */
  function Extension(path: string): string {
    AsciiLower(LastSegment(path))
  }

  /** The extension table. */
  const LANGUAGE_MAP: map<string, string> := map[
    "js" := "javascript", "jsx" := "javascript",
    "ts" := "typescript", "tsx" := "typescript",
    "py" := "python", "json" := "json", "html" := "html", "css" := "css", "scss" := "scss",
    "md" := "markdown", "yml" := "yaml", "yaml" := "yaml",
    "sh" := "shell", "bash" := "shell", "zsh" := "shell",
    "go" := "go", "rs" := "rust", "java" := "java", "cpp" := "cpp", "c" := "c",
    "php" := "php", "rb" := "ruby", "swift" := "swift", "kt" := "kotlin"]

  const PLAINTEXT: string := "plaintext"

  /** A lookup in a table's own entries, with "plaintext" for a missing
      key. */
  function LookupIn(table: map<string, string>, key: string): (lang: string)
    ensures lang == PLAINTEXT || lang in table.Values
    ensures key in table ==> lang == table[key]
    ensures key !in table ==> lang == PLAINTEXT
  {
    if key in table then table[key] else PLAINTEXT
  }

  /** The language of a path, looking up only the table's own entries. */
  function GetLanguageFromPath(path: string): string {
    LookupIn(LANGUAGE_MAP, Extension(path))
  }

  /** The language is the table's entry for the extension when there is
      one, "plaintext" otherwise, and so always a table value or
      "plaintext". */
  lemma LanguageIsKnown(path: string)
    ensures Extension(path) in LANGUAGE_MAP ==> GetLanguageFromPath(path) == LANGUAGE_MAP[Extension(path)]
    ensures Extension(path) !in LANGUAGE_MAP ==> GetLanguageFromPath(path) == PLAINTEXT
    ensures GetLanguageFromPath(path) == PLAINTEXT || GetLanguageFromPath(path) in LANGUAGE_MAP.Values
  {
  }

  /** Only the text after the last "." counts. */
  lemma AfterLastDot(a: string, b: string)
    requires '.' !in b
    ensures LastSegment(a + "." + b) == b
  {
    var t := a + "." + b;
    assert t[|t| - |b| - 1] == '.';
    assert t[|t| - |b|..] == b;
  }

  /** A path without a "." is looked up whole. */
  lemma NoDotIsWhole(path: string)
    requires '.' !in path
    ensures LastSegment(path) == path
  {
  }

  /** The language of `a.e`, for an extension `e` without a ".", is the
      language of `e` alone. */
  lemma LanguageOfExtension(a: string, e: string)
    requires '.' !in e
    ensures GetLanguageFromPath(a + "." + e) == GetLanguageFromPath(e)
    ensures Extension(a + "." + e) == Extension(e) == AsciiLower(e)
  {
    AfterLastDot(a, e);
    NoDotIsWhole(e);
  }

  /** No "." and no capital letter. */
  predicate PlainKey(s: string) {
    forall i :: 0 <= i < |s| ==> s[i] != '.' && !('A' <= s[i] <= 'Z')
  }

  /** No capital letter. */
  predicate NoUpper(s: string) {
    forall i :: 0 <= i < |s| ==> !('A' <= s[i] <= 'Z')
  }

  lemma LowerOfNoUpper(s: string)
    requires NoUpper(s)
    ensures AsciiLower(s) == s
  {
  }

  /** A lower-cased string has no capital letter. */
  lemma ExtensionNoUpper(path: string)
    ensures NoUpper(Extension(path))
  {
  }

  /** A plain extension is its own lookup key. */
  lemma LanguageOfKey(a: string, e: string)
    requires PlainKey(e)
    ensures GetLanguageFromPath(a + "." + e) == (if e in LANGUAGE_MAP then LANGUAGE_MAP[e] else PLAINTEXT)
  {
    assert '.' !in e by {
      forall i | 0 <= i < |e| ensures e[i] != '.' {}
    }
    LanguageOfExtension(a, e);
    LowerOfNoUpper(e);
  }

  /** Example of LanguageOfKey: with several dots, only the last extension
      is looked up. */
  lemma PythonKey()
    ensures PlainKey("py") && "py" in LANGUAGE_MAP && LANGUAGE_MAP["py"] == "python"
  {
  }

  lemma PythonOfLastExtension()
    ensures GetLanguageFromPath("a.b.py") == "python"
  {
    PythonKey();
    LanguageOfKey("a.b", "py");
  }

  /** Example of LanguageOfExtension: the extension is lower-cased before
      the lookup. */
  lemma LowerTs()
    ensures AsciiLower("TS") == "ts" && '.' !in "TS"
    ensures "ts" in LANGUAGE_MAP && LANGUAGE_MAP["ts"] == "typescript"
  {
  }

  lemma TypeScriptInCapitals()
    ensures GetLanguageFromPath("X.TS") == "typescript"
  {
    LowerTs();
    LanguageOfExtension("X", "TS");
  }

  /** Example of NoDotIsWhole: a name without a dot is looked up whole,
      here with no entry in the table. */
  lemma LowerMakefile()
    ensures AsciiLower("Makefile") == "makefile" && '.' !in "Makefile" && "makefile" !in LANGUAGE_MAP
  {
  }

  lemma MakefileIsPlaintext()
    ensures GetLanguageFromPath("Makefile") == PLAINTEXT
  {
    LowerMakefile();
    NoDotIsWhole("Makefile");
  }

  lemma JavaScriptKeys()
    ensures PlainKey("js") && PlainKey("jsx") && "js" in LANGUAGE_MAP && "jsx" in LANGUAGE_MAP
    ensures LANGUAGE_MAP["js"] == "javascript" && LANGUAGE_MAP["jsx"] == "javascript"
  {
  }

  lemma TypeScriptKeys()
    ensures PlainKey("ts") && PlainKey("tsx") && "ts" in LANGUAGE_MAP && "tsx" in LANGUAGE_MAP
    ensures LANGUAGE_MAP["ts"] == "typescript" && LANGUAGE_MAP["tsx"] == "typescript"
  {
  }

  lemma YamlKeys()
    ensures PlainKey("yml") && PlainKey("yaml") && "yml" in LANGUAGE_MAP && "yaml" in LANGUAGE_MAP
    ensures LANGUAGE_MAP["yml"] == "yaml" && LANGUAGE_MAP["yaml"] == "yaml"
  {
  }

  lemma ShellKeys()
    ensures PlainKey("sh") && PlainKey("bash") && PlainKey("zsh")
    ensures "sh" in LANGUAGE_MAP && "bash" in LANGUAGE_MAP && "zsh" in LANGUAGE_MAP
    ensures LANGUAGE_MAP["sh"] == "shell" && LANGUAGE_MAP["bash"] == "shell" && LANGUAGE_MAP["zsh"] == "shell"
  {
  }

  /** Extensions sharing a language. */
  lemma JavaScriptExtensions(a: string)
    ensures GetLanguageFromPath(a + ".js") == GetLanguageFromPath(a + ".jsx") == "javascript"
  {
    assert a + ".js" == a + "." + "js" && a + ".jsx" == a + "." + "jsx";
    JavaScriptKeys();
    LanguageOfKey(a, "js");
    LanguageOfKey(a, "jsx");
  }

  lemma TypeScriptExtensions(a: string)
    ensures GetLanguageFromPath(a + ".ts") == GetLanguageFromPath(a + ".tsx") == "typescript"
  {
    assert a + ".ts" == a + "." + "ts" && a + ".tsx" == a + "." + "tsx";
    TypeScriptKeys();
    LanguageOfKey(a, "ts");
    LanguageOfKey(a, "tsx");
  }

  lemma YamlExtensions(a: string)
    ensures GetLanguageFromPath(a + ".yml") == GetLanguageFromPath(a + ".yaml") == "yaml"
  {
    assert a + ".yml" == a + "." + "yml" && a + ".yaml" == a + "." + "yaml";
    YamlKeys();
    LanguageOfKey(a, "yml");
    LanguageOfKey(a, "yaml");
  }

  lemma ShellExtensions(a: string)
    ensures GetLanguageFromPath(a + ".sh") == GetLanguageFromPath(a + ".bash") == GetLanguageFromPath(a + ".zsh") == "shell"
  {
    assert a + ".sh" == a + "." + "sh" && a + ".bash" == a + "." + "bash" && a + ".zsh" == a + "." + "zsh";
    ShellKeys();
    LanguageOfKey(a, "sh");
    LanguageOfKey(a, "bash");
    LanguageOfKey(a, "zsh");
  }

  // ---------------------------------------------------------------------
  // The lookup as written: a property read on a plain object literal

  /** The names `Object.prototype` gives every object literal. */
  const INHERITED: set<string> := {
    "constructor", "__proto__", "hasOwnProperty", "isPrototypeOf", "propertyIsEnumerable",
    "toString", "toLocaleString", "valueOf",
    "__defineGetter__", "__defineSetter__", "__lookupGetter__", "__lookupSetter__"}

  /** What a property read on the table can yield. */
  datatype JsValue = JsString(s: string) | Inherited(name: string) | JsUndefined

  /** Inherited members are functions or objects, so truthy. */
  predicate JsTruthy(v: JsValue) {
    match v
    case JsString(s) => s != ""
    case Inherited(_) => true
    case JsUndefined => false
  }

  /** `table[key] || "plaintext"` on an object literal: an own entry, else
      an inherited member, else the default. */
  function AsWrittenIn(table: map<string, string>, inherited: set<string>, key: string): (v: JsValue)
    requires forall k :: k in table ==> table[k] != ""
    ensures key in table ==> v == JsString(table[key])
    ensures key !in table && key in inherited ==> v == Inherited(key)
    ensures key !in table && key !in inherited ==> v == JsString(PLAINTEXT)
  {
    var v := if key in table then JsString(table[key])
             else if key in inherited then Inherited(key)
             else JsUndefined;
    if JsTruthy(v) then v else JsString(PLAINTEXT)
  }

  /** No table entry is the empty string. */
  lemma TableValuesNonEmpty()
    ensures forall k :: k in LANGUAGE_MAP ==> LANGUAGE_MAP[k] != ""
  {
  }

  /** `languageMap[ext || ""] || "plaintext"` as the source writes it. */
  function GetLanguageFromPathAsWritten(path: string): JsValue {
    TableValuesNonEmpty();
    AsWrittenIn(LANGUAGE_MAP, INHERITED, Extension(path))
  }

  /** Away from the inherited names, the object lookup is the table
      lookup. */
  lemma AsWrittenInAgrees(table: map<string, string>, inherited: set<string>, key: string)
    requires forall k :: k in table ==> table[k] != ""
    requires key !in inherited
    ensures AsWrittenIn(table, inherited, key) == JsString(LookupIn(table, key))
  {
  }

  lemma ConstructorKey()
    ensures PlainKey("constructor") && "constructor" !in LANGUAGE_MAP && "constructor" in INHERITED
  {
  }

  lemma ConstructorExtension()
    ensures Extension("main.constructor") == "constructor"
  {
    assert "main.constructor" == "main" + "." + "constructor";
    ConstructorKey();
    assert '.' !in "constructor" by {
      forall i | 0 <= i < |"constructor"| ensures "constructor"[i] != '.' {}
    }
    AfterLastDot("main", "constructor");
    LowerOfNoUpper("constructor");
  }

  /** A file named "main.constructor" gets `Object` itself as its
      language, not a string. */
  lemma ConstructorExtensionIsNotALanguage()
    ensures GetLanguageFromPathAsWritten("main.constructor") == Inherited("constructor")
    ensures GetLanguageFromPath("main.constructor") == PLAINTEXT
  {
    ConstructorExtension();
    ConstructorKey();
    TableValuesNonEmpty();
  }

  /** A string without capitals differs from any name with one. */
  lemma NotNamed(e: string, name: string, i: nat)
    requires NoUpper(e) && i < |name| && 'A' <= name[i] <= 'Z'
    ensures e != name
  {
  }

  /** Of the inherited names, one without capitals is "constructor" or
      "__proto__". */
  lemma ReachableInherited(e: string)
    requires NoUpper(e)
    ensures e in INHERITED ==> e == "constructor" || e == "__proto__"
  {
    NotNamed(e, "hasOwnProperty", 3);
    NotNamed(e, "isPrototypeOf", 2);
    NotNamed(e, "propertyIsEnumerable", 8);
    NotNamed(e, "toString", 2);
    NotNamed(e, "toLocaleString", 2);
    NotNamed(e, "valueOf", 5);
    NotNamed(e, "__defineGetter__", 8);
    NotNamed(e, "__defineSetter__", 8);
    NotNamed(e, "__lookupGetter__", 8);
    NotNamed(e, "__lookupSetter__", 8);
  }

  lemma InheritedLowerKeys()
    ensures "constructor" !in LANGUAGE_MAP && "__proto__" !in LANGUAGE_MAP
    ensures "constructor" in INHERITED && "__proto__" in INHERITED
  {
  }

  /** The source's lookup agrees with `GetLanguageFromPath` on every path
      whose extension is neither "constructor" nor "__proto__", and yields
      a non-string on exactly those. */
  lemma AsWrittenAgreesElsewhere(path: string)
    ensures Extension(path) != "constructor" && Extension(path) != "__proto__" ==>
      GetLanguageFromPathAsWritten(path) == JsString(GetLanguageFromPath(path))
    ensures GetLanguageFromPathAsWritten(path).JsString? <==>
      Extension(path) != "constructor" && Extension(path) != "__proto__"
  {
    var e := Extension(path);
    ExtensionNoUpper(path);
    ReachableInherited(e);
    InheritedLowerKeys();
    TableValuesNonEmpty();
    if e != "constructor" && e != "__proto__" {
      AsWrittenInAgrees(LANGUAGE_MAP, INHERITED, e);
    }
  }
}
