/**
 * The extension classifier `check_type` and the built-in list of recognised
 * extensions that `init` loads into the type list.
 */
module Classifier {
  import opened JsString

  /** `default_type_list`: the extensions recognised when no `-t` is given. */
  const DefaultTypeList: seq<string> :=
    ["c", "cpp", "h", "hpp", "cs", "java", "py", "ts", "js",
     "html", "css", "lua", "m", "go", "php", "txt"]

  /** The key `check_type` looks up: `filename.slice(filename.lastIndexOf('.') + 1)`. */
  function TypeKey(filename: string): (key: string)
    ensures |key| <= |filename|
  {
    Slice(filename, LastIndexOf(filename, '.') + 1)
  }

  /**
   * The key is the longest suffix of the whole (joined) path that holds no
   * '.': the whole path when the path has no '.', and "" when it ends in '.'.
   */
  lemma TypeKeySpec(filename: string)
    ensures var key := TypeKey(filename);
      '.' !in key &&
      |key| <= |filename| && key == filename[|filename| - |key|..] &&
      (key == filename || filename[|filename| - |key| - 1] == '.')
  {
    var dot := LastIndexOf(filename, '.');
    LastIndexOfSpec(filename, '.');
    SliceSpec(filename, dot + 1);
    assert dot == -1 ==> TypeKey(filename) == filename;
  }

  /** `check_type`: a path is in scope when its key is in the type list. */
  predicate CheckType(filename: string, types: set<string>)
  {
    TypeKey(filename) in types
  }

  /**
   * The three properties of `TypeKey` determine it: any dot-free suffix that
   * is the whole path or is preceded by a '.' is the key.
   */
  lemma TypeKeyUnique(filename: string, key: string)
    requires '.' !in key
    requires |key| <= |filename| && key == filename[|filename| - |key|..]
    requires key == filename || filename[|filename| - |key| - 1] == '.'
    ensures key == TypeKey(filename)
  {
    TypeKeySpec(filename);
  }

  /** With no '.' anywhere in the path, the key is the whole path, not "". */
  lemma NoDotKeyIsWholePath(filename: string, types: set<string>)
    requires '.' !in filename
    ensures TypeKey(filename) == filename
    ensures CheckType(filename, types) <==> filename in types
  {
    TypeKeySpec(filename);
  }

  /** A path ending in '.' has the key "". */
  lemma TrailingDotKeyIsEmpty(filename: string, types: set<string>)
    requires |filename| > 0 && filename[|filename| - 1] == '.'
    ensures TypeKey(filename) == ""
    ensures CheckType(filename, types) <==> "" in types
  {
    TypeKeySpec(filename);
  }

  /** The key is what follows the last '.', whatever comes before it. */
  lemma KeyAfterLastDot(filename: string, prefix: string, ext: string, types: set<string>)
    requires filename == prefix + "." + ext && '.' !in ext
    ensures TypeKey(filename) == ext
    ensures CheckType(filename, types) <==> ext in types
  {
    assert filename[|filename| - |ext|..] == ext;
    TypeKeyUnique(filename, ext);
  }
}
