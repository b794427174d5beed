/**
 * `processor.detectLanguage` (internal/processor/language.go): the
 * programming language of a file, from its extension alone.
 */
module Language {
  import opened Paths

  /** The language of each known extension, as one table. */
  const KnownExtensions: map<string, string> := map[
    ".go" := "go", ".py" := "python", ".js" := "javascript", ".java" := "java",
    ".cpp" := "cpp", ".hpp" := "cpp", ".cc" := "cpp", ".hh" := "cpp",
    ".c" := "c", ".h" := "c"]

  /** The `switch` on the extension. */
  function LanguageOfExt(ext: string): string {
    if ext == ".go" then "go"
    else if ext == ".py" then "python"
    else if ext == ".js" then "javascript"
    else if ext == ".java" then "java"
    else if ext == ".cpp" || ext == ".hpp" || ext == ".cc" || ext == ".hh" then "cpp"
    else if ext == ".c" || ext == ".h" then "c"
    else "unknown"
  }

  function DetectLanguage(path: string): string {
    LanguageOfExt(Ext(path))
  }

  /** The switch is the table, with "unknown" for every extension not in it. */
  lemma SwitchIsTable(ext: string)
    ensures LanguageOfExt(ext) == if ext in KnownExtensions then KnownExtensions[ext] else "unknown"
  {
  }

  /** Two paths with the same extension get the same language. */
  lemma OnlyExtensionMatters(p: string, q: string)
    requires Ext(p) == Ext(q)
    ensures DetectLanguage(p) == DetectLanguage(q)
  {
  }

  /** A path without an extension is "unknown". */
  lemma NoExtensionIsUnknown(path: string)
    requires Ext(path) == ""
    ensures DetectLanguage(path) == "unknown"
  {
  }

  /** The result is "unknown" exactly when the extension is not one of the ten known. */
  lemma UnknownIffNotKnown(path: string)
    ensures DetectLanguage(path) == "unknown" <==> Ext(path) !in KnownExtensions
  {
    SwitchIsTable(Ext(path));
  }
}
