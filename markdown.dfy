/**
 * The markdown serialiser (internal/processor/markdown/generator.go): a
 * table of contents of the file paths, then one section per file with its
 * header fields and its code, optionally comment-stripped, line-numbered and
 * wrapped in a fenced code block.
 */
module Markdown {
  import opened Wrappers
  import opened Text
  import opened Decimal
  import opened Paths
  import opened FileSystem
  import opened Processor
  import Comments
  import LineNumbers

  /** The generator's switches. */
  datatype Config = Config(noCodeBlock: bool, lineNumbers: bool, stripComments: bool)

  /**
   * What generating gives: the document, or the panic of the Python comment
   * stripper, which stops the program before anything is returned.
   */
  datatype Rendered = Rendered(text: string) | Panicked

  /** Zero-padded fields, each followed by its separator. */
  function Fields(values: seq<nat>, widths: seq<nat>, seps: seq<string>): string
    requires |values| == |widths| == |seps|
    decreases |values|
  {
    if |values| == 0 then ""
    else ZeroPad(values[0], widths[0]) + seps[0] + Fields(values[1..], widths[1..], seps[1..])
  }

  /** `t.Format("2006-01-02 15:04:05")`. */
  function FormatTime(t: Time): string {
    Fields([t.year, t.month, t.day, t.hour, t.minute, t.second], [4, 2, 2, 2, 2, 2], ["-", "-", " ", ":", ":", ""])
  }

  /** The table-of-contents entries of `files`, one line each, in order. */
  function Toc(files: seq<FileInfo>): string {
    if |files| == 0 then "" else Toc(files[..|files| - 1]) + "- " + files[|files| - 1].path + "\n"
  }

  /** The title line of a file's section, and the empty line after it. */
  function Title(path: string): string {
    "## File: " + path + "\n\n"
  }

  /** The header of a file's section, up to the code. */
  function Header(file: FileInfo): string {
    Title(file.path) + Metadata(file) + "### Code\n\n"
  }

  /** The metadata lines of a file's section; the extension is taken from the path. */
  function Metadata(file: FileInfo): string {
    "- Extension: " + Ext(file.path) + "\n"
    + "- Language: " + file.language + "\n"
    + "- Size: " + Itoa(file.size) + " bytes\n"
    + "- Created: " + FormatTime(file.created) + "\n"
    + "- Modified: " + FormatTime(file.modified) + "\n\n"
  }

  /** The code as the section shows it: stripped first when asked, then numbered when asked. */
  function Code(config: Config, file: FileInfo): Option<string> {
    var stripped := if config.stripComments then Comments.StripComments(file.content, file.language)
      else Comments.Stripped(file.content);
    match stripped
    case Panic => None
    case Stripped(text) => Some(if config.lineNumbers then LineNumbers.Numbered(text) else text)
  }

  /** The code in a fenced block named after the language, or bare. */
  function Wrapped(config: Config, language: string, code: string): string {
    if !config.noCodeBlock then "```" + language + "\n" + code + "\n```\n\n" else code + "\n\n"
  }

  /** The section of one file; None when stripping its comments panics. */
  function Section(config: Config, file: FileInfo): Option<string> {
    match Code(config, file)
    case None => None
    case Some(code) => Some(Header(file) + Wrapped(config, file.language, code))
  }

  /** Parts written one after another; None as soon as one of them is None. */
  function Concat(parts: seq<Option<string>>): Option<string> {
    if |parts| == 0 then Some("")
    else
      match Concat(parts[..|parts| - 1])
      case None => None
      case Some(before) =>
        match parts[|parts| - 1]
        case None => None
        case Some(last) => Some(before + last)
  }

  /** The section of each file, in order. */
  function SectionList(config: Config, files: seq<FileInfo>): (r: seq<Option<string>>)
    ensures |r| == |files|
  {
    seq(|files|, i requires 0 <= i < |files| => Section(config, files[i]))
  }

  /** The sections of `files` one after another; None as soon as one panics. */
  function Sections(config: Config, files: seq<FileInfo>): Option<string> {
    Concat(SectionList(config, files))
  }

  const TocTitle := "# Table of Contents\n"

  /** The whole document. */
  function Document(config: Config, files: seq<FileInfo>): Rendered {
    match Sections(config, files)
    case None => Panicked
    case Some(body) => Rendered(TocTitle + Toc(files) + "\n" + body)
  }

  /** `Generator`. */
  class Generator {
    const config: Config

    /** `NewGenerator`. */
    constructor (config: Config)
      ensures this.config == config
    {
      this.config := config;
    }

    /**
     * `Generate`: the table of contents, then the sections, written in two
     * passes over `files`.  It has no error of its own to return.
     */
    method Generate(files: seq<FileInfo>) returns (r: Rendered)
      ensures r == Document(config, files)
    {
      var content := WriteToc(files);
      r := WriteSections(files, content);
    }

    /** The first pass of `Generate`: the title and one table-of-contents line per file. */
    method WriteToc(files: seq<FileInfo>) returns (content: string)
      ensures content == TocTitle + Toc(files) + "\n"
    {
      content := TocTitle;
      for i := 0 to |files|
        invariant content == TocTitle + Toc(files[..i])
      {
        assert files[..i + 1][..i] == files[..i];
        content := content + "- " + files[i].path + "\n";
      }
      assert files[..|files|] == files;
      content := content + "\n";
    }

    /** The second pass of `Generate`: the section of each file after what is written already. */
    method WriteSections(files: seq<FileInfo>, head: string) returns (r: Rendered)
      ensures Sections(config, files).None? ==> r == Panicked
      ensures Sections(config, files).Some? ==> r == Rendered(head + Sections(config, files).value)
    {
      var content := head;
      ghost var parts := SectionList(config, files);
      for i := 0 to |files|
        invariant Concat(parts[..i]).Some?
        invariant content == head + Concat(parts[..i]).value
      {
        var section := GenerateFileSection(files[i]);
        ConcatStep(parts, i, section, head, content);
        if section.Panicked? {
          PanicPersists(parts, i + 1);
          return Panicked;
        }
        content := content + section.text;
      }
      assert parts[..|files|] == parts;
      r := Rendered(content);
    }

    /** The header lines of `generateFileSection`: the title, the metadata, then the code heading. */
    method WriteHeader(file: FileInfo) returns (section: string)
      ensures section == Header(file)
    {
      section := "## File: " + file.path + "\n\n";
      var metadata := "- Extension: " + Ext(file.path) + "\n";
      metadata := metadata + "- Language: " + file.language + "\n";
      metadata := metadata + "- Size: " + Itoa(file.size) + " bytes\n";
      metadata := metadata + "- Created: " + FormatTime(file.created) + "\n";
      metadata := metadata + "- Modified: " + FormatTime(file.modified) + "\n\n";
      section := section + metadata + "### Code\n\n";
    }

    /** `generateFileSection`: the header lines, then the code. */
    method GenerateFileSection(file: FileInfo) returns (r: Rendered)
      ensures r.Panicked? <==> Section(config, file).None?
      ensures r.Rendered? ==> r.text == Section(config, file).value
    {
      var section := WriteHeader(file);
      var content := file.content;
      if config.stripComments {
        var stripped := Comments.StripComments(content, file.language);
        if stripped.Panic? {
          return Panicked;
        }
        content := stripped.text;
      }
      ghost var beforeNumbers := content;
      if config.lineNumbers {
        content := LineNumbers.AddLineNumbers(content);
      }
      assert Code(config, file) == Some(content) by {
        CodeSteps(config, file, beforeNumbers, content);
      }
      if !config.noCodeBlock {
        section := section + ("```" + file.language + "\n" + content + "\n```\n\n");
      } else {
        section := section + (content + "\n\n");
      }
      r := Rendered(section);
    }
  }

  /** The code of a section that does not panic: what stripping left, numbered when asked. */
  lemma CodeSteps(config: Config, file: FileInfo, stripped: string, code: string)
    requires config.stripComments ==> Comments.StripComments(file.content, file.language) == Comments.Stripped(stripped)
    requires !config.stripComments ==> stripped == file.content
    requires code == if config.lineNumbers then LineNumbers.Numbered(stripped) else stripped
    ensures Code(config, file) == Some(code)
  {
  }

  /** One more part: written after the others, or None for all of them. */
  lemma ConcatStep(parts: seq<Option<string>>, i: nat, r: Rendered, head: string, content: string)
    requires i < |parts| && Concat(parts[..i]).Some?
    requires r.Panicked? <==> parts[i].None?
    requires r.Rendered? ==> r.text == parts[i].value
    requires content == head + Concat(parts[..i]).value
    ensures r.Panicked? ==> Concat(parts[..i + 1]).None?
    ensures r.Rendered? ==>
      Concat(parts[..i + 1]).Some? && content + r.text == head + Concat(parts[..i + 1]).value
  {
    assert parts[..i + 1][..i] == parts[..i];
  }

  /** Once a prefix of the parts is None, all of them are. */
  lemma {:induction false} PanicPersists(parts: seq<Option<string>>, i: nat)
    requires i <= |parts|
    requires Concat(parts[..i]).None?
    ensures Concat(parts).None?
    decreases |parts| - i
  {
    if i < |parts| {
      assert parts[..i + 1][..i] == parts[..i];
      PanicPersists(parts, i + 1);
    } else {
      assert parts[..i] == parts;
    }
  }

  /** Without files the document is the title and an empty line. */
  lemma NoFiles(config: Config)
    ensures Document(config, []) == Rendered(TocTitle + "\n")
  {
    assert Toc([]) == "";
    assert SectionList(config, []) == [];
  }

  /** The table-of-contents lines: `"- <path>"` per file, in order. */
  function TocEntries(files: seq<FileInfo>): (r: seq<string>)
    ensures |r| == |files|
  {
    seq(|files|, i requires 0 <= i < |files| => "- " + files[i].path)
  }

  /** The table of contents is its entries, each ended by a newline. */
  lemma {:induction false} TocIsJoin(files: seq<FileInfo>)
    ensures Toc(files) == Join(TocEntries(files) + [""], '\n')
    decreases |files|
  {
    if |files| > 0 {
      var fs := files[..|files| - 1];
      var e := "- " + files[|files| - 1].path;
      TocIsJoin(fs);
      assert TocEntries(files) == TocEntries(fs) + [e];
      JoinSnoc(TocEntries(fs) + [e], "", '\n');
      if |fs| == 0 {
        assert TocEntries(fs) + [e] == [e];
      } else {
        JoinSnoc(TocEntries(fs), e, '\n');
        JoinSnoc(TocEntries(fs), "", '\n');
      }
    }
  }

  /**
   * With no newline in any path, the table of contents splits into one
   * `"- <path>"` line per file, in order, and nothing after the last newline.
   */
  lemma TocLines(files: seq<FileInfo>)
    requires forall i :: 0 <= i < |files| ==> '\n' !in files[i].path
    ensures Split(Toc(files), '\n') == TocEntries(files) + [""]
  {
    var lines := TocEntries(files) + [""];
    TocLinesHaveNoNewline(files);
    calc {
      Split(Toc(files), '\n');
      == { TocIsJoin(files); }
      Split(Join(lines, '\n'), '\n');
      == { SplitJoin(lines, '\n'); }
      lines;
    }
  }

  /** No entry of the table of contents, nor the empty tail, holds a newline. */
  lemma TocLinesHaveNoNewline(files: seq<FileInfo>)
    requires forall i :: 0 <= i < |files| ==> '\n' !in files[i].path
    ensures forall i :: 0 <= i < |files| + 1 ==> '\n' !in (TocEntries(files) + [""])[i]
  {
    var lines := TocEntries(files) + [""];
    forall i | 0 <= i < |lines|
      ensures '\n' !in lines[i]
    {
      if i < |files| {
        assert lines[i] == "- " + files[i].path;
        EntryHasNoNewline(files[i].path);
      } else {
        assert lines[i] == "";
      }
    }
  }

  /** A table-of-contents entry has a newline only if its path does. */
  lemma EntryHasNoNewline(path: string)
    requires '\n' !in path
    ensures '\n' !in "- " + path
  {
    var e := "- " + path;
    forall j | 0 <= j < |e|
      ensures e[j] != '\n'
    {
      if j >= 2 {
        assert e[j] == path[j - 2];
      }
    }
  }

  /** Parts written in two runs are the two runs written one after the other. */
  lemma {:induction false} ConcatAppend(p: seq<Option<string>>, q: seq<Option<string>>)
    ensures Concat(p + q).Some? <==> Concat(p).Some? && Concat(q).Some?
    ensures Concat(p + q).Some? ==> Concat(p + q).value == Concat(p).value + Concat(q).value
    decreases |q|
  {
    if |q| == 0 {
      assert p + q == p;
    } else {
      var q' := q[..|q| - 1];
      ConcatAppend(p, q');
      assert (p + q)[..|p + q| - 1] == p + q';
      assert (p + q)[|p + q| - 1] == q[|q| - 1];
    }
  }

  /** A single part is written as itself. */
  lemma ConcatOne(part: Option<string>)
    ensures Concat([part]) == part
  {
    assert [part][..0] == [];
    if part.Some? {
      assert "" + part.value == part.value;
    }
  }

  /** A section panics exactly when comments are stripped from Python code. */
  lemma SectionPanicsIff(config: Config, file: FileInfo)
    ensures Section(config, file).None? <==> config.stripComments && file.language == "python"
  {
  }

  /** Parts none of which is None are all written. */
  lemma {:induction false} ConcatAllPresent(parts: seq<Option<string>>)
    requires forall i :: 0 <= i < |parts| ==> parts[i].Some?
    ensures Concat(parts).Some?
    decreases |parts|
  {
    if |parts| > 0 {
      ConcatAllPresent(parts[..|parts| - 1]);
    }
  }

  /** Parts one of which is None are not written. */
  lemma ConcatMissing(parts: seq<Option<string>>, i: nat)
    requires i < |parts| && parts[i].None?
    ensures Concat(parts).None?
  {
    var k := i + 1;
    assert parts[..k][..i] == parts[..i];
    if Concat(parts[..i]).Some? {
      assert Concat(parts[..k]).None?;
    }
    PanicPersists(parts, k);
  }

  /**
   * The document is produced unless comments are stripped and some file is
   * Python code; there is no other failure.
   */
  lemma DocumentUnlessPython(config: Config, files: seq<FileInfo>)
    ensures Document(config, files).Panicked? <==>
      config.stripComments && exists i :: 0 <= i < |files| && files[i].language == "python"
  {
    var parts := SectionList(config, files);
    if config.stripComments && exists i :: 0 <= i < |files| && files[i].language == "python" {
      var i :| 0 <= i < |files| && files[i].language == "python";
      SectionPanicsIff(config, files[i]);
      ConcatMissing(parts, i);
    } else {
      forall i | 0 <= i < |files|
        ensures parts[i].Some?
      {
        SectionPanicsIff(config, files[i]);
      }
      ConcatAllPresent(parts);
    }
  }

  /** Each section opens with the title line naming its file's path. */
  lemma SectionOpensWithTitle(config: Config, file: FileInfo)
    requires Section(config, file).Some?
    ensures HasPrefix(Section(config, file).value, Title(file.path))
  {
    var t, m := Title(file.path), Metadata(file);
    PrefixOfConcat(t, m);
    PrefixExtends(t + m, "### Code\n\n", t);
    PrefixExtends(Header(file), Wrapped(config, file.language, Code(config, file).value), t);
  }

  /** Strings written one after another. */
  function Joined(ss: seq<string>): string {
    if |ss| == 0 then "" else Joined(ss[..|ss| - 1]) + ss[|ss| - 1]
  }

  /** The text of each part, with "" for a part that is None. */
  function Texts(parts: seq<Option<string>>): (r: seq<string>)
    ensures |r| == |parts|
    ensures forall i :: 0 <= i < |parts| && parts[i].Some? ==> r[i] == parts[i].value
  {
    seq(|parts|, i requires 0 <= i < |parts| => if parts[i].Some? then parts[i].value else "")
  }

  /** Parts that are all written are written as their texts, one after another. */
  lemma {:induction false} ConcatJoins(parts: seq<Option<string>>)
    requires Concat(parts).Some?
    ensures Concat(parts).value == Joined(Texts(parts))
    decreases |parts|
  {
    if |parts| > 0 {
      var q := parts[..|parts| - 1];
      ConcatJoins(q);
      assert Texts(parts)[..|parts| - 1] == Texts(q);
    }
  }

  /**
   * A document that is produced is the table of contents, an empty line and
   * then one section per file in the order of `files`, each opening with the
   * title that names its file.
   */
  lemma DocumentShape(config: Config, files: seq<FileInfo>)
    requires Document(config, files).Rendered?
    ensures Document(config, files).text == TocTitle + Toc(files) + "\n" + Joined(Texts(SectionList(config, files)))
    ensures forall i :: 0 <= i < |files| ==>
      Section(config, files[i]).Some? && Texts(SectionList(config, files))[i] == Section(config, files[i]).value
    ensures forall i :: 0 <= i < |files| ==> HasPrefix(Texts(SectionList(config, files))[i], Title(files[i].path))
  {
    var parts := SectionList(config, files);
    assert Concat(parts).Some?;
    ConcatJoins(parts);
    forall i | 0 <= i < |files|
      ensures Section(config, files[i]).Some? && Texts(parts)[i] == Section(config, files[i]).value
      ensures HasPrefix(Texts(parts)[i], Title(files[i].path))
    {
      SectionInDocument(config, files, i);
    }
  }

  /** The `i`th section of a produced document is present and opens with its title. */
  lemma SectionInDocument(config: Config, files: seq<FileInfo>, i: nat)
    requires i < |files| && Concat(SectionList(config, files)).Some?
    ensures Section(config, files[i]).Some? && Texts(SectionList(config, files))[i] == Section(config, files[i]).value
    ensures HasPrefix(Texts(SectionList(config, files))[i], Title(files[i].path))
  {
    var parts := SectionList(config, files);
    if parts[i].None? {
      ConcatMissing(parts, i);
    }
    SectionOpensWithTitle(config, files[i]);
  }

  lemma PrefixOfConcat(a: string, b: string)
    ensures HasPrefix(a + b, a)
  {
    assert (a + b)[..|a|] == a;
  }

  lemma PrefixExtends(a: string, b: string, p: string)
    requires HasPrefix(a, p)
    ensures HasPrefix(a + b, p)
  {
    assert (a + b)[..|p|] == a[..|p|];
  }

  /** The section header names the extension of the path; the recorded `ext` is never read. */
  lemma ExtensionFromPath(config: Config, file: FileInfo, ext: string)
    ensures Section(config, file.(ext := ext)) == Section(config, file)
  {
  }

  /**
   * Comment stripping, when asked, comes before line numbering, when asked;
   * each switch off leaves its step out.
   */
  lemma StripThenNumber(config: Config, file: FileInfo)
    ensures !config.stripComments ==>
      Code(config, file) == Some(if config.lineNumbers then LineNumbers.Numbered(file.content) else file.content)
    ensures config.stripComments && file.language != "python" ==>
      var stripped := Comments.StripComments(file.content, file.language).text;
      Code(config, file) == Some(if config.lineNumbers then LineNumbers.Numbered(stripped) else stripped)
  {
  }

  /** The wrapped code gives back the code between a fixed opening and closing. */
  lemma UnwrapCode(config: Config, language: string, code: string)
    ensures var w := Wrapped(config, language, code);
      !config.noCodeBlock ==>
        (|w| == |language| + |code| + 10
        && w[..|language| + 4] == "```" + language + "\n"
        && w[|language| + 4..|w| - 6] == code
        && w[|w| - 6..] == "\n```\n\n")
    ensures var w := Wrapped(config, language, code);
      config.noCodeBlock ==> |w| == |code| + 2 && w[..|code|] == code && w[|code|..] == "\n\n"
  {
  }
}
