/**
 * `config.Config` (internal/config/config.go): the settings of one run, the
 * defaults, `merge` of one configuration into another, and `LoadConfig`,
 * which layers the system, user, local and explicitly named files over the
 * defaults.  Reading and parsing a file is outside the model: each source is
 * given as the configuration it parses to, or the error reading it gives.
 */
module Configuration {
  import opened Wrappers

  /** The value of every field of a `Config`. */
  datatype ConfigData = ConfigData(
    output: string,
    filterPatterns: seq<string>,
    excludePatterns: seq<string>,
    caseSensitive: bool,
    noCodeblock: bool,
    lineNumbers: bool,
    stripComments: bool,
    showTokens: bool,
    tokenEncoding: string,
    showPrice: bool,
    provider: string,
    model: string,
    outputTokens: int,
    syntaxMap: map<string, string>,
    templatePath: string)

  /** `DefaultConfig()`. */
  const Defaults: ConfigData := ConfigData(
    "", [], [], false, false, false, false, false,
    "cl100k_base", false, "openai", "gpt-3.5-turbo", 1000, map[], "")

  /** A string or list setting of `other` replaces the receiver's when it is not empty. */
  function Pick<T>(mine: seq<T>, theirs: seq<T>): (r: seq<T>)
    ensures |theirs| > 0 ==> r == theirs
    ensures |theirs| == 0 ==> r == mine
  {
    if |theirs| > 0 then theirs else mine
  }

  /** The configuration `c.merge(other)` leaves in `c`. */
  function Merged(c: ConfigData, other: Option<ConfigData>): ConfigData {
    match other
    case None => c
    case Some(o) =>
      ConfigData(
        Pick(c.output, o.output),
        Pick(c.filterPatterns, o.filterPatterns),
        Pick(c.excludePatterns, o.excludePatterns),
        c.caseSensitive || o.caseSensitive,
        c.noCodeblock || o.noCodeblock,
        c.lineNumbers || o.lineNumbers,
        c.stripComments || o.stripComments,
        c.showTokens || o.showTokens,
        Pick(c.tokenEncoding, o.tokenEncoding),
        c.showPrice || o.showPrice,
        Pick(c.provider, o.provider),
        Pick(c.model, o.model),
        if o.outputTokens != 0 then o.outputTokens else c.outputTokens,
        c.syntaxMap + o.syntaxMap,
        Pick(c.templatePath, o.templatePath))
  }

  /** The three groups of settings `merge` handles in turn, each merged on its own. */
  function MergedPaths(c: ConfigData, o: ConfigData): ConfigData {
    c.(output := Pick(c.output, o.output), filterPatterns := Pick(c.filterPatterns, o.filterPatterns),
      excludePatterns := Pick(c.excludePatterns, o.excludePatterns))
  }

  function MergedFlags(c: ConfigData, o: ConfigData): ConfigData {
    c.(caseSensitive := c.caseSensitive || o.caseSensitive, noCodeblock := c.noCodeblock || o.noCodeblock,
      lineNumbers := c.lineNumbers || o.lineNumbers, stripComments := c.stripComments || o.stripComments,
      showTokens := c.showTokens || o.showTokens, showPrice := c.showPrice || o.showPrice)
  }

  function MergedModelSettings(c: ConfigData, o: ConfigData): ConfigData {
    c.(tokenEncoding := Pick(c.tokenEncoding, o.tokenEncoding), provider := Pick(c.provider, o.provider),
      model := Pick(c.model, o.model),
      outputTokens := if o.outputTokens != 0 then o.outputTokens else c.outputTokens,
      templatePath := Pick(c.templatePath, o.templatePath))
  }

  /** Merging the groups one after the other, then the syntax map, is the whole merge. */
  lemma MergedInGroups(c: ConfigData, o: ConfigData)
    ensures Merged(c, Some(o)) ==
      MergedModelSettings(MergedFlags(MergedPaths(c, o), o), o).(syntaxMap := c.syntaxMap + o.syntaxMap)
  {
  }

  class Config {
    var output: string
    var filterPatterns: seq<string>
    var excludePatterns: seq<string>
    var caseSensitive: bool
    var noCodeblock: bool
    var lineNumbers: bool
    var stripComments: bool
    var showTokens: bool
    var tokenEncoding: string
    var showPrice: bool
    var provider: string
    var model: string
    var outputTokens: int
    var syntaxMap: map<string, string>
    var templatePath: string

    function Data(): ConfigData
      reads this
    {
      ConfigData(output, filterPatterns, excludePatterns, caseSensitive, noCodeblock, lineNumbers,
        stripComments, showTokens, tokenEncoding, showPrice, provider, model, outputTokens,
        syntaxMap, templatePath)
    }

    /** `DefaultConfig()`. */
    constructor Default()
      ensures Data() == Defaults
    {
      output, filterPatterns, excludePatterns := "", [], [];
      caseSensitive, noCodeblock, lineNumbers, stripComments, showTokens := false, false, false, false, false;
      tokenEncoding, showPrice, provider, model := "cl100k_base", false, "openai", "gpt-3.5-turbo";
      outputTokens, syntaxMap, templatePath := 1000, map[], "";
    }

    /** `merge`: overwrite each field that `other` sets, then copy its syntax map in. */
    method Merge(other: Option<ConfigData>)
      modifies this
      ensures Data() == Merged(old(Data()), other)
    {
      if other.None? {
        return;
      }
      var o := other.value;
      MergedInGroups(Data(), o);
      MergePaths(o);
      MergeFlags(o);
      MergeModelSettings(o);
      syntaxMap := CopyEntries(syntaxMap, o.syntaxMap);
    }

    /** `merge` on the output path and the two pattern lists, as one step on the whole configuration. */
    method MergePaths(o: ConfigData)
      modifies this`output, this`filterPatterns, this`excludePatterns
      ensures Data() == MergedPaths(old(Data()), o)
    {
      SetPaths(o);
    }

    /** The `if` statements of `merge` for the output path and the two pattern lists: a non-empty setting of `o` replaces the receiver's. */
    method SetPaths(o: ConfigData)
      modifies this`output, this`filterPatterns, this`excludePatterns
      ensures output == Pick(old(output), o.output)
      ensures filterPatterns == Pick(old(filterPatterns), o.filterPatterns)
      ensures excludePatterns == Pick(old(excludePatterns), o.excludePatterns)
    {
      if o.output != "" {
        output := o.output;
      }
      if |o.filterPatterns| > 0 {
        filterPatterns := o.filterPatterns;
      }
      if |o.excludePatterns| > 0 {
        excludePatterns := o.excludePatterns;
      }
    }

    /** `merge` on the six flags, as one step on the whole configuration. */
    method MergeFlags(o: ConfigData)
      modifies this`caseSensitive, this`noCodeblock, this`lineNumbers, this`stripComments, this`showTokens, this`showPrice
      ensures Data() == MergedFlags(old(Data()), o)
    {
      SetFlags(o);
    }

    /** The `if` statements of `merge` for the six flags: a flag that `o` sets is switched on; none is switched off. */
    method SetFlags(o: ConfigData)
      modifies this`caseSensitive, this`noCodeblock, this`lineNumbers, this`stripComments, this`showTokens, this`showPrice
      ensures caseSensitive == (old(caseSensitive) || o.caseSensitive)
      ensures noCodeblock == (old(noCodeblock) || o.noCodeblock)
      ensures lineNumbers == (old(lineNumbers) || o.lineNumbers)
      ensures stripComments == (old(stripComments) || o.stripComments)
      ensures showTokens == (old(showTokens) || o.showTokens)
      ensures showPrice == (old(showPrice) || o.showPrice)
    {
      if o.caseSensitive {
        caseSensitive := true;
      }
      if o.noCodeblock {
        noCodeblock := true;
      }
      if o.lineNumbers {
        lineNumbers := true;
      }
      if o.stripComments {
        stripComments := true;
      }
      if o.showTokens {
        showTokens := true;
      }
      if o.showPrice {
        showPrice := true;
      }
    }

    /** `merge` on the token, pricing and template settings, as one step on the whole configuration. */
    method MergeModelSettings(o: ConfigData)
      modifies this`tokenEncoding, this`provider, this`model, this`outputTokens, this`templatePath
      ensures Data() == MergedModelSettings(old(Data()), o)
    {
      SetModelSettings(o);
    }

    /** The `if` statements of `merge` for the token, pricing and template settings: a non-empty or non-zero setting of `o` replaces the receiver's. */
    method SetModelSettings(o: ConfigData)
      modifies this`tokenEncoding, this`provider, this`model, this`outputTokens, this`templatePath
      ensures tokenEncoding == Pick(old(tokenEncoding), o.tokenEncoding)
      ensures provider == Pick(old(provider), o.provider)
      ensures model == Pick(old(model), o.model)
      ensures outputTokens == if o.outputTokens != 0 then o.outputTokens else old(outputTokens)
      ensures templatePath == Pick(old(templatePath), o.templatePath)
    {
      if o.tokenEncoding != "" {
        tokenEncoding := o.tokenEncoding;
      }
      if o.provider != "" {
        provider := o.provider;
      }
      if o.model != "" {
        model := o.model;
      }
      if o.outputTokens != 0 {
        outputTokens := o.outputTokens;
      }
      if o.templatePath != "" {
        templatePath := o.templatePath;
      }
    }
  }

  /** The `for k, v := range src { dst[k] = v }` loop: every entry of `src` is written over `dst`. */
  method CopyEntries(dst: map<string, string>, src: map<string, string>) returns (m: map<string, string>)
    ensures m == dst + src
  {
    m := dst;
    var pending := src.Keys;
    while pending != {}
      invariant pending <= src.Keys
      invariant m == dst + map k | k in src && k !in pending :: src[k]
      decreases pending
    {
      var k :| k in pending;
      m := m[k := src[k]];
      pending := pending - {k};
    }
    assert src == map k | k in src && k !in pending :: src[k];
  }

  /** Merging nothing changes nothing. */
  lemma MergeNothing(c: ConfigData)
    ensures Merged(c, None) == c
  {
  }

  /**
   * A string, list or number setting takes `other`'s value exactly when that
   * value is set (non-empty, non-zero); otherwise the receiver's is kept.
   */
  lemma SetValuesOverride(c: ConfigData, o: ConfigData)
    ensures var m := Merged(c, Some(o));
      (m.output == if o.output != "" then o.output else c.output)
      && (m.filterPatterns == if o.filterPatterns != [] then o.filterPatterns else c.filterPatterns)
      && (m.excludePatterns == if o.excludePatterns != [] then o.excludePatterns else c.excludePatterns)
      && (m.tokenEncoding == if o.tokenEncoding != "" then o.tokenEncoding else c.tokenEncoding)
      && (m.provider == if o.provider != "" then o.provider else c.provider)
      && (m.model == if o.model != "" then o.model else c.model)
      && (m.outputTokens == if o.outputTokens != 0 then o.outputTokens else c.outputTokens)
      && (m.templatePath == if o.templatePath != "" then o.templatePath else c.templatePath)
  {
  }

  /** A flag can only be switched on by a merge, never off. */
  lemma FlagsOnlyTurnOn(c: ConfigData, o: ConfigData)
    ensures var m := Merged(c, Some(o));
      (c.caseSensitive ==> m.caseSensitive) && (c.noCodeblock ==> m.noCodeblock)
      && (c.lineNumbers ==> m.lineNumbers) && (c.stripComments ==> m.stripComments)
      && (c.showTokens ==> m.showTokens) && (c.showPrice ==> m.showPrice)
    ensures var m := Merged(c, Some(o));
      !o.caseSensitive && !o.noCodeblock && !o.lineNumbers && !o.stripComments && !o.showTokens && !o.showPrice ==>
        m.caseSensitive == c.caseSensitive && m.noCodeblock == c.noCodeblock && m.lineNumbers == c.lineNumbers
        && m.stripComments == c.stripComments && m.showTokens == c.showTokens && m.showPrice == c.showPrice
  {
  }

  /** The merged syntax map has the keys of both, and `other`'s mapping wins on shared keys. */
  lemma SyntaxMapUnion(c: ConfigData, o: ConfigData)
    ensures var m := Merged(c, Some(o)).syntaxMap;
      m.Keys == c.syntaxMap.Keys + o.syntaxMap.Keys
      && (forall k :: k in o.syntaxMap ==> m[k] == o.syntaxMap[k])
      && (forall k :: k in c.syntaxMap && k !in o.syntaxMap ==> m[k] == c.syntaxMap[k])
  {
  }

  /** Merging the same configuration a second time changes nothing more. */
  lemma MergeIdempotent(c: ConfigData, other: Option<ConfigData>)
    ensures Merged(Merged(c, other), other) == Merged(c, other)
  {
    if other.Some? {
      var o := other.value;
      assert (c.syntaxMap + o.syntaxMap) + o.syntaxMap == c.syntaxMap + o.syntaxMap;
    }
  }

  /** What each configuration file gives: the configuration it parses to, or an error. */
  datatype Sources = Sources(
    system: Result<ConfigData, string>,
    user: Result<ConfigData, string>,
    local: Result<ConfigData, string>,
    explicit: Result<ConfigData, string>)

  /** A source that failed to load is skipped. */
  function Loaded(r: Result<ConfigData, string>): Option<ConfigData> {
    if r.Ok? then Some(r.value) else None
  }

  /** The configuration `LoadConfig(cmdConfigPath)` returns, or its error. */
  function Layered(cmdConfigPath: string, sources: Sources): Result<ConfigData, string> {
    var c := Merged(Merged(Merged(Defaults, Loaded(sources.system)), Loaded(sources.user)), Loaded(sources.local));
    if cmdConfigPath == "" then Ok(c)
    else
      match sources.explicit
      case Err(e) => Err(e)
      case Ok(x) => Ok(Merged(c, Some(x)))
  }

  /** `LoadConfig`: the defaults, then each source that loads, the explicit file last. */
  method LoadConfig(cmdConfigPath: string, sources: Sources) returns (config: Config?, err: Option<string>)
    ensures Layered(cmdConfigPath, sources).Ok? ==>
      err == None && config != null && fresh(config) && config.Data() == Layered(cmdConfigPath, sources).value
    ensures Layered(cmdConfigPath, sources).Err? ==> config == null && err == Some(Layered(cmdConfigPath, sources).error)
  {
    config := new Config.Default();
    config.Merge(Loaded(sources.system));
    config.Merge(Loaded(sources.user));
    config.Merge(Loaded(sources.local));
    if cmdConfigPath != "" {
      if sources.explicit.Err? {
        return null, Some(sources.explicit.error);
      }
      config.Merge(Some(sources.explicit.value));
    }
    err := None;
  }

  /** Only the explicitly named file can make loading fail; without one it always succeeds. */
  lemma OnlyExplicitFileCanFail(cmdConfigPath: string, sources: Sources)
    ensures Layered(cmdConfigPath, sources).Err? <==> cmdConfigPath != "" && sources.explicit.Err?
  {
  }

  /** The string settings of a list of layers: the last one that is set, over a base. */
  function LastSet(base: string, layers: seq<string>): (r: string)
    ensures r == base || r in layers
  {
    if |layers| == 0 then base
    else if layers[|layers| - 1] != "" then layers[|layers| - 1]
    else LastSet(base, layers[..|layers| - 1])
  }

  function OutputOf(r: Result<ConfigData, string>): string {
    if r.Ok? then r.value.output else ""
  }

  /**
   * Later sources win: the output path is the one set by the last source
   * that loads and sets it, the explicit file last, and the default ("")
   * when none does.
   */
  lemma LaterSourcesWin(cmdConfigPath: string, sources: Sources)
    requires Layered(cmdConfigPath, sources).Ok?
    ensures Layered(cmdConfigPath, sources).value.output ==
      LastSet(Defaults.output,
        [OutputOf(sources.system), OutputOf(sources.user), OutputOf(sources.local)]
        + (if cmdConfigPath != "" then [OutputOf(sources.explicit)] else []))
  {
    var a, b, c := OutputOf(sources.system), OutputOf(sources.user), OutputOf(sources.local);
    var c1 := Merged(Defaults, Loaded(sources.system));
    var c2 := Merged(c1, Loaded(sources.user));
    var c3 := Merged(c2, Loaded(sources.local));
    assert [a][..0] == [] && [a, b][..1] == [a] && [a, b, c][..2] == [a, b];
    assert c1.output == LastSet(Defaults.output, [a]);
    assert c2.output == LastSet(Defaults.output, [a, b]);
    assert c3.output == LastSet(Defaults.output, [a, b, c]);
    if cmdConfigPath != "" {
      var d := OutputOf(sources.explicit);
      assert ([a, b, c] + [d])[..3] == [a, b, c];
      assert Layered(cmdConfigPath, sources).value.output == Pick(c3.output, d);
    } else {
      assert [a, b, c] + [] == [a, b, c];
    }
  }
}
