/**
 * `Config.Validate` (internal/config/validation.go): the checks a
 * configuration must pass, in their fixed order, with the first failure
 * reported.  The `os.Stat` of the template path is a parameter: for each path,
 * the error statting it gives, or None.
 */
module Validation {
  import opened Wrappers
  import opened Configuration

  /** The error `Validate` returns, one kind per check. */
  datatype ValidationError =
    | InvalidEncoding(encoding: string)
    | InvalidProvider(provider: string)
    | InvalidModel(model: string, provider: string)
    | NegativeOutputTokens
    | InvalidTemplatePath(statError: string)

  /** The `validEncodings` table. */
  const ValidEncodings: set<string> := {"cl100k_base", "p50k_base", "p50k_edit", "r50k_base"}

  /** The `validProviders` table. */
  const ValidProviders: set<string> := {"openai", "anthropic", "google", "mistral", "cohere"}

  /** The `validModels` table: only two providers have one. */
  const ValidModels: map<string, set<string>> := map[
    "openai" := {"gpt-3.5-turbo", "gpt-4", "gpt-4-32k"},
    "anthropic" := {"claude-2", "claude-instant"}]

  predicate IsValidEncoding(encoding: string) {
    encoding in ValidEncodings
  }

  predicate IsValidProvider(provider: string) {
    provider in ValidProviders
  }

  /** A provider without a model table accepts no model. */
  predicate IsValidModel(provider: string, model: string) {
    provider in ValidModels && model in ValidModels[provider]
  }

  /** `Validate`, with `stat` giving the outcome of statting a path. */
  function Validate(c: ConfigData, stat: string -> Option<string>): (r: Option<ValidationError>)
    ensures r.None? <==>
      IsValidEncoding(c.tokenEncoding)
      && (c.showPrice ==> IsValidProvider(c.provider) && IsValidModel(c.provider, c.model))
      && c.outputTokens >= 0
      && (c.templatePath != "" ==> stat(c.templatePath).None?)
  {
    if !IsValidEncoding(c.tokenEncoding) then Some(InvalidEncoding(c.tokenEncoding))
    else if c.showPrice && !IsValidProvider(c.provider) then Some(InvalidProvider(c.provider))
    else if c.showPrice && !IsValidModel(c.provider, c.model) then Some(InvalidModel(c.model, c.provider))
    else if c.outputTokens < 0 then Some(NegativeOutputTokens)
    else if c.templatePath != "" && stat(c.templatePath).Some? then
      Some(InvalidTemplatePath(stat(c.templatePath).value))
    else None
  }

  /** An unknown token encoding is reported, whatever the other fields hold. */
  lemma UnknownEncodingFails(c: ConfigData, stat: string -> Option<string>)
    requires c.tokenEncoding !in ValidEncodings
    ensures Validate(c, stat) == Some(InvalidEncoding(c.tokenEncoding))
  {
  }

  /** Without `ShowPrice` the provider and model are never looked at. */
  lemma PricingIgnoredWithoutShowPrice(c: ConfigData, provider: string, model: string, stat: string -> Option<string>)
    requires !c.showPrice
    ensures Validate(c.(provider := provider, model := model), stat) == Validate(c, stat)
  {
  }

  /**
   * `google`, `mistral` and `cohere` are valid providers but have no model
   * table, so with `ShowPrice` set every model of theirs is rejected.
   */
  lemma ProvidersWithoutModelsFail(c: ConfigData, stat: string -> Option<string>)
    requires IsValidEncoding(c.tokenEncoding) && c.showPrice
    requires c.provider in {"google", "mistral", "cohere"}
    ensures IsValidProvider(c.provider)
    ensures Validate(c, stat) == Some(InvalidModel(c.model, c.provider))
  {
  }

  /** Every provider with a model table is itself a valid provider. */
  lemma ModelTableProvidersAreValid(provider: string, model: string)
    requires IsValidModel(provider, model)
    ensures IsValidProvider(provider)
  {
  }

  /** Negative output tokens are reported once the earlier checks pass. */
  lemma NegativeTokensFail(c: ConfigData, stat: string -> Option<string>)
    requires IsValidEncoding(c.tokenEncoding)
    requires c.showPrice ==> IsValidProvider(c.provider) && IsValidModel(c.provider, c.model)
    requires c.outputTokens < 0
    ensures Validate(c, stat) == Some(NegativeOutputTokens)
  {
  }

  /** Zero output tokens are accepted: the outcome is the one for any non-negative count. */
  lemma ZeroTokensAllowed(c: ConfigData, stat: string -> Option<string>)
    requires c.outputTokens >= 0
    ensures Validate(c.(outputTokens := 0), stat) == Validate(c, stat)
    ensures Validate(c, stat) != Some(NegativeOutputTokens)
  {
  }

  /**
   * The first failing check decides the error: a later check is only
   * reported when every earlier one passes.
   */
  lemma FirstFailureWins(c: ConfigData, stat: string -> Option<string>)
    ensures Validate(c, stat).Some? && Validate(c, stat).value.InvalidProvider? ==>
      IsValidEncoding(c.tokenEncoding) && c.showPrice
    ensures Validate(c, stat).Some? && Validate(c, stat).value.InvalidModel? ==>
      IsValidEncoding(c.tokenEncoding) && c.showPrice && IsValidProvider(c.provider)
    ensures Validate(c, stat) == Some(NegativeOutputTokens) ==>
      IsValidEncoding(c.tokenEncoding) && (c.showPrice ==> IsValidProvider(c.provider) && IsValidModel(c.provider, c.model))
    ensures Validate(c, stat).Some? && Validate(c, stat).value.InvalidTemplatePath? ==>
      IsValidEncoding(c.tokenEncoding) && (c.showPrice ==> IsValidProvider(c.provider) && IsValidModel(c.provider, c.model))
      && c.outputTokens >= 0 && c.templatePath != ""
  {
  }

  /** An empty template path is never statted. */
  lemma EmptyTemplateNotChecked(c: ConfigData, stat: string -> Option<string>, stat': string -> Option<string>)
    requires c.templatePath == ""
    ensures Validate(c, stat) == Validate(c, stat')
  {
  }

  /** The default configuration passes every check. */
  lemma DefaultsAreValid(stat: string -> Option<string>)
    ensures Validate(Defaults, stat) == None
  {
    assert Defaults.tokenEncoding in ValidEncodings;
  }
}
