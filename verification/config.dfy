/** Start-up configuration: the environment variables the app reads, the
    ordered list of configuration errors it reports before stopping, and the
    validated settings the rest of the app runs with. */
module Config {
  import opened Wrappers
  import opened Numerals
  import Reachability

  /** The Ollama model used when OLLAMA_MODEL is unset. */
  const DefaultOllamaModel := "nomic-embed-text"

  /** The environment as the app reads it; None for an unset variable. */
  datatype Environment = Environment(
    searchEndpoint: Option<string>,          // AZURE_SEARCH_SERVICE_ENDPOINT
    searchKey: Option<string>,               // AZURE_SEARCH_API_KEY
    searchIndex: Option<string>,             // AZURE_SEARCH_INDEX_NAME
    ollamaEndpoint: Option<string>,          // OLLAMA_ENDPOINT, defaulted
    ollamaModel: Option<string>,             // OLLAMA_MODEL, defaulted
    vectorDimension: Option<string>,         // VECTOR_DIMENSION
    semanticConfiguration: Option<string>)   // AZURE_SEMANTIC_CONFIGURATION_NAME, not validated

  /** Python truthiness of a setting: neither None nor "". */
  predicate IsSet(v: Option<string>) {
    v.Some? && v.value != ""
  }

  /** `os.getenv("OLLAMA_ENDPOINT", default)`: a variable set to "" stays "". */
  function OllamaEndpoint(env: Environment): string {
    env.ollamaEndpoint.GetOr(Reachability.DefaultEndpoint)
  }

  /** `os.getenv("OLLAMA_MODEL", default)`. */
  function OllamaModel(env: Environment): string {
    env.ollamaModel.GetOr(DefaultOllamaModel)
  }

  /** One configuration error; the message wording is not modelled. */
  datatype ConfigError =
    | SearchEndpointNotSet
    | SearchKeyNotSet
    | SearchIndexNotSet
    | OllamaEndpointNotSet
    | OllamaModelNotSet
    | DimensionNotSet
    | DimensionNotInteger(raw: string)

  /** The position of an error in the fixed reporting order. */
  function Rank(e: ConfigError): nat {
    match e
    case SearchEndpointNotSet => 0
    case SearchKeyNotSet => 1
    case SearchIndexNotSet => 2
    case OllamaEndpointNotSet => 3
    case OllamaModelNotSet => 4
    case DimensionNotSet => 5
    case DimensionNotInteger(_) => 5
  }

  /** `errors` lists each error at most once, in the fixed order. */
  predicate InReportingOrder(errors: seq<ConfigError>) {
    forall i, j :: 0 <= i < j < |errors| ==> Rank(errors[i]) < Rank(errors[j])
  }

  /** The number of checks, one per required setting. */
  const CheckCount: nat := 6

  /** The error check number `k` reports, if any, in source order: the search
      endpoint, key and index, the Ollama endpoint and model, the dimension
      (unset, or set but not an integer). */
  function Check(env: Environment, k: nat): (e: Option<ConfigError>)
    requires k < CheckCount
    ensures e.Some? ==> Rank(e.value) == k
  {
    match k
    case 0 => if !IsSet(env.searchEndpoint) then Some(SearchEndpointNotSet) else None
    case 1 => if !IsSet(env.searchKey) then Some(SearchKeyNotSet) else None
    case 2 => if !IsSet(env.searchIndex) then Some(SearchIndexNotSet) else None
    case 3 => if OllamaEndpoint(env) == "" then Some(OllamaEndpointNotSet) else None
    case 4 => if OllamaModel(env) == "" then Some(OllamaModelNotSet) else None
    case 5 =>
      if !IsSet(env.vectorDimension) then Some(DimensionNotSet)
      else if ParseInt(env.vectorDimension.value).None? then Some(DimensionNotInteger(env.vectorDimension.value))
      else None
  }

  /** The errors of the first `k` checks, appended in the order they run. */
  function Collect(env: Environment, k: nat): (errors: seq<ConfigError>)
    requires k <= CheckCount
    ensures InReportingOrder(errors)
    ensures forall e :: e in errors ==> Rank(e) < k && Check(env, Rank(e)) == Some(e)
    ensures forall j :: 0 <= j < k && Check(env, j).Some? ==> Check(env, j).value in errors
  {
    if k == 0 then []
    else
      var earlier := Collect(env, k - 1);
      match Check(env, k - 1)
      case None => earlier
      case Some(e) =>
        assert forall i :: 0 <= i < |earlier| ==> earlier[i] in earlier;
        earlier + [e]
  }

  /** The `config_errors` list built at start-up. */
  function ConfigErrors(env: Environment): (errors: seq<ConfigError>)
    ensures InReportingOrder(errors)
    ensures SearchEndpointNotSet in errors <==> !IsSet(env.searchEndpoint)
    ensures SearchKeyNotSet in errors <==> !IsSet(env.searchKey)
    ensures SearchIndexNotSet in errors <==> !IsSet(env.searchIndex)
    ensures OllamaEndpointNotSet in errors <==> OllamaEndpoint(env) == ""
    ensures OllamaModelNotSet in errors <==> OllamaModel(env) == ""
    ensures DimensionNotSet in errors <==> !IsSet(env.vectorDimension)
    ensures forall raw :: DimensionNotInteger(raw) in errors <==>
              (env.vectorDimension == Some(raw) && raw != "" && ParseInt(raw).None?)
  {
    var errors := Collect(env, CheckCount);
    CheckByRank(env);
    errors
  }

  /** Each check, spelled out for its own setting. */
  lemma CheckByRank(env: Environment)
    ensures Check(env, 0).Some? <==> !IsSet(env.searchEndpoint)
    ensures Check(env, 0).Some? ==> Check(env, 0).value == SearchEndpointNotSet
    ensures Check(env, 1).Some? <==> !IsSet(env.searchKey)
    ensures Check(env, 1).Some? ==> Check(env, 1).value == SearchKeyNotSet
    ensures Check(env, 2).Some? <==> !IsSet(env.searchIndex)
    ensures Check(env, 2).Some? ==> Check(env, 2).value == SearchIndexNotSet
    ensures Check(env, 3).Some? <==> OllamaEndpoint(env) == ""
    ensures Check(env, 3).Some? ==> Check(env, 3).value == OllamaEndpointNotSet
    ensures Check(env, 4).Some? <==> OllamaModel(env) == ""
    ensures Check(env, 4).Some? ==> Check(env, 4).value == OllamaModelNotSet
    ensures Check(env, 5) == Some(DimensionNotSet) <==> !IsSet(env.vectorDimension)
    ensures forall raw :: Check(env, 5) == Some(DimensionNotInteger(raw)) <==>
              (env.vectorDimension == Some(raw) && raw != "" && ParseInt(raw).None?)
  {
  }

  /** The settings the app runs with once no error was found. */
  datatype Config = Config(
    searchEndpoint: string,
    searchKey: string,
    searchIndex: string,
    ollamaEndpoint: string,
    ollamaModel: string,
    vectorDimension: int,
    semanticConfiguration: Option<string>)

  /** Start-up: either the validated settings, or the errors the app shows
      before `st.stop()`. */
  function Load(env: Environment): (r: Result<Config, seq<ConfigError>>)
    ensures r.Failure? <==> ConfigErrors(env) != []
    ensures r.Failure? ==> r.error == ConfigErrors(env)
    ensures r.Success? ==>
              && Some(r.value.searchEndpoint) == env.searchEndpoint && r.value.searchEndpoint != ""
              && Some(r.value.searchKey) == env.searchKey && r.value.searchKey != ""
              && Some(r.value.searchIndex) == env.searchIndex && r.value.searchIndex != ""
              && r.value.ollamaEndpoint == OllamaEndpoint(env) != ""
              && r.value.ollamaModel == OllamaModel(env) != ""
              && env.vectorDimension.Some? && ParseInt(env.vectorDimension.value) == Some(r.value.vectorDimension)
              && r.value.semanticConfiguration == env.semanticConfiguration
  {
    var errors := ConfigErrors(env);
    if errors != [] then Failure(errors)
    else
      assert SearchEndpointNotSet !in errors && DimensionNotSet !in errors;
      assert env.vectorDimension.Some? && DimensionNotInteger(env.vectorDimension.value) !in errors;
      Success(Config(env.searchEndpoint.value, env.searchKey.value, env.searchIndex.value,
                     OllamaEndpoint(env), OllamaModel(env),
                     ParseInt(env.vectorDimension.value).value, env.semanticConfiguration))
  }

  /** The app starts exactly when all six settings are non-empty and the
      dimension reads as an integer. */
  lemma NoErrorsIffComplete(env: Environment)
    ensures ConfigErrors(env) == [] <==>
              && IsSet(env.searchEndpoint) && IsSet(env.searchKey) && IsSet(env.searchIndex)
              && OllamaEndpoint(env) != "" && OllamaModel(env) != ""
              && IsSet(env.vectorDimension) && ParseInt(env.vectorDimension.value).Some?
  {
    var errors := ConfigErrors(env);
    if errors != [] {
      match errors[0]
      case DimensionNotInteger(raw) => assert DimensionNotInteger(raw) in errors;
      case _ => assert errors[0] in errors;
    }
  }

  /** A present but non-integer dimension is reported as such, and never also
      as unset. */
  lemma BadDimensionReportedOnce(env: Environment)
    requires IsSet(env.vectorDimension) && ParseInt(env.vectorDimension.value).None?
    ensures var errors := ConfigErrors(env);
            && |errors| > 0
            && errors[|errors| - 1] == DimensionNotInteger(env.vectorDimension.value)
            && DimensionNotSet !in errors
  {
    var errors := ConfigErrors(env);
    var raw := env.vectorDimension.value;
    assert DimensionNotInteger(raw) in errors;
  }

  /** The defaults leave only the Azure settings and the dimension to set:
      an empty environment yields exactly four errors, in order. */
  lemma EmptyEnvironmentErrors()
    ensures ConfigErrors(Environment(None, None, None, None, None, None, None))
            == [SearchEndpointNotSet, SearchKeyNotSet, SearchIndexNotSet, DimensionNotSet]
  {
    var env := Environment(None, None, None, None, None, None, None);
    assert OllamaEndpoint(env) != "" && OllamaModel(env) != "";
    CheckByRank(env);
    assert Collect(env, 3) == [SearchEndpointNotSet, SearchKeyNotSet, SearchIndexNotSet];
    assert Collect(env, 5) == Collect(env, 3);
  }
}
