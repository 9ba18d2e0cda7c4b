/**
 * Values shared by every deployment script: optional values, the outcome of a
 * remote call, the environment variables the scripts read, and the two kinds of
 * credential they hand to the search service.
 */
module Common {

  datatype Option<+T> = None | Some(value: T)

  /** The outcome of one call into a remote service: it returned, or it raised. */
  datatype Outcome = Done | Raised(error: string)

  /**
   * The environment variables read by the scripts. An unset variable is None;
   * Python's os.getenv returns the string itself otherwise, possibly empty.
   */
  datatype Env = Env(
    searchKey: Option<string>,     // AZURE_SEARCH_KEY
    openAiKey: Option<string>,     // AZURE_OPENAI_KEY
    aiServiceKey: Option<string>,  // AZURE_AI_SERVICE_KEY
    storageKey: Option<string>     // AZURE_STORAGE_KEY
  )

  /** Python truthiness of an optional string: set and non-empty. */
  predicate Truthy(s: Option<string>) {
    s.Some? && s.value != ""
  }

  /** The credential a search-service client is built with. */
  datatype Credential =
    | CliCredential              // AzureCliCredential(): the signed-in identity
    | KeyCredential(key: string) // AzureKeyCredential(os.getenv("AZURE_SEARCH_KEY"))

  /**
   * The TypeError AzureKeyCredential raises when it is handed something other
   * than a string, as it is when AZURE_SEARCH_KEY is unset: the script stops
   * there, before the client it was building makes any call.
   */
  const KeyNotString: string := "key must be a string."
}
