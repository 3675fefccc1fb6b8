/** The boundary to the external generation service. The outbound call is not
    modelled: each route receives the service as a function from prompt to
    outcome, and the outcome says what the source's `fetch` handling observed. */
module Generation {
  import opened Wrappers

  /** What one call to the generation service yields: the call threw (network
      failure), the status was not ok, or the first candidate's text (`""` when
      the response carried none). */
  datatype Outcome =
    | Threw
    | HttpError(status: int)
    | Answered(text: string)

  /** `process.env.GEMINI_API_KEY` is truthy. */
  predicate HasKey(apiKey: Option<string>)
  {
    apiKey.Some? && apiKey.value != ""
  }
}
