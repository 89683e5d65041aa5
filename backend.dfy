/** The fixed table of text-generation backends, URL resolution with fallback, and what a backend call can return. */
module Backend {
  import opened Common

  const DefaultModel := "model_a"
  const ModelAUrl := "https://api.example.com/llm/model_a"
  const ModelBUrl := "https://api.example.com/llm/model_b"

  /** The configured backends, by model name. */
  const LlmApiUrls: map<string, string> := map["model_a" := ModelAUrl, "model_b" := ModelBUrl]

  /** The URL used for a requested model: its table entry, or the default model's entry for any unknown name. */
  function ResolveUrl(model: string): (url: string)
    ensures model == "model_a" ==> url == ModelAUrl
    ensures model == "model_b" ==> url == ModelBUrl
    ensures model != "model_a" && model != "model_b" ==> url == ModelAUrl
    ensures model !in LlmApiUrls ==> url == LlmApiUrls[DefaultModel]
  {
    if model in LlmApiUrls then LlmApiUrls[model] else LlmApiUrls[DefaultModel]
  }

  /** An unknown model name resolves exactly as the default model does. This restates, for a reader,
      what the contract of ResolveUrl already gives. */
  lemma ResolveFallsBackToDefault(model: string)
    ensures model !in LlmApiUrls ==> ResolveUrl(model) == ResolveUrl(DefaultModel)
    ensures model in LlmApiUrls ==> ResolveUrl(model) == LlmApiUrls[model]
  {
  }

  /** The two configured backends have distinct URLs, so the table is injective and every result is one of them. */
  lemma ResolveTargetsTable(model: string)
    ensures ResolveUrl(model) in LlmApiUrls.Values
    ensures ResolveUrl(model) == ResolveUrl("model_b") <==> model == "model_b"
  {
    assert LlmApiUrls["model_a"] == ModelAUrl;
    assert ModelAUrl != ModelBUrl by { assert ModelAUrl[|ModelAUrl| - 1] != ModelBUrl[|ModelBUrl| - 1]; }
  }

  /** The outcome of one outbound call: a decoded JSON body whose "response" field may be absent,
      an HTTP-level failure (transport error or error status), or any other failure. */
  datatype BackendResult =
    | Replied(response: Option<string>)
    | HttpFailure
    | OtherFailure

  /** The text taken from a reply: the "response" field, or "" when it is absent. */
  function ReplyText(response: Option<string>): (text: string)
    ensures response.Some? ==> text == response.value
    ensures response.None? ==> text == ""
  {
    response.GetOr("")
  }
}
