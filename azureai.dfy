/** azureai.py: `ask_azureai`, the Azure AI Model Inference adapter. */
module AzureAI {
  import opened Wrappers
  import opened Json
  import opened Util
  import opened Adapter
  import Http

  /**
   * `json_data` as ask_azureai sends it: never a model, the messages
   * unchanged, and exactly the six supplied options, `logprobs` as a bool.
   */
  ghost predicate IsBody(body: Json, messages: Json, temperature: Option<Json>, seed: Option<Json>,
                         topP: Option<Json>, maxTokens: Option<Json>, logprobs: Option<Json>, topLogprobs: Option<Json>)
  {
    && body.JObj?
    && body.fields.Keys <= {"messages"} + SAMPLING_KEYS + LOGPROB_KEYS
    && "messages" in body.fields && body.fields["messages"] == messages
    && Sampled(body.fields, temperature, seed, topP, maxTokens)
    && Logged(body.fields, AsBool(logprobs), topLogprobs)
  }

  /** azureai.py:34-52: the body, filled by conditional assignments. */
  method BuildBody(messages: Json, temperature: Option<Json>, seed: Option<Json>, topP: Option<Json>,
                   maxTokens: Option<Json>, logprobs: Option<Json>, topLogprobs: Option<Json>)
    returns (body: Json)
    ensures IsBody(body, messages, temperature, seed, topP, maxTokens, logprobs, topLogprobs)
    ensures "model" !in body.fields
  {
    var base := map["messages" := messages];
    var sampled := AddSampling(base, temperature, seed, topP, maxTokens);
    var fields := AddLogprobs(sampled, AsBool(logprobs), topLogprobs);
    SampledKept(sampled, fields, LOGPROB_KEYS, temperature, seed, topP, maxTokens);
    ExtendsChain(base, sampled, fields, SAMPLING_KEYS, LOGPROB_KEYS);
    assert base.Keys == {"messages"};
    body := JObj(fields);
  }

  /** The headers: the raw key as the Authorization value, with no scheme. */
  function Headers(key: string): (h: map<string, string>)
    ensures h.Keys == {"Authorization", "Content-Type"} && h["Authorization"] == key
    ensures Http.Redact(h) == h["Authorization" := Http.REDACTED]
  {
    map["Authorization" := key, "Content-Type" := CONTENT_TYPE]
  }

  /** What `AskAzureAI` returns and how many POSTs it makes, for the given environment and network. */
  ghost predicate Outcome(net: nat -> Http.Outcome, posts0: nat, posts1: nat, env: map<string, string>,
                          url: Option<string>, key: Option<string>, messages: Json,
                          temperature: Option<Json>, seed: Option<int>, topP: Option<Json>,
                          maxTokens: Option<int>, logprobs: Option<string>, topLogprobs: Option<int>,
                          r: Result<Reply, Failure>)
  {
    var e := Resolve(url, env, "AZUREAI_ENDPOINT_URL");
    var k := Resolve(key, env, "AZUREAI_ENDPOINT_KEY");
    && (e.Err? ==> r == Err(e.error) && posts1 == posts0)
    && (e.Ok? && k.Err? ==> r == Err(k.error) && posts1 == posts0)
    && (e.Ok? && k.Ok? ==>
        && posts1 == posts0 + Http.Run(net, posts0, 0).attempts
        && exists body :: IsBody(body, messages, temperature, IntArg(seed), topP, IntArg(maxTokens), StrArg(logprobs), IntArg(topLogprobs)) &&
            Answered(net, posts0, e.value + "chat/completions", Headers(k.value), body,
                     CHOICE_CONTENT, Some(MODEL_FIELD), "", "azureai", r))
  }

  /** `ask_azureai(url, api_key, messages, ...)`: the endpoint is looked up before the key. */
  method AskAzureAI(t: Http.Transport, env: map<string, string>, url: Option<string>, key: Option<string>,
                    messages: Json, temperature: Option<Json>, seed: Option<int>, topP: Option<Json>,
                    maxTokens: Option<int>, logprobs: Option<string>, topLogprobs: Option<int>)
    returns (r: Result<Reply, Failure>)
    requires t.Valid()
    modifies t
    ensures Outcome(t.net, old(t.posts), t.posts, env, url, key, messages, temperature, seed, topP, maxTokens,
                    logprobs, topLogprobs, r)
    ensures t.AtMostOneCall(old(t.posts), old(t.session), old(t.slept))
  {
    var endpoint := Resolve(url, env, "AZUREAI_ENDPOINT_URL");
    if endpoint.Err? {
      return Err(endpoint.error);
    }
    var apiKey := Resolve(key, env, "AZUREAI_ENDPOINT_KEY");
    if apiKey.Err? {
      return Err(apiKey.error);
    }
    var target := endpoint.value + "chat/completions";
    var body := BuildBody(messages, temperature, IntArg(seed), topP, IntArg(maxTokens), StrArg(logprobs), IntArg(topLogprobs));
    r := Converse(t, target, Headers(apiKey.value), body, CHOICE_CONTENT, Some(MODEL_FIELD), "", "azureai");
  }
}
