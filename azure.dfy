/** azure.py: `ask_azure`, the Azure OpenAI chat-completions adapter. */
module Azure {
  import opened Wrappers
  import opened Json
  import opened Strings
  import opened Util
  import opened Adapter
  import Http

  const API_VERSION: string := "2024-06-01"
  const DEFAULT_MODEL: string := "gpt-4o-2024-05-13"

  /** The deployment name: every "." removed, since Azure names gpt-35-turbo what OpenAI calls gpt-3.5-turbo. */
  function Deployment(model: Option<string>): (d: string)
    ensures '.' !in d
    ensures model.Some? ==> multiset(d) == multiset(model.value)['.' := 0]
    ensures model.Some? && '.' !in model.value ==> d == model.value
    ensures model.None? ==> d == DEFAULT_MODEL
  {
    if model.None? then
      RemoveAllAbsent(DEFAULT_MODEL, '.');
      RemoveAll(DEFAULT_MODEL, '.')
    else if '.' !in model.value then
      RemoveAllAbsent(model.value, '.');
      RemoveAll(model.value, '.')
    else RemoveAll(model.value, '.')
  }

  function DeploymentUrl(endpoint: string, deployment: string): (u: string)
  {
    endpoint + "openai/deployments/" + deployment + "/chat/completions?api-version=" + API_VERSION
  }

  /** `json_data` as ask_azure sends it: the model, the messages unchanged, and exactly the supplied options. */
  ghost predicate IsBody(body: Json, deployment: string, messages: Json, temperature: Option<Json>,
                         seed: Option<Json>, topP: Option<Json>, maxTokens: Option<Json>,
                         logprobs: Option<Json>, topLogprobs: Option<Json>)
  {
    && body.JObj?
    && body.fields.Keys <= {"model", "messages"} + SAMPLING_KEYS + LOGPROB_KEYS
    && "model" in body.fields && body.fields["model"] == JStr(deployment)
    && "messages" in body.fields && body.fields["messages"] == messages
    && Sampled(body.fields, temperature, seed, topP, maxTokens)
    && Logged(body.fields, AsBool(logprobs), topLogprobs)
  }

  /** azure.py:57-75: the body, filled by conditional assignments. */
  method BuildBody(deployment: string, messages: Json, temperature: Option<Json>, seed: Option<Json>,
                   topP: Option<Json>, maxTokens: Option<Json>, logprobs: Option<Json>, topLogprobs: Option<Json>)
    returns (body: Json)
    ensures IsBody(body, deployment, messages, temperature, seed, topP, maxTokens, logprobs, topLogprobs)
  {
    var base := map["model" := JStr(deployment), "messages" := messages];
    var sampled := AddSampling(base, temperature, seed, topP, maxTokens);
    var fields := AddLogprobs(sampled, AsBool(logprobs), topLogprobs);
    SampledKept(sampled, fields, LOGPROB_KEYS, temperature, seed, topP, maxTokens);
    ExtendsChain(base, sampled, fields, SAMPLING_KEYS, LOGPROB_KEYS);
    assert base.Keys == {"model", "messages"};
    body := JObj(fields);
  }

  /** The headers: the key only under `api-key`. */
  function Headers(key: string): (h: map<string, string>)
    ensures h.Keys == {"api-key", "Content-Type"} && h["api-key"] == key
    ensures Http.Redact(h)["api-key"] == Http.REDACTED && Http.Redact(h)["Content-Type"] == CONTENT_TYPE
  {
    map["api-key" := key, "Content-Type" := CONTENT_TYPE]
  }

  /** What `AskAzure` returns and how many POSTs it makes, for the given environment and network. */
  ghost predicate Outcome(net: nat -> Http.Outcome, posts0: nat, posts1: nat, env: map<string, string>,
                          model: Option<string>, url: Option<string>, key: Option<string>, messages: Json,
                          temperature: Option<Json>, seed: Option<int>, topP: Option<Json>,
                          maxTokens: Option<int>, logprobs: Option<string>, topLogprobs: Option<int>,
                          r: Result<Reply, Failure>)
  {
    var k := Resolve(key, env, "AZURE_OPENAI_API_KEY");
    var e := Resolve(url, env, "AZURE_OPENAI_ENDPOINT");
    && (k.Err? ==> r == Err(k.error) && posts1 == posts0)
    && (k.Ok? && e.Err? ==> r == Err(e.error) && posts1 == posts0)
    && (k.Ok? && e.Ok? ==>
        var d := Deployment(model);
        && posts1 == posts0 + Http.Run(net, posts0, 0).attempts
        && exists body :: IsBody(body, d, messages, temperature, IntArg(seed), topP, IntArg(maxTokens), StrArg(logprobs), IntArg(topLogprobs)) &&
            Answered(net, posts0, DeploymentUrl(e.value, d), Headers(k.value), body,
                     CHOICE_CONTENT, Some(MODEL_FIELD), d, "azure", r))
  }

  /**
   * `ask_azure(model, url, api_key, messages, ...)`: the key and the endpoint
   * are looked up only when not given; no POST is made when either is missing.
   */
  method AskAzure(t: Http.Transport, env: map<string, string>, model: Option<string>, url: Option<string>,
                  key: Option<string>, messages: Json, temperature: Option<Json>, seed: Option<int>,
                  topP: Option<Json>, maxTokens: Option<int>, logprobs: Option<string>, topLogprobs: Option<int>)
    returns (r: Result<Reply, Failure>)
    requires t.Valid()
    modifies t
    ensures Outcome(t.net, old(t.posts), t.posts, env, model, url, key, messages, temperature, seed, topP,
                    maxTokens, logprobs, topLogprobs, r)
    ensures t.AtMostOneCall(old(t.posts), old(t.session), old(t.slept))
  {
    var apiKey := Resolve(key, env, "AZURE_OPENAI_API_KEY");
    if apiKey.Err? {
      return Err(apiKey.error);
    }
    var endpoint := Resolve(url, env, "AZURE_OPENAI_ENDPOINT");
    if endpoint.Err? {
      return Err(endpoint.error);
    }
    var deployment := Deployment(model);
    var target := DeploymentUrl(endpoint.value, deployment);
    var body := BuildBody(deployment, messages, temperature, IntArg(seed), topP, IntArg(maxTokens), StrArg(logprobs), IntArg(topLogprobs));
    r := Converse(t, target, Headers(apiKey.value), body, CHOICE_CONTENT, Some(MODEL_FIELD), deployment, "azure");
  }

  /** A successful call reports provider "azure", the answer at `choices[0].message.content` and a redacted key. */
  lemma AzureReply(net: nat -> Http.Outcome, posts: nat, url: string, key: string, body: Json, d: string, r: Result<Reply, Failure>)
    requires Answered(net, posts, url, Headers(key), body, CHOICE_CONTENT, Some(MODEL_FIELD), d, "azure", r)
    requires r.Ok?
    ensures r.value.provider == "azure"
    ensures Lookup(r.value.response, CHOICE_CONTENT) == Some(r.value.answer)
    ensures Lookup(r.value.response, MODEL_FIELD) == Some(r.value.model)
    ensures r.value.request.url == url && r.value.request.json == body
    ensures r.value.request.headers == map["api-key" := Http.REDACTED, "Content-Type" := CONTENT_TYPE]
  {
    var t := Http.Run(net, posts, 0);
    assert t.result.Ok?;
  }
}
