/** openai.py: `ask_openai`, the OpenAI chat-completions adapter. */
module OpenAI {
  import opened Wrappers
  import opened Json
  import opened Util
  import opened Adapter
  import Http

  const DEFAULT_MODEL: string := "gpt-4o"
  const DEFAULT_URL: string := "https://api.openai.com/v1/chat/completions"

  /** The parameters `ask_openai` declares, in order; the router passes 10 positionally. */
  const DECLARED_ARITY: nat := 12

  /**
   * `json_data` as ask_openai sends it: the model, the messages unchanged
   * (system entries included), and each of the seven optional parameters
   * under its own name exactly when supplied, `logprobs` as given.
   */
  ghost predicate IsBody(body: Json, model: string, messages: Json, temperature: Option<Json>,
                         seed: Option<Json>, topP: Option<Json>, maxTokens: Option<Json>,
                         logprobs: Option<Json>, topLogprobs: Option<Json>, reasoningEffort: Option<Json>)
  {
    && body.JObj?
    && body.fields.Keys <= {"model", "messages"} + SAMPLING_KEYS + LOGPROB_KEYS + {"reasoning_effort"}
    && "model" in body.fields && body.fields["model"] == JStr(model)
    && "messages" in body.fields && body.fields["messages"] == messages
    && Sampled(body.fields, temperature, seed, topP, maxTokens)
    && Logged(body.fields, logprobs, topLogprobs)
    && Carries(body.fields, "reasoning_effort", reasoningEffort)
  }

  /** `reasoning_effort` is none of the keys stored before it. */
  lemma ReasoningKeyIsNew()
    ensures "reasoning_effort" !in {"model", "messages"} + SAMPLING_KEYS + LOGPROB_KEYS
    ensures {"reasoning_effort"} !! SAMPLING_KEYS && {"reasoning_effort"} !! LOGPROB_KEYS
  {
  }

  /** openai.py:44-65: the body, filled by seven conditional assignments. */
  method BuildBody(model: string, messages: Json, temperature: Option<Json>, seed: Option<Json>,
                   topP: Option<Json>, maxTokens: Option<Json>, logprobs: Option<Json>,
                   topLogprobs: Option<Json>, reasoningEffort: Option<Json>)
    returns (body: Json)
    ensures IsBody(body, model, messages, temperature, seed, topP, maxTokens, logprobs, topLogprobs, reasoningEffort)
  {
    var base := map["model" := JStr(model), "messages" := messages];
    ChatKeysDisjoint();
    ReasoningKeyIsNew();
    assert base.Keys == {"model", "messages"};
    var sampled := AddSampling(base, temperature, seed, topP, maxTokens);
    var logged := AddLogprobs(sampled, logprobs, topLogprobs);
    SampledKept(sampled, logged, LOGPROB_KEYS, temperature, seed, topP, maxTokens);
    ExtendsChain(base, sampled, logged, SAMPLING_KEYS, LOGPROB_KEYS);
    var fields := AddReasoning(logged, reasoningEffort);
    SampledKept(logged, fields, {"reasoning_effort"}, temperature, seed, topP, maxTokens);
    LoggedKept(logged, fields, {"reasoning_effort"}, logprobs, topLogprobs);
    ExtendsChain(base, logged, fields, SAMPLING_KEYS + LOGPROB_KEYS, {"reasoning_effort"});
    body := JObj(fields);
  }

  /** The `reasoning_effort` assignment: stored exactly when supplied, nothing else touched. */
  method AddReasoning(fields: map<string, Json>, reasoningEffort: Option<Json>) returns (r: map<string, Json>)
    requires "reasoning_effort" !in fields
    ensures Extends(fields, r, {"reasoning_effort"}) && Carries(r, "reasoning_effort", reasoningEffort)
  {
    r := fields;
    if reasoningEffort.Some? {
      r := r["reasoning_effort" := reasoningEffort.value];
    }
  }

  /** The headers: a bearer credential (section 2.1 of RFC 6750). */
  function Headers(key: string): (h: map<string, string>)
    ensures h.Keys == {"Authorization", "Content-Type"} && h["Authorization"] == "Bearer " + key
    ensures Http.Redact(h) == h["Authorization" := Http.REDACTED]
  {
    map["Authorization" := "Bearer " + key, "Content-Type" := CONTENT_TYPE]
  }

  /** What `AskOpenAI` returns and how many POSTs it makes, for the given environment and network. */
  ghost predicate Outcome(net: nat -> Http.Outcome, posts0: nat, posts1: nat, env: map<string, string>,
                          provider: string, model: Option<string>, url: Option<string>, key: Option<string>,
                          messages: Json, temperature: Option<Json>, seed: Option<int>, topP: Option<Json>,
                          maxTokens: Option<int>, logprobs: Option<string>, topLogprobs: Option<int>,
                          reasoningEffort: Option<string>, r: Result<Reply, Failure>)
  {
    var k := Resolve(key, env, "OPENAI_API_KEY");
    && (k.Err? ==> r == Err(k.error) && posts1 == posts0)
    && (k.Ok? ==>
        var m := if model.Some? then model.value else DEFAULT_MODEL;
        var u := if url.Some? then url.value else DEFAULT_URL;
        && posts1 == posts0 + Http.Run(net, posts0, 0).attempts
        && exists body ::
            IsBody(body, m, messages, temperature, IntArg(seed), topP, IntArg(maxTokens), StrArg(logprobs), IntArg(topLogprobs), StrArg(reasoningEffort)) &&
            Answered(net, posts0, u, Headers(k.value), body, CHOICE_CONTENT, Some(MODEL_FIELD), m, provider, r))
  }

  /** `ask_openai(provider, model, url, api_key, messages, ..., reasoning_effort)`. */
  method AskOpenAI(t: Http.Transport, env: map<string, string>, provider: string, model: Option<string>,
                   url: Option<string>, key: Option<string>, messages: Json, temperature: Option<Json>,
                   seed: Option<int>, topP: Option<Json>, maxTokens: Option<int>, logprobs: Option<string>,
                   topLogprobs: Option<int>, reasoningEffort: Option<string>)
    returns (r: Result<Reply, Failure>)
    requires t.Valid()
    modifies t
    ensures Outcome(t.net, old(t.posts), t.posts, env, provider, model, url, key, messages, temperature, seed,
                    topP, maxTokens, logprobs, topLogprobs, reasoningEffort, r)
    ensures t.AtMostOneCall(old(t.posts), old(t.session), old(t.slept))
  {
    var m := if model.Some? then model.value else DEFAULT_MODEL;
    var u := if url.Some? then url.value else DEFAULT_URL;
    var apiKey := Resolve(key, env, "OPENAI_API_KEY");
    if apiKey.Err? {
      return Err(apiKey.error);
    }
    var body := BuildBody(m, messages, temperature, IntArg(seed), topP, IntArg(maxTokens), StrArg(logprobs), IntArg(topLogprobs), StrArg(reasoningEffort));
    r := Converse(t, u, Headers(apiKey.value), body, CHOICE_CONTENT, Some(MODEL_FIELD), m, provider);
  }
}
