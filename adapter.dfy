/**
 * What every provider adapter shares once its request is prepared: one
 * `http_request`, then `response.json()` and the fixed subscripts that
 * extract the answer and the model, with every exception in that block
 * turned into `fatal("EXCEPTION: ...")`.
 */
module Adapter {
  import opened Wrappers
  import opened Json
  import opened Util
  import Http

  /** The five values an adapter returns: `request, response, answer, provider, model`. */
  datatype Reply = Reply(request: Http.Request, response: Json, answer: Json, provider: string, model: Json)

  const CONTENT_TYPE: string := "application/json"

  /**
   * The `try` block after the exchange: the decoded body, the answer at
   * `answerPath`, and the model at `modelPath` or, when the provider does not
   * report one, the requested name.
   */
  function Complete(ex: Http.Exchange, answerPath: Path, modelPath: Option<Path>, requested: string, provider: string)
    : (r: Result<Reply, Failure>)
    ensures r.Ok? <==>
      && ex.body.Some?
      && Lookup(ex.body.value, answerPath).Some?
      && (modelPath.Some? ==> Lookup(ex.body.value, modelPath.value).Some?)
    ensures r.Err? ==> r.error == MalformedResponse
    ensures r.Ok? ==>
      && r.value.request == ex.request
      && r.value.response == ex.body.value
      && Some(r.value.answer) == Lookup(ex.body.value, answerPath)
      && r.value.provider == provider
      && (modelPath.Some? ==> Some(r.value.model) == Lookup(ex.body.value, modelPath.value))
      && (modelPath.None? ==> r.value.model == JStr(requested))
  {
    if ex.body.None? then Err(MalformedResponse)
    else
      var answer := Lookup(ex.body.value, answerPath);
      var model := if modelPath.Some? then Lookup(ex.body.value, modelPath.value) else Some(JStr(requested));
      if answer.None? || model.None? then Err(MalformedResponse)
      else Ok(Reply(ex.request, ex.body.value, answer.value, provider, model.value))
  }

  /**
   * The outcome of sending `url`, `headers`, `body` when the network's answers
   * start at number `posts`: an HTTP failure, or the extraction applied to
   * the request record whose headers are redacted.
   */
  ghost predicate Answered(net: nat -> Http.Outcome, posts: nat, url: string, headers: map<string, string>, body: Json,
                           answerPath: Path, modelPath: Option<Path>, requested: string, provider: string,
                           r: Result<Reply, Failure>)
  {
    var t := Http.Run(net, posts, 0);
    match t.result
    case Err(e) => r == Err(HttpFailure(e))
    case Ok(b) => r == Complete(Http.Exchange(Http.Request(url, Http.Redact(headers), body), b),
                               answerPath, modelPath, requested, provider)
  }

  /**
   * `request, response = http_request(url, headers, json_data)` followed by the
   * extraction, for the adapters that pre-initialise `request` and `response`
   * so that the handler can always report them.
   */
  method Converse(t: Http.Transport, url: string, headers: map<string, string>, body: Json,
                  answerPath: Path, modelPath: Option<Path>, requested: string, provider: string)
    returns (r: Result<Reply, Failure>)
    requires t.Valid()
    modifies t
    ensures Answered(t.net, old(t.posts), url, headers, body, answerPath, modelPath, requested, provider, r)
    ensures t.posts == old(t.posts) + Http.Run(t.net, old(t.posts), 0).attempts
    ensures t.session == old(t.session) + Http.Run(t.net, old(t.posts), 0).resets
    ensures t.slept == old(t.slept) + t.Delays(Http.Run(t.net, old(t.posts), 0).backoffs, |old(t.slept)|)
    ensures t.AtMostOneCall(old(t.posts), old(t.session), old(t.slept))
  {
    var h := new Http.HeaderDict(headers);
    var ex := t.HttpRequest(url, h, body, 0);
    if ex.Err? {
      return Err(HttpFailure(ex.error));
    }
    r := Complete(ex.value, answerPath, modelPath, requested, provider);
  }

  /** The OpenAI-style answer path `choices[0].message.content`. */
  const CHOICE_CONTENT: Path := [Key("choices"), Index(0), Key("message"), Key("content")]

  /** The Gemini answer path `candidates[0].content.parts[0].text`. */
  const CANDIDATE_TEXT: Path := [Key("candidates"), Index(0), Key("content"), Key("parts"), Index(0), Key("text")]

  /** The response's own `model` field. */
  const MODEL_FIELD: Path := [Key("model")]

  /** An optional integer argument as JSON. */
  function IntArg(v: Option<int>): (r: Option<Json>)
    ensures r.Some? <==> v.Some?
    ensures v.Some? ==> r.value == JInt(v.value)
  {
    if v.Some? then Some(JInt(v.value)) else None
  }

  /** An optional CLI string argument as JSON. */
  function StrArg(v: Option<string>): (r: Option<Json>)
    ensures r.Some? <==> v.Some?
    ensures v.Some? ==> r.value == JStr(v.value)
  {
    if v.Some? then Some(JStr(v.value)) else None
  }

  /** `bool(logprobs)` on a supplied value: its truthiness, so any non-empty CLI text is true. */
  function AsBool(v: Option<Json>): (r: Option<Json>)
    ensures r.Some? <==> v.Some?
    ensures v.Some? && v.value.JStr? ==> r.value == JBool(v.value.s != "")
  {
    if v.Some? then Some(JBool(Truthy(v.value))) else None
  }

  /** The four sampling options the chat-completions adapters share. */
  const SAMPLING_KEYS: set<string> := {"temperature", "seed", "top_p", "max_tokens"}

  /** The two log-probability options, sent by the OpenAI and both Azure adapters. */
  const LOGPROB_KEYS: set<string> := {"logprobs", "top_logprobs"}

  /** The key groups of the chat-completions bodies are pairwise distinct. */
  lemma ChatKeysDisjoint()
    ensures SAMPLING_KEYS !! LOGPROB_KEYS
    ensures {"model", "messages"} !! SAMPLING_KEYS && {"model", "messages"} !! LOGPROB_KEYS
  {
  }

  /** `r` is `fields` with at most the keys `added` stored on top. */
  ghost predicate Extends(fields: map<string, Json>, r: map<string, Json>, added: set<string>)
  {
    && fields.Keys <= r.Keys <= fields.Keys + added
    && forall k :: k in fields ==> r[k] == fields[k]
  }

  /** Storing `added` on top of storing `more` stores at most both. */
  lemma ExtendsChain(a: map<string, Json>, b: map<string, Json>, c: map<string, Json>,
                     added: set<string>, more: set<string>)
    requires Extends(a, b, added) && Extends(b, c, more)
    ensures Extends(a, c, added + more)
  {
  }

  /** Each sampling option is carried under its own key exactly when supplied. */
  ghost predicate Sampled(fields: map<string, Json>, temperature: Option<Json>, seed: Option<Json>,
                          topP: Option<Json>, maxTokens: Option<Json>)
  {
    && Carries(fields, "temperature", temperature) && Carries(fields, "seed", seed)
    && Carries(fields, "top_p", topP) && Carries(fields, "max_tokens", maxTokens)
  }

  /** Each log-probability option is carried under its own key exactly when supplied. */
  ghost predicate Logged(fields: map<string, Json>, logprobs: Option<Json>, topLogprobs: Option<Json>)
  {
    Carries(fields, "logprobs", logprobs) && Carries(fields, "top_logprobs", topLogprobs)
  }

  /** Storing other keys keeps the sampling options as they were. */
  lemma SampledKept(fields: map<string, Json>, r: map<string, Json>, added: set<string>, temperature: Option<Json>,
                    seed: Option<Json>, topP: Option<Json>, maxTokens: Option<Json>)
    requires Sampled(fields, temperature, seed, topP, maxTokens)
    requires Extends(fields, r, added) && added !! SAMPLING_KEYS
    ensures Sampled(r, temperature, seed, topP, maxTokens)
  {
  }

  /** Storing other keys keeps the log-probability options as they were. */
  lemma LoggedKept(fields: map<string, Json>, r: map<string, Json>, added: set<string>,
                   logprobs: Option<Json>, topLogprobs: Option<Json>)
    requires Logged(fields, logprobs, topLogprobs)
    requires Extends(fields, r, added) && added !! LOGPROB_KEYS
    ensures Logged(r, logprobs, topLogprobs)
  {
  }

  /**
   * The first four conditional assignments of the OpenAI-style adapters:
   * each supplied sampling option is stored under its own key, nothing else
   * is touched.
   */
  method AddSampling(fields: map<string, Json>, temperature: Option<Json>, seed: Option<Json>,
                     topP: Option<Json>, maxTokens: Option<Json>)
    returns (r: map<string, Json>)
    requires fields.Keys !! SAMPLING_KEYS
    ensures Extends(fields, r, SAMPLING_KEYS) && Sampled(r, temperature, seed, topP, maxTokens)
  {
    r := fields;
    if temperature.Some? {
      r := r["temperature" := temperature.value];
    }
    if seed.Some? {
      r := r["seed" := seed.value];
    }
    if topP.Some? {
      r := r["top_p" := topP.value];
    }
    if maxTokens.Some? {
      r := r["max_tokens" := maxTokens.value];
    }
  }

  /** The `logprobs` and `top_logprobs` assignments: each stored exactly when supplied, nothing else touched. */
  method AddLogprobs(fields: map<string, Json>, logprobs: Option<Json>, topLogprobs: Option<Json>)
    returns (r: map<string, Json>)
    requires fields.Keys !! LOGPROB_KEYS
    ensures Extends(fields, r, LOGPROB_KEYS) && Logged(r, logprobs, topLogprobs)
  {
    r := fields;
    if logprobs.Some? {
      r := r["logprobs" := logprobs.value];
    }
    if topLogprobs.Some? {
      r := r["top_logprobs" := topLogprobs.value];
    }
  }
}
