/** ollama.py: `ask_ollama`, the local Ollama chat adapter. */
module Ollama {
  import opened Wrappers
  import opened Json
  import opened Util
  import opened Adapter
  import Http

  const DEFAULT_MODEL: string := "llama3"
  const DEFAULT_URL: string := "http://localhost:11434/api/chat"

  /** The answer path `message.content`. */
  const MESSAGE_CONTENT: Path := [Key("message"), Key("content")]

  /** The sampling options: exactly the supplied ones, `max_tokens` renamed `num_predict`. */
  ghost predicate IsOptions(options: map<string, Json>, temperature: Option<Json>, seed: Option<Json>,
                            topP: Option<Json>, maxTokens: Option<Json>)
  {
    && options.Keys <= {"temperature", "seed", "top_p", "num_predict"}
    && Carries(options, "temperature", temperature)
    && Carries(options, "seed", seed)
    && Carries(options, "top_p", topP)
    && Carries(options, "num_predict", maxTokens)
  }

  /** `json_data` as ask_ollama sends it: `stream` false and `options` always present. */
  ghost predicate IsBody(body: Json, model: string, messages: Json, temperature: Option<Json>,
                         seed: Option<Json>, topP: Option<Json>, maxTokens: Option<Json>)
  {
    && body.JObj?
    && body.fields.Keys == {"model", "messages", "stream", "options"}
    && body.fields["model"] == JStr(model)
    && body.fields["messages"] == messages
    && body.fields["stream"] == JBool(false)
    && body.fields["options"].JObj?
    && IsOptions(body.fields["options"].fields, temperature, seed, topP, maxTokens)
  }

  /** ollama.py:24-42: the nested `options` object filled in place. */
  method BuildBody(model: string, messages: Json, temperature: Option<Json>, seed: Option<Json>,
                   topP: Option<Json>, maxTokens: Option<Json>)
    returns (body: Json)
    ensures IsBody(body, model, messages, temperature, seed, topP, maxTokens)
    ensures "max_tokens" !in body.fields["options"].fields
  {
    var options: map<string, Json> := map[];
    if temperature.Some? {
      options := options["temperature" := temperature.value];
    }
    if seed.Some? {
      options := options["seed" := seed.value];
    }
    if topP.Some? {
      options := options["top_p" := topP.value];
    }
    if maxTokens.Some? {
      options := options["num_predict" := maxTokens.value];
    }
    body := JObj(map["model" := JStr(model), "messages" := messages, "stream" := JBool(false),
                     "options" := JObj(options)]);
  }

  /** With no sampling argument the options object is present and empty. */
  lemma EmptyOptions(body: Json, model: string, messages: Json)
    requires IsBody(body, model, messages, None, None, None, None)
    ensures body.fields["options"] == JObj(map[])
  {
    assert body.fields["options"].fields.Keys == {};
  }

  /** What `AskOllama` returns and how many POSTs it makes, for the given environment and network. */
  ghost predicate Outcome(net: nat -> Http.Outcome, posts0: nat, posts1: nat, model: Option<string>,
                          url: Option<string>, messages: Json, temperature: Option<Json>,
                          seed: Option<int>, topP: Option<Json>, maxTokens: Option<int>,
                          r: Result<Reply, Failure>)
  {
    var m := if model.Some? then model.value else DEFAULT_MODEL;
    var u := if url.Some? then url.value else DEFAULT_URL;
    && posts1 == posts0 + Http.Run(net, posts0, 0).attempts
    && exists body :: IsBody(body, m, messages, temperature, IntArg(seed), topP, IntArg(maxTokens)) &&
         Answered(net, posts0, u, map[], body, MESSAGE_CONTENT, Some(MODEL_FIELD), m, "ollama", r)
  }

  /** `ask_ollama(model, url, messages, temperature, seed, top_p, max_tokens)`: no credential, empty headers. */
  method AskOllama(t: Http.Transport, model: Option<string>, url: Option<string>, messages: Json,
                   temperature: Option<Json>, seed: Option<int>, topP: Option<Json>, maxTokens: Option<int>)
    returns (r: Result<Reply, Failure>)
    requires t.Valid()
    modifies t
    ensures Outcome(t.net, old(t.posts), t.posts, model, url, messages, temperature, seed, topP, maxTokens, r)
    ensures t.AtMostOneCall(old(t.posts), old(t.session), old(t.slept))
  {
    var m := if model.Some? then model.value else DEFAULT_MODEL;
    var u := if url.Some? then url.value else DEFAULT_URL;
    var body := BuildBody(m, messages, temperature, IntArg(seed), topP, IntArg(maxTokens));
    ghost var posts0 := t.posts;
    r := Converse(t, u, map[], body, MESSAGE_CONTENT, Some(MODEL_FIELD), m, "ollama");
    ConversedOutcome(t.net, posts0, t.posts, model, url, messages, temperature, seed, topP, maxTokens, body, r);
  }

  /** The exchange `AskOllama` makes with the body it built is its outcome. */
  lemma ConversedOutcome(net: nat -> Http.Outcome, posts0: nat, posts1: nat, model: Option<string>,
                         url: Option<string>, messages: Json, temperature: Option<Json>,
                         seed: Option<int>, topP: Option<Json>, maxTokens: Option<int>, body: Json,
                         r: Result<Reply, Failure>)
    requires posts1 == posts0 + Http.Run(net, posts0, 0).attempts
    requires IsBody(body, if model.Some? then model.value else DEFAULT_MODEL, messages, temperature,
                    IntArg(seed), topP, IntArg(maxTokens))
    requires Answered(net, posts0, if url.Some? then url.value else DEFAULT_URL, map[], body, MESSAGE_CONTENT,
                      Some(MODEL_FIELD), if model.Some? then model.value else DEFAULT_MODEL, "ollama", r)
    ensures Outcome(net, posts0, posts1, model, url, messages, temperature, seed, topP, maxTokens, r)
  {
  }

  /**
   * A successful call, whatever its arguments, reports provider "ollama", the
   * answer at `message.content`, the reported model, and a request to the
   * chosen URL with no headers at all.
   */
  lemma OllamaReply(net: nat -> Http.Outcome, posts0: nat, posts1: nat, model: Option<string>,
                    url: Option<string>, messages: Json, temperature: Option<Json>,
                    seed: Option<int>, topP: Option<Json>, maxTokens: Option<int>, r: Result<Reply, Failure>)
    requires Outcome(net, posts0, posts1, model, url, messages, temperature, seed, topP, maxTokens, r)
    requires r.Ok?
    ensures r.value.provider == "ollama"
    ensures Lookup(r.value.response, MESSAGE_CONTENT) == Some(r.value.answer)
    ensures Lookup(r.value.response, MODEL_FIELD) == Some(r.value.model)
    ensures r.value.request.url == if url.Some? then url.value else DEFAULT_URL
    ensures r.value.request.headers == map[]
    ensures IsBody(r.value.request.json, if model.Some? then model.value else DEFAULT_MODEL, messages,
                   temperature, IntArg(seed), topP, IntArg(maxTokens))
  {
    var m := if model.Some? then model.value else DEFAULT_MODEL;
    var u := if url.Some? then url.value else DEFAULT_URL;
    var body :| IsBody(body, m, messages, temperature, IntArg(seed), topP, IntArg(maxTokens)) &&
                Answered(net, posts0, u, map[], body, MESSAGE_CONTENT, Some(MODEL_FIELD), m, "ollama", r);
    var t := Http.Run(net, posts0, 0);
    assert t.result.Ok?;
    Http.RedactWithoutSecrets(map[]);
  }
}
