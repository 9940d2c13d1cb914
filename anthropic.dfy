/** anthropic.py: `ask_anthropic`, the Anthropic Messages API adapter. */
module Anthropic {
  import opened Wrappers
  import opened Json
  import opened Util
  import opened Messages
  import opened Adapter
  import Http

  const DEFAULT_MODEL: string := "claude-3-5-sonnet-20240620"
  const DEFAULT_URL: string := "https://api.anthropic.com/v1/messages"
  const API_VERSION: string := "2023-06-01"

  /** The answer path `content[0].text`. */
  const CONTENT_TEXT: Path := [Key("content"), Index(0), Key("text")]

  /**
   * `json_data` as ask_anthropic sends it: the model, the conversation
   * without its system entries, the top-level `system` text (always present),
   * and exactly the supplied temperature, top_p and max_tokens. No seed or
   * logprobs field can appear.
   */
  ghost predicate IsBody(body: Json, model: string, messages: seq<Json>, system: string,
                         temperature: Option<Json>, topP: Option<Json>, maxTokens: Option<Json>)
  {
    && body.JObj?
    && body.fields.Keys <= {"model", "messages", "system", "temperature", "top_p", "max_tokens"}
    && "model" in body.fields && body.fields["model"] == JStr(model)
    && "messages" in body.fields && body.fields["messages"] == JArr(NonSystem(messages))
    && "system" in body.fields && body.fields["system"] == JStr(system)
    && Carries(body.fields, "temperature", temperature)
    && Carries(body.fields, "top_p", topP)
    && Carries(body.fields, "max_tokens", maxTokens)
  }

  /** anthropic.py:37-48: the body, filled by conditional assignments. */
  method BuildBody(model: string, messages: seq<Json>, system: string,
                   temperature: Option<Json>, topP: Option<Json>, maxTokens: Option<Json>)
    returns (body: Json)
    ensures IsBody(body, model, messages, system, temperature, topP, maxTokens)
    ensures "seed" !in body.fields && "logprobs" !in body.fields && "top_logprobs" !in body.fields
  {
    var fields := map["model" := JStr(model), "messages" := JArr(NonSystem(messages)), "system" := JStr(system)];
    if temperature.Some? {
      fields := fields["temperature" := temperature.value];
    }
    if topP.Some? {
      fields := fields["top_p" := topP.value];
    }
    if maxTokens.Some? {
      fields := fields["max_tokens" := maxTokens.value];
    }
    body := JObj(fields);
  }

  /** The headers: the key under `x-api-key` and the pinned API version. */
  function Headers(key: string): (h: map<string, string>)
    ensures h.Keys == {"x-api-key", "anthropic-version", "Content-Type"}
    ensures h["x-api-key"] == key && h["anthropic-version"] == API_VERSION
    ensures Http.Redact(h) == h["x-api-key" := Http.REDACTED]
  {
    map["x-api-key" := key, "anthropic-version" := API_VERSION, "Content-Type" := CONTENT_TYPE]
  }

  /** What `AskAnthropic` returns and how many POSTs it makes, for the given environment and network. */
  ghost predicate Outcome(net: nat -> Http.Outcome, posts0: nat, posts1: nat, env: map<string, string>,
                          model: Option<string>, url: Option<string>, key: Option<string>, messages: Json,
                          temperature: Option<Json>, topP: Option<Json>, maxTokens: Option<int>,
                          r: Result<Reply, Failure>)
  {
    var k := Resolve(key, env, "ANTHROPIC_API_KEY");
    var es := Entries(messages);
    && (k.Err? ==> r == Err(k.error) && posts1 == posts0)
    && (k.Ok? && (es.None? || SystemText(es.value).None?) ==> r == Err(BadMessages) && posts1 == posts0)
    && (k.Ok? && es.Some? && SystemText(es.value).Some? ==>
        var m := if model.Some? then model.value else DEFAULT_MODEL;
        var u := if url.Some? then url.value else DEFAULT_URL;
        && posts1 == posts0 + Http.Run(net, posts0, 0).attempts
        && exists body :: IsBody(body, m, es.value, SystemText(es.value).value, temperature, topP, IntArg(maxTokens)) &&
            Answered(net, posts0, u, Headers(k.value), body, CONTENT_TEXT, Some(MODEL_FIELD), m, "anthropic", r))
  }

  /**
   * `ask_anthropic(model, url, api_key, messages, temperature, top_p, max_tokens)`:
   * messages the system comprehension raises on (a value that is not a list
   * and not empty, or an entry without "role") end the run before any POST.
   */
  method AskAnthropic(t: Http.Transport, env: map<string, string>, model: Option<string>, url: Option<string>,
                      key: Option<string>, messages: Json, temperature: Option<Json>,
                      topP: Option<Json>, maxTokens: Option<int>)
    returns (r: Result<Reply, Failure>)
    requires t.Valid()
    modifies t
    ensures Outcome(t.net, old(t.posts), t.posts, env, model, url, key, messages, temperature, topP, maxTokens,
                    r)
    ensures t.AtMostOneCall(old(t.posts), old(t.session), old(t.slept))
  {
    var m := if model.Some? then model.value else DEFAULT_MODEL;
    var u := if url.Some? then url.value else DEFAULT_URL;
    var apiKey := Resolve(key, env, "ANTHROPIC_API_KEY");
    if apiKey.Err? {
      return Err(apiKey.error);
    }
    var entries := Entries(messages);
    if entries.None? {
      return Err(BadMessages);
    }
    var system := SystemText(entries.value);
    if system.None? {
      return Err(BadMessages);
    }
    var body := BuildBody(m, entries.value, system.value, temperature, topP, IntArg(maxTokens));
    r := Converse(t, u, Headers(apiKey.value), body, CONTENT_TEXT, Some(MODEL_FIELD), m, "anthropic");
  }

  /** A system-only conversation sends an empty `messages` list and all system text at the top level. */
  lemma SystemOnlyConversation(body: Json, model: string, messages: seq<Json>, system: string,
                               temperature: Option<Json>, topP: Option<Json>, maxTokens: Option<Json>)
    requires forall i :: 0 <= i < |messages| ==> IsSystem(messages[i])
    requires IsBody(body, model, messages, system, temperature, topP, maxTokens)
    ensures body.fields["messages"] == JArr([])
  {
    NonSystemOfSystemOnly(messages);
  }
}
