/** gemini.py: `ask_gemini`, the Gemini API adapter authenticated by an API key. */
module Gemini {
  import opened Wrappers
  import opened Json
  import opened Util
  import opened Messages
  import opened Adapter
  import opened Google
  import Http

  const DEFAULT_MODEL: string := "gemini-2.0-flash"

  /** The response's `modelVersion` field. */
  const MODEL_VERSION: Path := [Key("modelVersion")]

  const API_BASE: string := "https://generativelanguage.googleapis.com/v1beta/models/"
  const METHOD: string := ":generateContent"

  /** The fixed endpoint: only the model varies, and it can be read back from between the fixed ends. */
  function Endpoint(model: string): (u: string)
    ensures |u| == |API_BASE| + |model| + |METHOD|
    ensures u[..|API_BASE|] == API_BASE && u[|u| - |METHOD|..] == METHOD
    ensures u[|API_BASE|..|u| - |METHOD|] == model
  {
    API_BASE + model + METHOD
  }

  /**
   * `json_data` as ask_gemini sends it: the reshaped conversation, a
   * `systemInstruction` exactly when the joined system text is non-empty,
   * and a `generationConfig` exactly when some sampling option was supplied.
   */
  ghost predicate IsBody(body: Json, contents: seq<Json>, system: string, temperature: Option<Json>,
                         seed: Option<Json>, topP: Option<Json>, maxTokens: Option<Json>)
  {
    && body.JObj?
    && body.fields.Keys <= {"contents", "systemInstruction", GENERATION_CONFIG}
    && "contents" in body.fields && body.fields["contents"] == JArr(contents)
    && ("systemInstruction" in body.fields <==> system != "")
    && (system != "" ==> body.fields["systemInstruction"] == Instruction(system))
    && (GENERATION_CONFIG in body.fields <==>
          maxTokens.Some? || seed.Some? || topP.Some? || temperature.Some?)
    && (GENERATION_CONFIG in body.fields ==>
          IsGenerationConfig(body.fields[GENERATION_CONFIG], maxTokens, seed, topP, temperature))
  }

  /** gemini.py:41-62: the body, with `generationConfig` created by the first option that needs it. */
  method BuildBody(contents: seq<Json>, system: string, temperature: Option<Json>, seed: Option<Json>,
                   topP: Option<Json>, maxTokens: Option<Json>)
    returns (body: Json)
    ensures IsBody(body, contents, system, temperature, seed, topP, maxTokens)
  {
    var fields := map["contents" := JArr(contents)];
    if system != "" {
      fields := fields["systemInstruction" := Instruction(system)];
    }
    var filled := FillConfig(fields, maxTokens, seed, topP, temperature);
    Filled(fields, filled, contents, system, temperature, seed, topP, maxTokens);
    body := JObj(filled);
  }

  /** Filling the config into the contents and the instruction gives the body. */
  lemma Filled(fields: map<string, Json>, filled: map<string, Json>, contents: seq<Json>, system: string,
               temperature: Option<Json>, seed: Option<Json>, topP: Option<Json>, maxTokens: Option<Json>)
    requires fields == if system != "" then map["contents" := JArr(contents), "systemInstruction" := Instruction(system)]
                       else map["contents" := JArr(contents)]
    requires forall k :: k in fields && k != GENERATION_CONFIG ==> k in filled && filled[k] == fields[k]
    requires filled.Keys <= fields.Keys + {GENERATION_CONFIG}
    requires GENERATION_CONFIG in filled <==> maxTokens.Some? || seed.Some? || topP.Some? || temperature.Some?
    requires GENERATION_CONFIG in filled ==> IsGenerationConfig(filled[GENERATION_CONFIG], maxTokens, seed, topP, temperature)
    ensures IsBody(JObj(filled), contents, system, temperature, seed, topP, maxTokens)
  {
    assert "contents" in fields && fields.Keys <= {"contents", "systemInstruction"};
    assert "systemInstruction" in fields <==> system != "";
  }

  /** The headers: the key under `X-goog-api-key`. */
  function Headers(key: string): (h: map<string, string>)
    ensures h.Keys == {"X-goog-api-key", "Content-Type"} && h["X-goog-api-key"] == key
    ensures Http.Redact(h) == h["X-goog-api-key" := Http.REDACTED]
  {
    map["X-goog-api-key" := key, "Content-Type" := CONTENT_TYPE]
  }

  /** What `AskGemini` returns and how many POSTs it makes, for the given environment and network. */
  ghost predicate Outcome(net: nat -> Http.Outcome, posts0: nat, posts1: nat, env: map<string, string>,
                          provider: string, model: Option<string>, key: Option<string>, messages: Json,
                          temperature: Option<Json>, seed: Option<int>, topP: Option<Json>, maxTokens: Option<int>,
                          r: Result<Reply, Failure>)
  {
    var k := Resolve(key, env, "GEMINI_API_KEY");
    && (k.Err? ==> r == Err(k.error) && posts1 == posts0)
    && (k.Ok? && Conversation(messages).None? ==> r == Err(BadMessages) && posts1 == posts0)
    && (k.Ok? && Conversation(messages).Some? ==>
        var m := if model.Some? then model.value else DEFAULT_MODEL;
        var (system, contents) := Conversation(messages).value;
        && posts1 == posts0 + Http.Run(net, posts0, 0).attempts
        && exists body :: IsBody(body, contents, system, temperature, IntArg(seed), topP, IntArg(maxTokens)) &&
            Answered(net, posts0, Endpoint(m), Headers(k.value), body, CANDIDATE_TEXT, Some(MODEL_VERSION), m,
                     provider, r))
  }

  /**
   * `ask_gemini(provider, model, url, api_key, messages, temperature, seed,
   * top_p, max_tokens)`: the `url` argument is accepted and never used.
   */
  method AskGemini(t: Http.Transport, env: map<string, string>, provider: string, model: Option<string>,
                   url: Option<string>, key: Option<string>, messages: Json, temperature: Option<Json>,
                   seed: Option<int>, topP: Option<Json>, maxTokens: Option<int>)
    returns (r: Result<Reply, Failure>)
    requires t.Valid()
    modifies t
    ensures Outcome(t.net, old(t.posts), t.posts, env, provider, model, key, messages, temperature, seed, topP,
                    maxTokens, r)
    ensures t.AtMostOneCall(old(t.posts), old(t.session), old(t.slept))
  {
    var m := if model.Some? then model.value else DEFAULT_MODEL;
    var apiKey := Resolve(key, env, "GEMINI_API_KEY");
    if apiKey.Err? {
      return Err(apiKey.error);
    }
    var contents := Conversation(messages);
    if contents.None? {
      return Err(BadMessages);
    }
    var body := BuildBody(contents.value.1, contents.value.0, temperature, IntArg(seed), topP, IntArg(maxTokens));
    r := Converse(t, Endpoint(m), Headers(apiKey.value), body, CANDIDATE_TEXT, Some(MODEL_VERSION), m, provider);
  }

  /** The body is determined by the inputs: two bodies meeting the description are equal. */
  lemma BodyIsDetermined(b1: Json, b2: Json, contents: seq<Json>, system: string, temperature: Option<Json>,
                         seed: Option<Json>, topP: Option<Json>, maxTokens: Option<Json>)
    requires IsBody(b1, contents, system, temperature, seed, topP, maxTokens)
    requires IsBody(b2, contents, system, temperature, seed, topP, maxTokens)
    ensures b1 == b2
  {
    if GENERATION_CONFIG in b1.fields {
      ConfigIsDetermined(b1.fields[GENERATION_CONFIG], b2.fields[GENERATION_CONFIG], maxTokens, seed, topP,
                         temperature);
    }
    assert b1.fields == b2.fields;
  }

  /** A conversation without system text sends no `systemInstruction`; options absent, no `generationConfig`. */
  lemma MinimalBody(body: Json, contents: seq<Json>)
    requires IsBody(body, contents, "", None, None, None, None)
    ensures body == JObj(map["contents" := JArr(contents)])
  {
    assert body.fields.Keys == {"contents"};
  }
}
