/**
 * vertex.py: `ask_google`, the Vertex AI adapter. Its credential is an
 * access token printed by `gcloud auth print-access-token`, cached in the
 * module-global `API_KEY_CACHE` and refreshed once when the API answers 401.
 * The gcloud command is an oracle: its n-th run prints a token, or fails.
 */
module Vertex {
  import opened Wrappers
  import opened Json
  import opened Strings
  import opened Util
  import opened Messages
  import opened Adapter
  import opened Google
  import Http

  const DEFAULT_MODEL: string := "gemini-1.5-flash-001"
  const REGION_VARIABLE: string := "CLOUDSDK_COMPUTE_REGION"
  const PROJECT_VARIABLE: string := "CLOUDSDK_CORE_PROJECT"
  const METHOD: string := ":generateContent"

  const HOST: string := "-aiplatform.googleapis.com/v1/projects/"
  const LOCATIONS: string := "/locations/"
  const PUBLISHER: string := "/publishers/google/models/"

  /**
   * The regional endpoint of the publisher model: the region names the host
   * and, after the project, the location; the model comes last. Each part
   * reads back from its place in the URL.
   */
  function Endpoint(location: string, project: string, model: string): (u: string)
    ensures Spelled(u, ["https://", location, HOST, project, LOCATIONS, location, PUBLISHER, model, METHOD])
  {
    var parts := ["https://", location, HOST, project, LOCATIONS, location, PUBLISHER, model, METHOD];
    SpelledConcat(Concat(parts), parts);
    Concat(parts)
  }

  /** `get_google_token()` given what the gcloud run printed: the stripped token, fatal when the command failed. */
  function Token(printed: Option<string>): (r: Result<string, Failure>)
    ensures r.Err? <==> printed.None?
    ensures r.Err? ==> r.error == TokenUnavailable
    ensures r.Ok? ==> r.value == Strip(printed.value) && |r.value| <= |printed.value|
    ensures r.Ok? && r.value != [] ==> !IsSpace(r.value[0]) && !IsSpace(r.value[|r.value| - 1])
  {
    if printed.None? then Err(TokenUnavailable) else Ok(Strip(printed.value))
  }

  /**
   * `json_data` as ask_google sends it: the reshaped conversation, a
   * `systemInstruction` always (even for empty system text) and a
   * `generationConfig` always, holding exactly the supplied options.
   */
  ghost predicate IsBody(body: Json, contents: seq<Json>, system: string, temperature: Option<Json>,
                         seed: Option<Json>, topP: Option<Json>, maxTokens: Option<Json>)
  {
    && body.JObj?
    && body.fields.Keys == {"contents", "systemInstruction", GENERATION_CONFIG}
    && body.fields["contents"] == JArr(contents)
    && body.fields["systemInstruction"] == Instruction(system)
    && IsGenerationConfig(body.fields[GENERATION_CONFIG], maxTokens, seed, topP, temperature)
  }

  /** vertex.py:77-93: the body, with an empty `generationConfig` filled in place. */
  method BuildBody(contents: seq<Json>, system: string, temperature: Option<Json>, seed: Option<Json>,
                   topP: Option<Json>, maxTokens: Option<Json>)
    returns (body: Json)
    ensures IsBody(body, contents, system, temperature, seed, topP, maxTokens)
  {
    var fields := map["contents" := JArr(contents), "systemInstruction" := Instruction(system),
                      GENERATION_CONFIG := JObj(map[])];
    fields := FillConfig(fields, maxTokens, seed, topP, temperature);
    body := JObj(fields);
  }

  /** The headers: the token as a bearer credential (section 2.1 of RFC 6750). */
  function Headers(token: string): (h: map<string, string>)
    ensures h.Keys == {"Authorization", "Content-Type"} && h["Authorization"] == "Bearer " + token
    ensures Http.Redact(h) == h["Authorization" := Http.REDACTED]
  {
    map["Authorization" := "Bearer " + token, "Content-Type" := CONTENT_TYPE]
  }

  /** The request record cannot tell which token was sent: both redact to the same headers. */
  lemma RefreshIsInvisibleInRecord(first: string, second: string)
    ensures Http.Redact(Headers(first)) == Http.Redact(Headers(second))
  {
    assert Http.Redact(Headers(first)).Keys == Http.Redact(Headers(second)).Keys;
  }

  /** The reply once an exchange is over: a failure the handler does not catch, or the answer read from it. */
  function Answer(ex: Result<Http.Exchange, Http.HttpError>, requested: string): (r: Result<Reply, Failure>)
    ensures ex.Err? ==> r == Err(HttpFailure(ex.error))
    ensures ex.Ok? ==> r == Complete(ex.value, CANDIDATE_TEXT, None, requested, "google")
  {
    if ex.Err? then Err(HttpFailure(ex.error)) else Complete(ex.value, CANDIDATE_TEXT, None, requested, "google")
  }

  /**
   * The handler of vertex.py:109-113 after a 401, with the gcloud runs at
   * number `fetches0` and the network's answers at number `posts0`: one
   * token refresh and one resend; a second 401 reaches the outer handler with
   * `request` never assigned.
   */
  ghost predicate Renewed(net: nat -> Http.Outcome, posts0: nat, posts1: nat, gcloud: nat -> Option<string>,
                          fetches0: nat, fetches1: nat, token: string, cache1: Option<string>,
                          url: string, body: Json, requested: string, r: Result<Reply, Failure>)
  {
    var renewed := Token(gcloud(fetches0));
    && fetches1 == fetches0 + 1
    && (renewed.Err? ==> r == Err(TokenUnavailable) && posts1 == posts0 && cache1 == Some(token))
    && (renewed.Ok? ==>
          var second := Http.Run(net, posts0, 0);
          && posts1 == posts0 + second.attempts && cache1 == Some(renewed.value)
          && (second.result == Err(Http.Unauthorized) ==> r == Err(UnboundRequest))
          && (second.result != Err(Http.Unauthorized) ==>
                Answered(net, posts0, url, Headers(renewed.value), body, CANDIDATE_TEXT, None, requested, "google", r)))
  }

  /**
   * The exchange of vertex.py:106-121 with `token` in the header: the
   * answer to a first reply other than 401, or the renewal after it.
   */
  ghost predicate Exchanged(net: nat -> Http.Outcome, posts0: nat, posts1: nat, gcloud: nat -> Option<string>,
                            fetches0: nat, fetches1: nat, token: string, cache1: Option<string>,
                            url: string, body: Json, requested: string, r: Result<Reply, Failure>)
  {
    var first := Http.Run(net, posts0, 0);
    if first.result != Err(Http.Unauthorized) then
      && posts1 == posts0 + first.attempts && fetches1 == fetches0 && cache1 == Some(token)
      && Answered(net, posts0, url, Headers(token), body, CANDIDATE_TEXT, None, requested, "google", r)
    else
      Renewed(net, posts0 + first.attempts, posts1, gcloud, fetches0, fetches1, token, cache1, url, body, requested, r)
  }

  lemma ExchangedByRenewal(net: nat -> Http.Outcome, posts0: nat, posts1: nat, posts2: nat,
                           gcloud: nat -> Option<string>, fetches0: nat, fetches1: nat, token: string,
                           cache1: Option<string>, url: string, body: Json, requested: string, r: Result<Reply, Failure>)
    requires Http.Run(net, posts0, 0).result == Err(Http.Unauthorized)
    requires posts1 == posts0 + Http.Run(net, posts0, 0).attempts
    requires Renewed(net, posts1, posts2, gcloud, fetches0, fetches1, token, cache1, url, body, requested, r)
    ensures Exchanged(net, posts0, posts2, gcloud, fetches0, fetches1, token, cache1, url, body, requested, r)
  {
  }

  /**
   * What `ask_google` returns and how it leaves the cache, the gcloud run
   * counter and the POST counter, for the given environment, gcloud runs and
   * network.
   */
  ghost predicate Outcome(net: nat -> Http.Outcome, posts0: nat, posts1: nat, gcloud: nat -> Option<string>,
                          cache0: Option<string>, fetches0: nat, cache1: Option<string>, fetches1: nat,
                          env: map<string, string>, model: Option<string>, messages: Json,
                          temperature: Option<Json>, seed: Option<int>, topP: Option<Json>, maxTokens: Option<int>,
                          r: Result<Reply, Failure>)
  {
    var location := LookupVariable(env, REGION_VARIABLE);
    var project := LookupVariable(env, PROJECT_VARIABLE);
    var fetched := if cache0.Some? then Ok(cache0.value) else Token(gcloud(fetches0));
    var fetches := if cache0.Some? then fetches0 else fetches0 + 1;
    if location.Err? || project.Err? then
      && r == Err(if location.Err? then location.error else project.error)
      && posts1 == posts0 && cache1 == cache0 && fetches1 == fetches0
    else if fetched.Err? then
      r == Err(TokenUnavailable) && posts1 == posts0 && cache1 == cache0 && fetches1 == fetches
    else if Conversation(messages).None? then
      r == Err(BadMessages) && posts1 == posts0 && cache1 == Some(fetched.value) && fetches1 == fetches
    else
      var m := if model.Some? then model.value else DEFAULT_MODEL;
      var (system, contents) := Conversation(messages).value;
      exists body :: IsBody(body, contents, system, temperature, IntArg(seed), topP, IntArg(maxTokens)) &&
        Exchanged(net, posts0, posts1, gcloud, fetches, fetches1, fetched.value, cache1,
                  Endpoint(location.value, project.value, m), body, m, r)
  }

  /** vertex.py's module state: the cached token and the gcloud runs made so far. */
  class TokenCache {
    /** What the n-th run of `gcloud auth print-access-token` prints, None when it exits non-zero. */
    const gcloud: nat -> Option<string>
    /** `API_KEY_CACHE`. */
    var cache: Option<string>
    var fetches: nat

    constructor (gcloud: nat -> Option<string>)
      ensures this.gcloud == gcloud && cache == None && fetches == 0
    {
      this.gcloud := gcloud;
      cache, fetches := None, 0;
    }

    /** vertex.py:14-25: run gcloud once; the result is its stripped output. */
    method GetGoogleToken() returns (r: Result<string, Failure>)
      modifies this`fetches
      ensures fetches == old(fetches) + 1 && r == Token(gcloud(old(fetches)))
    {
      var printed := gcloud(fetches);
      fetches := fetches + 1;
      if printed.None? {
        return Err(TokenUnavailable);
      }
      r := Ok(Strip(printed.value));
    }

    /**
     * vertex.py:109-113: fetch a new token into the cache, overwrite the
     * Authorization header in the same dict and send once more.
     */
    method Renew(t: Http.Transport, headers: Http.HeaderDict, url: string, body: Json, requested: string)
      returns (r: Result<Reply, Failure>)
      requires t.Valid() && cache.Some? && headers.items == Headers(cache.value)
      modifies this, t, headers
      ensures Renewed(t.net, old(t.posts), t.posts, gcloud, old(fetches), fetches, old(cache).value, cache,
                      url, body, requested, r)
      ensures t.AtMostOneCall(old(t.posts), old(t.session), old(t.slept))
    {
      var renewed := GetGoogleToken();
      if renewed.Err? {
        return Err(TokenUnavailable);
      }
      cache := Some(renewed.value);
      headers.items := headers.items["Authorization" := "Bearer " + renewed.value];
      assert headers.items == Headers(renewed.value);
      var ex := t.HttpRequest(url, headers, body, 0);
      if ex == Err(Http.Unauthorized) {
        return Err(UnboundRequest);
      }
      r := Answer(ex, requested);
    }

    /** vertex.py:106-121: send with the cached token, renewing it once on a 401. */
    method Send(t: Http.Transport, url: string, body: Json, requested: string) returns (r: Result<Reply, Failure>)
      requires t.Valid() && cache.Some?
      modifies this, t
      ensures Exchanged(t.net, old(t.posts), t.posts, gcloud, old(fetches), fetches, old(cache).value, cache,
                        url, body, requested, r)
      ensures t.AtMostTwoCalls(old(t.posts), old(t.session), old(t.slept))
    {
      ghost var posts0, fetches0, token := t.posts, fetches, cache.value;
      ghost var session0, slept0 := t.session, t.slept;
      ghost var first := Http.Run(t.net, posts0, 0);
      var headers := new Http.HeaderDict(Headers(cache.value));
      var ex := t.HttpRequest(url, headers, body, 0);
      assert t.posts == posts0 + first.attempts && cache == Some(token) && fetches == fetches0;
      ghost var posts1, session1, slept1 := t.posts, t.session, t.slept;
      assert session1 == session0 + first.resets && slept1 == slept0 + t.Delays(first.backoffs, |slept0|);
      if ex == Err(Http.Unauthorized) {
        assert first.result == Err(Http.Unauthorized) && headers.items == Headers(token);
        r := Renew(t, headers, url, body, requested);
        ExchangedByRenewal(t.net, posts0, posts1, t.posts, gcloud, fetches0, fetches, token, cache, url, body,
                           requested, r);
      } else {
        assert first.result != Err(Http.Unauthorized);
        r := Answer(ex, requested);
        assert Answered(t.net, posts0, url, Headers(token), body, CANDIDATE_TEXT, None, requested, "google", r);
      }
      t.CallThen(posts0, session0, slept0, posts1, session1, slept1);
    }

    /**
     * `ask_google(model, messages, temperature, seed, top_p, max_tokens)`:
     * region and project come from the environment, the token from the cache
     * (fetched only while it is empty, before the messages are looked at).
     */
    method AskGoogle(t: Http.Transport, env: map<string, string>, model: Option<string>, messages: Json,
                     temperature: Option<Json>, seed: Option<int>, topP: Option<Json>, maxTokens: Option<int>)
      returns (r: Result<Reply, Failure>)
      requires t.Valid()
      modifies this, t
      ensures Outcome(t.net, old(t.posts), t.posts, gcloud, old(cache), old(fetches), cache, fetches, env, model,
                      messages, temperature, seed, topP, maxTokens, r)
      ensures t.AtMostTwoCalls(old(t.posts), old(t.session), old(t.slept))
    {
      var location := LookupVariable(env, REGION_VARIABLE);
      if location.Err? {
        return Err(location.error);
      }
      var project := LookupVariable(env, PROJECT_VARIABLE);
      if project.Err? {
        return Err(project.error);
      }
      var m := if model.Some? then model.value else DEFAULT_MODEL;
      if cache.None? {
        var token := GetGoogleToken();
        if token.Err? {
          return Err(token.error);
        }
        cache := Some(token.value);
      }
      var contents := Conversation(messages);
      if contents.None? {
        return Err(BadMessages);
      }
      var body := BuildBody(contents.value.1, contents.value.0, temperature, IntArg(seed), topP, IntArg(maxTokens));
      r := Send(t, Endpoint(location.value, project.value, m), body, m);
    }
  }
}
