/**
 * golem.py's request side: the parsed command line, `ask` (which adapter a
 * provider name selects and which arguments reach it) and `run` (one call
 * and the JSON record it prints).
 */
module Golem {
  import opened Wrappers
  import opened Json
  import opened Strings
  import opened Util
  import opened Adapter
  import Http
  import Azure
  import AzureAI
  import OpenAI
  import Anthropic
  import Ollama
  import Vertex

  /**
   * The command line after argparse. `systemPrompt` is the text of the
   * system-prompt file, `lines` the lines of the messages file, each decoded
   * or None where `json.loads` raises; `delay` is `--delay`, the seconds
   * paused after each batch call. `--verbose` only logs.
   */
  datatype Args = Args(provider: string, model: Option<string>, url: Option<string>, key: Option<string>,
                       seed: Option<int>, maxTokens: Option<int>, logprobs: Option<string>,
                       topLogprobs: Option<int>, skip: int, repeat: Option<string>, temperature: Option<string>,
                       topP: Option<string>, systemPrompt: Option<string>, lines: Option<seq<Option<Json>>>,
                       prompt: Option<string>, delay: Option<real>)

  /** argparse's default provider. */
  const DEFAULT_PROVIDER: string := "Ollama"

  /** The six adapters `ask` can reach. */
  datatype Target = AzureTarget | AzureAITarget | OpenAITarget | AnthropicTarget | OllamaTarget | GoogleTarget

  /** The provider names `ask` recognises, after lowering. */
  function TargetOf(name: string): Option<Target>
  {
    match name
    case "azure" => Some(AzureTarget)
    case "azureai" => Some(AzureAITarget)
    case "openai" => Some(OpenAITarget)
    case "anthropic" => Some(AnthropicTarget)
    case "ollama" => Some(OllamaTarget)
    case "google" => Some(GoogleTarget)
    case _ => None
  }

  /** The optional arguments some adapters do not take. */
  datatype Param = ModelParam | UrlParam | KeyParam | SeedParam | LogprobsParam | TopLogprobsParam

  /** Which of those arguments each adapter's signature takes. */
  predicate Accepts(target: Target, p: Param)
  {
    match target
    case AzureTarget => true
    case OpenAITarget => true
    case AzureAITarget => p != ModelParam
    case AnthropicTarget => !(p.SeedParam? || p.LogprobsParam? || p.TopLogprobsParam?)
    case OllamaTarget => !(p.KeyParam? || p.LogprobsParam? || p.TopLogprobsParam?)
    case GoogleTarget => !(p.UrlParam? || p.KeyParam? || p.LogprobsParam? || p.TopLogprobsParam?)
  }

  /** The argument was given on the command line. */
  predicate Supplied(args: Args, p: Param)
  {
    match p
    case ModelParam => args.model.Some?
    case UrlParam => args.url.Some?
    case KeyParam => args.key.Some?
    case SeedParam => args.seed.Some?
    case LogprobsParam => args.logprobs.Some?
    case TopLogprobsParam => args.topLogprobs.Some?
  }

  /** `args` with the argument `p` taken from `other` instead. */
  function Replace(args: Args, p: Param, other: Args): (r: Args)
    ensures r.provider == args.provider
  {
    match p
    case ModelParam => args.(model := other.model)
    case UrlParam => args.(url := other.url)
    case KeyParam => args.(key := other.key)
    case SeedParam => args.(seed := other.seed)
    case LogprobsParam => args.(logprobs := other.logprobs)
    case TopLogprobsParam => args.(topLogprobs := other.topLogprobs)
  }

  /** One adapter call with the arguments `ask` passes it (the messages are passed to every one). */
  datatype Call =
    | AzureCall(model: Option<string>, url: Option<string>, key: Option<string>, temperature: Option<Json>,
                seed: Option<int>, topP: Option<Json>, maxTokens: Option<int>, logprobs: Option<string>,
                topLogprobs: Option<int>)
    | AzureAICall(url: Option<string>, key: Option<string>, temperature: Option<Json>, seed: Option<int>,
                  topP: Option<Json>, maxTokens: Option<int>, logprobs: Option<string>, topLogprobs: Option<int>)
    | OpenAICall(provider: string, model: Option<string>, url: Option<string>, key: Option<string>,
                 temperature: Option<Json>, seed: Option<int>, topP: Option<Json>, maxTokens: Option<int>,
                 logprobs: Option<string>, topLogprobs: Option<int>, reasoningEffort: Option<string>)
    | AnthropicCall(model: Option<string>, url: Option<string>, key: Option<string>, temperature: Option<Json>,
                    topP: Option<Json>, maxTokens: Option<int>)
    | OllamaCall(model: Option<string>, url: Option<string>, temperature: Option<Json>, seed: Option<int>,
                 topP: Option<Json>, maxTokens: Option<int>)
    | GoogleCall(model: Option<string>, temperature: Option<Json>, seed: Option<int>, topP: Option<Json>,
                 maxTokens: Option<int>)
  {
    function Target(): Target
    {
      match this
      case AzureCall(_, _, _, _, _, _, _, _, _) => AzureTarget
      case AzureAICall(_, _, _, _, _, _, _, _) => AzureAITarget
      case OpenAICall(_, _, _, _, _, _, _, _, _, _, _) => OpenAITarget
      case AnthropicCall(_, _, _, _, _, _) => AnthropicTarget
      case OllamaCall(_, _, _, _, _, _) => OllamaTarget
      case GoogleCall(_, _, _, _, _) => GoogleTarget
    }
  }

  /** The selected call and the arguments dropped with an "Ignoring ..." warning, in the order they are logged. */
  datatype Routed = Routed(call: Call, ignored: seq<Param>)

  /** `[p]` when the argument was given, else nothing: one warning line. */
  function Warn(given: bool, p: Param): (r: seq<Param>)
    ensures p in r <==> given
    ensures forall q :: q in r ==> q == p
  {
    if given then [p] else []
  }

  /** golem.py:126-130: the two log-probability warnings every branch after openai logs. */
  function Unsent(args: Args): (r: seq<Param>)
    ensures forall p :: p in r <==> Supplied(args, p) && (p.LogprobsParam? || p.TopLogprobsParam?)
  {
    Warn(args.topLogprobs.Some?, TopLogprobsParam) + Warn(args.logprobs.Some?, LogprobsParam)
  }

  /** golem.py:97-98 and 126-145: the warnings each branch logs, exactly the given arguments its adapter does not take. */
  function Ignored(target: Target, args: Args): (r: seq<Param>)
    ensures forall p :: p in r <==> Supplied(args, p) && !Accepts(target, p)
  {
    match target
    case AzureTarget => []
    case AzureAITarget => Warn(args.model.Some?, ModelParam)
    case OpenAITarget => []
    case AnthropicTarget => Unsent(args) + Warn(args.seed.Some?, SeedParam)
    case OllamaTarget => Unsent(args) + Warn(args.key.Some?, KeyParam)
    case GoogleTarget => Unsent(args) + Warn(args.url.Some?, UrlParam) + Warn(args.key.Some?, KeyParam)
  }

  /**
   * golem.py:83-149, the call `ask` makes for one adapter: every parameter the
   * adapter has receives the argument of the same name, with the openai
   * branch passing what `ask_openai` declares (the provider name first, no
   * reasoning effort).
   */
  function Dispatch(target: Target, args: Args, temperature: Option<Json>, topP: Option<Json>): (r: Call)
    ensures r.Target() == target
    ensures r.temperature == temperature && r.topP == topP && r.maxTokens == args.maxTokens
    ensures !r.AzureAICall? ==> r.model == args.model
    ensures !r.GoogleCall? ==> r.url == args.url
    ensures (r.AzureCall? || r.AzureAICall? || r.OpenAICall? || r.AnthropicCall?) ==> r.key == args.key
    ensures !r.AnthropicCall? ==> r.seed == args.seed
    ensures (r.AzureCall? || r.AzureAICall? || r.OpenAICall?) ==>
      r.logprobs == args.logprobs && r.topLogprobs == args.topLogprobs
    ensures r.OpenAICall? ==> r.provider == "openai" && r.reasoningEffort.None?
  {
    match target
    case AzureTarget =>
      AzureCall(args.model, args.url, args.key, temperature, args.seed, topP, args.maxTokens, args.logprobs,
                args.topLogprobs)
    case AzureAITarget =>
      AzureAICall(args.url, args.key, temperature, args.seed, topP, args.maxTokens, args.logprobs, args.topLogprobs)
    case OpenAITarget =>
      OpenAICall("openai", args.model, args.url, args.key, temperature, args.seed, topP, args.maxTokens,
                 args.logprobs, args.topLogprobs, None)
    case AnthropicTarget => AnthropicCall(args.model, args.url, args.key, temperature, topP, args.maxTokens)
    case OllamaTarget => OllamaCall(args.model, args.url, temperature, args.seed, topP, args.maxTokens)
    case GoogleTarget => GoogleCall(args.model, temperature, args.seed, topP, args.maxTokens)
  }

  /** golem.py:64-152, `ask`: the provider name is lowered, then matched; an unknown one is fatal. */
  function Route(args: Args, temperature: Option<Json>, topP: Option<Json>): (r: Result<Routed, Failure>)
    ensures r.Ok? <==> TargetOf(Lower(args.provider)).Some?
    ensures r.Err? ==> r.error == UnknownProvider(Lower(args.provider))
    ensures r.Ok? ==> r.value.call.Target() == TargetOf(Lower(args.provider)).value
    ensures r.Ok? ==> forall p :: p in r.value.ignored <==> Supplied(args, p) && !Accepts(r.value.call.Target(), p)
  {
    var provider := Lower(args.provider);
    match TargetOf(provider)
    case None => Err(UnknownProvider(provider))
    case Some(target) => Ok(Routed(Dispatch(target, args, temperature, topP), Ignored(target, args)))
  }

  /**
   * golem.py:64-152 as written: the openai branch passes ten positional
   * arguments to a function declaring twelve, which raises a TypeError.
   */
  function RouteAsWritten(args: Args, temperature: Option<Json>, topP: Option<Json>): (r: Result<Routed, Failure>)
    ensures Lower(args.provider) != "openai" ==> r == Route(args, temperature, topP)
  {
    if Lower(args.provider) == "openai" then Err(ArityMismatch(10, 12)) else Route(args, temperature, topP)
  }

  /** As written, no spelling of "openai" ever reaches the adapter. */
  lemma OpenAIUnreachableAsWritten(args: Args, temperature: Option<Json>, topP: Option<Json>)
    requires Lower(args.provider) == "openai"
    ensures Route(args, temperature, topP).Ok? && Route(args, temperature, topP).value.call.OpenAICall?
    ensures RouteAsWritten(args, temperature, topP) == Err(ArityMismatch(10, 12))
  {
  }

  /** Corrected, the openai branch forwards every argument, under the provider name "openai". */
  lemma OpenAIRouteForwardsAll(args: Args, temperature: Option<Json>, topP: Option<Json>)
    requires Lower(args.provider) == "openai"
    ensures var r := Route(args, temperature, topP);
      && r.Ok? && r.value.ignored == []
      && r.value.call == OpenAICall("openai", args.model, args.url, args.key, temperature, args.seed, topP,
                                    args.maxTokens, args.logprobs, args.topLogprobs, None)
  {
  }

  /** The provider name is matched without regard to ASCII case. */
  lemma RouteIgnoresCase(args: Args, temperature: Option<Json>, topP: Option<Json>)
    ensures Route(args, temperature, topP) == Route(args.(provider := Lower(args.provider)), temperature, topP)
  {
    LowerIdempotent(args.provider);
  }

  /** The default provider "Ollama" selects the Ollama adapter. */
  lemma DefaultProviderIsOllama(args: Args, temperature: Option<Json>, topP: Option<Json>)
    requires args.provider == DEFAULT_PROVIDER
    ensures Route(args, temperature, topP).Ok? && Route(args, temperature, topP).value.call.OllamaCall?
  {
    assert Lower(DEFAULT_PROVIDER) == "ollama";
  }

  /** An argument the selected adapter does not take has no effect on the call. */
  lemma DroppedArgumentHasNoEffect(args: Args, other: Args, p: Param, temperature: Option<Json>, topP: Option<Json>)
    requires Route(args, temperature, topP).Ok?
    requires !Accepts(Route(args, temperature, topP).value.call.Target(), p)
    ensures Route(Replace(args, p, other), temperature, topP).Ok?
    ensures Route(Replace(args, p, other), temperature, topP).value.call == Route(args, temperature, topP).value.call
  {
  }

  /** An argument the selected adapter takes reaches it: a different value makes a different call. */
  lemma AcceptedArgumentIsForwarded(args: Args, other: Args, p: Param, temperature: Option<Json>,
                                    topP: Option<Json>)
    requires Route(args, temperature, topP).Ok?
    requires Accepts(Route(args, temperature, topP).value.call.Target(), p)
    requires Replace(args, p, other) != args
    ensures Route(Replace(args, p, other), temperature, topP).Ok?
    ensures Route(Replace(args, p, other), temperature, topP).value.call != Route(args, temperature, topP).value.call
  {
  }

  /**
   * Always true. `Asked` is stated under it, as `forall k :: Consulted(k) ==>
   * Asked(...)`, so that a proof which only passes the outcome of `ask` on
   * does not expand it; a proof that needs its details mentions
   * `Consulted(0)`.
   */
  predicate Consulted(k: nat) { true }

  /**
   * What `ask` returns and how it leaves the POST counter, the Vertex token
   * cache and the gcloud run counter, given where it routes the request: the
   * selected adapter's own outcome; adapters other than google leave the
   * cache alone, and an unknown provider touches nothing.
   */
  ghost predicate Asked(net: nat -> Http.Outcome, posts0: nat, posts1: nat, gcloud: nat -> Option<string>,
                        cache0: Option<string>, fetches0: nat, cache1: Option<string>, fetches1: nat,
                        env: map<string, string>, route: Result<Routed, Failure>, messages: Json,
                        r: Result<Reply, Failure>)
  {
    match route
    case Err(e) => r == Err(e) && posts1 == posts0 && cache1 == cache0 && fetches1 == fetches0
    case Ok(routed) =>
      match routed.call
      case GoogleCall(model, temp, seed, top, maxTokens) =>
        Vertex.Outcome(net, posts0, posts1, gcloud, cache0, fetches0, cache1, fetches1, env, model, messages, temp,
                       seed, top, maxTokens, r)
      case _ =>
        && cache1 == cache0 && fetches1 == fetches0
        && match routed.call
           case AzureCall(model, url, key, temp, seed, top, maxTokens, logprobs, topLogprobs) =>
             Azure.Outcome(net, posts0, posts1, env, model, url, key, messages, temp, seed, top, maxTokens, logprobs,
                           topLogprobs, r)
           case AzureAICall(url, key, temp, seed, top, maxTokens, logprobs, topLogprobs) =>
             AzureAI.Outcome(net, posts0, posts1, env, url, key, messages, temp, seed, top, maxTokens, logprobs,
                             topLogprobs, r)
           case OpenAICall(provider, model, url, key, temp, seed, top, maxTokens, logprobs, topLogprobs, effort) =>
             OpenAI.Outcome(net, posts0, posts1, env, provider, model, url, key, messages, temp, seed, top, maxTokens,
                            logprobs, topLogprobs, effort, r)
           case AnthropicCall(model, url, key, temp, top, maxTokens) =>
             Anthropic.Outcome(net, posts0, posts1, env, model, url, key, messages, temp, top, maxTokens, r)
           case OllamaCall(model, url, temp, seed, top, maxTokens) =>
             Ollama.Outcome(net, posts0, posts1, model, url, messages, temp, seed, top, maxTokens, r)
           case GoogleCall(_, _, _, _, _) => false
  }

  /**
   * golem.py:64-152, `ask` with its adapters: the request goes to the adapter
   * the provider name selects, with the arguments that adapter takes.
   */
  method Ask(t: Http.Transport, tokens: Vertex.TokenCache, env: map<string, string>, args: Args,
             messages: Json, temperature: Option<Json>, topP: Option<Json>)
    returns (r: Result<Reply, Failure>)
    requires t.Valid()
    modifies t, tokens
    ensures forall k {:trigger Consulted(k)} :: Consulted(k) ==>
      Asked(t.net, old(t.posts), t.posts, tokens.gcloud, old(tokens.cache), old(tokens.fetches), tokens.cache,
            tokens.fetches, env, Route(args, temperature, topP), messages, r)
    ensures t.AtMostTwoCalls(old(t.posts), old(t.session), old(t.slept))
  {
    var routed := Route(args, temperature, topP);
    if routed.Err? {
      return Err(routed.error);
    }
    r := Send(t, tokens, env, routed.value, messages);
  }

  /** golem.py:100-149: the routed call handed to its adapter. */
  method Send(t: Http.Transport, tokens: Vertex.TokenCache, env: map<string, string>, routed: Routed,
              messages: Json)
    returns (r: Result<Reply, Failure>)
    requires t.Valid()
    modifies t, tokens
    ensures forall k {:trigger Consulted(k)} :: Consulted(k) ==>
      Asked(t.net, old(t.posts), t.posts, tokens.gcloud, old(tokens.cache), old(tokens.fetches), tokens.cache,
            tokens.fetches, env, Ok(routed), messages, r)
    ensures t.AtMostTwoCalls(old(t.posts), old(t.session), old(t.slept))
  {
    ghost var posts0, cache0, fetches0 := t.posts, tokens.cache, tokens.fetches;
    match routed.call {
      case AzureCall(model, url, key, temp, seed, top, maxTokens, logprobs, topLogprobs) =>
        r := Azure.AskAzure(t, env, model, url, key, messages, temp, seed, top, maxTokens, logprobs, topLogprobs);
        assert Asked(t.net, posts0, t.posts, tokens.gcloud, cache0, fetches0, tokens.cache, tokens.fetches, env,
                     Ok(routed), messages, r);
      case AzureAICall(url, key, temp, seed, top, maxTokens, logprobs, topLogprobs) =>
        r := AzureAI.AskAzureAI(t, env, url, key, messages, temp, seed, top, maxTokens, logprobs, topLogprobs);
        assert Asked(t.net, posts0, t.posts, tokens.gcloud, cache0, fetches0, tokens.cache, tokens.fetches, env,
                     Ok(routed), messages, r);
      case OpenAICall(provider, model, url, key, temp, seed, top, maxTokens, logprobs, topLogprobs, effort) =>
        r := OpenAI.AskOpenAI(t, env, provider, model, url, key, messages, temp, seed, top, maxTokens, logprobs,
                              topLogprobs, effort);
        assert Asked(t.net, posts0, t.posts, tokens.gcloud, cache0, fetches0, tokens.cache, tokens.fetches, env,
                     Ok(routed), messages, r);
      case AnthropicCall(model, url, key, temp, top, maxTokens) =>
        r := Anthropic.AskAnthropic(t, env, model, url, key, messages, temp, top, maxTokens);
        assert Asked(t.net, posts0, t.posts, tokens.gcloud, cache0, fetches0, tokens.cache, tokens.fetches, env,
                     Ok(routed), messages, r);
      case OllamaCall(model, url, temp, seed, top, maxTokens) =>
        r := Ollama.AskOllama(t, model, url, messages, temp, seed, top, maxTokens);
        assert Asked(t.net, posts0, t.posts, tokens.gcloud, cache0, fetches0, tokens.cache, tokens.fetches, env,
                     Ok(routed), messages, r);
      case GoogleCall(model, temp, seed, top, maxTokens) =>
        r := tokens.AskGoogle(t, env, model, messages, temp, seed, top, maxTokens);
        assert Asked(t.net, posts0, t.posts, tokens.gcloud, cache0, fetches0, tokens.cache, tokens.fetches, env,
                     Ok(routed), messages, r);
    }
  }

  /** The request record as printed: the url, the (redacted) headers and the body. */
  function RequestJson(request: Http.Request): (j: Json)
    ensures j.JObj? && j.fields.Keys == {"url", "headers", "json"}
    ensures j.fields["headers"].JObj? && j.fields["headers"].fields.Keys == request.headers.Keys
    ensures forall k :: k in request.headers ==> j.fields["headers"].fields[k] == JStr(request.headers[k])
  {
    JObj(map["url" := JStr(request.url),
             "headers" := JObj(map k | k in request.headers :: JStr(request.headers[k])),
             "json" := request.json])
  }

  /** The keys every record has. */
  const RECORD_KEYS: set<string> := {"id", "provider", "model", "timestamp", "request", "response", "answer"}

  /** The seven fixed keys of a record hold the id, the reply's parts and the timestamp. */
  ghost predicate FixedFields(fields: map<string, Json>, id: Json, reply: Reply, timestamp: string)
  {
    && RECORD_KEYS <= fields.Keys
    && fields["id"] == id
    && fields["provider"] == JStr(reply.provider)
    && fields["model"] == reply.model
    && fields["timestamp"] == JStr(timestamp)
    && fields["request"] == RequestJson(reply.request)
    && fields["response"] == reply.response
    && fields["answer"] == reply.answer
  }

  /**
   * The record `run` prints: the seven fixed keys, and `repeat`,
   * `temperature`, `top_p` exactly when not None.
   */
  ghost predicate IsRecord(record: Json, id: Json, reply: Reply, timestamp: string, repeat: Option<Json>,
                           temperature: Option<Json>, topP: Option<Json>)
  {
    && record.JObj?
    && record.fields.Keys <= RECORD_KEYS + {"repeat", "temperature", "top_p"}
    && FixedFields(record.fields, id, reply, timestamp)
    && Carries(record.fields, "repeat", repeat)
    && Carries(record.fields, "temperature", temperature)
    && Carries(record.fields, "top_p", topP)
  }

  /** The record's dict literal: exactly the fixed keys, none of them an optional one. */
  function FixedRecord(id: Json, reply: Reply, timestamp: string): (fields: map<string, Json>)
    ensures fields.Keys == RECORD_KEYS && FixedFields(fields, id, reply, timestamp)
    ensures "repeat" !in RECORD_KEYS && "temperature" !in RECORD_KEYS && "top_p" !in RECORD_KEYS
  {
    map["id" := id, "provider" := JStr(reply.provider), "model" := reply.model, "timestamp" := JStr(timestamp),
        "request" := RequestJson(reply.request), "response" := reply.response, "answer" := reply.answer]
  }

  /** Storing keys other than the fixed ones keeps the fixed fields. */
  lemma FixedFieldsKept(a: map<string, Json>, b: map<string, Json>, id: Json, reply: Reply, timestamp: string)
    requires FixedFields(a, id, reply, timestamp)
    requires a.Keys <= b.Keys && forall k :: k in a && k in RECORD_KEYS ==> b[k] == a[k]
    ensures FixedFields(b, id, reply, timestamp)
  {
  }

  /** golem.py:166-180: the record, each optional key inserted when its value is not None. */
  method BuildRecord(id: Json, reply: Reply, timestamp: string, repeat: Option<Json>, temperature: Option<Json>,
                     topP: Option<Json>)
    returns (record: Json)
    ensures IsRecord(record, id, reply, timestamp, repeat, temperature, topP)
  {
    var fields := FixedRecord(id, reply, timestamp);
    ghost var base := fields;
    fields := Stored(fields, "repeat", repeat);
    fields := Stored(fields, "temperature", temperature);
    fields := Stored(fields, "top_p", topP);
    FixedFieldsKept(base, fields, id, reply, timestamp);
    record := JObj(fields);
  }

  /** A printed record shows every credential header of the request as REDACTED. */
  lemma RecordHidesCredentials(record: Json, id: Json, reply: Reply, timestamp: string, repeat: Option<Json>,
                               temperature: Option<Json>, topP: Option<Json>, sent: map<string, string>)
    requires IsRecord(record, id, reply, timestamp, repeat, temperature, topP)
    requires reply.request.headers == Http.Redact(sent)
    ensures forall k :: k in Http.SECRET_HEADERS && k in sent ==>
      Lookup(record, [Key("request"), Key("headers"), Key(k)]) == Some(JStr(Http.REDACTED))
  {
    forall k | k in Http.SECRET_HEADERS && k in sent
      ensures Lookup(record, [Key("request"), Key("headers"), Key(k)]) == Some(JStr(Http.REDACTED))
    {
      Http.RedactHidesSecrets(sent);
      HeaderShown(record, reply.request, k);
    }
  }

  /** A record whose "request" is the request as printed shows each of its headers at request.headers. */
  lemma HeaderShown(record: Json, request: Http.Request, k: string)
    requires record.JObj? && "request" in record.fields && record.fields["request"] == RequestJson(request)
    requires k in request.headers
    ensures Lookup(record, [Key("request"), Key("headers"), Key(k)]) == Some(JStr(request.headers[k]))
  {
    var printed := record.fields["request"];
    LookupAppend(record, [Key("request")], [Key("headers"), Key(k)]);
    LookupAppend(printed, [Key("headers")], [Key(k)]);
  }
}
