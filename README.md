# golem in Dafny

golem is a command-line dispatcher that sends chat prompts to large language
model APIs (OpenAI, Azure OpenAI, Azure AI, Anthropic, Google Vertex, Google
Gemini and a local Ollama server) and prints one JSON record per answer. It
sweeps over lists of repeats, top_p values and temperatures, reads batches of
conversations from a JSON-lines file, and retries transient HTTP failures with
exponential backoff. Two companion scripts read the answer files back: one
totals token counts and prices them, the other measures the intervals between
records per model.

This project models that core and proves what it does:

- `wrappers.dfy`, `json.dfy`, `strings.dfy` hold the value model: Option and
  Result, a JSON tree, and the Python string operations the code relies on
  (`strip`, `split`/`join`, `lower`, `replace`).
- `http.dfy` models the transport of `util.py`: the status classification, the
  backoff delay, the recursive retry loop of `http_request`, the session
  resets, and the redaction of credential headers in the caller's dict.
  The network is a function from attempt number to outcome and the jitter
  draw is a function from draw number to a real in [0, 1].
- `util.dfy` models the rest of `util.py`: environment lookups,
  `ensure_json_serializable`, and the CLI list parsers `parse_elements`,
  `decimal_range`, `parse_range` and `parse_list`.
- `messages.dfy` and `google.dfy` hold the message reshaping the adapters
  share: system text joined with one space, the non-system filter, the
  Gemini `parts` shape, `add_system_message`, and the lazily created
  `generationConfig`.
- `adapter.dfy` holds the extraction of answer and model from a decoded reply
  and the conditional body assignments; one file per provider adapter
  (`anthropic.dfy`, `azure.dfy`, `azureai.dfy`, `gemini.dfy`, `ollama.dfy`,
  `openai.dfy`, `vertex.dfy`) models its defaults, body, headers, endpoint and
  reply. `vertex.dfy` keeps the module-level token cache as a class that
  renews the token once after a 401.
- `golem.dfy` models `ask` (routing by lower-cased provider name, the arguments
  each adapter takes and the ones it drops with a warning) and the record
  `run` prints; `sweep.dfy` and `order.dfy` model the plan of `main` (the
  nested repeat / top_p / temperature loops, immediate and batch mode,
  `--skip` applying to the first pass only); `session.dfy` executes that plan
  against the transport, printing records until the first failure.
- `costs.dfy` models `load_pricing` and `process_file`; `latencies.dfy` models
  `parse_timestamp`, `compute_intervals_for_file` and the grouping and
  ordering of `main`.

Process exits (`fatal`, `sys.exit`) and exceptions that end the program are
`Err` values of `Util.Failure`. The environment is a `map<string, string>`,
the gcloud command is a function from fetch number to its printed output,
and the wall clock is a function from record number to a timestamp string.
File reading and JSON decoding are inputs: a file is a sequence of lines, and
a line is given either decoded (`Option<Json>`, None when it is not JSON) or
as text together with a decoding function.

## Model

| member | source | states |
|---|---|---|
| Strings.TrimStart | util.py:70 | `lstrip`: the result is the longest suffix of the input that does not start with whitespace; everything dropped is whitespace |
| Strings.TrimEnd | util.py:70 | `rstrip`: the result is the longest prefix that does not end with whitespace; everything dropped is whitespace |
| Strings.Strip | util.py:70 | the stripped text has no surrounding whitespace, is no longer than the input, and a text without surrounding whitespace is returned as it is |
| Strings.StripBlank | latencies.py:28-30 | stripping leaves nothing exactly when the line is all whitespace (the blank-line test) |
| Strings.StripIdempotent | util.py:70 | stripping twice is stripping once |
| Strings.Split | util.py:66 | `split(sep)` gives at least one piece and no piece contains the separator |
| Strings.SplitJoin | util.py:66 | joining the pieces of a split with the same separator gives the original text back |
| Strings.SplitWithoutSeparator | util.py:66 | a text without the separator splits into itself alone |
| Strings.Lower | golem.py:74 | `lower()` keeps the length and lowers each ASCII capital and the KELVIN SIGN, keeping every other character |
| Strings.LowerIdempotent | golem.py:74 | lowering twice is lowering once |
| Strings.RemoveAll | azure.py:48 | `replace(".", "")`: no "." remains and every other character is kept as often as it occurred |
| Strings.RemoveAllAppend | azure.py:48 | removal works piece by piece, so the kept characters stay in their original order |
| Strings.RemoveAllAbsent | azure.py:48 | a name without "." is left unchanged |
| Json.Subscript | anthropic.py:60-63 | `j[k]` succeeds exactly on an object holding key k, an array holding index k, or a string holding index k (giving that one character as a string); an index into an object, null, boolean or number, and a key into anything but an object, raise (None) |
| Json.LookupAppend | anthropic.py:61 | a chain of subscripts such as `response["content"][0]["text"]` can be split anywhere |
| Json.Get | costs.py:24 | `d.get(key)` is present exactly when the key is |
| Json.NonEmptyStringIsTrue | azure.py:71-72 | `bool()` of any non-empty CLI string, "false" included, is true |
| Json.Stored | openai.py:46-47 | `if v is not None: d[key] = v` adds exactly `key` when v is given and keeps every other field |
| Json.SetDefaultObject | gemini.py:48-50 | `setdefault(key, {})` keeps an existing value and otherwise adds an empty object, touching nothing else |
| Http.Received | util.py:227-234 | a reply whose text is blank counts as no reply whatever its status; any other reply is kept |
| Http.IsContinuable | util.py:154-196 | continuable exactly when there is no reply or the status is 429, 500, 502, 503, 524 or 529 |
| Http.Classify | util.py:239-266 | every reply is exactly one of success (200), authentication rejected (401), continuable, or fatal (any other status) |
| Http.BaseDelay | util.py:120-125 | the delay before jitter lies between 5 and 300 seconds |
| Http.BaseDelaySchedule | util.py:125 | the base delay is 5·2^r, at most 160 s, up to r = 5 and is capped at 300 s from r = 6 on |
| Http.Backoff | util.py:120-131 | the delay with jitter lies in [base, 1.1·base] and never exceeds 330 s |
| Http.Jittered | util.py:128-129 | adding a jitter of up to a tenth of the delay keeps a non-negative delay within [delay, 1.1·delay] |
| Http.RedactHidesSecrets | util.py:268-279 | redaction adds and drops no header, turns each present credential header into REDACTED and keeps every other value |
| Http.RedactIdempotent | util.py:268-279 | redacting twice is redacting once, so every level of the retry recursion may redact again |
| Http.RedactWithoutSecrets | util.py:268-279 | headers without any credential header are left unchanged |
| Http.RunSchedule | util.py:236-259 | a call at retry level `retry` makes at most 22 − retry POSTs, sleeps once between consecutive POSTs with the counter incremented first (the k-th sleep of a fresh call uses r = k), and resets the session once per POST without a usable reply |
| Http.RunVerdict | util.py:239-266 | every POST but the last was continuable; the last decides: a 200 returns its body, a 401 is raised, a continuable one means the retries ran out, any other status is fatal with that status |
| Http.PersistentFailure | util.py:243-244 | against an endpoint that keeps failing transiently a call makes 22 − retry POSTs and then exits on the retry bound |
| Http.AlwaysServerError | util.py:239-259 | against an endpoint that always answers 500 a fresh call makes 22 POSTs and 21 sleeps with r = 1, …, 21 before the retry bound exits |
| Http.TwoRateLimitsThenSuccess | util.py:239-261 | two 429 replies then a 200: three POSTs, two sleeps with r = 1 and r = 2 (10 s and 20 s before jitter), and the 200 body returned |
| Http.RedactHeaders | util.py:268-279 | the caller's header dict is redacted in place |
| Http.Transport.Delays | util.py:246-258 | each delay slept for a retry count lies within that count's backoff bounds |
| Http.Transport.HttpRequest | util.py:206-282 | the POSTs, session resets and sleeps are those of the retry schedule; on success the caller's dict is redacted in place and the returned request holds url, redacted headers and body; on a 401 or an exit the headers are untouched and the error is returned |
| Http.AtLeastOnePost | util.py:236-242 | every call makes at least one POST |
| Http.Transport.CallThen | util.py:206-282 | one fresh call followed by at most one more is at most two calls |
| Http.Transport.NoCall | util.py:206-282 | when at most two calls made no POST, no session was reset and nothing was slept |
| Http.Transport.OneCall | util.py:206-282 | when at most two calls made exactly the POSTs of one call, the resets and sleeps are those of that call |
| Http.Transport.Retry | util.py:243-259 | the retry branch: one backoff for the incremented counter, then the whole exchange at that level |
| Util.LookupVariable | util.py:134-143 | the variable's value when it is set, otherwise the missing-variable exit naming it |
| Util.Resolve | anthropic.py:24-25 | a given argument is used as it is; a missing one is looked up in the environment, exiting when unset |
| Util.EnsureJsonSerializable | util.py:33-40 | a Decimal becomes a JSON number with its value, ints and strings pass unchanged, absent stays absent |
| Util.ParseIntRoundTrip | util.py:75 | `int(str(n)) == n` for every integer, negative ones included |
| Util.ParseElement | util.py:70-79 | a piece with "." becomes a Decimal (and raises when not a decimal literal); a piece without "." becomes an int, or stays the raw string exactly when `int()` raises |
| Util.ParsePiecesAt | util.py:66-70 | the i-th parsed value comes from the i-th piece, stripped |
| Util.PieceValues | util.py:66-70 | one parsed value per separator-delimited piece |
| Util.Collect | util.py:67-81 | the list holds every piece's value in order when none raises; otherwise the error of the first piece that raised, every earlier piece having parsed |
| Util.ParseElements | util.py:62-81 | `parse_elements` returns one value per piece, in order, or the error a piece raised |
| Util.Add | util.py:59 | `+` on numbers adds their values and stays an int only when both operands are ints |
| Util.NthClosedForm | util.py:56-59 | after k additions of the step the current value is start + k·step |
| Util.RangeIsDetermined | util.py:52-59 | the generated range is fully determined by start, stop and step |
| Util.RangeAdvance | util.py:57-59 | one turn of the generator keeps the range invariant: yield `current`, then add the step |
| Util.RemainingSteps | util.py:57-59 | with a positive step the number of steps left to stop decreases each turn, so the loop ends |
| Util.Yield | util.py:56-59 | the yielded values are start, start + step, … strictly below stop, nothing when start ≥ stop |
| Util.DecimalRange | util.py:52-59 | non-numeric bounds are refused, a non-positive step below stop never ends, otherwise the range above |
| Util.ParseRange | util.py:84-99 | the first piece error is raised, fewer than 2 or more than 3 parts exit, otherwise the range from start to stop with the step (1 by default) |
| Util.ParseList | util.py:102-110 | a range exactly when the text contains ":", else the comma-separated elements |
| Messages.SystemMessage | util.py:47 | the inserted message is a system message carrying the text as content |
| Messages.SystemParts | anthropic.py:31-33 | the system contents: no more than the messages, and only when every entry has a role |
| Messages.SystemPartsAppend | anthropic.py:31-33 | the system contents of a concatenation are those of each half, in order |
| Messages.SystemText | anthropic.py:31-33 | the system text exists exactly when the system contents can be collected |
| Messages.NonSystem | anthropic.py:35 | the filter keeps only non-system entries of the input |
| Messages.NonSystemAppend | anthropic.py:35 | filtering a concatenation filters each half, so the relative order is kept |
| Messages.NonSystemWithoutSystem | anthropic.py:35 | a conversation without system entries passes through unchanged |
| Messages.NonSystemOfSystemOnly | anthropic.py:35 | a conversation of system entries only filters to nothing |
| Messages.Entries | anthropic.py:31-35 | the entries the comprehensions visit: a list's items; none for an empty string or object; iteration is refused for a non-empty string or object (its entries are strings, which cannot be indexed by "role") and for null, booleans and numbers |
| Messages.WrapParts | gemini.py:36-39 | role and content can be read back from the wrapped entry |
| Messages.Parts | gemini.py:36-39 | the reshaping succeeds exactly when every entry has role and content; one wrapped entry per input, each giving back its role and content |
| Messages.WithSystemMessage | util.py:43-49 | the system message first, then the original list unchanged |
| Messages.AddedSystemIsFiltered | util.py:43-49 | after `add_system_message` the non-system conversation is the original one |
| Messages.AddedSystemLeadsText | util.py:43-49 | after `add_system_message` the system text starts with the added text, one space before the earlier system text |
| Messages.MessageList.AddSystemMessage | util.py:43-49 | the list is changed in place to the system message followed by the old list |
| Google.Instruction | gemini.py:45-46 | the system text can be read back at `parts[0].text` |
| Google.Contents | vertex.py:63-75 | the system text and the reshaped non-system conversation exist exactly when both comprehensions succeed; entry i gives back role and content of non-system message i |
| Google.Conversation | vertex.py:63-75 | the reshaped conversation exists exactly when the messages can be iterated and `Contents` succeeds on their entries |
| Google.Config | gemini.py:48-62 | a body without `generationConfig` has an empty config |
| Google.SetConfig | gemini.py:48-50 | `setdefault` then an assignment: the other fields stay and the config gains exactly that option |
| Google.FillConfig | gemini.py:48-62 | the config exists afterwards exactly when it existed before or some option was supplied, then holds each supplied option under its own key and nothing else; no other field changes |
| Google.ConfigCarries | vertex.py:83-93 | the four assignments into an empty config store exactly the supplied options |
| Google.ConfigIsDetermined | gemini.py:48-62 | the config is determined by the options |
| Adapter.Complete | anthropic.py:58-67 | the reply exists exactly when the body and the answer (and model) paths exist; it carries the request, the decoded body, the answer at its path, the provider, and the reported model or else the requested one |
| Adapter.Converse | anthropic.py:56-67 | one exchange through the transport followed by the extraction: an HTTP failure is returned, otherwise the completed reply from the redacted request; the POSTs, session resets and sleeps are exactly those of one fresh call |
| Adapter.AsBool | azure.py:71-72 | `bool(logprobs)` on a CLI string is its non-emptiness |
| Adapter.AddSampling | openai.py:46-56 | each supplied sampling option is stored under its own key and nothing else is touched |
| Adapter.AddLogprobs | openai.py:58-62 | `logprobs` and `top_logprobs` are each stored exactly when supplied, nothing else touched |
| Anthropic.BuildBody | anthropic.py:37-48 | the body holds model, the non-system messages, the system text, and each of temperature, top_p, max_tokens exactly when supplied; never seed or logprobs |
| Anthropic.Headers | anthropic.py:50-54 | the key under `x-api-key`, the pinned API version, and redaction hides only the key |
| Anthropic.AskAnthropic | anthropic.py:10-67 | a missing key exits before any POST, malformed messages raise before any POST, otherwise one exchange at the default or given model and url with the body above, answer at `content[0].text`, provider "anthropic" and the reported model; nothing else, or exactly the POSTs, session resets and sleeps of one fresh call, happens to the transport |
| Anthropic.SystemOnlyConversation | anthropic.py:31-37 | a system-only conversation sends an empty `messages` list |
| Azure.Deployment | azure.py:45-48 | the deployment name is the model (the default one when none is given, used as it is) with every "." removed and nothing else changed |
| Azure.BuildBody | azure.py:57-75 | the body holds the deployment name, the messages value as decoded (a list or not), and each of the six options exactly when supplied, `logprobs` as its truthiness |
| Azure.Headers | azure.py:52-55 | the key only under `api-key`, which redaction hides |
| Azure.AskAzure | azure.py:19-88 | the key and then the endpoint are looked up only when not given, and no POST is made when either is unset; otherwise one exchange at the deployment URL with the body above; nothing else, or exactly the POSTs, session resets and sleeps of one fresh call, happens to the transport |
| Azure.AzureReply | azure.py:77-88 | a successful reply has provider "azure", the answer at `choices[0].message.content`, the reported model and a request showing the key as REDACTED |
| AzureAI.BuildBody | azureai.py:34-52 | the body holds the messages value as decoded and each of the six options exactly when supplied, `logprobs` as its truthiness, and never `model` |
| AzureAI.Headers | azureai.py:29-32 | the raw key, with no scheme, as the Authorization value, which redaction hides |
| AzureAI.AskAzureAI | azureai.py:10-65 | the endpoint and then the key are looked up only when not given, with no POST when either is unset; otherwise one exchange at endpoint + `chat/completions`, provider "azureai"; nothing else, or exactly the POSTs, session resets and sleeps of one fresh call, happens to the transport |
| Gemini.Endpoint | gemini.py:64 | the fixed endpoint with the model between its fixed ends, where it can be read back |
| Gemini.BuildBody | gemini.py:41-62 | `systemInstruction` exactly when the system text is non-empty, `generationConfig` exactly when some option is supplied and then holding exactly those, contents as reshaped |
| Gemini.Headers | gemini.py:66 | the key under `X-goog-api-key`, which redaction hides |
| Gemini.AskGemini | gemini.py:12-78 | a missing key exits and malformed messages raise before any POST; otherwise one exchange at the fixed endpoint (the `url` argument is unused), answer at `candidates[0].content.parts[0].text`, model from `modelVersion`, provider as passed; nothing else, or exactly the POSTs, session resets and sleeps of one fresh call, happens to the transport |
| Gemini.BodyIsDetermined | gemini.py:41-62 | the body is determined by the inputs |
| Gemini.MinimalBody | gemini.py:41-62 | without system text and options the body is `contents` alone |
| Ollama.BuildBody | ollama.py:24-42 | the body holds model, messages, `stream: false` and an `options` object holding each supplied option, `max_tokens` only as `num_predict` |
| Ollama.EmptyOptions | ollama.py:24-29 | with no option the `options` object is present and empty |
| Ollama.AskOllama | ollama.py:13-55 | one exchange at the default or given model and url with empty headers, answer at `message.content`, provider "ollama"; nothing else, or exactly the POSTs, session resets and sleeps of one fresh call, happens to the transport |
| Ollama.OllamaReply | ollama.py:41-55 | for every input, a successful call reports provider "ollama", the answer at `message.content` and the reported model, and its request goes to the default or given url with the body built and no headers at all |
| OpenAI.BuildBody | openai.py:44-65 | the body holds model, the messages value as decoded (system entries included) and each of the seven options exactly when supplied, `logprobs` not coerced |
| OpenAI.AddReasoning | openai.py:64-65 | `reasoning_effort` is set exactly when an effort is supplied, to that value, and no other field changes |
| OpenAI.Headers | openai.py:39-42 | a bearer credential (section 2.1 of RFC 6750), which redaction hides |
| OpenAI.AskOpenAI | openai.py:10-77 | a missing key exits before any POST; otherwise one exchange at the default or given model and url, provider as passed, model from the response; nothing else, or exactly the POSTs, session resets and sleeps of one fresh call, happens to the transport |
| Vertex.Endpoint | vertex.py:95-99 | the regional URL spells out, in order and with nothing between or after them, `https://`, the region, the host, the project, the region again as the location and the model with `:generateContent` |
| Vertex.Token | vertex.py:14-25 | the token is the stripped output of gcloud; a failed command exits |
| Vertex.BuildBody | vertex.py:77-93 | the body always holds contents, `systemInstruction` (even with empty text) and `generationConfig` holding exactly the supplied options |
| Vertex.Headers | vertex.py:101-104 | the cached token as a bearer credential, which redaction hides |
| Vertex.RefreshIsInvisibleInRecord | vertex.py:111-113 | the printed request cannot tell the old token from the renewed one |
| Vertex.Answer | vertex.py:115-121 | an HTTP failure is returned as it is, otherwise the answer at `candidates[0].content.parts[0].text` with the requested model and provider "google" |
| Vertex.TokenCache.constructor | vertex.py:11 | the cache starts empty with no fetch made |
| Vertex.TokenCache.GetGoogleToken | vertex.py:14-25 | one more run of gcloud, whose stripped output is the result |
| Vertex.TokenCache.Renew | vertex.py:109-113 | exactly one new fetch; a failed one exits and keeps the old token; otherwise the cache and the Authorization header hold the new token, the request is sent once more, and a second 401 ends in the unbound-request error of the handler; nothing else, or exactly the POSTs, session resets and sleeps of one fresh call, happens to the transport |
| Vertex.TokenCache.Send | vertex.py:106-121 | a first exchange with the cached token; only a 401 renews the token, and then exactly once; the POSTs, session resets and sleeps are those of no call, one fresh call, or one fresh call followed by another |
| Vertex.TokenCache.AskGoogle | vertex.py:28-123 | region then project are looked up, the token is fetched only while the cache is empty (before the messages are read), malformed messages raise before any POST, otherwise the exchange above at the regional endpoint with the default or given model; the POSTs, session resets and sleeps are those of no call, one fresh call, or one fresh call followed by another |
| Golem.Unsent | golem.py:126-130 | the two log-probability warnings: exactly the supplied ones |
| Golem.Ignored | golem.py:97-146 | the warnings of a branch: exactly the supplied arguments its adapter does not take |
| Golem.Dispatch | golem.py:83-149 | the call built for an adapter goes to that adapter, and each of its parameters (model, url, key, temperature, seed, top_p, max_tokens, logprobs, top_logprobs) receives the argument of that name; the openai call names provider "openai" and no reasoning effort |
| Golem.Route | golem.py:64-152 | the lower-cased provider name selects its adapter, an unknown name exits naming it, and the warnings are exactly the supplied arguments the adapter does not take |
| Golem.RouteAsWritten | golem.py:112-124 | as written: every provider other than openai routes as in `Route` |
| Golem.OpenAIUnreachableAsWritten | golem.py:112-124 | as written, every spelling of "openai" fails with ten arguments given to a function declaring twelve |
| Golem.OpenAIRouteForwardsAll | golem.py:112-124 | corrected, the openai branch forwards every argument with provider "openai" and no warning |
| Golem.RouteIgnoresCase | golem.py:74 | routing depends only on the lower-cased provider name |
| Golem.DefaultProviderIsOllama | golem.py:137-140 | the default provider "Ollama" selects the Ollama adapter |
| Golem.DroppedArgumentHasNoEffect | golem.py:97-146 | changing an argument the selected adapter does not take leaves the call unchanged and never fails it |
| Golem.AcceptedArgumentIsForwarded | golem.py:83-149 | changing an argument the selected adapter takes changes the call |
| Golem.Ask | golem.py:64-152 | an unknown provider exits with no POST; otherwise the selected adapter's outcome on the arguments it takes; the POSTs, session resets and sleeps are those of no call, one fresh call, or one fresh call followed by another |
| Golem.Send | golem.py:83-149 | the routed call is handed to its adapter and has that adapter's outcome; the POSTs, session resets and sleeps are those of no call, one fresh call, or one fresh call followed by another |
| Golem.RequestJson | util.py:281 | the printed request has exactly url, headers and json, and shows every header with its (redacted) value |
| Golem.FixedRecord | golem.py:166-174 | the record literal has exactly id, provider, model, timestamp, request, response and answer |
| Golem.BuildRecord | golem.py:166-180 | the record holds the fixed keys, and `repeat`, `temperature` and `top_p` exactly when not None |
| Golem.RecordHidesCredentials | golem.py:165-182 | a printed record shows every credential header of the request as REDACTED |
| Sweep.Present | golem.py:351-364 | every parsed value of an option becomes a present one, a failure stays the failure |
| Sweep.Combined | golem.py:351-364 | the three lists when all three parses succeed, else the first failure |
| Sweep.ParseAxis | golem.py:351-354 | an absent option is the one-element default list, a given one is `parse_list` of its text |
| Sweep.ParseAxes | golem.py:351-364 | temperature, repeat and top_p are parsed in that order; the defaults are [None], [0] and [None] |
| Sweep.SystemPrompt | golem.py:366-368 | a system prompt is added exactly when the file's text is not empty |
| Sweep.Prepared | golem.py:416-419 | without a system prompt the decoded messages pass on as they are, whatever their kind; with one, a list gains it first and any other value (which has no `insert`) gives nothing |
| Sweep.Immediate | golem.py:394-398 | immediate mode sends exactly `[user prompt]` without a system prompt, and exactly the system prompt followed by the user prompt with one; either way the only non-system message is the prompt as a user message |
| Sweep.Decoded | golem.py:413-419 | a line gives an identifier and messages exactly when it is an object with "id" and "messages", and "messages" is a list whenever a system prompt is to be inserted; the messages are then those of `Prepared` |
| Sweep.LinesLater | golem.py:406-431 | reading lines only adds calls, and nothing happens after a failure |
| SweepOrder.Row | golem.py:386 | one combination per temperature, in order, for one repeat and one top_p |
| SweepOrder.TemperaturesInOrder | golem.py:386-437 | the temperature loop is one pass per temperature, in order |
| SweepOrder.TopsInOrder | golem.py:378-437 | the top_p loop is the passes of each of its rows, in order |
| SweepOrder.RepeatsInOrder | golem.py:370-437 | the repeat loop is one pass per combination, repeat outermost and temperature innermost |
| SweepOrder.PlanInOrder | golem.py:370-427 | the whole sweep is one pass per combination, starting with the given `--skip` |
| SweepOrder.Skipped | golem.py:405-411 | the lines `--skip` passes over: none for a non-positive skip, all of them for a skip beyond the file |
| SweepOrder.Records | golem.py:406-427 | one call per line from the first unskipped one on |
| SweepOrder.LinesRecords | golem.py:405-427 | a pass over a well-formed file makes one call per line after the skipped ones, in file order |
| SweepOrder.PassCalls | golem.py:394-434 | one combination makes its calls, and skip becomes 0 after a file pass but stays in immediate mode |
| SweepOrder.PassesCalls | golem.py:370-434 | a run of combinations makes the calls of each in turn, skip applying to the first one only |
| SweepOrder.SweepCalls | golem.py:370-437 | with a prompt or a well-formed file, the run makes exactly the calls of each combination in order: the prompt once, or one call per line with the first `--skip` lines passed over on the first combination only |
| SweepOrder.PromptedCalls | golem.py:394-399 | with a prompt, one call per combination, each with identifier 1 and the same conversation |
| SweepOrder.PromptedSwept | golem.py:394-399 | in immediate mode call k is the prompt under combination k |
| Cli.RanAppend | golem.py:420-427 | a printed record for the next call extends the run by that call |
| Cli.RanFailed | golem.py:420-427 | a call that fails ends the run before its record is printed |
| Cli.RanLater | golem.py:420-437 | after a failure the rest of the plan prints nothing |
| Cli.RecordShows | golem.py:166-180 | the printed record shows the identifier and the swept values of its call |
| Cli.Session.Run | golem.py:155-182 | the swept values are made JSON, the request is routed and asked, and exactly one record is printed on success, none on failure; the POSTs, session resets and sleeps are those of no call, one fresh call, or one fresh call followed by another |
| Cli.Session.Call | golem.py:420-427 | one planned call is run and extends the run, or ends it with its failure |
| Cli.Pauses | golem.py:428-430 | with `--delay`, one pause of exactly that many seconds per batch call that returned; none without it |
| Cli.Session.PacedCall | golem.py:420-430 | a batch call is run; when it returns, its record is printed and, with `--delay`, one pause of that length follows; when it fails, nothing is printed and nothing paused |
| Cli.Session.Batch | golem.py:402-431 | one pass over the messages file prints the records of the planned calls of that pass, up to the first failure, and pauses once for `--delay` after each printed record |
| Cli.Session.Combination | golem.py:394-437 | the innermost body: one immediate call, or a file pass followed by skip = 0, or the missing-prompt exit; immediate mode never pauses, a file pass pauses once per printed record |
| Cli.Session.SweepTemperatures | golem.py:386-437 | the temperature loop prints the records of its planned passes, up to the first failure |
| Cli.Session.SweepTops | golem.py:378-437 | the top_p loop prints the records of its planned passes, up to the first failure |
| Cli.Session.SweepRepeats | golem.py:370-437 | the repeat loop prints the records of its planned passes, up to the first failure |
| Cli.Session.Execute | golem.py:332-437 | the options are parsed; a parse failure prints nothing, otherwise the records of the planned calls are printed in order until the first failure |
| Costs.EnterKeys | costs.py:28-29 | each listed key maps to the pricing, every other key keeps its entry |
| Costs.Enter | costs.py:22-29 | an entry with non-empty pricing maps each of its keys to it; other keys keep theirs |
| Costs.LoadPricing | costs.py:14-38 | the loop builds the lookup of all entries in order |
| Costs.PricedKeys | costs.py:22-29 | a name is in the lookup exactly when some entry with pricing lists it |
| Costs.PricedLatest | costs.py:22-29 | the last entry with pricing that lists a name decides its pricing |
| Costs.Usage | costs.py:68-76 | a truthy `usage` is used, else a truthy `usageMetadata`, else none; a response that is not an object raises |
| Costs.Collect | costs.py:82-97 | a token field is appended exactly when the usage object has it |
| Costs.Counted | costs.py:81-97 | counting tokens changes neither the line count, the model nor the repeats |
| Costs.Read | costs.py:54-97 | every line counts; the model changes exactly on a record with "model"; at most one repeat is added; a record that is not an object, or whose usage raises, stops the run |
| Costs.Scan | costs.py:52-97 | the line count is the number of lines and the repeats never outnumber them |
| Costs.ScanStops | costs.py:52-97 | the first line Python raises on decides the outcome of the whole file |
| Costs.ScanUnnamed | costs.py:49-66 | with no record naming a model the model is "" |
| Costs.ScanModel | costs.py:65-66 | the model is that of the last record with a "model" key, whether or not it has usage |
| Costs.WithoutUsage | costs.py:70-79 | a record without usage adds no token count and no repeat |
| Costs.GeminiCountsFeedInput | costs.py:82-97 | each OpenAI field feeds its own list; Anthropic's and then Gemini's input and output counts feed the input and output lists |
| Costs.CountedGrows | costs.py:82-97 | counting a usage appends to each token list exactly the usage's values under that list's keys, and nothing for a usage that is not an object |
| Costs.WithUsage | costs.py:70-97 | a record with usage adds its own "repeat" when it has one, and its usage's values to the token lists |
| Costs.ScanTallies | costs.py:52-97 | over a whole file, the repeats and each token list are the record-by-record collection of the records with usage, in file order |
| Costs.Total | costs.py:133-137 | `sum` is defined exactly when every count is an int or a bool |
| Costs.TotalAppend | costs.py:116-118 | the sum over a file splits at any line into the sums of the parts |
| Costs.PricingOf | costs.py:110-111 | prices exist exactly when the model is a name in the lookup |
| Costs.Distinct | costs.py:138 | `len(set(repeats))`: the number of distinct values, never more than the list holds |
| Costs.DistinctBound | costs.py:138 | a list has no more distinct elements than elements |
| Costs.Charge | costs.py:106-124 | both costs are 0 without prices, and each is 0 when its price is 0 |
| Costs.Summarize | costs.py:103-143 | the sums of the five lists, the distinct repeats, the lines and the model, with costs charged on input (else prompt) and output (else completion) tokens and total = input + output |
| Costs.UnpricedCostsNothing | costs.py:106-126 | a file whose model the lookup lacks costs nothing |
| Costs.RepeatsBound | costs.py:138-139 | the distinct repeats never outnumber the lines |
| Costs.ProcessFile | costs.py:41-143 | the loop over the lines gives the failure of the first line that raises, otherwise the summary of the tally |
| Latencies.Normalize | latencies.py:14-17 | the stripped text with one trailing "Z" replaced by "+00:00"; the result neither ends in "Z" nor has surrounding blanks |
| Latencies.NormalizeIdempotent | latencies.py:14-17 | normalising twice is normalising once |
| Latencies.NonNull | latencies.py:35 | `record.get("model")` is a value exactly when the key is present and not null |
| Latencies.Parse | latencies.py:28-32 | a line is passed over exactly when blank; any other is the object its stripped text decodes to, or raises |
| Latencies.Timestamp | latencies.py:37-41 | a record has no instant exactly when its timestamp is missing or falsy |
| Latencies.Grown | latencies.py:43-46 | the delta from the previous timestamp is appended exactly when there is one and the delta is strictly positive |
| Latencies.Advance | latencies.py:43-48 | a new timestamp becomes the previous one whatever its delta, and the intervals grow as above |
| Latencies.UpdateChanges | latencies.py:34-48 | a record sets the model only while there is none; only a timestamped record moves the previous timestamp and grows the intervals |
| Latencies.StepChanges | latencies.py:27-48 | the same for one line of the file |
| Latencies.StepPositive | latencies.py:43-46 | one line adds only a strictly positive interval |
| Latencies.ScannedPositive | latencies.py:43-46 | every recorded interval is strictly positive |
| Latencies.ScannedBounds | latencies.py:37-48 | there is a previous timestamp exactly when some record had one, and there are at most timestamped records − 1 intervals |
| Latencies.NoModel | latencies.py:34-35 | with no record naming a model the model stays None |
| Latencies.FirstModel | latencies.py:34-35 | the model is the first non-null one; later ones do not replace it |
| Latencies.LastInstant | latencies.py:37-48 | the previous timestamp is that of the last timestamped record; records without one do not reset it |
| Latencies.ScannedStops | latencies.py:27-32 | the first line Python raises on decides the outcome of the whole file |
| Latencies.ReadLine | latencies.py:28-32 | the start of the loop body reads one line as specified |
| Latencies.ReadRecord | latencies.py:34-48 | the rest of the loop body updates model, previous timestamp and intervals as specified |
| Latencies.ComputeIntervals | latencies.py:21-50 | the loop gives the model and intervals of the whole file, or the failure of the first line that raises |
| Latencies.Key | latencies.py:58 | a file is grouped exactly when its model is a non-empty name, under that name; a truthy non-string model is refused |
| Latencies.JoinedNone | latencies.py:56-59 | a model no file is under gets no intervals |
| Latencies.GroupedJoins | latencies.py:54-59 | a model is a key exactly when some file is under it, and holds the concatenation of those files' intervals in file order |
| Latencies.GroupedFails | latencies.py:58 | the grouping fails exactly when some file's model cannot be a key |
| Latencies.Insert | latencies.py:61 | insertion keeps the list ascending and adds exactly the new name |
| Latencies.Sort | latencies.py:61 | `sorted` gives an ascending list of exactly the keys |
| Latencies.GroupedStops | latencies.py:56-59 | the first file whose model cannot be a key decides the outcome |
| Latencies.Group | latencies.py:54-59 | the loop filling the dict gives the grouping, with its keys in creation order |
| Latencies.Rows | latencies.py:61-69 | one row per model in the given order, its sample count the number of its intervals |
| Latencies.Report | latencies.py:53-69 | one row per grouped model, in strictly ascending name order, with the model's joined intervals and their count; it fails exactly when some file's model cannot be a key |

## Left out

- Real HTTP, the 600 s timeout and `requests.Session` objects: the network is a function from attempt number to outcome and the session is a reset counter.
- `time.sleep` and `random.uniform`: nothing sleeps. Each retry backoff of `http_request` is recorded in `Http.Transport.slept` as the delay it would sleep, with the jitter draw taken from a function into [0, 1]. The `--delay` pause after each batch call (golem.py:428-430) is recorded separately, in `Cli.Session.paused`.
- Cli.Session.SweepTemperatures, Cli.Session.SweepTops, Cli.Session.SweepRepeats and Cli.Session.Execute: their contracts do not state the `--delay` pauses. Those are stated per combination by Cli.Session.Batch and Cli.Session.Combination, and are not summed over the sweep.
- Logging and messages on stderr: nothing is written. `Golem.Ignored` lists the arguments `ask` warns about. Three stderr paths of costs.py have no counterpart:
  - the warning for a missing or malformed `models.yaml` (costs.py:30-36), after which the lookup is empty;
  - the error for a missing answers file (costs.py:99-101), for which no line is output;
  - the warning for a model without pricing (costs.py:125-126). Its zero cost is modelled by Costs.Charge and Costs.UnpricedCostsNothing.
- `os.getenv` and the gcloud subprocess are a map and a function from fetch number to the printed output (None when the command fails).
- The wall clock of `timestamp()` is a function from record number to a string.
- Reading files, the YAML of `models.yaml`, `json.loads` and `response.json()`: the model takes decoded values, or a decoding function for latencies. A missing file is therefore not modelled: neither the empty lookup of a missing `models.yaml` (costs.py:30-33) nor the skipped answers file (costs.py:99-101).
- argparse and `make_parser`: the model starts from the parsed arguments, and the system prompt file is given as its text.
- Floating point: token costs are reals and not rounded to 6 places; the Decimal to float conversion keeps the exact value.
- `statistics.median` is left out: a row carries its intervals and their count, from which the median follows.
- `datetime.fromisoformat` and `total_seconds`: a normalised timestamp is turned by a given function into an integer count of a fixed unit (for example microseconds), and intervals are differences of those counts. Every timestamp is therefore comparable with every other, so a file mixing naive and timezone-aware timestamps, on which Python's subtraction raises TypeError (latencies.py:41-43), is not refused; records written by this program always carry a timezone.
- The file, label and experiment fields of the costs entry, which come from the path.
- gemini.py is not routed: `ask` never calls `ask_gemini`, which is not imported by golem.py:38-43, so the adapter is modelled on its own.
- JSON key order is not modelled: objects are maps.
- Golem.Ask: the adapter's outcome is stated under a trivially true gate (`Consulted`) so that callers do not unfold every adapter's outcome.
- Cli.Session.Run: its statement about the request asked carries the same gate.
- Cli.Session.Execute: states which records are printed against the plan; which failure ends a run is stated per call, not tied to the adapter's outcome at the level of the whole sweep.
- SweepOrder.SweepCalls: states the calls only for a prompt or a file whose every line `Sweep.Decoded` accepts; other files are covered by `Sweep.Plan` and `Sweep.LinesLater`.
- Strings.Lower: lowers the ASCII capitals and the KELVIN SIGN only; Python also lowers the other cased non-ASCII letters, none of which lowers to a plain ASCII letter alone, so a provider name selects the same adapter and only the name reported for an unknown provider can differ.
- Util.ParseElement: underscores between digits (`int("1_000")`) and non-ASCII decimal digits, which `int()` and `Decimal()` accept, are not accepted: such a piece stays a string, or makes a piece with "." an invalid decimal.
- Util.Add: the sum is exact, while Decimal addition rounds to the 28 significant digits of the default context, so sums needing more digits differ.
- Costs.Total: counts that are floats are not summed (the sum is None).
- Costs.Distinct: Python's equal hashing of 1, 1.0 and True is not modelled; values are compared as JSON values.
- Latencies.Key: a truthy model that is not a string is refused rather than used as a dict key.
- Util.DecimalRange: bounds that are strings compare in Python but are refused here (`UnsupportedRange`), and a loop that never ends is an error value (`Diverges`).

Where the code and its description differ, the model follows the code:

- A blank reply counts as no reply whatever its status, not only on a 200 (util.py:227-230).
- The first sleep uses r = 1, that is 10 s, because the counter is incremented before the backoff (util.py:246-247).
- A fresh call makes 22 POSTs and 21 sleeps before exiting, because the bound is tested with `retry > MAX_RETRIES` before the increment (util.py:21, 243).

## Findings

| source | as written | input that shows it | evidently intended | confidence | as-written member | corrected member |
|---|---|---|---|---|---|---|
| golem.py:112-124 | the openai branch calls `ask_openai` with ten positional arguments, but openai.py:10-23 declares twelve (`provider` first, `reasoning_effort` last), so the call raises TypeError | `golem --provider openai "hi"` | pass "openai" as the provider and no reasoning effort, forwarding every other argument | not executed | Golem.OpenAIUnreachableAsWritten | Golem.OpenAIRouteForwardsAll |
