/**
 * costs.py: the pricing lookup built from the models file, and the per-file
 * summary of an answers file (token sums, distinct repeats, line count and
 * the cost at the model's price per million tokens).
 *
 * Reading files and YAML/JSON text is not modelled: the models file arrives
 * as its list of entries, an answers file as its lines, each already decoded
 * (None for a line `json.loads` rejects). Prices are exact reals.
 */
module Costs {
  import opened Wrappers
  import opened Json
  import opened Util

  /** A price table such as `{"input_price": 2.5, "output_price": 10.0}`. */
  type Pricing = map<string, real>

  /** One entry of the models file: its price table (empty when absent) and the names it is known by. */
  datatype ModelEntry = ModelEntry(pricing: Pricing, keys: seq<string>)

  /** The entry has a non-empty price table and lists `key`. */
  predicate Provides(e: ModelEntry, key: string)
  {
    e.pricing != map[] && key in e.keys
  }

  /** `pricing_lookup[key] = pricing` for each of the keys in turn. */
  function EnterKeys(lookup: map<string, Pricing>, keys: seq<string>, pricing: Pricing): (r: map<string, Pricing>)
    ensures forall key :: key in r <==> key in lookup || key in keys
    ensures forall key :: key in r ==> r[key] == if key in keys then pricing else lookup[key]
  {
    if keys == [] then lookup else EnterKeys(lookup, keys[..|keys| - 1], pricing)[keys[|keys| - 1] := pricing]
  }

  /** The lookup after one more entry: its keys map to its prices, unless it has none. */
  function Enter(lookup: map<string, Pricing>, e: ModelEntry): (r: map<string, Pricing>)
    ensures forall key :: key in r <==> key in lookup || Provides(e, key)
    ensures forall key :: key in r ==> r[key] == if Provides(e, key) then e.pricing else lookup[key]
  {
    if e.pricing == map[] then lookup else EnterKeys(lookup, e.keys, e.pricing)
  }

  /** The lookup built from the entries in order. */
  function Priced(entries: seq<ModelEntry>): map<string, Pricing>
  {
    if entries == [] then map[] else Enter(Priced(entries[..|entries| - 1]), entries[|entries| - 1])
  }

  /** costs.py:14-38, `load_pricing`: the nested loop filling `pricing_lookup`. */
  method LoadPricing(entries: seq<ModelEntry>) returns (lookup: map<string, Pricing>)
    ensures lookup == Priced(entries)
  {
    lookup := map[];
    for i := 0 to |entries|
      invariant lookup == Priced(entries[..i])
    {
      var entry := entries[i];
      if entry.pricing != map[] {
        for j := 0 to |entry.keys|
          invariant lookup == EnterKeys(Priced(entries[..i]), entry.keys[..j], entry.pricing)
        {
          assert entry.keys[..j + 1][..j] == entry.keys[..j];
          lookup := lookup[entry.keys[j] := entry.pricing];
        }
        assert entry.keys[..|entry.keys|] == entry.keys;
      }
      assert entries[..i + 1][..i] == entries[..i];
    }
    assert entries[..|entries|] == entries;
  }

  /** A name is in the lookup exactly when some entry with prices lists it. */
  lemma {:induction false} PricedKeys(entries: seq<ModelEntry>, key: string)
    ensures key in Priced(entries) <==> exists i :: 0 <= i < |entries| && Provides(entries[i], key)
    decreases |entries|
  {
    if entries != [] {
      var init := entries[..|entries| - 1];
      PricedKeys(init, key);
      if key in Priced(init) {
        var i :| 0 <= i < |init| && Provides(init[i], key);
        assert entries[i] == init[i];
      }
      if i :| 0 <= i < |entries| && Provides(entries[i], key) {
        if i < |init| {
          assert init[i] == entries[i];
        }
      }
    }
  }

  /** The last entry with prices that lists a name decides its prices: later entries override earlier ones. */
  lemma {:induction false} PricedLatest(entries: seq<ModelEntry>, key: string, i: nat)
    requires i < |entries| && Provides(entries[i], key)
    requires forall j :: i < j < |entries| ==> !Provides(entries[j], key)
    ensures key in Priced(entries) && Priced(entries)[key] == entries[i].pricing
    decreases |entries|
  {
    var init := entries[..|entries| - 1];
    if i < |init| {
      forall j | i < j < |init|
        ensures !Provides(init[j], key)
      {
        assert init[j] == entries[j];
      }
      assert init[i] == entries[i];
      PricedLatest(init, key, i);
    }
  }

  /** What the loop over an answers file has gathered so far. */
  datatype Tally = Tally(lines: nat, model: Json, prompt: seq<Json>, completion: seq<Json>, total: seq<Json>,
                         input: seq<Json>, output: seq<Json>, repeats: seq<Json>)

  /** Before the first line: no lines, the model "" and no counts. */
  const EMPTY: Tally := Tally(0, JStr(""), [], [], [], [], [], [])

  /**
   * costs.py:68-76: `data.get("response", {}).get("usage")`, falling back to
   * `usageMetadata`; Ok(None) when neither is truthy. A response that is not
   * an object has no `.get`: Python raises.
   */
  function Usage(record: map<string, Json>): (r: Result<Option<Json>, Failure>)
    ensures r.Err? <==> "response" in record && !record["response"].JObj?
    ensures r.Ok? && r.value.Some? ==> Truthy(r.value.value)
    ensures r.Ok? ==> var response := Get(record, "response");
      && (r.value.None? <==>
           response.None? || (!Present(Get(response.value.fields, "usage")) &&
                              !Present(Get(response.value.fields, "usageMetadata"))))
      && (response.Some? && Present(Get(response.value.fields, "usage")) ==>
            r.value == Get(response.value.fields, "usage"))
      && (response.Some? && !Present(Get(response.value.fields, "usage")) &&
          Present(Get(response.value.fields, "usageMetadata")) ==>
            r.value == Get(response.value.fields, "usageMetadata"))
  {
    var response := if "response" in record then record["response"] else JObj(map[]);
    if !response.JObj? then Err(BadAnswer)
    else
      var usage := Get(response.fields, "usage");
      if Present(usage) then Ok(usage)
      else
        var metadata := Get(response.fields, "usageMetadata");
        if Present(metadata) then Ok(metadata) else Ok(None)
  }

  /** Python's `k in s` on strings: `k` occurs somewhere in `s`. */
  predicate Occurs(k: string, s: string)
    decreases |s|
  {
    |k| <= |s| && (s[..|k|] == k || (s != [] && Occurs(k, s[1..])))
  }

  /**
   * `if key in usage: xs.append(usage[key])`. On a list or a string `in`
   * works but the subscript raises; on a number or `True` `in` itself raises.
   */
  function Collect(xs: seq<Json>, usage: Json, key: string): (r: Result<seq<Json>, Failure>)
    ensures usage.JObj? ==> r == Ok(if key in usage.fields then xs + [usage.fields[key]] else xs)
    ensures r.Ok? ==> xs <= r.value && |r.value| <= |xs| + 1
  {
    match usage
    case JObj(fields) => Ok(if key in fields then xs + [fields[key]] else xs)
    case JArr(items) => if JStr(key) in items then Err(BadAnswer) else Ok(xs)
    case JStr(s) => if Occurs(key, s) then Err(BadAnswer) else Ok(xs)
    case _ => Err(BadAnswer)
  }

  /** costs.py:82-97: the seven token fields; Gemini's two counts go to the input and output lists. */
  function Counted(t: Tally, usage: Json): (r: Result<Tally, Failure>)
    ensures r.Ok? ==> r.value.lines == t.lines && r.value.model == t.model && r.value.repeats == t.repeats
  {
    var prompt :- Collect(t.prompt, usage, "prompt_tokens");
    var completion :- Collect(t.completion, usage, "completion_tokens");
    var total :- Collect(t.total, usage, "total_tokens");
    var input :- Collect(t.input, usage, "input_tokens");
    var output :- Collect(t.output, usage, "output_tokens");
    var input' :- Collect(input, usage, "promptTokenCount");
    var output' :- Collect(output, usage, "candidatesTokenCount");
    Ok(t.(prompt := prompt, completion := completion, total := total, input := input', output := output'))
  }

  /**
   * costs.py:54-97, one line of the answers file. Every line is counted; a
   * line that is not JSON is skipped; a record that is not an object raises.
   */
  function Read(t: Tally, line: Option<Json>): (r: Result<Tally, Failure>)
    ensures r.Ok? ==> r.value.lines == t.lines + 1
    ensures r.Ok? ==> |r.value.repeats| <= |t.repeats| + 1
    ensures r.Ok? ==> r.value.model == if Names(line) then line.value.fields["model"] else t.model
    ensures r.Err? <==> line.Some? && (!line.value.JObj? || Usage(line.value.fields).Err? ||
                        (Usage(line.value.fields).value.Some? &&
                         Counted(t, Usage(line.value.fields).value.value).Err?))
  {
    var counted := t.(lines := t.lines + 1);
    match line
    case None => Ok(counted)
    case Some(data) =>
      if !data.JObj? then Err(BadAnswer)
      else
        var named := counted.(model := if "model" in data.fields then data.fields["model"] else t.model);
        var usage :- Usage(data.fields);
        match usage
        case None => Ok(named)
        case Some(u) =>
          Counted(named.(repeats := named.repeats + Opt(Get(data.fields, "repeat"))), u)
  }

  /** The optional value as a list of zero or one elements. */
  function Opt(o: Option<Json>): (r: seq<Json>)
    ensures |r| <= 1 && (o.Some? ==> r == [o.value]) && (o.None? ==> r == [])
  {
    if o.Some? then [o.value] else []
  }

  /** The tally after the given lines, or the failure of the first line Python raises on. */
  function Scan(lines: seq<Option<Json>>): (r: Result<Tally, Failure>)
    ensures r.Ok? ==> r.value.lines == |lines| && |r.value.repeats| <= |lines|
  {
    if lines == [] then Ok(EMPTY)
    else
      var t :- Scan(lines[..|lines| - 1]);
      Read(t, lines[|lines| - 1])
  }

  /** Python stops at the first line it raises on: nothing after it changes the failure. */
  lemma {:induction false} ScanStops(lines: seq<Option<Json>>, i: nat)
    requires i <= |lines| && Scan(lines[..i]).Err?
    ensures Scan(lines) == Scan(lines[..i])
    decreases |lines|
  {
    if i == |lines| {
      assert lines[..i] == lines;
    } else {
      var init := lines[..|lines| - 1];
      assert init[..i] == lines[..i];
      ScanStops(init, i);
    }
  }

  /** The record on the line has a "model" key. */
  predicate Names(line: Option<Json>)
  {
    line.Some? && line.value.JObj? && "model" in line.value.fields
  }

  /** costs.py:65-66: the model is "" when no record has a "model" key. */
  lemma {:induction false} ScanUnnamed(lines: seq<Option<Json>>)
    requires Scan(lines).Ok? && forall i :: 0 <= i < |lines| ==> !Names(lines[i])
    ensures Scan(lines).value.model == JStr("")
    decreases |lines|
  {
    if lines != [] {
      var init := lines[..|lines| - 1];
      assert Scan(init).Ok?;
      assert forall i :: 0 <= i < |init| ==> init[i] == lines[i];
      ScanUnnamed(init);
    }
  }

  /**
   * costs.py:65-66: the model is the one of the last record that has a
   * "model" key, usage or not.
   */
  lemma {:induction false} ScanModel(lines: seq<Option<Json>>, i: nat)
    requires Scan(lines).Ok? && i < |lines| && Names(lines[i])
    requires forall j :: i < j < |lines| ==> !Names(lines[j])
    ensures Scan(lines).value.model == lines[i].value.fields["model"]
    decreases |lines|
  {
    var init := lines[..|lines| - 1];
    assert Scan(init).Ok?;
    if i < |lines| - 1 {
      assert init[i] == lines[i];
      assert forall j :: i < j < |init| ==> init[j] == lines[j];
      ScanModel(init, i);
    }
  }

  /** costs.py:70-76: a record without usage adds no token count and no repeat. */
  lemma WithoutUsage(t: Tally, data: map<string, Json>)
    requires Usage(data) == Ok(None)
    ensures Read(t, Some(JObj(data))).Ok?
    ensures var r := Read(t, Some(JObj(data))).value;
      r.prompt == t.prompt && r.completion == t.completion && r.total == t.total && r.input == t.input &&
      r.output == t.output && r.repeats == t.repeats
  {
  }

  /**
   * costs.py:89-97: Anthropic's `input_tokens` and Gemini's
   * `promptTokenCount` both feed the input list, in that order; likewise
   * for the output list.
   */
  lemma GeminiCountsFeedInput(t: Tally, usage: map<string, Json>)
    ensures Counted(t, JObj(usage)).Ok?
    ensures var r := Counted(t, JObj(usage)).value;
      && r.input == t.input + Opt(Get(usage, "input_tokens")) + Opt(Get(usage, "promptTokenCount"))
      && r.output == t.output + Opt(Get(usage, "output_tokens")) + Opt(Get(usage, "candidatesTokenCount"))
      && r.prompt == t.prompt + Opt(Get(usage, "prompt_tokens"))
      && r.completion == t.completion + Opt(Get(usage, "completion_tokens"))
      && r.total == t.total + Opt(Get(usage, "total_tokens"))
  {
  }

  /** The keys whose values feed each token list, in the order they are appended. */
  const PROMPT_KEYS: seq<string> := ["prompt_tokens"]
  const COMPLETION_KEYS: seq<string> := ["completion_tokens"]
  const TOTAL_KEYS: seq<string> := ["total_tokens"]
  const INPUT_KEYS: seq<string> := ["input_tokens", "promptTokenCount"]
  const OUTPUT_KEYS: seq<string> := ["output_tokens", "candidatesTokenCount"]

  /** The values the usage holds under `keys`, in order; a usage that is not an object holds none. */
  function Found(usage: Json, keys: seq<string>): (r: seq<Json>)
    ensures |r| <= |keys|
  {
    if keys == [] then []
    else Opt(if usage.JObj? then Get(usage.fields, keys[0]) else None) + Found(usage, keys[1..])
  }

  /**
   * Counting a usage appends to each list exactly the values it holds under
   * that list's keys; a usage that is not an object, when it does not make
   * Python raise, appends nothing.
   */
  lemma CountedGrows(t: Tally, usage: Json)
    requires Counted(t, usage).Ok?
    ensures var r := Counted(t, usage).value;
      && r.prompt == t.prompt + Found(usage, PROMPT_KEYS)
      && r.completion == t.completion + Found(usage, COMPLETION_KEYS)
      && r.total == t.total + Found(usage, TOTAL_KEYS)
      && r.input == t.input + Found(usage, INPUT_KEYS)
      && r.output == t.output + Found(usage, OUTPUT_KEYS)
  {
    if usage.JObj? {
      CountedObject(t, usage.fields);
    } else {
      CountedNothing(t, usage);
      FoundNothing(usage, PROMPT_KEYS);
      FoundNothing(usage, COMPLETION_KEYS);
      FoundNothing(usage, TOTAL_KEYS);
      FoundNothing(usage, INPUT_KEYS);
      FoundNothing(usage, OUTPUT_KEYS);
    }
  }

  /** An object usage appends to each list the values it holds under that list's keys. */
  lemma CountedObject(t: Tally, usage: map<string, Json>)
    ensures Counted(t, JObj(usage)).Ok?
    ensures var r := Counted(t, JObj(usage)).value;
      && r.prompt == t.prompt + Found(JObj(usage), PROMPT_KEYS)
      && r.completion == t.completion + Found(JObj(usage), COMPLETION_KEYS)
      && r.total == t.total + Found(JObj(usage), TOTAL_KEYS)
      && r.input == t.input + Found(JObj(usage), INPUT_KEYS)
      && r.output == t.output + Found(JObj(usage), OUTPUT_KEYS)
  {
    CountedSingles(t, usage);
    CountedPairs(t, usage);
  }

  /** The prompt, completion and total lists of an object usage. */
  lemma CountedSingles(t: Tally, usage: map<string, Json>)
    ensures Counted(t, JObj(usage)).Ok?
    ensures var r := Counted(t, JObj(usage)).value;
      && r.prompt == t.prompt + Found(JObj(usage), PROMPT_KEYS)
      && r.completion == t.completion + Found(JObj(usage), COMPLETION_KEYS)
      && r.total == t.total + Found(JObj(usage), TOTAL_KEYS)
  {
    GeminiCountsFeedInput(t, usage);
    FoundInObject(usage, PROMPT_KEYS);
    FoundInObject(usage, COMPLETION_KEYS);
    FoundInObject(usage, TOTAL_KEYS);
  }

  /** The input and output lists of an object usage, each fed by two keys. */
  lemma CountedPairs(t: Tally, usage: map<string, Json>)
    ensures Counted(t, JObj(usage)).Ok?
    ensures var r := Counted(t, JObj(usage)).value;
      && r.input == t.input + Found(JObj(usage), INPUT_KEYS)
      && r.output == t.output + Found(JObj(usage), OUTPUT_KEYS)
  {
    GeminiCountsFeedInput(t, usage);
    FoundPair(t.input, usage, INPUT_KEYS);
    FoundPair(t.output, usage, OUTPUT_KEYS);
  }

  /** Appending what an object holds under two keys is appending one value after the other. */
  lemma FoundPair(xs: seq<Json>, usage: map<string, Json>, keys: seq<string>)
    requires |keys| == 2
    ensures xs + Found(JObj(usage), keys) == xs + Opt(Get(usage, keys[0])) + Opt(Get(usage, keys[1]))
  {
    FoundInObject(usage, keys);
    var a, b := Opt(Get(usage, keys[0])), Opt(Get(usage, keys[1]));
    assert xs + a + b == xs + (a + b);
  }

  /** The values an object holds under one key or two keys, spelled out. */
  lemma FoundInObject(usage: map<string, Json>, keys: seq<string>)
    requires 1 <= |keys| <= 2
    ensures |keys| == 1 ==> Found(JObj(usage), keys) == Opt(Get(usage, keys[0]))
    ensures |keys| == 2 ==> Found(JObj(usage), keys) == Opt(Get(usage, keys[0])) + Opt(Get(usage, keys[1]))
  {
    assert Found(JObj(usage), keys[1..]) == if |keys| == 1 then [] else Opt(Get(usage, keys[1])) by {
      if |keys| == 2 {
        assert keys[1..][1..] == [];
      }
    }
    assert Opt(Get(usage, keys[0])) + [] == Opt(Get(usage, keys[0]));
  }

  /** A usage that is not an object holds no values. */
  lemma {:induction false} FoundNothing(usage: Json, keys: seq<string>)
    requires !usage.JObj?
    ensures Found(usage, keys) == []
  {
    if keys != [] {
      FoundNothing(usage, keys[1..]);
    }
  }

  /** A usage that is not an object, when Python does not raise on it, adds nothing. */
  lemma CountedNothing(t: Tally, usage: Json)
    requires !usage.JObj? && Counted(t, usage).Ok?
    ensures Counted(t, usage).value == t
  {
  }

  /**
   * costs.py:70-97: a record with usage adds its own "repeat" (when it has
   * one) to the repeats, and to each token list the usage's values under
   * that list's keys.
   */
  lemma WithUsage(t: Tally, data: map<string, Json>, usage: Json)
    requires Usage(data) == Ok(Some(usage))
    requires Read(t, Some(JObj(data))).Ok?
    ensures var r := Read(t, Some(JObj(data))).value;
      && r.repeats == t.repeats + Opt(Get(data, "repeat"))
      && r.prompt == t.prompt + Found(usage, PROMPT_KEYS)
      && r.completion == t.completion + Found(usage, COMPLETION_KEYS)
      && r.total == t.total + Found(usage, TOTAL_KEYS)
      && r.input == t.input + Found(usage, INPUT_KEYS)
      && r.output == t.output + Found(usage, OUTPUT_KEYS)
  {
    var named := t.(lines := t.lines + 1, model := if "model" in data then data["model"] else t.model,
                    repeats := t.repeats + Opt(Get(data, "repeat")));
    assert Read(t, Some(JObj(data))) == Counted(named, usage);
    CountedGrows(named, usage);
  }

  /** The usage Python reads from a line: its record's, when the line is an object with one. */
  function LineUsage(line: Option<Json>): Option<Json>
  {
    if line.Some? && line.value.JObj? && Usage(line.value.fields).Ok? then Usage(line.value.fields).value else None
  }

  /** Record by record: the values every line with usage holds under `keys`, in file order. */
  function Tokens(lines: seq<Option<Json>>, keys: seq<string>): seq<Json>
  {
    if lines == [] then []
    else
      var last := lines[|lines| - 1];
      Tokens(lines[..|lines| - 1], keys) + (if LineUsage(last).Some? then Found(LineUsage(last).value, keys) else [])
  }

  /** Record by record: the "repeat" of every record with usage that has one, in file order. */
  function Repeats(lines: seq<Option<Json>>): seq<Json>
  {
    if lines == [] then []
    else
      var last := lines[|lines| - 1];
      Repeats(lines[..|lines| - 1]) + (if LineUsage(last).Some? then Opt(Get(last.value.fields, "repeat")) else [])
  }

  /**
   * costs.py:52-97 over a whole file: each list the loop builds is the
   * record-by-record collection of its keys' values, and the repeats are
   * those of the records with usage.
   */
  lemma {:induction false} ScanTallies(lines: seq<Option<Json>>)
    requires Scan(lines).Ok?
    ensures var t := Scan(lines).value;
      && t.repeats == Repeats(lines)
      && t.prompt == Tokens(lines, PROMPT_KEYS)
      && t.completion == Tokens(lines, COMPLETION_KEYS)
      && t.total == Tokens(lines, TOTAL_KEYS)
      && t.input == Tokens(lines, INPUT_KEYS)
      && t.output == Tokens(lines, OUTPUT_KEYS)
    decreases |lines|
  {
    if lines != [] {
      var init := lines[..|lines| - 1];
      var last := lines[|lines| - 1];
      assert Scan(init).Ok?;
      ScanTallies(init);
      var t := Scan(init).value;
      if LineUsage(last).Some? {
        WithUsage(t, last.value.fields, LineUsage(last).value);
      } else if last.Some? {
        WithoutUsage(t, last.value.fields);
      }
    }
  }

  /** `sum(xs)` over token counts; None where a count is not a whole number or a bool. */
  function Total(xs: seq<Json>): (r: Option<int>)
    ensures r.Some? <==> forall i :: 0 <= i < |xs| ==> xs[i].JInt? || xs[i].JBool?
  {
    if xs == [] then Some(0)
    else
      var last := xs[|xs| - 1];
      match Total(xs[..|xs| - 1])
      case None => None
      case Some(s) =>
        match last
        case JInt(n) => Some(s + n)
        case JBool(b) => Some(s + if b then 1 else 0)
        case _ => None
  }

  /** A sum over a whole file splits at any line: the two parts add up. */
  lemma {:induction false} TotalAppend(xs: seq<Json>, ys: seq<Json>)
    ensures Total(xs + ys).Some? <==> Total(xs).Some? && Total(ys).Some?
    ensures Total(xs + ys).Some? ==> Total(xs + ys).value == Total(xs).value + Total(ys).value
    decreases |ys|
  {
    if ys == [] {
      assert xs + ys == xs;
    } else {
      assert (xs + ys)[..|xs + ys| - 1] == xs + ys[..|ys| - 1];
      assert (xs + ys)[|xs + ys| - 1] == ys[|ys| - 1];
      TotalAppend(xs, ys[..|ys| - 1]);
    }
  }

  /** Python cannot hash a list or a dict: `x in d` and `set(xs)` raise on one. */
  predicate Hashable(j: Json)
  {
    !j.JArr? && !j.JObj?
  }

  /** The printed summary of one answers file, less its path fields. */
  datatype Entry = Entry(model: Json, promptTokens: int, completionTokens: int, inputTokens: int, totalTokens: int,
                         outputTokens: int, repeats: nat, lines: nat, inputCost: real, outputCost: real,
                         totalCost: real)

  /** `pricing.get(key, 0.0)`. */
  function Price(pricing: Pricing, key: string): real
  {
    if key in pricing then pricing[key] else 0.0
  }

  /** The model's prices, when the model is a name the lookup has. */
  function PricingOf(lookup: map<string, Pricing>, model: Json): (r: Option<Pricing>)
    ensures r.Some? <==> model.JStr? && model.s in lookup
  {
    if model.JStr? && model.s in lookup then Some(lookup[model.s]) else None
  }

  /** All elements can go into a set or serve as a dict key. */
  predicate AllHashable(xs: seq<Json>)
  {
    forall i :: 0 <= i < |xs| ==> Hashable(xs[i])
  }

  /** `len(set(xs))`: the number of distinct values, never more than the list holds. */
  function Distinct(xs: seq<Json>): (n: nat)
    ensures n <= |xs|
    ensures n == |set x | x in xs|
  {
    DistinctBound(xs);
    |set x | x in xs|
  }

  /** A list has no more distinct elements than elements. */
  lemma {:induction false} DistinctBound(xs: seq<Json>)
    ensures |set x | x in xs| <= |xs|
    decreases |xs|
  {
    if xs != [] {
      var init := xs[..|xs| - 1];
      DistinctBound(init);
      assert (set x | x in xs) == (set x | x in init) + {xs[|xs| - 1]} by {
        assert xs == init + [xs[|xs| - 1]];
      }
    }
  }

  /** costs.py:106-124: the input and output cost per million tokens; both 0 without prices. */
  function Charge(pricing: Option<Pricing>, tokensIn: int, tokensOut: int): (r: (real, real))
    ensures pricing.None? ==> r == (0.0, 0.0)
    ensures pricing.Some? && Price(pricing.value, "input_price") == 0.0 ==> r.0 == 0.0
    ensures pricing.Some? && Price(pricing.value, "output_price") == 0.0 ==> r.1 == 0.0
  {
    match pricing
    case None => (0.0, 0.0)
    case Some(p) =>
      (tokensIn as real * Price(p, "input_price") / 1000000.0, tokensOut as real * Price(p, "output_price") / 1000000.0)
  }

  /**
   * costs.py:103-143: the sums, the number of distinct repeats, and the costs,
   * which stay 0 for a model the lookup lacks. Input tokens fall back to
   * prompt tokens and output tokens to completion tokens when none were seen.
   */
  function Summarize(t: Tally, lookup: map<string, Pricing>): (r: Result<Entry, Failure>)
    ensures r.Ok? <==> && Total(t.prompt).Some? && Total(t.completion).Some? && Total(t.total).Some?
                       && Total(t.input).Some? && Total(t.output).Some? && Hashable(t.model)
                       && AllHashable(t.repeats)
    ensures r.Ok? ==> && r.value.model == t.model && r.value.lines == t.lines
                      && r.value.repeats == Distinct(t.repeats) && r.value.repeats <= |t.repeats|
                      && r.value.promptTokens == Total(t.prompt).value
                      && r.value.completionTokens == Total(t.completion).value
                      && r.value.totalTokens == Total(t.total).value
                      && r.value.inputTokens == Total(t.input).value
                      && r.value.outputTokens == Total(t.output).value
                      && r.value.totalCost == r.value.inputCost + r.value.outputCost
    ensures r.Ok? ==>
      (r.value.inputCost, r.value.outputCost) ==
        Charge(PricingOf(lookup, t.model),
               if t.input != [] then r.value.inputTokens else r.value.promptTokens,
               if t.output != [] then r.value.outputTokens else r.value.completionTokens)
  {
    if !Hashable(t.model) || !AllHashable(t.repeats) then Err(BadAnswer)
    else if Total(t.prompt).None? || Total(t.completion).None? || Total(t.total).None? then Err(BadAnswer)
    else if Total(t.input).None? || Total(t.output).None? then Err(BadAnswer)
    else
      var prompt, completion, total := Total(t.prompt).value, Total(t.completion).value, Total(t.total).value;
      var input, output := Total(t.input).value, Total(t.output).value;
      var costs := Charge(PricingOf(lookup, t.model), if t.input != [] then input else prompt,
                          if t.output != [] then output else completion);
      Ok(Entry(t.model, prompt, completion, input, total, output, Distinct(t.repeats), t.lines, costs.0, costs.1,
               costs.0 + costs.1))
  }

  /** costs.py:110-126: a file whose model the lookup lacks costs nothing. */
  lemma UnpricedCostsNothing(t: Tally, lookup: map<string, Pricing>)
    requires Summarize(t, lookup).Ok?
    requires !(t.model.JStr? && t.model.s in lookup)
    ensures var e := Summarize(t, lookup).value; e.inputCost == 0.0 && e.outputCost == 0.0 && e.totalCost == 0.0
  {
  }

  /** The distinct repeats never outnumber the lines of the file. */
  lemma RepeatsBound(lines: seq<Option<Json>>, lookup: map<string, Pricing>)
    requires Scan(lines).Ok? && Summarize(Scan(lines).value, lookup).Ok?
    ensures Summarize(Scan(lines).value, lookup).value.repeats <= Summarize(Scan(lines).value, lookup).value.lines
  {
  }

  /**
   * costs.py:41-143, `process_file` over the decoded lines: the loop appends
   * to the five token lists and the repeats, reassigns the model and counts
   * the lines; the summary follows.
   */
  method ProcessFile(lines: seq<Option<Json>>, lookup: map<string, Pricing>) returns (r: Result<Entry, Failure>)
    ensures Scan(lines).Err? ==> r == Err(Scan(lines).error)
    ensures Scan(lines).Ok? ==> r == Summarize(Scan(lines).value, lookup)
  {
    var prompt, completion, total, input, output, repeats := [], [], [], [], [], [];
    var model := JStr("");
    var count := 0;
    for i := 0 to |lines|
      invariant Scan(lines[..i]) == Ok(Tally(count, model, prompt, completion, total, input, output, repeats))
    {
      assert lines[..i + 1][..i] == lines[..i];
      ghost var t := Tally(count, model, prompt, completion, total, input, output, repeats);
      count := count + 1;
      if lines[i].None? {
        continue;
      }
      var data := lines[i].value;
      if !data.JObj? {
        ScanStops(lines, i + 1);
        return Err(BadAnswer);
      }
      if "model" in data.fields {
        model := data.fields["model"];
      }
      var usage := Usage(data.fields);
      if usage.Err? {
        ScanStops(lines, i + 1);
        return Err(usage.error);
      }
      if usage.value.None? {
        continue;
      }
      if "repeat" in data.fields {
        repeats := repeats + [data.fields["repeat"]];
      }
      var u := usage.value.value;
      var before := Tally(count, model, prompt, completion, total, input, output, repeats);
      var counted := Counted(before, u);
      assert before == t.(lines := count, model := model, repeats := t.repeats + Opt(Get(data.fields, "repeat")));
      assert Read(t, lines[i]) == counted;
      if counted.Err? {
        ScanStops(lines, i + 1);
        return Err(counted.error);
      }
      prompt, completion, total := counted.value.prompt, counted.value.completion, counted.value.total;
      input, output := counted.value.input, counted.value.output;
    }
    assert lines[..|lines|] == lines;
    r := Summarize(Tally(count, model, prompt, completion, total, input, output, repeats), lookup);
  }
}
