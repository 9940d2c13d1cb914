/**
 * The request-body pieces gemini.py and vertex.py build the same way: the
 * `contents` reshaping, the `systemInstruction` object and the
 * `generationConfig` object filled by four conditional assignments.
 */
module Google {
  import opened Wrappers
  import opened Json
  import opened Messages

  const GENERATION_CONFIG: string := "generationConfig"

  /** The four sampling keys of `generationConfig`. */
  const CONFIG_KEYS: set<string> := {"maxOutputTokens", "seed", "topP", "temperature"}

  /** `{"parts": [{"text": system}]}`. */
  function Instruction(system: string): (j: Json)
    ensures Lookup(j, [Key("parts"), Index(0), Key("text")]) == Some(JStr(system))
  {
    var j := JObj(map["parts" := JArr([JObj(map["text" := JStr(system)])])]);
    assert Lookup(j, [Key("parts"), Index(0), Key("text")]) == Some(JStr(system)) by {
      LookupAppend(j, [Key("parts")], [Index(0), Key("text")]);
      LookupAppend(JArr([JObj(map["text" := JStr(system)])]), [Index(0)], [Key("text")]);
    }
    j
  }

  /**
   * The system text and the reshaped non-system conversation, or None where
   * one of the comprehensions raises.
   */
  function Contents(ms: seq<Json>): (r: Option<(string, seq<Json>)>)
    ensures r.Some? <==> SystemText(ms).Some? && Parts(NonSystem(ms)).Some?
    ensures r.Some? ==> r.value.0 == SystemText(ms).value && |r.value.1| == |NonSystem(ms)|
    ensures r.Some? ==> forall i :: 0 <= i < |r.value.1| ==>
      Lookup(r.value.1[i], [Key("role")]) == Field(NonSystem(ms)[i], "role") &&
      Lookup(r.value.1[i], [Key("parts"), Index(0), Key("text")]) == Field(NonSystem(ms)[i], "content")
  {
    match (SystemText(ms), Parts(NonSystem(ms)))
    case (Some(system), Some(parts)) => Some((system, parts))
    case _ => None
  }

  /** `Contents` of the entries iterating the messages visits; None where iterating them raises. */
  function Conversation(messages: Json): (r: Option<(string, seq<Json>)>)
    ensures Entries(messages).None? ==> r.None?
    ensures Entries(messages).Some? ==> r == Contents(Entries(messages).value)
  {
    match Entries(messages)
    case None => None
    case Some(ms) => Contents(ms)
  }

  /** A `generationConfig` object holding exactly the supplied sampling options. */
  ghost predicate IsGenerationConfig(c: Json, maxTokens: Option<Json>, seed: Option<Json>, topP: Option<Json>,
                                     temperature: Option<Json>)
  {
    && c.JObj?
    && c.fields.Keys <= CONFIG_KEYS
    && Carries(c.fields, "maxOutputTokens", maxTokens) && Carries(c.fields, "seed", seed)
    && Carries(c.fields, "topP", topP) && Carries(c.fields, "temperature", temperature)
  }

  /** The `generationConfig` object inside a body under construction, empty while there is none. */
  function Config(fields: map<string, Json>): (c: map<string, Json>)
    ensures GENERATION_CONFIG !in fields ==> c == map[]
  {
    if GENERATION_CONFIG in fields && fields[GENERATION_CONFIG].JObj? then fields[GENERATION_CONFIG].fields
    else map[]
  }

  /** The body holds no `generationConfig`, or holds one that is an object. */
  predicate ConfigIsObject(fields: map<string, Json>)
  {
    GENERATION_CONFIG in fields ==> fields[GENERATION_CONFIG].JObj?
  }

  /**
   * `json_data.setdefault("generationConfig", {})` then
   * `json_data["generationConfig"][name] = value`: the other fields stay, the
   * config gains `name`.
   */
  function SetConfig(fields: map<string, Json>, name: string, value: Json): (r: map<string, Json>)
    requires ConfigIsObject(fields)
    ensures r.Keys == fields.Keys + {GENERATION_CONFIG} && ConfigIsObject(r)
    ensures forall k :: k in fields && k != GENERATION_CONFIG ==> r[k] == fields[k]
    ensures Config(r) == Config(fields)[name := value]
  {
    var withConfig := SetDefaultObject(fields, GENERATION_CONFIG);
    withConfig[GENERATION_CONFIG := JObj(withConfig[GENERATION_CONFIG].fields[name := value])]
  }

  /**
   * gemini.py:48-62 and vertex.py:83-93: the four conditional assignments
   * into `generationConfig`, starting with none or an empty one. Afterwards
   * the config exists exactly when it existed before or an option was
   * supplied, and then holds exactly the supplied options.
   */
  method FillConfig(fields: map<string, Json>, maxTokens: Option<Json>, seed: Option<Json>, topP: Option<Json>,
                    temperature: Option<Json>)
    returns (r: map<string, Json>)
    requires GENERATION_CONFIG in fields ==> fields[GENERATION_CONFIG] == JObj(map[])
    ensures forall k :: k in fields && k != GENERATION_CONFIG ==> k in r && r[k] == fields[k]
    ensures r.Keys <= fields.Keys + {GENERATION_CONFIG}
    ensures GENERATION_CONFIG in fields ==> r.Keys == fields.Keys
    ensures GENERATION_CONFIG in r <==>
      GENERATION_CONFIG in fields || maxTokens.Some? || seed.Some? || topP.Some? || temperature.Some?
    ensures GENERATION_CONFIG in r ==> IsGenerationConfig(r[GENERATION_CONFIG], maxTokens, seed, topP, temperature)
  {
    r := fields;
    ghost var config: map<string, Json> := map[];
    if maxTokens.Some? {
      r := SetConfig(r, "maxOutputTokens", maxTokens.value);
    }
    config := Stored(config, "maxOutputTokens", maxTokens);
    if seed.Some? {
      r := SetConfig(r, "seed", seed.value);
    }
    config := Stored(config, "seed", seed);
    if topP.Some? {
      r := SetConfig(r, "topP", topP.value);
    }
    config := Stored(config, "topP", topP);
    if temperature.Some? {
      r := SetConfig(r, "temperature", temperature.value);
    }
    config := Stored(config, "temperature", temperature);
    ConfigCarries(config, maxTokens, seed, topP, temperature);
    assert Config(r) == config;
  }

  /** The options stored one after another under their four distinct keys are each carried. */
  lemma ConfigCarries(config: map<string, Json>, maxTokens: Option<Json>, seed: Option<Json>, topP: Option<Json>,
                      temperature: Option<Json>)
    requires config == Stored(Stored(Stored(Stored(map[], "maxOutputTokens", maxTokens), "seed", seed),
                                     "topP", topP), "temperature", temperature)
    ensures IsGenerationConfig(JObj(config), maxTokens, seed, topP, temperature)
  {
  }

  /** The config is determined by the options: two configs meeting the description are equal. */
  lemma ConfigIsDetermined(c1: Json, c2: Json, maxTokens: Option<Json>, seed: Option<Json>, topP: Option<Json>,
                           temperature: Option<Json>)
    requires IsGenerationConfig(c1, maxTokens, seed, topP, temperature)
    requires IsGenerationConfig(c2, maxTokens, seed, topP, temperature)
    ensures c1 == c2
  {
    assert c1.fields == c2.fields;
  }
}
