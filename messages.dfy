/**
 * Chat message lists as the adapters receive them: a decoded JSON value,
 * normally a list of entries, each an object with "role" and "content". The helpers
 * here are the comprehensions the adapters share (system-text join,
 * non-system filter, Gemini "parts" wrapping) and util.py's
 * `add_system_message`. Where Python would raise (a missing key, a
 * non-string content in the join) the result is None.
 */
module Messages {
  import opened Wrappers
  import opened Json
  import opened Strings

  /**
   * The entries `for entry in messages` visits, as far as the comprehensions
   * over them can read them: a list's items, and nothing for an empty string
   * or an empty object. None where the first comprehension raises: iterating
   * null, a bool or a number raises TypeError, and iterating a non-empty
   * string or object visits strings (characters, keys), on which
   * `entry["role"]` raises TypeError.
   */
  function Entries(messages: Json): (r: Option<seq<Json>>)
    ensures messages.JArr? ==> r == Some(messages.items)
    ensures messages.JStr? ==> (r.Some? <==> messages.s == [])
    ensures messages.JObj? ==> (r.Some? <==> messages.fields == map[])
    ensures r.Some? && !messages.JArr? ==> r.value == []
    ensures messages.JNull? || messages.JBool? || messages.JInt? || messages.JNum? ==> r.None?
  {
    match messages
    case JArr(items) => Some(items)
    case JStr(s) => if s == [] then Some([]) else None
    case JObj(fields) => if fields == map[] then Some([]) else None
    case _ => None
  }

  /** `entry[key]` on one message. */
  function Field(entry: Json, key: string): (r: Option<Json>)
    ensures r.Some? <==> entry.JObj? && key in entry.fields
    ensures r.Some? ==> r.value == entry.fields[key]
  {
    Subscript(entry, Key(key))
  }

  /** `entry["role"] == "system"`. */
  predicate IsSystem(entry: Json)
  {
    Field(entry, "role") == Some(JStr("system"))
  }

  /** `{"role": "system", "content": text}`. */
  function SystemMessage(text: string): (m: Json)
    ensures IsSystem(m) && Field(m, "content") == Some(JStr(text))
  {
    JObj(map["role" := JStr("system"), "content" := JStr(text)])
  }

  /**
   * `[entry["content"] for entry in messages if entry["role"] == "system"]`,
   * with every content a string as `" ".join` needs: None when an entry has
   * no role, or a system entry has no content or a non-string one.
   */
  function SystemParts(ms: seq<Json>): (r: Option<seq<string>>)
    ensures r.Some? ==> |r.value| <= |ms|
    ensures r.Some? ==> forall i :: 0 <= i < |ms| ==> Field(ms[i], "role").Some?
  {
    if ms == [] then Some([])
    else
      var rest := SystemParts(ms[1..]);
      if Field(ms[0], "role").None? || rest.None? then None
      else if !IsSystem(ms[0]) then rest
      else match Field(ms[0], "content")
        case Some(JStr(text)) => Some([text] + rest.value)
        case _ => None
  }

  /** The system contents of a concatenation are those of each half, in order. */
  lemma {:induction false} SystemPartsAppend(a: seq<Json>, b: seq<Json>)
    ensures SystemParts(a + b) ==
      if SystemParts(a).Some? && SystemParts(b).Some? then Some(SystemParts(a).value + SystemParts(b).value)
      else None
    decreases |a|
  {
    if a == [] {
      assert a + b == b;
      if SystemParts(b).Some? {
        assert [] + SystemParts(b).value == SystemParts(b).value;
      }
    } else {
      assert (a + b)[0] == a[0];
      assert (a + b)[1..] == a[1..] + b;
      SystemPartsAppend(a[1..], b);
      if SystemParts(a).Some? && SystemParts(b).Some? && IsSystem(a[0]) {
        var text := Field(a[0], "content").value.s;
        assert SystemParts(a).value == [text] + SystemParts(a[1..]).value;
        assert [text] + (SystemParts(a[1..]).value + SystemParts(b).value)
            == ([text] + SystemParts(a[1..]).value) + SystemParts(b).value;
      }
    }
  }

  /** The system text: the system contents joined with one space, in their original order. */
  function SystemText(ms: seq<Json>): (r: Option<string>)
    ensures r.Some? <==> SystemParts(ms).Some?
  {
    match SystemParts(ms)
    case None => None
    case Some(parts) => Some(Join(parts, " "))
  }

  /** `[entry for entry in messages if entry["role"] != "system"]`. */
  function NonSystem(ms: seq<Json>): (r: seq<Json>)
    ensures |r| <= |ms|
    ensures forall i :: 0 <= i < |r| ==> !IsSystem(r[i]) && r[i] in ms
  {
    if ms == [] then []
    else if IsSystem(ms[0]) then NonSystem(ms[1..])
    else [ms[0]] + NonSystem(ms[1..])
  }

  /** The filter keeps the relative order: filtering a concatenation filters each half. */
  lemma {:induction false} NonSystemAppend(a: seq<Json>, b: seq<Json>)
    ensures NonSystem(a + b) == NonSystem(a) + NonSystem(b)
    decreases |a|
  {
    if a == [] {
      assert a + b == b;
    } else {
      assert (a + b)[0] == a[0];
      assert (a + b)[1..] == a[1..] + b;
      NonSystemAppend(a[1..], b);
    }
  }

  /** A conversation without system entries passes through the filter unchanged. */
  lemma {:induction false} NonSystemWithoutSystem(ms: seq<Json>)
    requires forall i :: 0 <= i < |ms| ==> !IsSystem(ms[i])
    ensures NonSystem(ms) == ms
    decreases |ms|
  {
    if ms != [] {
      NonSystemWithoutSystem(ms[1..]);
    }
  }

  /** A conversation of system entries only filters to nothing. */
  lemma {:induction false} NonSystemOfSystemOnly(ms: seq<Json>)
    requires forall i :: 0 <= i < |ms| ==> IsSystem(ms[i])
    ensures NonSystem(ms) == []
    decreases |ms|
  {
    if ms != [] {
      NonSystemOfSystemOnly(ms[1..]);
    }
  }

  /** `{"role": role, "parts": [{"text": content}]}`, the Gemini shape of one message. */
  function WrapParts(role: Json, content: Json): (m: Json)
    ensures Lookup(m, [Key("role")]) == Some(role)
    ensures Lookup(m, [Key("parts"), Index(0), Key("text")]) == Some(content)
  {
    var m := JObj(map["role" := role, "parts" := JArr([JObj(map["text" := content])])]);
    assert Lookup(m, [Key("parts"), Index(0), Key("text")]) == Some(content) by {
      LookupAppend(m, [Key("parts")], [Index(0), Key("text")]);
      LookupAppend(JArr([JObj(map["text" := content])]), [Index(0)], [Key("text")]);
    }
    m
  }

  /**
   * `[{"role": entry["role"], "parts": [{"text": entry["content"]}]} for entry in ms]`:
   * None when an entry lacks either key. Role and content can be read back
   * from each wrapped entry, so the reshaping loses nothing.
   */
  function Parts(ms: seq<Json>): (r: Option<seq<Json>>)
    ensures r.Some? <==> forall i :: 0 <= i < |ms| ==> Field(ms[i], "role").Some? && Field(ms[i], "content").Some?
    ensures r.Some? ==> |r.value| == |ms|
    ensures r.Some? ==> forall i :: 0 <= i < |ms| ==>
      Lookup(r.value[i], [Key("role")]) == Field(ms[i], "role") &&
      Lookup(r.value[i], [Key("parts"), Index(0), Key("text")]) == Field(ms[i], "content")
  {
    if ms == [] then Some([])
    else
      var rest := Parts(ms[1..]);
      match (Field(ms[0], "role"), Field(ms[0], "content"))
      case (Some(role), Some(content)) =>
        if rest.None? then None else Some([WrapParts(role, content)] + rest.value)
      case _ => None
  }

  /** The list after `add_system_message(data, text)`: the system message first, then `data` in order. */
  function WithSystemMessage(ms: seq<Json>, text: string): (r: seq<Json>)
    ensures |r| == |ms| + 1 && r[0] == SystemMessage(text) && r[1..] == ms
  {
    [SystemMessage(text)] + ms
  }

  /** Adding a system message leaves the non-system conversation as it was. */
  lemma AddedSystemIsFiltered(ms: seq<Json>, text: string)
    ensures NonSystem(WithSystemMessage(ms, text)) == NonSystem(ms)
  {
    NonSystemAppend([SystemMessage(text)], ms);
  }

  /** Adding a system message puts its text first in the system text, one space before the rest. */
  lemma AddedSystemLeadsText(ms: seq<Json>, text: string)
    requires SystemText(ms).Some?
    ensures SystemText(WithSystemMessage(ms, text)) ==
      Some(if SystemParts(ms).value == [] then text else text + " " + SystemText(ms).value)
  {
    var r := WithSystemMessage(ms, text);
    assert r[1..] == ms;
    assert SystemParts(r) == Some([text] + SystemParts(ms).value);
    if SystemParts(ms).value != [] {
      JoinCons(text, SystemParts(ms).value, " ");
    }
  }

  /** util.py's message list, mutated in place by `add_system_message`. */
  class MessageList {
    var items: seq<Json>

    constructor (items: seq<Json>)
      ensures this.items == items
    {
      this.items := items;
    }

    /** `data.insert(0, {"role": "system", "content": text})`. */
    method AddSystemMessage(text: string)
      modifies this
      ensures items == WithSystemMessage(old(items), text)
    {
      items := [SystemMessage(text)] + items;
    }
  }
}
