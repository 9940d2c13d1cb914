/**
 * golem.py's `main` after argparse, as a plan: the value lists of the three
 * swept options, and the calls of `run` the nested loops make, in order,
 * up to the first failure. Which calls of `run` are made does not depend
 * on what earlier calls returned, so the plan can be stated apart from the
 * requests themselves.
 */
module Sweep {
  import opened Wrappers
  import opened Json
  import opened Util
  import opened Messages
  import opened Golem

  /** The values swept: `args.temperature`, `args.repeat` and `args.top_p` after parsing. */
  datatype Axes = Axes(temperatures: seq<Option<Value>>, repeats: seq<Option<Value>>, tops: seq<Option<Value>>)

  /** What `parse_list(s)` returns. */
  ghost predicate Listed(s: string, r: Result<seq<Value>, Failure>)
  {
    && (':' in s ==> RangeParsed(s, r))
    && (':' !in s ==> ParsedElements(s, ',', r))
  }

  /** Every parsed value as a present one; a parse failure as it is. */
  function Present(r: Result<seq<Value>, Failure>): (o: Result<seq<Option<Value>>, Failure>)
    ensures o.Ok? <==> r.Ok?
    ensures o.Err? ==> o.error == r.error
    ensures o.Ok? ==> |o.value| == |r.value| && forall i :: 0 <= i < |o.value| ==> o.value[i] == Some(r.value[i])
  {
    match r
    case Err(e) => Err(e)
    case Ok(vs) => Ok(seq(|vs|, i requires 0 <= i < |vs| => Some(vs[i])))
  }

  /** One option's values: `[default]` when it was not given, else its text parsed as a list. */
  ghost predicate AxisParsed(given: Option<string>, default: Option<Value>, r: Result<seq<Option<Value>>, Failure>)
  {
    && (given.None? ==> r == Ok([default]))
    && (given.Some? ==> exists l :: Listed(given.value, l) && r == Present(l))
  }

  /**
   * golem.py:351-364: temperature, then repeat, then top_p, the first parse
   * failure ending the run; repeat defaults to the single label 0, the other
   * two to a single absent value.
   */
  ghost predicate AxesParsed(args: Args, r: Result<Axes, Failure>)
  {
    exists temperatures, repeats, tops ::
      && AxisParsed(args.temperature, None, temperatures)
      && (temperatures.Ok? ==> AxisParsed(args.repeat, Some(Int(0)), repeats))
      && (temperatures.Ok? && repeats.Ok? ==> AxisParsed(args.topP, None, tops))
      && r == Combined(temperatures, repeats, tops)
  }

  /** The first failure among the three parses, else the three lists. */
  function Combined(temperatures: Result<seq<Option<Value>>, Failure>, repeats: Result<seq<Option<Value>>, Failure>,
                    tops: Result<seq<Option<Value>>, Failure>): (r: Result<Axes, Failure>)
    ensures r.Ok? <==> temperatures.Ok? && repeats.Ok? && tops.Ok?
    ensures r.Ok? ==> r.value == Axes(temperatures.value, repeats.value, tops.value)
  {
    if temperatures.Err? then Err(temperatures.error)
    else if repeats.Err? then Err(repeats.error)
    else if tops.Err? then Err(tops.error)
    else Ok(Axes(temperatures.value, repeats.value, tops.value))
  }

  /** One option: `[default]` when absent, else `parse_list` of its text. */
  method ParseAxis(given: Option<string>, default: Option<Value>) returns (r: Result<seq<Option<Value>>, Failure>)
    ensures AxisParsed(given, default, r)
  {
    if given.None? {
      return Ok([default]);
    }
    var l := ParseList(given.value);
    r := Present(l);
  }

  /** golem.py:351-364, the three options parsed in order. */
  method ParseAxes(args: Args) returns (r: Result<Axes, Failure>)
    ensures AxesParsed(args, r)
    ensures r.Ok? && args.repeat.None? ==> r.value.repeats == [Some(Int(0))]
    ensures r.Ok? && args.temperature.None? ==> r.value.temperatures == [None]
    ensures r.Ok? && args.topP.None? ==> r.value.tops == [None]
  {
    var temperatures := ParseAxis(args.temperature, None);
    var repeats: Result<seq<Option<Value>>, Failure> := Ok([]);
    var tops: Result<seq<Option<Value>>, Failure> := Ok([]);
    if temperatures.Ok? {
      repeats := ParseAxis(args.repeat, Some(Int(0)));
      if repeats.Ok? {
        tops := ParseAxis(args.topP, None);
      }
    }
    r := Combined(temperatures, repeats, tops);
  }

  /** One call of `run(identifier, args, repeat, temperature, top_p, messages)`. */
  datatype Job = Job(id: Json, repeat: Option<Value>, temperature: Option<Value>, topP: Option<Value>,
                     messages: Json)

  /**
   * The loops' progress: the calls made so far, the failure that ended the
   * run (if any) and the current `args.skip`.
   */
  datatype Progress = Progress(jobs: seq<Job>, stop: Option<Failure>, skip: int)

  /** The system prompt added to every conversation: the file's text, when it is not empty. */
  function SystemPrompt(args: Args): (r: Option<string>)
    ensures r.Some? <==> args.systemPrompt.Some? && args.systemPrompt.value != ""
  {
    if args.systemPrompt.Some? && args.systemPrompt.value != "" then args.systemPrompt else None
  }

  /**
   * The conversation with the system prompt put first, when there is one.
   * `add_system_message` inserts into a list; any other decoded value has
   * no `insert`, so with a system prompt it is None. Without one the value
   * is passed on as it is, whatever it is.
   */
  function Prepared(args: Args, ms: Json): (r: Option<Json>)
    ensures SystemPrompt(args).None? ==> r == Some(ms)
    ensures SystemPrompt(args).Some? ==> (r.Some? <==> ms.JArr?)
    ensures SystemPrompt(args).Some? && ms.JArr? ==> r == Some(JArr(WithSystemMessage(ms.items, SystemPrompt(args).value)))
  {
    if SystemPrompt(args).None? then Some(ms)
    else if ms.JArr? then Some(JArr(WithSystemMessage(ms.items, SystemPrompt(args).value)))
    else None
  }

  /** The prompt argument is given and not empty: immediate mode. */
  predicate Prompted(args: Args)
  {
    args.prompt.Some? && args.prompt.value != ""
  }

  /** `{"role": "user", "content": prompt}`. */
  function UserMessage(prompt: string): Json
  {
    JObj(map["role" := JStr("user"), "content" := JStr(prompt)])
  }

  /** golem.py:394-398: the one-message conversation of immediate mode, a list in every case. */
  function Immediate(args: Args): (ms: Json)
    requires Prompted(args)
    ensures ms.JArr?
    ensures SystemPrompt(args).None? ==> ms.items == [UserMessage(args.prompt.value)]
    ensures SystemPrompt(args).Some? ==>
      ms.items == WithSystemMessage([UserMessage(args.prompt.value)], SystemPrompt(args).value)
    ensures NonSystem(ms.items) == [UserMessage(args.prompt.value)]
  {
    var user := UserMessage(args.prompt.value);
    assert Prepared(args, JArr([user])).Some?;
    assert NonSystem(Prepared(args, JArr([user])).value.items) == [user] by {
      assert !IsSystem(user);
      assert [user][1..] == [];
      if SystemPrompt(args).Some? {
        AddedSystemIsFiltered([user], SystemPrompt(args).value);
      }
    }
    Prepared(args, JArr([user])).value
  }

  /**
   * golem.py:413-419: the identifier and the conversation of a decoded line,
   * None where the line is not an object with "id" and "messages", or where
   * a system prompt is to be inserted into "messages" that are not a list.
   * Any other "messages" value is passed on to the provider as it is.
   */
  function Decoded(args: Args, data: Json): (r: Option<(Json, Json)>)
    ensures r.Some? <==> Field(data, "id").Some? && Field(data, "messages").Some? &&
                         (SystemPrompt(args).Some? ==> Field(data, "messages").value.JArr?)
    ensures r.Some? ==> r.value.0 == data.fields["id"] && Some(r.value.1) == Prepared(args, data.fields["messages"])
  {
    if data.JObj? && "id" in data.fields && "messages" in data.fields then
      match Prepared(args, data.fields["messages"])
      case Some(ms) => Some((data.fields["id"], ms))
      case None => None
    else None
  }

  /**
   * golem.py:406-427, one line of the messages file, the `nline`-th decoded:
   * an undecodable line ends the run even when it is to be skipped; a line
   * numbered up to `args.skip` is passed over; any other makes one call.
   */
  function Line(args: Args, p: Progress, nline: int, line: Option<Json>, repeat: Option<Value>,
                topP: Option<Value>, temperature: Option<Value>): Progress
  {
    if p.stop.Some? then p
    else if line.None? then p.(stop := Some(BadRecord))
    else if nline <= p.skip then p
    else match Decoded(args, line.value)
      case None => p.(stop := Some(BadRecord))
      case Some((id, ms)) => p.(jobs := p.jobs + [Job(id, repeat, temperature, topP, ms)])
  }

  /** The lines from the one after the `done`-th on. */
  function Lines(args: Args, p: Progress, lines: seq<Option<Json>>, done: int, repeat: Option<Value>,
                 topP: Option<Value>, temperature: Option<Value>): Progress
    decreases |lines|
  {
    if lines == [] then p
    else Lines(args, Line(args, p, done + 1, lines[0], repeat, topP, temperature), lines[1..], done + 1, repeat, topP,
               temperature)
  }

  /**
   * golem.py:394-437, the body of the innermost loop for one combination:
   * immediate mode makes one call with identifier 1; batch mode reads the
   * whole file, then sets `args.skip` to 0; with neither the run ends.
   */
  function Pass(args: Args, p: Progress, repeat: Option<Value>, topP: Option<Value>, temperature: Option<Value>)
    : Progress
  {
    if p.stop.Some? then p
    else if Prompted(args) then p.(jobs := p.jobs + [Job(JInt(1), repeat, temperature, topP, Immediate(args))])
    else if args.lines.Some? then
      var q := Lines(args, p, args.lines.value, 0, repeat, topP, temperature);
      if q.stop.Some? then q else q.(skip := 0)
    else p.(stop := Some(NoPrompt))
  }

  /** golem.py:386-437, the temperature loop from the given value on. */
  function Temperatures(args: Args, p: Progress, repeat: Option<Value>, topP: Option<Value>,
                        temperatures: seq<Option<Value>>): Progress
    decreases |temperatures|
  {
    if temperatures == [] then p
    else Temperatures(args, Pass(args, p, repeat, topP, temperatures[0]), repeat, topP, temperatures[1..])
  }

  /** golem.py:378-437, the top_p loop from the given value on. */
  function Tops(args: Args, p: Progress, repeat: Option<Value>, tops: seq<Option<Value>>,
                temperatures: seq<Option<Value>>): Progress
    decreases |tops|
  {
    if tops == [] then p
    else Tops(args, Temperatures(args, p, repeat, tops[0], temperatures), repeat, tops[1..], temperatures)
  }

  /** golem.py:370-437, the repeat loop from the given value on. */
  function Repeats(args: Args, p: Progress, repeats: seq<Option<Value>>, tops: seq<Option<Value>>,
                   temperatures: seq<Option<Value>>): Progress
    decreases |repeats|
  {
    if repeats == [] then p
    else Repeats(args, Tops(args, p, repeats[0], tops, temperatures), repeats[1..], tops, temperatures)
  }

  /** The whole sweep, from no calls and the given `--skip`. */
  function Plan(args: Args, axes: Axes): Progress
  {
    Repeats(args, Progress([], None, args.skip), axes.repeats, axes.tops, axes.temperatures)
  }

  /** `q` continues `p`: it made the same calls first, and a run `p` ended stays ended. */
  predicate Later(p: Progress, q: Progress)
  {
    p.jobs <= q.jobs && (p.stop.Some? ==> q == p)
  }

  lemma LaterTransitive(p: Progress, q: Progress, s: Progress)
    requires Later(p, q) && Later(q, s)
    ensures Later(p, s)
  {
  }

  /** Reading lines only adds calls, and nothing happens after a failure. */
  lemma {:induction false} LinesLater(args: Args, p: Progress, lines: seq<Option<Json>>, done: int,
                                      repeat: Option<Value>, topP: Option<Value>, temperature: Option<Value>)
    ensures Later(p, Lines(args, p, lines, done, repeat, topP, temperature))
    decreases |lines|
  {
    if lines != [] {
      var q := Line(args, p, done + 1, lines[0], repeat, topP, temperature);
      LinesLater(args, q, lines[1..], done + 1, repeat, topP, temperature);
      LaterTransitive(p, q, Lines(args, q, lines[1..], done + 1, repeat, topP, temperature));
    }
  }

  lemma PassLater(args: Args, p: Progress, repeat: Option<Value>, topP: Option<Value>, temperature: Option<Value>)
    ensures Later(p, Pass(args, p, repeat, topP, temperature))
  {
    if p.stop.None? && !Prompted(args) && args.lines.Some? {
      LinesLater(args, p, args.lines.value, 0, repeat, topP, temperature);
    }
  }

  lemma {:induction false} TemperaturesLater(args: Args, p: Progress, repeat: Option<Value>, topP: Option<Value>,
                                             temperatures: seq<Option<Value>>)
    ensures Later(p, Temperatures(args, p, repeat, topP, temperatures))
    decreases |temperatures|
  {
    if temperatures != [] {
      var q := Pass(args, p, repeat, topP, temperatures[0]);
      PassLater(args, p, repeat, topP, temperatures[0]);
      TemperaturesLater(args, q, repeat, topP, temperatures[1..]);
      LaterTransitive(p, q, Temperatures(args, q, repeat, topP, temperatures[1..]));
    }
  }

  lemma {:induction false} TopsLater(args: Args, p: Progress, repeat: Option<Value>, tops: seq<Option<Value>>,
                                     temperatures: seq<Option<Value>>)
    ensures Later(p, Tops(args, p, repeat, tops, temperatures))
    decreases |tops|
  {
    if tops != [] {
      var q := Temperatures(args, p, repeat, tops[0], temperatures);
      TemperaturesLater(args, p, repeat, tops[0], temperatures);
      TopsLater(args, q, repeat, tops[1..], temperatures);
      LaterTransitive(p, q, Tops(args, q, repeat, tops[1..], temperatures));
    }
  }

  lemma {:induction false} RepeatsLater(args: Args, p: Progress, repeats: seq<Option<Value>>,
                                        tops: seq<Option<Value>>, temperatures: seq<Option<Value>>)
    ensures Later(p, Repeats(args, p, repeats, tops, temperatures))
    decreases |repeats|
  {
    if repeats != [] {
      var q := Tops(args, p, repeats[0], tops, temperatures);
      TopsLater(args, p, repeats[0], tops, temperatures);
      RepeatsLater(args, q, repeats[1..], tops, temperatures);
      LaterTransitive(p, q, Repeats(args, q, repeats[1..], tops, temperatures));
    }
  }
}
