/**
 * latencies.py: the intervals between consecutive records of an answers
 * file, and their grouping by model.
 *
 * Reading files, `json.loads` and `datetime.fromisoformat` are not modelled:
 * a file is its list of lines, `decode` stands for `json.loads`, and
 * `instant` for parsing a normalised timestamp into an integer count of a
 * fixed unit, such as microseconds (None where Python raises).
 */
module Latencies {
  import opened Wrappers
  import opened Json
  import opened Strings
  import opened Util

  /** latencies.py:14-18, the string part of `parse_timestamp`: strip, then a trailing "Z" becomes "+00:00". */
  function Normalize(ts: string): (r: string)
    ensures !EndsWith(r, "Z")
    ensures r == [] || (!IsSpace(r[0]) && !IsSpace(r[|r| - 1]))
    ensures EndsWith(Strip(ts), "Z") ==> r == Strip(ts)[..|Strip(ts)| - 1] + "+00:00"
    ensures !EndsWith(Strip(ts), "Z") ==> r == Strip(ts)
  {
    var s := Strip(ts);
    if EndsWith(s, "Z") then
      var head := s[..|s| - 1];
      assert head == [] || head[0] == s[0];
      head + "+00:00"
    else s
  }

  /** A normalised timestamp is left as it is: it has no surrounding blanks and no trailing "Z". */
  lemma NormalizeIdempotent(ts: string)
    ensures Normalize(Normalize(ts)) == Normalize(ts)
  {
    var r := Normalize(ts);
    assert Strip(r) == r;
  }

  /** What the loop over one file has gathered so far. */
  datatype Scan = Scan(model: Option<Json>, previous: Option<int>, intervals: seq<int>)

  /** `record.get(key)`, where a JSON null is Python's None as well. */
  function NonNull(o: Option<Json>): (r: Option<Json>)
    ensures r.Some? <==> o.Some? && o.value != JNull
  {
    if o == Some(JNull) then None else o
  }

  /**
   * latencies.py:28-32: a blank line is passed over (None), any other is
   * decoded; one that is not JSON, or whose value has no `get` (not an
   * object), raises.
   */
  function Parse(line: string, decode: string -> Option<Json>): (r: Result<Option<map<string, Json>>, Failure>)
    ensures r == Ok(None) <==> Strip(line) == []
    ensures r.Ok? && r.value.Some? ==> decode(Strip(line)) == Some(JObj(r.value.value))
  {
    var text := Strip(line);
    if text == [] then Ok(None)
    else match decode(text)
      case Some(JObj(fields)) => Ok(Some(fields))
      case _ => Err(BadAnswer)
  }

  /** The record a line holds, if it is one. */
  function Record(line: string, decode: string -> Option<Json>): Option<map<string, Json>>
  {
    if Parse(line, decode).Ok? then Parse(line, decode).value else None
  }

  /** The line's record names a model (not null). */
  function ModelIn(line: string, decode: string -> Option<Json>): Option<Json>
  {
    match Record(line, decode)
    case None => None
    case Some(fields) => NonNull(Get(fields, "model"))
  }

  /** The line's record has a truthy timestamp. */
  predicate Stamps(line: string, decode: string -> Option<Json>)
  {
    Record(line, decode).Some? && Present(Get(Record(line, decode).value, "timestamp"))
  }

  /**
   * latencies.py:37-41: the instant of a record's truthy timestamp, None
   * when it has none; a timestamp that is not a string, or that Python
   * cannot parse, raises.
   */
  function Timestamp(fields: map<string, Json>, instant: string -> Option<int>): (r: Result<Option<int>, Failure>)
    ensures r == Ok(None) <==> !Present(Get(fields, "timestamp"))
  {
    var stamp := Get(fields, "timestamp");
    if !Present(stamp) then Ok(None)
    else if !stamp.value.JStr? then Err(BadAnswer)
    else match instant(Normalize(stamp.value.s))
      case None => Err(BadAnswer)
      case Some(current) => Ok(Some(current))
  }

  /** The instant of a timestamped line. */
  function InstantOf(line: string, decode: string -> Option<Json>, instant: string -> Option<int>): Option<int>
  {
    if Record(line, decode).Some? && Timestamp(Record(line, decode).value, instant).Ok? then
      Timestamp(Record(line, decode).value, instant).value
    else None
  }

  /**
   * latencies.py:34-48, one record: the model is set once, a record without
   * timestamp changes nothing else, and a strictly positive delta from the
   * previous timestamp is recorded.
   */
  function Update(s: Scan, fields: map<string, Json>, instant: string -> Option<int>): Result<Scan, Failure>
  {
    var named := s.(model := if s.model.None? then NonNull(Get(fields, "model")) else s.model);
    var current :- Timestamp(fields, instant);
    if current.None? then Ok(named) else Ok(Advance(named, current.value))
  }

  /** latencies.py:27-48, one line: a blank one is skipped, any other is read as a record. */
  function Step(s: Scan, line: string, decode: string -> Option<Json>, instant: string -> Option<int>)
    : Result<Scan, Failure>
  {
    var parsed :- Parse(line, decode);
    if parsed.None? then Ok(s) else Update(s, parsed.value, instant)
  }

  /** The intervals after the timestamp `current`: the delta from `previous` added when it is strictly positive. */
  function Grown(intervals: seq<int>, previous: Option<int>, current: int): (r: seq<int>)
    ensures previous.Some? && current > previous.value ==> r == intervals + [current - previous.value]
    ensures !(previous.Some? && current > previous.value) ==> r == intervals
  {
    if previous.Some? && current > previous.value then intervals + [current - previous.value] else intervals
  }

  /** latencies.py:43-48: a new timestamp; the delta is kept only when strictly positive. */
  function Advance(s: Scan, current: int): (r: Scan)
    ensures r.model == s.model && r.previous == Some(current)
    ensures r.intervals == Grown(s.intervals, s.previous, current)
  {
    var delta := if s.previous.Some? then current - s.previous.value else 0;
    Scan(s.model, Some(current), s.intervals + if delta > 0 then [delta] else [])
  }

  /** Every interval is strictly positive. */
  predicate Positive(intervals: seq<int>)
  {
    forall i :: 0 <= i < |intervals| ==> intervals[i] > 0
  }

  lemma PositiveAppend(intervals: seq<int>, delta: int)
    requires Positive(intervals) && delta > 0
    ensures Positive(intervals + [delta])
  {
  }

  /**
   * What one record changes: the model only while there is none, the
   * previous timestamp and the intervals only when it has a timestamp.
   */
  lemma UpdateChanges(s: Scan, fields: map<string, Json>, instant: string -> Option<int>)
    requires Update(s, fields, instant).Ok?
    ensures var r := Update(s, fields, instant).value;
      && r.model == (if s.model.Some? then s.model else NonNull(Get(fields, "model")))
      && (!Present(Get(fields, "timestamp")) ==> r.previous == s.previous && r.intervals == s.intervals)
      && (Present(Get(fields, "timestamp")) ==>
          && r.previous == Timestamp(fields, instant).value && r.previous.Some?
          && r.intervals == Grown(s.intervals, s.previous, r.previous.value))
  {
    var current := Timestamp(fields, instant).value;
    if current.Some? {
      var named := s.(model := if s.model.None? then NonNull(Get(fields, "model")) else s.model);
      assert Update(s, fields, instant) == Ok(Advance(named, current.value));
    }
  }

  /**
   * What one line changes: the model only while there is none, the previous
   * timestamp and the intervals only on a timestamped record.
   */
  lemma StepChanges(s: Scan, line: string, decode: string -> Option<Json>, instant: string -> Option<int>)
    requires Step(s, line, decode, instant).Ok?
    ensures var r := Step(s, line, decode, instant).value;
      && r.model == (if s.model.Some? then s.model else ModelIn(line, decode))
      && (!Stamps(line, decode) ==> r.previous == s.previous && r.intervals == s.intervals)
      && (Stamps(line, decode) ==>
          && r.previous == InstantOf(line, decode, instant) && r.previous.Some?
          && r.intervals == Grown(s.intervals, s.previous, r.previous.value))
  {
    var parsed := Parse(line, decode).value;
    assert Record(line, decode) == parsed;
    if parsed.Some? {
      assert Step(s, line, decode, instant) == Update(s, parsed.value, instant);
      UpdateChanges(s, parsed.value, instant);
    }
  }

  /** One line adds only a strictly positive interval. */
  lemma StepPositive(s: Scan, line: string, decode: string -> Option<Json>, instant: string -> Option<int>)
    requires Step(s, line, decode, instant).Ok?
    requires Positive(s.intervals)
    ensures Positive(Step(s, line, decode, instant).value.intervals)
  {
    StepChanges(s, line, decode, instant);
    var r := Step(s, line, decode, instant).value;
    if Stamps(line, decode) && s.previous.Some? && r.previous.value > s.previous.value {
      PositiveAppend(s.intervals, r.previous.value - s.previous.value);
    }
  }

  /** The number of timestamped records among the lines. */
  function Stamped(lines: seq<string>, decode: string -> Option<Json>): nat
  {
    if lines == [] then 0
    else Stamped(lines[..|lines| - 1], decode) + if Stamps(lines[|lines| - 1], decode) then 1 else 0
  }

  /** The scan after the given lines, or the failure of the first line Python raises on. */
  function Scanned(lines: seq<string>, decode: string -> Option<Json>, instant: string -> Option<int>)
    : Result<Scan, Failure>
  {
    if lines == [] then Ok(Scan(None, None, []))
    else
      var s :- Scanned(lines[..|lines| - 1], decode, instant);
      Step(s, lines[|lines| - 1], decode, instant)
  }

  /** latencies.py:43-48: an interval is recorded only when it is strictly positive. */
  lemma {:induction false} ScannedPositive(lines: seq<string>, decode: string -> Option<Json>,
                                           instant: string -> Option<int>)
    requires Scanned(lines, decode, instant).Ok?
    ensures Positive(Scanned(lines, decode, instant).value.intervals)
    decreases |lines|
  {
    if lines != [] {
      var init, last := lines[..|lines| - 1], lines[|lines| - 1];
      var s := Scanned(init, decode, instant).value;
      assert Scanned(lines, decode, instant) == Step(s, last, decode, instant);
      ScannedPositive(init, decode, instant);
      StepPositive(s, last, decode, instant);
    }
  }

  /**
   * latencies.py:43-48: there is a previous timestamp exactly when some
   * record had one, and there is at most one fewer interval than
   * timestamped records.
   */
  lemma {:induction false} ScannedBounds(lines: seq<string>, decode: string -> Option<Json>,
                                         instant: string -> Option<int>)
    requires Scanned(lines, decode, instant).Ok?
    ensures var r := Scanned(lines, decode, instant).value;
      && (r.previous.None? <==> Stamped(lines, decode) == 0)
      && |r.intervals| + (if r.previous.Some? then 1 else 0) <= Stamped(lines, decode)
    decreases |lines|
  {
    if lines != [] {
      var init, last := lines[..|lines| - 1], lines[|lines| - 1];
      var s := Scanned(init, decode, instant).value;
      assert Scanned(lines, decode, instant) == Step(s, last, decode, instant);
      assert Stamped(lines, decode) == Stamped(init, decode) + if Stamps(last, decode) then 1 else 0;
      ScannedBounds(init, decode, instant);
      StepChanges(s, last, decode, instant);
    }
  }

  /** latencies.py:34-35: with no record naming a model, the model stays None. */
  lemma {:induction false} NoModel(lines: seq<string>, decode: string -> Option<Json>, instant: string -> Option<int>)
    requires Scanned(lines, decode, instant).Ok?
    requires forall i :: 0 <= i < |lines| ==> ModelIn(lines[i], decode).None?
    ensures Scanned(lines, decode, instant).value.model.None?
    decreases |lines|
  {
    if lines != [] {
      var init := lines[..|lines| - 1];
      assert forall i :: 0 <= i < |init| ==> init[i] == lines[i];
      NoModel(init, decode, instant);
      StepChanges(Scanned(init, decode, instant).value, lines[|lines| - 1], decode, instant);
    }
  }

  /** latencies.py:34-35: the model is the first non-null one; later ones do not replace it. */
  lemma {:induction false} FirstModel(lines: seq<string>, decode: string -> Option<Json>,
                                      instant: string -> Option<int>, i: nat)
    requires Scanned(lines, decode, instant).Ok?
    requires i < |lines| && ModelIn(lines[i], decode).Some?
    requires forall j :: 0 <= j < i ==> ModelIn(lines[j], decode).None?
    ensures Scanned(lines, decode, instant).value.model == ModelIn(lines[i], decode)
    decreases |lines|
  {
    var init := lines[..|lines| - 1];
    forall j | 0 <= j < |init| && j < i
      ensures ModelIn(init[j], decode).None?
    {
      assert init[j] == lines[j];
    }
    var before := Scanned(init, decode, instant).value;
    assert Scanned(lines, decode, instant) == Step(before, lines[|lines| - 1], decode, instant);
    StepChanges(before, lines[|lines| - 1], decode, instant);
    if i < |init| {
      assert init[i] == lines[i];
      FirstModel(init, decode, instant, i);
    } else {
      NoModel(init, decode, instant);
      assert before.model.None?;
      assert i == |lines| - 1;
    }
  }

  /**
   * latencies.py:37-48: the previous timestamp is the one of the last
   * timestamped record, whether or not its delta was recorded; records
   * without timestamp do not reset it.
   */
  lemma {:induction false} LastInstant(lines: seq<string>, decode: string -> Option<Json>,
                                       instant: string -> Option<int>, i: nat)
    requires Scanned(lines, decode, instant).Ok?
    requires i < |lines| && Stamps(lines[i], decode)
    requires forall j :: i < j < |lines| ==> !Stamps(lines[j], decode)
    ensures Scanned(lines, decode, instant).value.previous == InstantOf(lines[i], decode, instant)
    decreases |lines|
  {
    var init := lines[..|lines| - 1];
    if i < |init| {
      forall j | i < j < |init|
        ensures !Stamps(init[j], decode)
      {
        assert init[j] == lines[j];
      }
      assert init[i] == lines[i];
      LastInstant(init, decode, instant, i);
    }
    StepChanges(Scanned(init, decode, instant).value, lines[|lines| - 1], decode, instant);
  }

  /** Python stops at the first line it raises on. */
  lemma {:induction false} ScannedStops(lines: seq<string>, decode: string -> Option<Json>,
                                        instant: string -> Option<int>, i: nat)
    requires i <= |lines| && Scanned(lines[..i], decode, instant).Err?
    ensures Scanned(lines, decode, instant) == Scanned(lines[..i], decode, instant)
    decreases |lines|
  {
    if i == |lines| {
      assert lines[..i] == lines;
    } else {
      var init := lines[..|lines| - 1];
      assert init[..i] == lines[..i];
      ScannedStops(init, decode, instant, i);
    }
  }

  /** latencies.py:28-32, the start of the loop's body: a blank line is skipped, any other decoded. */
  method ReadLine(s: Scan, raw: string, decode: string -> Option<Json>, instant: string -> Option<int>)
    returns (r: Result<Scan, Failure>)
    ensures r == Step(s, raw, decode, instant)
  {
    var line := Strip(raw);
    if line == [] {
      return Ok(s);
    }
    var record := decode(line);
    if record.None? || !record.value.JObj? {
      return Err(BadAnswer);
    }
    assert Parse(raw, decode) == Ok(Some(record.value.fields));
    r := ReadRecord(s, record.value.fields, instant);
  }

  /** latencies.py:34-48, the rest of the loop's body: one record read into the three variables. */
  method ReadRecord(s: Scan, fields: map<string, Json>, instant: string -> Option<int>)
    returns (r: Result<Scan, Failure>)
    ensures r == Update(s, fields, instant)
  {
    var modelName, previous, intervals := s.model, s.previous, s.intervals;
    if modelName.None? {
      modelName := NonNull(Get(fields, "model"));
    }
    var stamp := Get(fields, "timestamp");
    if !Present(stamp) {
      return Ok(Scan(modelName, previous, intervals));
    }
    if !stamp.value.JStr? {
      return Err(BadAnswer);
    }
    var current := instant(Normalize(stamp.value.s));
    if current.None? {
      return Err(BadAnswer);
    }
    assert Timestamp(fields, instant) == Ok(current);
    if previous.Some? {
      var delta := current.value - previous.value;
      if delta > 0 {
        intervals := intervals + [delta];
      }
    }
    assert intervals == Grown(s.intervals, s.previous, current.value);
    previous := current;
    r := Ok(Scan(modelName, previous, intervals));
  }

  /** latencies.py:21-50, `compute_intervals_for_file`: the model name and the positive intervals. */
  method ComputeIntervals(lines: seq<string>, decode: string -> Option<Json>, instant: string -> Option<int>)
    returns (r: Result<(Option<Json>, seq<int>), Failure>)
    ensures Scanned(lines, decode, instant).Err? ==> r == Err(Scanned(lines, decode, instant).error)
    ensures Scanned(lines, decode, instant).Ok? ==>
      r == Ok((Scanned(lines, decode, instant).value.model, Scanned(lines, decode, instant).value.intervals))
  {
    var modelName: Option<Json> := None;
    var previous: Option<int> := None;
    var intervals: seq<int> := [];
    for i := 0 to |lines|
      invariant Scanned(lines[..i], decode, instant) == Ok(Scan(modelName, previous, intervals))
    {
      assert lines[..i + 1][..i] == lines[..i];
      var next := ReadLine(Scan(modelName, previous, intervals), lines[i], decode, instant);
      if next.Err? {
        ScannedStops(lines, decode, instant, i + 1);
        return Err(next.error);
      }
      modelName, previous, intervals := next.value.model, next.value.previous, next.value.intervals;
    }
    assert lines[..|lines|] == lines;
    r := Ok((modelName, intervals));
  }

  /**
   * latencies.py:58: `if model_name:` — the key a file's intervals go under,
   * None for a file without a (truthy) model. A model name that is not a
   * string is refused.
   */
  function Key(model: Option<Json>): (r: Result<Option<string>, Failure>)
    ensures r.Ok? && r.value.Some? <==> model.Some? && model.value.JStr? && model.value.s != ""
    ensures r.Ok? && r.value.Some? ==> r.value.value == model.value.s
    ensures r.Err? <==> model.Some? && Truthy(model.value) && !model.value.JStr?
  {
    match model
    case None => Ok(None)
    case Some(name) =>
      if !Truthy(name) then Ok(None)
      else if name.JStr? then Ok(Some(name.s))
      else Err(BadAnswer)
  }

  /** The file is grouped under `m`. */
  predicate Under(file: (Option<Json>, seq<int>), m: string)
  {
    Key(file.0) == Ok(Some(m))
  }

  /** Some file is under `m`. */
  predicate Grouping(files: seq<(Option<Json>, seq<int>)>, m: string)
  {
    exists i :: 0 <= i < |files| && Under(files[i], m)
  }

  /** The intervals of the files under `m`, concatenated in file order. */
  function Joined(files: seq<(Option<Json>, seq<int>)>, m: string): seq<int>
  {
    if files == [] then []
    else
      var last := files[|files| - 1];
      Joined(files[..|files| - 1], m) + if Under(last, m) then last.1 else []
  }

  /**
   * latencies.py:54-59: `model_to_intervals[model_name].extend(intervals)`
   * over the files in order.
   */
  function Grouped(files: seq<(Option<Json>, seq<int>)>): (r: Result<map<string, seq<int>>, Failure>)
  {
    if files == [] then Ok(map[])
    else
      var last := files[|files| - 1];
      var g :- Grouped(files[..|files| - 1]);
      var key :- Key(last.0);
      match key
      case None => Ok(g)
      case Some(m) => Ok(g[m := (if m in g then g[m] else []) + last.1])
  }

  /** No file is under `m`: nothing is joined for it. */
  lemma {:induction false} JoinedNone(files: seq<(Option<Json>, seq<int>)>, m: string)
    requires forall i :: 0 <= i < |files| ==> !Under(files[i], m)
    ensures Joined(files, m) == []
    decreases |files|
  {
    if files != [] {
      var init := files[..|files| - 1];
      assert forall i :: 0 <= i < |init| ==> init[i] == files[i];
      JoinedNone(init, m);
    }
  }

  /**
   * latencies.py:54-59: a model appears exactly when some file is under it,
   * and holds the concatenation of those files' intervals in file order.
   */
  lemma {:induction false} GroupedJoins(files: seq<(Option<Json>, seq<int>)>)
    requires Grouped(files).Ok?
    ensures forall m :: m in Grouped(files).value <==> Grouping(files, m)
    ensures forall m :: m in Grouped(files).value ==> Grouped(files).value[m] == Joined(files, m)
    decreases |files|
  {
    if files != [] {
      var init, last := files[..|files| - 1], files[|files| - 1];
      assert Grouped(init).Ok? && Key(last.0).Ok?;
      var g, key := Grouped(init).value, Key(last.0).value;
      GroupedJoins(init);
      var h := Grouped(files).value;
      assert h == if key.None? then g else g[key.value := (if key.value in g then g[key.value] else []) + last.1];
      forall m
        ensures (m in h <==> Grouping(files, m)) && (m in h ==> h[m] == Joined(files, m))
      {
        assert Joined(files, m) == Joined(init, m) + if Under(last, m) then last.1 else [];
        assert Under(last, m) <==> key == Some(m);
        GroupingLast(files, m);
        if m !in g {
          JoinedNone(init, m);
        }
      }
    }
  }

  /** Some file is under `m` exactly when an earlier one is or the last one is. */
  lemma GroupingLast(files: seq<(Option<Json>, seq<int>)>, m: string)
    requires files != []
    ensures Grouping(files, m) <==> Grouping(files[..|files| - 1], m) || Under(files[|files| - 1], m)
  {
    var init := files[..|files| - 1];
    if Grouping(files, m) {
      var i :| 0 <= i < |files| && Under(files[i], m);
      if i < |init| {
        assert Under(init[i], m);
      }
    }
    if Grouping(init, m) {
      var i :| 0 <= i < |init| && Under(init[i], m);
      assert Under(files[i], m);
    }
  }

  /** The grouping fails exactly when some file's model cannot be a key. */
  lemma {:induction false} GroupedFails(files: seq<(Option<Json>, seq<int>)>)
    ensures Grouped(files).Err? <==> exists i :: 0 <= i < |files| && Key(files[i].0).Err?
    decreases |files|
  {
    if files != [] {
      var init := files[..|files| - 1];
      assert forall i :: 0 <= i < |init| ==> init[i] == files[i];
      GroupedFails(init);
    }
  }

  /** Python's `a < b` on strings: lexicographic by code point. */
  predicate Below(a: string, b: string)
  {
    if a == [] then b != []
    else if b == [] then false
    else a[0] < b[0] || (a[0] == b[0] && Below(a[1..], b[1..]))
  }

  lemma {:induction false} BelowIrreflexive(a: string)
    ensures !Below(a, a)
  {
    if a != [] {
      BelowIrreflexive(a[1..]);
    }
  }

  lemma {:induction false} BelowTransitive(a: string, b: string, c: string)
    requires Below(a, b) && Below(b, c)
    ensures Below(a, c)
  {
    if a != [] && b != [] && c != [] && a[0] == b[0] == c[0] {
      BelowTransitive(a[1..], b[1..], c[1..]);
    }
  }

  lemma {:induction false} BelowTotal(a: string, b: string)
    ensures a == b || Below(a, b) || Below(b, a)
  {
    if a != [] && b != [] && a[0] == b[0] {
      BelowTotal(a[1..], b[1..]);
      assert a == [a[0]] + a[1..] && b == [b[0]] + b[1..];
    }
  }

  /** Strictly ascending, hence without repeats. */
  predicate Ascending(s: seq<string>)
  {
    forall i, j :: 0 <= i < j < |s| ==> Below(s[i], s[j])
  }

  /** `x` put in its place in an ascending list. */
  function Insert(x: string, s: seq<string>): (r: seq<string>)
    requires Ascending(s)
    ensures Ascending(r)
    ensures forall y :: y in r <==> y == x || y in s
  {
    if s == [] then [x]
    else if Below(x, s[0]) then
      assert forall j :: 0 < j < |s| ==> Below(x, s[j]) by {
        forall j | 0 < j < |s|
          ensures Below(x, s[j])
        {
          BelowTransitive(x, s[0], s[j]);
        }
      }
      [x] + s
    else if x == s[0] then s
    else
      BelowTotal(x, s[0]);
      var rest := Insert(x, s[1..]);
      assert forall y :: y in rest ==> Below(s[0], y) by {
        forall y | y in rest
          ensures Below(s[0], y)
        {
          if y != x {
            var j :| 0 <= j < |s[1..]| && s[1..][j] == y;
            assert s[j + 1] == y;
          }
        }
      }
      [s[0]] + rest
  }

  /** `sorted(keys)`. */
  function Sort(keys: seq<string>): (r: seq<string>)
    ensures Ascending(r)
    ensures forall y :: y in r <==> y in keys
  {
    if keys == [] then [] else Insert(keys[|keys| - 1], Sort(keys[..|keys| - 1]))
  }

  /** One output line: the model and its sample count; the intervals the median is taken over. */
  datatype Row = Row(model: string, samples: nat, intervals: seq<int>)

  /** Python stops at the first file whose model cannot be a key. */
  lemma {:induction false} GroupedStops(files: seq<(Option<Json>, seq<int>)>, i: nat)
    requires i <= |files| && Grouped(files[..i]).Err?
    ensures Grouped(files) == Grouped(files[..i])
    decreases |files|
  {
    if i == |files| {
      assert files[..i] == files;
    } else {
      var init := files[..|files| - 1];
      assert init[..i] == files[..i];
      GroupedStops(init, i);
    }
  }

  /**
   * latencies.py:54-59, the loop filling the `defaultdict`; `order` lists
   * its keys as they were created.
   */
  method Group(files: seq<(Option<Json>, seq<int>)>) returns (r: Result<map<string, seq<int>>, Failure>,
                                                              order: seq<string>)
    ensures r == Grouped(files)
    ensures r.Ok? ==> forall m :: m in r.value <==> m in order
  {
    var groups: map<string, seq<int>> := map[];
    order := [];
    for i := 0 to |files|
      invariant Grouped(files[..i]) == Ok(groups)
      invariant forall m :: m in groups <==> m in order
    {
      assert files[..i + 1][..i] == files[..i];
      ghost var before := groups;
      var key := Key(files[i].0);
      if key.Err? {
        GroupedStops(files, i + 1);
        return Err(key.error), order;
      }
      if key.value.Some? {
        var m := key.value.value;
        if m !in groups {
          order := order + [m];
          groups := groups[m := []];
        }
        groups := groups[m := groups[m] + files[i].1];
        assert groups == before[m := (if m in before then before[m] else []) + files[i].1];
      }
    }
    assert files[..|files|] == files;
    r := Ok(groups);
  }

  /** latencies.py:61-69: one row per model, in the given order. */
  function Rows(groups: map<string, seq<int>>, models: seq<string>): (rows: seq<Row>)
    requires forall m :: m in models ==> m in groups
    ensures |rows| == |models|
    ensures forall i :: 0 <= i < |rows| ==> rows[i] == Row(models[i], |groups[models[i]]|, groups[models[i]])
  {
    seq(|models|, i requires 0 <= i < |models| => Row(models[i], |groups[models[i]]|, groups[models[i]]))
  }

  /**
   * latencies.py:53-69, `main` over the files' results: the intervals
   * grouped per model, then one row per model in name order with the
   * number of intervals as its sample count.
   */
  method Report(files: seq<(Option<Json>, seq<int>)>) returns (r: Result<seq<Row>, Failure>)
    ensures r.Err? <==> exists i :: 0 <= i < |files| && Key(files[i].0).Err?
    ensures r.Ok? ==> forall i, j :: 0 <= i < j < |r.value| ==> Below(r.value[i].model, r.value[j].model)
    ensures r.Ok? ==> forall m :: Grouping(files, m) <==> exists i :: 0 <= i < |r.value| && r.value[i].model == m
    ensures r.Ok? ==> forall i :: 0 <= i < |r.value| ==>
      && r.value[i].intervals == Joined(files, r.value[i].model)
      && r.value[i].samples == |r.value[i].intervals|
  {
    GroupedFails(files);
    var grouped, order := Group(files);
    if grouped.Err? {
      return Err(grouped.error);
    }
    GroupedJoins(files);
    var models := Sort(order);
    var rows := Rows(grouped.value, models);
    forall m | Grouping(files, m)
      ensures exists i :: 0 <= i < |rows| && rows[i].model == m
    {
      var i :| 0 <= i < |models| && models[i] == m;
      assert rows[i].model == m;
    }
    r := Ok(rows);
  }
}
