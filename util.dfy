/**
 * The rest of util.py: the error kinds that end a run, environment lookups,
 * and the parsing of the list and range values given on the command line
 * (`parse_elements`, `decimal_range`, `parse_range`, `parse_list`).
 */
module Util {
  import opened Wrappers
  import opened Json
  import opened Strings
  import Http

  /** Every way a run ends early: `fatal` (a logged process exit) or an uncaught exception. */
  datatype Failure =
    | MissingVariable(name: string)          // lookup_variable: not set in the shell environment
    | TokenUnavailable                       // get_google_token: the gcloud command failed
    | HttpFailure(error: Http.HttpError)     // an exit inside http_request, or a 401 the adapter does not handle
    | MalformedResponse                      // the adapter's try block raised while reading the response
    | UnboundRequest                         // vertex.py's handler formats a `request` that was never assigned
    | UnknownProvider(name: string)
    | ArityMismatch(given: nat, declared: nat)
    | InvalidRange(text: string)             // parse_range with fewer than 2 or more than 3 parts
    | InvalidDecimal(text: string)           // Decimal() raising on a piece that contains "."
    | Diverges                               // decimal_range never reaches stop
    | UnsupportedRange                       // decimal_range over non-numeric bounds
    | NoPrompt                               // neither a prompt nor a messages file
    | BadMessages                            // messages the adapter's comprehensions raise on
    | BadRecord                              // a messages-file line that is not JSON, lacks "id"/"messages", or cannot take the system prompt
    | BadAnswer                              // an answers-file line costs.py or latencies.py raises on

  /** `lookup_variable(name)`: the variable's value, fatal when it is not set. */
  function LookupVariable(env: map<string, string>, name: string): (r: Result<string, Failure>)
    ensures r.Ok? <==> name in env
    ensures r.Ok? ==> r.value == env[name]
    ensures r.Err? ==> r.error == MissingVariable(name)
  {
    if name in env then Ok(env[name]) else Err(MissingVariable(name))
  }

  /** `if x is None: x = lookup_variable(name)`: the environment is consulted only for a missing argument. */
  function Resolve(given: Option<string>, env: map<string, string>, name: string): (r: Result<string, Failure>)
    ensures given.Some? ==> r == Ok(given.value)
    ensures given.None? ==> (r.Ok? <==> name in env)
    ensures given.None? && name in env ==> r == Ok(env[name])
    ensures r.Err? ==> r.error == MissingVariable(name)
  {
    if given.Some? then Ok(given.value) else LookupVariable(env, name)
  }

  /** A value parsed from the command line: an int, a Decimal, or the raw string. */
  datatype Value = Int(i: int) | Dec(d: real) | Str(s: string)

  /** `ensure_json_serializable`: Decimal becomes a JSON number; an absent value stays absent. */
  function EnsureJsonSerializable(v: Option<Value>): (r: Option<Json>)
    ensures r.None? <==> v.None?
    ensures v.Some? && v.value.Dec? ==> r == Some(JNum(v.value.d))
    ensures v.Some? && v.value.Int? ==> r == Some(JInt(v.value.i))
    ensures v.Some? && v.value.Str? ==> r == Some(JStr(v.value.s))
  {
    match v
    case None => None
    case Some(Int(i)) => Some(JInt(i))
    case Some(Dec(d)) => Some(JNum(d))
    case Some(Str(s)) => Some(JStr(s))
  }

  predicate IsDigit(c: char) { '0' <= c <= '9' }

  predicate AllDigits(s: string) { forall i :: 0 <= i < |s| ==> IsDigit(s[i]) }

  function DigitsValue(s: string): nat
    requires AllDigits(s)
    decreases |s|
  {
    if s == [] then 0 else DigitsValue(s[..|s| - 1]) * 10 + (s[|s| - 1] as int - '0' as int)
  }

  /** `int(s)` on a base-10 literal: an optional sign and at least one ASCII digit. */
  function ParseInt(s: string): Option<int>
  {
    if |s| >= 2 && (s[0] == '+' || s[0] == '-') && AllDigits(s[1..]) then
      var magnitude: int := DigitsValue(s[1..]);
      Some(if s[0] == '-' then -magnitude else magnitude)
    else if |s| >= 1 && AllDigits(s) then Some(DigitsValue(s))
    else None
  }

  /** `str(n)` for a natural number. */
  function NatToString(n: nat): (s: string)
    ensures |s| >= 1 && AllDigits(s)
  {
    if n < 10 then [('0' as int + n) as char]
    else NatToString(n / 10) + [('0' as int + n % 10) as char]
  }

  lemma {:induction false} DigitsOfNatToString(n: nat)
    ensures DigitsValue(NatToString(n)) == n
  {
    var s := NatToString(n);
    if n >= 10 {
      assert s[..|s| - 1] == NatToString(n / 10);
      DigitsOfNatToString(n / 10);
    }
  }

  /** `int(str(n)) == n`: the integer parser reads back what Python prints. */
  lemma ParseIntRoundTrip(n: int)
    ensures n >= 0 ==> ParseInt(NatToString(n)) == Some(n)
    ensures n < 0 ==> ParseInt("-" + NatToString(-n)) == Some(n)
  {
    if n >= 0 {
      DigitsOfNatToString(n);
    } else {
      var s := "-" + NatToString(-n);
      assert s[1..] == NatToString(-n);
      DigitsOfNatToString(-n);
    }
  }

  function Pow10(n: nat): (r: nat)
    ensures r >= 1
  {
    if n == 0 then 1 else 10 * Pow10(n - 1)
  }

  /** The index of the first exponent marker "e" or "E", or |s| when there is none. */
  function ExponentAt(s: string): (i: nat)
    ensures i <= |s|
    ensures forall j :: 0 <= j < i ==> s[j] != 'e' && s[j] != 'E'
    ensures i < |s| ==> s[i] == 'e' || s[i] == 'E'
    decreases |s|
  {
    if s == [] then 0
    else if s[0] == 'e' || s[0] == 'E' then 0
    else ExponentAt(s[1..]) + 1
  }

  /** The coefficient `digits "." [digits] | "." digits | digits` of a decimal literal. */
  function ParseMantissa(m: string): Option<real>
  {
    if '.' !in m then
      if |m| >= 1 && AllDigits(m) then Some(DigitsValue(m) as real) else None
    else
      var p := Split(m, '.');
      if |p| == 2 && |p[0]| + |p[1]| >= 1 && AllDigits(p[0]) && AllDigits(p[1]) then
        Some(DigitsValue(p[0]) as real + DigitsValue(p[1]) as real / Pow10(|p[1]|) as real)
      else None
  }

  /** `Decimal(s)` for a finite literal: `[sign] coefficient [("e" | "E") [sign] digits]`. */
  function ParseDecimal(s: string): Option<real>
  {
    var negative := |s| >= 1 && s[0] == '-';
    var unsigned := if |s| >= 1 && (s[0] == '+' || s[0] == '-') then s[1..] else s;
    var e := ExponentAt(unsigned);
    var mantissa := ParseMantissa(unsigned[..e]);
    var exponent := if e == |unsigned| then Some(0) else ParseInt(unsigned[e + 1..]);
    if mantissa.None? || exponent.None? then None
    else
      var magnitude :=
        if exponent.value >= 0 then mantissa.value * Pow10(exponent.value) as real
        else mantissa.value / Pow10(-exponent.value) as real;
      Some(if negative then -magnitude else magnitude)
  }

  /**
   * One stripped piece of `parse_elements`: a Decimal when it contains ".",
   * otherwise an int, and the raw string when `int()` raises ValueError. A
   * piece with "." that is not a decimal literal makes `Decimal()` raise,
   * which nothing catches.
   */
  function ParseElement(piece: string): (r: Result<Value, Failure>)
    ensures '.' !in piece ==> r.Ok? && !r.value.Dec?
    ensures r.Ok? && r.value.Dec? ==> '.' in piece && ParseDecimal(piece) == Some(r.value.d)
    ensures r.Ok? && r.value.Int? ==> '.' !in piece && ParseInt(piece) == Some(r.value.i)
    ensures r.Ok? && r.value.Str? ==> r.value.s == piece && ParseInt(piece).None?
    ensures r.Err? ==> '.' in piece && ParseDecimal(piece).None? && r.error == InvalidDecimal(piece)
  {
    if '.' in piece then
      match ParseDecimal(piece)
      case Some(d) => Ok(Dec(d))
      case None => Err(InvalidDecimal(piece))
    else
      match ParseInt(piece)
      case Some(i) => Ok(Int(i))
      case None => Ok(Str(piece))
  }

  /** Each piece stripped and parsed, in order. */
  function ParsePieces(pieces: seq<string>): (r: seq<Result<Value, Failure>>)
    ensures |r| == |pieces|
  {
    if pieces == [] then [] else [ParseElement(Strip(pieces[0]))] + ParsePieces(pieces[1..])
  }

  lemma {:induction false} ParsePiecesAt(pieces: seq<string>, i: nat)
    requires i < |pieces|
    ensures ParsePieces(pieces)[i] == ParseElement(Strip(pieces[i]))
  {
    if i > 0 {
      ParsePiecesAt(pieces[1..], i - 1);
    }
  }

  /** Each separator-delimited piece of `s`, stripped and parsed. */
  function PieceValues(s: string, sep: char): (r: seq<Result<Value, Failure>>)
    ensures |r| == |Split(s, sep)|
  {
    ParsePieces(Split(s, sep))
  }

  /** `parsed` all succeeded and `values` are their values, or some failed and `r` is the first failure. */
  ghost predicate Collected(parsed: seq<Result<Value, Failure>>, r: Result<seq<Value>, Failure>)
  {
    && (r.Ok? <==> forall i :: 0 <= i < |parsed| ==> parsed[i].Ok?)
    && (r.Ok? ==> |r.value| == |parsed|)
    && (r.Ok? ==> forall i :: 0 <= i < |parsed| ==> r.value[i] == parsed[i].value)
    && (r.Err? ==> exists i :: 0 <= i < |parsed| && parsed[i] == Err(r.error) &&
                             forall j :: 0 <= j < i ==> parsed[j].Ok?)
  }

  /** What `parse_elements(s, sep)` returns: one value per separator-delimited piece, in order. */
  ghost predicate ParsedElements(s: string, sep: char, r: Result<seq<Value>, Failure>)
  {
    Collected(PieceValues(s, sep), r)
  }

  /** The list comprehension of `parse_elements`: it stops at the first piece that raises. */
  method Collect(parsed: seq<Result<Value, Failure>>) returns (r: Result<seq<Value>, Failure>)
    ensures Collected(parsed, r)
  {
    var converted: seq<Value> := [];
    for i := 0 to |parsed|
      invariant |converted| == i
      invariant forall j :: 0 <= j < i ==> parsed[j].Ok? && converted[j] == parsed[j].value
    {
      if parsed[i].Err? {
        return Err(parsed[i].error);
      }
      converted := converted + [parsed[i].value];
    }
    return Ok(converted);
  }

  /** `parse_elements(string, sep)`. */
  method ParseElements(s: string, sep: char) returns (r: Result<seq<Value>, Failure>)
    ensures ParsedElements(s, sep, r)
  {
    r := Collect(PieceValues(s, sep));
  }

  predicate IsNumber(v: Value) { v.Int? || v.Dec? }

  function Num(v: Value): real
    requires IsNumber(v)
  {
    if v.Int? then v.i as real else v.d
  }

  /** Python's `+` on int and Decimal: int only when both are ints. */
  function Add(a: Value, b: Value): (r: Value)
    requires IsNumber(a) && IsNumber(b)
    ensures IsNumber(r) && Num(r) == Num(a) + Num(b)
    ensures r.Int? <==> a.Int? && b.Int?
  {
    if a.Int? && b.Int? then Int(a.i + b.i) else Dec(Num(a) + Num(b))
  }

  /** The value the generator reaches after adding `step` to `start` `k` times. */
  function Nth(start: real, step: real, k: nat): real
    decreases k
  {
    if k == 0 then start else Nth(start, step, k - 1) + step
  }

  /** Repeated addition lands where multiplication says. */
  lemma {:induction false} NthClosedForm(start: real, step: real, k: nat)
    ensures Nth(start, step, k) == start + k as real * step
    decreases k
  {
    if k > 0 {
      NthClosedForm(start, step, k - 1);
      assert (k - 1) as real * step + step == k as real * step;
    }
  }

  /**
   * `out` is what `decimal_range(start, stop, step)` yields: start,
   * start + step, ... while strictly below stop; the first value is start
   * itself and later ones are ints only when start and step are.
   */
  ghost predicate IsRange(out: seq<Value>, start: Value, stop: Value, step: Value)
  {
    && IsNumber(start) && IsNumber(stop) && IsNumber(step)
    && (forall k :: 0 <= k < |out| ==>
          IsNumber(out[k]) && Num(out[k]) == Nth(Num(start), Num(step), k) && Num(out[k]) < Num(stop))
    && Nth(Num(start), Num(step), |out|) >= Num(stop)
    && (out != [] ==> out[0] == start)
    && (forall k :: 1 <= k < |out| ==> (out[k].Int? <==> start.Int? && step.Int?))
  }

  /** The whole outcome of `list(decimal_range(start, stop, step))`. */
  ghost predicate RangeOutcome(start: Value, stop: Value, step: Value, r: Result<seq<Value>, Failure>)
  {
    if !(IsNumber(start) && IsNumber(stop) && IsNumber(step)) then r == Err(UnsupportedRange)
    else if Num(start) < Num(stop) && Num(step) <= 0.0 then r == Err(Diverges)
    else r.Ok? && IsRange(r.value, start, stop, step)
  }

  /** The range is fully determined by its bounds and step. */
  lemma RangeIsDetermined(a: seq<Value>, b: seq<Value>, start: Value, stop: Value, step: Value)
    requires IsRange(a, start, stop, step) && IsRange(b, start, stop, step)
    ensures a == b
  {
    assert |a| == |b|;
    forall k | 0 <= k < |a| ensures a[k] == b[k] {
      if k == 0 {
      } else if a[k].Int? {
        assert a[k].i as real == b[k].i as real;
      }
    }
  }

  lemma StepQuotient(a: real, s: real)
    requires s > 0.0
    ensures (a - s) / s == a / s - 1.0
  {
    assert (a - s) / s == a / s - s / s;
  }

  /** The loop state of `decimal_range` after yielding `out`, with `current` next in line. */
  ghost predicate RangeSoFar(out: seq<Value>, current: Value, start: Value, stop: Value, step: Value)
  {
    && IsNumber(start) && IsNumber(stop) && IsNumber(step) && IsNumber(current)
    && (Num(start) < Num(stop) ==> Num(step) > 0.0)
    && Num(current) == Nth(Num(start), Num(step), |out|)
    && (forall k :: 0 <= k < |out| ==>
          IsNumber(out[k]) && Num(out[k]) == Nth(Num(start), Num(step), k) && Num(out[k]) < Num(stop))
    && (out == [] ==> current == start)
    && (out != [] ==> out[0] == start && (current.Int? <==> start.Int? && step.Int?))
    && (forall k :: 1 <= k < |out| ==> (out[k].Int? <==> start.Int? && step.Int?))
  }

  /** One turn of the loop: yield `current`, then add the step. */
  lemma RangeAdvance(out: seq<Value>, current: Value, start: Value, stop: Value, step: Value)
    requires RangeSoFar(out, current, start, stop, step) && Num(current) < Num(stop)
    ensures RangeSoFar(out + [current], Add(current, step), start, stop, step)
    ensures Num(step) > 0.0
  {
    if out != [] {
      assert Num(out[0]) == Nth(Num(start), Num(step), 0);
    }
    var next := out + [current];
    forall k | 0 <= k < |next|
      ensures IsNumber(next[k]) && Num(next[k]) == Nth(Num(start), Num(step), k) && Num(next[k]) < Num(stop)
    {
      if k < |out| {
        assert next[k] == out[k];
      }
    }
  }

  /** How many more values the generator yields from `current` (an upper bound when step is not positive). */
  function StepsLeft(current: Value, stop: Value, step: Value): int
    requires IsNumber(current) && IsNumber(stop) && IsNumber(step)
  {
    if Num(step) > 0.0 then ((Num(stop) - Num(current)) / Num(step)).Floor + 1 else 0
  }

  /** The number of steps left to stop shrinks with each turn. */
  lemma RemainingSteps(current: Value, stop: Value, step: Value)
    requires IsNumber(current) && IsNumber(stop) && IsNumber(step)
    requires Num(step) > 0.0 && Num(current) < Num(stop)
    ensures 0 <= StepsLeft(Add(current, step), stop, step) < StepsLeft(current, stop, step)
  {
    StepQuotient(Num(stop) - Num(current), Num(step));
  }

  /** The generator loop of `decimal_range` once the bounds are known to be numbers that converge. */
  method Yield(start: Value, stop: Value, step: Value) returns (out: seq<Value>)
    requires IsNumber(start) && IsNumber(stop) && IsNumber(step)
    requires Num(start) < Num(stop) ==> Num(step) > 0.0
    ensures IsRange(out, start, stop, step)
  {
    out := [];
    var current := start;
    while Num(current) < Num(stop)
      invariant RangeSoFar(out, current, start, stop, step)
      decreases StepsLeft(current, stop, step)
    {
      RangeAdvance(out, current, start, stop, step);
      RemainingSteps(current, stop, step);
      out := out + [current];
      current := Add(current, step);
    }
  }

  /** `decimal_range(start, stop, step)`, drained into a list as `parse_range` does. */
  method DecimalRange(start: Value, stop: Value, step: Value) returns (r: Result<seq<Value>, Failure>)
    ensures RangeOutcome(start, stop, step, r)
  {
    if !(IsNumber(start) && IsNumber(stop) && IsNumber(step)) {
      return Err(UnsupportedRange);
    }
    if Num(start) < Num(stop) && Num(step) <= 0.0 {
      return Err(Diverges);
    }
    var out := Yield(start, stop, step);
    return Ok(out);
  }

  /** What `parse_range(s)` returns. */
  ghost predicate RangeParsed(s: string, r: Result<seq<Value>, Failure>)
  {
    var parsed := PieceValues(s, ':');
    if exists i :: 0 <= i < |parsed| && parsed[i].Err? then
      r.Err? && exists i :: 0 <= i < |parsed| && parsed[i] == Err(r.error) && forall j :: 0 <= j < i ==> parsed[j].Ok?
    else if |parsed| < 2 || |parsed| > 3 then r == Err(InvalidRange(s))
    else
      var step := if |parsed| == 3 then parsed[2].value else Int(1);
      RangeOutcome(parsed[0].value, parsed[1].value, step, r)
  }

  /** `parse_range(string)`: start:stop or start:stop:step, with a step of 1 by default. */
  method ParseRange(s: string) returns (r: Result<seq<Value>, Failure>)
    ensures RangeParsed(s, r)
  {
    var elements := ParseElements(s, ':');
    if elements.Err? {
      return Err(elements.error);
    }
    var parts := elements.value;
    if |parts| < 2 || |parts| > 3 {
      return Err(InvalidRange(s));
    }
    var step := if |parts| == 3 then parts[2] else Int(1);
    r := DecimalRange(parts[0], parts[1], step);
  }

  /** `parse_list(string)`: a range exactly when the text contains ":", else a comma-separated list. */
  method ParseList(s: string) returns (r: Result<seq<Value>, Failure>)
    ensures ':' in s ==> RangeParsed(s, r)
    ensures ':' !in s ==> ParsedElements(s, ',', r)
  {
    if ':' in s {
      r := ParseRange(s);
    } else {
      r := ParseElements(s, ',');
    }
  }
}
