/**
 * golem.py's `run` and the loops of `main`, executed: each planned call of
 * `run` asks the selected adapter and prints one record, and the first
 * failure, of a request or of the plan, ends the process.
 */
module Cli {
  import opened Wrappers
  import opened Json
  import opened Util
  import opened Adapter
  import opened Golem
  import opened Sweep
  import Http
  import Vertex

  /** The fields of a printed record that say which planned call made it. */
  ghost predicate Shows(record: Json, job: Job)
  {
    && record.JObj? && "id" in record.fields && record.fields["id"] == job.id
    && Carries(record.fields, "repeat", EnsureJsonSerializable(job.repeat))
    && Carries(record.fields, "temperature", EnsureJsonSerializable(job.temperature))
    && Carries(record.fields, "top_p", EnsureJsonSerializable(job.topP))
  }

  /**
   * Running towards the plan `q` from the output `base` printed `printed`:
   * one record per call, in the planned order, for a prefix of the calls.
   * Without a failure every call was made and the plan did not stop; a
   * failure after every call's record is the one the plan stopped with.
   */
  ghost predicate Ran(base: seq<Json>, printed: seq<Json>, q: Progress, failure: Option<Failure>)
  {
    && |base| <= |printed| && printed[..|base|] == base
    && |printed| - |base| <= |q.jobs|
    && (forall i :: 0 <= i < |printed| - |base| ==> Shows(printed[|base| + i], q.jobs[i]))
    && (failure.None? ==> |printed| - |base| == |q.jobs| && q.stop.None?)
    && (failure.Some? && |printed| - |base| == |q.jobs| ==> q.stop == failure)
  }

  /** A record for the next call extends the run by that call. */
  lemma RanAppend(base: seq<Json>, printed: seq<Json>, q: Progress, record: Json, job: Job)
    requires Ran(base, printed, q, None) && Shows(record, job)
    ensures Ran(base, printed + [record], q.(jobs := q.jobs + [job]), None)
  {
    var after := printed + [record];
    assert after[..|base|] == printed[..|base|];
    forall i | 0 <= i < |after| - |base|
      ensures Shows(after[|base| + i], (q.jobs + [job])[i])
    {
      if i < |printed| - |base| {
        assert after[|base| + i] == printed[|base| + i];
      }
    }
  }

  /** A call that fails ends the run before its record. */
  lemma RanFailed(base: seq<Json>, printed: seq<Json>, q: Progress, job: Job, e: Failure)
    requires Ran(base, printed, q, None)
    ensures Ran(base, printed, q.(jobs := q.jobs + [job]), Some(e))
  {
    forall i | 0 <= i < |printed| - |base|
      ensures Shows(printed[|base| + i], (q.jobs + [job])[i])
    {
      assert (q.jobs + [job])[i] == q.jobs[i];
    }
  }

  /** A failure ends the rest of the plan too. */
  lemma RanLater(base: seq<Json>, printed: seq<Json>, q: Progress, s: Progress, failure: Option<Failure>)
    requires Ran(base, printed, q, failure) && failure.Some? && Later(q, s)
    ensures Ran(base, printed, s, failure)
  {
    forall i | 0 <= i < |printed| - |base|
      ensures Shows(printed[|base| + i], s.jobs[i])
    {
      assert s.jobs[i] == q.jobs[i];
    }
  }

  /** The record `Run` prints shows the call it was made for. */
  lemma RecordShows(record: Json, id: Json, reply: Reply, timestamp: string, job: Job)
    requires job.id == id
    requires IsRecord(record, id, reply, timestamp, EnsureJsonSerializable(job.repeat),
                      EnsureJsonSerializable(job.temperature), EnsureJsonSerializable(job.topP))
    ensures Shows(record, job)
  {
  }

  /**
   * The `--delay` pauses after n batch calls that returned: one
   * `time.sleep(delay)` after each, and none without `--delay`.
   */
  function Pauses(delay: Option<real>, n: nat): (ps: seq<real>)
    ensures |ps| == if delay.Some? then n else 0
    ensures forall i :: 0 <= i < |ps| ==> ps[i] == delay.value
  {
    if delay.None? || n == 0 then [] else Pauses(delay, n - 1) + [delay.value]
  }

  /** One more batch call that returned adds one pause with `--delay`, none without. */
  lemma PausesNext(delay: Option<real>, n: nat)
    ensures Pauses(delay, n + 1) == Pauses(delay, n) + if delay.Some? then [delay.value] else []
  {
  }

  /** A process of golem: its transport, the Vertex token cache, the environment and what it has printed. */
  class Session {
    const t: Http.Transport
    const tokens: Vertex.TokenCache
    const env: map<string, string>
    /** What `timestamp()` returns for the n-th record. */
    const clock: nat -> string
    /** The records printed so far, one JSON line each. */
    var printed: seq<Json>
    /** `args.skip`, which the batch loop resets. */
    var skip: int
    /** The `--delay` pauses slept so far (golem.py:428-430). */
    var paused: seq<real>

    constructor (t: Http.Transport, tokens: Vertex.TokenCache, env: map<string, string>, clock: nat -> string)
      ensures this.t == t && this.tokens == tokens && this.env == env && this.clock == clock
      ensures printed == [] && skip == 0 && paused == []
    {
      this.t := t;
      this.tokens := tokens;
      this.env := env;
      this.clock := clock;
      printed, skip, paused := [], 0, [];
    }

    /**
     * golem.py:155-182, `run`: the swept values made JSON, the request
     * asked, and on success one record printed.
     */
    method Run(id: Json, args: Args, repeat: Option<Value>, temperature: Option<Value>, topP: Option<Value>,
               messages: Json)
      returns (answer: Result<Reply, Failure>)
      requires t.Valid()
      modifies this, t, tokens
      ensures forall k {:trigger Consulted(k)} :: Consulted(k) ==>
        Asked(t.net, old(t.posts), t.posts, tokens.gcloud, old(tokens.cache), old(tokens.fetches), tokens.cache,
                    tokens.fetches, env, Route(args, EnsureJsonSerializable(temperature), EnsureJsonSerializable(topP)),
                    messages, answer)
      ensures t.AtMostTwoCalls(old(t.posts), old(t.session), old(t.slept))
      ensures skip == old(skip) && paused == old(paused)
      ensures answer.Err? ==> printed == old(printed)
      ensures answer.Ok? ==>
        && |printed| == |old(printed)| + 1 && printed[..|old(printed)|] == old(printed)
        && IsRecord(printed[|old(printed)|], id, answer.value, clock(|old(printed)|), EnsureJsonSerializable(repeat),
                    EnsureJsonSerializable(temperature), EnsureJsonSerializable(topP))
    {
      var temperatureJson := EnsureJsonSerializable(temperature);
      var topPJson := EnsureJsonSerializable(topP);
      var repeatJson := EnsureJsonSerializable(repeat);
      answer := Ask(t, tokens, env, args, messages, temperatureJson, topPJson);
      if answer.Err? {
        return;
      }
      var record := BuildRecord(id, answer.value, clock(|printed|), repeatJson, temperatureJson, topPJson);
      printed := printed + [record];
    }

    /** One planned call: `Run` it and extend the run by it, or end the run with its failure. */
    method Call(args: Args, ghost base: seq<Json>, ghost q: Progress, job: Job) returns (failure: Option<Failure>)
      requires t.Valid() && Ran(base, printed, q, None)
      modifies this, t, tokens
      ensures skip == old(skip) && paused == old(paused)
      ensures failure.None? ==> |printed| == |old(printed)| + 1
      ensures failure.Some? ==> printed == old(printed)
      ensures failure.None? ==> Ran(base, printed, q.(jobs := q.jobs + [job]), None)
      ensures failure.Some? ==> Ran(base, printed, q.(jobs := q.jobs + [job]), failure)
    {
      var answer := Run(job.id, args, job.repeat, job.temperature, job.topP, job.messages);
      if answer.Err? {
        RanFailed(base, printed, q, job, answer.error);
        return Some(answer.error);
      }
      RecordShows(printed[|old(printed)|], job.id, answer.value, clock(|old(printed)|), job);
      RanAppend(base, old(printed), q, printed[|old(printed)|], job);
      failure := None;
    }

    /** golem.py:420-430, a batch call: `run`, then the `--delay` pause when it returned. */
    method PacedCall(args: Args, ghost base: seq<Json>, ghost q: Progress, job: Job)
      returns (failure: Option<Failure>)
      requires t.Valid() && Ran(base, printed, q, None)
      modifies this, t, tokens
      ensures skip == old(skip)
      ensures failure.None? ==> |printed| == |old(printed)| + 1
      ensures failure.None? ==> paused == old(paused) + if args.delay.Some? then [args.delay.value] else []
      ensures failure.Some? ==> printed == old(printed) && paused == old(paused)
      ensures failure.None? ==> Ran(base, printed, q.(jobs := q.jobs + [job]), None)
      ensures failure.Some? ==> Ran(base, printed, q.(jobs := q.jobs + [job]), failure)
    {
      failure := Call(args, base, q, job);
      if failure.None? && args.delay.Some? {
        paused := paused + [args.delay.value];
      }
    }

    /** golem.py:402-431, one pass over the messages file, counting decoded lines in `nline`. */
    method Batch(args: Args, ghost base: seq<Json>, ghost p: Progress, lines: seq<Option<Json>>,
                 repeat: Option<Value>, topP: Option<Value>, temperature: Option<Value>)
      returns (failure: Option<Failure>)
      requires t.Valid() && Ran(base, printed, p, None) && skip == p.skip
      modifies this, t, tokens
      ensures skip == old(skip)
      ensures Ran(base, printed, Lines(args, p, lines, 0, repeat, topP, temperature), failure)
      ensures |printed| >= |old(printed)|
      ensures paused == old(paused) + Pauses(args.delay, |printed| - |old(printed)|)
    {
      var nline := 0;
      ghost var q := p;
      ghost var returned := 0;
      for i := 0 to |lines|
        invariant nline == i && skip == old(skip) == q.skip
        invariant Ran(base, printed, q, None)
        invariant |printed| == |old(printed)| + returned
        invariant paused == old(paused) + Pauses(args.delay, returned)
        invariant Lines(args, p, lines, 0, repeat, topP, temperature)
               == Lines(args, q, lines[i..], i, repeat, topP, temperature)
      {
        ghost var next := Line(args, q, i + 1, lines[i], repeat, topP, temperature);
        ghost var rest := Lines(args, next, lines[i + 1..], i + 1, repeat, topP, temperature);
        assert lines[i..][1..] == lines[i + 1..];
        LinesLater(args, next, lines[i + 1..], i + 1, repeat, topP, temperature);
        if lines[i].None? {
          return Some(BadRecord);
        }
        nline := nline + 1;
        if nline <= skip {
          q := next;
          continue;
        }
        var decoded := Decoded(args, lines[i].value);
        if decoded.None? {
          return Some(BadRecord);
        }
        var job := Job(decoded.value.0, repeat, temperature, topP, decoded.value.1);
        failure := PacedCall(args, base, q, job);
        if failure.Some? {
          RanLater(base, printed, next, rest, failure);
          return;
        }
        PausesNext(args.delay, returned);
        returned := returned + 1;
        q := next;
      }
      failure := None;
    }

    /**
     * golem.py:394-437, the body of the innermost loop: one immediate call,
     * or a pass over the file followed by `args.skip = 0`, or the fatal
     * missing prompt.
     */
    method Combination(args: Args, ghost base: seq<Json>, ghost p: Progress, repeat: Option<Value>,
                       topP: Option<Value>, temperature: Option<Value>)
      returns (failure: Option<Failure>)
      requires t.Valid() && Ran(base, printed, p, None) && skip == p.skip
      modifies this, t, tokens
      ensures Ran(base, printed, Pass(args, p, repeat, topP, temperature), failure)
      ensures failure.None? ==> skip == Pass(args, p, repeat, topP, temperature).skip
      ensures Prompted(args) ==> paused == old(paused)
      ensures !Prompted(args) ==>
        |printed| >= |old(printed)| && paused == old(paused) + Pauses(args.delay, |printed| - |old(printed)|)
    {
      if Prompted(args) {
        failure := Call(args, base, p, Job(JInt(1), repeat, temperature, topP, Immediate(args)));
        return;
      }
      if args.lines.Some? {
        failure := Batch(args, base, p, args.lines.value, repeat, topP, temperature);
        if failure.None? {
          skip := 0;
        }
        return;
      }
      failure := Some(NoPrompt);
    }

    /** golem.py:386-437, the temperature loop. */
    method SweepTemperatures(args: Args, ghost base: seq<Json>, ghost p: Progress, repeat: Option<Value>,
                             topP: Option<Value>, temperatures: seq<Option<Value>>)
      returns (failure: Option<Failure>)
      requires t.Valid() && Ran(base, printed, p, None) && skip == p.skip
      modifies this, t, tokens
      ensures Ran(base, printed, Temperatures(args, p, repeat, topP, temperatures), failure)
      ensures failure.None? ==> skip == Temperatures(args, p, repeat, topP, temperatures).skip
    {
      ghost var q := p;
      for i := 0 to |temperatures|
        invariant Ran(base, printed, q, None) && skip == q.skip
        invariant Temperatures(args, p, repeat, topP, temperatures)
               == Temperatures(args, q, repeat, topP, temperatures[i..])
      {
        ghost var next := Pass(args, q, repeat, topP, temperatures[i]);
        assert temperatures[i..][1..] == temperatures[i + 1..];
        failure := Combination(args, base, q, repeat, topP, temperatures[i]);
        if failure.Some? {
          TemperaturesLater(args, next, repeat, topP, temperatures[i + 1..]);
          RanLater(base, printed, next, Temperatures(args, next, repeat, topP, temperatures[i + 1..]), failure);
          return;
        }
        q := next;
      }
      failure := None;
    }

    /** golem.py:378-437, the top_p loop. */
    method SweepTops(args: Args, ghost base: seq<Json>, ghost p: Progress, repeat: Option<Value>,
                     tops: seq<Option<Value>>, temperatures: seq<Option<Value>>)
      returns (failure: Option<Failure>)
      requires t.Valid() && Ran(base, printed, p, None) && skip == p.skip
      modifies this, t, tokens
      ensures Ran(base, printed, Tops(args, p, repeat, tops, temperatures), failure)
      ensures failure.None? ==> skip == Tops(args, p, repeat, tops, temperatures).skip
    {
      ghost var q := p;
      for i := 0 to |tops|
        invariant Ran(base, printed, q, None) && skip == q.skip
        invariant Tops(args, p, repeat, tops, temperatures) == Tops(args, q, repeat, tops[i..], temperatures)
      {
        ghost var next := Temperatures(args, q, repeat, tops[i], temperatures);
        assert tops[i..][1..] == tops[i + 1..];
        failure := SweepTemperatures(args, base, q, repeat, tops[i], temperatures);
        if failure.Some? {
          TopsLater(args, next, repeat, tops[i + 1..], temperatures);
          RanLater(base, printed, next, Tops(args, next, repeat, tops[i + 1..], temperatures), failure);
          return;
        }
        q := next;
      }
      failure := None;
    }

    /** golem.py:370-437, the repeat loop. */
    method SweepRepeats(args: Args, ghost base: seq<Json>, ghost p: Progress, repeats: seq<Option<Value>>,
                        tops: seq<Option<Value>>, temperatures: seq<Option<Value>>)
      returns (failure: Option<Failure>)
      requires t.Valid() && Ran(base, printed, p, None) && skip == p.skip
      modifies this, t, tokens
      ensures Ran(base, printed, Repeats(args, p, repeats, tops, temperatures), failure)
    {
      ghost var q := p;
      for i := 0 to |repeats|
        invariant Ran(base, printed, q, None) && skip == q.skip
        invariant Repeats(args, p, repeats, tops, temperatures) == Repeats(args, q, repeats[i..], tops, temperatures)
      {
        ghost var next := Tops(args, q, repeats[i], tops, temperatures);
        assert repeats[i..][1..] == repeats[i + 1..];
        failure := SweepTops(args, base, q, repeats[i], tops, temperatures);
        if failure.Some? {
          RepeatsLater(args, next, repeats[i + 1..], tops, temperatures);
          RanLater(base, printed, next, Repeats(args, next, repeats[i + 1..], tops, temperatures), failure);
          return;
        }
        q := next;
      }
      failure := None;
    }

    /**
     * golem.py:332-437, `main` after argparse: the swept options parsed,
     * then every planned call run in order until the first failure.
     */
    method Execute(args: Args) returns (failure: Option<Failure>)
      requires t.Valid()
      modifies this, t, tokens
      ensures exists axes ::
        && AxesParsed(args, axes)
        && (axes.Err? ==> failure == Some(axes.error) && printed == old(printed))
        && (axes.Ok? ==> Ran(old(printed), printed, Plan(args, axes.value), failure))
    {
      var axes := ParseAxes(args);
      if axes.Err? {
        return Some(axes.error);
      }
      skip := args.skip;
      assert Ran(printed, printed, Progress([], None, args.skip), None);
      failure := SweepRepeats(args, printed, Progress([], None, args.skip), axes.value.repeats, axes.value.tops,
                              axes.value.temperatures);
    }
  }
}
