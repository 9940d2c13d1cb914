/**
 * The order of golem.py's sweep (golem.py:370-437), stated apart from the
 * nested loops: the combinations of the three swept options with repeat
 * outermost, then top_p, then temperature; the calls each combination
 * makes; and `--skip` honoured on the first pass over the messages file
 * only.
 */
module SweepOrder {
  import opened Wrappers
  import opened Json
  import opened Util
  import opened Golem
  import opened Sweep

  /** One combination of the swept values. */
  datatype Combo = Combo(repeat: Option<Value>, topP: Option<Value>, temperature: Option<Value>)

  /** The lists joined end to end. */
  function Flatten<T>(xss: seq<seq<T>>): seq<T>
  {
    if xss == [] then [] else xss[0] + Flatten(xss[1..])
  }

  /** The temperatures for one repeat and one top_p. */
  function Row(repeat: Option<Value>, topP: Option<Value>, temperatures: seq<Option<Value>>): (r: seq<Combo>)
    ensures |r| == |temperatures|
    ensures forall k :: 0 <= k < |r| ==> r[k] == Combo(repeat, topP, temperatures[k])
  {
    seq(|temperatures|, k requires 0 <= k < |temperatures| => Combo(repeat, topP, temperatures[k]))
  }

  /** Every top_p for one repeat, each with every temperature. */
  function Block(repeat: Option<Value>, tops: seq<Option<Value>>, temperatures: seq<Option<Value>>): seq<Combo>
  {
    Flatten(seq(|tops|, j requires 0 <= j < |tops| => Row(repeat, tops[j], temperatures)))
  }

  /** Every combination: repeat outermost, then top_p, then temperature. */
  function Combos(axes: Axes): seq<Combo>
  {
    Flatten(seq(|axes.repeats|, i requires 0 <= i < |axes.repeats| => Block(axes.repeats[i], axes.tops, axes.temperatures)))
  }

  /** The body of the innermost loop run for each combination in turn. */
  function Passes(args: Args, p: Progress, combos: seq<Combo>): Progress
    decreases |combos|
  {
    if combos == [] then p
    else Passes(args, Pass(args, p, combos[0].repeat, combos[0].topP, combos[0].temperature), combos[1..])
  }

  lemma {:induction false} PassesAppend(args: Args, p: Progress, xs: seq<Combo>, ys: seq<Combo>)
    ensures Passes(args, p, xs + ys) == Passes(args, Passes(args, p, xs), ys)
    decreases |xs|
  {
    if xs == [] {
      assert xs + ys == ys;
    } else {
      assert (xs + ys)[0] == xs[0];
      assert (xs + ys)[1..] == xs[1..] + ys;
      PassesAppend(args, Pass(args, p, xs[0].repeat, xs[0].topP, xs[0].temperature), xs[1..], ys);
    }
  }

  lemma {:induction false} TemperaturesInOrder(args: Args, p: Progress, repeat: Option<Value>, topP: Option<Value>,
                                               temperatures: seq<Option<Value>>)
    ensures Temperatures(args, p, repeat, topP, temperatures) == Passes(args, p, Row(repeat, topP, temperatures))
    decreases |temperatures|
  {
    if temperatures != [] {
      assert Row(repeat, topP, temperatures)[1..] == Row(repeat, topP, temperatures[1..]);
      TemperaturesInOrder(args, Pass(args, p, repeat, topP, temperatures[0]), repeat, topP, temperatures[1..]);
    }
  }

  lemma {:induction false} TopsInOrder(args: Args, p: Progress, repeat: Option<Value>, tops: seq<Option<Value>>,
                                       temperatures: seq<Option<Value>>)
    ensures Tops(args, p, repeat, tops, temperatures) == Passes(args, p, Block(repeat, tops, temperatures))
    decreases |tops|
  {
    if tops != [] {
      var rows := seq(|tops|, j requires 0 <= j < |tops| => Row(repeat, tops[j], temperatures));
      assert rows[1..] == seq(|tops[1..]|, j requires 0 <= j < |tops[1..]| => Row(repeat, tops[1..][j], temperatures));
      assert Block(repeat, tops, temperatures) == Row(repeat, tops[0], temperatures) + Block(repeat, tops[1..], temperatures);
      TemperaturesInOrder(args, p, repeat, tops[0], temperatures);
      var q := Temperatures(args, p, repeat, tops[0], temperatures);
      TopsInOrder(args, q, repeat, tops[1..], temperatures);
      PassesAppend(args, p, Row(repeat, tops[0], temperatures), Block(repeat, tops[1..], temperatures));
    }
  }

  lemma {:induction false} RepeatsInOrder(args: Args, p: Progress, axes: Axes)
    ensures Repeats(args, p, axes.repeats, axes.tops, axes.temperatures) == Passes(args, p, Combos(axes))
    decreases |axes.repeats|
  {
    if axes.repeats != [] {
      var rest := axes.(repeats := axes.repeats[1..]);
      var blocks := seq(|axes.repeats|, i requires 0 <= i < |axes.repeats| => Block(axes.repeats[i], axes.tops, axes.temperatures));
      assert blocks[1..] == seq(|rest.repeats|, i requires 0 <= i < |rest.repeats| => Block(rest.repeats[i], rest.tops, rest.temperatures));
      assert Combos(axes) == Block(axes.repeats[0], axes.tops, axes.temperatures) + Combos(rest);
      TopsInOrder(args, p, axes.repeats[0], axes.tops, axes.temperatures);
      var q := Tops(args, p, axes.repeats[0], axes.tops, axes.temperatures);
      RepeatsInOrder(args, q, rest);
      PassesAppend(args, p, Block(axes.repeats[0], axes.tops, axes.temperatures), Combos(rest));
    }
  }

  /**
   * golem.py:370-427: the nested loops amount to one pass per combination,
   * taken in the order of `Combos`, repeat outermost and temperature
   * innermost.
   */
  lemma PlanInOrder(args: Args, axes: Axes)
    ensures Plan(args, axes) == Passes(args, Progress([], None, args.skip), Combos(axes))
  {
    RepeatsInOrder(args, Progress([], None, args.skip), axes);
  }

  /** Every line of the messages file decodes to an object with "id" and "messages" that `Decoded` accepts. */
  predicate WellFormed(args: Args, lines: seq<Option<Json>>)
  {
    forall i :: 0 <= i < |lines| ==> lines[i].Some? && Decoded(args, lines[i].value).Some?
  }

  /** A prompt is given, or a messages file whose every line is well formed. */
  predicate Ready(args: Args)
  {
    Prompted(args) || (args.lines.Some? && WellFormed(args, args.lines.value))
  }

  /** The number of leading lines `skip` passes over in a file of `n` lines. */
  function Skipped(skip: int, n: nat): (s: nat)
    ensures s <= n
    ensures skip <= 0 ==> s == 0
    ensures 0 <= skip <= n ==> s == skip
    ensures skip >= n ==> s == n
  {
    if skip < 0 then 0 else if skip > n then n else skip
  }

  /** The call a well-formed line makes under one combination. */
  function Record(args: Args, line: Option<Json>, c: Combo): Job
    requires line.Some? && Decoded(args, line.value).Some?
  {
    var d := Decoded(args, line.value).value;
    Job(d.0, c.repeat, c.temperature, c.topP, d.1)
  }

  /** The calls of one pass over a well-formed file from line `from` (counting from 0) on. */
  function Records(args: Args, lines: seq<Option<Json>>, from: nat, c: Combo): (r: seq<Job>)
    requires WellFormed(args, lines) && from <= |lines|
    ensures |r| == |lines| - from
  {
    seq(|lines| - from, k requires 0 <= k < |lines| - from => Record(args, lines[from + k], c))
  }

  /** The calls of one combination: identifier 1 with the prompt, else one per line after the skipped ones. */
  function Calls(args: Args, c: Combo, skip: int): seq<Job>
    requires Ready(args)
  {
    if Prompted(args) then [Job(JInt(1), c.repeat, c.temperature, c.topP, Immediate(args))]
    else Records(args, args.lines.value, Skipped(skip, |args.lines.value|), c)
  }

  /**
   * The calls of the whole sweep: `skip` applies to the first combination
   * only, every later one reads the whole file.
   */
  function Swept(args: Args, combos: seq<Combo>, skip: int): seq<Job>
    requires Ready(args)
  {
    if combos == [] then [] else Calls(args, combos[0], skip) + Swept(args, combos[1..], 0)
  }

  /** The `skip` left after passes over `combos`: 0 once the file has been read. */
  function SkipAfter(args: Args, combos: seq<Combo>, skip: int): int
  {
    if combos == [] || Prompted(args) then skip else 0
  }

  lemma RecordsFirst(args: Args, lines: seq<Option<Json>>, i: nat, c: Combo)
    requires WellFormed(args, lines) && i < |lines|
    ensures Records(args, lines, i, c) == [Record(args, lines[i], c)] + Records(args, lines, i + 1, c)
  {
  }

  lemma {:induction false} LinesRecords(args: Args, p: Progress, lines: seq<Option<Json>>, i: nat, c: Combo)
    requires p.stop.None? && WellFormed(args, lines) && i <= |lines|
    ensures var from := if i < Skipped(p.skip, |lines|) then Skipped(p.skip, |lines|) else i;
            Lines(args, p, lines[i..], i, c.repeat, c.topP, c.temperature) == p.(jobs := p.jobs + Records(args, lines, from, c))
    decreases |lines| - i
  {
    var skipped := Skipped(p.skip, |lines|);
    if i < |lines| {
      var q := Line(args, p, i + 1, lines[i], c.repeat, c.topP, c.temperature);
      assert Lines(args, p, lines[i..], i, c.repeat, c.topP, c.temperature)
          == Lines(args, q, lines[i + 1..], i + 1, c.repeat, c.topP, c.temperature) by {
        assert lines[i..][0] == lines[i];
        assert lines[i..][1..] == lines[i + 1..];
      }
      LinesRecords(args, q, lines, i + 1, c);
      if i + 1 > p.skip {
        assert q == p.(jobs := p.jobs + [Record(args, lines[i], c)]);
        assert skipped <= i;
        RecordsFirst(args, lines, i, c);
        assert p.jobs + [Record(args, lines[i], c)] + Records(args, lines, i + 1, c) == p.jobs + Records(args, lines, i, c);
      } else {
        assert q == p;
        assert i + 1 <= skipped;
      }
    } else {
      assert lines[i..] == [];
    }
  }

  lemma PassCalls(args: Args, p: Progress, c: Combo)
    requires p.stop.None? && Ready(args)
    ensures Pass(args, p, c.repeat, c.topP, c.temperature)
         == Progress(p.jobs + Calls(args, c, p.skip), None, SkipAfter(args, [c], p.skip))
  {
    if !Prompted(args) {
      var lines := args.lines.value;
      LinesRecords(args, p, lines, 0, c);
      assert lines[0..] == lines;
    }
  }

  /** With a prompt no line is skipped, so `skip` makes no difference. */
  lemma PromptedIgnoresSkip(args: Args, combos: seq<Combo>, skip: int)
    requires Prompted(args)
    ensures Ready(args) && Swept(args, combos, skip) == Swept(args, combos, 0)
  {
  }

  lemma {:induction false} PassesCalls(args: Args, p: Progress, combos: seq<Combo>)
    requires p.stop.None? && Ready(args)
    ensures Passes(args, p, combos) == Progress(p.jobs + Swept(args, combos, p.skip), None, SkipAfter(args, combos, p.skip))
    decreases |combos|
  {
    if combos == [] {
      assert p.jobs + [] == p.jobs;
    } else {
      var c, rest := combos[0], combos[1..];
      var q := Pass(args, p, c.repeat, c.topP, c.temperature);
      assert Passes(args, p, combos) == Passes(args, q, rest);
      PassCalls(args, p, c);
      PassesCalls(args, q, rest);
      var head, tail := Calls(args, c, p.skip), Swept(args, rest, 0);
      assert Swept(args, rest, q.skip) == tail by {
        if Prompted(args) {
          PromptedIgnoresSkip(args, rest, q.skip);
        }
      }
      assert Swept(args, combos, p.skip) == head + tail;
      assert q.jobs + tail == p.jobs + (head + tail);
      assert SkipAfter(args, combos, p.skip) == SkipAfter(args, rest, q.skip);
    }
  }

  /**
   * golem.py:370-437: when a prompt is given or every line of the messages
   * file is well formed, the run makes exactly the calls of `Swept`: for
   * each combination in order, the prompt once, or one call per line with
   * the first `--skip` lines left out on the first pass only; afterwards
   * `skip` is 0 once the file has been read.
   */
  lemma SweepCalls(args: Args, axes: Axes)
    requires Ready(args)
    ensures Plan(args, axes).stop.None?
    ensures Plan(args, axes).jobs == Swept(args, Combos(axes), args.skip)
    ensures Plan(args, axes).skip == SkipAfter(args, Combos(axes), args.skip)
  {
    PlanInOrder(args, axes);
    PassesCalls(args, Progress([], None, args.skip), Combos(axes));
    assert [] + Swept(args, Combos(axes), args.skip) == Swept(args, Combos(axes), args.skip);
  }

  /** golem.py:394-399: with a prompt, one call per combination, all with identifier 1 and the same conversation. */
  lemma PromptedCalls(args: Args, axes: Axes, k: nat)
    requires Prompted(args) && k < |Combos(axes)|
    ensures Ready(args)
    ensures |Plan(args, axes).jobs| == |Combos(axes)|
    ensures var c := Combos(axes)[k];
            Plan(args, axes).jobs[k] == Job(JInt(1), c.repeat, c.temperature, c.topP, Immediate(args))
  {
    SweepCalls(args, axes);
    PromptedSwept(args, Combos(axes), args.skip, k);
  }

  lemma {:induction false} PromptedSwept(args: Args, combos: seq<Combo>, skip: int, k: nat)
    requires Prompted(args) && k < |combos|
    ensures Ready(args)
    ensures |Swept(args, combos, skip)| == |combos|
    ensures Swept(args, combos, skip)[k] == Job(JInt(1), combos[k].repeat, combos[k].temperature, combos[k].topP, Immediate(args))
    decreases |combos|
  {
    if |combos| > 1 {
      PromptedSwept(args, combos[1..], 0, if k == 0 then 0 else k - 1);
    }
  }
}
