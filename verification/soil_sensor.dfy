/** One iteration of the `while True` body of `readSoilSensor`
    (main.py, lines 23-38) as a step on the loop state `(counter, vals)`,
    and runs of such steps over a stream of probe samples.

    `Step` is the loop body as written: its report branch raises
    `TypeError` at line 35, because `"[" + counter` adds an `int` to a
    `str`, so the reset of line 38 is never reached. `StepIntended` is the
    evidently intended body, where the average is printed and the counter
    reset. */
module SoilSensor {
  import opened Errors
  import opened Conversion
  import opened Averaging

  /** The sampling branch runs while `counter <= WindowLimit`. */
  const WindowLimit: int := 10
  /** Number of samples taken from a counter of 0 before the report branch. */
  const WindowSize: nat := 11

  datatype SamplerState = SamplerState(counter: int, vals: seq<real>)

  /** The state on entry to the loop: `counter = 0`, `vals = []`. */
  const Initial: SamplerState := SamplerState(0, [])

  /** What one loop iteration does: take a sample, print a report (with the
      value of `counter` and the average), or raise. */
  datatype StepResult =
    | Sampled(next: SamplerState)
    | Reported(iterations: int, average: real, next: SamplerState)
    | Raised(error: PyError)

  /** The loop body as written. `currVal` is the value `soil.read_u16()`
      returns; the report branch does not read it. */
  function Step(s: SamplerState, currVal: U16): (r: StepResult)
    ensures r.Sampled? <==> s.counter <= WindowLimit
    ensures !r.Sampled? ==> r == Raised(TypeError)
    ensures r.Sampled? ==>
              && r.next.counter == s.counter + 1
              && |r.next.vals| == |s.vals| + 1
              && r.next.vals[..|s.vals|] == s.vals
              && r.next.vals[|s.vals|] == Percent(currVal)
              && 0.0 <= r.next.vals[|s.vals|] <= 100.0
  {
    if s.counter <= WindowLimit then
      Sampled(SamplerState(s.counter + 1, s.vals + [Percent(currVal)]))
    else
      Raised(TypeError)
  }

  /** The loop body as evidently intended: the report branch prints the
      counter and `calcAvg(vals)`, then resets the counter; `vals` is kept.
      On an empty `vals` the average itself raises. */
  function StepIntended(s: SamplerState, currVal: U16): (r: StepResult)
    ensures s.counter <= WindowLimit ==> r == Step(s, currVal)
    ensures s.counter > WindowLimit && |s.vals| > 0 ==>
              && r.Reported?
              && r.iterations == s.counter
              && Mean(s.vals) == Ok(r.average)
              && r.next == SamplerState(0, s.vals)
    ensures s.counter > WindowLimit && |s.vals| == 0 ==> r == Raised(ZeroDivisionError)
  {
    if s.counter <= WindowLimit then
      Step(s, currVal)
    else
      match Mean(s.vals)
      case Ok(avg) => Reported(s.counter, avg, SamplerState(0, s.vals))
      case Err(e) => Raised(e)
  }

  datatype Version = AsWritten | Intended

  function StepOf(v: Version, s: SamplerState, currVal: U16): StepResult
  {
    match v
    case AsWritten => Step(s, currVal)
    case Intended => StepIntended(s, currVal)
  }

  /** Where a run of loop iterations ends: still looping, or stopped by an
      exception (which ends the sensor thread) in state `state`. `reports`
      are the averages printed on the way. */
  datatype RunOutcome =
    | Running(state: SamplerState, reports: seq<real>)
    | Halted(error: PyError, state: SamplerState, reports: seq<real>)

  function WithReport(avg: real, o: RunOutcome): RunOutcome
  {
    match o
    case Running(s, rs) => Running(s, [avg] + rs)
    case Halted(e, s, rs) => Halted(e, s, [avg] + rs)
  }

  /** Runs one loop iteration per element of `samples`; the sample paired
      with a report iteration is not read. The program as written prints
      nothing. */
  function Run(v: Version, s: SamplerState, samples: seq<U16>): (o: RunOutcome)
    ensures v == AsWritten ==> o.reports == []
    decreases |samples|
  {
    if |samples| == 0 then Running(s, [])
    else
      match StepOf(v, s, samples[0])
      case Sampled(n) => Run(v, n, samples[1..])
      case Reported(_, avg, n) => WithReport(avg, Run(v, n, samples[1..]))
      case Raised(e) => Halted(e, s, [])
  }

  /** Appending the first sample's percentage and then the percentages of
      the next `k - 1` samples appends the percentages of the first `k`. */
  lemma AppendPercents(vals: seq<real>, xs: seq<U16>, k: nat)
    requires 0 < k <= |xs|
    ensures vals + [Percent(xs[0])] + Percents(xs[1..][..k - 1]) == vals + Percents(xs[..k])
  {
    assert xs[..k][1..] == xs[1..][..k - 1];
    assert Percents(xs[..k]) == [Percent(xs[..k][0])] + Percents(xs[..k][1..]);
  }

  /** An iteration with `counter <= 10` samples, in either version. */
  lemma RunSamples(v: Version, c: int, vals: seq<real>, samples: seq<U16>)
    requires c <= WindowLimit
    requires |samples| > 0
    ensures Run(v, SamplerState(c, vals), samples)
            == Run(v, SamplerState(c + 1, vals + [Percent(samples[0])]), samples[1..])
  {
    var n := SamplerState(c + 1, vals + [Percent(samples[0])]);
    assert StepOf(v, SamplerState(c, vals), samples[0]) == Sampled(n);
  }

  /** An intended iteration with the counter at 11 prints the mean and
      resets the counter. */
  lemma RunReports(vals: seq<real>, samples: seq<U16>)
    requires |vals| > 0
    requires |samples| > 0
    ensures Mean(vals).Ok?
    ensures Run(Intended, SamplerState(WindowSize, vals), samples)
            == WithReport(Mean(vals).value, Run(Intended, SamplerState(0, vals), samples[1..]))
  {
    var s := SamplerState(WindowSize, vals);
    assert StepOf(Intended, s, samples[0])
           == Reported(WindowSize, Mean(vals).value, SamplerState(0, vals));
  }

  /** From a counter `c` in 0..11, the program as written samples until the
      counter reaches 11 and then raises `TypeError` in the report branch,
      with `vals` holding exactly the converted samples taken. */
  lemma {:induction false} AsWrittenRun(c: int, vals: seq<real>, samples: seq<U16>)
    requires 0 <= c <= WindowSize
    ensures |samples| <= WindowSize - c ==>
              Run(AsWritten, SamplerState(c, vals), samples)
              == Running(SamplerState(c + |samples|, vals + Percents(samples)), [])
    ensures |samples| > WindowSize - c ==>
              Run(AsWritten, SamplerState(c, vals), samples)
              == Halted(TypeError, SamplerState(WindowSize, vals + Percents(samples[..WindowSize - c])), [])
    decreases |samples|
  {
    var s := SamplerState(c, vals);
    if |samples| == 0 {
      assert vals + Percents(samples) == vals;
    } else if c == WindowSize {
      assert Run(AsWritten, s, samples) == Halted(TypeError, s, []);
      assert vals + Percents(samples[..0]) == vals;
    } else {
      var p := Percent(samples[0]);
      RunSamples(AsWritten, c, vals, samples);
      AsWrittenRun(c + 1, vals + [p], samples[1..]);
      if |samples| <= WindowSize - c {
        AppendPercents(vals, samples, |samples|);
        assert samples[1..][..|samples| - 1] == samples[1..];
        assert samples[..|samples|] == samples;
      } else {
        AppendPercents(vals, samples, WindowSize - c);
      }
    }
  }

  /** The program as written, from its initial state: 11 samples are taken,
      and the 12th iteration raises `TypeError` with the counter at 11; the
      counter is never reset and no average is ever printed. */
  lemma AsWrittenNeverResets(samples: seq<U16>)
    ensures Run(AsWritten, Initial, samples).Halted? <==> |samples| > WindowSize
    ensures Run(AsWritten, Initial, samples).Halted? ==>
              Run(AsWritten, Initial, samples).error == TypeError
    ensures Run(AsWritten, Initial, samples).state.counter
            == if |samples| <= WindowSize then |samples| else WindowSize
    ensures Run(AsWritten, Initial, samples).reports == []
  {
    AsWrittenRun(0, [], samples);
  }

  /** From a counter `c` in 0..11, the intended program samples until the
      counter reaches 11, then prints the mean of all values collected so far
      and continues from a counter of 0 with `vals` kept. With `c = 0` this
      is one full window: eleven samples are appended, the twelfth iteration
      prints the mean (over every value collected since start-up) and the
      loop starts over. */
  lemma {:induction false} IntendedRun(c: int, vals: seq<real>, samples: seq<U16>)
    requires 0 <= c <= WindowSize
    requires c < WindowSize || |vals| > 0
    requires |samples| > WindowSize - c
    ensures var vals' := vals + Percents(samples[..WindowSize - c]);
            && Mean(vals').Ok?
            && Run(Intended, SamplerState(c, vals), samples)
               == WithReport(Mean(vals').value,
                             Run(Intended, SamplerState(0, vals'), samples[WindowSize - c + 1..]))
    decreases |samples|
  {
    var k := WindowSize - c;
    if c == WindowSize {
      RunReports(vals, samples);
      assert vals + Percents(samples[..0]) == vals;
    } else {
      var p := Percent(samples[0]);
      RunSamples(Intended, c, vals, samples);
      IntendedRun(c + 1, vals + [p], samples[1..]);
      AppendPercents(vals, samples, k);
      assert samples[1..][k..] == samples[k + 1..];
    }
  }

  /** States the intended loop can be in: the counter stays in 0..11, there
      are at least `counter` collected values, and all of them are
      percentages. */
  ghost predicate Inv(s: SamplerState)
  {
    && 0 <= s.counter <= WindowSize
    && s.counter <= |s.vals|
    && forall i :: 0 <= i < |s.vals| ==> 0.0 <= s.vals[i] <= 100.0
  }

  /** The intended step keeps `Inv`, never raises from such a state, and
      every average it prints is a percentage. */
  lemma StepIntendedKeepsInv(s: SamplerState, currVal: U16)
    requires Inv(s)
    ensures !StepIntended(s, currVal).Raised?
    ensures Inv(StepIntended(s, currVal).next)
    ensures StepIntended(s, currVal).Reported? ==>
              0.0 <= StepIntended(s, currVal).average <= 100.0
  {
    if s.counter > WindowLimit {
      var lo, hi := MinOf(s.vals), MaxOf(s.vals);
      assert 0.0 <= lo && hi <= 100.0;
    }
  }

  /** From any `Inv` state (the initial one among them) the intended program
      never raises, and all the averages it prints are percentages. */
  lemma {:induction false} IntendedNeverRaises(s: SamplerState, samples: seq<U16>)
    requires Inv(s)
    ensures Run(Intended, s, samples).Running?
    ensures forall i :: 0 <= i < |Run(Intended, s, samples).reports| ==>
              0.0 <= Run(Intended, s, samples).reports[i] <= 100.0
    decreases |samples|
  {
    if |samples| > 0 {
      StepIntendedKeepsInv(s, samples[0]);
      IntendedNeverRaises(StepIntended(s, samples[0]).next, samples[1..]);
    }
  }

  lemma InitialInv()
    ensures Inv(Initial)
  {
  }
}
