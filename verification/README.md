# Soil-moisture sampling loop (plantify `main.py`) in Dafny

This project models the only logic in the plantify monitor's `main.py`:

- the conversion of a raw 16-bit ADC reading of the capacitive soil probe
  into a moisture percentage, `((maxVal - currVal) * 100) / (maxVal - minVal)`
  with the hard-coded calibration `maxVal = 65535` (dry) and `minVal = 0`
  (wet) — module `Conversion` (`conversion.dfy`);
- `calcAvg`, the arithmetic mean of a list, including the
  `ZeroDivisionError` of the empty list — module `Averaging`
  (`averaging.dfy`);
- one iteration of the `while True` loop of `readSoilSensor` as a pure step
  on the loop state `(counter, vals)`, and runs of iterations over a stream
  of probe samples — module `SoilSensor` (`soil_sensor.dfy`);
- the two Python exceptions involved, as a `Result` type — module `Errors`
  (`errors.dfy`).

Python's `/` produces a float here; the model uses exact `real` arithmetic
and makes no claim about floating-point rounding. The sample returned by
`soil.read_u16()` is an input in 0..65535 (`Conversion.U16`); `Run` pairs
one sample with each loop iteration, and the sample paired with a report
iteration is not read, as the report branch does not call `read_u16`.

The report branch at `main.py:35` builds its message as
`"Average humidity for " + "[" + counter + ...`. Python evaluates `+` from
left to right, so adding the `int` counter to a `str` raises `TypeError`
before `calcAvg(vals)` is even evaluated. The exception is not caught, so
the sensor thread ends and the reset at `main.py:38` is never reached.
`SoilSensor.Step` models the body as written and reports this branch as
`Raised(TypeError)`. `SoilSensor.StepIntended` models the evidently intended
body, which prints the counter and the average and then resets the counter.
In both, `vals` is never cleared, so an intended report averages every
sample collected since start-up, not only the last window.

The calibration constants are fixed at `main.py:20-21`, and `calcAvg` uses
true division.

## Model

| member | source | states |
|---|---|---|
| `Conversion.Percent` | main.py:20-29 | the dry reading 65535 gives exactly 0, the wet reading 0 gives exactly 100, and the result is in [0, 100] if and only if the sample lies between the two calibration constants (no clamping) |
| `Conversion.RawOfPercent` | main.py:29 | the conversion has an inverse: mapping the percentage back recovers the raw sample |
| `Conversion.PercentInjective` | main.py:29 | distinct raw samples give distinct percentages |
| `Conversion.PercentAntitone` | main.py:29 | a larger raw sample never gives a larger percentage, and a strictly larger one a strictly smaller percentage |
| `Conversion.PercentLinear` | main.py:29 | the map is linear: a raw difference of d changes the percentage by d * 100 / 65535 in the opposite direction |
| `Conversion.PercentOfU16InRange` | main.py:26-29 | every value `read_u16` can return converts to a percentage in [0, 100] |
| `Averaging.Mean` | main.py:5-9 | the mean fails with `ZeroDivisionError` exactly on the empty list; otherwise it is the sum of the elements divided by their count, and it lies between the least and the greatest element |
| `Averaging.CalcAvg` | main.py:5-9 | the accumulating loop followed by the division computes exactly `Mean`, error case included |
| `Averaging.MeanSingleton` | main.py:5-9 | a one-element list averages to its element |
| `Averaging.MeanConstant` | main.py:5-9 | a non-empty list of equal elements averages to that element |
| `SoilSensor.Step` | main.py:23-38 | the loop body as written: with `counter <= 10` it appends exactly the converted sample (a percentage) to `vals`, keeps all earlier entries and increments the counter; otherwise it raises `TypeError` |
| `SoilSensor.StepIntended` | main.py:34-38 | the intended body: sampling as in `Step`; in the report branch it prints the counter and the mean of `vals`, resets the counter to 0 and keeps `vals`, or raises `ZeroDivisionError` when `vals` is empty |
| `SoilSensor.Run` | main.py:23-42 | a run of the loop as written never prints an average |
| `SoilSensor.AsWrittenRun` | main.py:23-38 | from a counter c in 0..11, the loop as written samples 11 - c times, appending exactly the converted samples, and the next iteration raises `TypeError` with the counter at 11 |
| `SoilSensor.AsWrittenNeverResets` | main.py:16-38 | from the initial state, exactly 11 samples are taken; the 12th iteration raises `TypeError`; the counter is never reset and no average is printed |
| `SoilSensor.IntendedRun` | main.py:23-38 | from a counter c in 0..11, the intended loop samples 11 - c times, then prints the mean of all values collected and continues at counter 0 with `vals` kept; from counter 0 this is a full window of 11 samples and one report |
| `SoilSensor.RunSamples` | main.py:24-33 | an iteration with `counter <= 10` appends the converted sample and increments the counter, in both versions |
| `SoilSensor.RunReports` | main.py:34-38 | an intended iteration with the counter at 11 prints the mean of `vals` and resets the counter without touching `vals` |
| `SoilSensor.StepIntendedKeepsInv` | main.py:24-38 | from a state whose counter is in 0..11, with at least that many collected percentages, the intended step never raises, keeps those facts, and prints only averages in [0, 100] |
| `SoilSensor.IntendedNeverRaises` | main.py:23-38 | from such a state, any run of the intended loop keeps looping, and every printed average is in [0, 100] |
| `SoilSensor.InitialInv` | main.py:16-17 | the loop's initial state `counter = 0`, `vals = []` satisfies that invariant |

## Left out

- Hardware access (`ADC(Pin(26))`, `soil.read_u16()`): the raw sample is an input in 0..65535.
- `time.sleep(delay)` and the unbounded `while True` loops: the model has single iterations and finite runs over a sample stream.
- `_thread.start_new_thread` (main.py:55-57): the three threads share no state; an uncaught exception is modelled as the end of the sensor run (`Halted`).
- `while2` and `runLcdDisplay`: they only print.
- The text printed at main.py:35: only the counter and the average are modelled, not the string formatting.
- `calibrator.py`, mentioned at main.py:19, is not part of this model; the calibration constants are the hard-coded ones.
- Memory exhaustion: `vals` is never cleared and grows by one value per sample; runs of the loop assume unbounded memory, so `SoilSensor.IntendedNeverRaises` does not cover a `MemoryError` on the device.
- Floating-point rounding: exact `real` arithmetic stands in for Python floats.

## Findings

| source | as written | input that shows it | evidently intended | confidence | as-written member | corrected member |
|---|---|---|---|---|---|---|
| main.py:35 | `"..." + "[" + counter + ...` adds an `int` to a `str`, which raises `TypeError`; the exception ends the sensor thread, so the reset at main.py:38 is unreachable | any 12 samples from the initial state: the 12th iteration runs the report branch with `counter == 11` | print the counter and `calcAvg(vals)` (converted with `str`), then reset the counter to 0 | high; not executed | `SoilSensor.AsWrittenNeverResets` | `SoilSensor.IntendedRun` |
