# analyze_phonons query compiler, in Dafny

`tools/analyze_phonons.py` is the command-line front end of the `analyze_phonons`
engine. It reads the options `--calc`, `--temp`, `--kpoint`, `--mode`, `--noavg`,
`--length` and `--direction` and the result-file path. From these it picks one of four
engine operations:

- `tau_temp`: lifetimes against temperature at one k-point and one mode;
- `tau`: lifetimes at one temperature;
- `kappa`: thermal conductivity;
- `cumulative`: cumulative thermal conductivity.

It then checks the options that operation needs, in a fixed order, and builds the
positional argument list for the engine. If a check fails, it stops with a message
instead.

This project models that query compiler as pure functions. The module-level globals
of the script (`options`, `calc`, `avg`, `file_result`) become explicit parameters.

- `Results`: `Option` and `Result` values.
- `Text`: `str.split(':')` (`Split`), with its inverse `Join` and the colon count.
- `Integers`: Python 2 `int(token)` (`ParseInt`) and `str(n)` (`IntToString`), with the
  round trip `int(str(n)) == n`.
- `Commands`: the normalized query and the engine's argument list (`Arguments`). It
  also has a reader of that list (`Decode`), built on the same `int()` model. `Decode`
  is a left inverse of `Arguments` (`Decode(Arguments(c)) == Some(c)`), so no field is
  lost and two commands never share a list (`ArgumentsInjective`). The order of the
  slots is stated by the slot-by-slot lemmas (`TauArgumentList`,
  `CumulativeArgumentList` and the list lemmas of `CompilerFacts`).
- `Normalizer`: `--kpoint`/`--mode` ranges with the `(1, 0)` "all indices" sentinel,
  the `--length` sweep with its `(1000.0, 1.0)` default, and the `--direction` axis mask.
- `Compiler`: the four branch functions, the `__main__` dispatch (`Dispatch`) and
  `Compile`. `Compile` returns the printed warnings followed by either the argument
  list or the reason for stopping.
- `CompilerFacts`: one lemma per dispatch branch. Each states the exact argument list,
  the check order and the options the branch ignores.

A stop is a `Failure`:

- `Exit(message)`: `sys.exit` with the script's exact message;
- `ValueError(token)`: `int()` or `float()` rejected a token;
- `IndexError(token)`: a `--direction` token fell outside the three-slot list.

The kpoint warning is printed before any later check of `kappa` or `cumulative` can
fail. So the warnings are kept apart from the outcome and survive a failure.

Behaviour of the code worth noting:

- `--direction` tokens are not checked to lie in 1..3. `size_flag[int(t) - 1] = 1`
  uses Python list indexing: tokens 0, -1 and -2 set slots z, y and x through negative
  indices, and any other integer raises `IndexError`. `AxisOf` models exactly this.
- The help text gives the `--length` default as `1000:10`. The code uses 1000.0 and
  1.0, and so does the model.
- Explicit ranges `a:b` are not checked for `a <= b`. `RangeOfInts` proves that
  `5:2` gives `Range(5, 2)`.

## Model

| member | source | states |
|---|---|---|
| Text.Split | tools/analyze_phonons.py:95-97 | `s.split(':')` has one more part than `s` has colons, no part holds a colon, and joining the parts with ':' gives `s` back |
| Text.SplitJoin | tools/analyze_phonons.py:95-97 | splitting colon-free parts joined with ':' gives exactly those parts (split is a left inverse of join) |
| Text.SplitSingle | tools/analyze_phonons.py:72-75 | `len(s.split(':')) == 1` exactly when `s` contains no colon |
| Integers.ParseInt | tools/analyze_phonons.py:77-78 | a string `int()` accepts consists only of whitespace, signs and digits, with at least one digit (so never a colon) |
| Integers.NatToString | tools/analyze_phonons.py:80-81 | `str(n)` for `n >= 0` is a non-empty digit string with no leading zero, whose decimal value is `n` |
| Integers.IntToString | tools/analyze_phonons.py:114-116 | `str(n)` is a '-' exactly when `n` is negative, then the decimal digits of the magnitude with no leading zero (so `"0"` only for 0, never padded) |
| Integers.ColonNotInteger | tools/analyze_phonons.py:72-78 | `int()` rejects every token that holds a colon, so the colon checks never hide an integer |
| Integers.ParseIntRoundTrip | tools/analyze_phonons.py:77-81 | `int(str(n)) == n` for every integer `n` |
| Integers.ParseIntPadded | tools/analyze_phonons.py:93 | `int()` ignores whitespace around a rendered integer |
| Integers.StripLeft | tools/analyze_phonons.py:93 | stripping leading whitespace leaves a suffix that does not start with whitespace, having dropped only whitespace |
| Integers.StripRight | tools/analyze_phonons.py:93 | stripping trailing whitespace leaves a prefix that does not end with whitespace, having dropped only whitespace |
| Commands.Arguments | tools/analyze_phonons.py:188-191 | the engine list starts with result file, operation name and averaging flag (`"1"`/`"0"`), with 5, 8, 5 or 11 slots for `tau_temp`, `tau`, `kappa`, `cumulative` |
| Commands.DecodeArguments | tools/analyze_phonons.py:114-116 | `Decode` is a left inverse of `Arguments`: every argument list reads back as the command it came from, so no field is lost |
| Commands.ArgumentsInjective | tools/analyze_phonons.py:139-140 | two different commands never produce the same argument list |
| Commands.SweepArgumentList | tools/analyze_phonons.py:80-81 | the temperature-sweep list, slot by slot: file, "tau_temp", avg, `str(kpoint)`, `str(mode)` |
| Commands.TauArgumentList | tools/analyze_phonons.py:114-116 | the lifetime-at-temperature list, slot by slot: file, "tau", avg, k-point begin and end, mode begin and end, temperature |
| Commands.CumulativeArgumentList | tools/analyze_phonons.py:188-191 | the cumulative list, slot by slot: file, "cumulative", avg, mode begin, mode end, max length, step, temperature, x, y, z flags |
| Normalizer.ToInt | tools/analyze_phonons.py:97 | a token holding a colon always fails with `ValueError(token)` |
| Normalizer.ToIntRoundTrip | tools/analyze_phonons.py:77-78 | `int()` on `str(n)`, with any whitespace around it, succeeds with `n` for every integer `n` |
| Normalizer.ParseRange | tools/analyze_phonons.py:101-112 | absent gives the sentinel (1, 0); no colon gives begin == end == int value or that token's ValueError; two or more colons stop with "Invalid usage of --<option> for --calc=<kind>"; success implies at most one colon |
| Normalizer.RangeOfPair | tools/analyze_phonons.py:108-110 | `a:b` gives (int(a), int(b)), with `a`'s ValueError reported before `b`'s |
| Normalizer.RangeOfInts | tools/analyze_phonons.py:95-97 | the rendered pair `begin:end` gives exactly `Range(begin, end)`, with no ordering check |
| Normalizer.RangeOfInt | tools/analyze_phonons.py:92-94 | a rendered scalar `n` gives `Range(n, n)` |
| Normalizer.ParseLength | tools/analyze_phonons.py:166-173 | absent gives (1000.0, 1.0); anything but exactly one colon stops with "Invalid usage of --length option"; success implies exactly one colon |
| Normalizer.LengthOfPair | tools/analyze_phonons.py:169-171 | `Lmax:dL` gives (float(Lmax), float(dL)), with `Lmax`'s ValueError reported first |
| Normalizer.PyIndex | tools/analyze_phonons.py:186 | a Python list index is valid exactly in `-n..n-1` and then selects `i` or `i + n` |
| Normalizer.AxisOf | tools/analyze_phonons.py:186 | token 1..3 selects slot token-1; 0, -1, -2 select slots 2, 1, 0 by negative indexing; other integers fail with IndexError; non-integers with ValueError |
| Normalizer.MarkAxesSelects | tools/analyze_phonons.py:184-186 | marking succeeds exactly when every token names a slot; then a slot is set exactly when it was set before or some token names it, so order and duplicates do not matter |
| Normalizer.FirstFailure | tools/analyze_phonons.py:185-186 | picks the first direction token that fails, all earlier ones succeeding |
| Normalizer.MarkAxesFirstFailure | tools/analyze_phonons.py:185-186 | a failed marking reports the failure of the first bad token |
| Normalizer.ParseDirection | tools/analyze_phonons.py:175-186 | absent gives the all-clear mask; three or more colons stop with "Invalid usage of --direction" before any token is read; otherwise success exactly when every token names a slot, and then a slot is set exactly when some token names it |
| Normalizer.DirectionOfAxes | tools/analyze_phonons.py:180-186 | `--direction` listing one to three axis numbers from 1..3 sets exactly the listed axes |
| Compiler.TemperatureSweep | tools/analyze_phonons.py:66-81 | `tau` without `--temp`: missing `--kpoint` or `--mode` stops first; then a colon in the k-point, then one in the mode; then `int(kpoint)`'s ValueError before `int(mode)`'s; success exactly when both read as integers, giving `TauTemperatureSweep(int(kpoint), int(mode))` |
| Compiler.SweepPoint | tools/analyze_phonons.py:72-78 | a colon in the k-point stops first, then a colon in the mode, then the k-point's ValueError, then the mode's; success exactly when both read as integers (a colon-bearing token never does), giving their values |
| Compiler.SweepCommand | tools/analyze_phonons.py:77-78 | the k-point is read as an integer before the mode, so its ValueError is reported first; success exactly when both read, carrying both values |
| Compiler.TauAtGivenTemperature | tools/analyze_phonons.py:86-116 | `tau` with `--temp`: the k-point range fails before the mode range; success carries both parsed ranges and the temperature string verbatim |
| Compiler.KpointWarning | tools/analyze_phonons.py:123-124 | the discard warning appears exactly when `--kpoint` is given |
| Compiler.ThermalConductivity | tools/analyze_phonons.py:121-140 | `kappa`: warning exactly when `--kpoint` is given; outcome decided by the mode range alone; success is `Kappa(mode range)` |
| Compiler.CumulativeConductivity | tools/analyze_phonons.py:145-191 | `cumulative`: missing `--temp` stops first with no warning; then the warning, then mode, length and direction failures in that order; success carries all three parsed values and the temperature |
| Compiler.Dispatch | tools/analyze_phonons.py:196-227 | an absent or unknown `--calc` stops with "Invalid --calc option given"; a successful command is of the kind the dispatch table selects, on the given file with the requested averaging |
| Compiler.Compile | tools/analyze_phonons.py:198-227 | unknown `--calc` stops with no warning; a successful list starts with the file, has `"0"` third exactly under `--noavg` and `"1"` otherwise; warnings only come with `--kpoint` under `kappa` or `cumulative` |
| Compiler.CompileDecodes | tools/analyze_phonons.py:207-224 | every successful list reads back as a command on the given file, with the requested averaging, of the kind `--calc`/`--temp` select |
| CompilerFacts.TauSweepArguments | tools/analyze_phonons.py:68-81 | `tau` without `--temp`: no warning; missing options, then the k-point colon, the mode colon, the k-point ValueError and the mode ValueError, in that order; a successful list is `[file, "tau_temp", avg, str(int(kpoint)), str(int(mode))]` |
| CompilerFacts.TauSweepOfInts | tools/analyze_phonons.py:77-81 | with `--kpoint=k --mode=s` for integers k, s the result is exactly `[file, "tau_temp", avg, k, s]` and no warning |
| CompilerFacts.TauAtTemperatureArguments | tools/analyze_phonons.py:88-116 | `tau` with `--temp=t`: the k-point error before the mode error; otherwise `[file, "tau", avg, beg_k, end_k, beg_s, end_s, t]` |
| CompilerFacts.TauAtTemperatureDefaults | tools/analyze_phonons.py:88-90 | `tau --temp=t` with no k-point or mode gives `[file, "tau", avg, "1", "0", "1", "0", t]` |
| CompilerFacts.KappaArguments | tools/analyze_phonons.py:123-140 | `kappa`: warning exactly when `--kpoint` is given; list `[file, "kappa", avg, beg_s, end_s]`; k-point, temperature, length and direction do not affect the outcome |
| CompilerFacts.CumulativeNeedsTemperature | tools/analyze_phonons.py:147-148 | `cumulative` without `--temp` stops with "--temp is necessary when --calc=cumulative" and no warning, whatever the other options are |
| CompilerFacts.CumulativeArguments | tools/analyze_phonons.py:150-191 | `cumulative --temp=t`: the warning, then mode, length and direction errors in that order; otherwise `[file, "cumulative", avg, beg_s, end_s, max_len, d_len, t, m0, m1, m2]` |
| CompilerFacts.CumulativeIgnoresKpoint | tools/analyze_phonons.py:150-151 | under `cumulative` the k-point affects only the warning, never the outcome |
| CompilerFacts.CumulativeDefaultSweep | tools/analyze_phonons.py:166-168 | with no mode and no length, the list carries the sentinel `"1", "0"` and the sweep `"1000.0", "1.0"` |
| CompilerFacts.CumulativeDefaults | tools/analyze_phonons.py:175-179 | with only `--temp` the list ends in the all-clear mask `"0", "0", "0"` |
| CompilerFacts.DirectionExample | tools/analyze_phonons.py:180-186 | `--direction=2:3` gives the mask (false, true, true) |
| CompilerFacts.CumulativeDirectionExample | tools/analyze_phonons.py:188-191 | `--calc=cumulative --temp=300 --direction=2:3` gives flags `"0", "1", "1"` |
| CompilerFacts.CumulativeOnlyOptions | tools/analyze_phonons.py:207-220 | `--length` and `--direction` have no effect unless `--calc=cumulative` |

## Left out

- Process launch: the engine path built from the script's directory
  (tools/analyze_phonons.py:62-63), the shell string and `subprocess.call(..., shell=True)`
  (lines 83, 118, 142, 193) are not modelled. The model returns the argument fields
  that the script joins with spaces. Shell word splitting and quoting of those fields
  (for example a temperature containing a space) are not modelled either.
- Option parsing: the `optparse` set-up and `args[0]` (lines 24-60) are not modelled.
  The options arrive as a record of `Option<string>` fields plus the `noavg` flag, and
  the result file as a string. The `IndexError` raised when no result file is given is
  outside the model.
- Output channels: `print` and `sys.exit` become the `warnings` list and `Exit`
  failures. Exit codes and the streams used are not modelled.
- Floating point: `float()` and `str(float)` for `--length` (lines 171, 189-190) are a
  caller-supplied function `floatRepr` that yields the rendering or `None` for
  `ValueError`. Only the default `"1000.0"`/`"1.0"` is fixed by the model.
- Integers.ParseInt: it accepts surrounding whitespace, one optional sign and decimal
  digits. Python 2 `int()` also allows whitespace between the sign and the digits.
  The model rejects that form instead.
- The engine's output, its exit status and the numerical analysis are outside this
  model.
- Determinism needs no lemma: every member is a pure function of its parameters.
