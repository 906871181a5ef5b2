/** The query compiler: picks one of the four engine operations from `--calc` and
    `--temp`, runs that operation's checks in the order the front end runs them,
    and assembles the engine's argument list. */
module Compiler {
  import opened Results
  import opened Text
  import opened Integers
  import opened Commands
  import opened Normalizer

  /** The raw option values; `calculation` is `--calc` and `noavg` is the `--noavg` flag. */
  datatype Options = Options(
    temp: Option<string>,
    mode: Option<string>,
    kpoint: Option<string>,
    calculation: Option<string>,
    noavg: bool,
    length: Option<string>,
    direction: Option<string>)

  const TempOrBoth: string :=
    "Please specify the temperature by --temp option, or specify both --kpoint and --mode when --calc=tau"
  const TempNecessary: string := "--temp is necessary when --calc=cumulative"
  const InvalidCalc: string := "Invalid --calc option given"
  const KpointDiscarded: string := "# Warning: --kpoint option is discarded"

  /** What the front end does before the engine runs: the warnings it prints, then
      the command to launch or the reason it stops. */
  datatype Plan = Plan(warnings: seq<string>, outcome: Result<Command, Failure>)

  /** The same, with the command rendered as the engine's argument list. */
  datatype Compilation = Compilation(warnings: seq<string>, outcome: Result<seq<string>, Failure>)

  /** The `--calc` value, when it names one of the three calculations. */
  predicate KnownCalc(o: Options) {
    o.calculation == Some("tau") || o.calculation == Some("kappa") || o.calculation == Some("cumulative")
  }

  /** The dispatch table: the engine operation each combination of `--calc` and
      `--temp` selects, with the temperature passed through as given. */
  predicate Selects(o: Options, q: Query) {
    match q
    case TauTemperatureSweep(_, _) => o.calculation == Some("tau") && o.temp.None?
    case TauAtTemperature(_, _, t) => o.calculation == Some("tau") && o.temp == Some(t)
    case Kappa(_) => o.calculation == Some("kappa")
    case Cumulative(_, _, t, _) => o.calculation == Some("cumulative") && o.temp == Some(t)
  }

  /** `--calc=tau` without `--temp`: the temperature dependence at one k-point and
      one mode. Both options are required, the k-point is checked for a colon before
      the mode is, and only then are the two read as integers. */
  function TemperatureSweep(o: Options, file: string): (r: Result<Command, Failure>)
    ensures o.kpoint.None? || o.mode.None? ==> r == Failure(Exit(TempOrBoth))
    ensures o.kpoint.Some? && o.mode.Some? && ':' in o.kpoint.value ==>
              r == Failure(Exit(InvalidUsage("kpoint", "tau")))
    ensures o.kpoint.Some? && o.mode.Some? && ':' !in o.kpoint.value && ':' in o.mode.value ==>
              r == Failure(Exit(InvalidUsage("mode", "tau")))
    ensures (o.kpoint.Some? && o.mode.Some? && ':' !in o.kpoint.value && ':' !in o.mode.value
             && ParseInt(o.kpoint.value).None?) ==>
              r == Failure(ValueError(o.kpoint.value))
    ensures (o.kpoint.Some? && o.mode.Some? && ':' !in o.kpoint.value && ':' !in o.mode.value
             && ParseInt(o.kpoint.value).Some? && ParseInt(o.mode.value).None?) ==>
              r == Failure(ValueError(o.mode.value))
    ensures r.Success? <==> o.kpoint.Some? && o.mode.Some?
                            && ParseInt(o.kpoint.value).Some? && ParseInt(o.mode.value).Some?
    ensures r.Success? ==> r.value == Command(file, !o.noavg,
              TauTemperatureSweep(ParseInt(o.kpoint.value).value, ParseInt(o.mode.value).value))
  {
    if o.kpoint.None? || o.mode.None? then Failure(Exit(TempOrBoth))
    else SweepPoint(o.kpoint.value, o.mode.value, file, !o.noavg)
  }

  /** The sweep's colon checks, k-point first, then its integer reading. */
  function SweepPoint(kpoint: string, mode: string, file: string, average: bool): (r: Result<Command, Failure>)
    ensures ':' in kpoint ==> r == Failure(Exit(InvalidUsage("kpoint", "tau")))
    ensures ':' !in kpoint && ':' in mode ==> r == Failure(Exit(InvalidUsage("mode", "tau")))
    ensures ':' !in kpoint && ':' !in mode && ParseInt(kpoint).None? ==> r == Failure(ValueError(kpoint))
    ensures ':' !in kpoint && ':' !in mode && ParseInt(kpoint).Some? && ParseInt(mode).None? ==>
              r == Failure(ValueError(mode))
    ensures r.Success? <==> ParseInt(kpoint).Some? && ParseInt(mode).Some?
    ensures r.Success? ==> r.value == Command(file, average,
              TauTemperatureSweep(ParseInt(kpoint).value, ParseInt(mode).value))
  {
    SplitSingle(kpoint);
    SplitSingle(mode);
    if |Split(kpoint)| != 1 then
      ColonNotInteger(kpoint);
      Failure(Exit(InvalidUsage("kpoint", "tau")))
    else if |Split(mode)| != 1 then
      ColonNotInteger(mode);
      Failure(Exit(InvalidUsage("mode", "tau")))
    else SweepCommand(kpoint, mode, file, average)
  }

  /** The integer reading of a sweep's k-point and mode, the k-point first. */
  function SweepCommand(kpoint: string, mode: string, file: string, average: bool): (r: Result<Command, Failure>)
    ensures ParseInt(kpoint).None? ==> r == Failure(ValueError(kpoint))
    ensures ParseInt(kpoint).Some? && ParseInt(mode).None? ==> r == Failure(ValueError(mode))
    ensures r.Success? <==> ParseInt(kpoint).Some? && ParseInt(mode).Some?
    ensures r.Success? ==> r.value == Command(file, average,
              TauTemperatureSweep(ParseInt(kpoint).value, ParseInt(mode).value))
  {
    var k :- ToInt(kpoint);
    var s :- ToInt(mode);
    Success(Command(file, average, TauTemperatureSweep(k, s)))
  }

  /** `--calc=tau` with `--temp`: lifetimes at that temperature over a k-point range
      and a mode range, each defaulting to the all-indices sentinel. The k-point is
      read before the mode; the temperature is passed on unread. */
  function TauAtGivenTemperature(o: Options, file: string, temp: string): (r: Result<Command, Failure>)
    ensures ParseRange(o.kpoint, "kpoint", "tau").Failure? ==>
              r == Failure(ParseRange(o.kpoint, "kpoint", "tau").error)
    ensures ParseRange(o.kpoint, "kpoint", "tau").Success? && ParseRange(o.mode, "mode", "tau").Failure? ==>
              r == Failure(ParseRange(o.mode, "mode", "tau").error)
    ensures r.Success? ==> r.value.resultFile == file && r.value.average == !o.noavg
    ensures r.Success? ==> r.value.query.TauAtTemperature? && r.value.query.temp == temp
    ensures r.Success? ==>
              && Success(r.value.query.kpoints) == ParseRange(o.kpoint, "kpoint", "tau")
              && Success(r.value.query.modes) == ParseRange(o.mode, "mode", "tau")
  {
    var kpoints :- ParseRange(o.kpoint, "kpoint", "tau");
    var modes :- ParseRange(o.mode, "mode", "tau");
    Success(Command(file, !o.noavg, TauAtTemperature(kpoints, modes, temp)))
  }

  /** The warning printed when `--kpoint` is given to a calculation that ignores it. */
  function KpointWarning(o: Options): (w: seq<string>)
    ensures w != [] <==> o.kpoint.Some?
    ensures forall i :: 0 <= i < |w| ==> w[i] == KpointDiscarded
  {
    if o.kpoint.Some? then [KpointDiscarded] else []
  }

  /** `--calc=kappa`: thermal conductivity over a mode range. A given `--kpoint` only
      draws a warning, printed before the mode is read. */
  function ThermalConductivity(o: Options, file: string): (p: Plan)
    ensures p.warnings == KpointWarning(o)
    ensures p.outcome.Success? <==> ParseRange(o.mode, "mode", "kappa").Success?
    ensures p.outcome.Failure? ==> p.outcome.error == ParseRange(o.mode, "mode", "kappa").error
    ensures p.outcome.Success? ==> p.outcome.value == Command(file, !o.noavg, Kappa(ParseRange(o.mode, "mode", "kappa").value))
  {
    Plan(KpointWarning(o),
      var modes :- ParseRange(o.mode, "mode", "kappa");
      Success(Command(file, !o.noavg, Kappa(modes))))
  }

  /** `--calc=cumulative`: requires `--temp` before anything else is looked at; then
      the k-point warning, then the mode range, the length sweep and the direction
      mask, each read only once the previous one was accepted. */
  function CumulativeConductivity(o: Options, file: string, floatRepr: FloatRepr): (p: Plan)
    ensures o.temp.None? ==> p == Plan([], Failure(Exit(TempNecessary)))
    ensures o.temp.Some? ==> p.warnings == KpointWarning(o)
    ensures o.temp.Some? && ParseRange(o.mode, "mode", "cumulative").Failure? ==>
              p.outcome == Failure(ParseRange(o.mode, "mode", "cumulative").error)
    ensures o.temp.Some? && ParseRange(o.mode, "mode", "cumulative").Success?
            && ParseLength(o.length, floatRepr).Failure? ==>
              p.outcome == Failure(ParseLength(o.length, floatRepr).error)
    ensures o.temp.Some? && ParseRange(o.mode, "mode", "cumulative").Success?
            && ParseLength(o.length, floatRepr).Success? && ParseDirection(o.direction).Failure? ==>
              p.outcome == Failure(ParseDirection(o.direction).error)
    ensures p.outcome.Success? ==>
              && o.temp.Some?
              && ParseRange(o.mode, "mode", "cumulative").Success?
              && ParseLength(o.length, floatRepr).Success?
              && ParseDirection(o.direction).Success?
              && p.outcome.value == Command(file, !o.noavg, Cumulative(
                   ParseRange(o.mode, "mode", "cumulative").value,
                   ParseLength(o.length, floatRepr).value,
                   o.temp.value,
                   ParseDirection(o.direction).value))
  {
    match o.temp
    case None => Plan([], Failure(Exit(TempNecessary)))
    case Some(temp) =>
      Plan(KpointWarning(o),
        var modes :- ParseRange(o.mode, "mode", "cumulative");
        var length :- ParseLength(o.length, floatRepr);
        var axes :- ParseDirection(o.direction);
        Success(Command(file, !o.noavg, Cumulative(modes, length, temp, axes))))
  }

  /** The `__main__` dispatch on `--calc`, and on `--temp` for `tau`. */
  function Dispatch(o: Options, file: string, floatRepr: FloatRepr): (p: Plan)
    ensures !KnownCalc(o) ==> p == Plan([], Failure(Exit(InvalidCalc)))
    ensures p.outcome.Success? ==> KnownCalc(o) && Selects(o, p.outcome.value.query)
    ensures p.outcome.Success? ==> p.outcome.value.resultFile == file && p.outcome.value.average == !o.noavg
    ensures p.warnings != [] ==> o.kpoint.Some? && (o.calculation == Some("kappa") || (o.calculation == Some("cumulative") && o.temp.Some?))
  {
    if o.calculation == Some("tau") then
      match o.temp
      case None => Plan([], TemperatureSweep(o, file))
      case Some(temp) => Plan([], TauAtGivenTemperature(o, file, temp))
    else if o.calculation == Some("kappa") then ThermalConductivity(o, file)
    else if o.calculation == Some("cumulative") then CumulativeConductivity(o, file, floatRepr)
    else Plan([], Failure(Exit(InvalidCalc)))
  }

  /** The whole front end: warnings, then either the engine's argument list or the
      reason for stopping. A successful list names the result file first and the
      averaging flag third. */
  function Compile(o: Options, file: string, floatRepr: FloatRepr): (c: Compilation)
    ensures !KnownCalc(o) ==> c == Compilation([], Failure(Exit(InvalidCalc)))
    ensures c.outcome.Success? ==> |c.outcome.value| >= 3 && c.outcome.value[0] == file
    ensures c.outcome.Success? ==> c.outcome.value[2] == (if o.noavg then "0" else "1")
    ensures c.warnings != [] ==> o.kpoint.Some? && (o.calculation == Some("kappa") || o.calculation == Some("cumulative"))
  {
    Render(Dispatch(o, file, floatRepr))
  }

  /** A plan with its command rendered as the engine's argument list. */
  function Render(p: Plan): Compilation {
    Compilation(p.warnings,
      match p.outcome
      case Success(command) => Success(Arguments(command))
      case Failure(e) => Failure(e))
  }

  /** `Decode` reads every successful argument list back as a command on the given
      result file, of the kind the dispatch table selects for these options, with
      the averaging the options ask for. */
  lemma CompileDecodes(o: Options, file: string, floatRepr: FloatRepr)
    ensures Compile(o, file, floatRepr).outcome.Success? ==>
            var argv := Compile(o, file, floatRepr).outcome.value;
            && Decode(argv).Some?
            && Decode(argv).value.resultFile == file
            && Decode(argv).value.average == !o.noavg
            && Selects(o, Decode(argv).value.query)
  {
    var p := Dispatch(o, file, floatRepr);
    if p.outcome.Success? {
      DecodeArguments(p.outcome.value);
    }
  }
}
