/** The normalized query and the positional argument list handed to the
    `analyze_phonons` engine, together with a reader of that list that inverts it. */
module Commands {
  import opened Results
  import opened Integers

  /** An inclusive index range. `begin == end` is a single index; the sentinel
      `AllIndices` (end < begin) asks the engine for every index. */
  datatype Range = Range(begin: int, end: int)

  const AllIndices: Range := Range(1, 0)

  /** The system-size sweep of a cumulative calculation, as the rendered `str(float)`
      strings of its maximum length and its step (nm). */
  datatype LengthSweep = LengthSweep(maxLength: string, step: string)

  const DefaultLength: LengthSweep := LengthSweep("1000.0", "1.0")

  /** Which of the x, y, z axes take part in the size-effect sweep. */
  type Mask = m: seq<bool> | |m| == 3 witness [false, false, false]

  const NoAxes: Mask := [false, false, false]

  /** The four engine operations. */
  datatype Query =
    | TauTemperatureSweep(kpoint: int, mode: int)
    | TauAtTemperature(kpoints: Range, modes: Range, temp: string)
    | Kappa(modes: Range)
    | Cumulative(modes: Range, length: LengthSweep, temp: string, axes: Mask)

  /** A complete engine invocation. */
  datatype Command = Command(resultFile: string, average: bool, query: Query)

  /** The operation name the engine reads in its second argument. */
  function ModeToken(q: Query): string {
    match q
    case TauTemperatureSweep(_, _) => "tau_temp"
    case TauAtTemperature(_, _, _) => "tau"
    case Kappa(_) => "kappa"
    case Cumulative(_, _, _, _) => "cumulative"
  }

  /** `"1"` for set, `"0"` for clear: the averaging flag and the axis flags. */
  function Flag(b: bool): string {
    if b then "1" else "0"
  }

  function RangeArguments(r: Range): seq<string> {
    [IntToString(r.begin), IntToString(r.end)]
  }

  /** The operation-specific positional arguments, in the engine's order. */
  function QueryArguments(q: Query): seq<string> {
    match q
    case TauTemperatureSweep(k, s) => [IntToString(k), IntToString(s)]
    case TauAtTemperature(ks, ss, t) => RangeArguments(ks) + RangeArguments(ss) + [t]
    case Kappa(ss) => RangeArguments(ss)
    case Cumulative(ss, len, t, axes) =>
      RangeArguments(ss) + [len.maxLength, len.step, t, Flag(axes[0]), Flag(axes[1]), Flag(axes[2])]
  }

  /** The engine's argument list: result file, operation name, averaging flag, then
      the operation's own arguments. Each operation has its own fixed arity. */
  function Arguments(c: Command): (argv: seq<string>)
    ensures |argv| >= 3 && argv[0] == c.resultFile && argv[1] == ModeToken(c.query)
    ensures argv[2] == (if c.average then "1" else "0")
    ensures |argv| == match c.query
      case TauTemperatureSweep(_, _) => 5
      case TauAtTemperature(_, _, _) => 8
      case Kappa(_) => 5
      case Cumulative(_, _, _, _) => 11
  {
    [c.resultFile, ModeToken(c.query), Flag(c.average)] + QueryArguments(c.query)
  }

  /** The cumulative argument list, slot by slot. */
  lemma CumulativeArgumentList(c: Command)
    requires c.query.Cumulative?
    ensures var q := c.query;
            Arguments(c) == [c.resultFile, "cumulative", Flag(c.average),
                             IntToString(q.modes.begin), IntToString(q.modes.end),
                             q.length.maxLength, q.length.step, q.temp,
                             Flag(q.axes[0]), Flag(q.axes[1]), Flag(q.axes[2])]
  {
  }

  /** The argument list of a temperature sweep, slot by slot. */
  lemma SweepArgumentList(c: Command)
    requires c.query.TauTemperatureSweep?
    ensures Arguments(c) == [c.resultFile, "tau_temp", Flag(c.average),
                             IntToString(c.query.kpoint), IntToString(c.query.mode)]
  {
  }

  /** The argument list of a lifetime query at one temperature, slot by slot. */
  lemma TauArgumentList(c: Command)
    requires c.query.TauAtTemperature?
    ensures var q := c.query;
            Arguments(c) == [c.resultFile, "tau", Flag(c.average),
                             IntToString(q.kpoints.begin), IntToString(q.kpoints.end),
                             IntToString(q.modes.begin), IntToString(q.modes.end), q.temp]
  {
  }

  function DecodeFlag(s: string): Option<bool> {
    if s == "1" then Some(true) else if s == "0" then Some(false) else None
  }

  function DecodeMask(x: string, y: string, z: string): Option<Mask> {
    var fx :- DecodeFlag(x);
    var fy :- DecodeFlag(y);
    var fz :- DecodeFlag(z);
    Some([fx, fy, fz])
  }

  function DecodeRange(b: string, e: string): Option<Range> {
    var begin :- ParseInt(b);
    var end :- ParseInt(e);
    Some(Range(begin, end))
  }

  /** A reader of argument lists, by operation name and position: the left inverse
      of `Arguments` (see `DecodeArguments`). */
  function Decode(argv: seq<string>): Option<Command> {
    if |argv| < 3 then None
    else
      var average :- DecodeFlag(argv[2]);
      var query :- DecodeQuery(argv[1], argv[3..]);
      Some(Command(argv[0], average, query))
  }

  /** The operation named by `token`, read from its own positional arguments. */
  function DecodeQuery(token: string, args: seq<string>): Option<Query> {
    if token == "tau_temp" then DecodeSweep(args)
    else if token == "tau" then DecodeTau(args)
    else if token == "kappa" then DecodeKappaQuery(args)
    else if token == "cumulative" then DecodeCumulativeQuery(args)
    else None
  }

  function DecodeSweep(args: seq<string>): Option<Query> {
    if |args| != 2 then None
    else
      var k :- ParseInt(args[0]);
      var s :- ParseInt(args[1]);
      Some(TauTemperatureSweep(k, s))
  }

  function DecodeTau(args: seq<string>): Option<Query> {
    if |args| != 5 then None
    else
      var ks :- DecodeRange(args[0], args[1]);
      var ss :- DecodeRange(args[2], args[3]);
      Some(TauAtTemperature(ks, ss, args[4]))
  }

  function DecodeKappaQuery(args: seq<string>): Option<Query> {
    if |args| != 2 then None
    else
      var ss :- DecodeRange(args[0], args[1]);
      Some(Kappa(ss))
  }

  function DecodeCumulativeQuery(args: seq<string>): Option<Query> {
    if |args| != 8 then None
    else
      var ss :- DecodeRange(args[0], args[1]);
      var axes :- DecodeMask(args[5], args[6], args[7]);
      Some(Cumulative(ss, LengthSweep(args[2], args[3]), args[4], axes))
  }

  lemma DecodeRangeArguments(r: Range)
    ensures DecodeRange(IntToString(r.begin), IntToString(r.end)) == Some(r)
  {
    ParseIntRoundTrip(r.begin);
    ParseIntRoundTrip(r.end);
  }

  lemma DecodeFlagRoundTrip(b: bool)
    ensures DecodeFlag(Flag(b)) == Some(b)
  {
  }

  /** `DecodeQuery` recovers each operation from its name and own arguments. */
  lemma DecodeQueryArguments(q: Query)
    ensures DecodeQuery(ModeToken(q), QueryArguments(q)) == Some(q)
  {
    if q.TauTemperatureSweep? {
      DecodeSweepQuery(q);
    } else if q.TauAtTemperature? {
      DecodeTauQuery(q);
    } else if q.Kappa? {
      DecodeKappaOf(q);
    } else {
      DecodeCumulativeOf(q);
    }
  }

  lemma DecodeSweepQuery(q: Query)
    requires q.TauTemperatureSweep?
    ensures DecodeQuery(ModeToken(q), QueryArguments(q)) == Some(q)
  {
    assert DecodeQuery(ModeToken(q), QueryArguments(q)) == DecodeSweep(QueryArguments(q));
    DecodeTauTemperatureSweep(q.kpoint, q.mode);
  }

  lemma DecodeTauQuery(q: Query)
    requires q.TauAtTemperature?
    ensures DecodeQuery(ModeToken(q), QueryArguments(q)) == Some(q)
  {
    assert DecodeQuery(ModeToken(q), QueryArguments(q)) == DecodeTau(QueryArguments(q));
    DecodeTauAtTemperature(q.kpoints, q.modes, q.temp);
  }

  lemma DecodeKappaOf(q: Query)
    requires q.Kappa?
    ensures DecodeQuery(ModeToken(q), QueryArguments(q)) == Some(q)
  {
    assert DecodeQuery(ModeToken(q), QueryArguments(q)) == DecodeKappaQuery(QueryArguments(q));
    DecodeKappa(q.modes);
  }

  lemma DecodeCumulativeOf(q: Query)
    requires q.Cumulative?
    ensures DecodeQuery(ModeToken(q), QueryArguments(q)) == Some(q)
  {
    assert DecodeQuery(ModeToken(q), QueryArguments(q)) == DecodeCumulativeQuery(QueryArguments(q));
    DecodeCumulative(q.modes, q.length, q.temp, q.axes);
  }

  lemma DecodeTauTemperatureSweep(k: int, s: int)
    ensures DecodeSweep([IntToString(k), IntToString(s)]) == Some(TauTemperatureSweep(k, s))
  {
    ParseIntRoundTrip(k);
    ParseIntRoundTrip(s);
  }

  lemma DecodeKappa(ss: Range)
    ensures DecodeKappaQuery(RangeArguments(ss)) == Some(Kappa(ss))
  {
    var args := RangeArguments(ss);
    assert |args| == 2 && args[0] == IntToString(ss.begin) && args[1] == IntToString(ss.end);
    DecodeRangeArguments(ss);
  }

  lemma DecodeTauAtTemperature(ks: Range, ss: Range, t: string)
    ensures DecodeTau(RangeArguments(ks) + RangeArguments(ss) + [t]) == Some(TauAtTemperature(ks, ss, t))
  {
    var args := RangeArguments(ks) + RangeArguments(ss) + [t];
    assert |args| == 5;
    assert args[0] == IntToString(ks.begin) && args[1] == IntToString(ks.end);
    assert args[2] == IntToString(ss.begin) && args[3] == IntToString(ss.end);
    assert args[4] == t;
    DecodeRangeArguments(ks);
    DecodeRangeArguments(ss);
  }

  lemma DecodeCumulative(ss: Range, len: LengthSweep, t: string, axes: Mask)
    ensures DecodeCumulativeQuery(QueryArguments(Cumulative(ss, len, t, axes)))
         == Some(Cumulative(ss, len, t, axes))
  {
    var args := QueryArguments(Cumulative(ss, len, t, axes));
    assert |args| == 8;
    assert args[0] == IntToString(ss.begin) && args[1] == IntToString(ss.end);
    assert args[2] == len.maxLength && args[3] == len.step && args[4] == t;
    assert args[5] == Flag(axes[0]) && args[6] == Flag(axes[1]) && args[7] == Flag(axes[2]);
    DecodeRangeArguments(ss);
    DecodeMaskRoundTrip(axes);
  }

  lemma DecodeMaskRoundTrip(axes: Mask)
    ensures DecodeMask(Flag(axes[0]), Flag(axes[1]), Flag(axes[2])) == Some(axes)
  {
    DecodeFlagRoundTrip(axes[0]);
    DecodeFlagRoundTrip(axes[1]);
    DecodeFlagRoundTrip(axes[2]);
    assert [axes[0], axes[1], axes[2]] == axes;
  }

  /** `Decode` is a left inverse of `Arguments`: every field of a command survives
      the trip through the argument list. */
  lemma DecodeArguments(c: Command)
    ensures Decode(Arguments(c)) == Some(c)
  {
    var argv := Arguments(c);
    assert argv[3..] == QueryArguments(c.query);
    DecodeFlagRoundTrip(c.average);
    DecodeQueryArguments(c.query);
  }

  /** Two different commands never produce the same argument list. */
  lemma ArgumentsInjective(c1: Command, c2: Command)
    requires Arguments(c1) == Arguments(c2)
    ensures c1 == c2
  {
    DecodeArguments(c1);
    DecodeArguments(c2);
  }
}
