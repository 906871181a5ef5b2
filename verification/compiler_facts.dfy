/** What each dispatch branch of the compiler hands to the engine, stated on the
    argument list itself, and the order in which each branch's checks fire. */
module CompilerFacts {
  import opened Results
  import opened Text
  import opened Integers
  import opened Commands
  import opened Normalizer
  import opened Compiler

  /** `--calc=tau` without `--temp`: both `--kpoint` and `--mode` are required (checked
      first), then neither may hold a colon (k-point first), then both must be
      integers; the list is `[file, "tau_temp", avg, str(int(kpoint)), str(int(mode))]`. */
  lemma TauSweepArguments(o: Options, file: string, floatRepr: FloatRepr)
    requires o.calculation == Some("tau") && o.temp.None?
    ensures Compile(o, file, floatRepr).warnings == []
    ensures o.kpoint.None? || o.mode.None? ==>
              Compile(o, file, floatRepr).outcome == Failure(Exit(TempOrBoth))
    ensures o.kpoint.Some? && o.mode.Some? && ':' in o.kpoint.value ==>
              Compile(o, file, floatRepr).outcome == Failure(Exit(InvalidUsage("kpoint", "tau")))
    ensures o.kpoint.Some? && o.mode.Some? && ':' !in o.kpoint.value && ':' in o.mode.value ==>
              Compile(o, file, floatRepr).outcome == Failure(Exit(InvalidUsage("mode", "tau")))
    ensures (o.kpoint.Some? && o.mode.Some? && ':' !in o.kpoint.value && ':' !in o.mode.value
             && ParseInt(o.kpoint.value).None?) ==>
              Compile(o, file, floatRepr).outcome == Failure(ValueError(o.kpoint.value))
    ensures (o.kpoint.Some? && o.mode.Some? && ':' !in o.kpoint.value && ':' !in o.mode.value
             && ParseInt(o.kpoint.value).Some? && ParseInt(o.mode.value).None?) ==>
              Compile(o, file, floatRepr).outcome == Failure(ValueError(o.mode.value))
    ensures Compile(o, file, floatRepr).outcome.Success? ==>
              && o.kpoint.Some? && o.mode.Some?
              && ParseInt(o.kpoint.value).Some? && ParseInt(o.mode.value).Some?
              && Compile(o, file, floatRepr).outcome.value ==
                   [file, "tau_temp", Flag(!o.noavg),
                    IntToString(ParseInt(o.kpoint.value).value), IntToString(ParseInt(o.mode.value).value)]
  {
    var r := TemperatureSweep(o, file);
    assert Compile(o, file, floatRepr) == Render(Plan([], r));
    if r.Success? {
      SweepArgumentList(r.value);
    }
  }

  /** `--calc=tau --kpoint=k --mode=s` with integers k, s gives exactly
      `[file, "tau_temp", avg, k, s]`. */
  lemma TauSweepOfInts(o: Options, file: string, floatRepr: FloatRepr, k: int, s: int)
    requires o.calculation == Some("tau") && o.temp.None?
    requires o.kpoint == Some(IntToString(k)) && o.mode == Some(IntToString(s))
    ensures Compile(o, file, floatRepr) ==
              Compilation([], Success([file, "tau_temp", Flag(!o.noavg), IntToString(k), IntToString(s)]))
  {
    ParseIntRoundTrip(k);
    ParseIntRoundTrip(s);
    TauSweepArguments(o, file, floatRepr);
  }

  /** `--calc=tau --temp=t`: the k-point range is read before the mode range, and the
      list is `[file, "tau", avg, beg_k, end_k, beg_s, end_s, t]` with `t` verbatim. */
  lemma TauAtTemperatureArguments(o: Options, file: string, floatRepr: FloatRepr)
    requires o.calculation == Some("tau") && o.temp.Some?
    ensures Compile(o, file, floatRepr).warnings == []
    ensures ParseRange(o.kpoint, "kpoint", "tau").Failure? ==>
              Compile(o, file, floatRepr).outcome == Failure(ParseRange(o.kpoint, "kpoint", "tau").error)
    ensures ParseRange(o.kpoint, "kpoint", "tau").Success? && ParseRange(o.mode, "mode", "tau").Failure? ==>
              Compile(o, file, floatRepr).outcome == Failure(ParseRange(o.mode, "mode", "tau").error)
    ensures ParseRange(o.kpoint, "kpoint", "tau").Success? && ParseRange(o.mode, "mode", "tau").Success? ==>
              var ks, ss := ParseRange(o.kpoint, "kpoint", "tau").value, ParseRange(o.mode, "mode", "tau").value;
              Compile(o, file, floatRepr).outcome == Success(
                [file, "tau", Flag(!o.noavg), IntToString(ks.begin), IntToString(ks.end),
                 IntToString(ss.begin), IntToString(ss.end), o.temp.value])
  {
    var t := o.temp.value;
    var r := TauAtGivenTemperature(o, file, t);
    assert Compile(o, file, floatRepr) == Render(Plan([], r));
    var kpoints := ParseRange(o.kpoint, "kpoint", "tau");
    var modes := ParseRange(o.mode, "mode", "tau");
    if kpoints.Success? && modes.Success? {
      var command := Command(file, !o.noavg, TauAtTemperature(kpoints.value, modes.value, t));
      assert r == Success(command);
      TauArgumentList(command);
    }
  }

  /** `--calc=tau --temp=t` with neither `--kpoint` nor `--mode` asks for every
      k-point and every mode: `[file, "tau", avg, "1", "0", "1", "0", t]`. */
  lemma TauAtTemperatureDefaults(o: Options, file: string, floatRepr: FloatRepr)
    requires o.calculation == Some("tau") && o.temp.Some? && o.kpoint.None? && o.mode.None?
    ensures Compile(o, file, floatRepr) ==
              Compilation([], Success([file, "tau", Flag(!o.noavg), "1", "0", "1", "0", o.temp.value]))
  {
    TauAtTemperatureArguments(o, file, floatRepr);
    assert ParseRange(o.kpoint, "kpoint", "tau") == Success(AllIndices);
    assert ParseRange(o.mode, "mode", "tau") == Success(AllIndices);
    assert RangeArguments(AllIndices) == ["1", "0"];
    assert [file, "tau", Flag(!o.noavg)] + ["1", "0"] + ["1", "0"] + [o.temp.value]
        == [file, "tau", Flag(!o.noavg), "1", "0", "1", "0", o.temp.value];
  }

  /** `--calc=kappa`: a given `--kpoint` draws the warning and nothing else; the list
      is `[file, "kappa", avg, beg_s, end_s]`, and neither the k-point, the
      temperature, the length nor the direction has any effect on the outcome. */
  lemma KappaArguments(o: Options, file: string, floatRepr: FloatRepr)
    requires o.calculation == Some("kappa")
    ensures Compile(o, file, floatRepr).warnings == (if o.kpoint.Some? then [KpointDiscarded] else [])
    ensures ParseRange(o.mode, "mode", "kappa").Failure? ==>
              Compile(o, file, floatRepr).outcome == Failure(ParseRange(o.mode, "mode", "kappa").error)
    ensures ParseRange(o.mode, "mode", "kappa").Success? ==>
              Compile(o, file, floatRepr).outcome == Success(
                [file, "kappa", Flag(!o.noavg)] + RangeArguments(ParseRange(o.mode, "mode", "kappa").value))
    ensures Compile(o, file, floatRepr).outcome ==
              Compile(o.(kpoint := None, temp := None, length := None, direction := None), file, floatRepr).outcome
  {
  }

  /** `--calc=cumulative` without `--temp` stops with the temperature message before
      anything else is looked at, whatever the other options hold. */
  lemma CumulativeNeedsTemperature(o: Options, file: string, floatRepr: FloatRepr)
    requires o.calculation == Some("cumulative") && o.temp.None?
    ensures Compile(o, file, floatRepr) == Compilation([], Failure(Exit(TempNecessary)))
  {
  }

  /** `--calc=cumulative --temp=t`: after the k-point warning, the mode range, the
      length sweep and the direction mask are read in that order, and the list is
      `[file, "cumulative", avg, beg_s, end_s, max_len, d_len, t, m0, m1, m2]`. */
  lemma CumulativeArguments(o: Options, file: string, floatRepr: FloatRepr)
    requires o.calculation == Some("cumulative") && o.temp.Some?
    ensures Compile(o, file, floatRepr).warnings == (if o.kpoint.Some? then [KpointDiscarded] else [])
    ensures ParseRange(o.mode, "mode", "cumulative").Failure? ==>
              Compile(o, file, floatRepr).outcome == Failure(ParseRange(o.mode, "mode", "cumulative").error)
    ensures ParseRange(o.mode, "mode", "cumulative").Success? && ParseLength(o.length, floatRepr).Failure? ==>
              Compile(o, file, floatRepr).outcome == Failure(ParseLength(o.length, floatRepr).error)
    ensures ParseRange(o.mode, "mode", "cumulative").Success? && ParseLength(o.length, floatRepr).Success?
            && ParseDirection(o.direction).Failure? ==>
              Compile(o, file, floatRepr).outcome == Failure(ParseDirection(o.direction).error)
    ensures ParseRange(o.mode, "mode", "cumulative").Success? && ParseLength(o.length, floatRepr).Success?
            && ParseDirection(o.direction).Success? ==>
              var length := ParseLength(o.length, floatRepr).value;
              var axes := ParseDirection(o.direction).value;
              Compile(o, file, floatRepr).outcome == Success(
                [file, "cumulative", Flag(!o.noavg)]
                + RangeArguments(ParseRange(o.mode, "mode", "cumulative").value)
                + [length.maxLength, length.step, o.temp.value, Flag(axes[0]), Flag(axes[1]), Flag(axes[2])])
  {
    var p := CumulativeConductivity(o, file, floatRepr);
    assert Dispatch(o, file, floatRepr) == p;
    var modes := ParseRange(o.mode, "mode", "cumulative");
    var length := ParseLength(o.length, floatRepr);
    var axes := ParseDirection(o.direction);
    if modes.Success? && length.Success? && axes.Success? {
      var command := Command(file, !o.noavg, Cumulative(modes.value, length.value, o.temp.value, axes.value));
      assert p.outcome == Success(command);
      assert Arguments(command) == [file, "cumulative", Flag(!o.noavg)]
        + RangeArguments(modes.value)
        + [length.value.maxLength, length.value.step, o.temp.value,
           Flag(axes.value[0]), Flag(axes.value[1]), Flag(axes.value[2])];
    }
  }

  /** Under `--calc=cumulative` the k-point only decides the warning: the outcome is
      the same as without it. */
  lemma CumulativeIgnoresKpoint(o: Options, file: string, floatRepr: FloatRepr)
    requires o.calculation == Some("cumulative")
    ensures Compile(o, file, floatRepr).outcome == Compile(o.(kpoint := None), file, floatRepr).outcome
  {
    assert Dispatch(o, file, floatRepr).outcome == Dispatch(o.(kpoint := None), file, floatRepr).outcome;
  }

  /** `--calc=cumulative --temp=t` with an accepted `--direction` and no mode or
      length: every mode and the default sweep (1000.0, 1.0). */
  lemma CumulativeDefaultSweep(o: Options, file: string, floatRepr: FloatRepr)
    requires o.calculation == Some("cumulative") && o.temp.Some?
    requires o.mode.None? && o.length.None?
    ensures ParseDirection(o.direction).Success? ==>
            var axes := ParseDirection(o.direction).value;
            Compile(o, file, floatRepr).outcome == Success(
              [file, "cumulative", Flag(!o.noavg), "1", "0", "1000.0", "1.0", o.temp.value,
               Flag(axes[0]), Flag(axes[1]), Flag(axes[2])])
  {
    if ParseDirection(o.direction).Success? {
      var axes := ParseDirection(o.direction).value;
      assert ParseRange(o.mode, "mode", "cumulative") == Success(AllIndices);
      assert ParseLength(o.length, floatRepr) == Success(DefaultLength);
      var command := Command(file, !o.noavg, Cumulative(AllIndices, DefaultLength, o.temp.value, axes));
      assert Dispatch(o, file, floatRepr).outcome == Success(command);
      assert IntToString(1) == "1" && IntToString(0) == "0";
      CumulativeArgumentList(command);
      assert Compile(o, file, floatRepr).outcome == Success(Arguments(command));
    }
  }

  /** `--calc=cumulative --temp=t` with nothing else: every mode, the default sweep
      and no axis. */
  lemma CumulativeDefaults(o: Options, file: string, floatRepr: FloatRepr)
    requires o.calculation == Some("cumulative") && o.temp.Some?
    requires o.mode.None? && o.length.None? && o.direction.None?
    ensures Compile(o, file, floatRepr).outcome == Success(
              [file, "cumulative", Flag(!o.noavg), "1", "0", "1000.0", "1.0", o.temp.value, "0", "0", "0"])
  {
    assert ParseDirection(o.direction) == Success(NoAxes);
    CumulativeDefaultSweep(o, file, floatRepr);
  }

  /** `--direction=2:3` selects the y and z axes. */
  lemma DirectionExample()
    ensures ParseDirection(Some("2:3")) == Success([false, true, true])
  {
    var axes := [2, 3];
    assert IntToString(2) == "2" && IntToString(3) == "3";
    assert AxisTokens(axes) == ["2", "3"];
    assert Join(["2", "3"]) == "2:3";
    DirectionOfAxes(axes);
  }

  /** `--calc=cumulative --temp=300 --direction=2:3` sets the y and z flags only. */
  lemma CumulativeDirectionExample(o: Options, file: string, floatRepr: FloatRepr)
    requires o.calculation == Some("cumulative") && o.temp == Some("300")
    requires o.mode.None? && o.length.None? && o.direction == Some("2:3")
    ensures Compile(o, file, floatRepr).outcome == Success(
              [file, "cumulative", Flag(!o.noavg), "1", "0", "1000.0", "1.0", "300", "0", "1", "1"])
  {
    DirectionExample();
    CumulativeDefaultSweep(o, file, floatRepr);
  }

  /** `--length` and `--direction` only matter to `--calc=cumulative`. */
  lemma CumulativeOnlyOptions(o: Options, file: string, floatRepr: FloatRepr)
    requires o.calculation != Some("cumulative")
    ensures Compile(o, file, floatRepr) == Compile(o.(length := None, direction := None), file, floatRepr)
  {
  }
}
