/** The option normalizer: `--kpoint`/`--mode` ranges, the `--length` sweep and the
    `--direction` axis mask, each parsed from its raw option string or rejected. */
module Normalizer {
  import opened Results
  import opened Text
  import opened Integers
  import opened Commands

  /** Why an invocation stops before the engine is launched: `sys.exit` with a
      message, or an exception escaping `int()`/`float()` or a list index. */
  datatype Failure =
    | Exit(message: string)
    | ValueError(token: string)
    | IndexError(token: string)

  /** `str(float(token))`, or `None` where `float` raises `ValueError`. Floating
      point parsing and rendering is outside this model and is supplied by the caller. */
  type FloatRepr = string -> Option<string>

  function InvalidUsage(option: string, kind: string): string {
    "Invalid usage of --" + option + " for --calc=" + kind
  }

  const InvalidLength: string := "Invalid usage of --length option"
  const InvalidDirection: string := "Invalid usage of --direction"

  /** `int(token)`, failing with `ValueError(token)`. */
  function ToInt(token: string): (r: Result<int, Failure>)
    ensures r.Success? <==> ParseInt(token).Some?
    ensures r.Success? ==> r.value == ParseInt(token).value
    ensures r.Failure? ==> r.error == ValueError(token)
    ensures ':' in token ==> r == Failure(ValueError(token))
  {
    ColonNotInteger(token);
    match ParseInt(token)
    case Some(n) => Success(n)
    case None => Failure(ValueError(token))
  }

  /** `int()` reads a rendered integer back, whatever whitespace surrounds it. */
  lemma ToIntRoundTrip(n: int, pre: string, post: string)
    requires forall k :: 0 <= k < |pre| ==> IsSpace(pre[k])
    requires forall k :: 0 <= k < |post| ==> IsSpace(post[k])
    ensures ToInt(pre + IntToString(n) + post) == Success(n)
  {
    ParseIntPadded(n, pre, post);
  }

  /** `str(float(token))`, failing with `ValueError(token)`. */
  function ToFloat(floatRepr: FloatRepr, token: string): (r: Result<string, Failure>)
    ensures r.Success? <==> floatRepr(token).Some?
    ensures r.Success? ==> r.value == floatRepr(token).value
    ensures r.Failure? ==> r.error == ValueError(token)
  {
    match floatRepr(token)
    case Some(x) => Success(x)
    case None => Failure(ValueError(token))
  }

  /** A `--kpoint` or `--mode` value used under `--calc=kind`. Absent gives the
      all-indices sentinel; a scalar gives a one-index range; more than one colon
      is rejected with a message naming the option and the calculation. */
  function ParseRange(raw: Option<string>, option: string, kind: string): (r: Result<Range, Failure>)
    ensures raw.None? ==> r == Success(AllIndices)
    ensures raw.Some? && Colons(raw.value) >= 2 ==> r == Failure(Exit(InvalidUsage(option, kind)))
    ensures raw.Some? && ':' !in raw.value ==>
              (r.Success? <==> ParseInt(raw.value).Some?)
              && (r.Success? ==> r.value.begin == r.value.end == ParseInt(raw.value).value)
              && (r.Failure? ==> r.error == ValueError(raw.value))
    ensures raw.Some? && r.Success? ==> Colons(raw.value) <= 1
  {
    match raw
    case None => Success(AllIndices)
    case Some(s) =>
      var parts := Split(s);
      if |parts| == 1 then
        var index :- ToInt(s);
        Success(Range(index, index))
      else if |parts| == 2 then
        var begin :- ToInt(parts[0]);
        var end :- ToInt(parts[1]);
        Success(Range(begin, end))
      else
        Failure(Exit(InvalidUsage(option, kind)))
  }

  /** `a:b` is read as the range (int(a), int(b)), `a` first; no ordering is checked. */
  lemma RangeOfPair(a: string, b: string, option: string, kind: string)
    requires ':' !in a && ':' !in b
    ensures ParseRange(Some(a + ":" + b), option, kind) ==
              if ParseInt(a).None? then Failure(ValueError(a))
              else if ParseInt(b).None? then Failure(ValueError(b))
              else Success(Range(ParseInt(a).value, ParseInt(b).value))
  {
    SplitPair(a, b);
  }

  /** The rendered pair `begin:end` gives back exactly that range, even when
      `end < begin`. */
  lemma RangeOfInts(begin: int, end: int, option: string, kind: string)
    ensures ParseRange(Some(IntToString(begin) + ":" + IntToString(end)), option, kind)
         == Success(Range(begin, end))
  {
    var a, b := IntToString(begin), IntToString(end);
    RangeOfPair(a, b, option, kind);
    ParseIntRoundTrip(begin);
    ParseIntRoundTrip(end);
  }

  /** A rendered scalar gives the one-index range of that scalar. */
  lemma RangeOfInt(index: int, option: string, kind: string)
    ensures ParseRange(Some(IntToString(index)), option, kind) == Success(Range(index, index))
  {
    ParseIntRoundTrip(index);
  }

  /** `--length`: absent gives (1000.0, 1.0); exactly one colon gives the two
      floats, the maximum first; any other form is rejected. */
  function ParseLength(raw: Option<string>, floatRepr: FloatRepr): (r: Result<LengthSweep, Failure>)
    ensures raw.None? ==> r == Success(DefaultLength)
    ensures raw.Some? && Colons(raw.value) != 1 ==> r == Failure(Exit(InvalidLength))
    ensures raw.Some? && r.Success? ==> Colons(raw.value) == 1
  {
    match raw
    case None => Success(DefaultLength)
    case Some(s) =>
      var parts := Split(s);
      if |parts| == 2 then
        var maxLength :- ToFloat(floatRepr, parts[0]);
        var step :- ToFloat(floatRepr, parts[1]);
        Success(LengthSweep(maxLength, step))
      else
        Failure(Exit(InvalidLength))
  }

  /** `Lmax:dL` is read as (float(Lmax), float(dL)), `Lmax` first. */
  lemma LengthOfPair(maxLength: string, step: string, floatRepr: FloatRepr)
    requires ':' !in maxLength && ':' !in step
    ensures ParseLength(Some(maxLength + ":" + step), floatRepr) ==
              if floatRepr(maxLength).None? then Failure(ValueError(maxLength))
              else if floatRepr(step).None? then Failure(ValueError(step))
              else Success(LengthSweep(floatRepr(maxLength).value, floatRepr(step).value))
  {
    SplitPair(maxLength, step);
  }

  /** Python list indexing `xs[i]` on a list of length `n`: negative indices count
      from the end, anything else raises `IndexError` (`None`). */
  function PyIndex(i: int, n: nat): (r: Option<nat>)
    ensures r.Some? <==> -(n as int) <= i < n
    ensures r.Some? ==> r.value < n && (r.value == i || r.value == i + n)
  {
    if 0 <= i < n then Some(i)
    else if -(n as int) <= i < 0 then Some(i + n)
    else None
  }

  /** A position in the three-slot axis mask. */
  type Slot = j: nat | j < 3

  /** The mask slot one `--direction` token writes: `size_flag[int(token) - 1]`.
      Tokens 1, 2, 3 select x, y, z; the code does no range check, so 0, -1, -2
      reach z, y, x through negative indexing and anything else is an `IndexError`. */
  function AxisOf(token: string): (r: Result<Slot, Failure>)
    ensures ParseInt(token).None? ==> r == Failure(ValueError(token))
    ensures ParseInt(token).Some? && 1 <= ParseInt(token).value <= 3 ==> r == Success(ParseInt(token).value - 1)
    ensures ParseInt(token).Some? && -2 <= ParseInt(token).value <= 0 ==> r == Success(ParseInt(token).value + 2)
    ensures ParseInt(token).Some? && !(-2 <= ParseInt(token).value <= 3) ==> r == Failure(IndexError(token))
  {
    var n :- ToInt(token);
    match PyIndex(n - 1, 3)
    case Some(j) => Success(j)
    case None => Failure(IndexError(token))
  }

  /** Each token's slot or failure, in the order the tokens are read. */
  function AxesOf(tokens: seq<string>): (slots: seq<Result<Slot, Failure>>)
    ensures |slots| == |tokens|
    ensures forall i :: 0 <= i < |tokens| ==> slots[i] == AxisOf(tokens[i])
  {
    seq(|tokens|, i requires 0 <= i < |tokens| => AxisOf(tokens[i]))
  }

  /** Sets each slot in turn, stopping at the first failure. */
  function MarkAxes(mask: Mask, slots: seq<Result<Slot, Failure>>): Result<Mask, Failure>
    decreases |slots|
  {
    if slots == [] then Success(mask)
    else
      var j :- slots[0];
      MarkAxes(mask[j := true], slots[1..])
  }

  /** Some entry of `slots` names slot `j`. */
  predicate Names(slots: seq<Result<Slot, Failure>>, j: Slot) {
    exists i :: 0 <= i < |slots| && slots[i] == Success(j)
  }

  /** Marking succeeds exactly when every entry names a slot, and then a slot is set
      exactly when it was set before or some entry names it: the order and the
      repetition of tokens do not matter. */
  lemma {:induction false} MarkAxesSelects(mask: Mask, slots: seq<Result<Slot, Failure>>)
    ensures MarkAxes(mask, slots).Success? <==> forall i :: 0 <= i < |slots| ==> slots[i].Success?
    ensures MarkAxes(mask, slots).Success? ==>
              forall j: Slot :: MarkAxes(mask, slots).value[j] <==> mask[j] || Names(slots, j)
    decreases |slots|
  {
    if slots != [] {
      var rest := slots[1..];
      assert forall i :: 1 <= i < |slots| ==> slots[i] == rest[i - 1];
      if slots[0].Success? {
        var k := slots[0].value;
        MarkAxesSelects(mask[k := true], rest);
        if MarkAxes(mask, slots).Success? {
          forall j: Slot
            ensures MarkAxes(mask, slots).value[j] <==> mask[j] || Names(slots, j)
          {
            if Names(rest, j) {
              var i :| 0 <= i < |rest| && rest[i] == Success(j);
              assert slots[i + 1] == Success(j);
            }
            if Names(slots, j) && j != k {
              var i :| 0 <= i < |slots| && slots[i] == Success(j);
              assert rest[i - 1] == Success(j);
            }
          }
        }
      }
    }
  }

  /** The position of the first failure in `slots`. */
  function FirstFailure(slots: seq<Result<Slot, Failure>>): (i: nat)
    requires exists i :: 0 <= i < |slots| && slots[i].Failure?
    ensures i < |slots| && slots[i].Failure?
    ensures forall k :: 0 <= k < i ==> slots[k].Success?
  {
    if slots[0].Failure? then 0
    else
      var k :| 0 <= k < |slots| && slots[k].Failure?;
      assert slots[1..][k - 1] == slots[k];
      var i := FirstFailure(slots[1..]);
      assert forall k :: 1 <= k < i + 1 ==> slots[k] == slots[1..][k - 1];
      i + 1
  }

  /** A failed marking reports the first failure among the tokens. */
  lemma {:induction false} MarkAxesFirstFailure(mask: Mask, slots: seq<Result<Slot, Failure>>)
    requires MarkAxes(mask, slots).Failure?
    ensures exists i :: 0 <= i < |slots| && slots[i].Failure?
    ensures MarkAxes(mask, slots).error == slots[FirstFailure(slots)].error
    decreases |slots|
  {
    var rest := slots[1..];
    if slots[0].Success? {
      MarkAxesFirstFailure(mask[slots[0].value := true], rest);
      var i :| 0 <= i < |rest| && rest[i].Failure?;
      assert slots[i + 1] == rest[i];
      var f := FirstFailure(slots);
      assert f == FirstFailure(rest) + 1;
      assert slots[f] == rest[f - 1];
    }
  }

  /** `--direction`: absent selects no axis; more than three tokens are rejected
      before any token is read; otherwise each token sets its slot. */
  function ParseDirection(raw: Option<string>): (r: Result<Mask, Failure>)
    ensures raw.None? ==> r == Success(NoAxes)
    ensures raw.Some? && Colons(raw.value) >= 3 ==> r == Failure(Exit(InvalidDirection))
    ensures raw.Some? && Colons(raw.value) < 3 ==> r == MarkAxes(NoAxes, AxesOf(Split(raw.value)))
    ensures raw.Some? && Colons(raw.value) < 3 ==>
              (r.Success? <==> forall i :: 0 <= i < |Split(raw.value)| ==> AxisOf(Split(raw.value)[i]).Success?)
    ensures raw.Some? && r.Success? ==>
              forall j: Slot :: r.value[j] <==>
                exists i :: 0 <= i < |Split(raw.value)| && AxisOf(Split(raw.value)[i]) == Success(j)
  {
    match raw
    case None => Success(NoAxes)
    case Some(s) =>
      var tokens := Split(s);
      if |tokens| > 3 then Failure(Exit(InvalidDirection))
      else
        MarkedTokens(tokens);
        MarkAxes(NoAxes, AxesOf(tokens))
  }

  /** `MarkAxesSelects` for the tokens themselves, starting from the all-clear mask. */
  lemma MarkedTokens(tokens: seq<string>)
    ensures MarkAxes(NoAxes, AxesOf(tokens)).Success? <==>
              forall i :: 0 <= i < |tokens| ==> AxisOf(tokens[i]).Success?
    ensures MarkAxes(NoAxes, AxesOf(tokens)).Success? ==>
              forall j: Slot :: MarkAxes(NoAxes, AxesOf(tokens)).value[j] <==>
                exists i :: 0 <= i < |tokens| && AxisOf(tokens[i]) == Success(j)
  {
    var slots := AxesOf(tokens);
    MarkFromClear(slots);
    SlotsSucceed(tokens);
    if MarkAxes(NoAxes, slots).Success? {
      forall j: Slot
        ensures Names(slots, j) <==> exists i :: 0 <= i < |tokens| && AxisOf(tokens[i]) == Success(j)
      {
        NamesOfTokens(tokens, j);
      }
    }
  }

  lemma MarkFromClear(slots: seq<Result<Slot, Failure>>)
    ensures MarkAxes(NoAxes, slots).Success? <==> forall i :: 0 <= i < |slots| ==> slots[i].Success?
    ensures MarkAxes(NoAxes, slots).Success? ==>
              forall j: Slot :: MarkAxes(NoAxes, slots).value[j] <==> Names(slots, j)
  {
    MarkAxesSelects(NoAxes, slots);
  }

  lemma SlotsSucceed(tokens: seq<string>)
    ensures (forall i :: 0 <= i < |AxesOf(tokens)| ==> AxesOf(tokens)[i].Success?) <==>
            (forall i :: 0 <= i < |tokens| ==> AxisOf(tokens[i]).Success?)
  {
    var slots := AxesOf(tokens);
    if forall i :: 0 <= i < |slots| ==> slots[i].Success? {
      forall i | 0 <= i < |tokens|
        ensures AxisOf(tokens[i]).Success?
      {
        assert slots[i] == AxisOf(tokens[i]);
      }
    }
    if forall i :: 0 <= i < |tokens| ==> AxisOf(tokens[i]).Success? {
      forall i | 0 <= i < |slots|
        ensures slots[i].Success?
      {
        assert slots[i] == AxisOf(tokens[i]);
      }
    }
  }

  lemma NamesOfTokens(tokens: seq<string>, j: Slot)
    ensures Names(AxesOf(tokens), j) <==> exists i :: 0 <= i < |tokens| && AxisOf(tokens[i]) == Success(j)
  {
    var slots := AxesOf(tokens);
    if Names(slots, j) {
      var i :| 0 <= i < |slots| && slots[i] == Success(j);
      assert AxisOf(tokens[i]) == Success(j);
    }
    if exists i :: 0 <= i < |tokens| && AxisOf(tokens[i]) == Success(j) {
      var i :| 0 <= i < |tokens| && AxisOf(tokens[i]) == Success(j);
      assert slots[i] == Success(j);
    }
  }

  /** The rendered axis numbers, as the user types them into `--direction`. */
  function AxisTokens(axes: seq<int>): (tokens: seq<string>)
    ensures |tokens| == |axes|
    ensures forall i :: 0 <= i < |axes| ==> tokens[i] == IntToString(axes[i])
  {
    seq(|axes|, i requires 0 <= i < |axes| => IntToString(axes[i]))
  }

  /** The axis number n in 1..3, rendered, selects slot n - 1. */
  lemma AxisOfInt(n: int)
    requires 1 <= n <= 3
    ensures AxisOf(IntToString(n)) == Success(n - 1)
  {
    ParseIntRoundTrip(n);
  }

  /** Up to three colon-free tokens joined with ':' reach the marking unchanged. */
  lemma DirectionOfTokens(tokens: seq<string>)
    requires 1 <= |tokens| <= 3
    requires forall i :: 0 <= i < |tokens| ==> ':' !in tokens[i]
    ensures ParseDirection(Some(Join(tokens))) == MarkAxes(NoAxes, AxesOf(tokens))
  {
    SplitJoin(tokens);
  }

  /** Each rendered axis number from 1..3 yields the slot of that axis. */
  lemma AxesOfNumbers(axes: seq<int>)
    requires forall i :: 0 <= i < |axes| ==> 1 <= axes[i] <= 3
    ensures forall i :: 0 <= i < |axes| ==> AxesOf(AxisTokens(axes))[i] == Success(axes[i] - 1)
  {
    var tokens := AxisTokens(axes);
    forall i | 0 <= i < |axes|
      ensures AxesOf(tokens)[i] == Success(axes[i] - 1)
    {
      AxisOfInt(axes[i]);
    }
  }

  /** Marking the slots of axis numbers from 1..3 sets exactly the listed axes. */
  lemma MarkAxisNumbers(slots: seq<Result<Slot, Failure>>, axes: seq<int>)
    requires |slots| == |axes|
    requires forall i :: 0 <= i < |axes| ==> 1 <= axes[i] <= 3 && slots[i] == Success(axes[i] - 1)
    ensures MarkAxes(NoAxes, slots) == Success([1 in axes, 2 in axes, 3 in axes])
  {
    MarkAxesSelects(NoAxes, slots);
    var r := MarkAxes(NoAxes, slots);
    forall j: Slot
      ensures r.value[j] == ((j + 1) in axes)
    {
      if (j + 1) in axes {
        var i :| 0 <= i < |axes| && axes[i] == j + 1;
        assert slots[i] == Success(j);
      }
    }
    assert r.value == [1 in axes, 2 in axes, 3 in axes];
  }

  /** `--direction=a:b:c` with axis numbers from 1..3 selects exactly the listed axes. */
  lemma DirectionOfAxes(axes: seq<int>)
    requires 1 <= |axes| <= 3
    requires forall i :: 0 <= i < |axes| ==> 1 <= axes[i] <= 3
    ensures ParseDirection(Some(Join(AxisTokens(axes)))) == Success([1 in axes, 2 in axes, 3 in axes])
  {
    DirectionOfTokens(AxisTokens(axes));
    AxesOfNumbers(axes);
    MarkAxisNumbers(AxesOf(AxisTokens(axes)), axes);
  }
}
