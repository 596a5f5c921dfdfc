/** The waveform compiler: turns a WaveDrom wave string into the ordered list
    of TikZ lines that draw one signal (`render_waveform`). */
module Compiler {
  import opened Wrappers
  import opened SymbolTable
  import opened TransitionTable

  /** Which half of a timeslot a plain brick draws: 0 the first, 1 the second. */
  type Parity = p: int | 0 <= p < 2

  /** One emitted line of TikZ. The period is the `%f` argument every brick
      and transition macro receives. */
  datatype Line =
    | Header                                                        // \coordinate (last brick) at (wave start);
    | ScopeBegin                                                    // \begin{scope}[line cap=rect, line join=round];
    | Brick(name: BrickName, parity: Parity, period: real)          // \brick<name>{<parity>}{<period>}
    | UniversalTrans(target: BrickName, period: real)               // \brickto<target>{<period>}
    | PairTrans(source: BrickName, target: BrickName, period: real) // \brick<source>to<target>{<period>}
    | ScopeEnd                                                      // \end{scope};

  /** Why compiling a waveform fails. */
  datatype Error =
    | NegativePhase                // the assertion that the phase is not negative
    | NegativePeriod               // the assertion that the period is not negative
    | EmptyWave                    // `wave[0]` of an empty wave
    | UnknownSymbol(symbol: char)  // a symbol missing from the symbol table

  /** A symbol the compiler would look up and not find: `.` is never looked
      up, it continues the previous symbol. */
  predicate Unknown(c: char) {
    c != '.' && SigName(c).None?
  }

  /** `TIKZ_SIG_NAMES[signal]`. */
  function Lookup(signal: char): Result<BrickName, Error> {
    if SigName(signal).Some? then Success(SigName(signal).value) else Failure(UnknownSymbol(signal))
  }

  /** `get_brick`: the plain brick drawing `signal` in one half-timeslot. */
  function GetBrick(signal: char, parity: Parity, period: real): (r: Result<Line, Error>)
    ensures r.Failure? <==> SigName(signal).None?
    ensures r.Failure? ==> r.error == UnknownSymbol(signal)
    ensures r.Success? ==> r.value == Brick(SigName(signal).value, parity, period)
  {
    var name :- Lookup(signal);
    Success(Brick(name, parity, period))
  }

  /** The line that opens a timeslot drawing `next` right after `prev`, in
      `get_transition_brick`'s order of preference (`Defined` is membership
      in `HasTransition`, by `HasTransitionDefined`). */
  function ChooseTransition(prev: BrickName, next: BrickName, period: real): Line {
    if Defined(None, next) then UniversalTrans(next, period)
    else if Defined(Some(prev), next) then PairTrans(prev, next, period)
    else Brick(next, 0, period)
  }

  /** The transition choice: the universal transition into a clock brick,
      whatever precedes it; else the pair-specific macro when the preamble has
      one; else `next`'s plain first-half brick. A transition line always
      names a macro the preamble defines. */
  lemma TransitionPriority(prev: BrickName, next: BrickName, period: real)
    ensures IsClock(next) ==> ChooseTransition(prev, next, period) == UniversalTrans(next, period)
    ensures !IsClock(next) && Defined(Some(prev), next)
            ==> ChooseTransition(prev, next, period) == PairTrans(prev, next, period)
    ensures !IsClock(next) && !Defined(Some(prev), next)
            ==> ChooseTransition(prev, next, period) == Brick(next, 0, period)
    ensures var l := ChooseTransition(prev, next, period);
      && (l.UniversalTrans? ==> (None, l.target) in HasTransition)
      && (l.PairTrans? ==> (Some(l.source), l.target) in HasTransition)
  {
    UniversalTargetsAreClocks(next);
    HasTransitionDefined(Some(prev), next);
  }

  /** `get_transition_brick`: the symbol `signal` is looked up first, and
      `last` only when no universal transition into `signal` exists. */
  function GetTransitionBrick(last: char, signal: char, period: real): (r: Result<Line, Error>)
    ensures SigName(signal).None? ==> r == Failure(UnknownSymbol(signal))
    ensures SigName(signal).Some? && IsClock(SigName(signal).value)
            ==> r == Success(UniversalTrans(SigName(signal).value, period))
    ensures SigName(signal).Some? && !IsClock(SigName(signal).value) && SigName(last).None?
            ==> r == Failure(UnknownSymbol(last))
    ensures SigName(signal).Some? && SigName(last).Some?
            ==> r == Success(ChooseTransition(SigName(last).value, SigName(signal).value, period))
  {
    var next :- Lookup(signal);
    if Defined(None, next) then Success(UniversalTrans(next, period))
    else
      var prev :- Lookup(last);
      Success(ChooseTransition(prev, next, period))
  }

  /** The brick of the effective symbol of every timeslot: `.` continues the
      previous effective symbol (a leading `.` continues `x`), any other
      symbol is looked up; the first unknown symbol is the error. */
  function Resolve(wave: string): (r: Result<seq<BrickName>, Error>)
    ensures r.Success? ==> |r.value| == |wave|
    decreases |wave|
  {
    if wave == [] then Success([])
    else
      var init :- Resolve(wave[..|wave| - 1]);
      var signal := wave[|wave| - 1];
      if signal == '.' then Success(init + [if init == [] then X else init[|init| - 1]])
      else
        var name :- Lookup(signal);
        Success(init + [name])
  }

  /** The two lines of timeslot `time`, given the effective bricks `eff`. */
  function Slot(wave: string, eff: seq<BrickName>, time: nat, period: real): seq<Line>
    requires |eff| == |wave| && time < |wave|
  {
    [ if time == 0 || wave[time] == '.' then Brick(eff[time], 0, period)
      else ChooseTransition(eff[time - 1], eff[time], period),
      Brick(eff[time], 1, period) ]
  }

  /** The lines of all timeslots, in order. */
  function Timeslots(wave: string, eff: seq<BrickName>, period: real): (r: seq<Line>)
    requires |eff| == |wave|
    ensures |r| == 2 * |wave|
    decreases |wave|
  {
    if wave == [] then []
    else Timeslots(wave[..|wave| - 1], eff[..|wave| - 1], period) + Slot(wave, eff, |wave| - 1, period)
  }

  /** The bricks drawn before the first timeslot for a phase of `k` half
      timeslots: `k` bricks of the first symbol, alternating in parity and
      ending with a second half. */
  function PhasePrefix(first: BrickName, k: nat, period: real): (r: seq<Line>)
    ensures |r| == k
  {
    seq(k, i requires 0 <= i < k => Brick(first, (k - i) % 2, period))
  }

  /** The phase bricks are all bricks of the first symbol, alternate in
      parity, and end with a second half, so that the first timeslot starts
      with a first half. */
  lemma PhasePrefixBricks(first: BrickName, k: nat, period: real)
    ensures var r := PhasePrefix(first, k, period);
      && (forall i :: 0 <= i < k ==> r[i].Brick? && r[i].name == first && r[i].period == period)
      && (k > 0 ==> r[k - 1].parity == 1)
      && (forall i :: 0 <= i < k - 1 ==> r[i].parity != r[i + 1].parity)
  {
  }

  /** One more phase brick. */
  lemma PhasePrefixStep(first: BrickName, k: nat, period: real, i: nat)
    requires i < k
    ensures PhasePrefix(first, k, period)[..i + 1]
         == PhasePrefix(first, k, period)[..i] + [Brick(first, (k - i) % 2, period)]
  {
  }

  /** What `render_waveform` produces for `wave` with a phase of `phase2`
      half timeslots and the given period. */
  function Waveform(wave: string, phase2: int, period: real): Result<seq<Line>, Error> {
    if phase2 < 0 then Failure(NegativePhase)
    else if period < 0.0 then Failure(NegativePeriod)
    else if wave == [] then Failure(EmptyWave)
    else
      var eff :- Resolve(wave);
      Success([Header, ScopeBegin] + PhasePrefix(eff[0], phase2, period)
              + Timeslots(wave, eff, period) + [ScopeEnd])
  }

  /** `render_waveform`: the header and the scope opening, the phase bricks,
      the timeslots (`RenderTimeslots`, the source's second loop) and the
      scope closing, appended one by one. */
  method RenderWaveform(wave: string, phase2: int, period: real) returns (r: Result<seq<Line>, Error>)
    ensures r == Waveform(wave, phase2, period)
  {
    if phase2 < 0 {
      return Failure(NegativePhase);
    }
    if period < 0.0 {
      return Failure(NegativePeriod);
    }
    var out := [Header, ScopeBegin];
    if |wave| == 0 {
      return Failure(EmptyWave);
    }
    // A leading '.' continues an unknown (`x`) signal.
    var lastSignal := if wave[0] == '.' then 'x' else wave[0];
    ghost var firstName := if SigName(lastSignal).Some? then SigName(lastSignal).value else X;

    // The phase prefix.
    for i := 0 to phase2
      invariant i > 0 ==> SigName(lastSignal).Some?
      invariant out == [Header, ScopeBegin] + PhasePrefix(firstName, phase2, period)[..i]
    {
      var brick := GetBrick(lastSignal, (phase2 - i) % 2, period);
      if brick.Failure? {
        assert wave[..0] == [];
        ResolveStep(wave, 0, []);
        ResolvePrefixFailure(wave, 1);
        WaveformFailure(wave, phase2, period);
        return Failure(brick.error);
      }
      PhasePrefixStep(firstName, phase2, period, i);
      assert ([Header, ScopeBegin] + PhasePrefix(firstName, phase2, period)[..i]) + [brick.value]
          == [Header, ScopeBegin] + (PhasePrefix(firstName, phase2, period)[..i] + [brick.value]);
      out := out + [brick.value];
    }
    assert PhasePrefix(firstName, phase2, period)[..phase2] == PhasePrefix(firstName, phase2, period);
    var slots := RenderTimeslots(wave, lastSignal, period);
    if slots.Failure? {
      WaveformFailure(wave, phase2, period);
      return Failure(slots.error);
    }
    ResolveAt(wave, 0);
    WaveformSuccess(wave, phase2, period, Resolve(wave).value);
    r := Success(out + slots.value + [ScopeEnd]);
  }

  /** The timeslot lines of a wave, or its first unknown symbol. */
  function TimeslotLines(wave: string, period: real): Result<seq<Line>, Error> {
    var eff :- Resolve(wave);
    Success(Timeslots(wave, eff, period))
  }

  /** The timeslot loop of `render_waveform`: each symbol appends its two
      half-timeslot lines; `lastSignal0` is the symbol the loop starts from. */
  method RenderTimeslots(wave: string, lastSignal0: char, period: real) returns (r: Result<seq<Line>, Error>)
    requires |wave| > 0 && lastSignal0 == if wave[0] == '.' then 'x' else wave[0]
    ensures r == TimeslotLines(wave, period)
  {
    var lastSignal := lastSignal0;
    var slots: seq<Line> := [];
    ghost var eff: seq<BrickName> := [];
    for time := 0 to |wave|
      invariant |eff| == time && Resolve(wave[..time]) == Success(eff)
      invariant time == 0 ==> lastSignal == lastSignal0
      invariant time > 0 ==> SigName(lastSignal) == Some(eff[time - 1])
      invariant slots == Timeslots(wave[..time], eff, period)
    {
      var signal := wave[time];
      var continued := if signal == '.' then lastSignal else signal;
      var first;
      if time == 0 || signal == '.' {
        first := GetBrick(continued, 0, period);
      } else {
        first := GetTransitionBrick(lastSignal, continued, period);
      }
      SlotStep(wave, time, eff, lastSignal, first, period);
      if first.Failure? {
        ResolvePrefixFailure(wave, time + 1);
        return Failure(first.error);
      }
      var second := GetBrick(continued, 1, period).value;
      slots := slots + [first.value, second];
      lastSignal := continued;
      eff := eff + [SigName(continued).value];
    }
    assert wave[..|wave|] == wave;
    r := Success(slots);
  }

  /** The lines of a waveform whose symbols all resolve. */
  lemma WaveformSuccess(wave: string, phase2: int, period: real, eff: seq<BrickName>)
    requires phase2 >= 0 && period >= 0.0 && |wave| > 0 && Resolve(wave) == Success(eff)
    ensures Waveform(wave, phase2, period)
         == Success([Header, ScopeBegin] + PhasePrefix(eff[0], phase2, period)
                    + Timeslots(wave, eff, period) + [ScopeEnd])
  {
  }

  /** A waveform with an unknown symbol fails with the resolution error. */
  lemma WaveformFailure(wave: string, phase2: int, period: real)
    requires phase2 >= 0 && period >= 0.0 && |wave| > 0 && Resolve(wave).Failure?
    ensures Waveform(wave, phase2, period) == Failure(Resolve(wave).error)
  {
  }

  /** One turn of the compiler's timeslot loop, stated on the effective bricks:
      the first line of the timeslot fails exactly when resolving it fails,
      and otherwise the two lines are the timeslot's `Slot`. */
  lemma SlotStep(wave: string, time: nat, eff: seq<BrickName>, lastSignal: char,
                 first: Result<Line, Error>, period: real)
    requires time < |wave| && Resolve(wave[..time]) == Success(eff)
    requires time == 0 ==> lastSignal == if wave[0] == '.' then 'x' else wave[0]
    requires time > 0 ==> SigName(lastSignal).Some? && SigName(lastSignal).value == eff[time - 1]
    requires first == if time == 0 || wave[time] == '.'
                      then GetBrick(if wave[time] == '.' then lastSignal else wave[time], 0, period)
                      else GetTransitionBrick(lastSignal, wave[time], period)
    ensures first.Failure? ==> Resolve(wave[..time + 1]) == Failure(first.error)
    ensures first.Success? ==>
      var continued := if wave[time] == '.' then lastSignal else wave[time];
      && SigName(continued).Some?
      && Resolve(wave[..time + 1]) == Success(eff + [SigName(continued).value])
      && Timeslots(wave[..time + 1], eff + [SigName(continued).value], period)
         == Timeslots(wave[..time], eff, period) + [first.value, Brick(SigName(continued).value, 1, period)]
  {
    ResolveStep(wave, time, eff);
    if first.Success? {
      var continued := if wave[time] == '.' then lastSignal else wave[time];
      var eff' := eff + [SigName(continued).value];
      TimeslotsStep(wave, time, eff', period);
      assert eff'[..time] == eff;
      assert Slot(wave[..time + 1], eff', time, period) == [first.value, Brick(SigName(continued).value, 1, period)];
    }
  }

  /** Resolving one more symbol of the wave. */
  lemma ResolveStep(wave: string, time: nat, eff: seq<BrickName>)
    requires time < |wave| && Resolve(wave[..time]) == Success(eff)
    ensures Resolve(wave[..time + 1]) ==
      if wave[time] == '.' then Success(eff + [if time == 0 then X else eff[time - 1]])
      else if SigName(wave[time]).Some? then Success(eff + [SigName(wave[time]).value])
      else Failure(UnknownSymbol(wave[time]))
  {
    assert wave[..time + 1][..time] == wave[..time];
  }

  /** Compiling one more timeslot appends that timeslot's two lines. */
  lemma TimeslotsStep(wave: string, time: nat, eff: seq<BrickName>, period: real)
    requires time < |wave| && |eff| == time + 1
    ensures Timeslots(wave[..time + 1], eff, period)
         == Timeslots(wave[..time], eff[..time], period) + Slot(wave[..time + 1], eff, time, period)
  {
    assert wave[..time + 1][..time] == wave[..time];
  }

  /** Once a prefix of the wave fails to resolve, the whole wave fails with the
      same error: the first unknown symbol decides. */
  lemma {:induction false} ResolvePrefixFailure(wave: string, n: nat)
    requires n <= |wave| && Resolve(wave[..n]).Failure?
    ensures Resolve(wave) == Resolve(wave[..n])
    decreases |wave| - n
  {
    if n < |wave| {
      assert wave[..n + 1][..n] == wave[..n];
      ResolvePrefixFailure(wave, n + 1);
    } else {
      assert wave[..n] == wave;
    }
  }

  /** Resolution fails exactly when some symbol is unknown, and then with the
      first unknown symbol. */
  lemma {:induction false} ResolveFailure(wave: string)
    ensures Resolve(wave).Failure? <==> exists i :: 0 <= i < |wave| && Unknown(wave[i])
    ensures Resolve(wave).Failure? ==>
      exists i :: 0 <= i < |wave| && Unknown(wave[i]) && Resolve(wave).error == UnknownSymbol(wave[i])
                  && forall j :: 0 <= j < i ==> !Unknown(wave[j])
    decreases |wave|
  {
    if wave != [] {
      var n := |wave| - 1;
      var init := wave[..n];
      ResolveFailure(init);
      assert forall i :: 0 <= i < n ==> init[i] == wave[i];
      if Resolve(init).Failure? {
        var i :| 0 <= i < |init| && Unknown(init[i]) && Resolve(init).error == UnknownSymbol(init[i])
                 && forall j :: 0 <= j < i ==> !Unknown(init[j]);
        assert Unknown(wave[i]);
      } else if Unknown(wave[n]) {
        assert Resolve(wave).error == UnknownSymbol(wave[n]);
      } else {
        forall i | 0 <= i < |wave|
          ensures !Unknown(wave[i])
        {
          if i < n {
            assert init[i] == wave[i];
          }
        }
      }
    }
  }

  /** The effective symbol rule: a `.` repeats the previous timeslot's brick
      (the first timeslot's `.` is `x`), any other symbol is looked up. */
  lemma {:induction false} ResolveAt(wave: string, i: nat)
    requires Resolve(wave).Success? && i < |wave|
    ensures !Unknown(wave[i])
    ensures wave[i] == '.' ==> Resolve(wave).value[i] == if i == 0 then X else Resolve(wave).value[i - 1]
    ensures wave[i] != '.' ==> Some(Resolve(wave).value[i]) == SigName(wave[i])
    decreases |wave|
  {
    var n := |wave| - 1;
    var init := wave[..n];
    ResolveStep(wave, n, Resolve(init).value);
    assert wave[..n + 1] == wave;
    assert Resolve(wave).value[..n] == Resolve(init).value;
    if i < n {
      ResolveAt(init, i);
      assert init[i] == wave[i];
    }
  }

  /** Timeslot `time` contributes lines `2 * time` and `2 * time + 1`: a plain
      first half for the first timeslot and for a `.`, the transition chosen
      from the previous brick otherwise, and always the plain second half. */
  lemma {:induction false} TimeslotsAt(wave: string, eff: seq<BrickName>, period: real, time: nat)
    requires |eff| == |wave| && time < |wave|
    ensures 2 * time + 2 <= |Timeslots(wave, eff, period)|
    ensures Timeslots(wave, eff, period)[2 * time..2 * time + 2] == Slot(wave, eff, time, period)
    decreases |wave|
  {
    var n := |wave| - 1;
    var init := Timeslots(wave[..n], eff[..n], period);
    assert Timeslots(wave, eff, period) == init + Slot(wave, eff, n, period);
    if time < n {
      TimeslotsAt(wave[..n], eff[..n], period, time);
      SlotOfPrefix(wave, eff, n, time, period);
      assert Timeslots(wave, eff, period)[2 * time..2 * time + 2] == init[2 * time..2 * time + 2];
    } else {
      assert Timeslots(wave, eff, period)[2 * time..2 * time + 2] == Slot(wave, eff, n, period);
    }
  }

  /** A timeslot's lines depend only on the wave up to that timeslot. */
  lemma SlotOfPrefix(wave: string, eff: seq<BrickName>, n: nat, time: nat, period: real)
    requires |eff| == |wave| && time < n <= |wave|
    ensures Slot(wave[..n], eff[..n], time, period) == Slot(wave, eff, time, period)
  {
    assert wave[..n][time] == wave[time] && eff[..n][time] == eff[time];
    if time > 0 {
      assert eff[..n][time - 1] == eff[time - 1];
    }
  }

  /** The outcome of compiling: the phase is checked first, then the period,
      then the wave must have a first symbol, and then the first unknown
      symbol is the error; otherwise compiling succeeds. */
  lemma WaveformOutcome(wave: string, phase2: int, period: real)
    ensures phase2 < 0 ==> Waveform(wave, phase2, period) == Failure(NegativePhase)
    ensures phase2 >= 0 && period < 0.0 ==> Waveform(wave, phase2, period) == Failure(NegativePeriod)
    ensures phase2 >= 0 && period >= 0.0 && wave == [] ==> Waveform(wave, phase2, period) == Failure(EmptyWave)
    ensures Waveform(wave, phase2, period).Success? <==>
      phase2 >= 0 && period >= 0.0 && wave != [] && forall i :: 0 <= i < |wave| ==> !Unknown(wave[i])
    ensures phase2 >= 0 && period >= 0.0 && wave != [] && Waveform(wave, phase2, period).Failure? ==>
      exists i :: 0 <= i < |wave| && Unknown(wave[i]) && Waveform(wave, phase2, period) == Failure(UnknownSymbol(wave[i]))
                  && forall j :: 0 <= j < i ==> !Unknown(wave[j])
  {
    ResolveFailure(wave);
  }

  /** A compiled waveform is the framing around the phase prefix and the
      timeslots. */
  lemma WaveformParts(wave: string, phase2: int, period: real)
    requires Waveform(wave, phase2, period).Success?
    ensures phase2 >= 0 && |wave| > 0 && Resolve(wave).Success?
    ensures Waveform(wave, phase2, period).value
         == [Header, ScopeBegin] + PhasePrefix(Resolve(wave).value[0], phase2, period)
            + Timeslots(wave, Resolve(wave).value, period) + [ScopeEnd]
  {
  }

  /** The layout of a compiled waveform: the header coordinate and the scope
      opening, `phase2` phase bricks of the first effective brick ending at
      parity 1, two lines per timeslot, and the scope closing; `2 * |wave| + 3`
      lines for phase 0. */
  lemma WaveformShape(wave: string, phase2: int, period: real)
    requires Waveform(wave, phase2, period).Success?
    ensures phase2 >= 0 && |wave| > 0 && Resolve(wave).Success?
    ensures var lines := Waveform(wave, phase2, period).value;
            var eff := Resolve(wave).value;
      && |lines| == 2 * |wave| + phase2 + 3
      && lines[0] == Header && lines[1] == ScopeBegin && lines[|lines| - 1] == ScopeEnd
      && forall i :: 2 <= i < 2 + phase2 ==> lines[i] == Brick(eff[0], (phase2 + 2 - i) % 2, period)
  {
    WaveformParts(wave, phase2, period);
    var eff := Resolve(wave).value;
    Framing(eff[0], phase2, period, Timeslots(wave, eff, period));
  }

  /** The framing around a phase prefix and some timeslots. */
  lemma Framing(first: BrickName, phase2: nat, period: real, slots: seq<Line>)
    ensures var lines := [Header, ScopeBegin] + PhasePrefix(first, phase2, period) + slots + [ScopeEnd];
      && |lines| == |slots| + phase2 + 3
      && lines[0] == Header && lines[1] == ScopeBegin && lines[|lines| - 1] == ScopeEnd
      && forall i :: 2 <= i < 2 + phase2 ==> lines[i] == Brick(first, (phase2 + 2 - i) % 2, period)
  {
    var prefix := PhasePrefix(first, phase2, period);
    var lines := [Header, ScopeBegin] + prefix + slots + [ScopeEnd];
    forall i | 2 <= i < 2 + phase2
      ensures lines[i] == Brick(first, (phase2 + 2 - i) % 2, period)
    {
      assert lines[i] == prefix[i - 2];
    }
  }

  /** Timeslot `t` of a compiled waveform occupies lines `2 + phase2 + 2 * t`
      and the one after. */
  lemma WaveformSlot(wave: string, phase2: int, period: real, t: nat)
    requires Waveform(wave, phase2, period).Success? && t < |wave|
    ensures phase2 >= 0 && Resolve(wave).Success?
    ensures var lines := Waveform(wave, phase2, period).value;
            var eff := Resolve(wave).value;
      && 2 + phase2 + 2 * t + 1 < |lines|
      && lines[2 + phase2 + 2 * t + 1] == Brick(eff[t], 1, period)
      && lines[2 + phase2 + 2 * t] == (if t == 0 || wave[t] == '.' then Brick(eff[t], 0, period)
                                       else ChooseTransition(eff[t - 1], eff[t], period))
  {
    WaveformParts(wave, phase2, period);
    var eff := Resolve(wave).value;
    var head := [Header, ScopeBegin] + PhasePrefix(eff[0], phase2, period);
    var slots := Timeslots(wave, eff, period);
    assert |head| == 2 + phase2;
    SlotLines(head, wave, eff, period, t);
  }

  /** Timeslot `t`'s lines, framed. */
  lemma SlotLines(head: seq<Line>, wave: string, eff: seq<BrickName>, period: real, t: nat)
    requires |eff| == |wave| && t < |wave|
    ensures var lines := head + Timeslots(wave, eff, period) + [ScopeEnd];
      && |head| + 2 * t + 1 < |lines|
      && lines[|head| + 2 * t] == Slot(wave, eff, t, period)[0]
      && lines[|head| + 2 * t + 1] == Slot(wave, eff, t, period)[1]
  {
    var slots := Timeslots(wave, eff, period);
    TimeslotsAt(wave, eff, period, t);
    assert slots[2 * t] == Slot(wave, eff, t, period)[0];
    assert slots[2 * t + 1] == Slot(wave, eff, t, period)[1];
    ConcatAt(head, slots, [ScopeEnd], 2 * t);
    ConcatAt(head, slots, [ScopeEnd], 2 * t + 1);
  }

  /** Indexing into the middle part of a three-part concatenation. */
  lemma ConcatAt(a: seq<Line>, b: seq<Line>, c: seq<Line>, k: nat)
    requires k < |b|
    ensures |a| + k < |a + b + c| && (a + b + c)[|a| + k] == b[k]
  {
  }

  /** A `.` never produces a transition: its timeslot is the plain pair of
      bricks of the brick it continues. */
  lemma ContinuationNeverTransitions(wave: string, phase2: int, period: real, t: nat)
    requires Waveform(wave, phase2, period).Success? && t < |wave| && wave[t] == '.'
    ensures phase2 >= 0 && Resolve(wave).Success?
    ensures var lines := Waveform(wave, phase2, period).value;
            var eff := Resolve(wave).value;
      && lines[2 + phase2 + 2 * t] == Brick(eff[t], 0, period)
      && lines[2 + phase2 + 2 * t + 1] == Brick(eff[t], 1, period)
      && eff[t] == if t == 0 then X else eff[t - 1]
  {
    WaveformSlot(wave, phase2, period, t);
    ResolveAt(wave, t);
  }

  /** Only the first half of a timeslot after the first whose symbol is not
      `.` can be a transition, and a transition line always names a macro the
      preamble defines. */
  lemma TransitionLines(wave: string, phase2: int, period: real, t: nat)
    requires Waveform(wave, phase2, period).Success? && t < |wave|
    ensures phase2 >= 0 && 2 + phase2 + 2 * t < |Waveform(wave, phase2, period).value|
    ensures var l := Waveform(wave, phase2, period).value[2 + phase2 + 2 * t];
      && (l.UniversalTrans? || l.PairTrans? ==> t > 0 && wave[t] != '.')
      && (l.UniversalTrans? ==> (None, l.target) in HasTransition)
      && (l.PairTrans? ==> (Some(l.source), l.target) in HasTransition)
  {
    WaveformSlot(wave, phase2, period, t);
    if t > 0 && wave[t] != '.' {
      var eff := Resolve(wave).value;
      TransitionPriority(eff[t - 1], eff[t], period);
    }
  }

  /** Two waves whose symbols draw the same bricks, position by position. */
  predicate SameBricks(w1: string, w2: string) {
    && |w1| == |w2|
    && forall i :: 0 <= i < |w1| ==> w1[i] == w2[i] || (SigName(w1[i]).Some? && SigName(w1[i]) == SigName(w2[i]))
  }

  lemma {:induction false} ResolveSameBricks(w1: string, w2: string)
    requires SameBricks(w1, w2)
    ensures Resolve(w1) == Resolve(w2)
    decreases |w1|
  {
    if w1 != [] {
      var n := |w1| - 1;
      assert SameBricks(w1[..n], w2[..n]);
      ResolveSameBricks(w1[..n], w2[..n]);
    }
  }

  lemma {:induction false} TimeslotsSameBricks(w1: string, w2: string, eff: seq<BrickName>, period: real)
    requires SameBricks(w1, w2) && |eff| == |w1|
    ensures Timeslots(w1, eff, period) == Timeslots(w2, eff, period)
    decreases |w1|
  {
    if w1 != [] {
      var n := |w1| - 1;
      assert SameBricks(w1[..n], w2[..n]);
      TimeslotsSameBricks(w1[..n], w2[..n], eff[..n], period);
    }
  }

  /** The output depends on the symbols only through their bricks: symbols
      sharing a brick, such as `2` and `=`, compile identically. */
  lemma SameBricksSameWaveform(w1: string, w2: string, phase2: int, period: real)
    requires SameBricks(w1, w2)
    ensures Waveform(w1, phase2, period) == Waveform(w2, phase2, period)
  {
    ResolveSameBricks(w1, w2);
    if Resolve(w1).Success? {
      TimeslotsSameBricks(w1, w2, Resolve(w1).value, period);
    }
  }

  /** Writing `2` for `=` anywhere in a wave does not change its output. */
  lemma BusSymbolsInterchangeable(wave: string, i: nat, phase2: int, period: real)
    requires i < |wave| && wave[i] == '='
    ensures Waveform(wave[i := '2'], phase2, period) == Waveform(wave, phase2, period)
  {
    SameBricksSameWaveform(wave[i := '2'], wave, phase2, period);
  }
}
