/** Worked waveforms: what `render_waveform` emits for a few short waves. */
module Scenarios {
  import opened Wrappers
  import opened SymbolTable
  import opened TransitionTable
  import opened Compiler

  /** Resolving a wave of two symbols, the first of them known. */
  lemma ResolveTwo(w: string, a: BrickName, b: BrickName)
    requires |w| == 2 && w[0] != '.' && SigName(w[0]) == Some(a)
    requires if w[1] == '.' then b == a else SigName(w[1]) == Some(b)
    ensures Resolve(w) == Success([a, b])
  {
    assert w[..0] == [];
    ResolveStep(w, 0, []);
    assert [] + [a] == [a];
    ResolveStep(w, 1, [a]);
    assert [a] + [b] == [a, b];
    assert w[..2] == w;
  }

  /** The timeslot lines of a wave of two symbols: the second timeslot opens
      with a plain brick for `.` and with the chosen transition otherwise. */
  lemma TimeslotsTwo(w: string, a: BrickName, b: BrickName, p: real)
    requires |w| == 2
    ensures Timeslots(w, [a, b], p)
         == [Brick(a, 0, p), Brick(a, 1, p),
             if w[1] == '.' then Brick(b, 0, p) else ChooseTransition(a, b, p), Brick(b, 1, p)]
  {
    assert w[..2] == w;
    TimeslotsStep(w, 0, [a], p);
    TimeslotsStep(w, 1, [a, b], p);
    assert [a, b][..1] == [a] && [a][..0] == [];
    assert Timeslots(w[..0], [], p) == [];
  }

  /** A low-to-high edge: the second timeslot opens with the soft transition
      from `low` to `high`. */
  lemma LowThenHigh()
    ensures Waveform("01", 0, 1.0)
         == Success([Header, ScopeBegin,
                     Brick(Low, 0, 1.0), Brick(Low, 1, 1.0),
                     PairTrans(Low, High, 1.0), Brick(High, 1, 1.0),
                     ScopeEnd])
  {
    ResolveTwo("01", Low, High);
    TimeslotsTwo("01", Low, High, 1.0);
    assert ChooseTransition(Low, High, 1.0) == PairTrans(Low, High, 1.0);
    assert PhasePrefix(Low, 0, 1.0) == [];
    WaveformSuccess("01", 0, 1.0, [Low, High]);
    assert [Header, ScopeBegin] + PhasePrefix(Low, 0, 1.0) + Timeslots("01", [Low, High], 1.0) + [ScopeEnd]
        == [Header, ScopeBegin,
            Brick(Low, 0, 1.0), Brick(Low, 1, 1.0),
            PairTrans(Low, High, 1.0), Brick(High, 1, 1.0),
            ScopeEnd];
  }

  /** A continued clock is drawn with plain bricks only. */
  lemma ContinuedClock()
    ensures Waveform("p.", 0, 2.0)
         == Success([Header, ScopeBegin,
                     Brick(PClk, 0, 2.0), Brick(PClk, 1, 2.0),
                     Brick(PClk, 0, 2.0), Brick(PClk, 1, 2.0),
                     ScopeEnd])
  {
    ResolveTwo("p.", PClk, PClk);
    TimeslotsTwo("p.", PClk, PClk, 2.0);
    assert PhasePrefix(PClk, 0, 2.0) == [];
    WaveformSuccess("p.", 0, 2.0, [PClk, PClk]);
    assert [Header, ScopeBegin] + PhasePrefix(PClk, 0, 2.0) + Timeslots("p.", [PClk, PClk], 2.0) + [ScopeEnd]
        == [Header, ScopeBegin,
            Brick(PClk, 0, 2.0), Brick(PClk, 1, 2.0),
            Brick(PClk, 0, 2.0), Brick(PClk, 1, 2.0),
            ScopeEnd];
  }

  /** A clock edge after a level uses the universal transition. */
  lemma ClockAfterLevel()
    ensures Waveform("0h", 0, 1.0)
         == Success([Header, ScopeBegin,
                     Brick(Low, 0, 1.0), Brick(Low, 1, 1.0),
                     UniversalTrans(ClkHigh, 1.0), Brick(ClkHigh, 1, 1.0),
                     ScopeEnd])
  {
    ResolveTwo("0h", Low, ClkHigh);
    TimeslotsTwo("0h", Low, ClkHigh, 1.0);
    assert ChooseTransition(Low, ClkHigh, 1.0) == UniversalTrans(ClkHigh, 1.0);
    assert PhasePrefix(Low, 0, 1.0) == [];
    WaveformSuccess("0h", 0, 1.0, [Low, ClkHigh]);
    assert [Header, ScopeBegin] + PhasePrefix(Low, 0, 1.0) + Timeslots("0h", [Low, ClkHigh], 1.0) + [ScopeEnd]
        == [Header, ScopeBegin,
            Brick(Low, 0, 1.0), Brick(Low, 1, 1.0),
            UniversalTrans(ClkHigh, 1.0), Brick(ClkHigh, 1, 1.0),
            ScopeEnd];
  }

  /** A repeated bus symbol gets the bus-to-bus transition. */
  lemma RepeatedBus()
    ensures Waveform("22", 0, 1.0)
         == Success([Header, ScopeBegin,
                     Brick(Bus, 0, 1.0), Brick(Bus, 1, 1.0),
                     PairTrans(Bus, Bus, 1.0), Brick(Bus, 1, 1.0),
                     ScopeEnd])
  {
    ResolveTwo("22", Bus, Bus);
    TimeslotsTwo("22", Bus, Bus, 1.0);
    assert ChooseTransition(Bus, Bus, 1.0) == PairTrans(Bus, Bus, 1.0);
    assert PhasePrefix(Bus, 0, 1.0) == [];
    WaveformSuccess("22", 0, 1.0, [Bus, Bus]);
    assert [Header, ScopeBegin] + PhasePrefix(Bus, 0, 1.0) + Timeslots("22", [Bus, Bus], 1.0) + [ScopeEnd]
        == [Header, ScopeBegin,
            Brick(Bus, 0, 1.0), Brick(Bus, 1, 1.0),
            PairTrans(Bus, Bus, 1.0), Brick(Bus, 1, 1.0),
            ScopeEnd];
  }

  /** A phase of half a timeslot draws one second-half brick of the first
      symbol before the first timeslot; a leading `.` is `x`. */
  lemma HalfPhase()
    ensures Waveform(".", 1, 1.0)
         == Success([Header, ScopeBegin,
                     Brick(X, 1, 1.0),
                     Brick(X, 0, 1.0), Brick(X, 1, 1.0),
                     ScopeEnd])
  {
    var w := ".";
    OneDot();
    OneHalfPrefix();
    WaveformSuccess(w, 1, 1.0, [X]);
    assert [Header, ScopeBegin] + [Brick(X, 1, 1.0)] + [Brick(X, 0, 1.0), Brick(X, 1, 1.0)] + [ScopeEnd]
        == [Header, ScopeBegin, Brick(X, 1, 1.0), Brick(X, 0, 1.0), Brick(X, 1, 1.0), ScopeEnd];
  }

  /** A lone `.` resolves to `x` and draws one `x` timeslot. */
  lemma OneDot()
    ensures Resolve(".") == Success([X])
    ensures Timeslots(".", [X], 1.0) == [Brick(X, 0, 1.0), Brick(X, 1, 1.0)]
  {
    var w := ".";
    assert w[..0] == [];
    ResolveStep(w, 0, []);
    assert [] + [X] == [X] && w[..1] == w;
    TimeslotsStep(w, 0, [X], 1.0);
    assert [X][..0] == [];
    assert Timeslots(w[..0], [], 1.0) == [];
  }

  /** Half a timeslot of phase is one second-half brick. */
  lemma OneHalfPrefix()
    ensures PhasePrefix(X, 1, 1.0) == [Brick(X, 1, 1.0)]
  {
    assert PhasePrefix(X, 1, 1.0)[0] == Brick(X, 1, 1.0);
  }

  /** The first unknown symbol is the error, whatever follows it. */
  lemma UnknownInTheMiddle()
    ensures Waveform("0q1", 0, 1.0) == Failure(UnknownSymbol('q'))
  {
    var w := "0q1";
    assert w[..0] == [];
    ResolveStep(w, 0, []);
    assert [] + [Low] == [Low];
    ResolveStep(w, 1, [Low]);
    ResolvePrefixFailure(w, 2);
    WaveformFailure(w, 0, 1.0);
  }

  /** The period is checked before the wave is looked at. */
  lemma NegativePeriodFirst()
    ensures Waveform("", 0, -1.0) == Failure(NegativePeriod)
  {
  }
}
