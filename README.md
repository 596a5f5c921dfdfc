# WaveDromTikZ waveform compiler, modelled in Dafny

WaveDromTikZ turns WaveDrom timing diagrams into TikZ. Its core is the
per-signal waveform compiler `render_waveform` in `wavedromtikz.py`. The
compiler reads a wave string one symbol per timeslot. It looks each symbol up
in the symbol table `TIKZ_SIG_NAMES` and emits one TikZ line per
half-timeslot, using the transition macros the TikZ preamble defines
(`HAS_TRANSITION`). A timeslot is drawn as a first half and then a second
half. The first half is a plain brick for the first timeslot and for a `.`
continuation. Otherwise it is a transition from the previous brick: the
universal `\brickto<b>` when one exists, else the pair-specific
`\brick<a>to<b>` when one exists, else a plain first-half brick. Before the
first timeslot the compiler draws `2 * phase` half bricks of the first
symbol.

The model has four modules:

- `SymbolTable` (`symbol_table.dfy`): the 18 brick names and `TIKZ_SIG_NAMES`
  as the function `SigName`.
- `TransitionTable` (`transition_table.dfy`): the transition macros of the
  preamble. `Defined` states them block by block. `HasTransition` is the same
  table as a set of `(from, to)` pairs, with `None` standing for the empty
  first name of the universal macros.
- `Compiler` (`compiler.dfy`): the emitted lines as the datatype `Line`;
  `get_brick`, `get_transition_brick` and `render_waveform`; and the
  specification function `Waveform` with the properties proved about it.
  `RenderWaveform` is the imperative `render_waveform`. It appends to a
  sequence in loops, as the source does, and is proved equal to `Waveform`.
  Its second loop, over the timeslots, is the method `RenderTimeslots`.
- `Scenarios` (`scenarios.dfy`): complete outputs for a few short waves.

A phase is given as `phase2`, the number of half timeslots (`phase * 2`). The
period is a real number. It is carried unchanged into every brick and
transition line, which is where the source formats it with `%f`. A failure
of the source (a failed `assert`, a `KeyError` from the table, an
`IndexError` on an empty wave) is a `Failure` carrying an `Error`.

Where the documentation and the code disagree, the model follows the code:

- The code rejects a negative phase with an assertion. The documentation
  describes a negative phase as shifting the wave.
- The code picks a transition by which macros the preamble defines. The
  documentation describes transitions between signal states in general.
- The code draws no spacers, node labels or bus labels.

`Defined` lists the pairs the regular expression at `wavedromtikz.py:472-476`
extracts from the macro names at `wavedromtikz.py:282-441`, block by block.
`HasTransitionDefined` proves that membership in `HasTransition` is exactly
`Defined`. The compiler's functions test `Defined` directly, which is the same
test stated more cheaply.

## Model

| member | source | states |
|---|---|---|
| SymbolTable.SymbolsAreKeys | wavedromtikz.py:448-468 | the table's keys are exactly the 19 symbols `x z 0 1 2 = 3 4 5 p P n N l L h H u d`; `.` is not a key |
| SymbolTable.EveryBrickHasSymbol | wavedromtikz.py:448-468 | every one of the 18 bricks is drawn by some symbol |
| SymbolTable.OnlyBusSymbolsAlias | wavedromtikz.py:453-454 | two distinct known symbols share a brick if and only if they are `2` and `=` |
| SymbolTable.TikzNameInjective | wavedromtikz.py:448-468 | distinct bricks have distinct TikZ names, so comparing names compares bricks |
| SymbolTable.TikzNameAvoidsTo | wavedromtikz.py:472-476 | no brick name contains `to`, so a macro name `<from>to<to>` splits into two brick names in only one way |
| TransitionTable.HasTransitionDefined | wavedromtikz.py:472-476 | a pair is in the transition table if and only if the preamble defines its macro |
| TransitionTable.UniversalTargetsAreClocks | wavedromtikz.py:282-286 | a universal `\brickto<b>` macro exists exactly for the four clock bricks `clkhigh`, `clklow`, `clkhigharrow`, `clklowarrow` |
| TransitionTable.PairTargetsAreNotClocks | wavedromtikz.py:288-441 | no pair-specific macro leads into a clock brick |
| TransitionTable.RepeatTransitions | wavedromtikz.py:308-380 | a brick followed by itself has a macro exactly for `high`, `low` and the four buses |
| Compiler.GetBrick | wavedromtikz.py:496-501 | `get_brick` fails exactly on a symbol missing from the table, with that symbol; otherwise it is the plain brick of the symbol's table entry, with the given parity and period |
| Compiler.TransitionPriority | wavedromtikz.py:503-522 | the universal transition wins for a clock target; otherwise the pair-specific transition when defined; otherwise the plain first-half brick (parity 0); any transition line it gives is in the transition table |
| Compiler.GetTransitionBrick | wavedromtikz.py:503-522 | an unknown `signal` fails first; a clock `signal` gives the universal transition without looking at `last`; otherwise an unknown `last` fails; otherwise the transition chosen by `TransitionPriority` |
| Compiler.Resolve | wavedromtikz.py:536-545 | resolving a wave gives one brick per symbol |
| Compiler.Timeslots | wavedromtikz.py:536-545 | the timeslots of `n` symbols are `2 * n` lines |
| Compiler.PhasePrefix | wavedromtikz.py:532-533 | the phase prefix for `k` half timeslots has `k` lines |
| Compiler.PhasePrefixBricks | wavedromtikz.py:532-533 | the phase bricks all draw the first symbol with the given period, alternate in parity, and end with parity 1 |
| Compiler.RenderWaveform | wavedromtikz.py:479-548 | the lines appended by `render_waveform` are exactly `Waveform`, including which error is raised |
| Compiler.RenderTimeslots | wavedromtikz.py:536-545 | the timeslot loop produces exactly the timeslot lines of the resolved wave, or fails with the first unknown symbol |
| Compiler.ResolveFailure | wavedromtikz.py:536-545 | resolution fails if and only if some non-`.` symbol is missing from the table, and then with the first such symbol |
| Compiler.ResolveAt | wavedromtikz.py:494-543 | every symbol of a resolved wave is known; a `.` repeats the previous brick, and a leading `.` is `x`; any other symbol is its table entry |
| Compiler.TimeslotsAt | wavedromtikz.py:536-545 | timeslot `t` occupies lines `2t` and `2t+1` of the timeslot lines |
| Compiler.WaveformOutcome | wavedromtikz.py:487-494 | a negative phase fails first, then a negative period, then an empty wave; otherwise compiling succeeds if and only if every non-`.` symbol is known, and fails with the first unknown symbol |
| Compiler.WaveformShape | wavedromtikz.py:490-547 | the output is the header and scope opening, `phase2` phase bricks of the first brick with parity `(phase2 - i) % 2`, two lines per timeslot and the scope closing: twice the wave length plus `phase2 + 3` lines (twice the wave length plus 3 for phase 0) |
| Compiler.WaveformSlot | wavedromtikz.py:536-545 | timeslot `t` is a plain first half for `t = 0` or a `.` symbol, otherwise the transition from the previous brick; its second half is always the plain brick with parity 1 |
| Compiler.ContinuationNeverTransitions | wavedromtikz.py:537-543 | a `.` timeslot is drawn as two plain bricks of the brick it continues |
| Compiler.TransitionLines | wavedromtikz.py:538-541 | a timeslot's first line is a transition only after the first timeslot and for a symbol other than `.`, and any transition names a macro of the preamble |
| Compiler.SameBricksSameWaveform | wavedromtikz.py:448-468 | two waves whose symbols draw the same bricks compile to the same output |
| Compiler.BusSymbolsInterchangeable | wavedromtikz.py:453-454 | writing `2` in place of `=` anywhere in a wave does not change the output |
| Scenarios.LowThenHigh | wavedromtikz.py:479-548 | `01` compiles to two `low` halves, the `low`-to-`high` transition and a second-half `high` |
| Scenarios.ContinuedClock | wavedromtikz.py:536-545 | `p.` compiles to four plain `pclk` halves |
| Scenarios.ClockAfterLevel | wavedromtikz.py:503-508 | `0h` uses the universal transition into `clkhigh` |
| Scenarios.RepeatedBus | wavedromtikz.py:536-545 | `22` uses the `bus`-to-`bus` transition |
| Scenarios.HalfPhase | wavedromtikz.py:494-533 | `.` with half a timeslot of phase draws one second-half `x` brick, then the `x` timeslot |
| Scenarios.UnknownInTheMiddle | wavedromtikz.py:536-545 | `0q1` fails with the unknown symbol `q` |
| Scenarios.NegativePeriodFirst | wavedromtikz.py:487-488 | a negative period fails before the (empty) wave is examined |

## Left out

- The bodies of the TikZ macros in the preamble (`wavedromtikz.py:6-441`) are not modelled. Only the names of the transition macros are modelled.
- The regular expression that builds `HAS_TRANSITION` is not modelled. Its result, the set of (from, to) name pairs, is stated as the constant table `Defined`/`HasTransition`.
- The fractional-phase path (`\truncatebrick`, `wavedromtikz.py:526-531`) is not modelled. Floating-point phases are not modelled either: the phase is a whole number of half timeslots.
- The `%f` text formatting of the period, and the joining of the lines with newlines, are not modelled. A line carries the period as a real.
- `render_signal` (`wavedromtikz.py:551-564`), which places the wave and adds its name label, is not part of this model. Neither is `render_wavedrom` (`wavedromtikz.py:567-573`), which wraps it in a `tikzpicture` with the preamble, nor the `__main__` block (`wavedromtikz.py:576-583`), which prints one fixed demo signal. `setup.py` is packaging metadata.
- The `"wave"`, `"phase"` and `"period"` dictionary lookups and their defaults (phase 0, period 1) are not modelled. The three values are parameters.
- Spacers, node labels and bus data labels are not modelled. The code does not implement them.
- `RenderWaveform`: the source keeps both loops in one function. The model moves the timeslot loop into `RenderTimeslots`, which is called with the same initial `last_signal`.
