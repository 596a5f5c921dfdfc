/** The transition macros the TikZ preamble defines: for which pairs of bricks
    a dedicated `\brick<from>to<to>` macro exists, and for which bricks a
    universal `\brickto<to>` macro applies whatever precedes it. */
module TransitionTable {
  import opened Wrappers
  import opened SymbolTable

  /** A transition macro: `(Some(from), to)` names `\brick<from>to<to>`,
      `(None, to)` the universal `\brickto<to>`. */
  type Transition = (Option<BrickName>, BrickName)

  /** The clock bricks, whose edges are drawn the same way after any brick. */
  predicate IsClock(b: BrickName) {
    b == ClkHigh || b == ClkLow || b == ClkHighArrow || b == ClkLowArrow
  }

  /** Bricks whose line ends at the high level. */
  predicate EndsHigh(b: BrickName) {
    b == High || b == NClk || b == NClkArrow || b == ClkHigh || b == ClkHighArrow
  }

  /** Bricks whose line ends at the low level. */
  predicate EndsLow(b: BrickName) {
    b == Low || b == PClk || b == PClkArrow || b == ClkLow || b == ClkLowArrow
  }

  /** The four bus colours. */
  predicate IsBus(b: BrickName) {
    b == Bus || b == BusYellow || b == BusOrange || b == BusBlue
  }

  /** Every brick. */
  const AllBricks: set<BrickName> :=
    {X, Z, Low, High, Bus, BusYellow, BusOrange, BusBlue,
     PClk, PClkArrow, NClk, NClkArrow, ClkLow, ClkLowArrow, ClkHigh, ClkHighArrow,
     PullUp, PullDown}

  /** Whether the preamble defines the transition macro for `from` and `to`,
      block by block as the preamble lists them. */
  predicate Defined(from: Option<BrickName>, to: BrickName) {
    match from
    // \bricktoclkhigh, \bricktoclklow and their arrowed forms (wavedromtikz.py:282-286)
    case None => IsClock(to)
    case Some(f) =>
      // soft transitions to high and low (wavedromtikz.py:289-301)
      || ((EndsLow(f) || f == PullDown) && to == High)
      || ((EndsHigh(f) || f == PullUp) && to == Low)
      // short soft transitions out of high impedance (wavedromtikz.py:304-305)
      || (f == Z && (to == High || to == Low))
      // transient transitions between equal levels (wavedromtikz.py:308-318)
      || (EndsHigh(f) && to == High)
      || (EndsLow(f) && to == Low)
      // slow, curved transitions to high impedance (wavedromtikz.py:321-333)
      || ((EndsHigh(f) || f == PullUp || EndsLow(f) || f == PullDown) && to == Z)
      // slow, curved transitions to the pulled levels (wavedromtikz.py:335-350)
      || ((EndsLow(f) || f == PullDown || f == Z) && to == PullUp)
      || ((EndsHigh(f) || f == PullUp || f == Z) && to == PullDown)
      // transitions between buses and x (wavedromtikz.py:353-380)
      || (IsBus(f) && to == X)
      || ((f == X || IsBus(f)) && IsBus(to))
      // soft transitions from a level into a bus or x (wavedromtikz.py:383-441)
      || ((EndsLow(f) || EndsHigh(f)) && (to == X || IsBus(to)))
  }

  /** The transition macros of the preamble, as pairs of brick names (an
      empty first name, `None`, being the universal form). */
  const HasTransition: set<Transition> :=
    set f, t | f in {None} + (set b | b in AllBricks :: Some(b)) && t in AllBricks && Defined(f, t) :: (f, t)

  /** Membership in the table is exactly `Defined`. */
  lemma HasTransitionDefined(from: Option<BrickName>, to: BrickName)
    ensures (from, to) in HasTransition <==> Defined(from, to)
  {
  }

  /** A universal transition exists exactly for the four clock bricks. */
  lemma UniversalTargetsAreClocks(to: BrickName)
    ensures (None, to) in HasTransition <==> IsClock(to)
  {
    HasTransitionDefined(None, to);
  }

  /** No pair-specific macro leads into a clock brick, so the universal rule
      never hides one. */
  lemma PairTargetsAreNotClocks(from: BrickName, to: BrickName)
    requires (Some(from), to) in HasTransition
    ensures !IsClock(to)
  {
    HasTransitionDefined(Some(from), to);
  }

  /** A brick that repeats gets a dedicated macro exactly for the two levels
      and the four buses; `x`, `z`, the pulled levels and the clock edges
      repeat without one. */
  lemma RepeatTransitions(b: BrickName)
    ensures (Some(b), b) in HasTransition <==> b in {High, Low, Bus, BusYellow, BusOrange, BusBlue}
  {
    HasTransitionDefined(Some(b), b);
  }
}
