/** The wave-symbol table of the WaveDrom-to-TikZ compiler: which brick each
    one-character wave symbol is drawn with. */
module SymbolTable {
  import opened Wrappers

  /** The bricks the TikZ preamble defines a plain `\brick<name>` macro for. */
  datatype BrickName =
    | X | Z | Low | High
    | Bus | BusYellow | BusOrange | BusBlue
    | PClk | PClkArrow | NClk | NClkArrow
    | ClkLow | ClkLowArrow | ClkHigh | ClkHighArrow
    | PullUp | PullDown

  /** The name a brick has inside its TikZ macro names (`\brick<name>`,
      `\brick<name>to<other>`). */
  function TikzName(b: BrickName): string {
    match b
    case X => "x"
    case Z => "z"
    case Low => "low"
    case High => "high"
    case Bus => "bus"
    case BusYellow => "busyellow"
    case BusOrange => "busorange"
    case BusBlue => "busblue"
    case PClk => "pclk"
    case PClkArrow => "pclkarrow"
    case NClk => "nclk"
    case NClkArrow => "nclkarrow"
    case ClkLow => "clklow"
    case ClkLowArrow => "clklowarrow"
    case ClkHigh => "clkhigh"
    case ClkHighArrow => "clkhigharrow"
    case PullUp => "pullup"
    case PullDown => "pulldown"
  }

  /** The wave symbols the compiler knows. */
  const Symbols: set<char> :=
    {'x', 'z', '0', '1', '2', '=', '3', '4', '5',
     'p', 'P', 'n', 'N', 'l', 'L', 'h', 'H', 'u', 'd'}

  /** `TIKZ_SIG_NAMES`: the brick drawing each wave symbol, `None` for a
      symbol the table lacks. */
  function SigName(c: char): Option<BrickName> {
    match c
    case 'x' => Some(X)
    case 'z' => Some(Z)
    case '0' => Some(Low)
    case '1' => Some(High)
    case '2' => Some(Bus)
    case '=' => Some(Bus)
    case '3' => Some(BusYellow)
    case '4' => Some(BusOrange)
    case '5' => Some(BusBlue)
    case 'p' => Some(PClk)
    case 'P' => Some(PClkArrow)
    case 'n' => Some(NClk)
    case 'N' => Some(NClkArrow)
    case 'l' => Some(ClkLow)
    case 'L' => Some(ClkLowArrow)
    case 'h' => Some(ClkHigh)
    case 'H' => Some(ClkHighArrow)
    case 'u' => Some(PullUp)
    case 'd' => Some(PullDown)
    case _ => None
  }

  /** The table has exactly the known symbols as keys; the
      continuation marker `.` is not one of them. */
  lemma SymbolsAreKeys(c: char)
    ensures SigName(c).Some? <==> c in Symbols
    ensures SigName('.') == None
  {
  }

  /** Every brick is reachable from some wave symbol. */
  lemma EveryBrickHasSymbol(b: BrickName)
    ensures exists c :: SigName(c) == Some(b)
  {
    match b
    case X => assert SigName('x') == Some(b);
    case Z => assert SigName('z') == Some(b);
    case Low => assert SigName('0') == Some(b);
    case High => assert SigName('1') == Some(b);
    case Bus => assert SigName('2') == Some(b);
    case BusYellow => assert SigName('3') == Some(b);
    case BusOrange => assert SigName('4') == Some(b);
    case BusBlue => assert SigName('5') == Some(b);
    case PClk => assert SigName('p') == Some(b);
    case PClkArrow => assert SigName('P') == Some(b);
    case NClk => assert SigName('n') == Some(b);
    case NClkArrow => assert SigName('N') == Some(b);
    case ClkLow => assert SigName('l') == Some(b);
    case ClkLowArrow => assert SigName('L') == Some(b);
    case ClkHigh => assert SigName('h') == Some(b);
    case ClkHighArrow => assert SigName('H') == Some(b);
    case PullUp => assert SigName('u') == Some(b);
    case PullDown => assert SigName('d') == Some(b);
  }

  /** `2` and `=` are the only two symbols that share a brick (both draw `bus`). */
  lemma OnlyBusSymbolsAlias(c1: char, c2: char)
    requires SigName(c1).Some? && SigName(c2).Some? && c1 != c2
    ensures SigName(c1) == SigName(c2) <==> {c1, c2} == {'2', '='}
  {
    if {c1, c2} == {'2', '='} {
      assert c1 == '2' || c1 == '=';
      assert c2 == '2' || c2 == '=';
    }
  }

  /** Distinct bricks have distinct TikZ names, so comparing names (as the
      transition lookup does) is comparing bricks. */
  lemma TikzNameInjective(a: BrickName, b: BrickName)
    requires TikzName(a) == TikzName(b)
    ensures a == b
  {
  }

  /** No brick name contains "to", so a transition macro name
      `<from>to<to>` splits into its two brick names in exactly one way. */
  lemma TikzNameAvoidsTo(b: BrickName, i: nat)
    requires i + 1 < |TikzName(b)|
    ensures !(TikzName(b)[i] == 't' && TikzName(b)[i + 1] == 'o')
  {
  }
}
