/** ANSI colours for terminal messages and `coloured`, which wraps a message
    in a bold colour escape and a reset. */
module Colour {

  import opened Strs

  datatype AnsiColour = Black | Red | Green | Yellow | Blue | Magenta | Cyan | White

  /** The colours in declaration order. */
  const Colours: seq<AnsiColour> := [Black, Red, Green, Yellow, Blue, Magenta, Cyan, White]

  /** `colour.value`: the SGR foreground code. */
  function Code(c: AnsiColour): (r: nat)
    ensures 30 <= r <= 37
  {
    match c
    case Black => 30
    case Red => 31
    case Green => 32
    case Yellow => 33
    case Blue => 34
    case Magenta => 35
    case Cyan => 36
    case White => 37
  }

  /** The codes run from 30 to 37 without a gap, in declaration order, so
      no two colours share a code. */
  lemma CodesContiguous()
    ensures |Colours| == 8
    ensures forall i :: 0 <= i < |Colours| ==> Code(Colours[i]) == 30 + i
    ensures forall a, b :: Code(a) == Code(b) ==> a == b
  {
  }

  /** One positional argument of `coloured`: a `str`, or any other value
      given by its `str()` and, when iterated, the `str()` of its items. */
  datatype Arg = Text(s: string) | Other(repr: string, items: seq<string>)

  function Str(a: Arg): string {
    match a
    case Text(s) => s
    case Other(repr, _) => repr
  }

  function StrOfEach(args: seq<Arg>): (r: seq<string>)
    ensures |r| == |args| && forall i :: 0 <= i < |args| ==> r[i] == Str(args[i])
  {
    seq(|args|, i requires 0 <= i < |args| => Str(args[i]))
  }

  function Start(c: AnsiColour): string {
    "\U{1B}[1;" + NatToString(Code(c)) + "m"
  }

  const End: string := "\U{1B}[0m"

  /** The text `coloured` puts between the colour escape and the reset. */
  function Body(args: seq<Arg>, sep: string): string {
    if |args| == 1 then
      match args[0]
      case Text(s) => s
      case Other(_, items) => Join(sep, items)
    else Join(sep, StrOfEach(args))
  }

  /** `coloured(colour, *args, sep=sep)`. */
  function Coloured(c: AnsiColour, args: seq<Arg>, sep: string): (r: string)
    ensures StartsWith(r, Start(c)) && EndsWith(r, End)
    ensures |r| == |Start(c)| + |Body(args, sep)| + |End|
  {
    Start(c) + Body(args, sep) + End
  }

  /** The escape-free text between the colour escape and the reset. */
  function Uncoloured(c: AnsiColour, r: string): string
    requires |r| >= |Start(c)| + |End|
  {
    r[|Start(c)|..|r| - |End|]
  }

  /** A single string argument comes back unchanged from between the escapes;
      a single other argument is its items joined with `sep`; several
      arguments are their `str()` values joined with `sep`. */
  lemma ColouredContents(c: AnsiColour, args: seq<Arg>, sep: string)
    ensures |args| == 1 && args[0].Text? ==> Uncoloured(c, Coloured(c, args, sep)) == args[0].s
    ensures |args| == 1 && args[0].Other? ==> Uncoloured(c, Coloured(c, args, sep)) == Join(sep, args[0].items)
    ensures |args| != 1 ==> Uncoloured(c, Coloured(c, args, sep)) == Join(sep, StrOfEach(args))
  {
    var r := Coloured(c, args, sep);
    assert r[|Start(c)|..|r| - |End|] == Body(args, sep);
  }

  /** The colour escape is seven characters long, its sixth the last digit
      of the colour's code. */
  lemma StartCode(c: AnsiColour)
    ensures |Start(c)| == 7 && Start(c)[5] == DigitChar(Code(c) - 30)
  {
    var n := Code(c);
    assert NatToString(n) == NatToString(n / 10) + [DigitChar(n % 10)];
  }

  /** The escape at the start names the colour: different colours give
      different output for the same arguments. */
  lemma ColouredDistinguishes(a: AnsiColour, b: AnsiColour, args: seq<Arg>, sep: string)
    requires a != b
    ensures Coloured(a, args, sep) != Coloured(b, args, sep)
  {
    StartCode(a);
    StartCode(b);
    CodesContiguous();
    assert Coloured(a, args, sep)[5] == Start(a)[5];
    assert Coloured(b, args, sep)[5] == Start(b)[5];
  }
}
