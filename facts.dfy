/** The facts the encoder emits and how they are printed. A fact stands for
    the clingo `Function(tag, args, True)` symbol that the encoder builds;
    printing follows clingo's `str()` of such a symbol: `tag(a1,a2,...)`,
    numbers in decimal, strings quoted and escaped. */
module Facts {
  import opened Text

  /** A table cell: `Int` for an integer cell, which numpy's `isscalar`
      accepts, and `Str` for a cell that `isscalar` rejects and clingo's
      `String` takes, given by its text. A Python or numpy string cell passes
      `isscalar` and then fails in clingo's `Number`, and a cell that is
      neither (`None`, a list) fails in `String`; those cases are not
      modelled. */
  datatype Cell = Int(n: int) | Str(s: string)

  /** An argument of a fact: clingo's `Number` or `String`. */
  datatype Symbol = Number(n: int) | String(s: string)

  /** `feature(name)`, `instance(i)` and `value(i, name, cell)` facts, each
      tagged with the name the caller chose for that kind of fact. */
  datatype Fact =
    | Feature(tag: string, name: string)
    | Instance(tag: string, index: nat)
    | Value(tag: string, index: nat, feature: string, arg: Symbol)

  /** The third argument of a value fact: a cell `isscalar` accepts becomes
      a Number, a cell it rejects a String. */
  function ValueArg(c: Cell): Symbol
  {
    match c
    case Int(n) => Number(n)
    case Str(s) => String(s)
  }

  /** The arguments of a fact, in the order the encoder passes them. */
  function Args(f: Fact): seq<Symbol>
  {
    match f
    case Feature(_, name) => [String(name)]
    case Instance(_, i) => [Number(i)]
    case Value(_, i, name, arg) => [Number(i), String(name), arg]
  }

  function RenderSymbol(s: Symbol): (r: string)
    ensures '\n' !in r
  {
    match s
    case Number(n) => IntToString(n)
    case String(t) => Quote(t)
  }

  /** The printed form of a fact, `tag(arg,...)`, without the final period. */
  function Render(f: Fact): string
  {
    var args := Args(f);
    f.tag + "(" + Join(",", seq(|args|, k requires 0 <= k < |args| => RenderSymbol(args[k]))) + ")"
  }

  /** A printed fact spans a single line whenever its tag does. */
  lemma RenderOneLine(f: Fact)
    requires Free('\n', f.tag)
    ensures Free('\n', Render(f))
  {
    var args := Args(f);
    var parts := seq(|args|, k requires 0 <= k < |args| => RenderSymbol(args[k]));
    JoinFree('\n', ",", parts);
  }
}
