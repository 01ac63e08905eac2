/** The decorator side of the pattern (decorator/condiments.py): condiment
    wrappers that each own one inner drink, add a label to its description
    and a surcharge to its cost, and forward every size query and update to
    it, so that a chain's only size lives in its innermost base drink. */
module Condiments {
  import opened Beverages
  import Utils

  /** The five concrete decorators Milk, Mocha, Soy, Whip and Caramel. */
  datatype CondimentKind = Milk | Mocha | Soy | Whip | Caramel

  /** The text each decorator appends after ", ". */
  function Label(kind: CondimentKind): string
  {
    match kind
    case Milk => "Leche"
    case Mocha => "Mocha"
    case Soy => "Soja"
    case Whip => "Crema"
    case Caramel => "Caramelo"
  }

  /** Soy's own if/elif on the inner size, in cents. */
  function SoySurcharge(size: Size): nat
  {
    match size
    case Tall => 10
    case Grande => 15
    case Venti => 20
  }

  /** What one layer adds to its inner cost, in cents, given the chain's size.
      Only Soy looks at the size, and its table is the one the pricing helper
      gives for 10, 15 and 20. */
  function Surcharge(kind: CondimentKind, size: Size): (cents: nat)
    ensures kind == Milk || kind == Whip ==> cents == 10
    ensures kind == Mocha || kind == Caramel ==> cents == 20
    ensures kind == Soy ==> cents == Utils.SizeBasedCost(size, 10, 15, 20)
  {
    match kind
    case Milk => 10
    case Mocha => 20
    case Soy => SoySurcharge(size)
    case Whip => 10
    case Caramel => 20
  }

  /** Sum of the surcharges of `layers` (innermost first) at `size`. */
  function SurchargeTotal(layers: seq<CondimentKind>, size: Size): nat
  {
    if layers == [] then 0
    else SurchargeTotal(layers[..|layers| - 1], size) + Surcharge(layers[|layers| - 1], size)
  }

  /** The price of a base of `kind` wrapped by `layers`, all at `size`. */
  function ChainCost(kind: BaseKind, size: Size, layers: seq<CondimentKind>): nat
  {
    BasePrice(kind) + SurchargeTotal(layers, size)
  }

  /** ", " + label for each layer, innermost first. */
  function Suffixes(layers: seq<CondimentKind>): string
  {
    if layers == [] then ""
    else Suffixes(layers[..|layers| - 1]) + ", " + Label(layers[|layers| - 1])
  }

  /** The description of a base of `kind` wrapped by `layers`. */
  function ChainDescription(kind: BaseKind, layers: seq<CondimentKind>): string
  {
    BaseDescription(kind) + Suffixes(layers)
  }

  /** A reference to any drink: a bare base or a condiment decorator. This is
      the Python `Beverage` type as seen by the decorators and the builder. */
  datatype Drink = Bare(base: Beverage) | Decorated(decorator: CondimentDecorator)
  {
    ghost predicate Valid()
    {
      Bare? || decorator.Valid()
    }

    /** The innermost base drink, holder of the chain's size. */
    ghost function Root(): Beverage
    {
      if Bare? then base else decorator.root
    }

    /** The condiment kinds around the root, innermost first. */
    ghost function Layers(): seq<CondimentKind>
    {
      if Bare? then [] else decorator.layers
    }

    function GetSize(): (s: Size)
      requires Valid()
      reads Root()
      ensures s == Root().size
      decreases |Layers()|, 1
    {
      match this
      case Bare(b) => b.GetSize()
      case Decorated(d) => d.GetSize()
    }

    function GetDescription(): (text: string)
      requires Valid()
      ensures text == ChainDescription(Root().kind, Layers())
      decreases |Layers()|, 1
    {
      match this
      case Bare(b) => b.GetDescription()
      case Decorated(d) => d.GetDescription()
    }

    function Cost(): (cents: nat)
      requires Valid()
      reads Root()
      ensures cents == ChainCost(Root().kind, Root().size, Layers())
      decreases |Layers()|, 1
    {
      match this
      case Bare(b) => b.Cost()
      case Decorated(d) => d.Cost()
    }

    method SetSize(s: Size)
      requires Valid()
      modifies Root()
      ensures Root().size == s && GetSize() == s
      decreases |Layers()|, 1
    {
      match this
      case Bare(b) => b.SetSize(s);
      case Decorated(d) => d.SetSize(s);
    }
  }

  /** `CondimentDecorator` with its five subclasses folded into `kind`. It
      holds its inner drink and no size of its own; `root` and `layers` are
      proof-only names for the innermost base and the kinds wrapped so far. */
  class CondimentDecorator {
    const kind: CondimentKind
    const inner: Drink
    ghost const root: Beverage
    ghost const layers: seq<CondimentKind>

    ghost predicate Valid()
      decreases |layers|
    {
      && |layers| > 0
      && layers[|layers| - 1] == kind
      && match inner
         case Bare(b) => b == root && layers == [kind]
         case Decorated(d) =>
           d.root == root && d.layers == layers[..|layers| - 1] && d.Valid()
    }

    /** `Milk(beverage)`, `Mocha(beverage)`, ...: wraps `inner` one layer deeper. */
    constructor (kind: CondimentKind, inner: Drink)
      requires inner.Valid()
      ensures this.kind == kind && this.inner == inner
      ensures root == inner.Root() && layers == inner.Layers() + [kind]
      ensures Valid()
    {
      this.kind := kind;
      this.inner := inner;
      root := inner.Root();
      layers := inner.Layers() + [kind];
    }

    /** Forwards to the inner drink, and so down to the root. */
    function GetSize(): (s: Size)
      requires Valid()
      reads root
      ensures s == root.size
      decreases |layers|, 0
    {
      inner.GetSize()
    }

    /** Forwards to the inner drink; only the root's size is written. */
    method SetSize(s: Size)
      requires Valid()
      modifies root
      ensures root.size == s && GetSize() == s
      decreases |layers|, 0
    {
      inner.SetSize(s);
    }

    /** The inner description followed by ", " and this layer's label. */
    function GetDescription(): (text: string)
      requires Valid()
      ensures text == ChainDescription(root.kind, layers)
      decreases |layers|, 0
    {
      inner.GetDescription() + ", " + Label(kind)
    }

    /** The inner cost plus this layer's surcharge at the size read now. */
    function Cost(): (cents: nat)
      requires Valid()
      reads root
      ensures cents == ChainCost(root.kind, root.size, layers)
      decreases |layers|, 0
    {
      inner.Cost() + Surcharge(kind, inner.GetSize())
    }
  }
}
