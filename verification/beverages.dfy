/** The component side of the decorator pattern (decorator/beverages.py):
    the closed `Size` enumeration and the base drinks, each an object that
    carries a fixed name, a fixed price and the one mutable size of a chain. */
module Beverages {

  /** The three sizes; a closed enumeration, so no fourth value exists. */
  datatype Size = Tall | Grande | Venti

  /** The four concrete drink classes HouseBlend, DarkRoast, Decaf, Espresso. */
  datatype BaseKind = HouseBlend | DarkRoast | Decaf | Espresso

  /** Each concrete class's `cost`, in cents (Decimal("0.89") is 89). */
  function BasePrice(kind: BaseKind): nat
  {
    match kind
    case HouseBlend => 89
    case DarkRoast => 99
    case Decaf => 105
    case Espresso => 199
  }

  /** The `description` each concrete constructor assigns. */
  function BaseDescription(kind: BaseKind): string
  {
    match kind
    case HouseBlend => "Café de la Casa"
    case DarkRoast => "Café Dark Roast"
    case Decaf => "Café Descafeinado"
    case Espresso => "Espresso"
  }

  /** A base drink. Only `size` is ever written after construction. */
  class Beverage {
    const kind: BaseKind
    const description: string := BaseDescription(kind)
    var size: Size

    /** `HouseBlend()`, `DarkRoast()`, `Decaf()` or `Espresso()`: the size starts as TALL. */
    constructor (kind: BaseKind)
      ensures this.kind == kind
      ensures size == Tall
    {
      this.kind := kind;
      size := Tall;
    }

    function GetDescription(): (d: string)
      ensures kind == HouseBlend ==> d == "Café de la Casa"
      ensures kind == DarkRoast ==> d == "Café Dark Roast"
      ensures kind == Decaf ==> d == "Café Descafeinado"
      ensures kind == Espresso ==> d == "Espresso"
    {
      description
    }

    /** Reads no mutable field: the price cannot depend on the size. */
    function Cost(): (cents: nat)
      ensures kind == HouseBlend ==> cents == 89
      ensures kind == DarkRoast ==> cents == 99
      ensures kind == Decaf ==> cents == 105
      ensures kind == Espresso ==> cents == 199
    {
      BasePrice(kind)
    }

    function GetSize(): (s: Size)
      reads this
      ensures s == size
    {
      size
    }

    /** Stores the size unconditionally. Name and price are `const` or read no
        mutable field, so they are the same before and after. */
    method SetSize(s: Size)
      modifies this
      ensures size == s && GetSize() == s
    {
      size := s;
    }
  }
}
