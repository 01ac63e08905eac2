/** decorator/builder.py: assembling a decorated drink from names. Base and
    condiment names are strict (an unknown one is an error); the size name is
    lenient (an unknown one means TALL). */
module Builder {
  import opened Wrappers
  import opened Beverages
  import opened Condiments

  /** Python's `str.lower` on one character, for the ASCII letters. */
  function LowerChar(c: char): char
  {
    if 'A' <= c <= 'Z' then (c as int + 32) as char else c
  }

  /** `str.lower` for ASCII text: every capital letter becomes small, every
      other character stays, and no capital is left. */
  function Lower(s: string): (r: string)
    ensures |r| == |s|
    ensures forall i :: 0 <= i < |s| ==> r[i] == LowerChar(s[i])
    ensures forall i :: 0 <= i < |r| ==> !('A' <= r[i] <= 'Z')
  {
    seq(|s|, i requires 0 <= i < |s| => LowerChar(s[i]))
  }

  /** The key under which each table lists a name, written out per value. */
  function BaseKey(kind: BaseKind): string
  {
    match kind
    case Espresso => "espresso"
    case DarkRoast => "darkroast"
    case HouseBlend => "houseblend"
    case Decaf => "decaf"
  }

  function CondimentKey(kind: CondimentKind): string
  {
    match kind
    case Milk => "milk"
    case Mocha => "mocha"
    case Soy => "soy"
    case Whip => "whip"
    case Caramel => "caramel"
  }

  function SizeKey(size: Size): string
  {
    match size
    case Tall => "tall"
    case Grande => "grande"
    case Venti => "venti"
  }

  /** `BASES`, `CONDIMENTS` and `SIZE_MAP`. */
  const Bases: map<string, BaseKind> :=
    map["espresso" := Espresso, "darkroast" := DarkRoast, "houseblend" := HouseBlend, "decaf" := Decaf]

  const CondimentTable: map<string, CondimentKind> :=
    map["milk" := Milk, "mocha" := Mocha, "soy" := Soy, "whip" := Whip, "caramel" := Caramel]

  const SizeMap: map<string, Size> :=
    map["tall" := Tall, "grande" := Grande, "venti" := Venti]

  /** `BASES.get(base.lower())`: found exactly when the lowered name is one
      of the four keys, and then it is that kind's key. */
  function LookupBase(name: string): (r: Option<BaseKind>)
    ensures r.Some? ==> Lower(name) == BaseKey(r.value)
    ensures r.None? ==> forall k :: Lower(name) != BaseKey(k)
  {
    var key := Lower(name);
    if key in Bases then Some(Bases[key]) else None
  }

  /** `CONDIMENTS.get(cond.lower())`. */
  function LookupCondiment(name: string): (r: Option<CondimentKind>)
    ensures r.Some? ==> Lower(name) == CondimentKey(r.value)
    ensures r.None? ==> forall k :: Lower(name) != CondimentKey(k)
  {
    var key := Lower(name);
    if key in CondimentTable then Some(CondimentTable[key]) else None
  }

  /** `SIZE_MAP.get(size.lower(), Size.TALL)`: a known name gives its size,
      anything else gives TALL. */
  function ParseSize(name: string): (s: Size)
    ensures Lower(name) == SizeKey(s) || (s == Tall && forall t :: Lower(name) != SizeKey(t))
  {
    var key := Lower(name);
    if key in SizeMap then SizeMap[key] else Tall
  }

  /** The `ValueError` messages; they carry the name exactly as given. */
  function UnknownBaseMessage(name: string): (m: string)
  {
    "Bebida base desconocida: " + name
  }

  function UnknownCondimentMessage(name: string): (m: string)
  {
    "Condimento desconocido: " + name
  }

  /** What a successful build describes: a base kind, the size it is set to,
      and the condiment kinds wrapped around it, innermost first. */
  datatype Order = Order(base: BaseKind, size: Size, layers: seq<CondimentKind>)

  /** The condiment names resolved in list order, stopping at the first
      unknown one, whose message is the result. */
  function ResolveCondiments(names: seq<string>): (r: Result<seq<CondimentKind>, string>)
    ensures r.Success? <==> forall i :: 0 <= i < |names| ==> LookupCondiment(names[i]).Some?
    ensures r.Success? ==> |r.value| == |names|
    ensures r.Success? ==> forall i :: 0 <= i < |names| ==> LookupCondiment(names[i]) == Some(r.value[i])
    ensures r.Failure? ==> exists i :: FirstUnknown(names, i) && r.error == UnknownCondimentMessage(names[i])
    decreases |names|
  {
    if names == [] then Success([])
    else
      match LookupCondiment(names[0])
      case None => assert FirstUnknown(names, 0); Failure(UnknownCondimentMessage(names[0]))
      case Some(c) =>
        match ResolveCondiments(names[1..])
        case Failure(e) =>
          ghost var i :| FirstUnknown(names[1..], i) && e == UnknownCondimentMessage(names[1..][i]);
          assert FirstUnknown(names, i + 1);
          Failure(e)
        case Success(rest) => Success([c] + rest)
  }

  /** Index `i` holds the first name that is not a condiment. */
  ghost predicate FirstUnknown(names: seq<string>, i: int)
  {
    && 0 <= i < |names|
    && LookupCondiment(names[i]).None?
    && forall j :: 0 <= j < i ==> LookupCondiment(names[j]).Some?
  }

  /** A list whose first unknown name is at `i` fails with that name. */
  lemma ResolveFailsAt(names: seq<string>, i: int)
    requires FirstUnknown(names, i)
    ensures ResolveCondiments(names) == Failure(UnknownCondimentMessage(names[i]))
  {
    var r := ResolveCondiments(names);
    if r.Failure? {
      var j :| FirstUnknown(names, j) && r.error == UnknownCondimentMessage(names[j]);
    }
  }

  /** Names that each resolve to the matching kind resolve, as a list, to
      exactly that kind list. */
  lemma {:induction false} ResolveCondimentsSucceeds(names: seq<string>, kinds: seq<CondimentKind>)
    requires |names| == |kinds| && forall i :: 0 <= i < |names| ==> LookupCondiment(names[i]) == Some(kinds[i])
    ensures ResolveCondiments(names) == Success(kinds)
    decreases |names|
  {
    if names != [] {
      assert LookupCondiment(names[0]) == Some(kinds[0]);
      assert forall i :: 0 <= i < |names[1..]| ==> LookupCondiment(names[1..][i]) == Some(kinds[1..][i]) by {
        forall i | 0 <= i < |names[1..]|
          ensures LookupCondiment(names[1..][i]) == Some(kinds[1..][i])
        {
          assert names[1..][i] == names[i + 1] && kinds[1..][i] == kinds[i + 1];
        }
      }
      ResolveCondimentsSucceeds(names[1..], kinds[1..]);
      assert [kinds[0]] + kinds[1..] == kinds;
    }
  }

  /** `build_beverage` as a value: the base is checked first, then the
      condiments; the size never fails. */
  function Resolve(base: string, size: string, condiments: seq<string>): (r: Result<Order, string>)
    ensures LookupBase(base).None? ==> r == Failure(UnknownBaseMessage(base))
    ensures LookupBase(base).Some? && ResolveCondiments(condiments).Failure? ==>
              r == Failure(ResolveCondiments(condiments).error)
    ensures r.Success? <==> LookupBase(base).Some? && ResolveCondiments(condiments).Success?
    ensures r.Success? ==>
              && r.value.base == LookupBase(base).value
              && r.value.size == ParseSize(size)
              && r.value.layers == ResolveCondiments(condiments).value
  {
    match LookupBase(base)
    case None => Failure(UnknownBaseMessage(base))
    case Some(kind) =>
      match ResolveCondiments(condiments)
      case Failure(e) => Failure(e)
      case Success(layers) => Success(Order(kind, ParseSize(size), layers))
  }

  /** A successful resolution, spelled out. */
  lemma ResolveSucceeds(base: string, size: string, condiments: seq<string>, kind: BaseKind)
    requires LookupBase(base) == Some(kind) && ResolveCondiments(condiments).Success?
    ensures Resolve(base, size, condiments)
            == Success(Order(kind, ParseSize(size), ResolveCondiments(condiments).value))
  {
  }

  /** The loop of `build_beverage`: wraps `beverage` in one new decorator per
      condiment name, first name innermost, and stops at the first unknown
      name. It only allocates decorators; `beverage` is left as it is. */
  method WrapCondiments(beverage: Beverage, condiments: seq<string>)
    returns (r: Result<Drink, string>)
    ensures r.Failure? <==> ResolveCondiments(condiments).Failure?
    ensures r.Failure? ==> r.error == ResolveCondiments(condiments).error
    ensures r.Success? ==>
              && r.value.Valid()
              && r.value.Root() == beverage
              && r.value.Layers() == ResolveCondiments(condiments).value
  {
    var drink := Bare(beverage);
    ghost var layers: seq<CondimentKind> := [];
    for i := 0 to |condiments|
      invariant drink.Valid() && drink.Root() == beverage && drink.Layers() == layers
      invariant |layers| == i
      invariant forall j :: 0 <= j < i ==> LookupCondiment(condiments[j]) == Some(layers[j])
    {
      var cond := LookupCondiment(condiments[i]);
      if cond.None? {
        ResolveFailsAt(condiments, i);
        return Failure(UnknownCondimentMessage(condiments[i]));
      }
      var decorator := new CondimentDecorator(cond.value, drink);
      drink := Decorated(decorator);
      layers := layers + [cond.value];
    }
    ResolveCondimentsSucceeds(condiments, layers);
    return Success(drink);
  }

  /** `build_beverage`: a new base drink set to the parsed size, wrapped by
      one new decorator per condiment name, first name innermost. On an
      unknown name nothing is returned but the error message. */
  method BuildBeverage(base: string, size: string := "tall", condiments: seq<string> := [])
    returns (r: Result<Drink, string>)
    ensures r.Failure? <==> Resolve(base, size, condiments).Failure?
    ensures r.Failure? ==> r.error == Resolve(base, size, condiments).error
    ensures r.Success? ==>
              && r.value.Valid()
              && fresh(r.value.Root())
              && r.value.Root().kind == Resolve(base, size, condiments).value.base
              && r.value.Root().size == Resolve(base, size, condiments).value.size
              && r.value.Layers() == Resolve(base, size, condiments).value.layers
  {
    var kind := LookupBase(base);
    if kind.None? {
      return Failure(UnknownBaseMessage(base));
    }
    var beverage := new Beverage(kind.value);
    beverage.SetSize(ParseSize(size));
    r := WrapCondiments(beverage, condiments);
    if r.Success? {
      ResolveSucceeds(base, size, condiments, kind.value);
    }
  }
}
